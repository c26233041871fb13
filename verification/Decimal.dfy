/** strconv's decimal printing of non-negative numbers and the reading that undoes it. */
module Decimal {

  function Digit(d: nat): (c: char)
    requires d < 10
    ensures '0' <= c <= '9'
  {
    '0' + d as char
  }

  predicate IsDigit(c: char) { '0' <= c <= '9' }

  function FormatNat(n: nat): (s: string)
    ensures |s| >= 1
    ensures forall c | c in s :: IsDigit(c)
  {
    if n < 10 then [Digit(n)] else FormatNat(n / 10) + [Digit(n % 10)]
  }

  /** fmt's %02d. */
  function Pad2(n: int): (s: string)
    ensures |s| >= 2
  {
    if n < 0 then "-" + FormatNat(-n)
    else if n < 10 then "0" + FormatNat(n)
    else assert FormatNat(n) == FormatNat(n / 10) + [Digit(n % 10)]; FormatNat(n)
  }

  /** Reads digits; any other character counts as zero. */
  function ParseNat(s: string): nat {
    if s == "" then 0
    else
      var c := s[|s| - 1];
      10 * ParseNat(s[..|s| - 1]) + if IsDigit(c) then (c - '0') as nat else 0
  }

  lemma {:induction false} ParseUndoesFormat(n: nat)
    ensures ParseNat(FormatNat(n)) == n
  {
    if n >= 10 {
      ParseUndoesFormat(n / 10);
      assert FormatNat(n)[..|FormatNat(n)| - 1] == FormatNat(n / 10);
    } else {
      assert FormatNat(n)[..0] == "";
    }
  }

  lemma {:induction false} ParseUndoesPad2(n: nat)
    ensures (forall c | c in Pad2(n) :: IsDigit(c)) && ParseNat(Pad2(n)) == n
  {
    ParseUndoesFormat(n);
    if n < 10 {
      var s := Pad2(n);
      assert s == ['0', Digit(n)];
      assert s[..1] == "0";
      assert ParseNat("0") == 0 by { assert "0"[..0] == ""; }
    }
  }

  lemma {:induction false} FormatLength(n: nat)
    ensures n < 10 <==> |FormatNat(n)| == 1
    ensures n < 100 <==> |FormatNat(n)| <= 2
    ensures n < 1000 <==> |FormatNat(n)| <= 3
  {
    if n >= 10 {
      FormatLength(n / 10);
    }
  }

  lemma {:induction false} FirstDigit(n: nat)
    ensures n > 0 ==> FormatNat(n)[0] != '0'
  {
    if n >= 10 {
      FirstDigit(n / 10);
    }
  }

  predicate AllDigits(s: string) { forall c | c in s :: IsDigit(c) }

  /** The texts that %02d prints for the natural numbers. */
  predicate IsPad2(s: string) {
    AllDigits(s) && |s| >= 2 && (|s| > 2 ==> s[0] != '0')
  }

  lemma ParseSnoc(front: string, c: char)
    requires IsDigit(c)
    ensures ParseNat(front + [c]) == 10 * ParseNat(front) + (c - '0') as nat
  {
    assert (front + [c])[..|front|] == front;
  }

  lemma FormatSnoc(n: nat, c: char)
    requires n > 0 && IsDigit(c)
    ensures FormatNat(10 * n + (c - '0') as nat) == FormatNat(n) + [c]
  {
    var d: nat := (c - '0') as nat;
    assert (10 * n + d) / 10 == n && (10 * n + d) % 10 == d;
    assert Digit(d) == c;
  }

  lemma OneDigit(c: char)
    requires IsDigit(c)
    ensures ParseNat([c]) == (c - '0') as nat && FormatNat(ParseNat([c])) == [c]
  {
    assert [c][..0] == "" && ParseNat("") == 0;
    assert Digit((c - '0') as nat) == c;
  }

  lemma SnocUndoesParse(front: string, c: char)
    requires IsDigit(c) && ParseNat(front) > 0 && FormatNat(ParseNat(front)) == front
    ensures ParseNat(front + [c]) > 0 && FormatNat(ParseNat(front + [c])) == front + [c]
  {
    ParseSnoc(front, c);
    FormatSnoc(ParseNat(front), c);
  }

  lemma FrontDigits(front: string, c: char)
    requires AllDigits(front + [c])
    ensures AllDigits(front) && IsDigit(c)
  {
    assert forall d | d in front :: d in front + [c];
    assert c in front + [c];
  }

  lemma {:induction false} FormatUndoesParse(s: string)
    requires s != "" && AllDigits(s) && s[0] != '0'
    ensures ParseNat(s) > 0 && FormatNat(ParseNat(s)) == s
  {
    var front, last := s[..|s| - 1], s[|s| - 1];
    assert s == front + [last];
    FrontDigits(front, last);
    if front == "" {
      assert s == [last];
      OneDigit(last);
    } else {
      FormatUndoesParse(front);
      SnocUndoesParse(front, last);
    }
  }

  lemma Pad2Prints(n: nat)
    ensures IsPad2(Pad2(n))
  {
    ParseUndoesPad2(n);
    FirstDigit(n);
    FormatLength(n);
  }

  lemma Pad2UndoesParse(s: string)
    requires IsPad2(s)
    ensures Pad2(ParseNat(s)) == s
  {
    if s[0] == '0' {
      var c := s[1];
      assert c in s && s == ['0', c] && s[..1] == "0" && "0"[..0] == "";
      assert ParseNat(s) == (c - '0') as nat by { assert ParseNat("0") == 0; }
    } else {
      FormatUndoesParse(s);
      FormatLength(ParseNat(s));
    }
  }
}
