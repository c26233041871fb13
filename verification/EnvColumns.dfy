/** Lists in environment variables: every variable of a group holds one comma-terminated column. */
module EnvColumns {
  import opened Types

  function Lookup<K, V>(m: map<K, V>, k: K): Option<V> {
    if k in m then Some(m[k]) else None
  }

  /** Reading a missing key of a Go map gives the empty string. */
  function Get<K>(m: map<K, string>, k: K): string {
    if k in m then m[k] else ""
  }

  /** One row: every field's text and a comma go to the end of its variable. */
  function AddFields<K(==)>(env: map<K, string>, fields: map<K, string>): map<K, string> {
    map k | k in env.Keys + fields.Keys :: if k in fields then Get(env, k) + fields[k] + "," else env[k]
  }

  function AddAll<K(==)>(env: map<K, string>, rows: seq<map<K, string>>): map<K, string> {
    if rows == [] then env else AddFields(AddAll(env, rows[..|rows| - 1]), rows[|rows| - 1])
  }

  /** A column: each text followed by a comma. */
  function Joined(texts: seq<string>): (s: string)
    ensures s == "" || s[|s| - 1] == ','
  {
    if texts == [] then "" else Joined(texts[..|texts| - 1]) + texts[|texts| - 1] + ","
  }

  ghost predicate HaveColumn<K>(rows: seq<map<K, string>>, k: K) {
    forall r | r in rows :: k in r
  }

  function Texts<K>(rows: seq<map<K, string>>, k: K): (ts: seq<string>)
    requires HaveColumn(rows, k)
    ensures |ts| == |rows|
    ensures forall i | 0 <= i < |rows| :: ts[i] == rows[i][k]
  {
    seq(|rows|, i requires 0 <= i < |rows| => rows[i][k])
  }

  lemma TextsSnoc<K>(rows: seq<map<K, string>>, k: K)
    requires HaveColumn(rows, k) && rows != []
    ensures HaveColumn(rows[..|rows| - 1], k)
    ensures Joined(Texts(rows, k))
            == Joined(Texts(rows[..|rows| - 1], k)) + rows[|rows| - 1][k] + ","
  {
    assert Texts(rows, k)[..|rows| - 1] == Texts(rows[..|rows| - 1], k);
  }

  lemma {:induction false} AddAllColumn<K>(env: map<K, string>, rows: seq<map<K, string>>, k: K)
    requires HaveColumn(rows, k)
    ensures rows == [] ==> AddAll(env, rows) == env
    ensures rows != [] ==> Lookup(AddAll(env, rows), k) == Some(Get(env, k) + Joined(Texts(rows, k)))
  {
    if rows != [] {
      var front, last := rows[..|rows| - 1], rows[|rows| - 1];
      TextsSnoc(rows, k);
      AddAllColumn(env, front, k);
      var before := Get(AddAll(env, front), k);
      assert before == Get(env, k) + Joined(Texts(front, k));
      assert last in rows;
      assert Lookup(AddAll(env, rows), k) == Some(before + last[k] + ",");
      Associate(Get(env, k), Joined(Texts(front, k)), last[k]);
    }
  }

  lemma Associate(a: string, b: string, c: string)
    ensures (a + b) + c + "," == a + (b + c + ",")
  {
  }

  lemma {:induction false} AddAllElsewhere<K>(env: map<K, string>, rows: seq<map<K, string>>, k: K)
    requires forall r | r in rows :: k !in r
    ensures Lookup(AddAll(env, rows), k) == Lookup(env, k)
  {
    if rows != [] {
      AddAllElsewhere(env, rows[..|rows| - 1], k);
      assert rows[|rows| - 1] in rows;
    }
  }

  // ---- reading a column back -------------------------------------------------------------------

  /** The entries of a column: each comma ends one. */
  function Entries(s: string): (es: seq<string>)
    ensures s != "" ==> es != []
  {
    if s == "" then []
    else if s[0] == ',' then [""] + Entries(s[1..])
    else Prefixed(s[0], Entries(s[1..]))
  }

  function Prefixed(c: char, es: seq<string>): seq<string> {
    if es == [] then [[c]] else [[c] + es[0]] + es[1..]
  }

  lemma PrefixedSum(c: char, x: seq<string>, y: seq<string>)
    requires x != []
    ensures Prefixed(c, x + y) == Prefixed(c, x) + y
  {
    assert (x + y)[1..] == x[1..] + y;
  }

  lemma TailSum(a: string, b: string)
    requires a != ""
    ensures (a + b)[0] == a[0] && (a + b)[1..] == a[1..] + b
  {
  }

  lemma ConsSum(x: seq<string>, y: seq<string>)
    ensures [""] + (x + y) == [""] + x + y
  {
  }

  /** After a comma reading starts afresh. */
  lemma {:induction false} EntriesAppend(a: string, b: string)
    requires a == "" || a[|a| - 1] == ','
    ensures Entries(a + b) == Entries(a) + Entries(b)
  {
    if a == "" {
      assert a + b == b;
    } else {
      TailSum(a, b);
      EntriesAppend(a[1..], b);
      if a[0] == ',' {
        ConsSum(Entries(a[1..]), Entries(b));
      } else {
        PrefixedSum(a[0], Entries(a[1..]), Entries(b));
      }
    }
  }

  /** A text followed by a comma is one entry exactly when it has no comma of its own. */
  lemma {:induction false} OneEntry(t: string)
    ensures ',' !in t ==> Entries(t + ",") == [t]
    ensures ',' in t ==> |Entries(t + ",")| >= 2
  {
    if t == "" {
      assert t + "," == ",";
      assert ","[1..] == "";
    } else {
      TailSum(t, ",");
      OneEntry(t[1..]);
      assert t == [t[0]] + t[1..];
    }
  }

  ghost predicate CommaFree(texts: seq<string>) {
    forall t | t in texts :: ',' !in t
  }

  lemma JoinedSnoc(texts: seq<string>)
    requires texts != []
    ensures Joined(texts) == Joined(texts[..|texts| - 1]) + (texts[|texts| - 1] + ",")
  {
    Regroup(Joined(texts[..|texts| - 1]), texts[|texts| - 1]);
  }

  lemma Regroup(a: string, b: string)
    ensures a + b + "," == a + (b + ",")
  {
  }

  lemma EntriesSnoc(texts: seq<string>)
    requires texts != []
    ensures Entries(Joined(texts)) == Entries(Joined(texts[..|texts| - 1])) + Entries(texts[|texts| - 1] + ",")
  {
    var a, t := Joined(texts[..|texts| - 1]), texts[|texts| - 1];
    EntriesAppend(a, t + ",");
    JoinedSnoc(texts);
  }

  lemma CommaFreeSnoc(texts: seq<string>)
    requires texts != []
    ensures CommaFree(texts) <==> CommaFree(texts[..|texts| - 1]) && ',' !in texts[|texts| - 1]
  {
    assert texts == texts[..|texts| - 1] + [texts[|texts| - 1]];
  }

  lemma {:induction false} EntriesExact(texts: seq<string>)
    requires CommaFree(texts)
    ensures Entries(Joined(texts)) == texts
  {
    if texts != [] {
      CommaFreeSnoc(texts);
      EntriesExact(texts[..|texts| - 1]);
      LastEntry(texts);
    }
  }

  lemma Glue(whole: seq<string>, front: seq<string>, back: seq<string>, texts: seq<string>)
    requires texts != [] && whole == front + back
    requires front == texts[..|texts| - 1] && back == [texts[|texts| - 1]]
    ensures whole == texts
  {
  }

  lemma LastEntry(texts: seq<string>)
    requires texts != [] && ',' !in texts[|texts| - 1]
    requires Entries(Joined(texts[..|texts| - 1])) == texts[..|texts| - 1]
    ensures Entries(Joined(texts)) == texts
  {
    EntriesSnoc(texts);
    OneEntry(texts[|texts| - 1]);
    Glue(Entries(Joined(texts)), Entries(Joined(texts[..|texts| - 1])), Entries(texts[|texts| - 1] + ","), texts);
  }

  lemma {:induction false} EntriesCount(texts: seq<string>)
    ensures |Entries(Joined(texts))| >= |texts|
    ensures !CommaFree(texts) ==> |Entries(Joined(texts))| > |texts|
  {
    if texts != [] {
      CommaFreeSnoc(texts);
      EntriesSnoc(texts);
      EntriesCount(texts[..|texts| - 1]);
      OneEntry(texts[|texts| - 1]);
    }
  }

  /** The entries of a variable; none when it is not set. */
  function ColumnOf<K>(env: map<K, string>, k: K): seq<string> {
    if k in env then Entries(env[k]) else []
  }

  /** What rows of a list leave in a variable that held `was`. */
  function Appended<K>(was: Option<string>, rows: seq<map<K, string>>, k: K): Option<string>
    requires HaveColumn(rows, k)
  {
    if rows == [] then was else Some(was.GetOr("") + Joined(Texts(rows, k)))
  }

  /** Written to an unset variable, a column reads back as its texts, one entry per row, exactly when
      no text contains a comma; otherwise there are too many entries. */
  lemma ColumnRoundTrip<K>(env: map<K, string>, rows: seq<map<K, string>>, k: K)
    requires HaveColumn(rows, k) && Lookup(env, k) == Appended(None, rows, k)
    ensures ColumnOf(env, k) == Texts(rows, k) <==> CommaFree(Texts(rows, k))
    ensures |ColumnOf(env, k)| == |rows| <==> CommaFree(Texts(rows, k))
  {
    EntriesCount(Texts(rows, k));
    if CommaFree(Texts(rows, k)) { EntriesExact(Texts(rows, k)); }
    assert "" + Joined(Texts(rows, k)) == Joined(Texts(rows, k));
  }
}
