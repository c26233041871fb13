/** The pod-name printer and the webhook's length checks that must cover it. */
module PodNames {
  import opened Decimal

  // the longest label a DNS name may carry, section 2.3.4 of RFC 1035
  const MAX_LABEL_LENGTH: nat := 63
  const STEP_INFIX := "-s"
  const INVALID_STEP_NAME := "no-name"

  function StepName(steps: seq<string>, stepNum: int): string {
    if 0 <= stepNum < |steps| && steps[stepNum] != "" then steps[stepNum] else INVALID_STEP_NAME
  }

  function NameSuffix(steps: seq<string>, stepNum: int): (s: string) {
    Pad2(stepNum) + "-" + StepName(steps, stepNum)
  }

  function GetPodName(name: string, steps: seq<string>, stepNum: int): string {
    if |steps| == 0 then name
    else name + STEP_INFIX + NameSuffix(steps, stepNum)
  }

  /** What a pod is called: like its custom resource without a workflow, and otherwise after the custom
      resource, the step's number in two digits or more, and the step, or "no-name" if it has none. */
  lemma PodNameReads(name: string, steps: seq<string>, i: nat)
    ensures steps == [] ==> GetPodName(name, steps, i) == name
    ensures i < |steps| && steps[i] != "" ==> GetPodName(name, steps, i) == name + "-s" + (Pad2(i) + "-" + steps[i])
    ensures steps != [] && (i >= |steps| || steps[i] == "") ==>
              GetPodName(name, steps, i) == name + "-s" + (Pad2(i) + "-" + "no-name")
    ensures ParseNat(Pad2(i)) == i && |Pad2(i)| >= 2 && (|Pad2(i)| == 2 <==> i < 100)
  {
    ParseUndoesPad2(i);
    FormatLength(i);
  }

  function BeforeDash(s: string): string {
    if s == "" || s[0] == '-' then "" else [s[0]] + BeforeDash(s[1..])
  }

  lemma {:induction false} BeforeDashFinds(a: string, rest: string)
    ensures BeforeDash(a + "-" + rest) == BeforeDash(a)
    ensures AllDigits(a) ==> BeforeDash(a) == a
  {
    if a == "" {
      assert a + "-" + rest == "-" + rest;
    } else {
      BeforeDashFinds(a[1..], rest);
      assert (a + "-" + rest)[1..] == a[1..] + "-" + rest;
      assert AllDigits(a) ==> IsDigit(a[0]) && AllDigits(a[1..]);
    }
  }

  lemma SuffixShape(steps: seq<string>, i: int)
    ensures i >= 0 ==> NameSuffix(steps, i) == Pad2(i) + "-" + StepName(steps, i)
    ensures i < 0 ==> |NameSuffix(steps, i)| > 0 && NameSuffix(steps, i)[0] == '-'
    ensures i < 0 ==> NameSuffix(steps, i)[1..] == FormatNat(-i) + "-" + StepName(steps, i)
  {
  }

  /** The step number, read back from the part of the name after the infix. */
  function NumberIn(suffix: string): int {
    var negative := suffix != "" && suffix[0] == '-';
    var number: int := ParseNat(BeforeDash(if negative then suffix[1..] else suffix));
    if negative then -number else number
  }

  lemma NumberInSuffix(steps: seq<string>, i: int)
    ensures NumberIn(NameSuffix(steps, i)) == i
  {
    SuffixShape(steps, i);
    if i >= 0 {
      ParseUndoesPad2(i);
      BeforeDashFinds(Pad2(i), StepName(steps, i));
      assert IsDigit(Pad2(i)[0]);
    } else {
      ParseUndoesFormat(-i);
      BeforeDashFinds(FormatNat(-i), StepName(steps, i));
    }
  }

  lemma NameIsHeadAndSuffix(head: string, a: string, b: string)
    requires head + a == head + b
    ensures a == b
  {
    assert a == (head + a)[|head|..] && b == (head + b)[|head|..];
  }

  /** With a workflow, different step indices give different pod names, whatever the step names. */
  lemma PodNamesAreInjective(name: string, steps: seq<string>, i: int, j: int)
    requires |steps| > 0
    requires GetPodName(name, steps, i) == GetPodName(name, steps, j)
    ensures i == j
  {
    NameIsHeadAndSuffix(name + STEP_INFIX, NameSuffix(steps, i), NameSuffix(steps, j));
    NumberInSuffix(steps, i);
    NumberInSuffix(steps, j);
  }

  /** The names that pods of a custom resource may have, whatever its workflow. */
  ghost predicate Prints(name: string, podName: string) {
    exists steps: seq<string>, i: nat :: GetPodName(name, steps, i) == podName
  }

  lemma PodNameIsOwn(name: string, steps: seq<string>, i: nat)
    ensures Prints(name, GetPodName(name, steps, i))
  {
  }

  /** `b` is `a`, the step infix and a number as %02d prints it, and then ends or goes on with a dash. */
  predicate Continues(a: string, b: string) {
    a + STEP_INFIX <= b && IsPad2(BeforeDash(b[|a| + |STEP_INFIX|..]))
  }

  /** Neither name continues the other with a step number. */
  predicate Separate(a: string, b: string) {
    a != b && !Continues(a, b) && !Continues(b, a)
  }

  /** The name that GetPodName prints for a step of this number and name. */
  function StepPodName(name: string, i: nat, step: string): string {
    name + STEP_INFIX + (Pad2(i) + "-" + step)
  }

  lemma PrintsStep(name: string, i: nat, step: string)
    requires step != ""
    ensures Prints(name, StepPodName(name, i, step))
  {
    var steps := seq(i + 1, _ => step);
    assert GetPodName(name, steps, i) == StepPodName(name, i, step);
  }

  lemma PrintedShape(name: string, podName: string) returns (i: nat, step: string)
    requires Prints(name, podName)
    ensures podName == name || (step != "" && podName == StepPodName(name, i, step))
  {
    var steps: seq<string>, k: nat :| GetPodName(name, steps, k) == podName;
    i, step := k, StepName(steps, k);
  }

  lemma NumberBeforeDash(i: nat, rest: string)
    ensures BeforeDash(Pad2(i) + "-" + rest) == Pad2(i) && IsPad2(Pad2(i))
  {
    ParseUndoesPad2(i);
    BeforeDashFinds(Pad2(i), rest);
    Pad2Prints(i);
  }

  lemma {:induction false} BeforeDashSplits(s: string)
    ensures var d := BeforeDash(s); d <= s && (d == s || s == d + "-" + s[|d| + 1..])
  {
    if s != "" && s[0] != '-' {
      BeforeDashSplits(s[1..]);
    }
  }

  lemma StepNameContinues(name: string, i: nat, step: string)
    ensures Continues(name, StepPodName(name, i, step))
  {
    NumberBeforeDash(i, step);
    assert StepPodName(name, i, step)[|name| + |STEP_INFIX|..] == Pad2(i) + "-" + step;
  }

  lemma LongerContinues(a: string, i: nat, x: string, b: string, j: nat, y: string)
    requires StepPodName(a, i, x) == StepPodName(b, j, y) && |a| < |b|
    ensures Continues(a, b)
  {
    var n := StepPodName(a, i, x);
    assert n[|a|] == '-' && n[|a| + 1] == 's';
    assert n[|b|] == '-' && n[|b| + 1] == 's';
    assert forall k | 0 <= k < |b| :: b[k] == n[k];
    assert a + STEP_INFIX <= b;
    var r := b[|a| + |STEP_INFIX|..];
    var rest := "s" + (Pad2(j) + "-" + y);
    assert n[|a| + |STEP_INFIX|..] == Pad2(i) + "-" + x;
    assert n[|a| + |STEP_INFIX|..] == r + "-" + rest;
    NumberBeforeDash(i, x);
    BeforeDashFinds(r, rest);
  }

  lemma SharedNameContinues(a: string, b: string, podName: string)
    requires Prints(a, podName) && Prints(b, podName) && |a| <= |b|
    ensures a == b || Continues(a, b)
  {
    var i, x := PrintedShape(a, podName);
    var j, y := PrintedShape(b, podName);
    if podName == b {
      StepNameContinues(a, i, x);
    } else if |a| < |b| {
      LongerContinues(a, i, x, b, j, y);
    } else {
      assert a == podName[..|a|] && b == podName[..|b|];
    }
  }

  lemma BeforeDashContinues(r: string, tail: string) returns (step: string)
    requires tail != ""
    ensures r + "-" + tail == BeforeDash(r) + "-" + step && step != ""
  {
    var d := BeforeDash(r);
    BeforeDashSplits(r);
    if d == r {
      step := tail;
    } else {
      var rest := r[|d| + 1..];
      step := rest + "-" + tail;
      assert d + "-" + rest + "-" + tail == d + "-" + step;
    }
  }

  lemma Regroup(a: string, r: string, d: string, tail: string, step: string)
    requires r + "-" + tail == d + "-" + step
    ensures (a + STEP_INFIX + r) + "-" + tail == a + STEP_INFIX + (d + "-" + step)
  {
    assert (a + STEP_INFIX + r) + "-" + tail == a + STEP_INFIX + (r + "-" + tail);
  }

  lemma CutInfix(a: string, b: string)
    requires a + STEP_INFIX <= b
    ensures b == a + STEP_INFIX + b[|a| + |STEP_INFIX|..]
  {
  }

  lemma CutDash(b: string, rest: string)
    ensures b + STEP_INFIX + rest == b + "-" + ("s" + rest)
  {
    assert STEP_INFIX == "-" + "s";
  }

  /** Some step of `a` and the first step "x" of `b` then have pods of one name. */
  lemma ContinuedIsShared(a: string, b: string) returns (i: nat, step: string)
    requires Continues(a, b)
    ensures step != "" && StepPodName(a, i, step) == StepPodName(b, 0, "x")
  {
    var r := b[|a| + |STEP_INFIX|..];
    var d, tail := BeforeDash(r), "s" + (Pad2(0) + "-" + "x");
    i := ParseNat(d);
    step := BeforeDashContinues(r, tail);
    Pad2UndoesParse(d);
    Regroup(a, r, d, tail, step);
    CutInfix(a, b);
    CutDash(b, Pad2(0) + "-" + "x");
  }

  lemma ContinuedPrints(a: string, b: string)
    requires Continues(a, b)
    ensures Prints(a, StepPodName(b, 0, "x")) && Prints(b, StepPodName(b, 0, "x"))
  {
    var i, step := ContinuedIsShared(a, b);
    PrintsStep(a, i, step);
    PrintsStep(b, 0, "x");
  }

  /** Two custom resources can have a pod name in common exactly when their names are not separate. */
  lemma SharedNames(a: string, b: string)
    ensures (exists podName :: Prints(a, podName) && Prints(b, podName)) <==> !Separate(a, b)
  {
    if podName :| Prints(a, podName) && Prints(b, podName) {
      if |a| <= |b| {
        SharedNameContinues(a, b, podName);
      } else {
        SharedNameContinues(b, a, podName);
      }
    } else if a == b {
      assert GetPodName(a, [], 0) == a;
      assert Prints(a, a) && Prints(b, a);
    } else if Continues(a, b) {
      ContinuedPrints(a, b);
    } else if Continues(b, a) {
      ContinuedPrints(b, a);
    }
  }

  /** One-step pods of `a` and the plain pod of another custom resource can have the same name. */
  lemma NamesCollide()
    ensures GetPodName("a", ["x"], 0) == GetPodName("a-s00-x", [], 0)
  {
    assert FormatNat(0) == "0";
  }

  /** The webhook's error for a name that is too long: the length it found and the kind. */
  datatype NameError = NameTooLong(badValue: nat, kind: string)

  function NameErrors(name: string, kind: string): seq<NameError> {
    if |name| >= MAX_LABEL_LENGTH then [NameTooLong(|name|, kind)] else []
  }

  function StepNameLength(name: string, step: string): nat { |name| + |step| + |"-sXX-"| }

  /** One error for each step whose name is too long, in workflow order. */
  function WorkflowNameErrors(name: string, kind: string, steps: seq<string>): seq<NameError> {
    if steps == [] then []
    else
      var last := StepNameLength(name, steps[|steps| - 1]);
      WorkflowNameErrors(name, kind, steps[..|steps| - 1]) +
      (if last >= MAX_LABEL_LENGTH then [NameTooLong(last, kind)] else [])
  }

  method ValidatePodName(allErrs: seq<NameError>, name: string, kind: string) returns (errs: seq<NameError>)
    ensures errs == allErrs + NameErrors(name, kind)
    ensures if |name| < 63 then errs == allErrs else errs == allErrs + [NameTooLong(|name|, kind)]
  {
    errs := allErrs;
    if |name| >= MAX_LABEL_LENGTH {
      errs := errs + [NameTooLong(|name|, kind)];
    }
  }

  /** How many steps have names that are too long. */
  function LongNames(name: string, steps: seq<string>): nat {
    if steps == [] then 0
    else LongNames(name, steps[..|steps| - 1]) + if |name| + |steps[|steps| - 1]| + 5 >= 63 then 1 else 0
  }

  predicate NameErrorAt(errs: seq<NameError>, k: nat, e: NameError) { k < |errs| && errs[k] == e }

  lemma {:induction false} ErrorsCount(name: string, kind: string, steps: seq<string>)
    ensures |WorkflowNameErrors(name, kind, steps)| == LongNames(name, steps)
  {
    if steps != [] {
      ErrorsCount(name, kind, steps[..|steps| - 1]);
    }
  }

  /** Each step whose name is too long has its error, after those of the steps before it. */
  lemma {:induction false} ErrorStands(name: string, kind: string, steps: seq<string>, i: nat)
    requires i < |steps| && |name| + |steps[i]| + 5 >= 63
    ensures NameErrorAt(WorkflowNameErrors(name, kind, steps), LongNames(name, steps[..i]),
                        NameTooLong(|name| + |steps[i]| + 5, kind))
  {
    var init := steps[..|steps| - 1];
    ErrorsCount(name, kind, init);
    if i < |init| {
      ErrorStands(name, kind, init, i);
      assert init[..i] == steps[..i];
    }
  }

  method ValidateWorkflowPodNames(allErrs: seq<NameError>, name: string, kind: string, steps: seq<string>)
    returns (errs: seq<NameError>)
    ensures errs == allErrs + WorkflowNameErrors(name, kind, steps)
    ensures |errs| == |allErrs| + LongNames(name, steps)
    ensures forall i | 0 <= i < |steps| && |name| + |steps[i]| + 5 >= 63 ::
              NameErrorAt(errs, |allErrs| + LongNames(name, steps[..i]), NameTooLong(|name| + |steps[i]| + 5, kind))
  {
    ErrorsCount(name, kind, steps);
    forall i | 0 <= i < |steps| && |name| + |steps[i]| + 5 >= 63
      ensures NameErrorAt(allErrs + WorkflowNameErrors(name, kind, steps), |allErrs| + LongNames(name, steps[..i]),
                          NameTooLong(|name| + |steps[i]| + 5, kind))
    {
      ErrorStands(name, kind, steps, i);
    }
    errs := allErrs;
    for i := 0 to |steps|
      invariant errs == allErrs + WorkflowNameErrors(name, kind, steps[..i])
    {
      assert steps[..i + 1][..i] == steps[..i];
      var podNameLength := |name| + |steps[i]| + |"-sXX-"|;
      if podNameLength >= MAX_LABEL_LENGTH {
        errs := errs + [NameTooLong(podNameLength, kind)];
      }
    }
    assert steps[..|steps|] == steps;
  }

  ghost predicate Accepted(name: string, steps: seq<string>) {
    NameErrors(name, "") == [] && (steps == [] || WorkflowNameErrors(name, "", steps) == [])
  }

  ghost predicate AllNamed(steps: seq<string>) {
    forall i | 0 <= i < |steps| :: steps[i] != ""
  }

  /** The workflow check accepts exactly when every step's two-digit name would be short enough. */
  lemma {:induction false} NoErrorsMeansShort(name: string, kind: string, steps: seq<string>)
    ensures WorkflowNameErrors(name, kind, steps) == []
            <==> forall i | 0 <= i < |steps| :: |name| + |steps[i]| + 5 < 63
  {
    if steps != [] {
      var init := steps[..|steps| - 1];
      NoErrorsMeansShort(name, kind, init);
      assert forall i | 0 <= i < |init| :: init[i] == steps[i];
      if WorkflowNameErrors(name, kind, init) == [] {
        forall i | 0 <= i < |init| ensures |name| + |steps[i]| + 5 < 63 {
          assert init[i] == steps[i];
        }
      }
    }
  }

  lemma PodNameLength(name: string, steps: seq<string>, i: nat)
    requires i < |steps| && steps[i] != ""
    ensures i < 100 ==> |GetPodName(name, steps, i)| == StepNameLength(name, steps[i])
    ensures i >= 100 ==> |GetPodName(name, steps, i)| == StepNameLength(name, steps[i]) + |FormatNat(i)| - 2
  {
    FormatLength(i);
  }

  /** A name the webhook accepted keeps every pod of steps 0 to 999 within the label limit. */
  lemma AcceptedNamesFit(name: string, steps: seq<string>, i: nat)
    requires Accepted(name, steps) && AllNamed(steps)
    requires steps == [] || i < |steps|
    requires i < 1000
    ensures |GetPodName(name, steps, i)| <= 63
  {
    if steps != [] {
      NoErrorsMeansShort(name, "", steps);
      PodNameLength(name, steps, i);
      FormatLength(i);
    }
  }

  /** The name checks of a creation. They pass exactly when the plain name and every step's two-digit name
      are below the limit, and then every pod of steps 0 to 999 has a name within it. */
  method ValidateNames(name: string, kind: string, steps: seq<string>) returns (errs: seq<NameError>)
    ensures errs == [] <==>
              |name| < 63 && forall i | 0 <= i < |steps| :: |name| + |steps[i]| + 5 < 63
    ensures errs == [] && AllNamed(steps) ==>
              forall i: nat | i < 1000 && (steps == [] || i < |steps|) :: |GetPodName(name, steps, i)| <= 63
  {
    errs := ValidatePodName([], name, kind);
    if |steps| > 0 {
      errs := ValidateWorkflowPodNames(errs, name, kind, steps);
    }
    NoErrorsMeansShort(name, kind, steps);
    NoErrorsMeansShort(name, "", steps);
    if errs == [] && AllNamed(steps) {
      forall i: nat | i < 1000 && (steps == [] || i < |steps|)
        ensures |GetPodName(name, steps, i)| <= 63
      {
        AcceptedNamesFit(name, steps, i);
      }
    }
  }

  ghost predicate AlwaysFits(i: nat) {
    forall name: string, steps: seq<string> | Accepted(name, steps) && AllNamed(steps) && i < |steps| ::
      |GetPodName(name, steps, i)| <= 63
  }

  /** The length check covers a step index exactly when the index has at most three digits. */
  lemma CheckCoversThreeDigits(i: nat)
    ensures AlwaysFits(i) <==> i < 1000
  {
    if i < 1000 {
      forall name: string, steps: seq<string> | Accepted(name, steps) && AllNamed(steps) && i < |steps|
        ensures |GetPodName(name, steps, i)| <= 63
      {
        AcceptedNamesFit(name, steps, i);
      }
    } else {
      var name := seq(56, _ => 'a');
      var steps := seq(i + 1, _ => "a");
      assert forall k | 0 <= k < |steps| :: steps[k] == "a" && StepNameLength(name, steps[k]) == 62;
      NoErrorsMeansShort(name, "", steps);
      assert Accepted(name, steps) && AllNamed(steps);
      PodNameLength(name, steps, i);
      FormatLength(i);
      assert |GetPodName(name, steps, i)| > MAX_LABEL_LENGTH;
    }
  }
}
