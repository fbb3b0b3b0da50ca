/** `CLI`: the plan a run writes or reads, the interactive choice of one test
    case, and the order in which the chosen test cases run. Terminal and file
    I/O are inputs: the lines typed, the plan already parsed. */
module Cli {
  import opened Base
  import opened Swagger
  import opened Generators
  import opened TestCases

  /** `PlanTest`: one planned run of a test case. */
  datatype PlanTest = PlanTest(verb: HttpMethod, endpoint: string, examples: int)

  const DefaultExamples := 100

  /** The write-plan record list: one record per test case, in order. */
  function WritePlan(tcs: seq<TestCase>): (r: seq<PlanTest>)
    ensures |r| == |tcs|
    ensures forall i :: 0 <= i < |tcs| ==>
              r[i].verb == tcs[i].verb && r[i].endpoint == tcs[i].endpoint && r[i].examples == DefaultExamples
  {
    if |tcs| == 0 then [] else [PlanTest(tcs[0].verb, tcs[0].endpoint, DefaultExamples)] + WritePlan(tcs[1..])
  }

  predicate Matches(tc: TestCase, p: PlanTest) {
    tc.verb == p.verb && tc.endpoint == p.endpoint
  }

  /** `testCases.filter { matches }[0]`: the first match, or an index error on the empty list. */
  function FirstMatch(tcs: seq<TestCase>, p: PlanTest): (r: Result<TestCase>)
    ensures r.Ok? <==> exists i :: 0 <= i < |tcs| && Matches(tcs[i], p)
    ensures r.Err? ==> r.error == IndexOutOfBounds(0)
    ensures r.Ok? ==> exists i :: 0 <= i < |tcs| && tcs[i] == r.value && Matches(tcs[i], p)
                                  && forall j :: 0 <= j < i ==> !Matches(tcs[j], p)
  {
    if |tcs| == 0 then Err(IndexOutOfBounds(0))
    else if Matches(tcs[0], p) then Ok(tcs[0])
    else
      var r := FirstMatch(tcs[1..], p);
      if r.Ok? then
        var i :| 0 <= i < |tcs[1..]| && tcs[1..][i] == r.value && Matches(tcs[1..][i], p)
                 && forall j :: 0 <= j < i ==> !Matches(tcs[1..][j], p);
        assert tcs[i + 1] == r.value;
        assert forall j :: 0 < j < i + 1 ==> tcs[j] == tcs[1..][j - 1];
        r
      else
        assert forall i :: 0 < i < |tcs| ==> tcs[i] == tcs[1..][i - 1];
        r
  }

  /** The read-plan lookup: every record is looked up before anything runs, so
      one record without a test case fails the whole plan. */
  function ReadPlan(tcs: seq<TestCase>, plans: seq<PlanTest>): (r: Result<seq<(TestCase, int)>>)
    ensures r.Ok? <==> forall i :: 0 <= i < |plans| ==> FirstMatch(tcs, plans[i]).Ok?
    ensures r.Ok? ==> |r.value| == |plans|
                      && forall i :: 0 <= i < |plans| ==> r.value[i] == (FirstMatch(tcs, plans[i]).value, plans[i].examples)
  {
    if |plans| == 0 then Ok([])
    else
      match FirstMatch(tcs, plans[0])
      case Err(e) => Err(e)
      case Ok(tc) =>
        var rest := ReadPlan(tcs, plans[1..]);
        assert forall i :: 0 < i < |plans| ==> plans[i] == plans[1..][i - 1];
        match rest
        case Err(e) =>
          Err(e)
        case Ok(ts) => Ok([(tc, plans[0].examples)] + ts)
  }

  /** No two test cases share a method and an endpoint. */
  predicate DistinctTargets(tcs: seq<TestCase>) {
    forall i, j :: 0 <= i < j < |tcs| ==> !(tcs[i].verb == tcs[j].verb && tcs[i].endpoint == tcs[j].endpoint)
  }

  /** A written plan reads back: each record finds a test case with its
      record's method and endpoint, to run 100 times; when no two test cases
      share a method and endpoint, it finds the very test case it was written from. */
  lemma PlanRoundTrip(tcs: seq<TestCase>)
    ensures ReadPlan(tcs, WritePlan(tcs)).Ok?
    ensures var r := ReadPlan(tcs, WritePlan(tcs)).value;
            |r| == |tcs|
            && forall i :: 0 <= i < |tcs| ==>
                 r[i].1 == DefaultExamples && r[i].0.verb == tcs[i].verb && r[i].0.endpoint == tcs[i].endpoint
    ensures DistinctTargets(tcs) ==> forall i :: 0 <= i < |tcs| ==> ReadPlan(tcs, WritePlan(tcs)).value[i].0 == tcs[i]
  {
    var plans := WritePlan(tcs);
    forall i | 0 <= i < |plans| ensures FirstMatch(tcs, plans[i]).Ok? {
      PlanRecordFinds(tcs, i);
    }
    if DistinctTargets(tcs) {
      forall i | 0 <= i < |tcs| ensures FirstMatch(tcs, plans[i]).value == tcs[i] {
        PlanRecordFinds(tcs, i);
      }
    }
  }

  lemma PlanRecordFinds(tcs: seq<TestCase>, i: int)
    requires 0 <= i < |tcs|
    ensures var p := WritePlan(tcs)[i];
            FirstMatch(tcs, p).Ok? && Matches(FirstMatch(tcs, p).value, p)
            && (DistinctTargets(tcs) ==> FirstMatch(tcs, p).value == tcs[i])
  {
    var p := WritePlan(tcs)[i];
    assert Matches(tcs[i], p);
    var r := FirstMatch(tcs, p);
    var k :| 0 <= k < |tcs| && tcs[k] == r.value && Matches(tcs[k], p) && forall j :: 0 <= j < k ==> !Matches(tcs[j], p);
  }

  /** `tests.forEach { (t, n) -> t.execute(n) }`, where `run(t, n)` says whether
      `n` examples of `t` pass; a failing test case throws, so nothing after it runs. */
  method RunPlan(tests: seq<(TestCase, int)>, run: (TestCase, int) -> bool) returns (executed: nat, passed: bool)
    ensures executed <= |tests|
    ensures passed <==> forall i :: 0 <= i < |tests| ==> run(tests[i].0, tests[i].1)
    ensures passed ==> executed == |tests|
    ensures !passed ==> 0 < executed && !run(tests[executed - 1].0, tests[executed - 1].1)
    ensures forall i :: 0 <= i < executed - 1 ==> run(tests[i].0, tests[i].1)
  {
    executed := 0;
    passed := true;
    while executed < |tests|
      invariant executed <= |tests|
      invariant forall i :: 0 <= i < executed ==> run(tests[i].0, tests[i].1)
    {
      var (t, n) := tests[executed];
      executed := executed + 1;
      if !run(t, n) {
        passed := false;
        return;
      }
    }
  }

  // ---------------------------------------------------------------------------
  // The interactive mode.

  /** `readInt`'s parse of an example count: a missing number means 100. */
  function ExamplesOrDefault(parsed: Option<int>): int {
    if parsed.None? then DefaultExamples else parsed.value
  }

  /** `oChoice - 1` on a 32-bit `Int`. */
  function Decrement32(n: int): (r: int)
    ensures IsInt32(n) && n != -TwoTo31 ==> r == n - 1
    ensures n == -TwoTo31 ==> r == TwoTo31 - 1
    ensures IsInt32(r)
  {
    Wrap(n - 1, TwoTo31)
  }

  /** `choose`: each line that does not parse as an integer makes it ask again;
      the first that does gives that number minus one, with no range check. The
      lines left over are returned; running out of lines is an error. */
  function Choose(input: seq<string>, parse: string -> Option<int>): Result<(int, seq<string>)> {
    if |input| == 0 then Err(NoInput)
    else match parse(input[0])
      case None => Choose(input[1..], parse)
      case Some(n) => Ok((Decrement32(n), input[1..]))
  }

  /** `choose` takes the first line that parses, skipping the others, and fails exactly when none does. */
  lemma {:induction false} ChooseFirstNumber(input: seq<string>, parse: string -> Option<int>)
    ensures Choose(input, parse).Err? <==> forall k :: 0 <= k < |input| ==> parse(input[k]).None?
    ensures Choose(input, parse).Ok? ==>
              exists k :: 0 <= k < |input| && parse(input[k]).Some?
                          && (forall j :: 0 <= j < k ==> parse(input[j]).None?)
                          && Choose(input, parse).value == (Decrement32(parse(input[k]).value), input[k + 1..])
  {
    if |input| > 0 {
      ChooseFirstNumber(input[1..], parse);
      assert forall k :: 0 < k < |input| ==> input[k] == input[1..][k - 1];
      if parse(input[0]).None? && Choose(input, parse).Ok? {
        var k :| 0 <= k < |input[1..]| && parse(input[1..][k]).Some?
                 && (forall j :: 0 <= j < k ==> parse(input[1..][j]).None?)
                 && Choose(input[1..], parse).value == (Decrement32(parse(input[1..][k]).value), input[1..][k + 1..]);
        assert input[1..][k + 1..] == input[k + 2..];
        assert parse(input[k + 1]).Some?;
      }
    }
  }

  /** The menu `choose` prints: the choices numbered from 1. */
  function MenuLines(choices: seq<string>): (r: seq<string>)
    ensures |r| == |choices|
  {
    if |choices| == 0 then [] else MenuLines(choices[..|choices| - 1]) + [Label(|choices|, choices[|choices| - 1])]
  }

  /** `"$i) $choice"`, the number written out in decimal. */
  function Label(i: int, choice: string): string {
    IntText(i) + ") " + choice
  }

  /** The decimal text of a number. */
  function IntText(n: int): string
    decreases if n < 0 then 1 - n else n
  {
    if n < 0 then "-" + IntText(-n)
    else if n < 10 then [Digit(n)]
    else IntText(n / 10) + [Digit(n % 10)]
  }

  function Digit(d: int): char
    requires 0 <= d < 10
  {
    "0123456789"[d]
  }

  /** The menu loop, with its `var i = 1` counter. */
  method PrintMenu(choices: seq<string>) returns (lines: seq<string>)
    ensures lines == MenuLines(choices)
    ensures forall k :: 0 <= k < |choices| ==> lines[k] == Label(k + 1, choices[k])
  {
    lines := [];
    var i := 1;
    for k := 0 to |choices|
      invariant i == k + 1
      invariant lines == MenuLines(choices[..k])
    {
      assert choices[..k + 1][..k] == choices[..k];
      lines := lines + [Label(i, choices[k])];
      i := i + 1;
    }
    assert choices[..|choices|] == choices;
    MenuLabels(choices);
  }

  lemma {:induction false} MenuLabels(choices: seq<string>)
    ensures forall k :: 0 <= k < |choices| ==> MenuLines(choices)[k] == Label(k + 1, choices[k])
  {
    if |choices| > 0 {
      var init := choices[..|choices| - 1];
      MenuLabels(init);
      assert forall k :: 0 <= k < |init| ==> choices[k] == init[k];
    }
  }

  /** `interactive`: a choice, an example count, the bounds check of
      `testCases[choice]`, a confirming line, and then one test case to run. */
  function Interactive(tcs: seq<TestCase>, input: seq<string>, parse: string -> Option<int>): Result<(TestCase, int)> {
    match Choose(input, parse)
    case Err(e) => Err(e)
    case Ok((choice, rest)) =>
      if |rest| == 0 then Err(NoInput)
      else
        var examples := ExamplesOrDefault(parse(rest[0]));
        if !(0 <= choice < |tcs|) then Err(IndexOutOfBounds(choice))
        else if |rest| < 2 then Err(NoInput)
        else Ok((tcs[choice], examples))
  }

  /** The chosen test case is the one numbered by the first number typed (an
      `Int`), run with the next line's count or 100; a number outside the menu
      fails, the least `Int` after wrapping round to the greatest. */
  lemma InteractiveChoice(tcs: seq<TestCase>, input: seq<string>, parse: string -> Option<int>, k: nat)
    requires k + 2 < |input| && parse(input[k]).Some?
    requires forall j :: 0 <= j < k ==> parse(input[j]).None?
    ensures var n := parse(input[k]).value;
            var examples := ExamplesOrDefault(parse(input[k + 1]));
            (IsInt32(n) && 1 <= n <= |tcs| ==> Interactive(tcs, input, parse) == Ok((tcs[n - 1], examples)))
            && (IsInt32(n) && n != -TwoTo31 && !(1 <= n <= |tcs|) ==>
                  Interactive(tcs, input, parse) == Err(IndexOutOfBounds(n - 1)))
            && (n == -TwoTo31 && |tcs| < TwoTo31 ==>
                  Interactive(tcs, input, parse) == Err(IndexOutOfBounds(TwoTo31 - 1)))
  {
    ChooseAt(input, parse, k);
    var rest := input[k + 1..];
    assert rest[0] == input[k + 1] && |rest| >= 2;
  }

  /** When line `k` is the first that parses, `choose` answers from it and leaves the lines after it. */
  lemma {:induction false} ChooseAt(input: seq<string>, parse: string -> Option<int>, k: nat)
    requires k < |input| && parse(input[k]).Some?
    requires forall j :: 0 <= j < k ==> parse(input[j]).None?
    ensures Choose(input, parse) == Ok((Decrement32(parse(input[k]).value), input[k + 1..]))
  {
    if k > 0 {
      assert parse(input[0]).None?;
      forall j | 0 <= j < k - 1 ensures parse(input[1..][j]).None? {
        assert input[1..][j] == input[j + 1];
      }
      ChooseAt(input[1..], parse, k - 1);
      assert input[1..][k - 1 + 1..] == input[k + 1..];
    }
  }

  // ---------------------------------------------------------------------------
  // `execute`.

  datatype Mode = WritePlanMode | ReadPlanMode(plans: seq<PlanTest>) | InteractiveMode(input: seq<string>)

  /** What a run does: write a plan, or run test cases with their example counts, in order. */
  datatype Outcome = Written(plan: seq<PlanTest>) | Runs(tests: seq<(TestCase, int)>)

  function Execute(mode: Mode, tcs: seq<TestCase>, parse: string -> Option<int>): Result<Outcome> {
    match mode
    case WritePlanMode => Ok(Written(WritePlan(tcs)))
    case ReadPlanMode(plans) =>
      (match ReadPlan(tcs, plans)
       case Err(e) => Err(e)
       case Ok(tests) => Ok(Runs(tests)))
    case InteractiveMode(input) =>
      (match Interactive(tcs, input, parse)
       case Err(e) => Err(e)
       case Ok(t) => Ok(Runs([t])))
  }

  /** By mode: a write-plan run never runs a test; a read-plan run runs each
      record's test case with its count in record order, or none at all when a
      record has no test case; an interactive run runs at most one. */
  lemma ExecuteModes(mode: Mode, tcs: seq<TestCase>, parse: string -> Option<int>)
    ensures mode.WritePlanMode? ==> Execute(mode, tcs, parse).Ok? && Execute(mode, tcs, parse).value.Written?
    ensures mode.ReadPlanMode? ==>
              (Execute(mode, tcs, parse).Ok? <==>
                 forall i :: 0 <= i < |mode.plans| ==> exists j :: 0 <= j < |tcs| && Matches(tcs[j], mode.plans[i]))
    ensures mode.ReadPlanMode? && Execute(mode, tcs, parse).Ok? ==>
              var tests := Execute(mode, tcs, parse).value.tests;
              |tests| == |mode.plans|
              && forall i :: 0 <= i < |tests| ==> Matches(tests[i].0, mode.plans[i]) && tests[i].1 == mode.plans[i].examples
    ensures mode.InteractiveMode? && Execute(mode, tcs, parse).Ok? ==>
              |Execute(mode, tcs, parse).value.tests| == 1 && Execute(mode, tcs, parse).value.tests[0].0 in tcs
  {
    if mode.InteractiveMode? && Execute(mode, tcs, parse).Ok? {
      var c := Choose(mode.input, parse);
      assert c.Ok?;
      var (choice, rest) := c.value;
      assert 0 <= choice < |tcs|;
      assert Execute(mode, tcs, parse).value.tests == [(tcs[choice], ExamplesOrDefault(parse(rest[0])))];
    }
    if mode.ReadPlanMode? {
      var plans := mode.plans;
      if ReadPlan(tcs, plans).Ok? {
        var tests := ReadPlan(tcs, plans).value;
        forall i | 0 <= i < |tests| ensures Matches(tests[i].0, plans[i]) {
          var r := FirstMatch(tcs, plans[i]);
          var j :| 0 <= j < |tcs| && tcs[j] == r.value && Matches(tcs[j], plans[i])
                   && forall j' :: 0 <= j' < j ==> !Matches(tcs[j'], plans[i]);
        }
      }
    }
  }
}
