/**
 * `Flatware::Summary`: the second version of the reducer. It differs from
 * `Cucumber::Summary` in two observable ways: steps without a scenario id
 * are left out of the scenario grouping (though still counted as steps),
 * and an empty collection gets no parenthesised breakdown at all.
 */
module FlatwareSummary {
  import opened Wrappers
  import opened Results
  import opened Console
  import Text
  import C = CucumberSummary

  /** `scenario_steps`: `steps.select(&:scenario_id)`, the steps that belong to a scenario. */
  function ScenarioSteps(steps: seq<StepResult>): seq<StepResult>
  {
    if steps == [] then []
    else
      var last := steps[|steps| - 1];
      ScenarioSteps(steps[..|steps| - 1]) + (if last.scenarioId.Some? then [last] else [])
  }

  lemma {:induction false} ScenarioStepsSpec(steps: seq<StepResult>)
    ensures forall s :: s in ScenarioSteps(steps) <==> s in steps && s.scenarioId.Some?
    ensures forall id :: id in C.Ids(ScenarioSteps(steps)) <==> id in C.Ids(steps) && id.Some?
  {
    if steps != [] {
      var init := steps[..|steps| - 1];
      var last := steps[|steps| - 1];
      ScenarioStepsSpec(init);
      assert steps == init + [last];
    }
    C.IdsMembership(steps);
    C.IdsMembership(ScenarioSteps(steps));
  }

  /** `scenarios`: the grouping of the scenario steps only. */
  function ScenarioGroups(steps: seq<StepResult>): seq<ScenarioResult>
  {
    C.GroupByScenario(ScenarioSteps(steps))
  }

  /**
   * One scenario per distinct non-`nil` scenario id, in order of first
   * appearance, each holding exactly the steps with its id.
   */
  lemma ScenariosSpec(steps: seq<StepResult>)
    ensures C.Keys(ScenarioGroups(steps)) == C.Distinct(C.Ids(ScenarioSteps(steps)))
    ensures forall id :: id in C.Keys(ScenarioGroups(steps)) <==> id in C.Ids(steps) && id.Some?
    ensures forall i :: 0 <= i < |ScenarioGroups(steps)| ==>
              ScenarioGroups(steps)[i].steps == C.WithId(steps, ScenarioGroups(steps)[i].id)
  {
    var ss := ScenarioSteps(steps);
    C.GroupByScenarioCorrect(ss);
    C.DistinctSpec(C.Ids(ss));
    ScenarioStepsSpec(steps);
    forall i | 0 <= i < |ScenarioGroups(steps)| ensures ScenarioGroups(steps)[i].steps == C.WithId(steps, ScenarioGroups(steps)[i].id) {
      var id := ScenarioGroups(steps)[i].id;
      assert C.Keys(ScenarioGroups(steps))[i] == id;
      WithIdOfScenarioSteps(steps, id);
    }
  }

  /** For a scenario that exists, selecting scenario steps first does not change its steps. */
  lemma {:induction false} WithIdOfScenarioSteps(steps: seq<StepResult>, id: ScenarioId)
    requires id.Some?
    ensures C.WithId(ScenarioSteps(steps), id) == C.WithId(steps, id)
  {
    if steps != [] {
      var init := steps[..|steps| - 1];
      var last := steps[|steps| - 1];
      WithIdOfScenarioSteps(init, id);
      assert ScenarioSteps(steps) == ScenarioSteps(init) + (if last.scenarioId.Some? then [last] else []);
      assert steps == init + [last];
      C.WithIdSnoc(init, last, id);
      if last.scenarioId.Some? {
        C.WithIdSnoc(ScenarioSteps(init), last, id);
      } else {
        assert C.WithId(steps, id) == C.WithId(init, id);
        assert ScenarioSteps(steps) == ScenarioSteps(init);
      }
    }
  }

  /** `count_summary(results)`: nothing for an empty collection, `" (<breakdown>)"` otherwise. */
  function CountSummary(xs: seq<Status>): string
  {
    if xs == [] then "" else " (" + C.CountSummary(xs) + ")"
  }

  /** The parentheses never enclose an empty breakdown. */
  lemma {:induction false} CountSummaryShape(xs: seq<Status>)
    ensures CountSummary(xs) == "" <==> xs == []
    ensures xs != [] ==> C.CountSummary(xs) != ""
  {
    if xs != [] {
      C.TalliesEmpty(xs);
      var ts := C.Tallies(xs);
      C.ParseRenderTally(ts[0]);
      Text.JoinNonEmpty(C.RenderAll(ts));
    }
  }

  /** `print_counts(label, collection)`: `pluralize(label, collection.size) + count_summary(collection)`. */
  function CountLine(noun: string, xs: seq<Status>): string
  {
    C.Pluralize(noun, |xs|) + CountSummary(xs)
  }

  /** Reads a count line back; a line with nothing after the label has an empty breakdown. */
  function ParseCountLine(line: string, noun: string): Option<(nat, seq<C.Tally>)>
  {
    match C.ParseHead(line, noun)
    case None => None
    case Some((n, tail)) =>
      if tail == "" then Some((n, []))
      else
        match C.ParseParenthesised(tail)
        case None => None
        case Some(ts) => Some((n, ts))
  }

  /** A line with a parenthesised breakdown reads back as its count and that breakdown. */
  lemma CountLineFrom(noun: string, n: nat, b: string, ts: seq<C.Tally>)
    requires ' ' !in noun
    requires C.ParseBreakdown(b) == Some(ts)
    ensures ParseCountLine(C.Pluralize(noun, n) + " (" + b + ")", noun) == Some((n, ts))
  {
    var tail := " (" + b + ")";
    assert C.Pluralize(noun, n) + " (" + b + ")" == C.Pluralize(noun, n) + tail;
    C.PluralizeRoundTrip(noun, n, tail);
    C.ParenthesisedRoundTrip(b);
  }

  /** A count line gives back the size of the collection and its breakdown. */
  lemma CountLineRoundTrip(noun: string, xs: seq<Status>)
    requires ' ' !in noun
    ensures ParseCountLine(CountLine(noun, xs), noun) == Some((|xs|, C.Tallies(xs)))
  {
    if xs == [] {
      C.TalliesEmpty(xs);
      EmptyCountLineReadsBack(noun);
    } else {
      var b := C.CountSummary(xs);
      assert CountLine(noun, xs) == C.Pluralize(noun, |xs|) + " (" + b + ")";
      C.CountSummaryRoundTrip(xs);
      CountLineFrom(noun, |xs|, b, C.Tallies(xs));
    }
  }

  /** `"0 <label>s"` reads back as zero with an empty breakdown. */
  lemma EmptyCountLineReadsBack(noun: string)
    requires ' ' !in noun
    ensures ParseCountLine(CountLine(noun, []), noun) == Some((0, []))
  {
    var line := C.Pluralize(noun, 0);
    assert CountLine(noun, []) == line;
    assert line + "" == line;
    C.PluralizeRoundTrip(noun, 0, "");
  }

  /** An empty collection prints as `"0 <label>s"` and nothing more. */
  lemma EmptyCountLine(noun: string)
    ensures CountLine(noun, []) == "0 " + noun + "s"
  {
    assert Text.NatToString(0) == "0";
  }

  /** There are as many scenarios as distinct non-`nil` ids. */
  lemma ScenarioCount(steps: seq<StepResult>)
    ensures |ScenarioGroups(steps)| == |C.Distinct(C.Ids(ScenarioSteps(steps)))|
  {
    C.GroupByScenarioCorrect(ScenarioSteps(steps));
    assert |ScenarioGroups(steps)| == |C.Keys(ScenarioGroups(steps))|;
  }

  /** What `summarize` writes for the given steps, in order. */
  function Report(steps: seq<StepResult>): seq<Output>
  {
    [ Line(""), Line(""),
      Elements(C.WithStatus(steps, Failed), Failed, "steps"),
      Line(CountLine("scenario", C.ScenarioStatuses(ScenarioGroups(steps)))),
      Line(CountLine("step", C.StepStatuses(steps))) ]
  }

  /**
   * The report: two blank lines; the failed steps; a scenario line that
   * counts the grouped scenarios, one per distinct non-`nil` id
   * (`ScenarioCount`), with their breakdown; a step line that counts every
   * step, with or without a scenario.
   */
  lemma ReportReadsBack(steps: seq<StepResult>)
    ensures |Report(steps)| == 5
    ensures Report(steps)[0] == Line("") && Report(steps)[1] == Line("")
    ensures Report(steps)[2].Elements? && Report(steps)[2].status == Failed
    ensures forall s :: s in Report(steps)[2].items <==> s in steps && s.status == Failed
    ensures |Report(steps)[2].items| == C.Count(C.StepStatuses(steps), Failed)
    ensures Report(steps)[3].Line? && Report(steps)[4].Line?
    ensures ParseCountLine(Report(steps)[3].text, "scenario")
            == Some((|ScenarioGroups(steps)|, C.Tallies(C.ScenarioStatuses(ScenarioGroups(steps)))))
    ensures ParseCountLine(Report(steps)[4].text, "step") == Some((|steps|, C.Tallies(C.StepStatuses(steps))))
  {
    ReportFailedSteps(steps);
    ReportScenarioLine(steps);
    ReportStepLine(steps);
  }

  /** The third item of the report lists exactly the failed steps. */
  lemma ReportFailedSteps(steps: seq<StepResult>)
    ensures |Report(steps)| == 5
    ensures Report(steps)[2].Elements? && Report(steps)[2].status == Failed
    ensures forall s :: s in Report(steps)[2].items <==> s in steps && s.status == Failed
    ensures |Report(steps)[2].items| == C.Count(C.StepStatuses(steps), Failed)
  {
    assert Report(steps)[2].items == C.WithStatus(steps, Failed);
    C.WithStatusSpec(steps, Failed);
  }

  /**
   * The failed steps are listed in the order they arrived: more steps
   * only add their own failures after the ones already listed.
   */
  lemma ReportFailedInArrivalOrder(steps: seq<StepResult>, more: seq<StepResult>)
    ensures Report(steps + more)[2].items == Report(steps)[2].items + C.WithStatus(more, Failed)
  {
    C.WithStatusAppend(steps, more, Failed);
  }

  /** The scenario line counts the grouped scenarios (see `ScenarioCount` for how many there are). */
  lemma ReportScenarioLine(steps: seq<StepResult>)
    ensures ParseCountLine(Report(steps)[3].text, "scenario")
            == Some((|ScenarioGroups(steps)|, C.Tallies(C.ScenarioStatuses(ScenarioGroups(steps)))))
  {
    var scenarioStatuses := C.ScenarioStatuses(ScenarioGroups(steps));
    assert Report(steps)[3].text == CountLine("scenario", scenarioStatuses);
    CountLineRoundTrip("scenario", scenarioStatuses);
  }

  /** The step line counts every step, with or without a scenario. */
  lemma ReportStepLine(steps: seq<StepResult>)
    ensures ParseCountLine(Report(steps)[4].text, "step") == Some((|steps|, C.Tallies(C.StepStatuses(steps))))
  {
    assert Report(steps)[4].text == CountLine("step", C.StepStatuses(steps));
    CountLineRoundTrip("step", C.StepStatuses(steps));
  }

  /** With no steps the report ends `"0 scenarios"`, `"0 steps"`, without parentheses. */
  lemma EmptyReport()
    ensures Report([]) == [Line(""), Line(""), Elements([], Failed, "steps"), Line("0 scenarios"), Line("0 steps")]
  {
    EmptyCountLine("scenario");
    EmptyCountLine("step");
    assert ScenarioSteps([]) == [];
    assert C.ScenarioStatuses(ScenarioGroups([])) == [];
    assert C.StepStatuses([]) == [];
    assert "0 " + "scenario" + "s" == "0 scenarios";
    assert "0 " + "step" + "s" == "0 steps";
  }

  /** `Flatware::Summary`: the steps to summarize and the output they are written to. */
  class Summary {
    const steps: seq<StepResult>
    var io: seq<Output>
    /** `@scenarios`, filled on first use. */
    var memo: Option<seq<ScenarioResult>>

    ghost predicate Valid()
      reads this
    {
      memo.Some? ==> memo.value == ScenarioGroups(steps)
    }

    constructor (steps: seq<StepResult>, io: seq<Output> := [])
      ensures this.steps == steps && this.io == io && memo == None
      ensures Valid()
    {
      this.steps := steps;
      this.io := io;
      memo := None;
    }

    /** `scenarios`: the grouping of the scenario steps, computed once and then remembered. */
    method Scenarios() returns (scenarios: seq<ScenarioResult>)
      requires Valid()
      modifies this`memo
      ensures Valid() && memo == Some(scenarios)
      ensures scenarios == ScenarioGroups(steps)
    {
      if memo.None? {
        memo := Some(ScenarioGroups(steps));
      }
      scenarios := memo.value;
    }

    /** `summarize`: writes the report after whatever `io` already holds. */
    method Summarize()
      requires Valid()
      modifies this`io, this`memo
      ensures Valid()
      ensures io == old(io) + Report(steps)
    {
      io := io + [Line("")];
      io := io + [Line("")];
      PrintSteps(Failed);
      var scenarios := Scenarios();
      PrintCounts("scenario", C.ScenarioStatuses(scenarios));
      PrintCounts("step", C.StepStatuses(steps));
    }

    /** `print_steps(status)`: `print_elements` of the steps with that status. */
    method PrintSteps(status: Status)
      modifies this`io
      ensures io == old(io) + [Elements(C.WithStatus(steps, status), status, "steps")]
    {
      io := io + [Elements(C.WithStatus(steps, status), status, "steps")];
    }

    /** `print_counts(label, collection)`, the collection given by its statuses. */
    method PrintCounts(noun: string, statuses: seq<Status>)
      modifies this`io
      ensures io == old(io) + [Line(CountLine(noun, statuses))]
    {
      io := io + [Line(CountLine(noun, statuses))];
    }
  }
}
