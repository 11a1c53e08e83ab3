/**
 * `Flatware::Cucumber::Summary`: the reducer that turns the steps received
 * by the sink into the closing report. It groups the steps by scenario,
 * counts results by status and writes the count lines.
 */
module CucumberSummary {
  import opened Wrappers
  import opened Text
  import opened Results
  import opened Console

  // ---------------------------------------------------------------------
  // Grouping by scenario id
  // ---------------------------------------------------------------------

  /** `steps.map(&:scenario_id)`. */
  function Ids(steps: seq<StepResult>): seq<ScenarioId>
  {
    seq(|steps|, i requires 0 <= i < |steps| => steps[i].scenarioId)
  }

  /** The elements of `xs` without repeats, in order of first appearance. */
  function Distinct<T(==)>(xs: seq<T>): seq<T>
  {
    if xs == [] then []
    else
      var d := Distinct(xs[..|xs| - 1]);
      if xs[|xs| - 1] in d then d else d + [xs[|xs| - 1]]
  }

  predicate NoDuplicates<T(==)>(xs: seq<T>)
  {
    forall i, j :: 0 <= i < j < |xs| ==> xs[i] != xs[j]
  }

  lemma {:induction false} DistinctSpec<T>(xs: seq<T>)
    ensures forall x :: x in Distinct(xs) <==> x in xs
    ensures NoDuplicates(Distinct(xs))
  {
    if xs != [] {
      var init := xs[..|xs| - 1];
      DistinctSpec(init);
      assert xs == init + [xs[|xs| - 1]];
    }
  }

  lemma IdsMembership(steps: seq<StepResult>)
    ensures forall id :: id in Ids(steps) <==> exists s :: s in steps && s.scenarioId == id
  {
    forall id | id in Ids(steps) ensures exists s :: s in steps && s.scenarioId == id {
      var k :| 0 <= k < |steps| && Ids(steps)[k] == id;
      assert steps[k] in steps;
    }
    forall id | exists s :: s in steps && s.scenarioId == id ensures id in Ids(steps) {
      var s :| s in steps && s.scenarioId == id;
      var k :| 0 <= k < |steps| && steps[k] == s;
      assert Ids(steps)[k] == id;
    }
  }

  /** The steps that carry scenario id `id`, in arrival order. */
  function WithId(steps: seq<StepResult>, id: ScenarioId): seq<StepResult>
  {
    if steps == [] then []
    else
      var last := steps[|steps| - 1];
      WithId(steps[..|steps| - 1], id) + (if last.scenarioId == id then [last] else [])
  }

  lemma {:induction false} WithIdSpec(steps: seq<StepResult>, id: ScenarioId)
    ensures forall s :: s in WithId(steps, id) <==> s in steps && s.scenarioId == id
    ensures id !in Ids(steps) ==> WithId(steps, id) == []
  {
    if steps != [] {
      var init := steps[..|steps| - 1];
      WithIdSpec(init, id);
      assert steps == init + [steps[|steps| - 1]];
      assert Ids(steps) == Ids(init) + [steps[|steps| - 1].scenarioId];
    }
  }

  /** The scenario ids of some groups, in order. */
  function Keys(groups: seq<ScenarioResult>): seq<ScenarioId>
  {
    seq(|groups|, i requires 0 <= i < |groups| => groups[i].id)
  }

  /** The position of the group for `id`, or `|groups|` when there is none yet. */
  function GroupIndex(groups: seq<ScenarioResult>, id: ScenarioId): (i: nat)
    ensures i <= |groups|
    ensures i < |groups| ==> groups[i].id == id
    ensures forall j :: 0 <= j < i ==> groups[j].id != id
  {
    if groups == [] then 0
    else if groups[0].id == id then 0
    else 1 + GroupIndex(groups[1..], id)
  }

  /** One step of `group_by`: the step joins its scenario's group, or opens a new group at the end. */
  function AddStep(groups: seq<ScenarioResult>, s: StepResult): seq<ScenarioResult>
  {
    var i := GroupIndex(groups, s.scenarioId);
    if i < |groups| then groups[i := ScenarioResult(groups[i].id, groups[i].steps + [s])]
    else groups + [ScenarioResult(s.scenarioId, [s])]
  }

  /** `steps.group_by(&:scenario_id).map { |id, steps| ScenarioResult.new(id, steps) }`. */
  function GroupByScenario(steps: seq<StepResult>): seq<ScenarioResult>
  {
    if steps == [] then [] else AddStep(GroupByScenario(steps[..|steps| - 1]), steps[|steps| - 1])
  }

  /** The sum of the group sizes. */
  function TotalSteps(groups: seq<ScenarioResult>): nat
  {
    if groups == [] then 0 else |groups[0].steps| + TotalSteps(groups[1..])
  }

  lemma {:induction false} TotalStepsUpdate(groups: seq<ScenarioResult>, i: nat, g: ScenarioResult)
    requires i < |groups|
    ensures TotalSteps(groups[i := g]) == TotalSteps(groups) - |groups[i].steps| + |g.steps|
  {
    if i > 0 {
      TotalStepsUpdate(groups[1..], i - 1, g);
      assert groups[i := g][1..] == groups[1..][i - 1 := g];
    }
  }

  lemma {:induction false} TotalStepsAppend(groups: seq<ScenarioResult>, g: ScenarioResult)
    ensures TotalSteps(groups + [g]) == TotalSteps(groups) + |g.steps|
  {
    if groups != [] {
      TotalStepsAppend(groups[1..], g);
      assert (groups + [g])[1..] == groups[1..] + [g];
    }
  }

  lemma WithIdSnoc(init: seq<StepResult>, s: StepResult, id: ScenarioId)
    ensures WithId(init + [s], id) == WithId(init, id) + (if s.scenarioId == id then [s] else [])
  {
    assert (init + [s])[..|init|] == init;
  }

  lemma DistinctSnoc<T>(xs: seq<T>, x: T)
    ensures Distinct(xs + [x]) == if x in Distinct(xs) then Distinct(xs) else Distinct(xs) + [x]
  {
    assert (xs + [x])[..|xs|] == xs;
  }

  lemma IdsSnoc(init: seq<StepResult>, s: StepResult)
    ensures Ids(init + [s]) == Ids(init) + [s.scenarioId]
  {
  }

  /** Adding a step keeps every group equal to the steps with its id. */
  lemma AddStepGroups(g0: seq<ScenarioResult>, init: seq<StepResult>, s: StepResult)
    requires forall i :: 0 <= i < |g0| ==> g0[i].steps == WithId(init, g0[i].id)
    requires s.scenarioId !in Keys(g0) ==> WithId(init, s.scenarioId) == []
    requires NoDuplicates(Keys(g0))
    ensures Keys(AddStep(g0, s)) == if s.scenarioId in Keys(g0) then Keys(g0) else Keys(g0) + [s.scenarioId]
    ensures forall i :: 0 <= i < |AddStep(g0, s)| ==>
              AddStep(g0, s)[i].steps == WithId(init + [s], AddStep(g0, s)[i].id)
    ensures TotalSteps(AddStep(g0, s)) == TotalSteps(g0) + 1
  {
    var g := AddStep(g0, s);
    var k := GroupIndex(g0, s.scenarioId);
    forall j | 0 <= j < |g| ensures g[j].steps == WithId(init + [s], g[j].id) {
      WithIdSnoc(init, s, g[j].id);
      if j < |g0| && j != k {
        assert Keys(g0)[j] == g0[j].id;
        assert g0[j].id != s.scenarioId by {
          if k < |g0| {
            assert Keys(g0)[k] == s.scenarioId;
          }
        }
      }
    }
    if k < |g0| {
      assert Keys(g0)[k] == s.scenarioId;
      assert Keys(g) == Keys(g0);
      TotalStepsUpdate(g0, k, g[k]);
    } else {
      assert Keys(g) == Keys(g0) + [s.scenarioId];
      TotalStepsAppend(g0, ScenarioResult(s.scenarioId, [s]));
    }
  }

  /**
   * Grouping makes one scenario per distinct scenario id (`nil` included),
   * in order of first appearance; each keeps exactly the steps with its id,
   * in arrival order; and no step is lost or counted twice.
   */
  lemma {:induction false} GroupByScenarioCorrect(steps: seq<StepResult>)
    ensures Keys(GroupByScenario(steps)) == Distinct(Ids(steps))
    ensures forall i :: 0 <= i < |GroupByScenario(steps)| ==>
              GroupByScenario(steps)[i].steps == WithId(steps, GroupByScenario(steps)[i].id)
    ensures TotalSteps(GroupByScenario(steps)) == |steps|
  {
    if steps != [] {
      var init := steps[..|steps| - 1];
      var s := steps[|steps| - 1];
      assert steps == init + [s];
      GroupByScenarioCorrect(init);
      DistinctSpec(Ids(init));
      IdsSnoc(init, s);
      DistinctSnoc(Ids(init), s.scenarioId);
      WithIdSpec(init, s.scenarioId);
      AddStepGroups(GroupByScenario(init), init, s);
    }
  }

  /** A grouped scenario is failed exactly when some step with its id failed. */
  lemma GroupStatus(steps: seq<StepResult>, i: nat)
    requires i < |GroupByScenario(steps)|
    ensures var sc := GroupByScenario(steps)[i];
            ScenarioStatus(sc) == Failed <==>
              exists s :: s in steps && s.scenarioId == sc.id && s.status == Failed
  {
    var sc := GroupByScenario(steps)[i];
    GroupByScenarioCorrect(steps);
    WithIdSpec(steps, sc.id);
    if ScenarioStatus(sc) == Failed {
      var k :| 0 <= k < |sc.steps| && sc.steps[k].status == Failed;
      assert sc.steps[k] in WithId(steps, sc.id);
    }
    if exists s :: s in steps && s.scenarioId == sc.id && s.status == Failed {
      var s :| s in steps && s.scenarioId == sc.id && s.status == Failed;
      assert s in sc.steps;
      var k :| 0 <= k < |sc.steps| && sc.steps[k] == s;
      assert ScenarioFailed(sc);
    }
  }

  // ---------------------------------------------------------------------
  // Counting by status
  // ---------------------------------------------------------------------

  /** The statuses of some steps, in order. */
  function StepStatuses(steps: seq<StepResult>): seq<Status>
  {
    seq(|steps|, i requires 0 <= i < |steps| => steps[i].status)
  }

  /** The statuses of some scenarios, in order. */
  function ScenarioStatuses(scenarios: seq<ScenarioResult>): seq<Status>
  {
    seq(|scenarios|, i requires 0 <= i < |scenarios| => ScenarioStatus(scenarios[i]))
  }

  /** `steps.select(&with_status(status))`. */
  function WithStatus(steps: seq<StepResult>, status: Status): seq<StepResult>
  {
    if steps == [] then []
    else
      var last := steps[|steps| - 1];
      WithStatus(steps[..|steps| - 1], status) + (if last.status == status then [last] else [])
  }

  /** `results.select(&with_status(status)).size`, taken over the results' statuses. */
  function Count(xs: seq<Status>, status: Status): nat
  {
    if xs == [] then 0 else Count(xs[..|xs| - 1], status) + (if xs[|xs| - 1] == status then 1 else 0)
  }

  /** The count is the number of occurrences of the status. */
  lemma {:induction false} CountIsMultiplicity(xs: seq<Status>, status: Status)
    ensures Count(xs, status) == multiset(xs)[status]
  {
    if xs != [] {
      CountIsMultiplicity(xs[..|xs| - 1], status);
      assert xs == xs[..|xs| - 1] + [xs[|xs| - 1]];
    }
  }

  /**
   * `print_steps(status)` hands on exactly the steps with that status: each
   * one has it, every such step is there, and as many as the count says.
   */
  lemma {:induction false} WithStatusSpec(steps: seq<StepResult>, status: Status)
    ensures forall s :: s in WithStatus(steps, status) <==> s in steps && s.status == status
    ensures |WithStatus(steps, status)| == Count(StepStatuses(steps), status)
  {
    if steps != [] {
      var init := steps[..|steps| - 1];
      var last := steps[|steps| - 1];
      WithStatusSpec(init, status);
      assert steps == init + [last];
      assert WithStatus(steps, status) == WithStatus(init, status) + (if last.status == status then [last] else []);
      var xs := StepStatuses(steps);
      assert xs[..|xs| - 1] == StepStatuses(init) && xs[|xs| - 1] == last.status;
      assert Count(xs, status) == Count(StepStatuses(init), status) + (if last.status == status then 1 else 0);
    }
  }

  /**
   * Filtering distributes over concatenation: the steps of a status keep
   * the order and the multiplicity they have in the input.
   */
  lemma {:induction false} WithStatusAppend(xs: seq<StepResult>, ys: seq<StepResult>, status: Status)
    ensures WithStatus(xs + ys, status) == WithStatus(xs, status) + WithStatus(ys, status)
  {
    if ys == [] {
      assert xs + ys == xs;
    } else {
      var init := ys[..|ys| - 1];
      assert (xs + ys)[..|xs + ys| - 1] == xs + init;
      assert (xs + ys)[|xs + ys| - 1] == ys[|ys| - 1];
      WithStatusAppend(xs, init, status);
    }
  }

  /** A single step is kept exactly when it has the status. */
  lemma WithStatusSingle(s: StepResult, status: Status)
    ensures WithStatus([s], status) == if s.status == status then [s] else []
  {
    assert [s][..0] == [];
  }


  /** One `"<count> <status>"` entry of a breakdown. */
  datatype Tally = Tally(status: Status, count: nat)

  /** The `map`/`compact` of `count_summary`: one tally per status of `order` whose count is not zero. */
  function TalliesIn(xs: seq<Status>, order: seq<Status>): seq<Tally>
  {
    if order == [] then []
    else
      var c := Count(xs, order[0]);
      (if c > 0 then [Tally(order[0], c)] else []) + TalliesIn(xs, order[1..])
  }

  /** The tallies of a breakdown, in `STATUSES` order. */
  function Tallies(xs: seq<Status>): seq<Tally>
  {
    TalliesIn(xs, STATUSES)
  }

  predicate RankIncreasing(order: seq<Status>)
  {
    forall i, j :: 0 <= i < j < |order| ==> Rank(order[i]) < Rank(order[j])
  }

  lemma {:induction false} TalliesInSpec(xs: seq<Status>, order: seq<Status>)
    requires RankIncreasing(order)
    ensures forall t :: t in TalliesIn(xs, order) ==> t.status in order && t.count == Count(xs, t.status) > 0
    ensures forall s :: s in order && Count(xs, s) > 0 ==> Tally(s, Count(xs, s)) in TalliesIn(xs, order)
    ensures forall i, j :: 0 <= i < j < |TalliesIn(xs, order)| ==>
              Rank(TalliesIn(xs, order)[i].status) < Rank(TalliesIn(xs, order)[j].status)
  {
    if order != [] {
      var rest := TalliesIn(xs, order[1..]);
      TalliesInSpec(xs, order[1..]);
      forall t | t in rest ensures Rank(order[0]) < Rank(t.status) {
        var k :| 0 <= k < |order[1..]| && order[1..][k] == t.status;
        assert order[k + 1] == t.status;
      }
      assert order == [order[0]] + order[1..];
    }
  }

  /**
   * The breakdown lists exactly the statuses with a non-zero count, each
   * with its count, in `STATUSES` order.
   */
  lemma TalliesSpec(xs: seq<Status>)
    ensures forall t :: t in Tallies(xs) ==> t.count == Count(xs, t.status) > 0
    ensures forall s :: Count(xs, s) > 0 <==> Tally(s, Count(xs, s)) in Tallies(xs)
    ensures forall i, j :: 0 <= i < j < |Tallies(xs)| ==> Rank(Tallies(xs)[i].status) < Rank(Tallies(xs)[j].status)
  {
    TalliesInSpec(xs, STATUSES);
    forall s ensures s in STATUSES {
      assert STATUSES[Rank(s)] == s;
    }
  }

  lemma {:induction false} NothingToTally(order: seq<Status>)
    ensures TalliesIn([], order) == []
  {
    if order != [] {
      NothingToTally(order[1..]);
    }
  }

  /** A non-empty collection has a non-empty breakdown; an empty one has none. */
  lemma {:induction false} TalliesEmpty(xs: seq<Status>)
    ensures Tallies(xs) == [] <==> xs == []
  {
    TalliesSpec(xs);
    if xs != [] {
      var s := xs[|xs| - 1];
      CountIsMultiplicity(xs, s);
      assert s in multiset(xs);
      assert Tally(s, Count(xs, s)) in Tallies(xs);
    } else {
      NothingToTally(STATUSES);
    }
  }

  // ---------------------------------------------------------------------
  // Rendering and reading back
  // ---------------------------------------------------------------------

  /** `"#{count} #{status}"`, with the console colouring taken as the identity. */
  function RenderTally(t: Tally): string
  {
    NatToString(t.count) + " " + Name(t.status)
  }

  function RenderAll(ts: seq<Tally>): seq<string>
  {
    seq(|ts|, i requires 0 <= i < |ts| => RenderTally(ts[i]))
  }

  /**
   * `count_summary(results)`: the non-zero tallies joined by `", "`. An
   * empty collection has no non-zero tally, so its summary is `""`.
   */
  function CountSummary(xs: seq<Status>): string
  {
    if xs == [] then "" else Join(RenderAll(Tallies(xs)))
  }

  /** Reads one `"<count> <status>"` entry. */
  function ParseTally(p: string): Option<Tally>
  {
    var i := Pos(p, ' ');
    if i == |p| then None
    else
      match (ParseNat(p[..i]), StatusNamed(p[i + 1..]))
      case (Some(n), Some(s)) => Some(Tally(s, n))
      case _ => None
  }

  function ParseTallies(ps: seq<string>): Option<seq<Tally>>
  {
    if ps == [] then Some([])
    else
      match (ParseTally(ps[0]), ParseTallies(ps[1..]))
      case (Some(t), Some(ts)) => Some([t] + ts)
      case _ => None
  }

  /** Reads a breakdown back into its tallies. */
  function ParseBreakdown(s: string): Option<seq<Tally>>
  {
    if s == "" then Some([]) else ParseTallies(Split(s))
  }

  lemma ParseRenderTally(t: Tally)
    ensures ParseTally(RenderTally(t)) == Some(t)
    ensures RenderTally(t) != "" && ',' !in RenderTally(t)
  {
    var d := NatToString(t.count);
    var p := RenderTally(t);
    DigitsHaveNoSpace(t.count);
    PosAfter(d, ' ', Name(t.status));
    assert p[..|d|] == d;
    assert p[|d| + 1..] == Name(t.status);
    ParseNatToString(t.count);
    NameDecodes(t.status);
  }

  /** Entries read back one after the other. */
  lemma ParseTalliesCons(p: string, ps: seq<string>, t: Tally, ts: seq<Tally>)
    requires ParseTally(p) == Some(t) && ParseTallies(ps) == Some(ts)
    ensures ParseTallies([p] + ps) == Some([t] + ts)
  {
    assert ([p] + ps)[0] == p && ([p] + ps)[1..] == ps;
  }

  lemma {:induction false} ParseRenderAll(ts: seq<Tally>)
    ensures ParseTallies(RenderAll(ts)) == Some(ts)
  {
    if ts != [] {
      ParseRenderTally(ts[0]);
      ParseRenderAll(ts[1..]);
      ParseTalliesCons(RenderTally(ts[0]), RenderAll(ts[1..]), ts[0], ts[1..]);
      assert RenderAll(ts) == [RenderTally(ts[0])] + RenderAll(ts[1..]);
      assert [ts[0]] + ts[1..] == ts;
    }
  }


  /** No rendered entry holds a comma, so the joined breakdown can be split again. */
  lemma RenderAllCommaFree(ts: seq<Tally>)
    ensures CommaFree(RenderAll(ts))
  {
    forall k | 0 <= k < |ts| ensures ',' !in RenderAll(ts)[k] {
      ParseRenderTally(ts[k]);
    }
  }


  /** A breakdown reads back as exactly the tallies it was made from. */
  lemma CountSummaryRoundTrip(xs: seq<Status>)
    ensures ParseBreakdown(CountSummary(xs)) == Some(Tallies(xs))
  {
    TalliesEmpty(xs);
    if xs != [] {
      BreakdownRoundTrip(Tallies(xs));
    }
  }

  /** Joined rendered tallies read back as the tallies. */
  lemma BreakdownRoundTrip(ts: seq<Tally>)
    ensures ParseBreakdown(Join(RenderAll(ts))) == Some(ts)
  {
    var parts := RenderAll(ts);
    ParseRenderAll(ts);
    RenderAllCommaFree(ts);
    if ts != [] {
      ParseRenderTally(ts[0]);
      JoinNonEmpty(parts);
      SplitJoin(parts);
    }
  }

  /** `pluralize(word, number)`: singular for exactly one, plural (`word + "s"`) otherwise, zero included. */
  function Pluralize(word: string, n: nat): string
  {
    NatToString(n) + " " + (if n == 1 then word else word + "s")
  }

  /**
   * Reads `"<n> <word>"` or `"<n> <word>s"` at the head of a line, insisting
   * that only one is singular; gives back n and the rest of the line.
   */
  function ParseHead(line: string, word: string): Option<(nat, string)>
  {
    var i := Pos(line, ' ');
    if i == |line| then None
    else
      var rest := line[i + 1..];
      var j := Pos(rest, ' ');
      match ParseNat(line[..i])
      case None => None
      case Some(n) =>
        if rest[..j] == (if n == 1 then word else word + "s") then Some((n, rest[j..])) else None
  }

  /** Where the first space falls in `"<prefix> <rest>"`. */
  lemma CutAtSpace(prefix: string, rest: string)
    requires ' ' !in prefix
    ensures Pos(prefix + " " + rest, ' ') == |prefix|
    ensures (prefix + " " + rest)[..|prefix|] == prefix
    ensures (prefix + " " + rest)[|prefix| + 1..] == rest
  {
    assert prefix + " " + rest == prefix + [' '] + rest;
    PosAfter(prefix, ' ', rest);
  }

  /** A word without spaces ends where the tail begins. */
  lemma CutAtTail(w: string, tail: string)
    requires ' ' !in w
    requires tail == "" || tail[0] == ' '
    ensures Pos(w + tail, ' ') == |w|
    ensures (w + tail)[..|w|] == w && (w + tail)[|w|..] == tail
  {
    if tail != "" {
      CutAtSpace(w, tail[1..]);
      assert w + tail == w + " " + tail[1..];
    } else {
      assert w + tail == w;
    }
  }

  lemma DigitsHaveNoSpace(n: nat)
    ensures ' ' !in NatToString(n) && ',' !in NatToString(n)
  {
    var d := NatToString(n);
    NatToStringDigits(n);
    forall k | 0 <= k < |d| ensures d[k] != ' ' && d[k] != ',' {
      assert IsDigit(d[k]);
    }
  }

  /** A head `"<digits> <word or word+s>"` reads back as the number the digits spell. */
  lemma ParseHeadOf(d: string, n: nat, word: string, tail: string)
    requires ' ' !in d && ParseNat(d) == Some(n)
    requires ' ' !in word
    requires tail == "" || tail[0] == ' '
    ensures ParseHead(d + " " + (if n == 1 then word else word + "s") + tail, word) == Some((n, tail))
  {
    var w := if n == 1 then word else word + "s";
    var line := d + " " + w + tail;
    assert ' ' !in w;
    assert line == d + " " + (w + tail);
    CutAtSpace(d, w + tail);
    CutAtTail(w, tail);
  }

  /** The count and the number agreement can be read back from a pluralized line. */
  lemma PluralizeRoundTrip(word: string, n: nat, tail: string)
    requires ' ' !in word
    requires tail == "" || tail[0] == ' '
    ensures ParseHead(Pluralize(word, n) + tail, word) == Some((n, tail))
  {
    var d := NatToString(n);
    DigitsHaveNoSpace(n);
    ParseNatToString(n);
    ParseHeadOf(d, n, word, tail);
  }

  /** `"#{pluralize word, results.size} (#{count_summary results})"`, on the results' statuses. */
  function CountLine(word: string, xs: seq<Status>): string
  {
    Pluralize(word, |xs|) + " (" + CountSummary(xs) + ")"
  }

  /** Reads `" (<breakdown>)"`. */
  function ParseParenthesised(tail: string): Option<seq<Tally>>
  {
    if |tail| >= 3 && tail[..2] == " (" && tail[|tail| - 1] == ')' then ParseBreakdown(tail[2..|tail| - 1])
    else None
  }

  /** Reads a count line back into its count and its tallies. */
  function ParseCountLine(line: string, word: string): Option<(nat, seq<Tally>)>
  {
    match ParseHead(line, word)
    case None => None
    case Some((n, tail)) =>
      match ParseParenthesised(tail)
      case None => None
      case Some(ts) => Some((n, ts))
  }

  /** The parentheses around a breakdown are stripped before it is read. */
  lemma ParenthesisedRoundTrip(b: string)
    ensures ParseParenthesised(" (" + b + ")") == ParseBreakdown(b)
  {
    var tail := " (" + b + ")";
    assert tail[..2] == " (" && tail[2..|tail| - 1] == b;
  }

  /** A count line reads back as its count and whatever its breakdown reads back as. */
  lemma CountLineFrom(word: string, n: nat, b: string, ts: seq<Tally>)
    requires ' ' !in word
    requires ParseBreakdown(b) == Some(ts)
    ensures ParseCountLine(Pluralize(word, n) + " (" + b + ")", word) == Some((n, ts))
  {
    var tail := " (" + b + ")";
    assert Pluralize(word, n) + " (" + b + ")" == Pluralize(word, n) + tail;
    PluralizeRoundTrip(word, n, tail);
    ParenthesisedRoundTrip(b);
  }

  /** A count line gives back the size of the collection and its breakdown. */
  lemma CountLineRoundTrip(word: string, xs: seq<Status>)
    requires ' ' !in word
    ensures ParseCountLine(CountLine(word, xs), word) == Some((|xs|, Tallies(xs)))
  {
    CountSummaryRoundTrip(xs);
    CountLineFrom(word, |xs|, CountSummary(xs), Tallies(xs));
  }

  /** An empty collection still prints its parentheses: `"0 <word>s ()"`. */
  lemma EmptyCountLine(word: string)
    ensures CountLine(word, []) == "0 " + word + "s ()"
  {
    assert CountSummary([]) == "";
    assert Pluralize(word, 0) == "0 " + word + "s";
    assert CountLine(word, []) == ("0 " + word + "s") + " (" + "" + ")";
  }

  // ---------------------------------------------------------------------
  // The report
  // ---------------------------------------------------------------------

  /** There are as many scenarios as distinct ids. */
  lemma ScenarioCount(steps: seq<StepResult>)
    ensures |GroupByScenario(steps)| == |Distinct(Ids(steps))|
  {
    GroupByScenarioCorrect(steps);
    assert |GroupByScenario(steps)| == |Keys(GroupByScenario(steps))|;
  }

  /** What `summarize` writes for the given steps, in order. */
  function Report(steps: seq<StepResult>): seq<Output>
  {
    [ Line(""), Line(""),
      Elements(WithStatus(steps, Failed), Failed, "steps"),
      Line(CountLine("scenario", ScenarioStatuses(GroupByScenario(steps)))),
      Line(CountLine("step", StepStatuses(steps))) ]
  }

  /**
   * The report: two blank lines; the failed steps; a scenario line that
   * counts the grouped scenarios, one per distinct id with `nil` included
   * (`ScenarioCount`), with their breakdown; a step line that counts every step.
   */
  lemma ReportReadsBack(steps: seq<StepResult>)
    ensures |Report(steps)| == 5
    ensures Report(steps)[0] == Line("") && Report(steps)[1] == Line("")
    ensures Report(steps)[2].Elements? && Report(steps)[2].status == Failed
    ensures forall s :: s in Report(steps)[2].items <==> s in steps && s.status == Failed
    ensures |Report(steps)[2].items| == Count(StepStatuses(steps), Failed)
    ensures Report(steps)[3].Line? && Report(steps)[4].Line?
    ensures ParseCountLine(Report(steps)[3].text, "scenario")
            == Some((|GroupByScenario(steps)|, Tallies(ScenarioStatuses(GroupByScenario(steps)))))
    ensures ParseCountLine(Report(steps)[4].text, "step") == Some((|steps|, Tallies(StepStatuses(steps))))
  {
    ReportFailedSteps(steps);
    ReportScenarioLine(steps);
    ReportStepLine(steps);
  }

  /** The third item of the report lists exactly the failed steps. */
  lemma ReportFailedSteps(steps: seq<StepResult>)
    ensures |Report(steps)| == 5
    ensures Report(steps)[2].Elements? && Report(steps)[2].status == Failed
    ensures forall s :: s in Report(steps)[2].items <==> s in steps && s.status == Failed
    ensures |Report(steps)[2].items| == Count(StepStatuses(steps), Failed)
  {
    assert Report(steps)[2].items == WithStatus(steps, Failed);
    WithStatusSpec(steps, Failed);
  }

  /**
   * The failed steps are listed in the order they arrived: more steps
   * only add their own failures after the ones already listed.
   */
  lemma ReportFailedInArrivalOrder(steps: seq<StepResult>, more: seq<StepResult>)
    ensures Report(steps + more)[2].items == Report(steps)[2].items + WithStatus(more, Failed)
  {
    WithStatusAppend(steps, more, Failed);
  }

  /** The scenario line counts the grouped scenarios (see `ScenarioCount` for how many there are). */
  lemma ReportScenarioLine(steps: seq<StepResult>)
    ensures ParseCountLine(Report(steps)[3].text, "scenario")
            == Some((|GroupByScenario(steps)|, Tallies(ScenarioStatuses(GroupByScenario(steps)))))
  {
    var scenarioStatuses := ScenarioStatuses(GroupByScenario(steps));
    assert Report(steps)[3].text == CountLine("scenario", scenarioStatuses);
    CountLineRoundTrip("scenario", scenarioStatuses);
  }

  /** The step line counts every step. */
  lemma ReportStepLine(steps: seq<StepResult>)
    ensures ParseCountLine(Report(steps)[4].text, "step") == Some((|steps|, Tallies(StepStatuses(steps))))
  {
    assert Report(steps)[4].text == CountLine("step", StepStatuses(steps));
    CountLineRoundTrip("step", StepStatuses(steps));
  }

  /** `Cucumber::Summary`: the steps to summarize and the output they are written to. */
  class Summary {
    const steps: seq<StepResult>
    var io: seq<Output>
    /** `@scenarios`, filled on first use. */
    var memo: Option<seq<ScenarioResult>>

    ghost predicate Valid()
      reads this
    {
      memo.Some? ==> memo.value == GroupByScenario(steps)
    }

    constructor (steps: seq<StepResult>, io: seq<Output> := [])
      ensures this.steps == steps && this.io == io && memo == None
      ensures Valid()
    {
      this.steps := steps;
      this.io := io;
      memo := None;
    }

    /** `scenarios`: the grouping, computed once and then remembered. */
    method Scenarios() returns (scenarios: seq<ScenarioResult>)
      requires Valid()
      modifies this`memo
      ensures Valid() && memo == Some(scenarios)
      ensures scenarios == GroupByScenario(steps)
    {
      if memo.None? {
        memo := Some(GroupByScenario(steps));
      }
      scenarios := memo.value;
    }

    /** `summarize`: writes the report after whatever `io` already holds. */
    method Summarize()
      requires Valid()
      modifies this`io, this`memo
      ensures Valid()
      ensures io == old(io) + Report(steps)
    {
      ghost var before := io;
      ghost var report := Report(steps);
      io := io + [Line("")];
      io := io + [Line("")];
      assert io == before + report[..2];
      PrintSteps(Failed);
      assert io == before + report[..3];
      PrintScenarioCounts();
      assert io == before + report[..4];
      PrintStepCounts();
      assert report[..5] == report;
    }

    /** `print_steps(status)`: `print_elements` of the steps with that status. */
    method PrintSteps(status: Status)
      modifies this`io
      ensures io == old(io) + [Elements(WithStatus(steps, status), status, "steps")]
    {
      io := io + [Elements(WithStatus(steps, status), status, "steps")];
    }

    method PrintScenarioCounts()
      requires Valid()
      modifies this`io, this`memo
      ensures Valid()
      ensures io == old(io) + [Line(CountLine("scenario", ScenarioStatuses(GroupByScenario(steps))))]
    {
      var scenarios := Scenarios();
      io := io + [Line(CountLine("scenario", ScenarioStatuses(scenarios)))];
    }

    method PrintStepCounts()
      modifies this`io
      ensures io == old(io) + [Line(CountLine("step", StepStatuses(steps)))]
    {
      io := io + [Line(CountLine("step", StepStatuses(steps)))];
    }
  }
}
