/**
 * `Flatware::Sink::Server`: the aggregator. It receives decoded messages
 * one at a time until every expected feature has been reported complete,
 * printing a progress glyph per step, then writes the summary and
 * publishes the `'seppuku'` sentinel on the `die` socket.
 */
module Sink {
  import opened Wrappers
  import opened Results
  import opened Console
  import CucumberSummary
  import Fireable

  /** A received message after `Marshal.load`: the two result kinds, or anything else. */
  datatype Message =
    | StepMessage(step: StepResult)
    | ScenarioMessage(scenario: ScenarioResult)
    | Unknown(payload: string)

  /** `completed_scenarios.map(&:id)`. */
  function CompletedIds(completed: seq<ScenarioResult>): seq<ScenarioId>
  {
    seq(|completed|, i requires 0 <= i < |completed| => completed[i].id)
  }

  /**
   * `remaining_work`: `Cucumber.features - completed_scenarios.map(&:id)`.
   * Array difference drops every feature that occurs among the ids and
   * keeps the others, in order and with their repeats.
   */
  function RemainingWork(features: seq<string>, completed: seq<ScenarioResult>): seq<string>
  {
    if features == [] then []
    else
      var last := features[|features| - 1];
      RemainingWork(features[..|features| - 1], completed)
        + (if Some(last) in CompletedIds(completed) then [] else [last])
  }

  /** `done?`. */
  predicate Done(features: seq<string>, completed: seq<ScenarioResult>)
  {
    RemainingWork(features, completed) == []
  }

  /** What is left is exactly the expected features no completed scenario has reported. */
  lemma {:induction false} RemainingWorkSpec(features: seq<string>, completed: seq<ScenarioResult>)
    ensures forall f :: f in RemainingWork(features, completed) <==> f in features && Some(f) !in CompletedIds(completed)
  {
    if features != [] {
      RemainingWorkSpec(features[..|features| - 1], completed);
      assert features == features[..|features| - 1] + [features[|features| - 1]];
    }
  }

  /** `done?` holds exactly when every expected feature is among the completed ids. */
  lemma DoneIff(features: seq<string>, completed: seq<ScenarioResult>)
    ensures Done(features, completed) <==> forall f :: f in features ==> Some(f) in CompletedIds(completed)
  {
    RemainingWorkSpec(features, completed);
    if !Done(features, completed) {
      assert RemainingWork(features, completed)[0] in RemainingWork(features, completed);
    }
  }

  /** Once done, further completions keep it done. */
  lemma DoneMonotone(features: seq<string>, completed: seq<ScenarioResult>, more: seq<ScenarioResult>)
    requires Done(features, completed)
    ensures Done(features, completed + more)
  {
    DoneIff(features, completed);
    DoneIff(features, completed + more);
    assert CompletedIds(completed + more) == CompletedIds(completed) + CompletedIds(more);
  }

  /** A repeated completion, or one for a scenario nobody expects, changes nothing that is left. */
  lemma {:induction false} IrrelevantCompletion(features: seq<string>, completed: seq<ScenarioResult>, sc: ScenarioResult)
    requires sc.id in CompletedIds(completed) || sc.id.None? || sc.id.value !in features
    ensures RemainingWork(features, completed + [sc]) == RemainingWork(features, completed)
  {
    assert CompletedIds(completed + [sc]) == CompletedIds(completed) + [sc.id];
    if features != [] {
      var init := features[..|features| - 1];
      if !(sc.id in CompletedIds(completed) || sc.id.None?) {
        assert forall f :: f in init ==> f in features;
      }
      IrrelevantCompletion(init, completed, sc);
    }
  }

  /** The server's accumulators and everything printed to `$stdout`. */
  datatype State = State(steps: seq<StepResult>, completed: seq<ScenarioResult>, stdout: seq<Output>)

  /** One pass of the `until done?` loop body on a received message. */
  function Receive(st: State, m: Message): State
  {
    match m
    case StepMessage(r) => State(st.steps + [r], st.completed, st.stdout + [Glyph(Progress(r))])
    case ScenarioMessage(sc) => State(st.steps, st.completed + [sc], st.stdout)
    case Unknown(_) => st
  }

  /** The state after receiving `ms` in order. */
  function ReceiveAll(st: State, ms: seq<Message>): State
  {
    if ms == [] then st else Receive(ReceiveAll(st, ms[..|ms| - 1]), ms[|ms| - 1])
  }

  /** The step results among some messages, in order. */
  function StepsIn(ms: seq<Message>): seq<StepResult>
  {
    if ms == [] then []
    else StepsIn(ms[..|ms| - 1]) + (if ms[|ms| - 1].StepMessage? then [ms[|ms| - 1].step] else [])
  }

  /** The scenario results among some messages, in order. */
  function ScenariosIn(ms: seq<Message>): seq<ScenarioResult>
  {
    if ms == [] then []
    else ScenariosIn(ms[..|ms| - 1]) + (if ms[|ms| - 1].ScenarioMessage? then [ms[|ms| - 1].scenario] else [])
  }

  /** The glyphs printed for some steps. */
  function Glyphs(steps: seq<StepResult>): seq<Output>
  {
    seq(|steps|, i requires 0 <= i < |steps| => Glyph(Progress(steps[i])))
  }

  /**
   * Receiving appends every step result to `steps` and prints its glyph,
   * appends every scenario result to `completed`, and drops anything
   * else: no message is lost, counted twice or reordered.
   */
  lemma {:induction false} ReceiveAllAccumulates(st: State, ms: seq<Message>)
    ensures ReceiveAll(st, ms).steps == st.steps + StepsIn(ms)
    ensures ReceiveAll(st, ms).completed == st.completed + ScenariosIn(ms)
    ensures ReceiveAll(st, ms).stdout == st.stdout + Glyphs(StepsIn(ms))
  {
    if ms != [] {
      var init := ms[..|ms| - 1];
      ReceiveAllAccumulates(st, init);
      if ms[|ms| - 1].StepMessage? {
        assert Glyphs(StepsIn(ms)) == Glyphs(StepsIn(init)) + [Glyph(Progress(ms[|ms| - 1].step))];
      } else {
        assert StepsIn(ms) == StepsIn(init);
      }
    }
  }

  lemma ReceiveAllSnoc(st: State, ms: seq<Message>, m: Message)
    ensures ReceiveAll(st, ms + [m]) == Receive(ReceiveAll(st, ms), m)
  {
    assert (ms + [m])[..|ms|] == ms;
  }

  /** `done?` held after none of the proper prefixes of `ms`: `listen` would take every message of `ms`. */
  predicate UndoneBefore(features: seq<string>, st: State, ms: seq<Message>)
  {
    ms == [] ||
    (UndoneBefore(features, st, ms[..|ms| - 1]) && !Done(features, ReceiveAll(st, ms[..|ms| - 1]).completed))
  }

  lemma {:induction false} UndoneBeforeSpec(features: seq<string>, st: State, ms: seq<Message>)
    ensures UndoneBefore(features, st, ms) <==>
            forall k :: 0 <= k < |ms| ==> !Done(features, ReceiveAll(st, ms[..k]).completed)
  {
    if ms != [] {
      var init := ms[..|ms| - 1];
      UndoneBeforeSpec(features, st, init);
      assert forall k :: 0 <= k < |init| ==> init[..k] == ms[..k];
    }
  }

  /**
   * `listen`'s stopping rule over an inbox: it took `consumed` messages
   * because `done?` was false before each of them, and it stopped either
   * because `done?` became true (`finished`) or because the inbox ran out.
   */
  ghost predicate StopsAtFirstDone(features: seq<string>, st: State, inbox: seq<Message>, consumed: nat, finished: bool)
  {
    && consumed <= |inbox|
    && (forall k :: 0 <= k < consumed ==> !Done(features, ReceiveAll(st, inbox[..k]).completed))
    && (finished <==> Done(features, ReceiveAll(st, inbox[..consumed]).completed))
    && (!finished ==> consumed == |inbox|)
  }

  /** The stopping rule leaves no choice: how many messages are taken, and whether the run finishes. */
  lemma StopsAtFirstDoneUnique(features: seq<string>, st: State, inbox: seq<Message>,
                               c1: nat, f1: bool, c2: nat, f2: bool)
    requires StopsAtFirstDone(features, st, inbox, c1, f1)
    requires StopsAtFirstDone(features, st, inbox, c2, f2)
    ensures c1 == c2 && f1 == f2
  {
    var at1, at2 := inbox[..c1], inbox[..c2];
    assert c1 < c2 ==> !Done(features, ReceiveAll(st, at1).completed);
    assert c2 < c1 ==> !Done(features, ReceiveAll(st, at2).completed);
  }

  /** When the work is already done, nothing is taken and the run finishes at once. */
  lemma StopsAtOnceWhenDone(features: seq<string>, st: State, inbox: seq<Message>, consumed: nat, finished: bool)
    requires StopsAtFirstDone(features, st, inbox, consumed, finished)
    requires Done(features, st.completed)
    ensures consumed == 0 && finished
  {
    assert inbox[..0] == [];
    assert ReceiveAll(st, []) == st;
  }

  // ---------------------------------------------------------------------
  // The server's event log
  // ---------------------------------------------------------------------

  /**
   * What the server does, in the order it does it: takes a message off
   * the socket, prints an item, publishes on the `die` socket, closes.
   */
  datatype Event =
    | Took(message: Message)
    | Printed(output: Output)
    | Published(payload: string)
    | Closed

  /** Taking one message: the message, then the progress glyph of a step result. */
  function MessageEvents(m: Message): seq<Event>
  {
    [Took(m)] + if m.StepMessage? then [Printed(Glyph(Progress(m.step)))] else []
  }

  /** Taking the messages `ms` one after the other. */
  function TakeEvents(ms: seq<Message>): seq<Event>
  {
    if ms == [] then []
    else TakeEvents(ms[..|ms| - 1]) + MessageEvents(ms[|ms| - 1])
  }

  /** Printing the items of `outs` one after the other. */
  function PrintEvents(outs: seq<Output>): seq<Event>
  {
    if outs == [] then []
    else PrintEvents(outs[..|outs| - 1]) + [Printed(outs[|outs| - 1])]
  }

  /**
   * A run of `start` that finishes: the messages taken, the report
   * printed, then the sentinel published and the sockets closed.
   */
  function ClosingLog(ms: seq<Message>, report: seq<Output>): seq<Event>
  {
    TakeEvents(ms) + PrintEvents(report) + [Published(Fireable.Sentinel), Closed]
  }

  /** The messages a log took, in order. */
  function Taken(log: seq<Event>): seq<Message>
  {
    if log == [] then []
    else Taken(log[..|log| - 1]) + if log[|log| - 1].Took? then [log[|log| - 1].message] else []
  }

  /** The items a log printed, in order. */
  function Printouts(log: seq<Event>): seq<Output>
  {
    if log == [] then []
    else Printouts(log[..|log| - 1]) + if log[|log| - 1].Printed? then [log[|log| - 1].output] else []
  }

  lemma {:induction false} TakenAppend(a: seq<Event>, b: seq<Event>)
    ensures Taken(a + b) == Taken(a) + Taken(b)
    ensures Printouts(a + b) == Printouts(a) + Printouts(b)
  {
    if b == [] {
      assert a + b == a;
    } else {
      var init := b[..|b| - 1];
      assert (a + b)[..|a + b| - 1] == a + init;
      assert (a + b)[|a + b| - 1] == b[|b| - 1];
      TakenAppend(a, init);
    }
  }

  /** Taking one message takes it and prints its glyph, if any. */
  lemma MessageEventsReplay(m: Message)
    ensures Taken(MessageEvents(m)) == [m]
    ensures Printouts(MessageEvents(m)) == if m.StepMessage? then [Glyph(Progress(m.step))] else []
    ensures forall e :: e in MessageEvents(m) ==> e.Took? || e.Printed?
  {
    var took: seq<Event> := [Took(m)];
    assert took[..0] == [];
    assert Taken(took) == [m] && Printouts(took) == [];
    if m.StepMessage? {
      var ev := took + [Printed(Glyph(Progress(m.step)))];
      assert MessageEvents(m) == ev;
      assert ev[..|ev| - 1] == took;
    } else {
      assert MessageEvents(m) == took;
    }
  }

  /**
   * Taking `ms` takes exactly `ms`, in order, prints exactly their
   * glyphs, and neither publishes nor closes.
   */
  lemma TakeEventsReplay(ms: seq<Message>)
    ensures Taken(TakeEvents(ms)) == ms
    ensures Printouts(TakeEvents(ms)) == Glyphs(StepsIn(ms))
    ensures forall e :: e in TakeEvents(ms) ==> e.Took? || e.Printed?
  {
    TakeEventsTaken(ms);
    TakeEventsPrinted(ms);
    TakeEventsTraffic(ms);
  }

  lemma {:induction false} TakeEventsTaken(ms: seq<Message>)
    ensures Taken(TakeEvents(ms)) == ms
  {
    if ms != [] {
      var init, last := ms[..|ms| - 1], ms[|ms| - 1];
      TakeEventsTaken(init);
      TakenAppend(TakeEvents(init), MessageEvents(last));
      MessageEventsReplay(last);
      assert ms == init + [last];
    }
  }

  lemma {:induction false} TakeEventsPrinted(ms: seq<Message>)
    ensures Printouts(TakeEvents(ms)) == Glyphs(StepsIn(ms))
  {
    if ms != [] {
      var init, last := ms[..|ms| - 1], ms[|ms| - 1];
      TakeEventsPrinted(init);
      TakenAppend(TakeEvents(init), MessageEvents(last));
      MessageEventsReplay(last);
      if last.StepMessage? {
        assert StepsIn(ms) == StepsIn(init) + [last.step];
        assert Glyphs(StepsIn(init) + [last.step]) == Glyphs(StepsIn(init)) + [Glyph(Progress(last.step))];
      } else {
        assert StepsIn(ms) == StepsIn(init) + [];
      }
    }
  }

  lemma {:induction false} TakeEventsTraffic(ms: seq<Message>)
    ensures forall e :: e in TakeEvents(ms) ==> e.Took? || e.Printed?
  {
    if ms != [] {
      TakeEventsTraffic(ms[..|ms| - 1]);
      MessageEventsReplay(ms[|ms| - 1]);
    }
  }

  /** Printing `outs` prints exactly `outs`, and does nothing else. */
  lemma {:induction false} PrintEventsReplay(outs: seq<Output>)
    ensures Printouts(PrintEvents(outs)) == outs
    ensures Taken(PrintEvents(outs)) == []
    ensures forall e :: e in PrintEvents(outs) ==> e.Printed?
  {
    if outs != [] {
      var init := outs[..|outs| - 1];
      PrintEventsReplay(init);
      TakenAppend(PrintEvents(init), [Printed(outs[|outs| - 1])]);
      assert [Printed(outs[|outs| - 1])][..0] == [];
    }
  }

  /**
   * A finishing run takes every message before the sentinel and prints
   * the glyphs and then the report before it; the sentinel goes out once,
   * followed only by the close.
   */
  lemma ClosingLogOrder(ms: seq<Message>, report: seq<Output>)
    ensures Taken(ClosingLog(ms, report)) == ms
    ensures Printouts(ClosingLog(ms, report)) == Glyphs(StepsIn(ms)) + report
    ensures var log := ClosingLog(ms, report);
            |log| >= 2 && log[|log| - 2] == Published(Fireable.Sentinel) && log[|log| - 1] == Closed
            && forall i :: 0 <= i < |log| - 2 ==> log[i].Took? || log[i].Printed?
  {
    var body := TakeEvents(ms) + PrintEvents(report);
    var tail: seq<Event> := [Published(Fireable.Sentinel), Closed];
    assert ClosingLog(ms, report) == body + tail;
    BodyReplay(ms, report);
    TakenAppend(body, tail);
    SilentEvent(Published(Fireable.Sentinel));
    SilentEvent(Closed);
    TakenAppend([Published(Fireable.Sentinel)], [Closed]);
    assert tail == [Published(Fireable.Sentinel)] + [Closed];
    assert forall i :: 0 <= i < |body| ==> (body + tail)[i] == body[i];
  }

  /** Publishing and closing neither take a message nor print. */
  lemma SilentEvent(e: Event)
    requires !e.Took? && !e.Printed?
    ensures Taken([e]) == [] && Printouts([e]) == []
  {
    assert [e][..0] == [];
  }

  /** Before the sentinel: every message taken, the glyphs then the report printed, nothing else. */
  lemma BodyReplay(ms: seq<Message>, report: seq<Output>)
    ensures var body := TakeEvents(ms) + PrintEvents(report);
            Taken(body) == ms && Printouts(body) == Glyphs(StepsIn(ms)) + report
            && forall i :: 0 <= i < |body| ==> body[i].Took? || body[i].Printed?
  {
    var body := TakeEvents(ms) + PrintEvents(report);
    TakeEventsReplay(ms);
    PrintEventsReplay(report);
    TakenAppend(TakeEvents(ms), PrintEvents(report));
    assert forall i :: 0 <= i < |body| ==> body[i] in TakeEvents(ms) || body[i] in PrintEvents(report);
  }

  /** Closing after a finished `listen` extends its log to the closing log. */
  lemma ClosingLogAfter(before: seq<Event>, ms: seq<Message>, report: seq<Output>)
    ensures before + TakeEvents(ms) + PrintEvents(report) + [Published(Fireable.Sentinel), Closed]
            == before + ClosingLog(ms, report)
  {
  }

  class Server {
    /** `Cucumber.features`, the work expected before the run starts. */
    const features: seq<string>
    /** `@steps`. */
    var steps: seq<StepResult>
    /** `@completed_scenarios`. */
    var completedScenarios: seq<ScenarioResult>
    /** What the server printed to `$stdout`. */
    var stdout: seq<Output>
    /** What it published on the `die` socket. */
    var published: seq<string>
    /** Whether `Flatware.close` has run. */
    var closed: bool
    /** Everything the server has done so far, in order. */
    ghost var events: seq<Event>

    constructor (features: seq<string>)
      ensures this.features == features
      ensures steps == [] && completedScenarios == [] && stdout == [] && published == [] && !closed
      ensures events == []
    {
      this.features := features;
      steps := [];
      completedScenarios := [];
      stdout := [];
      published := [];
      closed := false;
      events := [];
    }

    function Snapshot(): State
      reads this
    {
      State(steps, completedScenarios, stdout)
    }

    /** `done?`. */
    predicate IsDone()
      reads this
    {
      Done(features, completedScenarios)
    }

    /** The `case` on a received message. */
    method Dispatch(m: Message)
      modifies this`steps, this`completedScenarios, this`stdout, this`events
      ensures Snapshot() == Receive(old(Snapshot()), m)
      ensures events == old(events) + MessageEvents(m)
    {
      events := events + [Took(m)];
      match m
      case StepMessage(r) =>
        stdout := stdout + [Glyph(Progress(r))];
        events := events + [Printed(Glyph(Progress(r)))];
        steps := steps + [r];
      case ScenarioMessage(sc) =>
        completedScenarios := completedScenarios + [sc];
      case Unknown(_) =>
    }

    /**
     * `listen` over the messages `inbox` delivers. `done?` is asked before
     * every receive, so a message is taken only while work remains. When
     * the inbox runs out first, the real server would still be blocked in
     * `recv`: `finished` is false and nothing is summarized.
     */
    method Listen(inbox: seq<Message>) returns (consumed: nat, finished: bool)
      modifies this`steps, this`completedScenarios, this`stdout, this`events
      ensures StopsAtFirstDone(features, old(Snapshot()), inbox, consumed, finished)
      ensures Done(features, old(completedScenarios)) ==> consumed == 0 && finished
      ensures steps == ReceiveAll(old(Snapshot()), inbox[..consumed]).steps
      ensures completedScenarios == ReceiveAll(old(Snapshot()), inbox[..consumed]).completed
      ensures stdout == ReceiveAll(old(Snapshot()), inbox[..consumed]).stdout
                        + (if finished then CucumberSummary.Report(steps) else [])
      ensures events == old(events) + TakeEvents(inbox[..consumed])
                        + (if finished then PrintEvents(CucumberSummary.Report(steps)) else [])
    {
      ghost var start := Snapshot();
      consumed := TakeWhileUndone(inbox);
      UndoneBeforeSpec(features, start, inbox[..consumed]);
      assert forall k :: 0 <= k < consumed ==> inbox[..consumed][..k] == inbox[..k];
      ghost var received := Snapshot();
      ghost var taken := events;
      finished := IsDone();
      assert StopsAtFirstDone(features, start, inbox, consumed, finished);
      if Done(features, start.completed) {
        StopsAtOnceWhenDone(features, start, inbox, consumed, finished);
      }
      if finished {
        Summarize();
        assert stdout == received.stdout + CucumberSummary.Report(steps);
        assert events == taken + PrintEvents(CucumberSummary.Report(steps));
      }
    }

    /** The loop of `listen`: receive while `done?` is false and messages remain. */
    method TakeWhileUndone(inbox: seq<Message>) returns (consumed: nat)
      modifies this`steps, this`completedScenarios, this`stdout, this`events
      ensures consumed <= |inbox|
      ensures Snapshot() == ReceiveAll(old(Snapshot()), inbox[..consumed])
      ensures UndoneBefore(features, old(Snapshot()), inbox[..consumed])
      ensures IsDone() || consumed == |inbox|
      ensures events == old(events) + TakeEvents(inbox[..consumed])
    {
      ghost var start := Snapshot();
      ghost var startEvents := events;
      consumed := 0;
      while !IsDone() && consumed < |inbox|
        invariant consumed <= |inbox|
        invariant Snapshot() == ReceiveAll(start, inbox[..consumed])
        invariant UndoneBefore(features, start, inbox[..consumed])
        invariant events == startEvents + TakeEvents(inbox[..consumed])
      {
        ReceiveAllSnoc(start, inbox[..consumed], inbox[consumed]);
        assert inbox[..consumed + 1] == inbox[..consumed] + [inbox[consumed]];
        assert inbox[..consumed + 1][..consumed] == inbox[..consumed];
        Dispatch(inbox[consumed]);
        consumed := consumed + 1;
      }
    }

    /** `summarize`: a `Cucumber::Summary` of the received steps, written to `$stdout`. */
    method Summarize()
      modifies this`stdout, this`events
      ensures stdout == old(stdout) + CucumberSummary.Report(steps)
      ensures events == old(events) + PrintEvents(CucumberSummary.Report(steps))
    {
      var summary := new CucumberSummary.Summary(steps, stdout);
      summary.Summarize();
      events := events + PrintEvents(summary.io[|stdout|..]);
      stdout := summary.io;
    }

    /**
     * `start`: `before_firing { listen }`, then `Flatware.close`. The
     * sentinel goes out once, after the listening block has returned and
     * the report is printed, and the sockets close after it
     * (`ClosingLogOrder`).
     */
    method Start(inbox: seq<Message>) returns (consumed: nat, finished: bool)
      modifies this`steps, this`completedScenarios, this`stdout, this`published, this`closed, this`events
      ensures StopsAtFirstDone(features, old(Snapshot()), inbox, consumed, finished)
      ensures Done(features, old(completedScenarios)) ==> consumed == 0 && finished
      ensures finished <==> Done(features, completedScenarios)
      ensures steps == ReceiveAll(old(Snapshot()), inbox[..consumed]).steps
      ensures completedScenarios == ReceiveAll(old(Snapshot()), inbox[..consumed]).completed
      ensures stdout == ReceiveAll(old(Snapshot()), inbox[..consumed]).stdout
                        + (if finished then CucumberSummary.Report(steps) else [])
      ensures published == old(published) + (if finished then [Fireable.Sentinel] else [])
      ensures closed == (old(closed) || finished)
      ensures events == old(events) + if finished then ClosingLog(inbox[..consumed], CucumberSummary.Report(steps))
                                      else TakeEvents(inbox[..consumed])
    {
      ghost var before := events;
      consumed, finished := Listen(inbox);
      if finished {
        ghost var report := CucumberSummary.Report(steps);
        ClosingLogAfter(before, inbox[..consumed], report);
        published := published + [Fireable.Sentinel];
        closed := true;
        events := events + [Published(Fireable.Sentinel), Closed];
      } else {
        assert events == before + TakeEvents(inbox[..consumed]) + [];
      }
    }
  }
}
