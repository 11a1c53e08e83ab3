/**
 * The result value types of `Flatware::Cucumber`: the step statuses with
 * their progress glyphs, the snapshot of an exception that travels to the
 * sink, one step's result and one scenario's result derived from its steps.
 */
module Results {
  import opened Wrappers

  /** The keys of `FORMATS`, the statuses Cucumber gives a step. */
  datatype Status = Passed | Failed | Undefined | Pending | Skipped

  /** `STATUSES = FORMATS.keys`, in the order the hash literal declares them. */
  const STATUSES: seq<Status> := [Passed, Failed, Undefined, Pending, Skipped]

  /** `FORMATS[status]`: the one-character progress glyph. */
  function Format(s: Status): (glyph: string)
    ensures |glyph| == 1
  {
    match s
    case Passed => "."
    case Failed => "F"
    case Undefined => "U"
    case Pending => "P"
    case Skipped => "-"
  }

  /** The status a progress glyph stands for. */
  function StatusOfGlyph(glyph: string): Option<Status>
  {
    if glyph == "." then Some(Passed)
    else if glyph == "F" then Some(Failed)
    else if glyph == "U" then Some(Undefined)
    else if glyph == "P" then Some(Pending)
    else if glyph == "-" then Some(Skipped)
    else None
  }

  /** The glyphs tell the statuses apart: reading one back gives its status. */
  lemma FormatDecodes(s: Status)
    ensures StatusOfGlyph(Format(s)) == Some(s)
  {
  }

  /** `"#{status}"`: the name of the status symbol. */
  function Name(s: Status): (name: string)
    ensures |name| > 0 && ' ' !in name && ',' !in name
  {
    match s
    case Passed => "passed"
    case Failed => "failed"
    case Undefined => "undefined"
    case Pending => "pending"
    case Skipped => "skipped"
  }

  function StatusNamed(name: string): Option<Status>
  {
    if name == "passed" then Some(Passed)
    else if name == "failed" then Some(Failed)
    else if name == "undefined" then Some(Undefined)
    else if name == "pending" then Some(Pending)
    else if name == "skipped" then Some(Skipped)
    else None
  }

  lemma NameDecodes(s: Status)
    ensures StatusNamed(Name(s)) == Some(s)
  {
  }

  /** The position of a status in `STATUSES`. */
  function Rank(s: Status): (r: nat)
    ensures r < |STATUSES| && STATUSES[r] == s
  {
    match s
    case Passed => 0
    case Failed => 1
    case Undefined => 2
    case Pending => 3
    case Skipped => 4
  }

  /** The `file_colon_line` of a scenario, or `nil`. */
  type ScenarioId = Option<string>

  /** A raised exception as the formatter receives it; `className` is `e.class.to_s`. */
  datatype Exception = Exception(className: string, message: string, backtrace: seq<string>)

  /** `SerializedClass`: a class reduced to its name (`to_s` is `name`). */
  datatype SerializedClass = SerializedClass(name: string)

  /** `SerializedException`: display data only, never the exception object. */
  datatype SerializedException = SerializedException(klass: SerializedClass, message: string, backtrace: seq<string>)

  /** `SerializedException.new(e.class, e.message, e.backtrace)`. */
  function Serialize(e: Exception): SerializedException
  {
    SerializedException(SerializedClass(e.className), e.message, e.backtrace)
  }

  /** What a reader of a snapshot sees: `klass.to_s`, `message`, `backtrace`. */
  function Display(x: SerializedException): Exception
  {
    Exception(x.klass.name, x.message, x.backtrace)
  }

  /** `StepResult`: a step's status, the snapshot of its exception, its scenario. */
  datatype StepResult = StepResult(status: Status, exception: Option<SerializedException>, scenarioId: ScenarioId)

  /** `StepResult.new(status, exception, scenario_id = nil)`. */
  function NewStepResult(status: Status, exception: Option<Exception>, scenarioId: ScenarioId := None): (r: StepResult)
    ensures r.status == status && r.scenarioId == scenarioId
    ensures r.exception.None? <==> exception.None?
    ensures exception.Some? ==> Display(r.exception.value) == exception.value
  {
    var snapshot := if exception.Some? then Some(Serialize(exception.value)) else None;
    StepResult(status, snapshot, scenarioId)
  }

  /** `StepResult#progress`, with the console colouring taken as the identity. */
  function Progress(r: StepResult): (glyph: string)
    ensures StatusOfGlyph(glyph) == Some(r.status)
  {
    Format(r.status)
  }

  /** `ScenarioResult`: a scenario id and its steps, in the order they arrived. */
  datatype ScenarioResult = ScenarioResult(id: ScenarioId, steps: seq<StepResult> := [])

  /** `ScenarioResult#passed?`: every step passed (true for no steps). */
  predicate ScenarioPassed(sc: ScenarioResult)
  {
    forall i :: 0 <= i < |sc.steps| ==> sc.steps[i].status == Passed
  }

  /** `ScenarioResult#failed?`: some step failed. */
  predicate ScenarioFailed(sc: ScenarioResult)
  {
    exists i :: 0 <= i < |sc.steps| && sc.steps[i].status == Failed
  }

  /** `ScenarioResult#status`. */
  function ScenarioStatus(sc: ScenarioResult): (r: Status)
    ensures r == Passed || r == Failed
  {
    if ScenarioFailed(sc) then Failed else Passed
  }

  /**
   * A scenario is failed exactly when one of its steps failed; undefined,
   * pending and skipped steps leave it passed.
   */
  lemma ScenarioStatusIff(sc: ScenarioResult)
    ensures ScenarioStatus(sc) == Failed <==> exists i :: 0 <= i < |sc.steps| && sc.steps[i].status == Failed
    ensures ScenarioStatus(sc) == Passed <==> forall i :: 0 <= i < |sc.steps| ==> sc.steps[i].status != Failed
  {
  }

  /** Every passed step makes a passed scenario, and a scenario without steps is passed. */
  lemma PassedScenarioHasPassedStatus(sc: ScenarioResult)
    requires ScenarioPassed(sc)
    ensures ScenarioStatus(sc) == Passed
  {
  }

  /** `passed?` and `status == :passed` differ: one undefined step is enough. */
  lemma PassedStatusWithoutPassedSteps(id: ScenarioId)
    ensures var sc := ScenarioResult(id, [StepResult(Undefined, None, id)]);
            ScenarioStatus(sc) == Passed && !ScenarioPassed(sc)
  {
    var sc := ScenarioResult(id, [StepResult(Undefined, None, id)]);
    assert sc.steps[0].status == Undefined;
  }
}
