/**
 * `Flatware::Cucumber::Formatter`: the callback object Cucumber drives in a
 * worker. It remembers the scenario being run and whether an outline's
 * examples table is open, and pushes one `StepResult` per finished step
 * to the sink, tagged with the current scenario.
 */
module Formatter {
  import opened Wrappers
  import opened Results
  import CucumberSummary

  /**
   * A row of an outline's examples table. Asking a header row whether it
   * failed raises `InvalidForHeaderRowError`; an example row answers.
   */
  datatype TableRow = HeaderRow | ExampleRow(failed: bool)

  /** `table_header_row?`: true in the rescue branch, false in the `else` branch. */
  predicate TableHeaderRow(row: TableRow)
  {
    row.HeaderRow?
  }

  /** `table_header_cell?(status)`, the cell status given by its symbol's name. */
  predicate TableHeaderCell(status: string)
  {
    status == "skipped_param"
  }

  /** `step_mother.steps(status).size` for each of `STATUSES`, as `before_table_row` collects them. */
  function StepCounts(executed: seq<StepResult>): (counts: map<Status, nat>)
    ensures counts.Keys == set s | s in STATUSES
  {
    map s | s in STATUSES :: CucumberSummary.Count(CucumberSummary.StepStatuses(executed), s)
  }

  lemma StepCountsCountEveryStatus(executed: seq<StepResult>, s: Status)
    ensures s in StepCounts(executed)
    ensures StepCounts(executed)[s] == multiset(CucumberSummary.StepStatuses(executed))[s]
  {
    assert STATUSES[Rank(s)] == s;
    CucumberSummary.CountIsMultiplicity(CucumberSummary.StepStatuses(executed), s);
  }

  class Formatter {
    /** `@current_scenario`: the `file_colon_line` of the last `scenario_name`, `nil` before the first. */
    var currentScenario: ScenarioId
    /** Whether `@outline_table` holds a table. */
    var outlineTable: bool
    /** `@step_counts`. */
    var stepCounts: Option<map<Status, nat>>
    /** The results handed to `Sink.push`, in order. */
    var pushed: seq<StepResult>

    constructor ()
      ensures currentScenario == None && !outlineTable && stepCounts == None && pushed == []
    {
      currentScenario := None;
      outlineTable := false;
      stepCounts := None;
      pushed := [];
    }

    /** `scenario_name`: only the `file_colon_line` is kept. */
    method ScenarioName(keyword: string, name: string, fileColonLine: string, sourceIndent: int)
      modifies this`currentScenario
      ensures currentScenario == Some(fileColonLine)
    {
      currentScenario := Some(fileColonLine);
    }

    /** `after_step_result`: pushes the step's result, tagged with the current scenario. */
    method AfterStepResult(status: Status, exception: Option<Exception>)
      modifies this`pushed
      ensures pushed == old(pushed) + [NewStepResult(status, exception, currentScenario)]
      ensures pushed[|pushed| - 1].scenarioId == currentScenario
    {
      pushed := pushed + [NewStepResult(status, exception, currentScenario)];
    }

    /** `before_outline_table`. */
    method BeforeOutlineTable()
      modifies this`outlineTable
      ensures outlineTable
    {
      outlineTable := true;
    }

    /** `after_outline_table`. */
    method AfterOutlineTable()
      modifies this`outlineTable
      ensures !outlineTable
    {
      outlineTable := false;
    }

    /** `before_table_row`: on an example row, records how many steps Cucumber has run per status. */
    method BeforeTableRow(row: TableRow, executed: seq<StepResult>)
      modifies this`stepCounts
      ensures stepCounts == if IsExampleRow(row) then Some(StepCounts(executed)) else old(stepCounts)
    {
      if IsExampleRow(row) {
        stepCounts := Some(StepCounts(executed));
      }
    }

    /** `outline_table?`. */
    predicate OutlineTableActive()
      reads this
    {
      outlineTable
    }

    /** `example_row?`. */
    predicate IsExampleRow(row: TableRow)
      reads this
    {
      OutlineTableActive() && !TableHeaderRow(row)
    }

    /** `example_cell?`. */
    predicate IsExampleCell(status: string)
      reads this
    {
      OutlineTableActive() && !TableHeaderCell(status)
    }
  }

  /** Outside an outline table no row is an example row and no cell an example cell. */
  lemma NoExamplesOutsideOutline(f: Formatter, row: TableRow, status: string)
    requires !f.outlineTable
    ensures !f.IsExampleRow(row) && !f.IsExampleCell(status)
  {
  }

  /**
   * Inside an outline table, the example rows are exactly the rows that are
   * not headers, and the example cells exactly those not `:skipped_param`.
   */
  lemma ExamplesInsideOutline(f: Formatter, row: TableRow, status: string)
    requires f.outlineTable
    ensures f.IsExampleRow(row) <==> row.ExampleRow?
    ensures f.IsExampleCell(status) <==> status != "skipped_param"
  {
  }
}
