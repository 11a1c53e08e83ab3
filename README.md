# flatware result aggregation, modelled in Dafny

flatware runs Cucumber features across parallel worker processes. Each
worker's formatter pushes one `StepResult` per finished step to a single
aggregator, the sink. The sink collects steps and completed scenarios
until every expected feature has been reported. Then it prints a summary
and broadcasts the `'seppuku'` sentinel, and each worker's receive loop
(`Fireable#until_fired`) stops when it sees that sentinel. This project
models that aggregation layer:

- `results.dfy` (module `Results`) holds the value types of
  `lib/flatware/cucumber/formatter.rb`. These are the step statuses with
  their `FORMATS` glyphs, `SerializedException`/`SerializedClass`,
  `StepResult` and `ScenarioResult` with its derived status.
- `formatter.dfy` (module `Formatter`) holds the `Formatter` callback
  object, a class whose fields are the current scenario, the outline-table
  flag, the step counts and the results pushed to the sink.
- `cucumber_summary.dfy` (module `CucumberSummary`) holds
  `Cucumber::Summary`. It groups steps by scenario id the way `group_by`
  does, counts by status, pluralizes, renders the count lines, and
  provides the `Summary` class that writes the report to its `io`.
- `flatware_summary.dfy` (module `FlatwareSummary`) holds
  `Flatware::Summary` from `lib/flatware/summary.rb`. This version drops
  steps without a scenario id before grouping, and it prints no
  parentheses for an empty collection.
- `sink.dfy` (module `Sink`) holds `Sink::Server`, a class with the
  `steps` and `completed_scenarios` accumulators. Its `Listen` loop takes
  a sequence of already-decoded messages and checks `done?` before every
  receive. The server also keeps a ghost log of what it does, in order:
  messages taken, items printed, the sentinel published, the sockets
  closed. `Start`'s contract states that log, so it shows that the
  sentinel goes out after the last message and the report, and the close
  after the sentinel.
- `console.dfy` (module `Console`) holds the items the summaries and the
  sink print: lines, lists of steps and progress glyphs.
- `fireable.dfy` (module `Fireable`) holds the `'seppuku'` sentinel that
  the sink publishes, and the `until_fired` loop, taken over a sequence of
  ready batches.
- `text.dfy` and `wrappers.dfy` are helpers: decimal rendering and
  parsing of counts, `join(", ")` with its inverse, and `Option`.

Every rendered line has a decoder (`ParseCountLine`, `ParseBreakdown`).
The round-trip lemmas show that a count line gives back exactly the
collection size and the per-status tallies it was made from.
`GroupByScenario` is built step by step, as `group_by` fills its hash. It
is proved against reference definitions: the distinct ids in order of
first appearance (`Distinct`), and the steps carrying each id (`WithId`).

## Model

| member | source | states |
|---|---|---|
| `Text.NatToStringDigits` | lib/flatware/cucumber/formatter.rb:163 | a count renders as a non-empty run of decimal digits that starts with `0` only for zero |
| `Text.ParseNatToString` | lib/flatware/cucumber/formatter.rb:163 | reading the rendered digits back gives the count |
| `Text.SplitJoin` | lib/flatware/cucumber/formatter.rb:174 | `join(", ")` of comma-free entries is undone by splitting at `", "` |
| `Results.Format` | lib/flatware/cucumber/formatter.rb:5-11 | each status has a one-character progress glyph |
| `Results.FormatDecodes` | lib/flatware/cucumber/formatter.rb:5-11 | the glyphs tell the five statuses apart |
| `Results.Rank` | lib/flatware/cucumber/formatter.rb:13 | every status sits at one position of `STATUSES` |
| `Results.NameDecodes` | lib/flatware/cucumber/formatter.rb:173 | the rendered status name reads back as its status |
| `Results.NewStepResult` | lib/flatware/cucumber/formatter.rb:186-217 | keeps status and scenario id; stores nil exactly when no exception is given, otherwise a snapshot whose class name, message and backtrace are those of the exception |
| `Results.Progress` | lib/flatware/cucumber/formatter.rb:198-200 | a step's progress output is the glyph of its status |
| `Results.ScenarioStatus` | lib/flatware/cucumber/formatter.rb:121-123 | a scenario's status is only ever passed or failed |
| `Results.ScenarioStatusIff` | lib/flatware/cucumber/formatter.rb:117-123 | status is failed iff some step failed, passed iff no step failed |
| `Results.PassedScenarioHasPassedStatus` | lib/flatware/cucumber/formatter.rb:113-123 | `passed?` (vacuously true for no steps) implies status passed |
| `Results.PassedStatusWithoutPassedSteps` | lib/flatware/cucumber/formatter.rb:113-123 | a scenario with one undefined step has status passed but is not `passed?` |
| `Formatter.StepCounts` | lib/flatware/cucumber/formatter.rb:36-41 | the recorded step counts have exactly the statuses of `STATUSES` as keys |
| `Formatter.StepCountsCountEveryStatus` | lib/flatware/cucumber/formatter.rb:38-40 | each recorded count is the number of executed steps with that status |
| `Formatter.Formatter.constructor` | lib/flatware/cucumber/formatter.rb:16-18 | a new formatter has no current scenario, no outline table, no step counts and has pushed nothing |
| `Formatter.Formatter.ScenarioName` | lib/flatware/cucumber/formatter.rb:20-22 | the current scenario becomes the given `file_colon_line` |
| `Formatter.Formatter.AfterStepResult` | lib/flatware/cucumber/formatter.rb:24-26 | exactly one step result is pushed, at the end, tagged with the current scenario (nil before any `scenario_name`) |
| `Formatter.Formatter.BeforeOutlineTable` | lib/flatware/cucumber/formatter.rb:28-30 | sets the outline flag |
| `Formatter.Formatter.AfterOutlineTable` | lib/flatware/cucumber/formatter.rb:32-34 | clears the outline flag |
| `Formatter.Formatter.BeforeTableRow` | lib/flatware/cucumber/formatter.rb:36-42 | records fresh step counts on an example row and changes nothing otherwise |
| `Formatter.NoExamplesOutsideOutline` | lib/flatware/cucumber/formatter.rb:80-94 | with no outline table active, no row is an example row and no cell an example cell |
| `Formatter.ExamplesInsideOutline` | lib/flatware/cucumber/formatter.rb:80-102 | inside an outline table, example rows are exactly the non-header rows and example cells exactly the cells whose status is not `:skipped_param` |
| `CucumberSummary.DistinctSpec` | lib/flatware/cucumber/formatter.rb:136 | the distinct ids are exactly the ids that occur, each once |
| `CucumberSummary.WithIdSpec` | lib/flatware/cucumber/formatter.rb:136 | a scenario's steps are exactly the steps carrying its id |
| `CucumberSummary.GroupByScenarioCorrect` | lib/flatware/cucumber/formatter.rb:135-139 | one scenario per distinct id (nil included) in order of first appearance, each with exactly its steps in arrival order, sizes summing to the number of steps |
| `CucumberSummary.GroupStatus` | lib/flatware/cucumber/formatter.rb:135-139 | a grouped scenario is failed iff some step with its id failed |
| `CucumberSummary.CountIsMultiplicity` | lib/flatware/cucumber/formatter.rb:170-172 | the count of a status is its number of occurrences |
| `CucumberSummary.WithStatusSpec` | lib/flatware/cucumber/formatter.rb:150-152 | `print_steps(status)` passes exactly the steps with that status, as many as the count |
| `CucumberSummary.WithStatusAppend` | lib/flatware/cucumber/formatter.rb:150-152 | selecting by status distributes over concatenation, so the selected steps keep their input order and multiplicity |
| `CucumberSummary.WithStatusSingle` | lib/flatware/cucumber/formatter.rb:150-152 | a single step is selected exactly when it has the status |
| `CucumberSummary.TalliesSpec` | lib/flatware/cucumber/formatter.rb:170-175 | the breakdown holds a status iff its count is non-zero, with that count, in `STATUSES` order |
| `CucumberSummary.TalliesEmpty` | lib/flatware/cucumber/formatter.rb:170-175 | the breakdown is empty iff the collection is |
| `CucumberSummary.ParseRenderTally` | lib/flatware/cucumber/formatter.rb:173 | a `"<count> <status>"` entry reads back as its status and count |
| `CucumberSummary.CountSummaryRoundTrip` | lib/flatware/cucumber/formatter.rb:170-175 | `count_summary` reads back as exactly the non-zero tallies; `""` for an empty input |
| `CucumberSummary.PluralizeRoundTrip` | lib/flatware/cucumber/formatter.rb:162-164 | `pluralize` reads back as its number, singular for 1 and plural for every other number including 0 |
| `CucumberSummary.CountLineRoundTrip` | lib/flatware/cucumber/formatter.rb:154-160 | a count line gives back the collection size and its breakdown |
| `CucumberSummary.EmptyCountLine` | lib/flatware/cucumber/formatter.rb:154-164 | an empty collection still prints its parentheses: `"0 <word>s ()"` |
| `CucumberSummary.ScenarioCount` | lib/flatware/cucumber/formatter.rb:135-139 | there are exactly as many scenarios as distinct ids, `nil` included |
| `CucumberSummary.ReportFailedInArrivalOrder` | lib/flatware/cucumber/formatter.rb:141-152 | later steps add their failures after the ones already listed: the failed steps appear in arrival order |
| `CucumberSummary.ReportReadsBack` | lib/flatware/cucumber/formatter.rb:141-160 | the report is two blank lines, the failed steps (each failed step, as many times as it occurs), the scenario line (counting the grouped scenarios), then the step line (counting every step), each with its breakdown |
| `CucumberSummary.Summary.constructor` | lib/flatware/cucumber/formatter.rb:130-133 | keeps the steps and the io; nothing memoised yet |
| `CucumberSummary.Summary.Scenarios` | lib/flatware/cucumber/formatter.rb:135-139 | returns the grouping and memoises it |
| `CucumberSummary.Summary.Summarize` | lib/flatware/cucumber/formatter.rb:141-146 | appends exactly the report to the io |
| `CucumberSummary.Summary.PrintSteps` | lib/flatware/cucumber/formatter.rb:150-152 | appends the steps with the given status |
| `CucumberSummary.Summary.PrintScenarioCounts` | lib/flatware/cucumber/formatter.rb:154-156 | appends the scenario count line |
| `CucumberSummary.Summary.PrintStepCounts` | lib/flatware/cucumber/formatter.rb:158-160 | appends the step count line |
| `FlatwareSummary.ScenarioStepsSpec` | lib/flatware/summary.rb:27-29 | the scenario steps are exactly the steps with a non-nil scenario id |
| `FlatwareSummary.ScenariosSpec` | lib/flatware/summary.rb:12-16 | one scenario per distinct non-nil id, each with exactly the steps carrying it |
| `FlatwareSummary.CountSummaryShape` | lib/flatware/summary.rb:47-55 | `count_summary` is `""` iff the collection is empty, and otherwise wraps a non-empty breakdown in parentheses |
| `FlatwareSummary.CountLineRoundTrip` | lib/flatware/summary.rb:35-55 | a count line gives back the collection size and its breakdown, an empty one included |
| `FlatwareSummary.EmptyCountLine` | lib/flatware/summary.rb:35-41 | an empty collection prints `"0 <label>s"` with no parentheses |
| `FlatwareSummary.ScenarioCount` | lib/flatware/summary.rb:12-16 | there are exactly as many scenarios as distinct non-nil ids |
| `FlatwareSummary.ReportFailedInArrivalOrder` | lib/flatware/summary.rb:18-23 | later steps add their failures after the ones already listed: the failed steps appear in arrival order |
| `FlatwareSummary.ReportReadsBack` | lib/flatware/summary.rb:18-23 | the report is two blank lines, the failed steps (each failed step, as many times as it occurs), the scenario line counting the grouped scenarios, then the step line counting all steps, each with its breakdown |
| `FlatwareSummary.EmptyReport` | lib/flatware/summary.rb:18-41 | with no steps the report ends `"0 scenarios"`, `"0 steps"` |
| `FlatwareSummary.Summary.constructor` | lib/flatware/summary.rb:7-10 | keeps the steps and the io; nothing memoised yet |
| `FlatwareSummary.Summary.Scenarios` | lib/flatware/summary.rb:12-16 | returns the grouping of the scenario steps and memoises it |
| `FlatwareSummary.Summary.Summarize` | lib/flatware/summary.rb:18-23 | appends exactly the report to the io |
| `FlatwareSummary.Summary.PrintSteps` | lib/flatware/summary.rb:31-33 | appends the steps with the given status |
| `FlatwareSummary.Summary.PrintCounts` | lib/flatware/summary.rb:35-37 | appends the count line of the collection |
| `Sink.RemainingWorkSpec` | lib/flatware/sink.rb:78-80 | the remaining work is exactly the expected features that no completed scenario reported |
| `Sink.DoneIff` | lib/flatware/sink.rb:73-80 | `done?` iff every expected feature is among the completed ids |
| `Sink.DoneMonotone` | lib/flatware/sink.rb:73-80 | once done, more completions keep it done |
| `Sink.IrrelevantCompletion` | lib/flatware/sink.rb:78-80 | a repeated or unexpected completion leaves the remaining work unchanged |
| `Sink.ReceiveAllAccumulates` | lib/flatware/sink.rb:33-42 | steps are appended (with their glyph printed), scenario results are appended to the completed list, anything else is dropped; nothing lost, duplicated or reordered |
| `Sink.Server.constructor` | lib/flatware/sink.rb:65-71 | both accumulators start empty |
| `Sink.Server.Dispatch` | lib/flatware/sink.rb:33-42 | one message updates the state as its kind says and touches nothing else; the log records the message taken, then its glyph for a step |
| `Sink.UndoneBeforeSpec` | lib/flatware/sink.rb:29 | `listen` takes every message of a sequence iff `done?` held after none of its proper prefixes |
| `Sink.StopsAtFirstDoneUnique` | lib/flatware/sink.rb:29-43 | the `until done?` rule determines how many messages are taken and whether the run finishes |
| `Sink.StopsAtOnceWhenDone` | lib/flatware/sink.rb:29 | when the work is already done, no message is taken and the run finishes |
| `Sink.MessageEventsReplay` | lib/flatware/sink.rb:30-42 | taking one message logs that message, and prints its glyph exactly when it is a step result |
| `Sink.TakeEventsReplay` | lib/flatware/sink.rb:29-43 | the log of the loop takes exactly the received messages in order and prints exactly their steps' glyphs, and it publishes nothing |
| `Sink.PrintEventsReplay` | lib/flatware/sink.rb:49-51 | printing the report logs exactly its items and takes nothing |
| `Sink.ClosingLogOrder` | lib/flatware/sink.rb:22-25 | a finished run takes every message and prints the glyphs and then the report before `'seppuku'` is published; the sentinel goes out once and only the close follows it |
| `Sink.Server.TakeWhileUndone` | lib/flatware/sink.rb:29-43 | the loop receives while not done and messages remain: the state is the inbox prefix received, none of its proper prefixes was done, and it stops done or with the inbox empty |
| `Sink.Server.Listen` | lib/flatware/sink.rb:27-45 | takes messages only while not done, stops at the first prefix after which it is done, and then summarizes the steps once; already done means no message is taken; the log is the messages taken, then the report |
| `Sink.Server.Summarize` | lib/flatware/sink.rb:49-51 | appends the `Cucumber::Summary` report of the received steps to stdout and logs each printed item |
| `Sink.Server.Start` | lib/flatware/sink.rb:22-25 | obeys `listen`'s stopping rule; when finished, the log is the messages taken, the report, the `'seppuku'` publication and then the close, so the sentinel goes out exactly once, after the report |
| `Fireable.DeliverSpec` | lib/flatware/fireable.rb:17 | the block gets a batch's messages in order, up to and including the first it raises on; it raises iff some message of the batch raises |
| `Fireable.DeliverRaisesIff` | lib/flatware/fireable.rb:17 | delivering a batch raises iff some message of the batch is one the block raises on |
| `Fireable.FirstSentinel` | lib/flatware/fireable.rb:16 | the first batch that holds `'seppuku'`, none before it |
| `Fireable.UntilFiredStopsAtSentinel` | lib/flatware/fireable.rb:13-18 | without a raise, every message of every batch before the first sentinel batch reaches the block in order, none of that batch does, and the loop ends fired, or exhausted when no sentinel came |
| `Fireable.SentinelNeverHandled` | lib/flatware/fireable.rb:15-17 | the sentinel never reaches the block |
| `Fireable.Fireable.constructor` | lib/flatware/fireable.rb:4-9 | nothing handled, not closed |
| `Fireable.Fireable.Each` | lib/flatware/fireable.rb:17 | hands the messages of a batch to the block in order, stopping at a raise |
| `Fireable.Fireable.UntilFired` | lib/flatware/fireable.rb:13-21 | processes batches as the loop specification says and closes on every exit: sentinel, exhaustion or raise |

## Left out

- Transport: the ZeroMQ sockets, `ZMQ.select`, bind/connect/send/recv, the lazily created client and server sockets and `Sink.push`. Received messages are an input sequence, ready batches a sequence of batches, and the formatter's pushes a field.
- `Marshal.dump`/`Marshal.load`: messages are already-decoded values of a tagged union (step, scenario, anything else).
- Signal handling (`trap('INT', ...)` around the first receive): process signals are concurrency outside this model, so an interrupted run is not modelled.
- `Flatware.log`, including the logging of `remaining_work` inside `done?`: logging has no effect on the state.
- `format_string` is taken as the identity and `print_elements` as writing the selected steps as one output item (terminal colouring and element layout belong to Cucumber's console formatter).
- `Cucumber.features` is the server's constructor argument, `step_mother.steps(status)` the executed steps passed to `BeforeTableRow`, and `table_row.failed?` the `TableRow` datatype (a header row is the one that raises).
- `lib/flatware/cucumber/formatter.rb:55-67` defines `class Result` inside the body of `after_table_row`. Ruby rejects a class definition in a method body as a syntax error, so as written neither formatter.rb nor sink.rb (which requires it) loads. The model treats formatter.rb as if that nested class were removed.
- `after_table_row` is not modelled: it pushes `ExampleRowResult`, which is not defined anywhere, so even without the nested class it would raise a `NameError` on every example row. The commented-out push in `table_cell_value` is not modelled either.
- The `count` helpers in both summaries refer to an undefined `completed_scenarios` and are never called; they are not modelled.
- `Sink::Server#summarize` calls `Cucumber::Summary.new` with three arguments, but the constructor takes one or two, so as written it raises `ArgumentError`. The model feeds the received `steps` to the summary.
- The `Formatter` callbacks ignore their other arguments (`keyword`, `step_match`, `multiline_arg`, `source_indent`, `background`). `AfterStepResult` takes only the status and the exception.
- `Sink.Server.Listen`: when the inbox runs out before `done?` holds, the real server would keep waiting in `recv`. The model returns with `finished` false, without a summary and without the sentinel.
- `Fireable.Fireable.UntilFired`: the block is modelled only by which messages it raises on, and the exception that Ruby re-raises after `Flatware.close` is returned as `Raised(message)`. The subscription to `ipc://die` and the `sockets` argument belong to the transport.
- `summary.rb:14` names `ScenarioResult` without the `Cucumber::` prefix. The model takes it to mean `Flatware::Cucumber::ScenarioResult`. Files that might define a `Flatware::ScenarioResult` are not part of this model.
- features/step_definitions/signal_steps.rb is an integration harness made of process I/O and is not part of this model.
