/**
 * What the summaries and the sink write to their `io`, as the methods of
 * `Cucumber::Formatter::Console` they call produce it.
 */
module Console {
  import opened Results

  /** What the report writes: a line (`io.puts`), a list of steps (`print_elements`), a glyph (`print`). */
  datatype Output =
    | Line(text: string)
    | Elements(items: seq<StepResult>, status: Status, kind: string)
    | Glyph(text: string)
}
