/** format.go: choosing a task formatter, the eight task columns and the TSV formatter. */
module Format {
  import opened Wrappers
  import opened Strs
  import opened EcsTypes
  import opened Utils

  /** `taskFormatterColumns`, the header of every formatter. */
  const Columns: seq<string> :=
    ["ID", "TaskDefinition", "Instance", "LastStatus", "DesiredStatus", "CreatedAt", "Group", "Type"]

  /** The three formatters `newTaskFormatter` can build. */
  datatype FormatterKind = Table(hasHeader: bool) | Tsv(hasHeader: bool) | Json

  /** `newTaskFormatter`: "table", "tsv" and "json" are the only known formats. */
  function NewTaskFormatter(t: string, hasHeader: bool): (r: Result<FormatterKind>)
    ensures r.Ok? <==> t == "table" || t == "tsv" || t == "json"
    ensures r.Err? ==> r.msg == "unknown task formatter: " + t
    ensures t == "table" ==> r == Ok(Table(hasHeader))
    ensures t == "tsv" ==> r == Ok(Tsv(hasHeader))
    ensures t == "json" ==> r == Ok(Json)
  {
    match t
    case "table" => Ok(Table(hasHeader))
    case "tsv" => Ok(Tsv(hasHeader))
    case "json" => Ok(Json)
    case _ => Err("unknown task formatter: " + t)
  }

  /** `taskToColumns`: one value per header column, in header order; the three
      ARN columns are shortened to their names. */
  function TaskToColumns(task: Task): (cols: seq<string>)
    ensures |cols| == |Columns|
    ensures cols[0] == ArnToName(task.taskArn) && cols[1] == ArnToName(task.taskDefinitionArn)
    ensures cols[2] == ArnToName(task.containerInstanceArn)
    ensures cols[3] == task.lastStatus && cols[4] == task.desiredStatus
    ensures cols[5] == task.createdAt && cols[6] == task.group && cols[7] == task.launchType
  {
    Row(ArnToName(task.taskArn), ArnToName(task.taskDefinitionArn), ArnToName(task.containerInstanceArn), task)
  }

  /** The eight columns, given the three shortened names. */
  function Row(id: string, definition: string, instance: string, task: Task): (cols: seq<string>)
    ensures |cols| == 8 && cols[0] == id && cols[1] == definition && cols[2] == instance
    ensures cols[3] == task.lastStatus && cols[4] == task.desiredStatus
    ensures cols[5] == task.createdAt && cols[6] == task.group && cols[7] == task.launchType
  {
    [id, definition, instance, task.lastStatus, task.desiredStatus, task.createdAt, task.group, task.launchType]
  }

  /** What `fmt.Fprintln(w, strings.Join(fields, "\t"))` writes. */
  function TsvLine(fields: seq<string>): string {
    Join(fields, "\t") + "\n"
  }

  predicate NoTabOrNewline(fields: seq<string>) {
    forall i :: 0 <= i < |fields| ==> '\t' !in fields[i] && '\n' !in fields[i]
  }

  /** A TSV line is one line: it ends with the only newline it holds, and splitting
      its text at tabs gives the fields back. */
  lemma {:induction false} TsvLineRoundTrip(fields: seq<string>)
    requires |fields| >= 1 && NoTabOrNewline(fields)
    ensures var line := TsvLine(fields);
      line[|line| - 1] == '\n' && '\n' !in line[..|line| - 1]
      && Split(line[..|line| - 1], '\t') == fields
  {
    var line := TsvLine(fields);
    assert line[..|line| - 1] == Join(fields, "\t");
    SplitJoin(fields, '\t');
    JoinHasNo(fields, "\t", '\n');
  }

  /** Joining pieces and a separator that all avoid `c` gives a string without `c`. */
  lemma {:induction false} JoinHasNo(parts: seq<string>, sep: string, c: char)
    requires c !in sep && forall i :: 0 <= i < |parts| ==> c !in parts[i]
    ensures c !in Join(parts, sep)
    decreases |parts|
  {
    if |parts| > 1 {
      JoinHasNo(parts[1..], sep, c);
    }
  }

  /** The line a task gets in TSV output starts with its task ID followed by a tab:
      the first tab field of the line (what the task selector keeps) is the ID. */
  lemma TaskLineStartsWithId(task: Task)
    requires NoTabOrNewline(TaskToColumns(task))
    ensures var line := TsvLine(TaskToColumns(task));
      Split(line[..|line| - 1], '\t')[0] == ArnToName(task.taskArn)
  {
    TsvLineRoundTrip(TaskToColumns(task));
  }

  /** `taskFormatterTSV`: `out` is everything written to its writer. */
  class TaskFormatterTsv {
    var out: string

    /** `newTaskFormatterTSV`: the header line is written at construction, and only
        when asked for. */
    constructor (written: string, header: bool)
      ensures out == written + (if header then TsvLine(Columns) else "")
    {
      out := if header then written + TsvLine(Columns) else written;
    }

    /** `AddTask` writes exactly one line, the task's columns joined by tabs. */
    method AddTask(task: Task)
      modifies this
      ensures out == old(out) + TsvLine(TaskToColumns(task))
    {
      out := out + TsvLine(TaskToColumns(task));
    }

    /** `Close` writes nothing. */
    method Close()
      ensures out == old(out)
    {
    }
  }
}
