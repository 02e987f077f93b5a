/** config.go: the three-field configuration record, read and written by the names
    of its JSON keys, filled with defaults and overridden from the command line.
    The source walks the struct's fields by reflection; here field `i` of
    `StructConfig` is the `i`-th of `Fields()`, and its tags are `Names[i]`,
    `Helps[i]` and `Defaults[i]`. */
module Config {
  import opened Wrappers
  import opened Strs

  /** The `json` tags, in field order. */
  const Names: seq<string> := ["filter_command", "output", "task_format_query"]

  /** The `help` tags, in field order. */
  const Helps: seq<string> := ["command to run to filter messages", "output format (table, tsv or json)",
                               "A jq query to format task in selector"]

  /** The `default` tags, in field order (only `output` has one). */
  const Defaults: seq<string> := ["", "table", ""]

  /** The position of a configuration name among the fields. */
  function FieldIndex(name: string): (i: nat)
    requires name in Names
    ensures i < |Names| && Names[i] == name
  {
    if name == Names[0] then 0 else if name == Names[1] then 1 else 2
  }

  /** `fillDefault` on field values: every empty field takes its default, every
      other field is kept. */
  function FilledDefaults(fs: seq<string>): (r: seq<string>)
    requires |fs| == |Names|
    ensures |r| == |Names|
    ensures forall i :: 0 <= i < |Names| && fs[i] != "" ==> r[i] == fs[i]
    ensures forall i :: 0 <= i < |Names| && fs[i] == "" ==> r[i] == Defaults[i]
  {
    seq(|Names|, i requires 0 <= i < |Names| => if fs[i] == "" then Defaults[i] else fs[i])
  }

  /** Filling the defaults a second time changes nothing, and afterwards the output
      format is never empty. */
  lemma FillDefaultsIdempotent(fs: seq<string>)
    requires |fs| == |Names|
    ensures FilledDefaults(FilledDefaults(fs)) == FilledDefaults(fs)
    ensures FilledDefaults(fs)[FieldIndex("output")] != ""
  {
    var once := FilledDefaults(fs);
    assert FilledDefaults(once) == once by {
      forall i | 0 <= i < |Names|
        ensures FilledDefaults(once)[i] == once[i]
      {
        if once[i] == "" {
          assert fs[i] == "" && Defaults[i] == "";
        }
      }
    }
  }

  /** An item of `ConfigElements`. */
  datatype ConfigElement = ConfigElement(name: string, description: string, default: string)

  /** `StructConfig`. */
  class StructConfig {
    var filterCommand: string
    var output: string
    var taskFormatQuery: string

    /** The field values in field order. */
    function Fields(): (fs: seq<string>)
      reads this
      ensures |fs| == |Names|
    {
      [filterCommand, output, taskFormatQuery]
    }

    /** `&StructConfig{}`: every field empty. */
    constructor Empty()
      ensures Fields() == ["", "", ""]
    {
      filterCommand := "";
      output := "";
      taskFormatQuery := "";
    }

    /** Reflection's `v.Field(i).SetString(value)`. */
    method SetField(i: nat, value: string)
      requires i < |Names|
      modifies this
      ensures Fields() == old(Fields())[i := value]
    {
      if i == 0 {
        filterCommand := value;
      } else if i == 1 {
        output := value;
      } else {
        taskFormatQuery := value;
      }
    }

    /** `Get`: the value of the field whose name is `name` in lower case. An unknown
        name panics, so the name must be one of `Names`. */
    method Get(name: string) returns (v: string)
      requires ToLower(name) in Names
      ensures v == Fields()[FieldIndex(ToLower(name))]
    {
      var lower := ToLower(name);
      for i := 0 to |Names|
        invariant lower !in Names[..i]
      {
        if Names[i] == lower {
          return Fields()[i];
        }
      }
      assert false;
    }

    /** `Set`: writes the field whose name is `name` in lower case and no other.
        An unknown name panics, so the name must be one of `Names`. */
    method Set(name: string, value: string)
      requires ToLower(name) in Names
      modifies this
      ensures Fields() == old(Fields())[FieldIndex(ToLower(name)) := value]
    {
      var lower := ToLower(name);
      for i := 0 to |Names|
        invariant lower !in Names[..i]
        invariant Fields() == old(Fields())
      {
        if Names[i] == lower {
          SetField(i, value);
          return;
        }
      }
      assert false;
    }

    /** `fillDefault`. */
    method FillDefault()
      modifies this
      ensures Fields() == FilledDefaults(old(Fields()))
    {
      for i := 0 to |Names|
        invariant Fields()[i..] == old(Fields())[i..]
        invariant Fields()[..i] == FilledDefaults(old(Fields()))[..i]
      {
        if Fields()[i] == "" {
          SetField(i, Defaults[i]);
        }
      }
    }

    /** `Names`: the JSON names of the fields, in field order. */
    method FieldNames() returns (names: seq<string>)
      ensures names == ["filter_command", "output", "task_format_query"]
    {
      names := [];
      for i := 0 to |Names|
        invariant names == Names[..i]
      {
        names := names + [Names[i]];
      }
    }

    /** `ConfigElements`: each field's name, description and default, in field order. */
    method ConfigElements() returns (es: seq<ConfigElement>)
      ensures |es| == |Names|
      ensures forall i :: 0 <= i < |Names| ==> es[i] == ConfigElement(Names[i], Helps[i], Defaults[i])
    {
      es := [];
      for i := 0 to |Names|
        invariant |es| == i
        invariant forall j :: 0 <= j < i ==> es[j] == ConfigElement(Names[j], Helps[j], Defaults[j])
      {
        es := es + [ConfigElement(Names[i], Helps[i], Defaults[i])];
      }
    }

    /** `OverrideCLI`: a non-empty `--output` or `--task-format-query` replaces the
        configured one; the filter command is never touched. */
    method OverrideCLI(cliOutput: string, cliTaskFormatQuery: string)
      modifies this
      ensures filterCommand == old(filterCommand)
      ensures output == (if cliOutput != "" then cliOutput else old(output))
      ensures taskFormatQuery == (if cliTaskFormatQuery != "" then cliTaskFormatQuery else old(taskFormatQuery))
    {
      ToLowerOfLower("output");
      ToLowerOfLower("task_format_query");
      assert FieldIndex("output") == 1 && FieldIndex("task_format_query") == 2;
      if cliOutput != "" {
        Set("output", cliOutput);
      }
      assert Fields() == [old(filterCommand), if cliOutput != "" then cliOutput else old(output), old(taskFormatQuery)];
      if cliTaskFormatQuery != "" {
        Set("task_format_query", cliTaskFormatQuery);
      }
      assert Fields() == [old(filterCommand), if cliOutput != "" then cliOutput else old(output),
                          if cliTaskFormatQuery != "" then cliTaskFormatQuery else old(taskFormatQuery)];
    }
  }

  /** `newConfig`: an empty record with its defaults filled in. */
  method NewConfig() returns (c: StructConfig)
    ensures fresh(c)
    ensures c.Fields() == FilledDefaults(["", "", ""]) == ["", "table", ""]
  {
    c := new StructConfig.Empty();
    c.FillDefault();
  }

  /** `loadConfig`. `file` is what `loadConfigFile` read (the three field values
      from the file, or why it could not be opened or decoded); any failure falls
      back to `newConfig`, so loading never fails. */
  method LoadConfig(file: Result<seq<string>>) returns (c: StructConfig)
    requires file.Ok? ==> |file.value| == |Names|
    ensures fresh(c)
    ensures file.Ok? ==> c.Fields() == FilledDefaults(file.value)
    ensures file.Err? ==> c.Fields() == ["", "table", ""]
  {
    if file.Ok? {
      c := new StructConfig.Empty();
      c.SetField(0, file.value[0]);
      c.SetField(1, file.value[1]);
      c.SetField(2, file.value[2]);
      assert c.Fields() == file.value;
      c.FillDefault();
      return;
    }
    c := NewConfig();
  }
}
