/** filter.go: choosing one line out of many, either by the configured external
    command or by the built-in prompt that matches what the user types against the
    first word of each line. The user's answers and the command's output are inputs. */
module Filter {
  import opened Wrappers
  import opened Strs

  /** `ErrAborted`'s text. */
  const ErrAborted := "Aborted"

  /** The items the built-in filter offers: the first whitespace-separated field of
      each line, in order. */
  function Items(lines: seq<string>): (items: seq<string>)
    requires forall i :: 0 <= i < |lines| ==> HasField(lines[i])
    ensures |items| == |lines|
    ensures forall i :: 0 <= i < |lines| ==> items[i] == FirstField(lines[i])
    ensures forall i :: 0 <= i < |items| ==> items[i] != ""
    decreases |lines|
  {
    if lines == [] then []
    else Items(lines[..|lines| - 1]) + [FirstField(lines[|lines| - 1])]
  }

  /** The scan loop of `runInternalFilter`. A blank line makes the source index an
      empty `strings.Fields` result, which panics, so every line must hold a field. */
  method ExtractItems(lines: seq<string>) returns (items: seq<string>)
    requires forall i :: 0 <= i < |lines| ==> HasField(lines[i])
    ensures items == Items(lines)
  {
    items := [];
    for i := 0 to |lines|
      invariant items == Items(lines[..i])
    {
      assert lines[..i + 1][..i] == lines[..i];
      items := items + [FirstField(lines[i])];
    }
    assert lines[..|lines|] == lines;
  }

  /** The items that start with `input`, in order. */
  function PrefixItems(items: seq<string>, input: string): (r: seq<string>)
    ensures |r| <= |items|
    ensures forall x :: x in r <==> x in items && HasPrefix(x, input)
    decreases |items|
  {
    if items == [] then []
    else
      var last := items[|items| - 1];
      var init := items[..|items| - 1];
      assert forall x :: x in items <==> x in init || x == last;
      PrefixItems(init, input) + (if HasPrefix(last, input) then [last] else [])
  }

  /** What the built-in filter finds for an input: an item equal to the input alone,
      even when other items start with it; otherwise every item starting with it. */
  function Matches(items: seq<string>, input: string): (found: seq<string>)
    ensures input in items ==> found == [input]
    ensures input !in items ==> forall x :: x in found <==> x in items && HasPrefix(x, input)
    ensures forall x :: x in found ==> x in items && HasPrefix(x, input)
  {
    if input in items then [input] else PrefixItems(items, input)
  }

  /** The matching loop of `runInternalFilter`: it stops at the first item equal to
      the input, after collecting the items that start with it. */
  method MatchItems(items: seq<string>, input: string) returns (found: seq<string>)
    ensures found == Matches(items, input)
  {
    found := [];
    var i := 0;
    while i < |items|
      invariant 0 <= i <= |items|
      invariant input !in items[..i]
      invariant found == PrefixItems(items[..i], input)
    {
      assert items[..i + 1][..i] == items[..i];
      if items[i] == input {
        found := [items[i]];
        return;
      } else if HasPrefix(items[i], input) {
        found := found + [items[i]];
      }
      i := i + 1;
    }
    assert items[..i] == items;
  }

  /** One answer to the prompt: a typed line, or the context being cancelled. */
  datatype PromptAnswer = Typed(text: string) | Cancelled

  /** How choosing ends: a line (or item) chosen, an error, or still prompting
      because the given answers ran out. */
  datatype FilterEnd = Selected(item: string) | Failed(msg: string) | Waiting

  /** The prompt loop of `runInternalFilter`: an empty answer, or one that finds
      no item or several, prompts again; the first answer that finds exactly one
      item selects it; a cancellation aborts. */
  function PromptLoop(items: seq<string>, answers: seq<PromptAnswer>): (r: FilterEnd)
    ensures r.Failed? ==> r.msg == ErrAborted
    decreases |answers|
  {
    if answers == [] then Waiting
    else
      match answers[0]
      case Cancelled => Failed(ErrAborted)
      case Typed(s) =>
        if s != "" && |Matches(items, s)| == 1 then Selected(Matches(items, s)[0])
        else PromptLoop(items, answers[1..])
  }

  /** An answer that ends the prompting by finding exactly one item. */
  predicate Decisive(items: seq<string>, a: PromptAnswer) {
    a.Typed? && a.text != "" && |Matches(items, a.text)| == 1
  }

  /** Answers that each prompt again: typed, and none of them decisive. */
  predicate Undecided(items: seq<string>, answers: seq<PromptAnswer>) {
    forall j :: 0 <= j < |answers| ==> answers[j].Typed? && !Decisive(items, answers[j])
  }

  /** An answer that prompts again, in front of answers that each prompt again. */
  lemma UndecidedStep(items: seq<string>, answers: seq<PromptAnswer>, k: nat)
    requires 0 <= k < |answers| && answers[0].Typed? && !Decisive(items, answers[0])
    requires Undecided(items, answers[1..][..k])
    ensures Undecided(items, answers[..k + 1])
  {
    assert answers[..k + 1] == [answers[0]] + answers[1..][..k];
  }

  /** The built-in filter selects the item of the first decisive answer, when no
      cancellation comes before it. */
  lemma {:induction false} PromptLoopChoice(items: seq<string>, answers: seq<PromptAnswer>)
    ensures var r := PromptLoop(items, answers);
      r.Selected? ==>
        r.item in items
        && exists k :: 0 <= k < |answers| && Decisive(items, answers[k])
                       && Matches(items, answers[k].text) == [r.item] && Undecided(items, answers[..k])
    decreases |answers|
  {
    if answers != [] && answers[0].Typed? {
      var s := answers[0].text;
      if s != "" && |Matches(items, s)| == 1 {
        var found := Matches(items, s);
        assert found == [found[0]] && found[0] in found;
        assert Undecided(items, answers[..0]);
      } else {
        var rest := answers[1..];
        PromptLoopChoice(items, rest);
        var r := PromptLoop(items, rest);
        if r.Selected? {
          var k :| 0 <= k < |rest| && Decisive(items, rest[k])
                   && Matches(items, rest[k].text) == [r.item] && Undecided(items, rest[..k]);
          UndecidedStep(items, answers, k);
          assert answers[k + 1] == rest[k];
        }
      }
    }
  }

  /** The built-in filter fails only on a cancellation that comes before any decisive
      answer. */
  lemma {:induction false} PromptLoopAborts(items: seq<string>, answers: seq<PromptAnswer>)
    ensures PromptLoop(items, answers).Failed? ==>
      exists k :: 0 <= k < |answers| && answers[k] == Cancelled && Undecided(items, answers[..k])
    decreases |answers|
  {
    if answers != [] {
      if answers[0] == Cancelled {
        assert Undecided(items, answers[..0]);
      } else if !Decisive(items, answers[0]) {
        var rest := answers[1..];
        PromptLoopAborts(items, rest);
        if PromptLoop(items, rest).Failed? {
          var k :| 0 <= k < |rest| && rest[k] == Cancelled && Undecided(items, rest[..k]);
          UndecidedStep(items, answers, k);
          assert answers[k + 1] == rest[k];
        }
      }
    }
  }

  /** The built-in filter is still prompting only when every answer prompted again. */
  lemma {:induction false} PromptLoopWaits(items: seq<string>, answers: seq<PromptAnswer>)
    ensures PromptLoop(items, answers) == Waiting ==> Undecided(items, answers)
    decreases |answers|
  {
    if answers != [] && answers[0].Typed? && !Decisive(items, answers[0]) {
      PromptLoopWaits(items, answers[1..]);
      if PromptLoop(items, answers[1..]) == Waiting {
        UndecidedStep(items, answers, |answers| - 1);
        assert answers[1..][..|answers| - 1] == answers[1..];
        assert answers[..|answers|] == answers;
      }
    }
  }

  /** `runInternalFilter`: offers the lines' first fields and prompts until one is
      chosen or the context is cancelled. */
  method RunInternalFilter(lines: seq<string>, answers: seq<PromptAnswer>) returns (r: FilterEnd)
    requires forall i :: 0 <= i < |lines| ==> HasField(lines[i])
    ensures r == PromptLoop(Items(lines), answers)
  {
    var items := ExtractItems(lines);
    var i := 0;
    while i < |answers|
      invariant 0 <= i <= |answers|
      invariant PromptLoop(items, answers) == PromptLoop(items, answers[i..])
    {
      var rest := answers[i..];
      assert rest[0] == answers[i] && rest[1..] == answers[i + 1..];
      match answers[i] {
        case Cancelled =>
          assert PromptLoop(items, rest) == Failed(ErrAborted);
          return Failed(ErrAborted);
        case Typed(s) =>
          if s != "" {
            var found := MatchItems(items, s);
            if |found| == 1 {
              assert PromptLoop(items, rest) == Selected(found[0]);
              return Selected(found[0]);
            }
          }
          assert PromptLoop(items, rest) == PromptLoop(items, answers[i + 1..]);
      }
      i := i + 1;
    }
    assert answers[i..] == [];
    return Waiting;
  }

  /** How `runFilter` runs the configured command: the built-in filter when there
      is none, through `sh -c` when it contains a space, otherwise directly. */
  datatype Runner = Internal | Command(argv: seq<string>)

  function FilterRunner(command: string): (r: Runner)
    ensures r == Internal <==> command == ""
    ensures command != "" && Contains(command, " ") ==> r == Command(["sh", "-c", command])
    ensures command != "" && !Contains(command, " ") ==> r == Command([command])
    ensures r.Command? ==> r.argv[|r.argv| - 1] == command
  {
    if command == "" then Internal
    else if Contains(command, " ") then Command(["sh", "-c", command])
    else Command([command])
  }

  /** `runFilter`. `output` is what the external command printed, or why it failed;
      its trailing carriage returns and newlines are dropped. */
  method RunFilter(filterCommand: string, lines: seq<string>, answers: seq<PromptAnswer>,
                   output: Result<string>) returns (r: FilterEnd, runner: Runner)
    requires filterCommand == "" ==> forall i :: 0 <= i < |lines| ==> HasField(lines[i])
    ensures runner == FilterRunner(filterCommand)
    ensures filterCommand == "" ==> r == PromptLoop(Items(lines), answers)
    ensures filterCommand != "" && output.Err? ==> r == Failed("failed to execute filter command: " + output.msg)
    ensures filterCommand != "" && output.Ok? ==>
      r.Selected? && HasPrefix(output.value, r.item)
      && (r.item == "" || (r.item[|r.item| - 1] != '\r' && r.item[|r.item| - 1] != '\n'))
      && forall i :: |r.item| <= i < |output.value| ==> output.value[i] == '\r' || output.value[i] == '\n'
  {
    runner := FilterRunner(filterCommand);
    if filterCommand == "" {
      r := RunInternalFilter(lines, answers);
      return;
    }
    if output.Err? {
      return Failed("failed to execute filter command: " + output.msg), runner;
    }
    return Selected(TrimRightCRLF(output.value)), runner;
  }
}
