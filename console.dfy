/** console.go: the interactive console's state, its prompt, which commands it lets
    through, and choosing a cluster or a task. The readline loop, the command-line
    parser and the commands themselves are outside; what they answer is an input. */
module Console {
  import opened Wrappers
  import opened Strs
  import opened EcsTypes
  import opened Utils
  import opened Ecsta

  /** `ConsoleState`. A cache is `None` when it is nil (not filled yet); `buffer` is
      what the commands have written since it was last reset. */
  class ConsoleState {
    var cluster: string
    var taskId: string
    var clustersCache: Option<seq<string>>
    var tasksCache: Option<seq<string>>
    var buffer: string

    /** `RunConsole` starts with the application's cluster and an empty buffer. */
    constructor (cluster: string)
      ensures this.cluster == cluster && taskId == ""
      ensures clustersCache == None && tasksCache == None && buffer == ""
    {
      this.cluster := cluster;
      taskId := "";
      clustersCache := None;
      tasksCache := None;
      buffer := "";
    }

    /** `Prompt`: the selected task and cluster, the cluster alone, or nothing,
        always followed by "> ". */
    function Prompt(): (p: string)
      reads this
      ensures HasSuffix(p, "> ")
      ensures taskId != "" ==> HasPrefix(p, taskId + "@") && p[|taskId| + 1..] == cluster + "> "
      ensures taskId == "" ==> p[..|p| - 2] == cluster
      ensures cluster == "" && taskId == "" ==> p == "> "
    {
      var prompt := if taskId != "" then taskId + "@" + cluster
                    else if cluster != "" then cluster
                    else "";
      prompt + "> "
    }

    /** `Reset`: forgets the selection and both caches; the buffer is kept. */
    method Reset()
      modifies this`cluster, this`taskId, this`clustersCache, this`tasksCache
      ensures cluster == "" && taskId == "" && clustersCache == None && tasksCache == None
      ensures Prompt() == "> "
    {
      cluster := "";
      taskId := "";
      clustersCache := None;
      tasksCache := None;
    }

    /** `DispatchConsole`'s own work, before it runs a command: the routing decision
        `RouteOf(command, cluster, taskId)`; the buffer is emptied once the cluster
        check has passed, and a command on the selected task gets the task's ID in
        its option (`opts`). */
    method DispatchConsole(command: string, opts: TaskOptions) returns (r: Route)
      modifies this`buffer, opts`ids
      ensures r == RouteOf(command, cluster, taskId)
      ensures buffer == (if PassesClusterCheck(command, cluster) then "" else old(buffer))
      ensures opts.ids == (if r.OnTask? then old(opts.ids)[command := taskId] else old(opts.ids))
    {
      if command == "save" {
        return Save;
      }
      if command == "exit" || command == "quit" {
        return Exit;
      }
      if command == "help" {
        return Refused("use --help");
      }
      if command == "cluster" {
        return ChooseCluster;
      }
      if cluster == "" {
        return Refused(NoClusterMessage);
      }
      buffer := "";
      if command == "list" {
        return List;
      }
      if command == "task" {
        return ChooseTask;
      }
      if taskId == "" {
        return Refused(NoTaskMessage);
      }
      if command in TaskCommands {
        opts.ids := opts.ids[command := taskId];
        return OnTask(command, taskId);
      }
      return Refused("unknown command: " + command);
    }
  }

  /** The `ID` fields of the `Console` sub-command options, keyed by command name. */
  class TaskOptions {
    var ids: map<string, string>

    constructor ()
      ensures ids == map[]
    {
      ids := map[];
    }
  }

  /** What `DispatchConsole` does with a command: run `RunConsoleSave`, end the
      console (`io.EOF`), run the cluster or task selection, list tasks, run a
      command on the selected task, or refuse with an error. */
  datatype Route =
    | Save
    | Exit
    | ChooseCluster
    | List
    | ChooseTask
    | OnTask(command: string, id: string)
    | Refused(msg: string)

  const NoClusterMessage := "no cluster is selected. use `cluster` command"
  const NoTaskMessage := "no task is selected. use `task` command"

  /** The commands that act on the selected task. */
  const TaskCommands: set<string> := {"describe", "exec", "logs", "portforward", "stop", "trace"}

  /** The commands that work without a selected cluster. */
  predicate NeedsNoCluster(command: string) {
    command == "save" || command == "exit" || command == "quit" || command == "help" || command == "cluster"
  }

  /** `DispatchConsole` gets past `if s.Cluster == ""` (and so resets the buffer). */
  predicate PassesClusterCheck(command: string, cluster: string) {
    !NeedsNoCluster(command) && cluster != ""
  }

  /** The routing decision of `DispatchConsole`. "save" goes first, whatever is
      selected; the other commands except the console's own need a cluster; a
      command on a task needs a task and is given the selected one. */
  function RouteOf(command: string, cluster: string, taskId: string): (r: Route)
    ensures command == "save" ==> r == Save
    ensures r == Exit <==> command == "exit" || command == "quit"
    ensures r == ChooseCluster <==> command == "cluster"
    ensures !NeedsNoCluster(command) && cluster == "" ==> r == Refused(NoClusterMessage)
    ensures r == List <==> command == "list" && cluster != ""
    ensures r == ChooseTask <==> command == "task" && cluster != ""
    ensures r.OnTask? <==> command in TaskCommands && cluster != "" && taskId != ""
    ensures r.OnTask? ==> r.command == command && r.id == taskId
    ensures command == "help" ==> r == Refused("use --help")
    ensures !NeedsNoCluster(command) && command != "list" && command != "task" && cluster != "" && taskId == "" ==>
              r == Refused(NoTaskMessage)
    ensures !NeedsNoCluster(command) && command !in TaskCommands && command != "list" && command != "task"
              && cluster != "" && taskId != "" ==>
              r == Refused("unknown command: " + command)
  {
    if command == "save" then Save
    else if command == "exit" || command == "quit" then Exit
    else if command == "help" then Refused("use --help")
    else if command == "cluster" then ChooseCluster
    else if cluster == "" then Refused(NoClusterMessage)
    else if command == "list" then List
    else if command == "task" then ChooseTask
    else if taskId == "" then Refused(NoTaskMessage)
    else if command in TaskCommands then OnTask(command, taskId)
    else Refused("unknown command: " + command)
  }

  /** `RunSelectCluster`. With no name, the application's cluster is cleared and
      chosen interactively (`selected` is what the chooser returned); a failed
      choice is not an error. With a name, `resolved` is what `getCluster`
      returned for it. A successful choice resets the console and selects the
      cluster in both the console and the application. */
  method RunSelectCluster(app: App, s: ConsoleState, clusterName: string, selected: Result<string>,
                          resolved: Result<string>) returns (r: Outcome)
    modifies app`cluster, s`cluster, s`taskId, s`clustersCache, s`tasksCache
    ensures clusterName == "" ==> r == Pass
    ensures clusterName == "" && (selected.Err? || selected == Ok("")) ==>
      app.cluster == "" && s.cluster == old(s.cluster) && s.taskId == old(s.taskId)
      && s.clustersCache == old(s.clustersCache) && s.tasksCache == old(s.tasksCache)
    ensures clusterName == "" && selected.Ok? && selected.value != "" ==>
      app.cluster == s.cluster == selected.value
      && s.taskId == "" && s.clustersCache == None && s.tasksCache == None
    ensures clusterName != "" && resolved.Err? ==>
      r == Fail(resolved.msg) && app.cluster == old(app.cluster) && s.cluster == old(s.cluster)
      && s.taskId == old(s.taskId) && s.clustersCache == old(s.clustersCache) && s.tasksCache == old(s.tasksCache)
    ensures clusterName != "" && resolved.Ok? ==>
      r == Pass && app.cluster == s.cluster == resolved.value
      && s.taskId == "" && s.clustersCache == None && s.tasksCache == None
  {
    if clusterName == "" {
      app.cluster := "";
      var chosen := app.SetCluster(selected);
      if chosen.Fail? {
        return Pass;
      }
      s.Reset();
      s.cluster := app.cluster;
      return Pass;
    } else {
      if resolved.Err? {
        return Fail(resolved.msg);
      }
      s.Reset();
      s.cluster := resolved.value;
      app.cluster := s.cluster;
      return Pass;
    }
  }

  /** The IDs of the tasks whose ID starts with `prefix`, in order. */
  function IdsWithPrefix(ts: seq<Task>, prefix: string): (ids: seq<string>)
    ensures |ids| <= |ts|
    ensures forall id :: id in ids ==> HasPrefix(id, prefix)
    ensures forall i :: 0 <= i < |ts| && HasPrefix(ArnToName(ts[i].taskArn), prefix) ==>
              ArnToName(ts[i].taskArn) in ids
    decreases |ts|
  {
    if ts == [] then []
    else
      var id := ArnToName(ts[|ts| - 1].taskArn);
      var init := ts[..|ts| - 1];
      var r := IdsWithPrefix(init, prefix) + (if HasPrefix(id, prefix) then [id] else []);
      assert forall i :: 0 <= i < |init| ==> init[i] == ts[i];
      r
  }

  /** Every ID collected is the ID of a listed task. */
  lemma {:induction false} IdsComeFromTasks(ts: seq<Task>, prefix: string)
    ensures forall id :: id in IdsWithPrefix(ts, prefix) ==> exists i :: 0 <= i < |ts| && id == ArnToName(ts[i].taskArn)
    decreases |ts|
  {
    if ts != [] {
      var init := ts[..|ts| - 1];
      IdsComeFromTasks(init, prefix);
      forall id | id in IdsWithPrefix(ts, prefix)
        ensures exists i :: 0 <= i < |ts| && id == ArnToName(ts[i].taskArn)
      {
        if id in IdsWithPrefix(init, prefix) {
          var i :| 0 <= i < |init| && id == ArnToName(init[i].taskArn);
          assert ts[i] == init[i];
        } else {
          assert id == ArnToName(ts[|ts| - 1].taskArn);
        }
      }
    }
  }

  /** One more task adds its ID when it starts with the prefix. */
  lemma IdsStep(ts: seq<Task>, prefix: string, i: nat)
    requires i < |ts|
    ensures var id := ArnToName(ts[i].taskArn);
      IdsWithPrefix(ts[..i + 1], prefix) == IdsWithPrefix(ts[..i], prefix) + (if HasPrefix(id, prefix) then [id] else [])
  {
    assert ts[..i + 1][..i] == ts[..i];
  }

  /** The loop of `RunSelectTask` that collects `foundTaskIDs`. */
  method MatchTaskIds(ts: seq<Task>, prefix: string) returns (found: seq<string>)
    ensures found == IdsWithPrefix(ts, prefix)
  {
    found := [];
    for i := 0 to |ts|
      invariant found == IdsWithPrefix(ts[..i], prefix)
    {
      IdsStep(ts, prefix, i);
      var id := ArnToName(ts[i].taskArn);
      if HasPrefix(id, prefix) {
        found := found + [id];
      }
    }
    assert ts[..|ts|] == ts;
  }

  /** The outcome of selecting by `prefix`: the one ID that starts with it, which
      every listed task with that prefix then has, or the error for none or
      several. */
  function PrefixChoice(ts: seq<Task>, prefix: string): (r: Result<string>)
    ensures r.Ok? <==> |IdsWithPrefix(ts, prefix)| == 1
    ensures r.Ok? ==> HasPrefix(r.value, prefix) && exists i :: 0 <= i < |ts| && r.value == ArnToName(ts[i].taskArn)
    ensures r.Ok? ==> forall i :: 0 <= i < |ts| && HasPrefix(ArnToName(ts[i].taskArn), prefix) ==>
                        ArnToName(ts[i].taskArn) == r.value
    ensures |IdsWithPrefix(ts, prefix)| == 0 ==> r == Err("taskID " + prefix + " not found")
    ensures |IdsWithPrefix(ts, prefix)| > 1 ==> r == Err("[error] taskID " + prefix + " is ambiguous")
  {
    var ids := IdsWithPrefix(ts, prefix);
    if |ids| == 0 then Err("taskID " + prefix + " not found")
    else if |ids| == 1 then
      assert ids[0] in ids;
      IdsComeFromTasks(ts, prefix);
      OnlyIdWithPrefix(ts, prefix);
      Ok(ids[0])
    else Err("[error] taskID " + prefix + " is ambiguous")
  }

  /** When one ID starts with `prefix`, every listed task with that prefix has it. */
  lemma OnlyIdWithPrefix(ts: seq<Task>, prefix: string)
    requires |IdsWithPrefix(ts, prefix)| == 1
    ensures forall i :: 0 <= i < |ts| && HasPrefix(ArnToName(ts[i].taskArn), prefix) ==>
              ArnToName(ts[i].taskArn) == IdsWithPrefix(ts, prefix)[0]
  {
    var ids := IdsWithPrefix(ts, prefix);
    assert ids == [ids[0]];
    forall i | 0 <= i < |ts| && HasPrefix(ArnToName(ts[i].taskArn), prefix)
      ensures ArnToName(ts[i].taskArn) == ids[0]
    {
      assert ArnToName(ts[i].taskArn) in ids;
    }
  }

  /** What `RunSelectTask` is told: the result of `findTask` with no options (used
      with no ID), of `describeTasks` for the ID (used with an ID of 32 to 36
      bytes, the length of a task ID), and of `listTasks` (used for a prefix). */
  datatype SelectTaskAnswers = SelectTaskAnswers(
    found: Result<Task>,
    described: Result<seq<Task>>,
    listed: Result<seq<Task>>)

  /** `RunSelectTask`: selects a task by the filter, by its full ID, or by a prefix
      that exactly one task's ID starts with (so every listed task with that prefix
      is the selected one). On any error the selection is kept. */
  method RunSelectTask(s: ConsoleState, id: string, a: SelectTaskAnswers) returns (r: Outcome)
    modifies s`taskId
    ensures r.Fail? ==> s.taskId == old(s.taskId)
    ensures id == "" ==>
      (r == Pass <==> a.found.Ok?)
      && (a.found.Ok? ==> s.taskId == ArnToName(a.found.value.taskArn))
      && (a.found.Err? ==> r == Fail(a.found.msg))
    ensures id != "" && 32 <= Utf8Len(id) <= 36 ==>
      (r == Pass <==> a.described.Ok? && |a.described.value| == 1)
      && (r == Pass ==> s.taskId == ArnToName(a.described.value[0].taskArn))
      && (a.described.Err? ==> r == Fail(a.described.msg))
      && (a.described.Ok? && |a.described.value| != 1 ==> r == Fail("taskID " + id + " not found"))
    ensures id != "" && !(32 <= Utf8Len(id) <= 36) ==>
      (a.listed.Err? ==> r == Fail(a.listed.msg))
      && (a.listed.Ok? ==>
            var c := PrefixChoice(a.listed.value, id);
            (c.Ok? ==> r == Pass && s.taskId == c.value)
            && (c.Err? ==> r == Fail(c.msg)))
  {
    if id == "" {
      if a.found.Err? {
        return Fail(a.found.msg);
      }
      s.taskId := ArnToName(a.found.value.taskArn);
      return Pass;
    } else if 32 <= Utf8Len(id) <= 36 {
      if a.described.Err? {
        return Fail(a.described.msg);
      } else if |a.described.value| == 1 {
        s.taskId := ArnToName(a.described.value[0].taskArn);
        return Pass;
      } else {
        return Fail("taskID " + id + " not found");
      }
    } else {
      if a.listed.Err? {
        return Fail(a.listed.msg);
      }
      var found := MatchTaskIds(a.listed.value, id);
      if |found| == 0 {
        return Fail("taskID " + id + " not found");
      } else if |found| == 1 {
        s.taskId := found[0];
        return Pass;
      } else {
        return Fail("[error] taskID " + id + " is ambiguous");
      }
    }
  }
}
