/** utils.go: optional strings, ARN names and the Session Manager target of a container. */
module Utils {
  import opened Wrappers
  import opened Strs
  import opened EcsTypes

  /** `optional`: the empty string is "not set" (nil); anything else is set to itself. */
  function Optional(s: string): (r: Option<string>)
    ensures r.None? <==> s == ""
    ensures r.Some? ==> r.value == s
  {
    if s == "" then None else Some(s)
  }

  /** `arnToName`: the text after the last `/` (the whole string when there is none). */
  function ArnToName(s: string): (r: string)
    ensures '/' !in r
    ensures HasSuffix(s, r) && (|r| == |s| || s[|s| - |r| - 1] == '/')
    ensures '/' !in s ==> r == s
  {
    SplitLast(s, '/');
    var ns := Split(s, '/');
    ns[|ns| - 1]
  }

  /** The name is the last piece of a `/`-separated path: putting any prefix
      and a slash in front of a name does not change it. */
  lemma {:induction false} ArnToNameOfPath(prefix: string, name: string)
    requires '/' !in name
    ensures ArnToName(prefix + "/" + name) == name
  {
    var s := prefix + "/" + name;
    var r := ArnToName(s);
    assert s[|prefix|] == '/';
    assert r == s[|s| - |r|..] == name;
  }

  /** `ssmRequestParameters`: the Session Manager target of an ECS container. */
  datatype SsmRequestParameters = SsmRequestParameters(target: string)

  /** Runtime ID of the last container called `name`, or "" when none is. */
  function RuntimeIdOf(cs: seq<Container>, name: string): string
    decreases |cs|
  {
    if cs == [] then ""
    else if cs[|cs| - 1].name == name then cs[|cs| - 1].runtimeId
    else RuntimeIdOf(cs[..|cs| - 1], name)
  }

  /** Container `i` is the last one called `name`. */
  predicate IsLastMatch(cs: seq<Container>, name: string, i: int) {
    0 <= i < |cs| && cs[i].name == name && forall j :: i < j < |cs| ==> cs[j].name != name
  }

  /** `RuntimeIdOf` picks the last matching container, and "" only when nothing
      matches or the last match has an empty runtime ID. */
  lemma {:induction false} RuntimeIdOfLastMatch(cs: seq<Container>, name: string)
    ensures (forall i :: 0 <= i < |cs| ==> cs[i].name != name) ==> RuntimeIdOf(cs, name) == ""
    ensures forall i :: IsLastMatch(cs, name, i) ==> RuntimeIdOf(cs, name) == cs[i].runtimeId
    decreases |cs|
  {
    if cs != [] {
      RuntimeIdOfLastMatch(cs[..|cs| - 1], name);
      forall i | IsLastMatch(cs, name, i)
        ensures RuntimeIdOf(cs, name) == cs[i].runtimeId
      {
        if i < |cs| - 1 {
          assert cs[..|cs| - 1][i] == cs[i];
        }
      }
    }
  }

  /** The ARN of a task has at least three `/`-separated pieces
      ("arn:...:task", cluster, task ID); the source indexes pieces 1 and 2. */
  predicate HasClusterAndTaskId(taskArn: string) {
    |Split(taskArn, '/')| >= 3
  }

  /** `buildSsmRequestParameters`: target "ecs:<cluster>_<task ID>_<runtime ID>",
      the runtime ID being that of the last container named `targetContainer`.
      The error it returns is always nil. */
  method BuildSsmRequestParameters(task: Task, targetContainer: string)
    returns (p: SsmRequestParameters, err: Option<string>)
    requires HasClusterAndTaskId(task.taskArn)
    ensures err == None
    ensures var values := Split(task.taskArn, '/');
      p.target == "ecs:" + values[1] + "_" + values[2] + "_" + RuntimeIdOf(task.containers, targetContainer)
  {
    var values := Split(task.taskArn, '/');
    var clusterName := values[1];
    var taskID := values[2];
    var runtimeID := "";
    for i := 0 to |task.containers|
      invariant runtimeID == RuntimeIdOf(task.containers[..i], targetContainer)
    {
      var c := task.containers[i];
      assert task.containers[..i + 1][..i] == task.containers[..i];
      if c.name == targetContainer {
        runtimeID := c.runtimeId;
      }
    }
    assert task.containers[..|task.containers|] == task.containers;
    p := SsmRequestParameters("ecs:" + clusterName + "_" + taskID + "_" + runtimeID);
    err := None;
  }
}
