/** ecsta.go: the selected cluster, listing tasks page by page with the tag filter and
    de-duplication, and choosing one task or one container. The AWS answers and the
    filter's choice are inputs. */
module Ecsta {
  import opened Wrappers
  import opened Strs
  import opened EcsTypes
  import opened Utils
  import opened Format

  /** The part of `Ecsta` this module updates: the cluster every request names. */
  class App {
    var cluster: string

    constructor (cluster: string)
      ensures this.cluster == cluster
    {
      this.cluster := cluster;
    }

    /** `SetCluster`: nothing happens when a cluster is already set; otherwise the
        interactive choice (`selected`, what `selectCluster` returned) becomes the
        cluster, and an error or an empty choice leaves it unset. */
    method SetCluster(selected: Result<string>) returns (r: Outcome)
      modifies this`cluster
      ensures old(cluster) != "" ==> r == Pass && cluster == old(cluster)
      ensures old(cluster) == "" && selected.Err? ==> r == Fail(selected.msg) && cluster == ""
      ensures old(cluster) == "" && selected == Ok("") ==> r == Fail("cluster not selected") && cluster == ""
      ensures old(cluster) == "" && selected.Ok? && selected.value != "" ==> r == Pass && cluster == selected.value
      ensures r == Pass <==> cluster != ""
    {
      if cluster == "" {
        if selected.Err? {
          return Fail(selected.msg);
        }
        if selected.value == "" {
          return Fail("cluster not selected");
        }
        cluster := selected.value;
      }
      return Pass;
    }
  }

  /** `types.DesiredStatus` values a listing asks for. */
  datatype DesiredStatus = Running | Stopped

  /** The fields of `ecs.ListTasksInput` the program sets besides the cluster. */
  datatype ListRequest = ListRequest(
    family: Option<string>,
    service: Option<string>,
    status: Option<DesiredStatus>,
    nextToken: Option<string>)

  /** One `ListTasks` answer: a page of task ARNs and the token of the next page. */
  datatype Page = Page(taskArns: seq<string>, nextToken: Option<string>)

  /** How one pass of the page iterator ended: after the page without a token, on a
      `ListTasks` error, on a `DescribeTasks` error (the loop body returns, so the
      iterator's `yield` answers false), or because the given answers ran out. */
  datatype PassEnd = LastPage | ListFailed(msg: string) | DescribeFailed(msg: string) | Unanswered

  /** One pass: the `ListTasks` requests sent, the `DescribeTasks` requests sent
      (their task ARNs), the tasks appended, how it ended, the request struct as the
      iterator left it, and the answers not consumed. */
  datatype PassResult = PassResult(
    sent: seq<ListRequest>,
    described: seq<seq<string>>,
    tasks: seq<Task>,
    end: PassEnd,
    input: ListRequest,
    list: seq<Result<Page>>,
    describe: seq<Result<seq<Task>>>)

  /** The pass `p` continued after one more request and its results. */
  function Prepend(req: ListRequest, d: seq<seq<string>>, ts: seq<Task>, p: PassResult): PassResult {
    p.(sent := [req] + p.sent, described := d + p.described, tasks := ts + p.tasks)
  }

  /** Request `k + 1` carries the token of answer `k` and is otherwise request `k`. */
  predicate TokenCarried(list: seq<Result<Page>>, sent: seq<ListRequest>, k: nat) {
    k + 1 < |sent| && k < |list| && list[k].Ok? && list[k].value.nextToken.Some?
    && sent[k + 1] == sent[k].(nextToken := list[k].value.nextToken)
  }

  /** `ecsNewListTasksIterator(in)` consumed by the loop body of `listTasks`:
      `list` answers the successive `ListTasks` calls and `describe` the successive
      `DescribeTasks` calls. An empty page is skipped without describing it. */
  function RunPass(input: ListRequest, list: seq<Result<Page>>, describe: seq<Result<seq<Task>>>): (p: PassResult)
    ensures |p.sent| <= |list| && p.list == list[|p.sent|..]
    ensures |p.described| <= |describe| && p.describe == describe[|p.described|..]
    decreases |list|
  {
    if list == [] then PassResult([], [], [], Unanswered, input, list, describe)
    else match list[0]
      case Err(m) => PassResult([input], [], [], ListFailed(m), input, list[1..], describe)
      case Ok(page) =>
        var nonEmpty := |page.taskArns| > 0;
        if nonEmpty && describe == [] then
          PassResult([input], [], [], Unanswered, input, list[1..], describe)
        else if nonEmpty && describe[0].Err? then
          PassResult([input], [page.taskArns], [], DescribeFailed(describe[0].msg), input, list[1..], describe[1..])
        else
          var d := if nonEmpty then [page.taskArns] else [];
          var ts := if nonEmpty then describe[0].value else [];
          var rest := if nonEmpty then describe[1..] else describe;
          if page.nextToken.None? then
            PassResult([input], d, ts, LastPage, input, list[1..], rest)
          else
            var p := RunPass(input.(nextToken := page.nextToken), list[1..], rest);
            assert list[1..][|p.sent|..] == list[|p.sent| + 1..];
            assert rest[|p.described|..] == describe[|d + p.described|..];
            Prepend(input, d, ts, p)
  }

  /** The iterator starts with the request it was given and never describes an
      empty page. */
  lemma {:induction false} RunPassStarts(input: ListRequest, list: seq<Result<Page>>, describe: seq<Result<seq<Task>>>)
    ensures var p := RunPass(input, list, describe);
      (list != [] <==> p.sent != []) && (p.sent != [] ==> p.sent[0] == input)
      && forall k :: 0 <= k < |p.described| ==> p.described[k] != []
    decreases |list|
  {
    if list != [] && list[0].Ok? {
      var page := list[0].value;
      var nonEmpty := |page.taskArns| > 0;
      if !(nonEmpty && describe == []) && !(nonEmpty && describe[0].Err?) && page.nextToken.Some? {
        var d := if nonEmpty then [page.taskArns] else [];
        var rest := if nonEmpty then describe[1..] else describe;
        RunPassStarts(input.(nextToken := page.nextToken), list[1..], rest);
        var q := RunPass(input.(nextToken := page.nextToken), list[1..], rest);
        assert RunPass(input, list, describe).described == d + q.described;
      }
    }
  }

  /** Each request after the first is the previous one with the token of the previous
      answer: the iterator goes on only after a page that has a token, and carries it. */
  lemma {:induction false} RunPassCarriesToken(input: ListRequest, list: seq<Result<Page>>, describe: seq<Result<seq<Task>>>)
    ensures var p := RunPass(input, list, describe);
      forall k :: 0 <= k < |p.sent| - 1 ==> TokenCarried(list, p.sent, k)
    decreases |list|
  {
    if list != [] && list[0].Ok? {
      var page := list[0].value;
      var nonEmpty := |page.taskArns| > 0;
      if !(nonEmpty && describe == []) && !(nonEmpty && describe[0].Err?) && page.nextToken.Some? {
        var rest := if nonEmpty then describe[1..] else describe;
        var next := input.(nextToken := page.nextToken);
        var q := RunPass(next, list[1..], rest);
        RunPassCarriesToken(next, list[1..], rest);
        RunPassStarts(next, list[1..], rest);
        var p := RunPass(input, list, describe);
        assert p.sent == [input] + q.sent;
        forall k | 0 <= k < |p.sent| - 1 ensures TokenCarried(list, p.sent, k) {
          if k > 0 {
            assert TokenCarried(list[1..], q.sent, k - 1);
          }
        }
      }
    }
  }

  /** How pass `p` over the ListTasks answers `list` ended: the struct it leaves behind
      is its last request, and a pass that ended on a page without a token or on a
      ListTasks error ended on the answer to that last request. */
  predicate EndsOnLastAnswer(list: seq<Result<Page>>, p: PassResult) {
    (p.end != Unanswered ==> p.sent != [] && p.input == p.sent[|p.sent| - 1])
    && (p.end == LastPage ==>
          0 < |p.sent| <= |list| && list[|p.sent| - 1].Ok? && list[|p.sent| - 1].value.nextToken.None?)
    && (p.end.ListFailed? ==> 0 < |p.sent| <= |list| && list[|p.sent| - 1] == Err(p.end.msg))
  }

  /** Putting one more request in front of a pass keeps how it ended. */
  lemma EndsOnLastAnswerPrepend(req: ListRequest, d: seq<seq<string>>, ts: seq<Task>,
                                list: seq<Result<Page>>, q: PassResult)
    requires list != [] && EndsOnLastAnswer(list[1..], q)
    ensures EndsOnLastAnswer(list, Prepend(req, d, ts, q))
  {
    var p := Prepend(req, d, ts, q);
    if q.sent != [] {
      assert p.sent[|p.sent| - 1] == q.sent[|q.sent| - 1];
      assert |p.sent| <= |list| ==> list[|p.sent| - 1] == list[1..][|q.sent| - 1];
    }
  }

  /** A pass stops at its first error or at the first page without a token; the
      struct it leaves behind is then its last request. */
  lemma {:induction false} RunPassEnds(input: ListRequest, list: seq<Result<Page>>, describe: seq<Result<seq<Task>>>)
    ensures EndsOnLastAnswer(list, RunPass(input, list, describe))
    decreases |list|
  {
    if list != [] && list[0].Ok? {
      var page := list[0].value;
      var nonEmpty := |page.taskArns| > 0;
      if !(nonEmpty && describe == []) && !(nonEmpty && describe[0].Err?) && page.nextToken.Some? {
        var d := if nonEmpty then [page.taskArns] else [];
        var ts := if nonEmpty then describe[0].value else [];
        var rest := if nonEmpty then describe[1..] else describe;
        var next := input.(nextToken := page.nextToken);
        RunPassEnds(next, list[1..], rest);
        EndsOnLastAnswerPrepend(input, d, ts, list, RunPass(next, list[1..], rest));
      }
    }
  }

  /** A pass that stops on a DescribeTasks error stops on the answer to its last
      describe request, and reports that answer's message. */
  lemma {:induction false} RunPassDescribeEnds(input: ListRequest, list: seq<Result<Page>>, describe: seq<Result<seq<Task>>>)
    ensures var p := RunPass(input, list, describe);
      p.end.DescribeFailed? ==> p.described != [] && describe[|p.described| - 1] == Err(p.end.msg)
    decreases |list|
  {
    if list != [] && list[0].Ok? {
      var page := list[0].value;
      var nonEmpty := |page.taskArns| > 0;
      if !(nonEmpty && describe == []) && !(nonEmpty && describe[0].Err?) && page.nextToken.Some? {
        var d := if nonEmpty then [page.taskArns] else [];
        var rest := if nonEmpty then describe[1..] else describe;
        var next := input.(nextToken := page.nextToken);
        var q := RunPass(next, list[1..], rest);
        RunPassDescribeEnds(next, list[1..], rest);
        var p := RunPass(input, list, describe);
        assert p.described == d + q.described;
        if p.end.DescribeFailed? {
          assert describe[|p.described| - 1] == rest[|q.described| - 1];
        }
      }
    }
  }

  /** `p` preceded by requests, describe requests and tasks already collected. */
  function Glue(sent: seq<ListRequest>, described: seq<seq<string>>, tasks: seq<Task>, p: PassResult): PassResult {
    p.(sent := sent + p.sent, described := described + p.described, tasks := tasks + p.tasks)
  }

  lemma GluePrepend(sent: seq<ListRequest>, described: seq<seq<string>>, tasks: seq<Task>,
                    req: ListRequest, d: seq<seq<string>>, ts: seq<Task>, p: PassResult)
    ensures Glue(sent, described, tasks, Prepend(req, d, ts, p)) == Glue(sent + [req], described + d, tasks + ts, p)
  {
    assert sent + ([req] + p.sent) == (sent + [req]) + p.sent;
    assert described + (d + p.described) == (described + d) + p.described;
    assert tasks + (ts + p.tasks) == (tasks + ts) + p.tasks;
  }

  /** One pass of the iterator, step by step: request, consume, carry the token. */
  method IteratePages(input0: ListRequest, list0: seq<Result<Page>>, describe0: seq<Result<seq<Task>>>)
    returns (p: PassResult)
    ensures p == RunPass(input0, list0, describe0)
  {
    var input, list, describe := input0, list0, describe0;
    var sent, described, tasks := [], [], [];
    while true
      invariant RunPass(input0, list0, describe0) == Glue(sent, described, tasks, RunPass(input, list, describe))
      decreases |list|
    {
      if list == [] {
        return PassResult(sent, described, tasks, Unanswered, input, list, describe);
      }
      if list[0].Err? {
        return PassResult(sent + [input], described, tasks, ListFailed(list[0].msg), input, list[1..], describe);
      }
      var page := list[0].value;
      var d, ts, rest := [], [], describe;
      if |page.taskArns| > 0 {
        if describe == [] {
          return PassResult(sent + [input], described, tasks, Unanswered, input, list[1..], describe);
        }
        if describe[0].Err? {
          return PassResult(sent + [input], described + [page.taskArns], tasks, DescribeFailed(describe[0].msg),
            input, list[1..], describe[1..]);
        }
        d, ts, rest := [page.taskArns], describe[0].value, describe[1..];
      }
      if page.nextToken.None? {
        return PassResult(sent + [input], described + d, tasks + ts, LastPage, input, list[1..], rest);
      }
      var next := input.(nextToken := page.nextToken);
      ghost var q := RunPass(next, list[1..], rest);
      assert RunPass(input, list, describe) == Prepend(input, d, ts, q);
      GluePrepend(sent, described, tasks, input, d, ts, q);
      sent, described, tasks := sent + [input], described + d, tasks + ts;
      input, list, describe := next, list[1..], rest;
    }
  }

  /** The queries of `listTasks`: `ListTasks` cannot filter by family and service at
      once, so both set gives two queries, one per filter; otherwise one. */
  function Queries(family: Option<string>, service: Option<string>): (qs: seq<ListRequest>)
    ensures |qs| == (if family.Some? && service.Some? then 2 else 1)
    ensures forall i :: 0 <= i < |qs| ==> qs[i].status.None? && qs[i].nextToken.None?
    ensures |qs| == 2 ==>
      qs[0].family == family && qs[0].service.None? && qs[1].family.None? && qs[1].service == service
    ensures |qs| == 1 ==> qs[0].family == family && qs[0].service == service
  {
    if family.Some? && service.Some? then
      [ListRequest(family, None, None, None), ListRequest(None, service, None, None)]
    else
      [ListRequest(family, service, None, None)]
  }

  function StatusOfPass(k: nat): DesiredStatus {
    if k % 2 == 0 then Running else Stopped
  }

  /** The request pass `k` starts from: query `k / 2` asking for RUNNING tasks, then
      STOPPED tasks, each from the first page. */
  function PassStart(qs: seq<ListRequest>, k: nat): (r: ListRequest)
    requires k < 2 * |qs|
    ensures r.family == qs[k / 2].family && r.service == qs[k / 2].service
    ensures r.status == Some(StatusOfPass(k))
    ensures r.nextToken == qs[k / 2].nextToken
  {
    qs[k / 2].(status := Some(StatusOfPass(k)))
  }

  /** What the source builds instead: `input := input` copies the pointer, so the
      STOPPED pass of a query reuses the struct the RUNNING pass left behind. */
  function PassStartAsWritten(qs: seq<ListRequest>, k: nat, previous: PassResult): (r: ListRequest)
    requires k < 2 * |qs|
    ensures k % 2 == 0 ==> r == PassStart(qs, k)
    ensures k % 2 == 1 ==> r == previous.input.(status := Some(Stopped))
  {
    if k % 2 == 0 then PassStart(qs, k) else previous.input.(status := Some(Stopped))
  }

  /** Every pass of the corrected listing starts from the first page. */
  lemma PassStartsFresh(family: Option<string>, service: Option<string>, k: nat)
    requires k < 2 * |Queries(family, service)|
    ensures PassStart(Queries(family, service), k).nextToken.None?
  {
  }

  /** As written, a RUNNING pass that took two pages leaves its last token in the
      shared struct, and the STOPPED pass asks for that page instead of the first. */
  lemma StaleTokenAsWritten()
    ensures var qs := Queries(None, None);
      var running := RunPass(PassStart(qs, 0), [Ok(Page([], Some("t1"))), Ok(Page([], None))], []);
      running.end == LastPage
      && PassStartAsWritten(qs, 1, running).nextToken == Some("t1")
      && PassStart(qs, 1).nextToken.None?
  {
    var qs := Queries(None, None);
    var first := PassStart(qs, 0);
    var list: seq<Result<Page>> := [Ok(Page([], Some("t1"))), Ok(Page([], None))];
    var second := RunPass(first.(nextToken := Some("t1")), list[1..], []);
    assert second.input == first.(nextToken := Some("t1"));
  }

  /** The tasks of all passes, in order. */
  function AllTasks(passes: seq<PassResult>): seq<Task>
    decreases |passes|
  {
    if passes == [] then [] else AllTasks(passes[..|passes| - 1]) + passes[|passes| - 1].tasks
  }

  /** The error a pass that did not reach its last page makes `listTasks` return. */
  function EndMessage(e: PassEnd): string {
    match e
    case ListFailed(m) => m
    case DescribeFailed(m) => m
    case _ => "unanswered"
  }

  /** Pass `k` ran from its start on the answers the passes before it left. */
  predicate PassChained(qs: seq<ListRequest>, passes: seq<PassResult>, list: seq<Result<Page>>,
                        describe: seq<Result<seq<Task>>>, k: nat)
    requires k < |passes| && k < 2 * |qs|
  {
    passes[k] == RunPass(PassStart(qs, k),
                         if k == 0 then list else passes[k - 1].list,
                         if k == 0 then describe else passes[k - 1].describe)
  }

  /** The loops of `listTasks` so far: every pass ran to its last page on what the
      one before it left, `restList` and `restDescribe` are what the last one left,
      and `tasks` holds their tasks. */
  predicate ListingProgress(qs: seq<ListRequest>, passes: seq<PassResult>, list: seq<Result<Page>>,
                            describe: seq<Result<seq<Task>>>, restList: seq<Result<Page>>,
                            restDescribe: seq<Result<seq<Task>>>, tasks: seq<Task>) {
    |passes| <= 2 * |qs|
    && (forall k :: 0 <= k < |passes| ==> PassChained(qs, passes, list, describe, k))
    && (forall k :: 0 <= k < |passes| ==> passes[k].end == LastPage)
    && restList == (if passes == [] then list else passes[|passes| - 1].list)
    && restDescribe == (if passes == [] then describe else passes[|passes| - 1].describe)
    && tasks == AllTasks(passes)
  }

  /** One more pass keeps the chain; when it reaches its last page the loops can
      go on from what it left. */
  lemma ProgressStep(qs: seq<ListRequest>, passes: seq<PassResult>, p: PassResult, list: seq<Result<Page>>,
                     describe: seq<Result<seq<Task>>>, restList: seq<Result<Page>>,
                     restDescribe: seq<Result<seq<Task>>>, tasks: seq<Task>)
    requires ListingProgress(qs, passes, list, describe, restList, restDescribe, tasks)
    requires |passes| < 2 * |qs|
    requires p == RunPass(PassStart(qs, |passes|), restList, restDescribe)
    ensures forall k :: 0 <= k < |passes| + 1 ==> PassChained(qs, passes + [p], list, describe, k)
    ensures forall k :: 0 <= k < |passes| ==> (passes + [p])[k].end == LastPage
    ensures p.end == LastPage ==>
      ListingProgress(qs, passes + [p], list, describe, p.list, p.describe, tasks + p.tasks)
  {
    ChainedAppend(qs, passes, p, list, describe);
    AllTasksAppend(passes, p);
    assert forall k :: 0 <= k < |passes| ==> (passes + [p])[k] == passes[k];
  }

  /** A pass run on what the passes before it left continues the chain. */
  lemma ChainedAppend(qs: seq<ListRequest>, before: seq<PassResult>, p: PassResult,
                      list: seq<Result<Page>>, describe: seq<Result<seq<Task>>>)
    requires |before| < 2 * |qs|
    requires forall k :: 0 <= k < |before| ==> PassChained(qs, before, list, describe, k)
    requires p == RunPass(PassStart(qs, |before|),
                          if before == [] then list else before[|before| - 1].list,
                          if before == [] then describe else before[|before| - 1].describe)
    ensures forall k :: 0 <= k < |before| + 1 ==> PassChained(qs, before + [p], list, describe, k)
  {
    var passes := before + [p];
    forall k | 0 <= k < |passes|
      ensures PassChained(qs, passes, list, describe, k)
    {
      if k > 0 {
        assert passes[k - 1] == before[k - 1];
      }
      if k < |before| {
        assert passes[k] == before[k];
        assert PassChained(qs, before, list, describe, k);
      } else {
        assert passes[k] == p;
      }
    }
  }

  /** The tasks of one more pass come after those of the passes before it. */
  lemma AllTasksAppend(before: seq<PassResult>, p: PassResult)
    ensures AllTasks(before + [p]) == AllTasks(before) + p.tasks
  {
    assert (before + [p])[..|before|] == before;
  }

  /** A tag matches when the filter asks for its key with its value. */
  predicate TagMatches(t: Tag, want: map<string, string>) {
    t.key in want && want[t.key] == t.value
  }

  /** The `matched` counter of the tag filter. Map keys are distinct, so a task tag
      matches at most one requested pair and the source's loop over the requested
      pairs counts exactly the task tags that match one of them. */
  function MatchCount(tags: seq<Tag>, want: map<string, string>): (n: nat)
    ensures n <= |tags|
    decreases |tags|
  {
    if tags == [] then 0
    else MatchCount(tags[..|tags| - 1], want) + (if TagMatches(tags[|tags| - 1], want) then 1 else 0)
  }

  /** The tag filter keeps a task when its matched count is the number of requested tags. */
  predicate KeepsTask(task: Task, want: map<string, string>) {
    MatchCount(task.tags, want) == |want|
  }

  /** `lo.Filter` with the tag predicate: the tasks kept, in their order. */
  function TagFilter(ts: seq<Task>, want: map<string, string>): (r: seq<Task>)
    ensures |r| <= |ts|
    ensures forall t :: t in r <==> t in ts && KeepsTask(t, want)
  {
    Select(ts, t => KeepsTask(t, want))
  }

  /** The filter keeps order and multiplicity: it works task by task, and a task is
      kept once exactly when it matches. */
  lemma TagFilterAppend(a: seq<Task>, b: seq<Task>, want: map<string, string>)
    ensures TagFilter(a + b, want) == TagFilter(a, want) + TagFilter(b, want)
  {
    SelectAppend(a, b, t => KeepsTask(t, want));
  }

  /** One task is kept, once, exactly when it matches. */
  lemma TagFilterOne(t: Task, want: map<string, string>)
    ensures TagFilter([t], want) == if KeepsTask(t, want) then [t] else []
  {
    SelectOne(t, u => KeepsTask(u, want));
  }

  lemma {:induction false} NoTagMatchesNothing(tags: seq<Tag>)
    ensures MatchCount(tags, map[]) == 0
    decreases |tags|
  {
    if tags != [] {
      NoTagMatchesNothing(tags[..|tags| - 1]);
    }
  }

  /** With no tags asked for every task is kept, which is why the source may skip the filter. */
  lemma {:induction false} TagFilterNoTags(ts: seq<Task>)
    ensures TagFilter(ts, map[]) == ts
    decreases |ts|
  {
    if ts != [] {
      TagFilterNoTags(ts[..|ts| - 1]);
      NoTagMatchesNothing(ts[|ts| - 1].tags);
      assert ts[..|ts| - 1] + [ts[|ts| - 1]] == ts;
    }
  }

  predicate UniqueKeys(tags: seq<Tag>) {
    forall i, j :: 0 <= i < j < |tags| ==> tags[i].key != tags[j].key
  }

  /** The requested keys some task tag matches. */
  function MatchedKeys(tags: seq<Tag>, want: map<string, string>): (ks: set<string>)
    ensures ks <= want.Keys
    ensures forall k :: k in ks <==> exists i :: 0 <= i < |tags| && tags[i].key == k && TagMatches(tags[i], want)
    decreases |tags|
  {
    if tags == [] then {}
    else
      var init := tags[..|tags| - 1];
      var ks := MatchedKeys(init, want);
      assert forall i :: 0 <= i < |init| ==> init[i] == tags[i];
      ks + (if TagMatches(tags[|tags| - 1], want) then {tags[|tags| - 1].key} else {})
  }

  lemma {:induction false} MatchedKeysCount(tags: seq<Tag>, want: map<string, string>)
    requires UniqueKeys(tags)
    ensures |MatchedKeys(tags, want)| == MatchCount(tags, want)
    decreases |tags|
  {
    if tags != [] {
      var init := tags[..|tags| - 1];
      assert UniqueKeys(init);
      MatchedKeysCount(init, want);
      assert tags[|tags| - 1].key !in MatchedKeys(init, want);
    }
  }

  lemma {:induction false} SubsetSize(a: set<string>, b: set<string>)
    requires a <= b
    ensures |a| <= |b|
    decreases |a|
  {
    if a != {} {
      var x :| x in a;
      SubsetSize(a - {x}, b - {x});
    }
  }

  lemma SubsetOfSameSize(a: set<string>, b: set<string>)
    requires a <= b && |a| == |b|
    ensures a == b
  {
    if a != b {
      assert exists x :: x in b && x !in a;
      var x :| x in b && x !in a;
      SubsetSize(a, b - {x});
    }
  }

  /** AND semantics: for a task whose tag keys are distinct (ECS does not allow two
      tags with the same key), the filter keeps it exactly when it carries every
      requested key with the requested value. */
  lemma TagFilterIsConjunction(task: Task, want: map<string, string>)
    requires UniqueKeys(task.tags)
    ensures KeepsTask(task, want) <==> forall k :: k in want ==> Tag(k, want[k]) in task.tags
  {
    MatchedKeysCount(task.tags, want);
    if KeepsTask(task, want) {
      KeptHasAll(task.tags, want);
    }
    if forall k :: k in want ==> Tag(k, want[k]) in task.tags {
      AllAreMatched(task.tags, want);
    }
  }

  lemma KeptHasAll(tags: seq<Tag>, want: map<string, string>)
    requires |MatchedKeys(tags, want)| == |want|
    ensures forall k :: k in want ==> Tag(k, want[k]) in tags
  {
    var ks := MatchedKeys(tags, want);
    assert |want| == |want.Keys|;
    SubsetOfSameSize(ks, want.Keys);
    forall k | k in want ensures Tag(k, want[k]) in tags {
      assert k in ks;
      var i :| 0 <= i < |tags| && tags[i].key == k && TagMatches(tags[i], want);
      assert tags[i] == Tag(k, want[k]);
    }
  }

  lemma AllAreMatched(tags: seq<Tag>, want: map<string, string>)
    requires forall k :: k in want ==> Tag(k, want[k]) in tags
    ensures |MatchedKeys(tags, want)| == |want|
  {
    var ks := MatchedKeys(tags, want);
    forall k | k in want.Keys ensures k in ks {
      var i :| 0 <= i < |tags| && tags[i] == Tag(k, want[k]);
      assert TagMatches(tags[i], want);
    }
    assert ks == want.Keys;
    assert |want| == |want.Keys|;
  }

  /** Without distinct keys the count is fooled: a pair repeated twice stands in for
      a pair that is missing. */
  lemma DuplicateTagCountsTwice()
    ensures var want := map["env" := "prod", "team" := "web"];
      var task := Task("arn", "", "", "", "", "", "", "", [], [], [Tag("env", "prod"), Tag("env", "prod")]);
      KeepsTask(task, want) && Tag("team", "web") !in task.tags
  {
    var want := map["env" := "prod", "team" := "web"];
    var tags := [Tag("env", "prod"), Tag("env", "prod")];
    assert want.Keys == {"env", "team"};
    assert tags[..1] == [Tag("env", "prod")] && tags[..1][..0] == [];
    assert MatchCount(tags, want) == 2;
  }

  /** Task `i` is the first with its ARN. */
  predicate FirstOfArn(ts: seq<Task>, i: int)
    requires 0 <= i < |ts|
  {
    forall j :: 0 <= j < i ==> ts[j].taskArn != ts[i].taskArn
  }

  /** `lo.UniqBy` on the ARN: the tasks whose ARN did not occur before, in order. */
  function FirstOccurrences(ts: seq<Task>): seq<Task>
    decreases |ts|
  {
    if ts == [] then []
    else FirstOccurrences(ts[..|ts| - 1]) + (if FirstOfArn(ts, |ts| - 1) then [ts[|ts| - 1]] else [])
  }

  function Arns(ts: seq<Task>): set<string> {
    set t | t in ts :: t.taskArn
  }

  /** De-duplication keeps one task per ARN: no ARN twice, no ARN lost, nothing new. */
  lemma {:induction false} FirstOccurrencesUnique(ts: seq<Task>)
    ensures var r := FirstOccurrences(ts);
      (forall i, j :: 0 <= i < j < |r| ==> r[i].taskArn != r[j].taskArn)
      && Arns(r) == Arns(ts) && (forall t :: t in r ==> t in ts)
    decreases |ts|
  {
    if ts != [] {
      var init := ts[..|ts| - 1];
      var last := ts[|ts| - 1];
      FirstOccurrencesUnique(init);
      var r0 := FirstOccurrences(init);
      assert ts == init + [last];
      assert Arns(ts) == Arns(init) + {last.taskArn};
      if FirstOfArn(ts, |ts| - 1) {
        assert last.taskArn !in Arns(init);
        assert Arns(r0 + [last]) == Arns(r0) + {last.taskArn};
      } else {
        var j :| 0 <= j < |ts| - 1 && ts[j].taskArn == last.taskArn;
        assert init[j] in init;
      }
    }
  }

  /** `lo.UniqBy`'s loop: a seen set of ARNs and the tasks kept so far. */
  method UniqByArn(ts: seq<Task>) returns (r: seq<Task>)
    ensures r == FirstOccurrences(ts)
  {
    var seen: set<string> := {};
    r := [];
    for i := 0 to |ts|
      invariant r == FirstOccurrences(ts[..i])
      invariant seen == set j | 0 <= j < i :: ts[j].taskArn
    {
      var prefix := ts[..i + 1];
      assert prefix[..i] == ts[..i];
      assert FirstOfArn(prefix, i) <==> ts[i].taskArn !in seen by {
        if ts[i].taskArn in seen {
          var j :| 0 <= j < i && ts[j].taskArn == ts[i].taskArn;
          assert prefix[j] == ts[j];
        }
      }
      if ts[i].taskArn !in seen {
        seen := seen + {ts[i].taskArn};
        r := r + [ts[i]];
      }
    }
    assert ts[..|ts|] == ts;
  }

  /** `listTasks`: each query for RUNNING then STOPPED tasks, each pass from its first
      page; the first failing pass ends the listing with its error; then the tag
      filter (only when tags are asked for) and de-duplication by ARN. */
  method ListTasks(family: Option<string>, service: Option<string>, want: map<string, string>,
                   list: seq<Result<Page>>, describe: seq<Result<seq<Task>>>)
    returns (r: Result<seq<Task>>, passes: seq<PassResult>)
    ensures var qs := Queries(family, service);
      |passes| <= 2 * |qs|
      && (forall k :: 0 <= k < |passes| ==> PassChained(qs, passes, list, describe, k))
      && (forall k :: 0 <= k < |passes| - 1 ==> passes[k].end == LastPage)
    ensures r.Ok? <==> |passes| == 2 * |Queries(family, service)| && passes[|passes| - 1].end == LastPage
    ensures r.Err? ==> passes != [] && r.msg == EndMessage(passes[|passes| - 1].end)
    ensures r.Ok? ==> r.value == FirstOccurrences(TagFilter(AllTasks(passes), want))
  {
    var qs := Queries(family, service);
    var tasks: seq<Task> := [];
    var restList, restDescribe := list, describe;
    passes := [];
    for q := 0 to |qs|
      invariant |passes| == 2 * q
      invariant ListingProgress(qs, passes, list, describe, restList, restDescribe, tasks)
    {
      for s := 0 to 2
        invariant |passes| == 2 * q + s
        invariant ListingProgress(qs, passes, list, describe, restList, restDescribe, tasks)
      {
        var start := PassStart(qs, |passes|);
        var p := IteratePages(start, restList, restDescribe);
        ProgressStep(qs, passes, p, list, describe, restList, restDescribe, tasks);
        passes := passes + [p];
        if p.end != LastPage {
          return Err(EndMessage(p.end)), passes;
        }
        tasks := tasks + p.tasks;
        restList, restDescribe := p.list, p.describe;
      }
    }
    var kept := tasks;
    if |want| > 0 {
      kept := TagFilter(tasks, want);
    } else {
      assert want == map[];
      TagFilterNoTags(tasks);
    }
    var unique := UniqByArn(kept);
    return Ok(unique), passes;
  }

  /** `selectFuncExcludeStopped`. */
  function ExcludeStopped(task: Task): (keep: bool)
    ensures keep <==> task.lastStatus != "STOPPED"
  {
    task.lastStatus != "STOPPED"
  }

  /** `lo.Filter` with `selectFunc`: the tasks it accepts, in order. */
  function Select(ts: seq<Task>, f: Task -> bool): (r: seq<Task>)
    ensures |r| <= |ts|
    ensures forall t :: t in r <==> t in ts && f(t)
    decreases |ts|
  {
    if ts == [] then []
    else Select(ts[..|ts| - 1], f) + (if f(ts[|ts| - 1]) then [ts[|ts| - 1]] else [])
  }

  /** The selection keeps order and multiplicity: a task is kept once exactly when
      `f` accepts it. */
  lemma {:induction false} SelectAppend(a: seq<Task>, b: seq<Task>, f: Task -> bool)
    ensures Select(a + b, f) == Select(a, f) + Select(b, f)
    decreases |b|
  {
    if b == [] {
      assert a + b == a && Select(a, f) + [] == Select(a, f);
    } else {
      var init := b[..|b| - 1];
      var last := [b[|b| - 1]];
      assert (a + b)[..|a + b| - 1] == a + init && (a + b)[|a + b| - 1] == b[|b| - 1];
      SelectAppend(a, init, f);
      var x := if f(b[|b| - 1]) then last else [];
      assert Select(a + b, f) == (Select(a, f) + Select(init, f)) + x;
      assert Select(b, f) == Select(init, f) + x;
      assert (Select(a, f) + Select(init, f)) + x == Select(a, f) + (Select(init, f) + x);
    }
  }

  /** One task is kept, once, exactly when it matches. */
  lemma SelectOne(t: Task, f: Task -> bool)
    ensures Select([t], f) == if f(t) then [t] else []
  {
    assert [t][..0] == [];
  }

  /** `optionFindTask`; `selectFunc` is nil or a predicate on tasks. */
  datatype FindOpt = FindOpt(id: string, family: Option<string>, service: Option<string>,
                             selectFunc: Option<Task -> bool>)

  /** The tasks `findTask` chooses among when no ID is given. */
  function Candidates(opt: FindOpt, listed: seq<Task>): seq<Task> {
    if opt.selectFunc.Some? then Select(listed, opt.selectFunc.value) else listed
  }

  /** `strings.SplitN(res, "\t", 2)[0]`: the chosen line's first field. */
  function FirstTabField(s: string): string {
    Split(s, '\t')[0]
  }

  /** The first task whose ARN names `id`. */
  function FindByName(ts: seq<Task>, id: string): (r: Option<Task>)
    ensures r.Some? ==> r.value in ts && ArnToName(r.value.taskArn) == id
    ensures r.None? <==> forall t :: t in ts ==> ArnToName(t.taskArn) != id
    ensures r.Some? ==> FirstNamed(ts, id, r.value)
  {
    FindFromFirst(ts, id);
    FindFrom(ts, id, 0)
  }

  /** The search from position `i` on. */
  function FindFrom(ts: seq<Task>, id: string, i: nat): (r: Option<Task>)
    requires i <= |ts|
    ensures r.Some? ==> r.value in ts && ArnToName(r.value.taskArn) == id
    ensures r.None? <==> forall j :: i <= j < |ts| ==> ArnToName(ts[j].taskArn) != id
    decreases |ts| - i
  {
    if i == |ts| then None
    else if ArnToName(ts[i].taskArn) == id then Some(ts[i])
    else FindFrom(ts, id, i + 1)
  }

  /** `t` is the first task of `ts` whose ARN names `id`. */
  predicate FirstNamed(ts: seq<Task>, id: string, t: Task) {
    exists k :: 0 <= k < |ts| && ts[k] == t && ArnToName(t.taskArn) == id
      && forall j :: 0 <= j < k ==> ArnToName(ts[j].taskArn) != id
  }

  /** The search returns the first task whose ARN names the ID, not a later one. */
  lemma FindFromFirst(ts: seq<Task>, id: string)
    ensures FindFrom(ts, id, 0).Some? ==> FirstNamed(ts, id, FindFrom(ts, id, 0).value)
  {
    var k := FindFromAt(ts, id, 0);
  }

  /** No task before `k` has an ARN naming `id`. */
  predicate NoneNamedBefore(ts: seq<Task>, id: string, k: nat)
    requires k <= |ts|
  {
    forall j :: 0 <= j < k ==> ArnToName(ts[j].taskArn) != id
  }

  /** The position of the task the search from `i` returns, when none before `i`
      is named `id`. */
  lemma {:induction false} FindFromAt(ts: seq<Task>, id: string, i: nat) returns (k: nat)
    requires i <= |ts| && NoneNamedBefore(ts, id, i)
    ensures FindFrom(ts, id, i).Some? ==>
      i <= k < |ts| && ts[k] == FindFrom(ts, id, i).value && NoneNamedBefore(ts, id, k)
    decreases |ts| - i
  {
    k := i;
    if i < |ts| && ArnToName(ts[i].taskArn) != id {
      assert NoneNamedBefore(ts, id, i + 1);
      k := FindFromAt(ts, id, i + 1);
    }
  }

  /** `findTask`. With an ID, `described` is what `DescribeTasks` returned for it;
      otherwise `listed` is what `listTasks` returned and, when several tasks remain
      after `selectFunc`, `formatter` is whether the task formatter for the filter
      could be made and `chosen` is the line the filter returned. */
  function FindTask(opt: FindOpt, described: Result<seq<Task>>, listed: Result<seq<Task>>,
                    formatter: Outcome, chosen: Result<string>): (r: Result<Task>)
    ensures opt.id != "" ==> (r.Ok? <==> described.Ok? && |described.value| == 1)
    ensures opt.id != "" && r.Ok? ==> r.value == described.value[0]
    ensures opt.id != "" && described.Err? ==> r == Err("no tasks found: " + described.msg)
    ensures opt.id != "" && described.Ok? && |described.value| == 0 ==> r == Err("task not found: " + opt.id)
    ensures opt.id != "" && described.Ok? && |described.value| > 1 ==> r == Err("multiple tasks found: " + opt.id)
    ensures opt.id == "" && listed.Err? ==> r == Err(listed.msg)
    ensures opt.id == "" && listed.Ok? && |Candidates(opt, listed.value)| == 0 ==> r == Err("no tasks found")
    ensures opt.id == "" && listed.Ok? && |Candidates(opt, listed.value)| == 1 ==>
      r == Ok(Candidates(opt, listed.value)[0])
    ensures opt.id == "" && r.Ok? ==>
      listed.Ok? && r.value in listed.value && (opt.selectFunc.Some? ==> opt.selectFunc.value(r.value))
    ensures opt.id == "" && listed.Ok? && |Candidates(opt, listed.value)| > 1 ==>
      (formatter.Fail? ==> r == Err("failed to create formatter: " + formatter.msg))
      && (formatter.Pass? && chosen.Err? ==> r == Err("failed to run filter: " + chosen.msg))
      && (formatter.Pass? && chosen == Ok("") ==> r == Err("task not selected"))
      && (r.Ok? ==> chosen.Ok? && ArnToName(r.value.taskArn) == FirstTabField(chosen.value))
    ensures opt.id == "" && listed.Ok? && |Candidates(opt, listed.value)| > 1
            && formatter.Pass? && chosen.Ok? && chosen.value != "" ==>
      var id := FirstTabField(chosen.value);
      (r.Ok? <==> exists t :: t in Candidates(opt, listed.value) && ArnToName(t.taskArn) == id)
      && (r.Ok? ==> FirstNamed(Candidates(opt, listed.value), id, r.value))
      && (r.Err? ==> r == Err("task " + id + " not found"))
  {
    if opt.id != "" then
      match described
      case Err(m) => Err("no tasks found: " + m)
      case Ok(tasks) =>
        if |tasks| == 0 then Err("task not found: " + opt.id)
        else if |tasks| == 1 then Ok(tasks[0])
        else Err("multiple tasks found: " + opt.id)
    else
      match listed
      case Err(m) => Err(m)
      case Ok(all) =>
        var tasks := Candidates(opt, all);
        if |tasks| == 0 then Err("no tasks found")
        else if |tasks| == 1 then Ok(tasks[0])
        else if formatter.Fail? then Err("failed to create formatter: " + formatter.msg)
        else
          match chosen
          case Err(m) => Err("failed to run filter: " + m)
          case Ok(res) =>
            if res == "" then Err("task not selected")
            else
              var id := FirstTabField(res);
              match FindByName(tasks, id)
              case Some(t) => Ok(t)
              case None => Err("task " + id + " not found")
  }

  /** With `selectFuncExcludeStopped`, a task found without an ID is never STOPPED. */
  lemma FindTaskExcludesStopped(opt: FindOpt, described: Result<seq<Task>>, listed: Result<seq<Task>>,
                                formatter: Outcome, chosen: Result<string>)
    requires opt.id == "" && opt.selectFunc == Some(ExcludeStopped)
    ensures var r := FindTask(opt, described, listed, formatter, chosen);
      r.Ok? ==> r.value.lastStatus != "STOPPED"
  {
  }

  /** Choosing a task's TSV line (its columns joined by tabs) finds a task with the
      same ID, whatever the other columns hold. */
  lemma FindTaskOfChosenLine(opt: FindOpt, described: Result<seq<Task>>, all: seq<Task>, t: Task)
    requires opt.id == "" && t in Candidates(opt, all) && |Candidates(opt, all)| > 1
    requires NoTabOrNewline(TaskToColumns(t))
    ensures var r := FindTask(opt, described, Ok(all), Pass, Ok(Join(TaskToColumns(t), "\t")));
      r.Ok? && ArnToName(r.value.taskArn) == ArnToName(t.taskArn)
  {
    ChosenLineId(t);
    FindTaskOfLine(opt, described, all, Join(TaskToColumns(t), "\t"), t);
  }

  /** A chosen line whose first field names a candidate finds a task of that name. */
  lemma FindTaskOfLine(opt: FindOpt, described: Result<seq<Task>>, all: seq<Task>, line: string, t: Task)
    requires opt.id == "" && t in Candidates(opt, all) && |Candidates(opt, all)| > 1
    requires line != "" && FirstTabField(line) == ArnToName(t.taskArn)
    ensures var r := FindTask(opt, described, Ok(all), Pass, Ok(line));
      r.Ok? && ArnToName(r.value.taskArn) == ArnToName(t.taskArn)
  {
    assert t in Candidates(opt, all) && ArnToName(t.taskArn) == FirstTabField(line);
  }

  /** The first tab-separated field of a task's line is the task's ID, and the line
      is not empty. */
  lemma ChosenLineId(t: Task)
    requires NoTabOrNewline(TaskToColumns(t))
    ensures var line := Join(TaskToColumns(t), "\t");
      line != "" && FirstTabField(line) == ArnToName(t.taskArn)
  {
    var cols := TaskToColumns(t);
    var line := Join(cols, "\t");
    assert line == cols[0] + "\t" + Join(cols[1..], "\t");
    TaskLineStartsWithId(t);
    var tsv := TsvLine(cols);
    assert tsv[..|tsv| - 1] == line;
  }

  /** `findContainerName`: an explicit name is returned unchecked; a task with one
      container needs no prompt; otherwise `chosen` is what the filter returned for
      the list of container names. */
  function FindContainerName(task: Task, name: string, chosen: Result<string>): (r: Result<string>)
    ensures name != "" ==> r == Ok(name)
    ensures name == "" && |task.containers| == 1 ==> r == Ok(task.containers[0].name)
    ensures name == "" && |task.containers| != 1 ==>
      r == (if chosen.Err? then Err("failed to run filter: " + chosen.msg) else chosen)
  {
    if name != "" then Ok(name)
    else if |task.containers| == 1 then Ok(task.containers[0].name)
    else match chosen
      case Err(m) => Err("failed to run filter: " + m)
      case Ok(c) => Ok(c)
  }

  /** The lines the container filter is shown: each container's name, in order. */
  function ContainerNames(cs: seq<Container>): (names: seq<string>)
    ensures |names| == |cs| && forall i :: 0 <= i < |cs| ==> names[i] == cs[i].name
  {
    seq(|cs|, i requires 0 <= i < |cs| => cs[i].name)
  }
}
