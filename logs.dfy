/** logs.go: the time window of `logs`, the containers whose logs are followed and
    the paging of `GetLogEvents` for one of them. The clock, the time parser and
    the AWS answers are inputs. */
module Logs {
  import opened Wrappers
  import opened Strs
  import opened EcsTypes
  import opened Utils
  import opened Format
  import opened Ecsta

  // ---- Go's time.Time and time.Duration ----

  const MinInt64: int := -0x8000_0000_0000_0000
  const MaxInt64: int := 0x7fff_ffff_ffff_ffff
  const TwoTo64: int := 0x1_0000_0000_0000_0000

  /** Two's-complement wrap-around of an `int64` result. */
  function Wrap64(x: int): (r: int)
    ensures MinInt64 <= r <= MaxInt64
    ensures (r - x) % TwoTo64 == 0
    ensures MinInt64 <= x <= MaxInt64 ==> r == x
  {
    (x - MinInt64) % TwoTo64 + MinInt64
  }

  /** `int64` division, which truncates toward zero. */
  function TruncDiv(a: int, b: int): (q: int)
    requires b > 0
    ensures a >= 0 ==> q * b <= a < q * b + b
    ensures a < 0 ==> q * b - b < a <= q * b
  {
    if a >= 0 then a / b else -((-a) / b)
  }

  /** A `time.Duration`: an `int64` count of nanoseconds. */
  type Duration = int

  const Millisecond: Duration := 1_000_000

  /** A `time.Time`, as nanoseconds since 1970-01-01 UTC. Its range is wider than
      a `Duration`'s, as Go's is. */
  datatype Time = Time(ns: int)

  const Epoch := Time(0)

  /** `time.Time{}`, January 1 of year 1, UTC. */
  const ZeroTime := Time(-62135596800 * 1_000_000_000)

  predicate IsZero(t: Time) { t == ZeroTime }

  predicate After(t: Time, u: Time) { t.ns > u.ns }

  function Add(t: Time, d: Duration): Time { Time(t.ns + d) }

  /** `t.Sub(u)`, which saturates at the bounds of a `Duration`. */
  function Sub(t: Time, u: Time): (d: Duration)
    ensures MinInt64 <= d <= MaxInt64
    ensures MinInt64 <= t.ns - u.ns <= MaxInt64 ==> d == t.ns - u.ns
  {
    var d := t.ns - u.ns;
    if d < MinInt64 then MinInt64 else if d > MaxInt64 then MaxInt64 else d
  }

  /** `timeToInt64msec`: whole milliseconds since the epoch, truncated toward zero. */
  function TimeToMsec(t: Time): (m: int)
    ensures MinInt64 / Millisecond + 1 <= m <= MaxInt64 / Millisecond
  {
    TruncDiv(Sub(t, Epoch), Millisecond)
  }

  /** `msecToTime`: `time.Duration(i) * time.Millisecond` is an `int64` product and
      wraps around. */
  function MsecToTime(i: int): (t: Time)
    ensures MinInt64 <= t.ns <= MaxInt64
    ensures MinInt64 <= i * Millisecond <= MaxInt64 ==> t.ns == i * Millisecond
  {
    Add(Epoch, Wrap64(i * Millisecond))
  }

  /** Milliseconds survive the round trip through a time, for every count whose
      nanoseconds fit a `Duration` (about 292 years either side of 1970). */
  lemma MsecRoundTrip(i: int)
    requires MinInt64 <= i * Millisecond <= MaxInt64
    ensures TimeToMsec(MsecToTime(i)) == i
  {
    var x := i * Millisecond;
    assert MsecToTime(i) == Time(x);
    assert Sub(Time(x), Epoch) == x;
    if i >= 0 {
      assert x / Millisecond == i;
    } else {
      assert (-x) / Millisecond == -i;
    }
  }

  /** A time read back from its milliseconds loses its sub-millisecond part, moved
      toward the epoch. */
  lemma MsecTruncates(t: Time)
    requires MinInt64 <= t.ns <= MaxInt64
    ensures var back := MsecToTime(TimeToMsec(t));
      t.ns - Millisecond < back.ns <= t.ns || t.ns <= back.ns < t.ns + Millisecond
    ensures t.ns >= 0 ==> MsecToTime(TimeToMsec(t)).ns <= t.ns
    ensures t.ns < 0 ==> MsecToTime(TimeToMsec(t)).ns >= t.ns
  {
    var m := TimeToMsec(t);
    assert Sub(t, Epoch) == t.ns;
    assert MinInt64 <= m * Millisecond <= MaxInt64;
    assert MsecToTime(m) == Time(m * Millisecond);
  }

  /** Beyond the year 2262 the product wraps and the round trip fails. */
  lemma MsecWrapsBeyondRange()
    ensures TimeToMsec(MsecToTime(9_223_372_036_855)) != 9_223_372_036_855
  {
    var x := 9_223_372_036_855 * Millisecond;
    assert Wrap64(x) == x - TwoTo64;
    assert MsecToTime(9_223_372_036_855).ns < 0;
  }

  // ---- the time window ----

  /** `LogsOption`; `duration` is `--duration` as a `Duration`. */
  datatype LogsOption = LogsOption(
    id: string,
    startTime: string,
    duration: Duration,
    follow: bool,
    container: string,
    family: Option<string>,
    service: Option<string>,
    json: bool)

  /** `ResolveTimestamps`. `now` is the clock, `parserReady` whether `parsetime`
      could be set up and `parsed` what it made of `--start-time`. Without a start
      time the window is the `duration` up to now; with one it is the `duration`
      from it. Following leaves the window open: its end is the zero time. */
  function ResolveTimestamps(opt: LogsOption, now: Time, parserReady: Outcome, parsed: Result<Time>)
    : (r: Result<(Time, Time)>)
    requires MinInt64 <= opt.duration <= MaxInt64
    ensures r.Err? <==> opt.startTime != "" && (parserReady.Fail? || parsed.Err?)
    ensures opt.startTime != "" && parserReady.Fail? ==> r == Err("failed to create parsetime: " + parserReady.msg)
    ensures opt.startTime != "" && parserReady.Pass? && parsed.Err? ==>
      r == Err("failed to parse start time: " + parsed.msg)
    ensures r.Ok? && opt.startTime != "" ==> r.value.0 == parsed.value
    ensures r.Ok? && opt.startTime == "" && opt.duration != MinInt64 ==> r.value.0.ns == now.ns - opt.duration
    ensures r.Ok? && opt.follow ==> IsZero(r.value.1)
    ensures r.Ok? && !opt.follow ==> r.value.1.ns - r.value.0.ns == opt.duration || opt.duration == MinInt64
    ensures r.Ok? && !opt.follow && opt.startTime == "" ==> r.value.1 == now
  {
    var window :- if opt.startTime != "" then
        if parserReady.Fail? then Err("failed to create parsetime: " + parserReady.msg)
        else if parsed.Err? then Err("failed to parse start time: " + parsed.msg)
        else Ok((parsed.value, Add(parsed.value, opt.duration)))
      else Ok((Add(now, Wrap64(-opt.duration)), now));
    Ok((window.0, if opt.follow then ZeroTime else window.1))
  }

  // ---- choosing the containers ----

  /** `types.LogConfiguration`: the log driver and its options. */
  datatype LogConfiguration = LogConfiguration(logDriver: string, options: map<string, string>)

  /** The part of `types.ContainerDefinition` the program reads. */
  datatype ContainerDefinition = ContainerDefinition(name: string, logConfiguration: Option<LogConfiguration>)

  const AwslogsDriver := "awslogs"

  /** A Go map lookup: a missing key reads as "". */
  function Lookup(m: map<string, string>, k: string): string {
    if k in m then m[k] else ""
  }

  /** `RunLogs` follows a container when `--container` is unset or names it, and it
      logs through the `awslogs` driver. */
  predicate Watched(c: ContainerDefinition, container: string) {
    (container == "" || container == c.name)
    && c.logConfiguration.Some? && c.logConfiguration.value.logDriver == AwslogsDriver
  }

  /** `followOption`. */
  datatype FollowOption = FollowOption(
    logGroup: string,
    logStream: string,
    containerName: string,
    startTime: Time,
    endTime: Time,
    follow: bool,
    json: bool)

  /** The follower of a watched container: its log group, and the stream
      "prefix/container/task ID" that `awslogs` writes to. */
  function FollowerOf(c: ContainerDefinition, taskArn: string, start: Time, end: Time, follow: bool, json: bool)
    : (f: FollowOption)
    requires c.logConfiguration.Some?
    ensures f.containerName == c.name
    ensures f.logStream == Lookup(c.logConfiguration.value.options, "awslogs-stream-prefix") + "/" + c.name
                           + "/" + ArnToName(taskArn)
    ensures ArnToName(f.logStream) == ArnToName(taskArn)
    ensures f.logGroup == Lookup(c.logConfiguration.value.options, "awslogs-group")
    ensures f.startTime == start && f.endTime == end && f.follow == follow && f.json == json
  {
    var opts := c.logConfiguration.value.options;
    var prefix := Lookup(opts, "awslogs-stream-prefix") + "/" + c.name;
    ArnToNameOfPath(prefix, ArnToName(taskArn));
    FollowOption(Lookup(opts, "awslogs-group"), prefix + "/" + ArnToName(taskArn), c.name,
                 start, end, follow, json)
  }

  /** The followers `RunLogs` starts, in container order. */
  function Followers(defs: seq<ContainerDefinition>, container: string, taskArn: string,
                     start: Time, end: Time, follow: bool, json: bool): (fs: seq<FollowOption>)
    ensures |fs| <= |defs|
    ensures |fs| == 0 <==> forall i :: 0 <= i < |defs| ==> !Watched(defs[i], container)
    decreases |defs|
  {
    if defs == [] then []
    else
      var init := defs[..|defs| - 1];
      var c := defs[|defs| - 1];
      var fs := Followers(init, container, taskArn, start, end, follow, json);
      assert forall i :: 0 <= i < |init| ==> init[i] == defs[i];
      fs + (if Watched(c, container) then [FollowerOf(c, taskArn, start, end, follow, json)] else [])
  }

  /** Every follower is that of a watched container. */
  lemma {:induction false} FollowersAreWatched(defs: seq<ContainerDefinition>, container: string, taskArn: string,
                                               start: Time, end: Time, follow: bool, json: bool)
    ensures forall f :: f in Followers(defs, container, taskArn, start, end, follow, json) ==>
      exists i :: 0 <= i < |defs| && Watched(defs[i], container) && f == FollowerOf(defs[i], taskArn, start, end, follow, json)
    decreases |defs|
  {
    if defs != [] {
      var init := defs[..|defs| - 1];
      var c := defs[|defs| - 1];
      FollowersAreWatched(init, container, taskArn, start, end, follow, json);
      forall f | f in Followers(defs, container, taskArn, start, end, follow, json)
        ensures exists i :: 0 <= i < |defs| && Watched(defs[i], container)
                            && f == FollowerOf(defs[i], taskArn, start, end, follow, json)
      {
        if f in Followers(init, container, taskArn, start, end, follow, json) {
          var i :| 0 <= i < |init| && Watched(init[i], container)
                   && f == FollowerOf(init[i], taskArn, start, end, follow, json);
          assert defs[i] == init[i];
        } else {
          assert Watched(c, container) && f == FollowerOf(c, taskArn, start, end, follow, json);
        }
      }
    }
  }

  /** Every watched container is followed. */
  lemma {:induction false} WatchedAreFollowed(defs: seq<ContainerDefinition>, container: string, taskArn: string,
                                              start: Time, end: Time, follow: bool, json: bool)
    ensures forall i :: 0 <= i < |defs| && Watched(defs[i], container) ==>
      FollowerOf(defs[i], taskArn, start, end, follow, json) in Followers(defs, container, taskArn, start, end, follow, json)
    decreases |defs|
  {
    if defs != [] {
      var init := defs[..|defs| - 1];
      WatchedAreFollowed(init, container, taskArn, start, end, follow, json);
      forall i | 0 <= i < |defs| - 1 && Watched(defs[i], container)
        ensures FollowerOf(defs[i], taskArn, start, end, follow, json)
                in Followers(defs, container, taskArn, start, end, follow, json)
      {
        assert defs[i] == init[i];
      }
    }
  }

  /** The names of all containers, in order. */
  function DefinitionNames(defs: seq<ContainerDefinition>): (names: seq<string>)
    ensures |names| == |defs| && forall i :: 0 <= i < |defs| ==> names[i] == defs[i].name
  {
    seq(|defs|, i requires 0 <= i < |defs| => defs[i].name)
  }

  /** One more container definition adds its name, and its follower when watched. */
  lemma SelectionStep(defs: seq<ContainerDefinition>, i: nat, container: string, taskArn: string,
                      start: Time, end: Time, follow: bool, json: bool)
    requires i < |defs|
    ensures DefinitionNames(defs[..i + 1]) == DefinitionNames(defs[..i]) + [defs[i].name]
    ensures Followers(defs[..i + 1], container, taskArn, start, end, follow, json)
         == Followers(defs[..i], container, taskArn, start, end, follow, json)
            + (if Watched(defs[i], container) then [FollowerOf(defs[i], taskArn, start, end, follow, json)] else [])
  {
    assert defs[..i + 1][..i] == defs[..i];
  }

  /** The container loop of `RunLogs`: every name is collected, and a follower is
      started for each watched container. */
  method SelectContainers(defs: seq<ContainerDefinition>, container: string, taskArn: string,
                          start: Time, end: Time, follow: bool, json: bool)
    returns (names: seq<string>, follows: seq<FollowOption>)
    ensures names == DefinitionNames(defs)
    ensures follows == Followers(defs, container, taskArn, start, end, follow, json)
  {
    names, follows := [], [];
    for i := 0 to |defs|
      invariant names == DefinitionNames(defs[..i])
      invariant follows == Followers(defs[..i], container, taskArn, start, end, follow, json)
    {
      var c := defs[i];
      SelectionStep(defs, i, container, taskArn, start, end, follow, json);
      names := names + [c.name];
      if container != "" && container != c.name {
        continue;
      }
      if c.logConfiguration.None? {
        continue;
      }
      if c.logConfiguration.value.logDriver != AwslogsDriver {
        continue;
      }
      follows := follows + [FollowerOf(c, taskArn, start, end, follow, json)];
    }
    assert defs[..|defs|] == defs;
  }

  /** What the steps of `RunLogs` are told: the cluster chosen when none is set, the
      answers `findTask` works from, `DescribeTaskDefinition`'s container
      definitions, the clock and the time parser. */
  datatype LogsAnswers = LogsAnswers(
    selectedCluster: Result<string>,
    described: Result<seq<Task>>,
    listed: Result<seq<Task>>,
    formatter: Outcome,
    chosenTask: Result<string>,
    taskDefinition: Result<seq<ContainerDefinition>>,
    now: Time,
    parserReady: Outcome,
    parsed: Result<Time>)

  /** `RunLogs` up to the followers it starts (their paging is `FollowLogs`). A
      configured JSON output forces JSON lines; no watched container is an error
      that lists every container's name. */
  method RunLogs(app: App, opt: LogsOption, configOutput: string, a: LogsAnswers)
    returns (r: Outcome, follows: seq<FollowOption>)
    requires MinInt64 <= opt.duration <= MaxInt64
    modifies app`cluster
    ensures r.Pass? ==> app.cluster != ""
    ensures r.Pass? ==>
      var found := FindTask(FindOpt(opt.id, opt.family, opt.service, None), a.described, a.listed, a.formatter, a.chosenTask);
      var window := ResolveTimestamps(opt, a.now, a.parserReady, a.parsed);
      found.Ok? && a.taskDefinition.Ok? && window.Ok?
      && follows == Followers(a.taskDefinition.value, opt.container, found.value.taskArn, window.value.0,
                              window.value.1, opt.follow, opt.json || configOutput == "json")
      && |follows| > 0
    ensures r.Pass? ==> forall f :: f in follows ==> f.json == (opt.json || configOutput == "json")
    ensures old(app.cluster) == "" ==>
      (a.selectedCluster.Err? ==> r == Fail(a.selectedCluster.msg))
      && (a.selectedCluster == Ok("") ==> r == Fail("cluster not selected"))
    ensures app.cluster != "" ==>
      var found := FindTask(FindOpt(opt.id, opt.family, opt.service, None), a.described, a.listed, a.formatter, a.chosenTask);
      (found.Err? ==> r == Fail("failed to select tasks: " + found.msg))
      && (found.Ok? && a.taskDefinition.Err? ==> r == Fail("failed to describe task definition: " + a.taskDefinition.msg))
    ensures app.cluster != "" && a.taskDefinition.Ok?
            && FindTask(FindOpt(opt.id, opt.family, opt.service, None), a.described, a.listed, a.formatter, a.chosenTask).Ok?
            && ResolveTimestamps(opt, a.now, a.parserReady, a.parsed).Err? ==>
      r == Fail(ResolveTimestamps(opt, a.now, a.parserReady, a.parsed).msg)
    ensures app.cluster != "" && a.taskDefinition.Ok?
            && ResolveTimestamps(opt, a.now, a.parserReady, a.parsed).Ok?
            && FindTask(FindOpt(opt.id, opt.family, opt.service, None), a.described, a.listed, a.formatter, a.chosenTask).Ok? ==>
      (r.Pass? <==> exists i :: 0 <= i < |a.taskDefinition.value| && Watched(a.taskDefinition.value[i], opt.container))
    ensures r.Fail? && app.cluster != "" && a.taskDefinition.Ok?
            && ResolveTimestamps(opt, a.now, a.parserReady, a.parsed).Ok?
            && FindTask(FindOpt(opt.id, opt.family, opt.service, None), a.described, a.listed, a.formatter, a.chosenTask).Ok? ==>
      r == Fail("no logs found. available containers: " + Join(DefinitionNames(a.taskDefinition.value), ", "))
  {
    var json := opt.json || configOutput == "json";
    var clusterSet := app.SetCluster(a.selectedCluster);
    if clusterSet.Fail? {
      return clusterSet, [];
    }
    var found := FindTask(FindOpt(opt.id, opt.family, opt.service, None), a.described, a.listed, a.formatter, a.chosenTask);
    if found.Err? {
      return Fail("failed to select tasks: " + found.msg), [];
    }
    if a.taskDefinition.Err? {
      return Fail("failed to describe task definition: " + a.taskDefinition.msg), [];
    }
    var window := ResolveTimestamps(opt, a.now, a.parserReady, a.parsed);
    if window.Err? {
      return Fail(window.msg), [];
    }
    var names;
    names, follows := SelectContainers(a.taskDefinition.value, opt.container, found.value.taskArn,
                                       window.value.0, window.value.1, opt.follow, json);
    if |follows| == 0 {
      return Fail("no logs found. available containers: " + Join(names, ", ")), follows;
    }
    FollowersAreWatched(a.taskDefinition.value, opt.container, found.value.taskArn,
                        window.value.0, window.value.1, opt.follow, json);
    r := Pass;
  }

  // ---- following one log stream ----

  /** `followOption.Follow`: the stream is followed when asked to or when the window
      has no end. */
  predicate Follows(o: FollowOption) {
    o.follow || IsZero(o.endTime)
  }

  /** `logRecord`; `time` is the event's time already formatted. */
  datatype LogRecord = LogRecord(time: string, container: string, msg: string)

  /** `logTextEncoder.Encode`: the time, the container and the message joined by
      tabs, as one line. */
  function Encode(v: LogRecord): string {
    TsvLine([v.time, v.container, v.msg])
  }

  /** A record without tabs or newlines is written as one line whose tab-separated
      fields are the time, the container and the message. */
  lemma EncodeRoundTrip(v: LogRecord)
    requires NoTabOrNewline([v.time, v.container, v.msg])
    ensures var line := Encode(v);
      line[|line| - 1] == '\n' && '\n' !in line[..|line| - 1]
      && Split(line[..|line| - 1], '\t') == [v.time, v.container, v.msg]
  {
    TsvLineRoundTrip([v.time, v.container, v.msg]);
  }

  /** One `GetLogEvents` event; `timestamp` is in milliseconds since the epoch. */
  datatype LogEvent = LogEvent(timestamp: int, message: string)

  /** A `GetLogEvents` answer. */
  datatype EventsPage = EventsPage(events: seq<LogEvent>, nextForwardToken: Option<string>)

  /** One turn of the loop: the one-second sleep was cut short by cancellation, or
      `GetLogEvents` answered. */
  datatype Poll = Interrupted | Answered(page: Result<EventsPage>)

  /** The fields of `cloudwatchlogs.GetLogEventsInput` the program sets. */
  datatype EventsRequest = EventsRequest(
    logGroup: string,
    logStream: string,
    startTime: Option<int>,
    endTime: Option<int>,
    limit: int,
    nextToken: Option<string>)

  /** A line written for an event: its time, the container and the message. */
  datatype LogLine = LogLine(time: Time, container: string, msg: string)

  /** How following ends: cancelled, at an event after the window, at a page that
      brought no new token, or still polling when the given answers ran out. */
  datatype FollowEnd = Cancelled | PastEnd | NoNewEvents | Polling

  datatype FollowResult = FollowResult(sent: seq<EventsRequest>, lines: seq<LogLine>, end: FollowEnd)

  /** The first request: the window in milliseconds, its end only when not
      following. */
  function FirstRequest(o: FollowOption): (req: EventsRequest)
    ensures req.nextToken.None? && req.startTime == Some(TimeToMsec(o.startTime))
    ensures req.endTime.Some? <==> !Follows(o)
    ensures req.endTime.Some? ==> req.endTime.value == TimeToMsec(o.endTime)
    ensures req.logGroup == o.logGroup && req.logStream == o.logStream && req.limit == 1000
  {
    EventsRequest(o.logGroup, o.logStream, Some(TimeToMsec(o.startTime)),
                  if !Follows(o) then Some(TimeToMsec(o.endTime)) else None, 1000, None)
  }

  /** A request for the page after `token`, without a window. */
  function TokenRequest(o: FollowOption, token: Option<string>): EventsRequest {
    EventsRequest(o.logGroup, o.logStream, None, None, 1000, token)
  }

  /** `aws.ToString`: nil reads as "". */
  function ToString(s: Option<string>): string {
    if s.Some? then s.value else ""
  }

  /** An event after the window of a stream that is not followed. */
  predicate Late(o: FollowOption, e: LogEvent) {
    !Follows(o) && After(MsecToTime(e.timestamp), o.endTime)
  }

  /** The line written for an event. */
  function LineOf(o: FollowOption, e: LogEvent): LogLine {
    LogLine(MsecToTime(e.timestamp), o.containerName, e.message)
  }

  /** The lines written for one page, and whether an event after the window ended
      the loop: the lines of the events before the first late one, or of all the
      events when none is late. Only a stream that is not followed has a window end. */
  function PageLines(o: FollowOption, events: seq<LogEvent>): (r: (seq<LogLine>, bool))
    ensures |r.0| <= |events|
    ensures !r.1 ==> |r.0| == |events|
    ensures !Follows(o) ==> forall l :: l in r.0 ==> !After(l.time, o.endTime)
    ensures Follows(o) ==> !r.1 && |r.0| == |events|
    ensures forall l :: l in r.0 ==> l.container == o.containerName
    decreases |events|
  {
    if events == [] then ([], false)
    else
      var ts := MsecToTime(events[0].timestamp);
      if !Follows(o) && After(ts, o.endTime) then ([], true)
      else
        var rest := PageLines(o, events[1..]);
        ([LogLine(ts, o.containerName, events[0].message)] + rest.0, rest.1)
  }

  /** The lines of a page are the events before the first late one, each turned into
      its line; the page stops early exactly at a late event. */
  lemma {:induction false} PageLinesEach(o: FollowOption, events: seq<LogEvent>)
    ensures var r := PageLines(o, events);
      (forall k :: 0 <= k < |r.0| ==> !Late(o, events[k]) && r.0[k] == LineOf(o, events[k]))
      && (r.1 ==> |r.0| < |events| && Late(o, events[|r.0|]))
    decreases |events|
  {
    if events != [] && !Late(o, events[0]) {
      PageLinesEach(o, events[1..]);
      var r := PageLines(o, events);
      var rest := PageLines(o, events[1..]);
      assert r.0 == [LineOf(o, events[0])] + rest.0;
      forall k | 0 <= k < |r.0|
        ensures !Late(o, events[k]) && r.0[k] == LineOf(o, events[k])
      {
        if k > 0 {
          assert r.0[k] == rest.0[k - 1] && events[k] == events[1..][k - 1];
        }
      }
    }
  }

  /** A page ends the loop exactly when one of its events is late. */
  lemma PageLinesPast(o: FollowOption, events: seq<LogEvent>)
    ensures PageLines(o, events).1 <==> exists k :: 0 <= k < |events| && Late(o, events[k])
  {
    var r := PageLines(o, events);
    PageLinesEach(o, events);
    if r.1 {
      assert Late(o, events[|r.0|]);
    }
  }

  /** `r` preceded by one request and the lines written for its answer. */
  function Step(req: EventsRequest, lines: seq<LogLine>, r: FollowResult): FollowResult {
    r.(sent := [req] + r.sent, lines := lines + r.lines)
  }

  /** The loop of `followLogs` from the request `input` and the token `token`. Once
      a token is known, every request asks for the page after it. A failed call is
      retried. An event after the window ends the loop; so does a page whose
      forward token is the one just used, unless the stream is followed. */
  function FollowSteps(o: FollowOption, input: EventsRequest, token: Option<string>, polls: seq<Poll>)
    : (r: FollowResult)
    decreases |polls|
  {
    if polls == [] then FollowResult([], [], Polling)
    else match polls[0]
      case Interrupted => FollowResult([], [], Cancelled)
      case Answered(res) =>
        var req := if token.Some? then TokenRequest(o, token) else input;
        match res
        case Err(_) => Step(req, [], FollowSteps(o, req, token, polls[1..]))
        case Ok(page) =>
          var pl := PageLines(o, page.events);
          if pl.1 then FollowResult([req], pl.0, PastEnd)
          else if ToString(token) == ToString(page.nextForwardToken) then
            if !Follows(o) then FollowResult([req], pl.0, NoNewEvents)
            else Step(req, pl.0, FollowSteps(o, req, token, polls[1..]))
          else Step(req, pl.0, FollowSteps(o, req, page.nextForwardToken, polls[1..]))
  }

  /** One request per answered wait: never more requests than waits, and exactly as
      many when the loop is still polling. */
  lemma {:induction false} FollowStepsCount(o: FollowOption, input: EventsRequest, token: Option<string>,
                                            polls: seq<Poll>)
    ensures var r := FollowSteps(o, input, token, polls);
      |r.sent| <= |polls| && (r.end == Polling ==> |r.sent| == |polls|)
    decreases |polls|
  {
    if polls != [] && polls[0].Answered? {
      var req := if token.Some? then TokenRequest(o, token) else input;
      var res := polls[0].page;
      FollowStepsCount(o, req, token, polls[1..]);
      if res.Ok? {
        FollowStepsCount(o, req, res.value.nextForwardToken, polls[1..]);
      }
    }
  }

  /** A stream that is not followed writes nothing after its window, and only such a
      stream stops by itself; a followed stream stops only when cancelled. */
  lemma {:induction false} FollowStaysInWindow(o: FollowOption, input: EventsRequest, token: Option<string>,
                                               polls: seq<Poll>)
    ensures var r := FollowSteps(o, input, token, polls);
      (!Follows(o) ==> forall l :: l in r.lines ==> !After(l.time, o.endTime))
      && (Follows(o) ==> r.end == Cancelled || r.end == Polling)
    decreases |polls|
  {
    if polls != [] && polls[0].Answered? {
      var req := if token.Some? then TokenRequest(o, token) else input;
      var res := polls[0].page;
      FollowStaysInWindow(o, req, token, polls[1..]);
      if res.Ok? {
        FollowStaysInWindow(o, req, res.value.nextForwardToken, polls[1..]);
      }
    }
  }

  /** For a stream that is not followed, a page stops the loop after its one request:
      at its first late event, or, when none is late, when it brings back the token
      just used. */
  lemma FollowStopRule(o: FollowOption, input: EventsRequest, token: Option<string>, polls: seq<Poll>,
                       page: EventsPage)
    requires !Follows(o) && polls != [] && polls[0] == Answered(Ok(page))
    ensures var req := if token.Some? then TokenRequest(o, token) else input;
      var r := FollowSteps(o, input, token, polls);
      var pl := PageLines(o, page.events);
      ((exists k :: 0 <= k < |page.events| && Late(o, page.events[k])) ==>
         r.end == PastEnd && r.sent == [req] && r.lines == pl.0 && |pl.0| < |page.events|)
      && ((forall k :: 0 <= k < |page.events| ==> !Late(o, page.events[k]))
          && ToString(token) == ToString(page.nextForwardToken) ==>
            r.end == NoNewEvents && r.sent == [req] && r.lines == pl.0 && |pl.0| == |page.events|)
  {
    PageLinesPast(o, page.events);
    PageLinesEach(o, page.events);
  }

  /** `req` asks for the page after a token, without a window. */
  predicate IsTokenRequest(o: FollowOption, req: EventsRequest) {
    req == TokenRequest(o, req.nextToken)
  }

  /** The requests sent in the first turn and after it: the turn's request alone, or
      followed by those of the remaining turns (from that request and some token). */
  lemma {:induction false} FollowStepsSent(o: FollowOption, input: EventsRequest, token: Option<string>,
                                           polls: seq<Poll>)
    requires polls != [] && polls[0].Answered?
    ensures var req := if token.Some? then TokenRequest(o, token) else input;
      var r := FollowSteps(o, input, token, polls);
      var res := polls[0].page;
      var next := if res.Ok? then res.value.nextForwardToken else token;
      r.sent == [req]
      || r.sent == [req] + FollowSteps(o, req, token, polls[1..]).sent
      || r.sent == [req] + FollowSteps(o, req, next, polls[1..]).sent
  {
  }

  /** Every request is the first one or asks for the page after a token, without a
      window. */
  lemma {:induction false} FollowRequests(o: FollowOption, token: Option<string>, polls: seq<Poll>)
    ensures var r := FollowSteps(o, FirstRequest(o), token, polls);
      forall k :: 0 <= k < |r.sent| ==> r.sent[k] == FirstRequest(o) || IsTokenRequest(o, r.sent[k])
    decreases |polls|
  {
    if polls != [] && polls[0].Answered? {
      var res := polls[0].page;
      var next := if res.Ok? then res.value.nextForwardToken else token;
      FollowStepsSent(o, FirstRequest(o), token, polls);
      if token.Some? {
        TokenRequestsOnly(o, token, token, polls[1..]);
        TokenRequestsOnly(o, token, next, polls[1..]);
      } else {
        FollowRequests(o, token, polls[1..]);
        FollowRequests(o, next, polls[1..]);
      }
    }
  }

  /** After a token request, every request is a token request, even once a page
      comes back without a token (the last request is then sent again). */
  lemma {:induction false} TokenRequestsOnly(o: FollowOption, last: Option<string>, token: Option<string>,
                                             polls: seq<Poll>)
    ensures var r := FollowSteps(o, TokenRequest(o, last), token, polls);
      forall k :: 0 <= k < |r.sent| ==> IsTokenRequest(o, r.sent[k])
    decreases |polls|
  {
    if polls != [] && polls[0].Answered? {
      var res := polls[0].page;
      var next := if res.Ok? then res.value.nextForwardToken else token;
      var req := if token.Some? then TokenRequest(o, token) else TokenRequest(o, last);
      FollowStepsSent(o, TokenRequest(o, last), token, polls);
      assert req == TokenRequest(o, req.nextToken);
      TokenRequestsOnly(o, req.nextToken, token, polls[1..]);
      TokenRequestsOnly(o, req.nextToken, next, polls[1..]);
    }
  }

  /** Which request follows an answered turn that does not end the loop. After a
      page with a new forward token, the next request asks for the page after that
      token; after a failed call, after a page whose token is the one just used (on a
      followed stream), or after a page without a token, the same request is sent
      again. */
  lemma FollowNextRequest(o: FollowOption, input: EventsRequest, token: Option<string>, polls: seq<Poll>)
    requires |polls| >= 2 && polls[0].Answered? && polls[1].Answered?
    ensures var req := if token.Some? then TokenRequest(o, token) else input;
      var r := FollowSteps(o, input, token, polls);
      var res := polls[0].page;
      (res.Err? ==> |r.sent| >= 2 && r.sent[..2] == [req, req])
      && (res.Ok? && !PageLines(o, res.value.events).1 ==>
            var next := res.value.nextForwardToken;
            (ToString(token) != ToString(next) && next.Some? ==>
               |r.sent| >= 2 && r.sent[..2] == [req, TokenRequest(o, next)])
            && (ToString(token) != ToString(next) && next.None? ==>
               |r.sent| >= 2 && r.sent[..2] == [req, req])
            && (ToString(token) == ToString(next) && Follows(o) ==>
               |r.sent| >= 2 && r.sent[..2] == [req, req]))
  {
  }

  /** The lines written for the events before `i` are `lines`, and the rest of the page
      comes from the events from `i` on. */
  predicate PagedUpTo(o: FollowOption, events: seq<LogEvent>, i: nat, lines: seq<LogLine>)
    requires i <= |events|
  {
    var later := PageLines(o, events[i..]);
    PageLines(o, events) == (lines + later.0, later.1)
  }

  /** One event of the loop: it ends the page when it falls after the window of a
      stream that is not followed, and otherwise adds its line. */
  lemma PageLinesStep(o: FollowOption, events: seq<LogEvent>, i: nat, lines: seq<LogLine>)
    requires i < |events| && PagedUpTo(o, events, i, lines)
    ensures var ts := MsecToTime(events[i].timestamp);
      if !Follows(o) && After(ts, o.endTime) then PageLines(o, events) == (lines, true)
      else PagedUpTo(o, events, i + 1, lines + [LogLine(ts, o.containerName, events[i].message)])
  {
    assert events[i..][0] == events[i] && events[i..][1..] == events[i + 1..];
    var ts := MsecToTime(events[i].timestamp);
    var later := PageLines(o, events[i + 1..]);
    var line := LogLine(ts, o.containerName, events[i].message);
    if !Follows(o) && After(ts, o.endTime) {
      assert lines + [] == lines;
    } else {
      assert lines + ([line] + later.0) == (lines + [line]) + later.0;
    }
  }

  /** The events loop of one page: writes each event's line until one falls after
      the window of a stream that is not followed. */
  method PageEvents(o: FollowOption, events: seq<LogEvent>) returns (lines: seq<LogLine>, past: bool)
    ensures (lines, past) == PageLines(o, events)
  {
    lines := [];
    var i := 0;
    assert events[0..] == events;
    assert [] + PageLines(o, events).0 == PageLines(o, events).0;
    while i < |events|
      invariant 0 <= i <= |events| && PagedUpTo(o, events, i, lines)
    {
      PageLinesStep(o, events, i, lines);
      var ts := MsecToTime(events[i].timestamp);
      if !Follows(o) && After(ts, o.endTime) {
        return lines, true;
      }
      lines := lines + [LogLine(ts, o.containerName, events[i].message)];
      i := i + 1;
    }
    assert events[i..] == [] && lines + [] == lines;
    past := false;
  }

  /** `r` preceded by the requests and lines already done. */
  function Glued(sent: seq<EventsRequest>, lines: seq<LogLine>, r: FollowResult): FollowResult {
    r.(sent := sent + r.sent, lines := lines + r.lines)
  }

  lemma GluedStep(sent: seq<EventsRequest>, lines: seq<LogLine>, req: EventsRequest, more: seq<LogLine>,
                  r: FollowResult)
    ensures Glued(sent, lines, Step(req, more, r)) == Glued(sent + [req], lines + more, r)
  {
    assert sent + ([req] + r.sent) == (sent + [req]) + r.sent;
    assert lines + (more + r.lines) == (lines + more) + r.lines;
  }

  /** `followLogs`, turn by turn. */
  method FollowLogs(o: FollowOption, polls0: seq<Poll>) returns (r: FollowResult)
    ensures r == FollowSteps(o, FirstRequest(o), None, polls0)
  {
    var input := FirstRequest(o);
    var nextToken: Option<string> := None;
    var polls := polls0;
    var sent, lines := [], [];
    while polls != []
      invariant FollowSteps(o, FirstRequest(o), None, polls0) == Glued(sent, lines, FollowSteps(o, input, nextToken, polls))
      decreases |polls|
    {
      if polls[0].Interrupted? {
        return FollowResult(sent, lines, Cancelled);
      }
      if nextToken.Some? {
        input := TokenRequest(o, nextToken);
      }
      var res := polls[0].page;
      if res.Err? {
        ghost var q := FollowSteps(o, input, nextToken, polls[1..]);
        GluedStep(sent, lines, input, [], q);
        sent, polls := sent + [input], polls[1..];
        continue;
      }
      var page := res.value;
      var more, past := PageEvents(o, page.events);
      if past {
        return FollowResult(sent + [input], lines + more, PastEnd);
      }
      if ToString(nextToken) == ToString(page.nextForwardToken) {
        if !Follows(o) {
          return FollowResult(sent + [input], lines + more, NoNewEvents);
        }
        ghost var q := FollowSteps(o, input, nextToken, polls[1..]);
        GluedStep(sent, lines, input, more, q);
        sent, lines, polls := sent + [input], lines + more, polls[1..];
        continue;
      }
      ghost var q := FollowSteps(o, input, page.nextForwardToken, polls[1..]);
      GluedStep(sent, lines, input, more, q);
      sent, lines, polls := sent + [input], lines + more, polls[1..];
      nextToken := page.nextForwardToken;
    }
    return FollowResult(sent, lines, Polling);
  }
}
