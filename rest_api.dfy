/** The Docker build API (rest-api/index.js): sockets join rooms named by a project
    id, and a build request runs the build-server image, forwarding its log lines and
    status updates to the room of the upper-cased project id. The server's observable
    behaviour is its room table and the trace of Docker calls and room emits it makes. */
module RestApi {
  import opened JsText
  import opened RestUtils

  type SocketId = string

  /** The payload of an event sent to a room. */
  datatype Event =
    | Log(message: string)
    | BuildStatus(status: string, buildId: string, statusCode: Option<int>, error: Option<string>)

  /** One observable step of the server, in the order taken: an emit to a room (with
      the sockets in the room at that moment) or a completed Docker call. */
  datatype Step =
    | Emitted(room: string, recipients: set<SocketId>, event: Event)
    | Created(env: seq<string>)
    | Started
    | Waited
    | Removed

  /** How Docker answers each call made for one build: an error message where a call
      throws, the chunks of the container's log stream and how that stream ends, and
      the exit code `wait` reports. */
  datatype Container = Container(
    createError: Option<string>,
    startError: Option<string>,
    logsError: Option<string>,
    chunks: seq<string>,
    streamEnd: StreamEnd,
    waitError: Option<string>,
    statusCode: int,
    removeError: Option<string>)

  /** The JSON reply of the build route. */
  datatype Reply =
    | Built(buildId: string, success: bool, statusCode: int)
    | Failed(details: string, buildId: string)
  {
    function Status(): int {
      if Built? then 200 else 500
    }
  }

  const RequiredR2Env: seq<string> := ["R2_ACCOUNT_ID", "R2_ACCESS_KEY_ID", "R2_SECRET_ACCESS_KEY", "R2_BUCKET_NAME"]

  function Members(rooms: map<string, set<SocketId>>, room: string): set<SocketId> {
    if room in rooms then rooms[room] else {}
  }

  /** `process.env[name]` is set to a non-empty value. */
  predicate EnvSet(env: map<string, string>, name: string) {
    name in env && env[name] != ""
  }

  /** The required variables that are unset or empty, in order. */
  function MissingEnv(env: map<string, string>, names: seq<string>): (r: seq<string>)
    ensures forall i :: 0 <= i < |r| ==> r[i] in names && !EnvSet(env, r[i])
    ensures forall i :: 0 <= i < |names| && !EnvSet(env, names[i]) ==> names[i] in r
    ensures r == [] <==> forall i :: 0 <= i < |names| ==> EnvSet(env, names[i])
  {
    if names == [] then []
    else
      var rest := MissingEnv(env, names[1..]);
      if EnvSet(env, names[0]) then rest else [names[0]] + rest
  }

  /** The missing names keep the order of the list they are drawn from. */
  lemma {:induction false} MissingEnvAppend(env: map<string, string>, a: seq<string>, b: seq<string>)
    ensures MissingEnv(env, a + b) == MissingEnv(env, a) + MissingEnv(env, b)
  {
    if a == [] {
      assert a + b == b;
    } else {
      assert (a + b)[1..] == a[1..] + b;
      MissingEnvAppend(env, a[1..], b);
    }
  }

  function JoinedBy(parts: seq<string>, sep: string): string {
    if parts == [] then ""
    else if |parts| == 1 then parts[0]
    else parts[0] + sep + JoinedBy(parts[1..], sep)
  }

  /** The container's environment: the repository, the upper-cased project id and the
      four bucket variables. */
  function ContainerEnv(gitRepoUrl: string, projectName: string, env: map<string, string>): (r: seq<string>)
    requires forall i :: 0 <= i < |RequiredR2Env| ==> RequiredR2Env[i] in env
    ensures |r| == 6 && r[0] == "GIT_REPO_URL=" + gitRepoUrl && r[1] == "PROJECT_ID=" + projectName
    ensures forall i :: 0 <= i < 4 ==> r[i + 2] == RequiredR2Env[i] + "=" + env[RequiredR2Env[i]]
  {
    ["GIT_REPO_URL=" + gitRepoUrl, "PROJECT_ID=" + projectName]
      + seq(4, i requires 0 <= i < 4 => RequiredR2Env[i] + "=" + env[RequiredR2Env[i]])
  }

  /** One `log` emit per line, in order, to the same room and recipients. */
  function LogEmits(room: string, to: set<SocketId>, lines: seq<string>): (r: seq<Step>)
    ensures |r| == |lines|
    ensures forall i :: 0 <= i < |r| ==> r[i] == Emitted(room, to, Log(lines[i]))
  {
    seq(|lines|, i requires 0 <= i < |lines| => Emitted(room, to, Log(lines[i])))
  }

  lemma LogEmitsSnoc(room: string, to: set<SocketId>, lines: seq<string>, line: string)
    ensures LogEmits(room, to, lines + [line]) == LogEmits(room, to, lines) + [Emitted(room, to, Log(line))]
  {
  }

  datatype Run = Run(steps: seq<Step>, reply: Reply)

  /** A run with `steps` taken first. */
  function After(steps: seq<Step>, run: Run): (r: Run)
    ensures r.steps == steps + run.steps && r.reply == run.reply
  {
    Run(steps + run.steps, run.reply)
  }

  /** The build route once validation has passed: the steps it takes and its reply. */
  function BuildRun(rooms: map<string, set<SocketId>>, gitRepoUrl: string, projectId: string,
                    env: map<string, string>, c: Container, buildId: string): Run
  {
    var room := ToUpper(projectId);
    var to := Members(rooms, room);
    var missing := MissingEnv(env, RequiredR2Env);
    if missing != [] then
      ErrorRun(room, to, buildId, [], "Missing environment variables: " + JoinedBy(missing, ", "))
    else if c.createError.Some? then ErrorRun(room, to, buildId, [], c.createError.value)
    else After([Created(ContainerEnv(gitRepoUrl, room, env))], StartRun(room, to, c, buildId))
  }

  /** From `container.start()` on. */
  function StartRun(room: string, to: set<SocketId>, c: Container, buildId: string): Run {
    if c.startError.Some? then ErrorRun(room, to, buildId, [], c.startError.value)
    else After([Started, Emitted(room, to, BuildStatus("started", buildId, None, None))], FollowRun(room, to, c, buildId))
  }

  /** From the log stream on. */
  function FollowRun(room: string, to: set<SocketId>, c: Container, buildId: string): Run {
    if c.logsError.Some? then ErrorRun(room, to, buildId, [], c.logsError.value)
    else After(LogEmits(room, to, Lines(c.chunks)), FinishRun(room, to, c, buildId))
  }

  /** From the end of the log stream on. */
  function FinishRun(room: string, to: set<SocketId>, c: Container, buildId: string): Run {
    if c.streamEnd.Errored? then ErrorRun(room, to, buildId, [], c.streamEnd.message)
    else if c.waitError.Some? then ErrorRun(room, to, buildId, [], c.waitError.value)
    else if c.removeError.Some? then ErrorRun(room, to, buildId, [Waited], c.removeError.value)
    else
      var success := c.statusCode == 0;
      var final := BuildStatus(if success then "success" else "failed", buildId, Some(c.statusCode), None);
      Run([Waited, Removed, Emitted(room, to, final)], Built(buildId, success, c.statusCode))
  }

  /** The catch block: an `error` status to the room, then a 500 reply. */
  function ErrorRun(room: string, to: set<SocketId>, buildId: string, before: seq<Step>, message: string): (r: Run)
    ensures r.steps == before + [Emitted(room, to, BuildStatus("error", buildId, None, Some(message)))]
    ensures r.reply == Failed(message, buildId) && r.reply.Status() == 500
  {
    Run(before + [Emitted(room, to, BuildStatus("error", buildId, None, Some(message)))], Failed(message, buildId))
  }

  predicate NoFailure(c: Container) {
    c.createError.None? && c.startError.None? && c.logsError.None? && c.streamEnd.Ended?
    && c.waitError.None? && c.removeError.None?
  }

  /** Every emit of a build goes to the room of the upper-cased project id. */
  lemma BuildEmitsToUpperCasedRoom(rooms: map<string, set<SocketId>>, gitRepoUrl: string, projectId: string,
                                   env: map<string, string>, c: Container, buildId: string)
    ensures var steps := BuildRun(rooms, gitRepoUrl, projectId, env, c, buildId).steps;
      forall i :: 0 <= i < |steps| && steps[i].Emitted? ==>
        steps[i].room == ToUpper(projectId) && steps[i].recipients == Members(rooms, ToUpper(projectId))
  {
    var room := ToUpper(projectId);
    var to := Members(rooms, room);
    var missing := MissingEnv(env, RequiredR2Env);
    if missing == [] && c.createError.None? {
      RunsEmitOnlyTo(room, to, c, buildId);
      EmitsOnlyToConcat([Created(ContainerEnv(gitRepoUrl, room, env))], StartRun(room, to, c, buildId).steps, room, to);
    }
  }

  /** Every emit among `steps` goes to `room`, delivered to `to`. */
  predicate EmitsOnlyTo(steps: seq<Step>, room: string, to: set<SocketId>) {
    forall i :: 0 <= i < |steps| && steps[i].Emitted? ==> steps[i].room == room && steps[i].recipients == to
  }

  lemma EmitsOnlyToConcat(a: seq<Step>, b: seq<Step>, room: string, to: set<SocketId>)
    requires EmitsOnlyTo(a, room, to) && EmitsOnlyTo(b, room, to)
    ensures EmitsOnlyTo(a + b, room, to)
  {
    forall i | 0 <= i < |a + b| && (a + b)[i].Emitted?
      ensures (a + b)[i].room == room && (a + b)[i].recipients == to
    {
      if i < |a| {
        assert (a + b)[i] == a[i];
      } else {
        assert (a + b)[i] == b[i - |a|];
      }
    }
  }

  /** Each stage of a started build emits only to its room. */
  lemma RunsEmitOnlyTo(room: string, to: set<SocketId>, c: Container, buildId: string)
    ensures EmitsOnlyTo(FinishRun(room, to, c, buildId).steps, room, to)
    ensures EmitsOnlyTo(FollowRun(room, to, c, buildId).steps, room, to)
    ensures EmitsOnlyTo(StartRun(room, to, c, buildId).steps, room, to)
  {
    var finish := FinishRun(room, to, c, buildId);
    assert EmitsOnlyTo(finish.steps, room, to);
    if c.logsError.None? {
      EmitsOnlyToConcat(LogEmits(room, to, Lines(c.chunks)), finish.steps, room, to);
    }
    if c.startError.None? {
      var first := [Started, Emitted(room, to, BuildStatus("started", buildId, None, None))];
      EmitsOnlyToConcat(first, FollowRun(room, to, c, buildId).steps, room, to);
    }
  }

  /** So a socket that is not in the room of the upper-cased project id (one that
      joined with the id as typed, lower-case letters and all) hears nothing of the
      build. */
  lemma RawIdJoinerHearsNothing(rooms: map<string, set<SocketId>>, gitRepoUrl: string, projectId: string,
                                env: map<string, string>, c: Container, buildId: string, socket: SocketId)
    requires socket !in Members(rooms, ToUpper(projectId))
    ensures var steps := BuildRun(rooms, gitRepoUrl, projectId, env, c, buildId).steps;
      forall i :: 0 <= i < |steps| && steps[i].Emitted? ==> socket !in steps[i].recipients
  {
    BuildEmitsToUpperCasedRoom(rooms, gitRepoUrl, projectId, env, c, buildId);
  }

  /** A missing bucket variable ends the route before any container is created. */
  lemma MissingEnvCreatesNoContainer(rooms: map<string, set<SocketId>>, gitRepoUrl: string, projectId: string,
                                     env: map<string, string>, c: Container, buildId: string)
    requires exists i :: 0 <= i < |RequiredR2Env| && !EnvSet(env, RequiredR2Env[i])
    ensures var run := BuildRun(rooms, gitRepoUrl, projectId, env, c, buildId);
      |run.steps| == 1 && run.steps[0].Emitted? && run.steps[0].event.BuildStatus?
      && run.steps[0].event.status == "error" && run.reply.Status() == 500
  {
  }

  /** The success path: started, the log lines, wait, removal, final status; the
      build succeeded exactly when the exit code is 0, and the reply is 200 either way. */
  lemma SuccessPathOrder(rooms: map<string, set<SocketId>>, gitRepoUrl: string, projectId: string,
                         env: map<string, string>, c: Container, buildId: string)
    requires MissingEnv(env, RequiredR2Env) == [] && NoFailure(c)
    ensures var room := ToUpper(projectId);
      var to := Members(rooms, room);
      var run := BuildRun(rooms, gitRepoUrl, projectId, env, c, buildId);
      && run.steps ==
           [Created(ContainerEnv(gitRepoUrl, room, env)), Started,
            Emitted(room, to, BuildStatus("started", buildId, None, None))]
           + LogEmits(room, to, Lines(c.chunks))
           + [Waited, Removed,
              Emitted(room, to, BuildStatus(if c.statusCode == 0 then "success" else "failed",
                                            buildId, Some(c.statusCode), None))]
      && run.reply == Built(buildId, c.statusCode == 0, c.statusCode)
      && run.reply.Status() == 200
  {
    var room := ToUpper(projectId);
    var to := Members(rooms, room);
    var created := [Created(ContainerEnv(gitRepoUrl, room, env)), Started,
                    Emitted(room, to, BuildStatus("started", buildId, None, None))];
    var logs := LogEmits(room, to, Lines(c.chunks));
    var finish := FinishRun(room, to, c, buildId).steps;
    assert BuildRun(rooms, gitRepoUrl, projectId, env, c, buildId).steps
        == [created[0]] + (created[1..] + (logs + finish));
    Regroup(created, logs, finish);
  }

  lemma Regroup<T>(front: seq<T>, middle: seq<T>, back: seq<T>)
    requires front != []
    ensures [front[0]] + (front[1..] + (middle + back)) == front + middle + back
  {
    assert [front[0]] + front[1..] == front;
  }

  /** Any failure ends with an `error` emit and a 500 reply, and the container is then
      never removed. */
  lemma FailureSkipsRemoval(rooms: map<string, set<SocketId>>, gitRepoUrl: string, projectId: string,
                            env: map<string, string>, c: Container, buildId: string)
    requires MissingEnv(env, RequiredR2Env) != [] || !NoFailure(c)
    ensures var run := BuildRun(rooms, gitRepoUrl, projectId, env, c, buildId);
      && run.reply.Failed? && run.reply.Status() == 500
      && Removed !in run.steps
      && run.steps[|run.steps| - 1].Emitted?
      && run.steps[|run.steps| - 1].event.BuildStatus?
      && run.steps[|run.steps| - 1].event.status == "error"
  {
    var room := ToUpper(projectId);
    var to := Members(rooms, room);
    if MissingEnv(env, RequiredR2Env) == [] && c.createError.None? {
      StartRunFails(room, to, c, buildId);
      FailedAfter([Created(ContainerEnv(gitRepoUrl, room, env))], StartRun(room, to, c, buildId));
    }
  }

  /** A run that ends in the catch block: a 500 reply, no removal, and an `error`
      status as its last step. */
  predicate EndsInError(run: Run) {
    && run.reply.Failed? && run.reply.Status() == 500
    && Removed !in run.steps
    && run.steps != []
    && run.steps[|run.steps| - 1].Emitted?
    && run.steps[|run.steps| - 1].event.BuildStatus?
    && run.steps[|run.steps| - 1].event.status == "error"
  }

  lemma FailedAfter(steps: seq<Step>, run: Run)
    requires Removed !in steps && EndsInError(run)
    ensures EndsInError(After(steps, run))
  {
    var all := After(steps, run).steps;
    assert all[|all| - 1] == run.steps[|run.steps| - 1];
  }

  /** Once started, a build that meets any failure ends in the catch block. */
  lemma StartRunFails(room: string, to: set<SocketId>, c: Container, buildId: string)
    requires !NoFailure(c) && c.createError.None?
    ensures EndsInError(StartRun(room, to, c, buildId))
  {
    if c.startError.None? {
      FollowRunFails(room, to, c, buildId);
      var first := [Started, Emitted(room, to, BuildStatus("started", buildId, None, None))];
      FailedAfter(first, FollowRun(room, to, c, buildId));
    }
  }

  lemma FollowRunFails(room: string, to: set<SocketId>, c: Container, buildId: string)
    requires c.logsError.Some? || c.streamEnd.Errored? || c.waitError.Some? || c.removeError.Some?
    ensures EndsInError(FollowRun(room, to, c, buildId))
  {
    if c.logsError.None? {
      FinishRunFails(room, to, c, buildId);
      var logs := LogEmits(room, to, Lines(c.chunks));
      assert Removed !in logs by {
        forall i | 0 <= i < |logs| ensures logs[i] != Removed {
          assert logs[i].Emitted?;
        }
      }
      FailedAfter(logs, FinishRun(room, to, c, buildId));
    }
  }

  lemma FinishRunFails(room: string, to: set<SocketId>, c: Container, buildId: string)
    requires c.streamEnd.Errored? || c.waitError.Some? || c.removeError.Some?
    ensures EndsInError(FinishRun(room, to, c, buildId))
  {
    var run := FinishRun(room, to, c, buildId);
    assert run.steps[|run.steps| - 1].Emitted?;
  }

  /** The server: its room table and everything it has done so far. */
  class Server {
    var rooms: map<string, set<SocketId>>
    var trace: seq<Step>

    constructor()
      ensures rooms == map[] && trace == []
    {
      rooms := map[];
      trace := [];
    }

    function Room(name: string): set<SocketId>
      reads this
    {
      Members(rooms, name)
    }

    /** `joinProject`: the socket joins the room named exactly by the string it sent. */
    method JoinProject(socket: SocketId, projectId: string)
      modifies this
      ensures rooms == old(rooms)[projectId := old(Room(projectId)) + {socket}]
      ensures trace == old(trace)
    {
      rooms := rooms[projectId := Room(projectId) + {socket}];
    }

    /** `io.to(room).emit(...)`: delivered to the sockets in the room now. */
    method Emit(room: string, event: Event)
      modifies this
      ensures rooms == old(rooms)
      ensures trace == old(trace) + [Emitted(room, old(Room(room)), event)]
    {
      trace := trace + [Emitted(room, Room(room), event)];
    }

    /** `streamLogs`: the log lines are emitted as they arrive; the result is the
        error that ends the stream, if any. */
    method StreamLogs(room: string, c: Container) returns (failure: Option<string>)
      modifies this
      ensures rooms == old(rooms)
      ensures c.logsError.Some? ==> failure == c.logsError && trace == old(trace)
      ensures c.logsError.None? ==>
        && trace == old(trace) + LogEmits(room, old(Room(room)), Lines(c.chunks))
        && failure == (if c.streamEnd.Errored? then Some(c.streamEnd.message) else None)
    {
      if c.logsError.Some? {
        return c.logsError;
      }
      EmitLines(room, c.chunks);
      failure := if c.streamEnd.Errored? then Some(c.streamEnd.message) else None;
    }

    /** The `data` handler of `streamLogs`: one `log` emit per chunk whose trimmed
        text is not empty, carrying that text, in arrival order. */
    method EmitLines(room: string, chunks: seq<string>)
      modifies this
      ensures rooms == old(rooms)
      ensures trace == old(trace) + LogEmits(room, old(Room(room)), Lines(chunks))
    {
      ghost var start := trace;
      var to := Room(room);
      var i := 0;
      ghost var lines: seq<string> := [];
      while i < |chunks|
        invariant 0 <= i <= |chunks|
        invariant rooms == old(rooms)
        invariant lines == Lines(chunks[..i])
        invariant trace == start + LogEmits(room, to, lines)
      {
        LinesStep(chunks, i);
        var logLine := Trim(chunks[i]);
        if logLine != "" {
          ghost var e := Emitted(room, to, Log(logLine));
          LogEmitsSnoc(room, to, lines, logLine);
          AppendAssoc(start, LogEmits(room, to, lines), [e]);
          Emit(room, Log(logLine));
          lines := lines + [logLine];
        }
        i := i + 1;
      }
      TakeAll(chunks);
    }

    /** The catch block of the build route. */
    method ReportError(room: string, buildId: string, message: string) returns (reply: Reply)
      modifies this
      ensures rooms == old(rooms)
      ensures trace == old(trace) + [Emitted(room, old(Room(room)), BuildStatus("error", buildId, None, Some(message)))]
      ensures reply == Failed(message, buildId)
    {
      Emit(room, BuildStatus("error", buildId, None, Some(message)));
      reply := Failed(message, buildId);
    }

    /** The `/api/build` route after validation; `buildId` is the random build id. */
    method Build(gitRepoUrl: string, projectId: string, env: map<string, string>, c: Container, buildId: string)
      returns (reply: Reply)
      modifies this
      ensures rooms == old(rooms)
      ensures var run := BuildRun(old(rooms), gitRepoUrl, projectId, env, c, buildId);
        trace == old(trace) + run.steps && reply == run.reply
    {
      var projectName := ToUpper(projectId);
      ghost var to := Room(projectName);
      ghost var run := BuildRun(rooms, gitRepoUrl, projectId, env, c, buildId);
      var missing := MissingEnv(env, RequiredR2Env);
      if missing != [] {
        var message := "Missing environment variables: " + JoinedBy(missing, ", ");
        assert run == ErrorRun(projectName, to, buildId, [], message);
        reply := ReportError(projectName, buildId, message);
        return;
      }
      if c.createError.Some? {
        assert run == ErrorRun(projectName, to, buildId, [], c.createError.value);
        reply := ReportError(projectName, buildId, c.createError.value);
        return;
      }
      var created := Created(ContainerEnv(gitRepoUrl, projectName, env));
      ghost var start := StartRun(projectName, to, c, buildId);
      assert run.steps == [created] + start.steps && run.reply == start.reply;
      trace := trace + [created];
      reply := Start(projectName, c, buildId);
      assert trace == old(trace) + [created] + start.steps;
      AppendAssoc(old(trace), [created], start.steps);
    }

    /** From `container.start()` on. */
    method Start(room: string, c: Container, buildId: string) returns (reply: Reply)
      modifies this
      ensures rooms == old(rooms)
      ensures var run := StartRun(room, old(Room(room)), c, buildId);
        trace == old(trace) + run.steps && reply == run.reply
    {
      if c.startError.Some? {
        reply := ReportError(room, buildId, c.startError.value);
        return;
      }
      trace := trace + [Started];
      Emit(room, BuildStatus("started", buildId, None, None));
      ghost var mid := trace;
      reply := Follow(room, c, buildId);
      ghost var first := [Started, Emitted(room, Room(room), BuildStatus("started", buildId, None, None))];
      assert mid == old(trace) + first;
      AppendAssoc(old(trace), first, FollowRun(room, Room(room), c, buildId).steps);
    }

    /** From the log stream on. */
    method Follow(room: string, c: Container, buildId: string) returns (reply: Reply)
      modifies this
      ensures rooms == old(rooms)
      ensures var run := FollowRun(room, old(Room(room)), c, buildId);
        trace == old(trace) + run.steps && reply == run.reply
    {
      var failure := StreamLogs(room, c);
      if c.logsError.Some? {
        reply := ReportError(room, buildId, failure.value);
        return;
      }
      ghost var to := Members(rooms, room);
      ghost var logs := LogEmits(room, to, Lines(c.chunks));
      assert trace == old(trace) + logs;
      reply := Finish(room, c, buildId);
      ghost var finish := FinishRun(room, to, c, buildId);
      assert trace == old(trace) + logs + finish.steps;
      AppendAssoc(old(trace), logs, finish.steps);
    }

    /** From the end of the log stream on: wait, remove, report. */
    method Finish(room: string, c: Container, buildId: string) returns (reply: Reply)
      modifies this
      ensures rooms == old(rooms)
      ensures var run := FinishRun(room, old(Room(room)), c, buildId);
        trace == old(trace) + run.steps && reply == run.reply
    {
      if c.streamEnd.Errored? {
        reply := ReportError(room, buildId, c.streamEnd.message);
        return;
      }
      if c.waitError.Some? {
        reply := ReportError(room, buildId, c.waitError.value);
        return;
      }
      trace := trace + [Waited];
      if c.removeError.Some? {
        reply := ReportError(room, buildId, c.removeError.value);
        return;
      }
      trace := trace + [Removed];
      var success := c.statusCode == 0;
      Emit(room, BuildStatus(if success then "success" else "failed", buildId, Some(c.statusCode), None));
      reply := Built(buildId, success, c.statusCode);
    }
  }
}
