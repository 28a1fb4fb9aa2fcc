/** The deploy routes of the backend (packages/backend/src/routes/deploy.ts): POST
    creates a deployment record as `pending`, triggers the build job and moves the
    record to `building` or `failed`; GET returns one record of the calling user. The
    deployments table is a class over a map from ids to records; the GitHub lookup, the
    job trigger and `Math.random` are inputs. */
module Deploy {
  import opened JsText

  /** The `deployment_status` enum (packages/backend/src/db/schema.ts). */
  datatype Status = Pending | Building | Deployed | Failed

  /** The transitions the record lifecycle is designed to allow:
      pending, then building, then deployed or failed; or pending straight to failed
      when the build job is not accepted. */
  predicate DesignEdge(from: Status, to: Status) {
    || (from == Pending && (to == Building || to == Failed))
    || (from == Building && (to == Deployed || to == Failed))
  }

  datatype Deployment = Deployment(
    userId: nat,
    projectName: string,
    repoFullName: string,
    repoCloneUrl: string,
    defaultBranch: string,
    status: Status,
    deployUrl: string,
    buildLogs: Option<string>,
    cloudRunJobName: Option<string>)

  datatype User = User(id: nat, accessToken: string)
  datatype Repo = Repo(cloneUrl: string, defaultBranch: string)
  datatype DeployBody = DeployBody(
    repoFullName: string, projectName: string,
    nodeVersion: Option<string>, buildCmd: Option<string>, branch: Option<string>)

  /** The process environment the routes read; an unset variable is None. */
  datatype Config = Config(project: Option<string>, location: Option<string>, jobName: Option<string>, deployDomain: Option<string>)

  datatype EnvVar = EnvVar(name: string, value: string)
  datatype JobRequest = JobRequest(name: string, env: seq<EnvVar>)

  /** What `client.runJob` does: returns an operation (with or without a name) or throws
      an error whose text is given. */
  datatype Trigger = Accepted(operationName: Option<string>) | Threw(error: string)

  /* ------------------------------------------------------------- random keys */

  const Alphabet := "abcdefghijklmnopqrstuvwxyz0123456789"

  predicate IsBase36Digit(c: char) {
    IsDigit(c) || IsLowerAscii(c)
  }

  /** `Math.random().toString(36)`: "0" for zero, otherwise "0." and the base-36
      digits of the fraction. */
  function RandomText(fraction: string): string {
    if fraction == [] then "0" else "0." + fraction
  }

  /** `generateShortId`: characters 2 to 8 of the random text. */
  function ShortId(fraction: string): (r: string)
    requires forall i :: 0 <= i < |fraction| ==> IsBase36Digit(fraction[i])
    ensures |r| <= 6
    ensures forall i :: 0 <= i < |r| ==> IsBase36Digit(r[i])
    ensures |fraction| >= 6 ==> |r| == 6 && r == fraction[..6]
  {
    var text := RandomText(fraction);
    var r := Substring(text, 2, 8);
    assert forall i :: 0 <= i < |r| ==> r[i] == text[2 + i];
    assert fraction != [] ==> forall i :: 2 <= i < |text| ==> text[i] == fraction[i - 2];
    r
  }

  /** `generateR2BasePath`: twelve characters, each drawn from the lower-case letters
      and digits. */
  method GenerateR2BasePath() returns (result: string)
    ensures |result| == 12
    ensures forall i :: 0 <= i < |result| ==> result[i] in Alphabet
    ensures forall i :: 0 <= i < |result| ==> IsBase36Digit(result[i]) && result[i] != '-'
  {
    result := "";
    var i := 0;
    while i < 12
      invariant 0 <= i <= 12 && |result| == i
      invariant forall j :: 0 <= j < i ==> result[j] in Alphabet
    {
      var pick :| 0 <= pick < |Alphabet|;
      result := result + [Alphabet[pick]];
      i := i + 1;
    }
    forall j | 0 <= j < |result|
      ensures IsBase36Digit(result[j]) && result[j] != '-'
    {
      AlphabetIsBase36(result[j]);
    }
  }

  /** Every character of the alphabet is a lower-case letter or a digit. */
  lemma AlphabetIsBase36(c: char)
    requires c in Alphabet
    ensures IsBase36Digit(c) && c != '-'
  {
    var k :| 0 <= k < |Alphabet| && Alphabet[k] == c;
  }

  /* ------------------------------------------------------------ the records */

  /** A template literal of an environment variable: "undefined" when unset. */
  function EnvText(v: Option<string>): string {
    if v.Some? then v.value else "undefined"
  }

  function DeployUrl(projectName: string, shortId: string, cfg: Config): string {
    "https://" + projectName + "-" + shortId + "." + EnvText(cfg.deployDomain)
  }

  /** The record POST inserts. */
  function Created(user: User, body: DeployBody, repo: Repo, shortId: string, cfg: Config): (d: Deployment)
    ensures d.status == Pending && d.userId == user.id
    ensures d.deployUrl == "https://" + body.projectName + "-" + shortId + "." + EnvText(cfg.deployDomain)
    ensures d.buildLogs.None? && d.cloudRunJobName.None?
  {
    Deployment(user.id, body.projectName, body.repoFullName, repo.cloneUrl, repo.defaultBranch,
               Pending, DeployUrl(body.projectName, shortId, cfg), None, None)
  }

  const JobStarted := "Build job started...\n"

  /** The record once the trigger has settled. */
  function AfterTrigger(d: Deployment, trigger: Trigger): (r: Deployment)
    ensures r.status == (if trigger.Threw? then Failed else Building)
    ensures trigger.Threw? ==> r.buildLogs == Some("Failed to start build: " + trigger.error)
    ensures trigger.Accepted? && Truthy(trigger.operationName) ==>
      r.cloudRunJobName == trigger.operationName && r.buildLogs == Some(JobStarted)
    ensures trigger.Accepted? && !Truthy(trigger.operationName) ==>
      r.cloudRunJobName == d.cloudRunJobName && r.buildLogs == d.buildLogs
    ensures r.userId == d.userId && r.deployUrl == d.deployUrl && r.projectName == d.projectName
  {
    match trigger
    case Threw(e) => d.(status := Failed, buildLogs := Some("Failed to start build: " + e))
    case Accepted(op) =>
      var named := if Truthy(op) then d.(cloudRunJobName := op, buildLogs := Some(JobStarted)) else d;
      named.(status := Building)
  }

  /** The job request of `triggerCloudRunJob`, with the defaults the route applies. */
  function JobFor(id: nat, repo: Repo, body: DeployBody, r2BasePath: string, cfg: Config): (j: JobRequest)
    ensures j.name == "projects/" + EnvText(cfg.project) + "/locations/" + EnvText(cfg.location)
                      + "/jobs/" + EnvText(cfg.jobName)
    ensures |j.env| == 6
    ensures j.env[0] == EnvVar("REPO_URL", repo.cloneUrl)
    ensures j.env[1] == EnvVar("BRANCH", OrElse(body.branch, repo.defaultBranch))
    ensures j.env[2] == EnvVar("NODE_VERSION", OrElse(body.nodeVersion, "lts/latest"))
    ensures j.env[3] == EnvVar("BUILD_CMD", OrElse(body.buildCmd, "npm run build"))
    ensures j.env[4] == EnvVar("R2_BASE_PATH", r2BasePath)
    ensures j.env[5] == EnvVar("DEPLOYMENT_ID", DecimalString(id))
  {
    JobRequest(
      "projects/" + EnvText(cfg.project) + "/locations/" + EnvText(cfg.location) + "/jobs/" + EnvText(cfg.jobName),
      [ EnvVar("REPO_URL", repo.cloneUrl),
        EnvVar("BRANCH", OrElse(body.branch, repo.defaultBranch)),
        EnvVar("NODE_VERSION", OrElse(body.nodeVersion, "lts/latest")),
        EnvVar("BUILD_CMD", OrElse(body.buildCmd, "npm run build")),
        EnvVar("R2_BASE_PATH", r2BasePath),
        EnvVar("DEPLOYMENT_ID", DecimalString(id)) ])
  }

  datatype PostReply = Unauthorized | RepoNotFound | Started(deploymentId: nat) {
    function Status(): int {
      match this
      case Unauthorized => 401
      case RepoNotFound => 404
      case Started(_) => 200
    }
  }

  datatype GetReply = GetUnauthorized | InvalidId | NotFound | Found(id: nat, deployment: Deployment) {
    function Status(): int {
      match this
      case GetUnauthorized => 401
      case InvalidId => 400
      case NotFound => 404
      case Found(_, _) => 200
    }
  }

  /** One status write to the table, in the order made. */
  datatype StatusWrite = StatusWrite(id: nat, status: Status)

  /** The status writes one POST makes: the insert, then the update the trigger
      decides. */
  function PostWrites(id: nat, trigger: Trigger): (w: seq<StatusWrite>)
    ensures |w| == 2 && w[0] == StatusWrite(id, Pending)
    ensures DesignEdge(w[0].status, w[1].status)
    ensures forall i :: 0 <= i < |w| ==> w[i].status != Deployed
  {
    [StatusWrite(id, Pending), StatusWrite(id, if trigger.Threw? then Failed else Building)]
  }

  /** The deployments table. */
  class Deployments {
    var rows: map<nat, Deployment>
    var nextId: nat
    /** Every status written so far, in order. */
    var statusWrites: seq<StatusWrite>

    /** Ids are handed out in increasing order from 1 (a `serial` column). */
    ghost predicate Valid()
      reads this
    {
      1 <= nextId && forall id :: id in rows ==> 1 <= id < nextId
    }

    constructor()
      ensures Valid() && rows == map[] && statusWrites == []
    {
      rows := map[];
      nextId := 1;
      statusWrites := [];
    }

    method Insert(d: Deployment) returns (id: nat)
      requires Valid()
      modifies this
      ensures Valid()
      ensures id == old(nextId) && id !in old(rows)
      ensures rows == old(rows)[id := d]
      ensures statusWrites == old(statusWrites) + [StatusWrite(id, d.status)]
    {
      id := nextId;
      rows := rows[id := d];
      nextId := nextId + 1;
      statusWrites := statusWrites + [StatusWrite(id, d.status)];
    }

    /** The update of `triggerCloudRunJob` when the operation has a name. */
    method RecordJob(id: nat, jobName: string)
      requires Valid() && id in rows
      modifies this
      ensures Valid()
      ensures rows == old(rows)[id := old(rows)[id].(cloudRunJobName := Some(jobName), buildLogs := Some(JobStarted))]
      ensures statusWrites == old(statusWrites)
      ensures nextId == old(nextId)
    {
      rows := rows[id := rows[id].(cloudRunJobName := Some(jobName), buildLogs := Some(JobStarted))];
    }

    method MarkBuilding(id: nat)
      requires Valid() && id in rows
      modifies this
      ensures Valid()
      ensures rows == old(rows)[id := old(rows)[id].(status := Building)]
      ensures statusWrites == old(statusWrites) + [StatusWrite(id, Building)]
      ensures nextId == old(nextId)
    {
      rows := rows[id := rows[id].(status := Building)];
      statusWrites := statusWrites + [StatusWrite(id, Building)];
    }

    method MarkFailed(id: nat, logs: string)
      requires Valid() && id in rows
      modifies this
      ensures Valid()
      ensures rows == old(rows)[id := old(rows)[id].(status := Failed, buildLogs := Some(logs))]
      ensures statusWrites == old(statusWrites) + [StatusWrite(id, Failed)]
      ensures nextId == old(nextId)
    {
      rows := rows[id := rows[id].(status := Failed, buildLogs := Some(logs))];
      statusWrites := statusWrites + [StatusWrite(id, Failed)];
    }

    /** POST `/deploy`. `fraction` is the random number behind the short id; the R2
        base path is drawn inside and returned with the job request. */
    method Post(user: Option<User>, body: DeployBody, repo: Option<Repo>, fraction: string,
                cfg: Config, trigger: Trigger)
      returns (reply: PostReply, job: Option<JobRequest>, r2BasePath: string)
      requires Valid()
      requires forall i :: 0 <= i < |fraction| ==> IsBase36Digit(fraction[i])
      modifies this
      ensures Valid()
      ensures user.None? ==> reply == Unauthorized && job.None?
      ensures user.Some? && repo.None? ==> reply == RepoNotFound && job.None?
      ensures !reply.Started? ==> rows == old(rows) && statusWrites == old(statusWrites) && nextId == old(nextId)
      ensures user.Some? && repo.Some? ==>
        var id := old(nextId);
        && reply == Started(id) && id !in old(rows)
        && rows == old(rows)[id := AfterTrigger(Created(user.value, body, repo.value, ShortId(fraction), cfg), trigger)]
        && statusWrites == old(statusWrites) + PostWrites(id, trigger)
        && job == Some(JobFor(id, repo.value, body, r2BasePath, cfg))
        && |r2BasePath| == 12 && forall i :: 0 <= i < 12 ==> r2BasePath[i] in Alphabet
    {
      job, r2BasePath := None, "";
      if user.None? {
        return Unauthorized, job, r2BasePath;
      }
      if repo.None? {
        return RepoNotFound, job, r2BasePath;
      }
      var shortId := ShortId(fraction);
      r2BasePath := GenerateR2BasePath();
      var d := Created(user.value, body, repo.value, shortId, cfg);
      var id := Insert(d);
      job := Some(JobFor(id, repo.value, body, r2BasePath, cfg));
      Settle(id, trigger);
      reply := Started(id);
    }

    /** The `try`/`catch` around `triggerCloudRunJob`: the row becomes building, with the
        job name when the operation has one, or failed with the error text. */
    method Settle(id: nat, trigger: Trigger)
      requires Valid() && id in rows
      modifies this
      ensures Valid()
      ensures rows == old(rows)[id := AfterTrigger(old(rows)[id], trigger)]
      ensures statusWrites == old(statusWrites) + [StatusWrite(id, if trigger.Threw? then Failed else Building)]
      ensures nextId == old(nextId)
    {
      match trigger {
        case Threw(e) =>
          MarkFailed(id, "Failed to start build: " + e);
        case Accepted(op) =>
          if Truthy(op) {
            RecordJob(id, op.value);
          }
          MarkBuilding(id);
      }
    }

    /** GET `/deploy/:id`: the record with that id, only if the caller owns it. */
    function Get(user: Option<User>, idParam: string): (r: GetReply)
      reads this
      ensures user.None? <==> r == GetUnauthorized
      ensures user.Some? ==> (r == InvalidId <==> ParseInt(idParam).None?)
      ensures r.Found? ==>
        && ParseInt(idParam) == Some(r.id as int)
        && r.id in rows && r.deployment == rows[r.id]
        && r.deployment.userId == user.value.id
      ensures r == NotFound <==>
        user.Some? && ParseInt(idParam).Some?
        && !(ParseInt(idParam).value >= 0 && ParseInt(idParam).value as nat in rows
             && rows[ParseInt(idParam).value as nat].userId == user.value.id)
    {
      if user.None? then GetUnauthorized
      else match ParseInt(idParam)
        case None => InvalidId
        case Some(n) =>
          if n >= 0 && n as nat in rows && rows[n as nat].userId == user.value.id then Found(n as nat, rows[n as nat])
          else NotFound
    }
  }

  /** Every status the POST route writes is an edge of the designed lifecycle, and none
      of them is `deployed`. */
  lemma PostNeverDeploys(id: nat, trigger: Trigger)
    ensures forall i :: 0 <= i < |PostWrites(id, trigger)| ==> PostWrites(id, trigger)[i].status != Deployed
    ensures PostWrites(id, trigger)[1].status == Building <==> trigger.Accepted?
  {
  }

  /** Starting from a table with no `deployed` record, any sequence of POSTs leaves
      none: the invariant is preserved by each write the route makes. */
  lemma NoDeployedPreserved(rows: map<nat, Deployment>, id: nat, d: Deployment, trigger: Trigger)
    requires forall k :: k in rows ==> rows[k].status != Deployed
    requires d.status == Pending
    ensures var after := rows[id := AfterTrigger(d, trigger)];
      forall k :: k in after ==> after[k].status != Deployed
  {
  }

  /** Another user's deployment id is answered exactly as a missing one. */
  lemma OtherUsersDeploymentIsHidden(t: Deployments, caller: User, id: nat)
    requires id in t.rows && t.rows[id].userId != caller.id
    ensures t.Get(Some(caller), DecimalString(id)) == NotFound
  {
    ParseIntDecimal(id);
  }
}
