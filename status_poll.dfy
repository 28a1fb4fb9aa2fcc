/** The deployment status hook of the frontend
    (packages/frontend/src/hooks/useDeploymentStatus.ts): the cache key of a
    deployment, whether the query runs, and how often it is polled. */
module StatusPoll {
  import opened JsText
  import Deploy

  /** One element of a query key: a string, a number, or `null`. */
  datatype KeyPart = Text(text: string) | Number(n: int) | Null

  /** `deploymentKeys.all`. */
  const AllKey: seq<KeyPart> := [Text("deployments")]

  /** `deploymentKeys.detail(id)`; the hook passes `deploymentId!`, which is `null` when
      no id is known. */
  function DetailKey(id: Option<int>): (r: seq<KeyPart>)
    ensures |r| == 3 && r[..1] == AllKey && r[1] == Text("detail")
    ensures id.Some? ==> r[2] == Number(id.value)
    ensures id.None? ==> r[2] == Null
  {
    AllKey + [Text("detail"), if id.Some? then Number(id.value) else Null]
  }

  /** The query runs only for a known deployment id, that is when its key does not hold null. */
  function Enabled(id: Option<int>): (r: bool)
    ensures r <==> id.Some?
    ensures r <==> DetailKey(id)[2] != Null
  {
    id != None
  }

  /** What `refetchInterval` returns: a period in milliseconds, or `false`. */
  datatype Interval = Every(millis: nat) | Stop

  /** The `refetchInterval` callback, given the status of the last data, if any. */
  function RefetchInterval(status: Option<string>): (r: Interval)
    ensures r.Every? <==> status == Some("pending") || status == Some("building")
    ensures r.Every? ==> r.millis == 2000
  {
    if status == Some("pending") || status == Some("building") then Every(2000) else Stop
  }

  /** The text the backend sends for a stored status. */
  function StatusName(s: Deploy.Status): string {
    match s
    case Pending => "pending"
    case Building => "building"
    case Deployed => "deployed"
    case Failed => "failed"
  }

  /** Different deployments never share a cache entry, and every one sits under the
      `["deployments"]` prefix. */
  lemma DetailKeysDistinct(a: int, b: int)
    ensures DetailKey(Some(a)) == DetailKey(Some(b)) <==> a == b
    ensures DetailKey(Some(a))[..|AllKey|] == AllKey
  {
    if DetailKey(Some(a)) == DetailKey(Some(b)) {
      assert DetailKey(Some(a))[2] == DetailKey(Some(b))[2];
    }
  }

  /** Polling continues exactly while the stored status is one the lifecycle has not
      finished with. */
  lemma PollsWhileUnfinished(s: Deploy.Status)
    ensures RefetchInterval(Some(StatusName(s))).Every? <==> s == Deploy.Pending || s == Deploy.Building
  {
  }
}
