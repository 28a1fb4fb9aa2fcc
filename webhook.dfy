/** The GitHub webhook route (backend/src/routes/webhook.ts): a chain of guards on the
    signature header, the configured secret, the signature check and the JSON body,
    then a dispatch on the event name, with push events reduced to a reply that says
    whether the push reached the default branch. Signature verification and JSON
    parsing are parameters. */
module Webhook {
  import opened JsText

  datatype Commit = Commit(message: Option<string>)
  datatype Repository = Repository(fullName: string, defaultBranch: string)
  datatype PushPayload = PushPayload(ref: string, repository: Repository, commits: seq<Commit>)

  datatype PushReply =
    | Triggered(repository: string, branch: string, commitCount: nat, latestCommit: string)
    | Skipped(repository: string, branch: string, defaultBranch: string)

  datatype Reply =
    | Rejected(status: int, error: string)
    | Pong
    | NotHandled(message: string)
    | Pushed(push: PushReply)
  {
    /** Every reply that is not a rejection is sent with status 200 and `success: true`. */
    function Status(): int {
      if Rejected? then status else 200
    }
  }

  const HeadsPrefix := "refs/heads/"

  /** `ref.replace("refs/heads/", "")`: the first occurrence of the prefix is removed. */
  function Branch(ref: string): (r: string)
    ensures StartsWith(ref, HeadsPrefix) ==> r == ref[|HeadsPrefix|..]
    ensures !Includes(ref, HeadsPrefix) ==> r == ref
    ensures Includes(ref, HeadsPrefix) ==> |r| == |ref| - |HeadsPrefix|
  {
    assert StartsWith(ref, HeadsPrefix) ==> OccursAt(ref, HeadsPrefix, 0);
    ReplaceFirst(ref, HeadsPrefix, "")
  }

  /** `commits[0]?.message || "No commits"`. */
  function LatestCommit(commits: seq<Commit>): (r: string)
    ensures r != ""
    ensures |commits| > 0 && Truthy(commits[0].message) ==> r == commits[0].message.value
    ensures (|commits| == 0 || !Truthy(commits[0].message)) ==> r == "No commits"
  {
    if |commits| > 0 then OrElse(commits[0].message, "No commits") else "No commits"
  }

  /** `handlePushEvent`. */
  function HandlePush(p: PushPayload): (r: PushReply)
    ensures r.Triggered? <==> Branch(p.ref) == p.repository.defaultBranch
    ensures r.branch == Branch(p.ref) && r.repository == p.repository.fullName
    ensures r.Triggered? ==> r.commitCount == |p.commits| && r.latestCommit == LatestCommit(p.commits)
    ensures r.Skipped? ==> r.defaultBranch == p.repository.defaultBranch
  {
    var branch := Branch(p.ref);
    if branch == p.repository.defaultBranch then
      Triggered(p.repository.fullName, branch, |p.commits|, LatestCommit(p.commits))
    else
      Skipped(p.repository.fullName, branch, p.repository.defaultBranch)
  }

  /** An absent header is `null`, printed as such in a template literal. */
  function EventText(event: Option<string>): string {
    if event.Some? then event.value else "null"
  }

  /** The POST `/webhook/github` handler. `verify` is `verifyWebhookSignature` over
      (raw body, signature, secret), and `parse` is `JSON.parse`, `None` when it throws. */
  function HandleWebhook(
    signature: Option<string>, event: Option<string>, secret: Option<string>, rawBody: string,
    verify: (string, string, string) -> bool, parse: string -> Option<PushPayload>): (r: Reply)
    ensures !Truthy(signature) ==> r == Rejected(401, "Missing signature")
    ensures Truthy(signature) && !Truthy(secret) ==> r == Rejected(500, "Webhook secret not configured")
    ensures Truthy(signature) && Truthy(secret) && !verify(rawBody, signature.value, secret.value) ==>
      r == Rejected(401, "Invalid signature")
    ensures r.Rejected? <==>
      !(Truthy(signature) && Truthy(secret) && verify(rawBody, signature.value, secret.value)
        && parse(rawBody).Some?)
    ensures Truthy(signature) && Truthy(secret) && verify(rawBody, signature.value, secret.value) ==>
      parse(rawBody).None? ==> r == Rejected(400, "Invalid JSON payload")
    ensures r.Rejected? ==> r.status in {400, 401, 500}
    ensures r.Pushed? <==> !r.Rejected? && event == Some("push")
    ensures r.Pushed? ==> r.push == HandlePush(parse(rawBody).value)
    ensures r == Pong <==> !r.Rejected? && event == Some("ping")
    ensures r.NotHandled? ==> r.message == "Event '" + EventText(event) + "' received but not handled"
  {
    if !Truthy(signature) then Rejected(401, "Missing signature")
    else if !Truthy(secret) then Rejected(500, "Webhook secret not configured")
    else if !verify(rawBody, signature.value, secret.value) then Rejected(401, "Invalid signature")
    else match parse(rawBody)
      case None => Rejected(400, "Invalid JSON payload")
      case Some(payload) =>
        if event == Some("push") then Pushed(HandlePush(payload))
        else if event == Some("ping") then Pong
        else NotHandled("Event '" + EventText(event) + "' received but not handled")
  }

  /** Without a signature the secret, the body, the verifier and the parser are never
      consulted: the reply is the same for all of them. */
  lemma MissingSignatureIgnoresRest(
    event: Option<string>, secret1: Option<string>, secret2: Option<string>, body1: string, body2: string,
    verify1: (string, string, string) -> bool, verify2: (string, string, string) -> bool,
    parse1: string -> Option<PushPayload>, parse2: string -> Option<PushPayload>)
    ensures HandleWebhook(None, event, secret1, body1, verify1, parse1)
         == HandleWebhook(Some(""), event, secret2, body2, verify2, parse2)
  {
  }

  /** The body is parsed only after the signature has been verified: when verification
      fails, no parser changes the reply. */
  lemma ParseOnlyAfterVerification(
    signature: Option<string>, event: Option<string>, secret: Option<string>, rawBody: string,
    verify: (string, string, string) -> bool,
    parse1: string -> Option<PushPayload>, parse2: string -> Option<PushPayload>)
    requires Truthy(signature) && Truthy(secret) && !verify(rawBody, signature.value, secret.value)
    ensures HandleWebhook(signature, event, secret, rawBody, verify, parse1).Status() == 401
    ensures HandleWebhook(signature, event, secret, rawBody, verify, parse1)
         == HandleWebhook(signature, event, secret, rawBody, verify, parse2)
  {
  }

  /** A push to `refs/heads/<default branch>` triggers a deployment. */
  lemma PushToDefaultBranchTriggers(p: PushPayload)
    requires p.ref == HeadsPrefix + p.repository.defaultBranch
    ensures HandlePush(p).Triggered?
    ensures HandlePush(p).commitCount == |p.commits|
  {
    assert StartsWith(p.ref, HeadsPrefix) by {
      assert p.ref[..|HeadsPrefix|] == HeadsPrefix;
    }
    assert p.ref[|HeadsPrefix|..] == p.repository.defaultBranch;
  }

  /** Only the first `refs/heads/` is removed: a branch that is itself named
      `refs/heads/main` is not the branch `main`. */
  lemma OnlyFirstPrefixRemoved()
    ensures Branch("refs/heads/refs/heads/main") == "refs/heads/main"
  {
    var ref := "refs/heads/refs/heads/main";
    assert |HeadsPrefix| == 11;
    assert StartsWith(ref, HeadsPrefix) by { assert ref[..11] == HeadsPrefix; }
    assert ref[11..] == "refs/heads/main";
  }
}
