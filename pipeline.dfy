/** Properties that span several parts of the pipeline: the subdomain a deployment is
    given and the router's label check, the storage prefix the build uploads under and
    the one the router reads, the two publishers' object keys, the two consumers of a
    container's log stream, and the poll policy against the record lifecycle. */
module Pipeline {
  import opened JsText
  import opened FileTree
  import Router
  import Deploy
  import Configure
  import BuildScript
  import UploadR2
  import RestUtils
  import RestApi
  import StatusPoll

  /** The leftmost label of a deployment URL: the project name the page sends, a
      hyphen, and the short id. */
  function SubdomainLabel(typedName: string, shortId: string): string {
    Configure.Sanitize(typedName) + "-" + shortId
  }

  /** The deployment URL is built around that label. */
  lemma DeployUrlCarriesLabel(user: Deploy.User, body: Deploy.DeployBody, repo: Deploy.Repo, typedName: string,
                              fraction: string, cfg: Deploy.Config)
    requires forall i :: 0 <= i < |fraction| ==> Deploy.IsBase36Digit(fraction[i])
    requires body.projectName == Configure.Sanitize(typedName)
    ensures Deploy.Created(user, body, repo, Deploy.ShortId(fraction), cfg).deployUrl
         == "https://" + SubdomainLabel(typedName, Deploy.ShortId(fraction)) + "." + Deploy.EnvText(cfg.deployDomain)
  {
  }

  /** The router accepts the label exactly when the typed name is non-empty and does
      not sanitise to a leading `-`, the short id is non-empty, and the whole fits in
      63 characters. None of these is checked before the URL is handed out. */
  lemma SubdomainLabelValidIff(typedName: string, shortId: string)
    requires forall i :: 0 <= i < |shortId| ==> Deploy.IsBase36Digit(shortId[i])
    ensures Router.IsValidSubdomain(SubdomainLabel(typedName, shortId)) <==>
      && typedName != ""
      && Configure.Sanitize(typedName)[0] != '-'
      && shortId != ""
      && |typedName| + 1 + |shortId| <= 63
  {
    var name := Configure.Sanitize(typedName);
    var host := name + "-" + shortId;
    Router.IsValidSubdomainIff(host);
    forall i | 0 <= i < |host|
      ensures Router.IsLabelChar(host[i])
    {
      if i < |name| {
        assert host[i] == name[i];
      } else if i > |name| {
        assert host[i] == shortId[i - |name| - 1];
      }
    }
    if name != [] {
      assert host[0] == name[0];
    }
    if shortId != [] {
      assert host[|host| - 1] == shortId[|shortId| - 1];
    }
  }

  /** A name typed with a leading blank passes the deploy button's guard, yet the site
      it names is refused by the router. */
  lemma LeadingBlankNeverServed(rest: string, shortId: string)
    requires forall i :: 0 <= i < |shortId| ==> Deploy.IsBase36Digit(shortId[i])
    requires exists i :: 0 <= i < |rest| && !IsJsSpace(rest[i])
    ensures !Configure.ButtonDisabled(" " + rest, false)
    ensures !Router.IsValidSubdomain(SubdomainLabel(" " + rest, shortId))
  {
    var typed := " " + rest;
    var i :| 0 <= i < |rest| && !IsJsSpace(rest[i]);
    assert typed[i + 1] == rest[i];
    SubdomainLabelValidIff(typed, shortId);
    assert Configure.Sanitize(typed)[0] == '-';
  }

  /** A project name longer than 56 characters never yields a servable site once the
      short id has its full six characters. */
  lemma LongNameNeverServed(typedName: string, fraction: string)
    requires forall i :: 0 <= i < |fraction| ==> Deploy.IsBase36Digit(fraction[i])
    requires |fraction| >= 6 && |typedName| > 56
    ensures !Router.IsValidSubdomain(SubdomainLabel(typedName, Deploy.ShortId(fraction)))
  {
    SubdomainLabelValidIff(typedName, Deploy.ShortId(fraction));
  }

  /** When `Math.random()` returns 0 the short id is empty and the label ends in `-`. */
  lemma ZeroRandomNeverServed(typedName: string)
    ensures Deploy.ShortId("") == ""
    ensures !Router.IsValidSubdomain(SubdomainLabel(typedName, ""))
  {
    SubdomainLabelValidIff(typedName, "");
  }

  /** The build uploads under the R2 base path, the router reads under the site's
      label; no object uploaded for a deployment is ever the one the router looks up
      for it, whatever the file and the request path. */
  lemma UploadedKeysAreNotServed(r2BasePath: string, typedName: string, shortId: string,
                                 root: Path, rel: Path, requestPath: string)
    requires |r2BasePath| == 12 && forall i :: 0 <= i < 12 ==> Deploy.IsBase36Digit(r2BasePath[i])
    requires forall i :: 0 <= i < |shortId| ==> Deploy.IsBase36Digit(shortId[i])
    requires requestPath != "" && requestPath[0] == '/'
    ensures UploadR2.S3Key(root + rel, root, r2BasePath)
         != SubdomainLabel(typedName, shortId) + Router.Normalize(requestPath)
  {
    UploadR2.S3KeyBelow(root, rel, r2BasePath);
    var uploaded := r2BasePath + "/" + JoinWith(rel, '/');
    var name := Configure.Sanitize(typedName);
    var host := name + "-" + shortId;
    var read := host + Router.Normalize(requestPath);
    var k := |name|;
    if k < 12 {
      assert read[k] == '-';
      assert uploaded[k] == r2BasePath[k];
    } else {
      assert uploaded[12] == '/';
      assert read[12] == host[12];
      if 12 < k {
        assert host[12] == name[12];
      }
    }
  }

  /** Against a pre-order listing of the dist folder (each directory before its
      contents), script.js's keys for the listed files (directories skipped) are
      upload-to-r2.js's keys for its depth-first walk, in the same order, when the base
      path is the lower-cased project id. Node's own listing is breadth first; for it the
      keys agree only as a multiset (`PublishersSendSameKeys`). */
  lemma PublishersAgreeOnKeys(children: seq<Node>, root: Path, projectId: string)
    requires ToLower(projectId) != ""
    ensures
      var files := FileEntries(Listing(children, []));
      var walked := Files(children, root);
      |files| == |walked| &&
      forall i :: 0 <= i < |files| ==>
        BuildScript.ObjectKey(projectId, files[i]) == UploadR2.S3Key(walked[i], root, ToLower(projectId))
  {
    var files := FileEntries(Listing(children, []));
    FilesAreListedFiles(children, []);
    FilesUnder(children, root, []);
    assert root + [] == root;
    var walked := Files(children, root);
    forall i | 0 <= i < |files|
      ensures BuildScript.ObjectKey(projectId, files[i]) == UploadR2.S3Key(walked[i], root, ToLower(projectId))
    {
      assert walked[i] == root + files[i].path;
      UploadR2.S3KeyBelow(root, files[i].path, ToLower(projectId));
    }
  }
  /** The keys script.js sends for the files of its listing, in its order. */
  function ScriptKeys(projectId: string, files: seq<Entry>): seq<string> {
    seq(|files|, i requires 0 <= i < |files| => BuildScript.ObjectKey(projectId, files[i]))
  }

  /** The keys upload-to-r2.js sends for the files of its walk, in its order. */
  function WalkKeys(walked: seq<Path>, root: Path, basePath: string): seq<string> {
    seq(|walked|, i requires 0 <= i < |walked| => UploadR2.S3Key(walked[i], root, basePath))
  }

  /** Each relative path's key below a non-empty base path. */
  function KeysBelow(basePath: string, paths: seq<Path>): (r: seq<string>)
    ensures |r| == |paths| && forall i :: 0 <= i < |r| ==> r[i] == basePath + "/" + JoinWith(paths[i], '/')
  {
    seq(|paths|, i requires 0 <= i < |paths| => basePath + "/" + JoinWith(paths[i], '/'))
  }

  /** Keying two rearrangements of the same paths gives rearrangements of the same keys. */
  lemma {:induction false} KeysBelowPermute(basePath: string, a: seq<Path>, b: seq<Path>)
    requires multiset(a) == multiset(b)
    ensures multiset(KeysBelow(basePath, a)) == multiset(KeysBelow(basePath, b))
    decreases |a|
  {
    if a == [] {
      assert |b| == |multiset(b)| == 0;
    } else {
      var x := a[0];
      assert x in multiset(a);
      var j :| 0 <= j < |b| && b[j] == x;
      var l, r := b[..j], b[j + 1..];
      assert b == l + [x] + r;
      DropMatched(a, l, r);
      KeysBelowPermute(basePath, a[1..], l + r);
      assert a == [x] + a[1..];
      KeysBelowAppend(basePath, [x], a[1..]);
      KeysBelowAppend(basePath, l + [x], r);
      KeysBelowAppend(basePath, l, [x]);
      KeysBelowAppend(basePath, l, r);
    }
  }

  /** Taking the same element out of two rearrangements leaves two rearrangements. */
  lemma DropMatched<T>(a: seq<T>, l: seq<T>, r: seq<T>)
    requires a != [] && multiset(a) == multiset(l + [a[0]] + r)
    ensures multiset(a[1..]) == multiset(l + r)
  {
    assert a == [a[0]] + a[1..];
    assert multiset(a) == multiset([a[0]]) + multiset(a[1..]);
    assert multiset(l + [a[0]] + r) == multiset(l) + multiset([a[0]]) + multiset(r);
    assert multiset(l + r) == multiset(l) + multiset(r);
    assert multiset(a[1..]) == multiset(a) - multiset([a[0]]);
    assert multiset(l + r) == multiset(l + [a[0]] + r) - multiset([a[0]]);
  }

  lemma KeysBelowAppend(basePath: string, a: seq<Path>, b: seq<Path>)
    ensures KeysBelow(basePath, a + b) == KeysBelow(basePath, a) + KeysBelow(basePath, b)
  {
    var l, r := KeysBelow(basePath, a + b), KeysBelow(basePath, a) + KeysBelow(basePath, b);
    forall i | 0 <= i < |l|
      ensures l[i] == r[i]
    {
      if i < |a| {
        assert (a + b)[i] == a[i];
      } else {
        assert (a + b)[i] == b[i - |a|];
      }
    }
  }

  /** With Node's own listing order, breadth first, the two publishers send the same
      object keys, each as often, when the base path is the lower-cased project id. */
  lemma PublishersSendSameKeys(children: seq<Node>, root: Path, projectId: string)
    requires ToLower(projectId) != ""
    ensures multiset(ScriptKeys(projectId, FileEntries(BreadthListing(children, []))))
         == multiset(WalkKeys(Files(children, root), root, ToLower(projectId)))
  {
    var lower := ToLower(projectId);
    var files := FileEntries(BreadthListing(children, []));
    var walked := Files(children, root);
    var flat := Files(children, []);
    BreadthListingHoldsFiles(children, []);
    assert ScriptKeys(projectId, files) == KeysBelow(lower, PathsOf(files));
    FilesUnder(children, root, []);
    assert root + [] == root;
    forall i | 0 <= i < |walked|
      ensures UploadR2.S3Key(walked[i], root, lower) == KeysBelow(lower, flat)[i]
    {
      assert walked[i] == root + flat[i];
      UploadR2.S3KeyBelow(root, flat[i], lower);
    }
    assert WalkKeys(walked, root, lower) == KeysBelow(lower, flat);
    KeysBelowPermute(lower, PathsOf(files), flat);
  }

  /** The orders do differ: for a dist folder holding `a/x` and `b`, script.js sends
      `b` first and upload-to-r2.js sends `a/x` first. */
  lemma PublishOrdersDiffer(root: Path)
    ensures var t := [Dir("a", [File("x", 0)]), File("b", 0)];
      && ScriptKeys("p", FileEntries(BreadthListing(t, []))) == ["p/b", "p/a/x"]
      && WalkKeys(Files(t, root), root, "p") == ["p/a/x", "p/b"]
  {
    ExampleListedFiles();
    ExampleWalkedFiles(root);
    ExampleKeys(root);
  }

  lemma ExampleKeys(root: Path)
    ensures ScriptKeys("p", [Entry(["b"], false), Entry(["a", "x"], false)]) == ["p/b", "p/a/x"]
    ensures WalkKeys([root + ["a", "x"], root + ["b"]], root, "p") == ["p/a/x", "p/b"]
  {
    assert ToLower("p") == "p";
    assert JoinWith(["a", "x"], '/') == "a/x";
    assert "p" + "/" + "a/x" == "p/a/x" && "p" + "/" + "b" == "p/b";
    UploadR2.S3KeyBelow(root, ["a", "x"], "p");
    UploadR2.S3KeyBelow(root, ["b"], "p");
  }

  lemma ExampleListedFiles()
    ensures FileEntries(BreadthListing([Dir("a", [File("x", 0)]), File("b", 0)], []))
         == [Entry(["b"], false), Entry(["a", "x"], false)]
  {
    ListingOrdersDiffer();
    var d, f, g := Entry(["a"], true), Entry(["b"], false), Entry(["a", "x"], false);
    assert [d, f, g][..2] == [d, f];
    assert [d, f][..1] == [d];
    assert [d][..0] == [];
  }

  lemma ExampleWalkedFiles(root: Path)
    ensures Files([Dir("a", [File("x", 0)]), File("b", 0)], root) == [root + ["a", "x"], root + ["b"]]
  {
    var t := [Dir("a", [File("x", 0)]), File("b", 0)];
    assert t[1..] == [File("b", 0)] && [File("b", 0)][1..] == [] && [File("x", 0)][1..] == [];
    assert Files([File("x", 0)], root + ["a"]) == [root + ["a"] + ["x"]] + [];
    assert root + ["a"] + ["x"] == root + ["a", "x"];
    assert Files([File("b", 0)], root) == [root + ["b"]] + [];
    assert Files(t, root) == Files([File("x", 0)], root + ["a"]) + Files([File("b", 0)], root);
  }

  /** The log text a client in the build's room can assemble from the `log` events
      rest-api/index.js emits: every `log` message followed by a newline. */
  function Transcript(steps: seq<RestApi.Step>): string {
    if steps == [] then ""
    else
      var last := steps[|steps| - 1];
      Transcript(steps[..|steps| - 1])
        + (if last.Emitted? && last.event.Log? then last.event.message + "\n" else "")
  }

  /** Two consumers of the same chunks of a container's output agree: the transcript of
      the `log` events that index.js's `streamLogs` emits to the room equals the text that
      utils.js's `streamLogs` accumulates. The latter is exported but never called by the
      build route; the lemma compares the two definitions, not two parts of one run. */
  lemma {:induction false} TranscriptMatchesCollectedLogs(room: string, to: set<RestApi.SocketId>, lines: seq<string>)
    ensures Transcript(RestApi.LogEmits(room, to, lines)) == RestUtils.Terminated(lines)
    decreases |lines|
  {
    if lines != [] {
      var init := lines[..|lines| - 1];
      TranscriptMatchesCollectedLogs(room, to, init);
      var steps := RestApi.LogEmits(room, to, lines);
      assert steps[..|steps| - 1] == RestApi.LogEmits(room, to, init);
    }
  }

  /** Within the shown code a deployment whose job was accepted is polled for ever:
      its record stays `building`. One whose trigger threw stops at once. */
  lemma PollingAfterPost(d: Deploy.Deployment, trigger: Deploy.Trigger)
    ensures var after := Deploy.AfterTrigger(d, trigger);
      StatusPoll.RefetchInterval(Some(StatusPoll.StatusName(after.status))).Every? <==> trigger.Accepted?
  {
  }
}
