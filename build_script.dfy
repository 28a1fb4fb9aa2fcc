/** The build container's entry script (build-server/script.js): install the
    dependencies and build the cloned project in `output`, then publish every file of
    `output/dist` to the bucket under the lower-cased project id. Child processes are
    given as their observable behaviour (a spawn error, the chunks they write to
    standard error and their exit code); the bucket as the set of keys whose upload
    throws. */
module BuildScript {
  import opened JsText
  import opened FileTree

  const OctetStream := "application/octet-stream"

  /** The extension table of `getContentType`; its keys carry the leading dot. */
  const ContentTypes: map<string, string> := map[
    ".html" := "text/html",
    ".css" := "text/css",
    ".js" := "application/javascript",
    ".json" := "application/json",
    ".png" := "image/png",
    ".jpg" := "image/jpeg",
    ".jpeg" := "image/jpeg",
    ".gif" := "image/gif",
    ".svg" := "image/svg+xml"
  ]

  /** Node's `path.extname` of a file name: from the last dot to the end, except that a
      name whose only dot is its first character, and the name "..", have none. */
  function ExtName(name: string): (r: string)
    ensures r == "" <==> name == ".." || forall i :: 0 < i < |name| ==> name[i] != '.'
    ensures r != "" ==> |r| < |name| && r == name[|name| - |r|..]
    ensures r != "" ==> r[0] == '.' && forall i :: 0 < i < |r| ==> r[i] != '.'
  {
    match LastIndexOf(name, '.')
    case None => ""
    case Some(d) => if d == 0 || name == ".." then "" else name[d..]
  }

  function LastSegment(p: Path): string {
    if p == [] then "" else p[|p| - 1]
  }

  /** `getContentType`: the table entry for the lower-cased extension, or a byte stream. */
  function ContentTypeFor(name: string): (r: string)
    ensures r == OctetStream || r in ContentTypes.Values
    ensures ToLower(ExtName(name)) in ContentTypes ==> r == ContentTypes[ToLower(ExtName(name))]
    ensures ToLower(ExtName(name)) !in ContentTypes ==> r == OctetStream
    ensures r != OctetStream ==> ExtName(name) != ""
  {
    var ext := ToLower(ExtName(name));
    if ext in ContentTypes then ContentTypes[ext] else OctetStream
  }

  lemma ToLowerIdempotent(s: string)
    ensures ToLower(ToLower(s)) == ToLower(s)
  {
  }

  lemma ExtNameOfLower(name: string)
    ensures ExtName(ToLower(name)) == ToLower(ExtName(name))
  {
    var low := ToLower(name);
    forall i | 0 <= i < |name|
      ensures low[i] == '.' <==> name[i] == '.'
    {
    }
    assert low == ".." <==> name == ".." by {
      if low == ".." {
        assert name[0] == '.' && name[1] == '.';
      }
    }
    match LastIndexOf(name, '.')
    case None =>
      assert LastIndexOf(low, '.').None?;
    case Some(d) =>
      assert LastIndexOf(low, '.') == Some(d);
      if d != 0 && name != ".." {
        assert low[d..] == ToLower(name[d..]);
      }
  }

  /** The extension is matched without regard to letter case. */
  lemma ContentTypeIgnoresCase(name: string)
    ensures ContentTypeFor(ToLower(name)) == ContentTypeFor(name)
  {
    ExtNameOfLower(name);
    ToLowerIdempotent(ExtName(name));
  }

  /* ---------------------------------------------------------------- the build */

  datatype Stage = Install | Build

  /** What one `exec` child did: an `error` event (it could not be started), or the
      chunks it wrote to standard error and the code it closed with (None when a
      signal ended it). */
  datatype Proc = Proc(spawnError: Option<string>, stderr: seq<string>, exitCode: Option<int>)

  /** Every way the script can fail; each one makes it exit with status 1. */
  datatype BuildError =
    | OutputDirMissing
    | SpawnFailed(stage: Stage, message: string)
    /** The message carries all standard error written so far, by both stages. */
    | ExitedNonZero(stage: Stage, code: Option<int>, errorOutput: string)
    | DistNotBuilt
    | DistMissing
    | DistEmpty
    | MissingProjectId
    | UploadFailed(key: string)
  {
    predicate FailedIn(s: Stage) {
      (SpawnFailed? || ExitedNonZero?) && stage == s
    }
  }

  /** How one stage settles, given all standard error collected up to its close. */
  function StageOutcome(stage: Stage, p: Proc, errorOutput: string): (r: Option<BuildError>)
    ensures r.None? <==> p.spawnError.None? && p.exitCode == Some(0)
    ensures r.Some? ==> r.value.FailedIn(stage)
  {
    if p.spawnError.Some? then Some(SpawnFailed(stage, p.spawnError.value))
    else if p.exitCode != Some(0) then Some(ExitedNonZero(stage, p.exitCode, errorOutput))
    else None
  }

  /** How `executeBuild` settles: the build starts only once the install closed with
      0, and the dist folder is checked only once the build closed with 0. */
  function BuildOutcome(outDirExists: bool, install: Proc, build: Proc, distExists: bool): (r: Option<BuildError>)
    ensures r.None? <==>
      outDirExists && install.spawnError.None? && install.exitCode == Some(0)
      && build.spawnError.None? && build.exitCode == Some(0) && distExists
    ensures !outDirExists ==> r == Some(OutputDirMissing)
    ensures outDirExists && StageOutcome(Install, install, Concat(install.stderr)).Some? ==>
      r.Some? && r.value.FailedIn(Install)
    ensures r.Some? && r.value.ExitedNonZero? && r.value.stage == Build ==>
      r.value.errorOutput == Concat(install.stderr) + Concat(build.stderr)
  {
    if !outDirExists then Some(OutputDirMissing)
    else
      var afterInstall := Concat(install.stderr);
      match StageOutcome(Install, install, afterInstall)
      case Some(e) => Some(e)
      case None =>
        match StageOutcome(Build, build, afterInstall + Concat(build.stderr))
        case Some(e) => Some(e)
        case None => if distExists then None else Some(DistNotBuilt)
  }

  /** One child process: collects its standard error after what is already there and
      settles when it closes. */
  method RunStage(stage: Stage, p: Proc, errorOutput: string) returns (failure: Option<BuildError>, collected: string)
    ensures collected == errorOutput + Concat(p.stderr)
    ensures failure == StageOutcome(stage, p, collected)
  {
    collected := errorOutput;
    var i := 0;
    while i < |p.stderr|
      invariant 0 <= i <= |p.stderr|
      invariant collected == errorOutput + Concat(p.stderr[..i])
    {
      ConcatSnoc(p.stderr[..i + 1]);
      assert p.stderr[..i + 1][..i] == p.stderr[..i];
      collected := collected + p.stderr[i];
      i := i + 1;
    }
    TakeAll(p.stderr);
    failure := StageOutcome(stage, p, collected);
  }

  /** `executeBuild`. */
  method ExecuteBuild(outDirExists: bool, install: Proc, build: Proc, distExists: bool)
    returns (failure: Option<BuildError>)
    ensures failure == BuildOutcome(outDirExists, install, build, distExists)
  {
    if !outDirExists {
      return Some(OutputDirMissing);
    }
    var errorOutput;
    failure, errorOutput := RunStage(Install, install, "");
    assert "" + Concat(install.stderr) == Concat(install.stderr);
    if failure.Some? {
      return;
    }
    failure, errorOutput := RunStage(Build, build, errorOutput);
    if failure.Some? {
      return;
    }
    if !distExists {
      return Some(DistNotBuilt);
    }
  }

  /* --------------------------------------------------------------- the upload */

  datatype Put = Put(key: string, contentType: string)

  /** The object key of a dist entry: the lower-cased project id, then the entry's path
      relative to the dist folder. */
  function ObjectKey(projectId: string, e: Entry): string {
    ToLower(projectId) + "/" + JoinWith(e.path, '/')
  }

  function PutFor(projectId: string, e: Entry): Put {
    Put(ObjectKey(projectId, e), ContentTypeFor(LastSegment(e.path)))
  }

  function Puts(projectId: string, files: seq<Entry>): (r: seq<Put>)
    ensures |r| == |files| && forall i :: 0 <= i < |files| ==> r[i] == PutFor(projectId, files[i])
  {
    seq(|files|, i requires 0 <= i < |files| => PutFor(projectId, files[i]))
  }

  /** `uploadFileToR2` throws: with no project id `toLowerCase` fails, otherwise the
      read or the send did. */
  predicate SendFails(projectId: Option<string>, e: Entry, rejects: set<string>) {
    projectId.None? || ObjectKey(projectId.value, e) in rejects
  }

  function FailureOf(projectId: Option<string>, e: Entry): BuildError {
    if projectId.None? then MissingProjectId else UploadFailed(ObjectKey(projectId.value, e))
  }

  /** The index of the first file whose upload throws, or the number of files. */
  function FirstFailing(files: seq<Entry>, projectId: Option<string>, rejects: set<string>): (k: nat)
    ensures k <= |files|
    ensures forall i :: 0 <= i < k ==> !SendFails(projectId, files[i], rejects)
    ensures k < |files| ==> SendFails(projectId, files[k], rejects)
  {
    if files == [] then 0
    else if SendFails(projectId, files[0], rejects) then 0
    else 1 + FirstFailing(files[1..], projectId, rejects)
  }

  lemma FirstFailingAt(files: seq<Entry>, projectId: Option<string>, rejects: set<string>, j: nat)
    requires j <= |files|
    requires forall i :: 0 <= i < j ==> !SendFails(projectId, files[i], rejects)
    requires j < |files| ==> SendFails(projectId, files[j], rejects)
    ensures FirstFailing(files, projectId, rejects) == j
  {
  }

  datatype PublishReport = PublishReport(failure: Option<BuildError>, sent: seq<Put>)

  /** `uploadDistFolder` over a recursive listing of the dist folder: directories are
      skipped, the files are sent one at a time in listing order, and the first upload
      that throws ends the publication. */
  function Publish(distExists: bool, listing: seq<Entry>, projectId: Option<string>, rejects: set<string>): PublishReport
  {
    if !distExists then PublishReport(Some(DistMissing), [])
    else if listing == [] then PublishReport(Some(DistEmpty), [])
    else
      var files := FileEntries(listing);
      var k := FirstFailing(files, projectId, rejects);
      var sent := if k == 0 then [] else Puts(projectId.value, files[..k]);
      if k == |files| then PublishReport(None, sent)
      else PublishReport(Some(FailureOf(projectId, files[k])), sent)
  }

  /** A missing `dist` or an empty listing fails with nothing sent; otherwise the puts
      are those of the files in listing order, up to the first whose upload throws,
      which names the failure, and all of them when none throws. */
  lemma PublishOutcome(distExists: bool, listing: seq<Entry>, projectId: Option<string>, rejects: set<string>)
    ensures var r := Publish(distExists, listing, projectId, rejects);
      && (!distExists ==> r == PublishReport(Some(DistMissing), []))
      && (distExists && listing == [] ==> r == PublishReport(Some(DistEmpty), []))
    ensures var r := Publish(distExists, listing, projectId, rejects);
      r.failure.None? <==>
        distExists && listing != []
        && forall e :: e in FileEntries(listing) ==> !SendFails(projectId, e, rejects)
    ensures var r := Publish(distExists, listing, projectId, rejects);
      var files := FileEntries(listing);
      && |r.sent| <= |files|
      && (forall i :: 0 <= i < |r.sent| ==> projectId.Some? && r.sent[i] == PutFor(projectId.value, files[i]))
      && (r.failure.None? ==> |r.sent| == |files|)
    ensures var r := Publish(distExists, listing, projectId, rejects);
      var files := FileEntries(listing);
      r.failure.Some? && distExists && listing != [] ==>
        && |r.sent| < |files|
        && SendFails(projectId, files[|r.sent|], rejects)
        && r.failure == Some(FailureOf(projectId, files[|r.sent|]))
  {
  }

  lemma FileEntriesSnoc(listing: seq<Entry>, i: nat)
    requires i < |listing|
    ensures FileEntries(listing[..i + 1]) ==
      FileEntries(listing[..i]) + (if listing[i].isDir then [] else [listing[i]])
  {
    assert listing[..i + 1][..i] == listing[..i];
  }

  lemma FileEntriesPrefix(listing: seq<Entry>, i: nat)
    requires i <= |listing|
    ensures FileEntries(listing) == FileEntries(listing[..i]) + FileEntries(listing[i..])
  {
    assert listing == listing[..i] + listing[i..];
    FileEntriesAppend(listing[..i], listing[i..]);
  }

  /** Visiting entry `i` of the listing: a directory adds no file, any other entry is
      the next file. */
  lemma ListingStep(listing: seq<Entry>, i: nat, n: nat)
    requires i < |listing|
    requires n <= |FileEntries(listing)| && FileEntries(listing[..i]) == FileEntries(listing)[..n]
    ensures listing[i].isDir ==> FileEntries(listing[..i + 1]) == FileEntries(listing)[..n]
    ensures !listing[i].isDir ==>
      && n < |FileEntries(listing)|
      && FileEntries(listing)[n] == listing[i]
      && FileEntries(listing[..i + 1]) == FileEntries(listing)[..n + 1]
  {
    var files := FileEntries(listing);
    FileEntriesSnoc(listing, i);
    FileEntriesPrefix(listing, i + 1);
    var next := FileEntries(listing[..i + 1]);
    assert next <= files;
    if !listing[i].isDir {
      assert |next| == n + 1;
      assert files[n] == next[n] == listing[i];
      assert next == files[..n + 1];
    }
  }

  /** None of the first `n` uploads throws. */
  predicate SentSafely(projectId: Option<string>, files: seq<Entry>, rejects: set<string>, n: nat)
    requires n <= |files|
  {
    forall j :: 0 <= j < n ==> !SendFails(projectId, files[j], rejects)
  }

  lemma SentSafelyNext(projectId: Option<string>, files: seq<Entry>, rejects: set<string>, n: nat)
    requires n < |files| && SentSafely(projectId, files, rejects, n)
    requires projectId.Some? && ObjectKey(projectId.value, files[n]) !in rejects
    ensures SentSafely(projectId, files, rejects, n + 1)
  {
  }

  /** Once the whole listing is visited, every file has been counted. */
  lemma ListingDone(listing: seq<Entry>, n: nat)
    requires n <= |FileEntries(listing)| && FileEntries(listing[..|listing|]) == FileEntries(listing)[..n]
    ensures n == |FileEntries(listing)|
  {
    assert listing[..|listing|] == listing;
  }

  /** `uploadDistFolder`. */
  method UploadDistFolder(distExists: bool, listing: seq<Entry>, projectId: Option<string>, rejects: set<string>)
    returns (report: PublishReport)
    ensures report == Publish(distExists, listing, projectId, rejects)
  {
    if !distExists {
      return PublishReport(Some(DistMissing), []);
    }
    if |listing| == 0 {
      return PublishReport(Some(DistEmpty), []);
    }
    ghost var files := FileEntries(listing);
    ghost var n := 0;
    var sent: seq<Put> := [];
    var i := 0;
    while i < |listing|
      invariant 0 <= i <= |listing|
      invariant n <= |files| && FileEntries(listing[..i]) == files[..n]
      invariant SentSafely(projectId, files, rejects, n)
      invariant sent == SentBefore(projectId, files, n)
    {
      ListingStep(listing, i, n);
      var e := listing[i];
      if e.isDir {
        i := i + 1;
        continue;
      }
      if projectId.None? {
        PublishStopsAt(listing, projectId, rejects, n);
        return PublishReport(Some(MissingProjectId), []);
      }
      var key := ObjectKey(projectId.value, e);
      if key in rejects {
        PublishStopsAt(listing, projectId, rejects, n);
        return PublishReport(Some(UploadFailed(key)), sent);
      }
      SentSafelyNext(projectId, files, rejects, n);
      SentBeforeNext(projectId, files, n);
      sent := sent + [PutFor(projectId.value, e)];
      n := n + 1;
      i := i + 1;
    }
    ListingDone(listing, n);
    PublishStopsAt(listing, projectId, rejects, n);
    report := PublishReport(None, sent);
  }

  /** The puts sent for the first `n` files. */
  function SentBefore(projectId: Option<string>, files: seq<Entry>, n: nat): seq<Put>
    requires n <= |files|
  {
    if n == 0 || projectId.None? then [] else Puts(projectId.value, files[..n])
  }

  lemma SentBeforeNext(projectId: Option<string>, files: seq<Entry>, n: nat)
    requires n < |files| && projectId.Some?
    ensures SentBefore(projectId, files, n + 1) == SentBefore(projectId, files, n) + [PutFor(projectId.value, files[n])]
  {
    assert files[..n + 1] == files[..n] + [files[n]];
    PutsSnoc(projectId.value, files[..n], files[n]);
  }

  lemma PutsSnoc(projectId: string, files: seq<Entry>, e: Entry)
    ensures Puts(projectId, files + [e]) == Puts(projectId, files) + [PutFor(projectId, e)]
  {
    var a := Puts(projectId, files + [e]);
    var b := Puts(projectId, files) + [PutFor(projectId, e)];
    forall i | 0 <= i < |a|
      ensures a[i] == b[i]
    {
      if i < |files| {
        assert (files + [e])[i] == files[i];
      }
    }
  }

  /** The publication of a non-empty listing, given where its first failing upload is. */
  lemma PublishStopsAt(listing: seq<Entry>, projectId: Option<string>, rejects: set<string>, n: nat)
    requires listing != []
    requires n <= |FileEntries(listing)|
    requires SentSafely(projectId, FileEntries(listing), rejects, n)
    requires n < |FileEntries(listing)| ==> SendFails(projectId, FileEntries(listing)[n], rejects)
    ensures var files := FileEntries(listing);
      Publish(true, listing, projectId, rejects) ==
        PublishReport(if n == |files| then None else Some(FailureOf(projectId, files[n])),
                      SentBefore(projectId, files, n))
  {
    FirstFailingAt(FileEntries(listing), projectId, rejects, n);
  }

  /** A dist folder holding only empty directories passes the emptiness check and is
      published without a single upload, even with no project id. */
  lemma OnlyEmptyDirectoriesPublishNothing()
    ensures Publish(true, Listing([Dir("assets", [])], []), None, {}) == PublishReport(None, [])
  {
    var listing := Listing([Dir("assets", [])], []);
    assert [Dir("assets", [])][1..] == [];
    assert [] + ["assets"] == ["assets"];
    assert listing == [Entry(["assets"], true)];
    SingleFileEntry(Entry(["assets"], true));
  }

  /** `init`: build, then publish `output/dist`; any failure exits with status 1,
      and nothing is uploaded unless the build succeeded. */
  method Init(outDirExists: bool, install: Proc, build: Proc, distExists: bool,
              listing: seq<Entry>, projectId: Option<string>, rejects: set<string>)
    returns (exitCode: int, sent: seq<Put>)
    ensures var built := BuildOutcome(outDirExists, install, build, distExists);
      var published := Publish(distExists, listing, projectId, rejects);
      && (built.Some? ==> exitCode == 1 && sent == [])
      && (built.None? ==> sent == published.sent && (exitCode == 0 <==> published.failure.None?))
    ensures exitCode == 0 || exitCode == 1
  {
    var failure := ExecuteBuild(outDirExists, install, build, distExists);
    if failure.Some? {
      return 1, [];
    }
    var report := UploadDistFolder(distExists, listing, projectId, rejects);
    sent := report.sent;
    exitCode := if report.failure.Some? then 1 else 0;
  }
}
