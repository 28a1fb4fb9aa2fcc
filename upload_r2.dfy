/** The standalone uploader (build-server/upload-to-r2.js): after checking its
    environment and its argument, it collects the files of the target (one file, or a
    directory walked recursively), uploads each under the base path, counts successes,
    failures and bytes, and exits with status 1 when anything failed. The working
    directory is a file tree, the bucket the set of keys whose upload is refused. */
module UploadR2 {
  import opened JsText
  import opened FileTree

  const RequiredEnv: seq<string> :=
    ["R2_ACCOUNT_ID", "R2_ACCESS_KEY_ID", "R2_SECRET_ACCESS_KEY", "R2_BUCKET_NAME", "R2_ENDPOINT"]

  /** `process.env[name]` is truthy. */
  predicate EnvSet(env: map<string, string>, name: string) {
    name in env && env[name] != ""
  }

  function EnvGet(env: map<string, string>, name: string): Option<string> {
    if name in env then Some(env[name]) else None
  }

  /** The start-up check: the first required variable that is unset or empty, in the
      order they are listed. */
  method CheckEnv(env: map<string, string>) returns (missing: Option<string>)
    ensures missing.None? <==> forall i :: 0 <= i < |RequiredEnv| ==> EnvSet(env, RequiredEnv[i])
    ensures missing.Some? ==>
      exists i :: 0 <= i < |RequiredEnv| && RequiredEnv[i] == missing.value
        && !EnvSet(env, RequiredEnv[i])
        && forall j :: 0 <= j < i ==> EnvSet(env, RequiredEnv[j])
  {
    var i := 0;
    while i < |RequiredEnv|
      invariant 0 <= i <= |RequiredEnv|
      invariant forall j :: 0 <= j < i ==> EnvSet(env, RequiredEnv[j])
    {
      if !EnvSet(env, RequiredEnv[i]) {
        return Some(RequiredEnv[i]);
      }
      i := i + 1;
    }
    return None;
  }

  /** The segments of a path relative to the working directory; empty and "."
      segments name nothing. */
  function Segments(parts: seq<string>): (r: Path)
    ensures forall i :: 0 <= i < |r| ==> r[i] != "" && r[i] != "."
    ensures |r| <= |parts|
  {
    if parts == [] then []
    else
      var rest := Segments(parts[1..]);
      if parts[0] == "" || parts[0] == "." then rest else [parts[0]] + rest
  }

  function TargetPath(arg: string): Path {
    Segments(Split(arg, '/'))
  }

  /** The length of the longest common prefix of two paths. */
  function CommonPrefix(a: Path, b: Path): (k: nat)
    ensures k <= |a| && k <= |b| && a[..k] == b[..k]
    ensures k < |a| && k < |b| ==> a[k] != b[k]
  {
    if a == [] || b == [] || a[0] != b[0] then 0
    else
      var k := 1 + CommonPrefix(a[1..], b[1..]);
      assert a[..k] == [a[0]] + a[1..][..k - 1];
      assert b[..k] == [b[0]] + b[1..][..k - 1];
      k
  }

  function Ups(n: nat): (r: Path)
    ensures |r| == n && forall i :: 0 <= i < n ==> r[i] == ".."
  {
    seq(n, i => "..")
  }

  /** `path.relative(from, to)`: up out of `from` to the common ancestor, then down to `to`. */
  function Relative(from: Path, to: Path): Path {
    var k := CommonPrefix(from, to);
    Ups(|from| - k) + to[k..]
  }

  /** A path below `root` is reached from it by its own remaining segments. */
  lemma RelativeBelow(root: Path, rel: Path)
    ensures Relative(root, root + rel) == rel
  {
    var k := CommonPrefix(root, root + rel);
    assert forall j :: 0 <= j < |root| ==> (root + rel)[j] == root[j];
    assert k == |root|;
    assert (root + rel)[k..] == rel;
  }

  /** `getS3Key`: the path relative to the root, joined with '/', after the base path
      when one is set. */
  function S3Key(file: Path, root: Path, basePath: string): string {
    var normalized := JoinWith(Relative(root, file), '/');
    if basePath != "" then basePath + "/" + normalized else normalized
  }

  lemma S3KeyBelow(root: Path, rel: Path, basePath: string)
    ensures S3Key(root + rel, root, basePath) ==
      (if basePath != "" then basePath + "/" else "") + JoinWith(rel, '/')
  {
    RelativeBelow(root, rel);
  }

  /** `getAllFiles`: a depth-first walk appending every file below `dirPath` to `acc`. */
  method GetAllFiles(children: seq<Node>, dirPath: Path, acc: seq<Path>) returns (files: seq<Path>)
    ensures files == acc + Files(children, dirPath)
    decreases children
  {
    files := acc;
    var i := 0;
    while i < |children|
      invariant 0 <= i <= |children|
      invariant files == acc + Files(children[..i], dirPath)
      decreases |children| - i
    {
      FilesStep(children, i, dirPath);
      ghost var before := Files(children[..i], dirPath);
      match children[i] {
        case File(name, _) =>
          AppendAssoc(acc, before, [dirPath + [name]]);
          files := files + [dirPath + [name]];
        case Dir(name, cs) =>
          assert children[i] in children;
          AppendAssoc(acc, before, Files(cs, dirPath + [name]));
          files := GetAllFiles(cs, dirPath + [name], files);
      }
      i := i + 1;
    }
    TakeAll(children);
  }

  datatype UploadResult = Uploaded(key: string, size: nat) | NotUploaded(key: string)

  /** `uploadFile`: never throws; a refused send is reported in the result. */
  function UploadFile(key: string, size: nat, rejects: set<string>): (r: UploadResult)
    ensures r.key == key
    ensures r.Uploaded? <==> key !in rejects
    ensures r.Uploaded? ==> r.size == size
  {
    if key in rejects then NotUploaded(key) else Uploaded(key, size)
  }

  function SizeOf(cwd: seq<Node>, file: Path): nat {
    match Lookup(Dir("", cwd), file)
    case Some(File(_, size)) => size
    case _ => 0
  }

  /** The files the target names, and the directory their keys are relative to. */
  function FilesToUpload(cwd: seq<Node>, target: Path): (r: Option<(seq<Path>, Path)>)
    ensures r.Some? <==> Lookup(Dir("", cwd), target).Some?
    ensures r.Some? && Lookup(Dir("", cwd), target).value.File? ==>
      target != [] && r.value.0 == [target] && r.value.1 == target[..|target| - 1]
    ensures r.Some? && Lookup(Dir("", cwd), target).value.Dir? ==>
      r.value.1 == target && r.value.0 == Files(Lookup(Dir("", cwd), target).value.children, target)
  {
    match Lookup(Dir("", cwd), target)
    case None => None
    case Some(Dir(_, cs)) => Some((Files(cs, target), target))
    case Some(File(_, _)) =>
      if target == [] then None
      else Some(([target], target[..|target| - 1]))
  }

  function CountUploaded(results: seq<UploadResult>): (n: nat)
    ensures n <= |results|
  {
    if results == [] then 0
    else CountUploaded(results[..|results| - 1]) + (if results[|results| - 1].Uploaded? then 1 else 0)
  }

  function SizeUploaded(results: seq<UploadResult>): nat {
    if results == [] then 0
    else
      var last := results[|results| - 1];
      SizeUploaded(results[..|results| - 1]) + (if last.Uploaded? then last.size else 0)
  }

  lemma {:induction false} AllUploaded(results: seq<UploadResult>)
    ensures CountUploaded(results) == |results| <==> forall i :: 0 <= i < |results| ==> results[i].Uploaded?
    decreases |results|
  {
    if results != [] {
      var init := results[..|results| - 1];
      AllUploaded(init);
      if CountUploaded(results) == |results| {
        assert CountUploaded(init) == |init| && results[|results| - 1].Uploaded?;
        forall i | 0 <= i < |results|
          ensures results[i].Uploaded?
        {
          if i < |init| {
            assert results[i] == init[i];
          }
        }
      } else if CountUploaded(init) != |init| {
        var i :| 0 <= i < |init| && !init[i].Uploaded?;
        assert results[i] == init[i];
      }
    }
  }

  datatype Summary = Summary(exitCode: int, results: seq<UploadResult>, successCount: nat, failCount: nat, totalSize: nat)

  /** The run ends before uploading anything. */
  function Abort(): Summary {
    Summary(1, [], 0, 0, 0)
  }

  /** The result of uploading each file in turn, in order. */
  function ResultsFor(cwd: seq<Node>, files: seq<Path>, root: Path, basePath: string, rejects: set<string>): (r: seq<UploadResult>)
    ensures |r| == |files|
    ensures forall i :: 0 <= i < |files| ==>
      r[i] == UploadFile(S3Key(files[i], root, basePath), SizeOf(cwd, files[i]), rejects)
  {
    seq(|files|, i requires 0 <= i < |files| =>
      UploadFile(S3Key(files[i], root, basePath), SizeOf(cwd, files[i]), rejects))
  }

  lemma ResultsForSnoc(cwd: seq<Node>, files: seq<Path>, root: Path, basePath: string, rejects: set<string>, i: nat)
    requires i < |files|
    ensures ResultsFor(cwd, files[..i + 1], root, basePath, rejects) ==
      ResultsFor(cwd, files[..i], root, basePath, rejects)
        + [UploadFile(S3Key(files[i], root, basePath), SizeOf(cwd, files[i]), rejects)]
  {
    var l := ResultsFor(cwd, files[..i + 1], root, basePath, rejects);
    var init := ResultsFor(cwd, files[..i], root, basePath, rejects);
    var r := init + [UploadFile(S3Key(files[i], root, basePath), SizeOf(cwd, files[i]), rejects)];
    forall j | 0 <= j < |l|
      ensures l[j] == r[j]
    {
      assert files[..i + 1][j] == files[j];
      if j < i {
        assert files[..i][j] == files[j];
      }
    }
  }

  /** The upload loop of `main`: one result per file in order, with the counters it
      keeps. */
  method UploadAll(cwd: seq<Node>, files: seq<Path>, root: Path, basePath: string, rejects: set<string>)
    returns (results: seq<UploadResult>, successCount: nat, failCount: nat, totalSize: nat)
    ensures results == ResultsFor(cwd, files, root, basePath, rejects)
    ensures successCount == CountUploaded(results)
    ensures successCount + failCount == |files|
    ensures totalSize == SizeUploaded(results)
  {
    results, successCount, failCount, totalSize := [], 0, 0, 0;
    var i := 0;
    while i < |files|
      invariant 0 <= i <= |files|
      invariant results == ResultsFor(cwd, files[..i], root, basePath, rejects)
      invariant successCount == CountUploaded(results)
      invariant successCount + failCount == i
      invariant totalSize == SizeUploaded(results)
    {
      var result := UploadFile(S3Key(files[i], root, basePath), SizeOf(cwd, files[i]), rejects);
      ResultsForSnoc(cwd, files, root, basePath, rejects, i);
      assert (results + [result])[..i] == results;
      results := results + [result];
      if result.Uploaded? {
        successCount := successCount + 1;
        totalSize := totalSize + result.size;
      } else {
        failCount := failCount + 1;
      }
      i := i + 1;
    }
    TakeAll(files);
  }

  /** `main`, the whole run: environment check, argument check, collection, upload loop and
      exit status. */
  method Upload(env: map<string, string>, argv: seq<string>, cwd: seq<Node>, rejects: set<string>)
    returns (run: Summary)
    ensures (exists i :: 0 <= i < |RequiredEnv| && !EnvSet(env, RequiredEnv[i])) ==> run == Abort()
    ensures |argv| <= 2 || argv[2] == "" ==> run == Abort()
    ensures |argv| > 2 && FilesToUpload(cwd, TargetPath(argv[2])).None? ==> run == Abort()
    ensures (forall i :: 0 <= i < |RequiredEnv| ==> EnvSet(env, RequiredEnv[i])) ==>
      |argv| > 2 && argv[2] != "" && FilesToUpload(cwd, TargetPath(argv[2])).Some? ==> run != Abort()
    ensures run != Abort() ==>
      && |argv| > 2 && FilesToUpload(cwd, TargetPath(argv[2])).Some?
      && var (files, root) := FilesToUpload(cwd, TargetPath(argv[2])).value;
         var basePath := OrElse(EnvGet(env, "R2_BASE_PATH"), "");
         && |run.results| == |files|
         && (forall i :: 0 <= i < |files| ==>
              run.results[i] == UploadFile(S3Key(files[i], root, basePath), SizeOf(cwd, files[i]), rejects))
         && run.successCount == CountUploaded(run.results)
         && run.successCount + run.failCount == |files|
         && run.totalSize == SizeUploaded(run.results)
    ensures run.exitCode == 0 <==>
      run != Abort() && forall i :: 0 <= i < |run.results| ==> run.results[i].Uploaded?
    ensures run.exitCode == 0 || run.exitCode == 1
  {
    var missing := CheckEnv(env);
    if missing.Some? {
      return Abort();
    }
    var basePath := OrElse(EnvGet(env, "R2_BASE_PATH"), "");
    if |argv| <= 2 || argv[2] == "" {
      return Abort();
    }
    var target := TargetPath(argv[2]);
    var collected := FilesToUpload(cwd, target);
    if collected.None? {
      return Abort();
    }
    var (files, root) := collected.value;
    var results, successCount, failCount, totalSize := UploadAll(cwd, files, root, basePath, rejects);
    AllUploaded(results);
    var exitCode := if failCount > 0 then 1 else 0;
    run := Summary(exitCode, results, successCount, failCount, totalSize);
  }

  /** Uploading a directory: each file's key is the base path, then the file's path
      below the directory. */
  lemma DirectoryKeys(cwd: seq<Node>, target: Path, basePath: string)
    requires FilesToUpload(cwd, TargetPath(JoinWith(target, '/'))).Some?
    requires Lookup(Dir("", cwd), TargetPath(JoinWith(target, '/'))).value.Dir?
    ensures var (files, root) := FilesToUpload(cwd, TargetPath(JoinWith(target, '/'))).value;
      forall rel :: root + rel in files ==>
        S3Key(root + rel, root, basePath) == (if basePath != "" then basePath + "/" else "") + JoinWith(rel, '/')
  {
    var (files, root) := FilesToUpload(cwd, TargetPath(JoinWith(target, '/'))).value;
    forall rel | root + rel in files
      ensures S3Key(root + rel, root, basePath) == (if basePath != "" then basePath + "/" else "") + JoinWith(rel, '/')
    {
      S3KeyBelow(root, rel, basePath);
    }
  }

  /** Uploading a single file: its key is the base path, then its own name. */
  lemma SingleFileKey(cwd: seq<Node>, target: Path, basePath: string)
    requires FilesToUpload(cwd, target).Some? && Lookup(Dir("", cwd), target).value.File?
    ensures FilesToUpload(cwd, target).value.0 == [target]
    ensures S3Key(target, FilesToUpload(cwd, target).value.1, basePath)
         == (if basePath != "" then basePath + "/" else "") + target[|target| - 1]
  {
    var root, name := target[..|target| - 1], target[|target| - 1];
    assert FilesToUpload(cwd, target).value.1 == root;
    ParentAndName(target);
    NameKey(root, name, basePath);
  }

  /** A non-empty path is its parent followed by its last name. */
  lemma ParentAndName(p: Path)
    requires p != []
    ensures p == p[..|p| - 1] + [p[|p| - 1]]
  {
  }

  /** A file directly in the root is keyed by its name alone. */
  lemma NameKey(root: Path, name: string, basePath: string)
    ensures S3Key(root + [name], root, basePath) == (if basePath != "" then basePath + "/" else "") + name
  {
    S3KeyBelow(root, [name], basePath);
    assert JoinWith([name], '/') == name;
  }
}
