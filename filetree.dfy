/** The file system both artifact publishers walk (build-server/script.js and
    build-server/upload-to-r2.js), as an inductive tree. A path is the sequence of its
    segments, so joining and normalising path strings is left to the callers. */
module FileTree {
  import opened JsText

  type Path = seq<string>

  datatype Node = File(name: string, size: nat) | Dir(name: string, children: seq<Node>)

  /** One entry of a recursive directory listing: its path below the listed directory
      and whether it is a directory. */
  datatype Entry = Entry(path: Path, isDir: bool)

  /** A recursive listing of `children` (the contents of the directory at `base`), each
      directory listed before its contents. */
  function Listing(children: seq<Node>, base: Path): seq<Entry>
    decreases children
  {
    if children == [] then []
    else
      var here := match children[0]
        case File(n, _) => [Entry(base + [n], false)]
        case Dir(n, cs) => [Entry(base + [n], true)] + Listing(cs, base + [n]);
      here + Listing(children[1..], base)
  }

  /** The non-directory descendants of `children`, depth first in child order, as paths
      below `base`. */
  function Files(children: seq<Node>, base: Path): seq<Path>
    decreases children
  {
    if children == [] then []
    else
      var here := match children[0]
        case File(n, _) => [base + [n]]
        case Dir(n, cs) => Files(cs, base + [n]);
      here + Files(children[1..], base)
  }

  /** The entries of a listing that are not directories, in order. */
  function FileEntries(entries: seq<Entry>): (r: seq<Entry>)
    ensures forall i :: 0 <= i < |r| ==> !r[i].isDir
    ensures |r| <= |entries|
  {
    if entries == [] then []
    else
      var last := entries[|entries| - 1];
      FileEntries(entries[..|entries| - 1]) + (if last.isDir then [] else [last])
  }

  function PathsOf(entries: seq<Entry>): (r: seq<Path>)
    ensures |r| == |entries| && forall i :: 0 <= i < |r| ==> r[i] == entries[i].path
  {
    seq(|entries|, i requires 0 <= i < |entries| => entries[i].path)
  }

  lemma {:induction false} FileEntriesAppend(a: seq<Entry>, b: seq<Entry>)
    ensures FileEntries(a + b) == FileEntries(a) + FileEntries(b)
    decreases |b|
  {
    if b != [] {
      var b' := b[..|b| - 1];
      assert (a + b)[..|a + b| - 1] == a + b';
      FileEntriesAppend(a, b');
    } else {
      assert a + b == a;
    }
  }

  lemma {:induction false} FilesAppend(a: seq<Node>, b: seq<Node>, base: Path)
    ensures Files(a + b, base) == Files(a, base) + Files(b, base)
    decreases |a|
  {
    if a != [] {
      assert (a + b)[0] == a[0];
      assert (a + b)[1..] == a[1..] + b;
      FilesAppend(a[1..], b, base);
    } else {
      assert a + b == b;
    }
  }

  /** Walking one more child adds that child's files after the others'. */
  lemma FilesStep(children: seq<Node>, i: nat, base: Path)
    requires i < |children|
    ensures children[i].File? ==>
      Files(children[..i + 1], base) == Files(children[..i], base) + [base + [children[i].name]]
    ensures children[i].Dir? ==>
      Files(children[..i + 1], base) == Files(children[..i], base) + Files(children[i].children, base + [children[i].name])
  {
    assert children[..i + 1] == children[..i] + [children[i]];
    FilesAppend(children[..i], [children[i]], base);
    assert [children[i]][1..] == [];
  }

  /** The two walks agree: the file paths of the listing (directories dropped) are
      exactly the files, in the same order. */
  lemma {:induction false} FilesAreListedFiles(children: seq<Node>, base: Path)
    ensures PathsOf(FileEntries(Listing(children, base))) == Files(children, base)
    decreases children
  {
    if children != [] {
      FilesAreListedFiles(children[1..], base);
      var rest := Listing(children[1..], base);
      match children[0]
      case File(n, _) =>
        var e := Entry(base + [n], false);
        assert Listing(children, base) == [e] + rest;
        FileEntriesAppend([e], rest);
        SingleFileEntry(e);
        PathsOfAppend([e], FileEntries(rest));
      case Dir(n, cs) =>
        FilesAreListedFiles(cs, base + [n]);
        var e := Entry(base + [n], true);
        var inner := Listing(cs, base + [n]);
        assert Listing(children, base) == ([e] + inner) + rest;
        FileEntriesAppend([e] + inner, rest);
        FileEntriesAppend([e], inner);
        SingleFileEntry(e);
        assert FileEntries([e] + inner) == FileEntries(inner);
        PathsOfAppend(FileEntries(inner), FileEntries(rest));
    }
  }

  lemma SingleFileEntry(e: Entry)
    ensures FileEntries([e]) == if e.isDir then [] else [e]
  {
    assert [e][..0] == [];
  }

  lemma PathsOfAppend(a: seq<Entry>, b: seq<Entry>)
    ensures PathsOf(a + b) == PathsOf(a) + PathsOf(b)
  {
  }

  /** Each path with `prefix` put in front. */
  function Under(prefix: Path, paths: seq<Path>): (r: seq<Path>)
    ensures |r| == |paths| && forall i :: 0 <= i < |r| ==> r[i] == prefix + paths[i]
  {
    seq(|paths|, i requires 0 <= i < |paths| => prefix + paths[i])
  }

  /** Walking the same children from a deeper base yields the same files, each under
      that base. */
  lemma {:induction false} FilesUnder(children: seq<Node>, prefix: Path, base: Path)
    ensures Files(children, prefix + base) == Under(prefix, Files(children, base))
    decreases children
  {
    if children != [] {
      FilesUnder(children[1..], prefix, base);
      var here := match children[0]
        case File(n, _) => [base + [n]]
        case Dir(n, cs) => Files(cs, base + [n]);
      var deepHere := match children[0]
        case File(n, _) => [prefix + base + [n]]
        case Dir(n, cs) => Files(cs, prefix + base + [n]);
      match children[0]
      case File(n, _) =>
        assert prefix + base + [n] == prefix + (base + [n]);
        assert deepHere == Under(prefix, here);
      case Dir(n, cs) =>
        assert prefix + base + [n] == prefix + (base + [n]);
        FilesUnder(cs, prefix, base + [n]);
        assert deepHere == Under(prefix, here);
      UnderConcat(prefix, here, Files(children[1..], base));
    }
  }

  /** Prefixing distributes over concatenation. */
  lemma UnderConcat(prefix: Path, a: seq<Path>, b: seq<Path>)
    ensures Under(prefix, a + b) == Under(prefix, a) + Under(prefix, b)
  {
    var l, r := Under(prefix, a + b), Under(prefix, a) + Under(prefix, b);
    forall i | 0 <= i < |l|
      ensures l[i] == r[i]
    {
      if i < |a| {
        assert (a + b)[i] == a[i];
      } else {
        assert (a + b)[i] == b[i - |a|];
      }
    }
  }

  /** A directory that Node's recursive `readdirSync` has queued but not read yet: its
      contents and its path below the listed directory. */
  datatype Pending = Pending(children: seq<Node>, path: Path)

  /** The number of nodes in a forest, directories included. */
  function SizeAll(children: seq<Node>): nat
    decreases children
  {
    if children == [] then 0
    else
      var here := match children[0]
        case File(_, _) => 1
        case Dir(_, cs) => 1 + SizeAll(cs);
      here + SizeAll(children[1..])
  }

  /** The number of nodes still to be read below the queued directories. */
  function QueueSize(queue: seq<Pending>): nat {
    if queue == [] then 0 else SizeAll(queue[0].children) + QueueSize(queue[1..])
  }

  /** One directory read on its own: an entry per child, in child order. */
  function Level(children: seq<Node>, base: Path): (r: seq<Entry>)
    ensures |r| == |children|
    ensures forall i :: 0 <= i < |r| ==> r[i] == Entry(base + [children[i].name], children[i].Dir?)
  {
    if children == [] then []
    else [Entry(base + [children[0].name], children[0].Dir?)] + Level(children[1..], base)
  }

  /** The subdirectories of one directory, in child order, ready to be queued. */
  function Subdirs(children: seq<Node>, base: Path): (r: seq<Pending>)
    ensures |r| <= |children|
  {
    if children == [] then []
    else
      var here := match children[0]
        case File(_, _) => []
        case Dir(n, cs) => [Pending(cs, base + [n])];
      here + Subdirs(children[1..], base)
  }

  /** Node's recursive `readdirSync`: read the first queued directory, list its entries,
      queue its subdirectories behind the others, and go on until the queue is empty. */
  function Breadth(queue: seq<Pending>): seq<Entry>
    decreases QueueSize(queue), |queue|
  {
    if queue == [] then []
    else
      var p := queue[0];
      QueueSizeAppend(queue[1..], Subdirs(p.children, p.path));
      SubdirsSize(p.children, p.path);
      Level(p.children, p.path) + Breadth(queue[1..] + Subdirs(p.children, p.path))
  }

  /** The breadth-first listing of `children` (the contents of the directory at `base`):
      each level in child order, the deeper levels after it. */
  function BreadthListing(children: seq<Node>, base: Path): seq<Entry> {
    Breadth([Pending(children, base)])
  }

  lemma {:induction false} QueueSizeAppend(a: seq<Pending>, b: seq<Pending>)
    ensures QueueSize(a + b) == QueueSize(a) + QueueSize(b)
    decreases |a|
  {
    if a == [] {
      assert a + b == b;
    } else {
      assert (a + b)[1..] == a[1..] + b;
      QueueSizeAppend(a[1..], b);
    }
  }

  /** Queuing the subdirectories leaves every node below them and drops one per child. */
  lemma {:induction false} SubdirsSize(children: seq<Node>, base: Path)
    ensures QueueSize(Subdirs(children, base)) + |children| == SizeAll(children)
    decreases children
  {
    if children != [] {
      SubdirsSize(children[1..], base);
      var rest := Subdirs(children[1..], base);
      match children[0]
      case File(_, _) =>
        assert Subdirs(children, base) == [] + rest == rest;
      case Dir(n, cs) =>
        var q := Pending(cs, base + [n]);
        assert Subdirs(children, base) == [q] + rest;
        QueueSizeAppend([q], rest);
        assert [q][1..] == [];
        assert QueueSize([q]) == SizeAll(cs);
    }
  }

  /** The files below every queued directory, queue order then depth first. */
  function QueuedFiles(queue: seq<Pending>): seq<Path> {
    if queue == [] then [] else Files(queue[0].children, queue[0].path) + QueuedFiles(queue[1..])
  }

  lemma {:induction false} QueuedFilesAppend(a: seq<Pending>, b: seq<Pending>)
    ensures QueuedFiles(a + b) == QueuedFiles(a) + QueuedFiles(b)
    decreases |a|
  {
    if a == [] {
      assert a + b == b;
    } else {
      assert (a + b)[1..] == a[1..] + b;
      QueuedFilesAppend(a[1..], b);
    }
  }

  /** The file paths of a listing distribute over concatenation. */
  lemma FilePathsAppend(a: seq<Entry>, b: seq<Entry>)
    ensures PathsOf(FileEntries(a + b)) == PathsOf(FileEntries(a)) + PathsOf(FileEntries(b))
  {
    FileEntriesAppend(a, b);
    PathsOfAppend(FileEntries(a), FileEntries(b));
  }

  /** Reading one directory yields its own files now and the files of its subdirectories
      later: together, the same files as its depth-first walk. */
  lemma {:induction false} LevelThenSubdirs(children: seq<Node>, base: Path)
    ensures multiset(PathsOf(FileEntries(Level(children, base)))) + multiset(QueuedFiles(Subdirs(children, base)))
         == multiset(Files(children, base))
    decreases children
  {
    if children != [] {
      var c, tail := children[0], children[1..];
      LevelThenSubdirs(tail, base);
      var e := Entry(base + [c.name], c.Dir?);
      assert children == [c] + tail;
      assert Level(children, base) == [e] + Level(tail, base);
      FilePathsAppend([e], Level(tail, base));
      SubdirsAppend([c], tail, base);
      QueuedFilesAppend(Subdirs([c], base), Subdirs(tail, base));
      FilesAppend([c], tail, base);
      OneChild(c, base);
    }
  }

  /** A file child is listed now; a directory child is queued with all its files. */
  lemma OneChild(c: Node, base: Path)
    ensures PathsOf(FileEntries([Entry(base + [c.name], c.Dir?)])) + QueuedFiles(Subdirs([c], base))
         == Files([c], base)
  {
    var e := Entry(base + [c.name], c.Dir?);
    SingleFileEntry(e);
    assert [c][1..] == [];
    match c
    case File(n, _) =>
      assert Subdirs([c], base) == [];
    case Dir(n, cs) =>
      var q := Pending(cs, base + [n]);
      assert Subdirs([c], base) == [q];
      assert QueuedFiles([q]) == Files(cs, base + [n]) + QueuedFiles([]);
  }

  lemma {:induction false} SubdirsAppend(a: seq<Node>, b: seq<Node>, base: Path)
    ensures Subdirs(a + b, base) == Subdirs(a, base) + Subdirs(b, base)
    decreases |a|
  {
    if a != [] {
      assert (a + b)[0] == a[0];
      assert (a + b)[1..] == a[1..] + b;
      SubdirsAppend(a[1..], b, base);
    } else {
      assert a + b == b;
    }
  }

  /** The breadth-first reading of the queue lists every queued file exactly once. */
  lemma {:induction false} BreadthFiles(queue: seq<Pending>)
    ensures multiset(PathsOf(FileEntries(Breadth(queue)))) == multiset(QueuedFiles(queue))
    decreases QueueSize(queue), |queue|
  {
    if queue != [] {
      var p := queue[0];
      var next := queue[1..] + Subdirs(p.children, p.path);
      QueueSizeAppend(queue[1..], Subdirs(p.children, p.path));
      SubdirsSize(p.children, p.path);
      BreadthFiles(next);
      assert Breadth(queue) == Level(p.children, p.path) + Breadth(next);
      FilePathsAppend(Level(p.children, p.path), Breadth(next));
      QueuedFilesAppend(queue[1..], Subdirs(p.children, p.path));
      LevelThenSubdirs(p.children, p.path);
    }
  }

  /** The breadth-first listing and the depth-first walk hold the same files, each as
      often, though in a different order once a directory has subdirectories. */
  lemma BreadthListingHoldsFiles(children: seq<Node>, base: Path)
    ensures multiset(PathsOf(FileEntries(BreadthListing(children, base)))) == multiset(Files(children, base))
  {
    BreadthFiles([Pending(children, base)]);
    assert QueuedFiles([Pending(children, base)]) == Files(children, base) + QueuedFiles([]);
  }

  /** A dist folder with a subfolder: the breadth-first listing reaches the top-level
      file before the subfolder's file, the pre-order listing after it. */
  lemma ListingOrdersDiffer()
    ensures var t := [Dir("a", [File("x", 0)]), File("b", 0)];
      && BreadthListing(t, []) == [Entry(["a"], true), Entry(["b"], false), Entry(["a", "x"], false)]
      && Listing(t, []) == [Entry(["a"], true), Entry(["a", "x"], false), Entry(["b"], false)]
  {
    var t := [Dir("a", [File("x", 0)]), File("b", 0)];
    var q1 := [Pending([File("x", 0)], ["a"])];
    assert [] + ["a"] == ["a"] && [] + ["b"] == ["b"] && ["a"] + ["x"] == ["a", "x"];
    assert t[1..] == [File("b", 0)];
    assert [File("b", 0)][1..] == [];
    assert Subdirs([File("b", 0)], []) == [];
    assert Subdirs(t, []) == q1 + [];
    assert q1 + [] == q1;
    assert Breadth([Pending(t, [])]) == Level(t, []) + Breadth([] + q1);
    assert [] + q1 == q1;
    assert Subdirs([File("x", 0)], ["a"]) == [];
    assert Breadth(q1) == Level([File("x", 0)], ["a"]) + Breadth([]);
    assert [File("x", 0)][1..] == [];
    assert Listing([File("x", 0)], ["a"]) == [Entry(["a", "x"], false)] + [];
    assert Listing([File("b", 0)], []) == [Entry(["b"], false)] + [];
  }


  /** The first child called `name`. */
  function Child(children: seq<Node>, name: string): (r: Option<Node>)
    ensures r.Some? ==> r.value in children && r.value.name == name
    ensures r.None? ==> forall i :: 0 <= i < |children| ==> children[i].name != name
  {
    if children == [] then None
    else if children[0].name == name then Some(children[0])
    else Child(children[1..], name)
  }

  /** The node a path below `n` leads to. */
  function Lookup(n: Node, p: Path): Option<Node>
    decreases |p|
  {
    if p == [] then Some(n)
    else match n
      case File(_, _) => None
      case Dir(_, cs) =>
        match Child(cs, p[0])
        case None => None
        case Some(c) => Lookup(c, p[1..])
  }
}
