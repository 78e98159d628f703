/**
 * The part of `std::fs` the tool relies on, over an abstract filesystem: a map
 * from paths to nodes. Each primitive is a function giving the filesystem after
 * the call (or the error it reports, leaving the filesystem as it was), and the
 * class `Disk` performs the same primitives in place.
 */
module FileSystem {
  import opened Outcomes

  /** A path as its components: `["", "home", "u"]` is "/home/u", `["C:", "Users"]` is "C:/Users". */
  type Path = seq<string>

  datatype Node = File(content: string) | Dir

  type Fs = map<Path, Node>

  /** The result of a sequence of filesystem effects and the filesystem it leaves behind. */
  datatype Outcome<T> = Outcome(result: Result<T>, fs: Fs)

  function Parent(p: Path): Path
    requires |p| > 0
  {
    p[..|p| - 1]
  }

  /** `Path::is_dir` */
  predicate IsDir(fs: Fs, p: Path) {
    p in fs && fs[p].Dir?
  }

  /** The parent of `p` is a directory (a top-level path hangs off the implicit root). */
  predicate ParentIsDir(fs: Fs, p: Path) {
    |p| > 0 && (|p| == 1 || IsDir(fs, Parent(p)))
  }

  /** Every entry hangs off a directory of the map (or off the implicit root). */
  ghost predicate WellFormed(fs: Fs) {
    forall p | p in fs :: |p| > 0 && (|p| > 1 ==> IsDir(fs, Parent(p)))
  }

  /** No entry lies at or below `p`. */
  ghost predicate NothingAt(fs: Fs, p: Path) {
    forall q | q in fs :: !(p <= q)
  }

  /** The text of a path, components joined by "/". */
  function PathText(p: Path): string {
    if |p| == 0 then ""
    else if |p| == 1 then p[0]
    else PathText(Parent(p)) + "/" + p[|p| - 1]
  }

  /** `fs` without the entry `p` and everything below it. */
  function Pruned(fs: Fs, p: Path): (r: Fs)
    ensures forall q | q in r :: q in fs && r[q] == fs[q] && !(p <= q)
    ensures forall q | q in fs && !(p <= q) :: q in r
  {
    map q | q in fs && !(p <= q) :: fs[q]
  }

  lemma GraftKeysInjective(fs: Fs, a: Path, b: Path)
    ensures forall q1, q2 | q1 in fs && a <= q1 && q2 in fs && a <= q2 && b + q1[|a|..] == b + q2[|a|..] :: q1 == q2
  {
    forall q1, q2 | q1 in fs && a <= q1 && q2 in fs && a <= q2 && b + q1[|a|..] == b + q2[|a|..]
      ensures q1 == q2
    {
      assert q1[|a|..] == (b + q1[|a|..])[|b|..];
      assert q2[|a|..] == (b + q2[|a|..])[|b|..];
      assert q1 == a + q1[|a|..];
      assert q2 == a + q2[|a|..];
    }
  }

  /** The entries at and below `a`, moved to the same places below `b`. */
  function Graft(fs: Fs, a: Path, b: Path): (r: Fs)
    ensures forall q | q in fs && a <= q :: b + q[|a|..] in r && r[b + q[|a|..]] == fs[q]
    ensures forall k | k in r :: b <= k && a + k[|b|..] in fs && r[k] == fs[a + k[|b|..]]
  {
    GraftEntries(fs, a, b);
    GraftMap(fs, a, b)
  }

  function GraftMap(fs: Fs, a: Path, b: Path): Fs {
    GraftKeysInjective(fs, a, b);
    map q | q in fs && a <= q :: b + q[|a|..] := fs[q]
  }

  /** The grafted map holds each moved entry, and nothing else. */
  lemma GraftEntries(fs: Fs, a: Path, b: Path)
    ensures forall q | q in fs && a <= q :: b + q[|a|..] in GraftMap(fs, a, b) && GraftMap(fs, a, b)[b + q[|a|..]] == fs[q]
    ensures forall k | k in GraftMap(fs, a, b) :: b <= k && a + k[|b|..] in fs && GraftMap(fs, a, b)[k] == fs[a + k[|b|..]]
  {
    var r := GraftMap(fs, a, b);
    GraftKeysInjective(fs, a, b);
    forall k | k in r ensures b <= k && a + k[|b|..] in fs && r[k] == fs[a + k[|b|..]] {
      var q :| q in fs && a <= q && b + q[|a|..] == k;
      assert k[|b|..] == q[|a|..];
      assert a + k[|b|..] == q;
    }
  }

  /** `fs::read_to_string` */
  function Contents(fs: Fs, p: Path): (r: Result<string>)
    ensures r.Ok? <==> p in fs && fs[p].File?
  {
    if p !in fs then Err(NotFound(p))
    else if fs[p].Dir? then Err(IsADirectory(p))
    else Ok(fs[p].content)
  }

  /** `fs::write`: creates or truncates a file whose parent is a directory. */
  function Written(fs: Fs, p: Path, c: string): (r: Result<Fs>)
    ensures r.Ok? <==> ParentIsDir(fs, p) && !IsDir(fs, p)
    ensures r.Ok? ==> r.value == fs[p := File(c)]
  {
    if |p| == 0 then Err(NotFound(p))
    else if |p| > 1 && Parent(p) !in fs then Err(NotFound(p))
    else if |p| > 1 && fs[Parent(p)].File? then Err(NotADirectory(Parent(p)))
    else if p in fs && fs[p].Dir? then Err(IsADirectory(p))
    else Ok(fs[p := File(c)])
  }

  /** `fs::remove_file` */
  function FileRemoved(fs: Fs, p: Path): (r: Result<Fs>)
    ensures r.Ok? <==> p in fs && fs[p].File?
    ensures r.Ok? ==> r.value == fs - {p}
  {
    if p !in fs then Err(NotFound(p))
    else if fs[p].Dir? then Err(IsADirectory(p))
    else Ok(fs - {p})
  }

  /** `fs::remove_dir_all` */
  function TreeRemoved(fs: Fs, p: Path): (r: Result<Fs>)
    ensures r.Ok? <==> IsDir(fs, p)
    ensures r.Ok? ==> r.value == Pruned(fs, p)
  {
    if p !in fs then Err(NotFound(p))
    else if fs[p].File? then Err(NotADirectory(p))
    else Ok(Pruned(fs, p))
  }

  /** `fs::create_dir_all`: creates `p` and its missing ancestors; a file in the way is an error. */
  function DirsCreated(fs: Fs, p: Path): (r: Result<Fs>)
    decreases |p|
    ensures r.Ok? ==> |p| == 0 || IsDir(r.value, p)
    ensures r.Ok? ==> forall q | q in fs :: q in r.value && r.value[q] == fs[q]
    ensures r.Ok? ==> forall q | q in r.value && q !in fs :: q <= p && r.value[q] == Dir
    ensures IsDir(fs, p) ==> r == Ok(fs)
    ensures ParentIsDir(fs, p) && p !in fs ==> r == Ok(fs[p := Dir])
  {
    if |p| == 0 then Ok(fs)
    else if p in fs then (if fs[p].Dir? then Ok(fs) else Err(AlreadyExists(p)))
    else if |p| == 1 then Ok(fs[p := Dir])
    else match DirsCreated(fs, Parent(p))
      case Err(e) => Err(e)
      case Ok(fs') => Ok(fs'[p := Dir])
  }

  /**
   * `fs::rename` with POSIX semantics: a missing source or destination parent, a
   * move into the source's own subtree, a file/directory mismatch or a non-empty
   * destination directory is an error; otherwise the source subtree replaces the
   * destination.
   */
  function Renamed(fs: Fs, a: Path, b: Path): (r: Result<Fs>)
    ensures r.Ok? ==> a in fs
  {
    if a !in fs then Err(NotFound(a))
    else if !ParentIsDir(fs, b) then Err(NotFound(b))
    else if a == b then Ok(fs)
    else if a <= b then Err(InvalidInput(b))
    else if b in fs && fs[b].Dir? && fs[a].File? then Err(IsADirectory(b))
    else if b in fs && fs[b].File? && fs[a].Dir? then Err(NotADirectory(b))
    else if b in fs && fs[b].Dir? && (exists q | q in fs :: b < q) then Err(DirectoryNotEmpty(b))
    else Ok(Pruned(Pruned(fs, a), b) + Graft(fs, a, b))
  }

  /**
   * Unpacking an archive whose entries (paths relative to the archive root) are
   * `tree` into the directory `dir`; an entry whose kind clashes with what is
   * already on disk makes the unpack fail.
   */
  function Unpacked(fs: Fs, dir: Path, tree: Fs): (r: Result<Fs>)
    ensures r.Ok? ==> r.value == fs + Graft(tree, [], dir)
  {
    if !IsDir(fs, dir) then Err(NotFound(dir))
    else if exists q | q in tree :: dir + q in fs && fs[dir + q].Dir? != tree[q].Dir? then Err(Archive)
    else Ok(fs + Graft(tree, [], dir))
  }

  /** A fresh checkout whose entries (relative to the work tree) are `tree`, placed at `p`. */
  function Planted(fs: Fs, p: Path, tree: Fs): (r: Result<Fs>)
    ensures r.Ok? ==> r.value == fs[p := Dir] + Graft(tree, [], p)
  {
    if exists q | q in fs :: p <= q then Err(AlreadyExists(p))
    else if !ParentIsDir(fs, p) then Err(NotFound(p))
    else Ok(fs[p := Dir] + Graft(tree, [], p))
  }

  /** One primitive as a step of a sequence: on failure the filesystem is unchanged. */
  function Apply(fs: Fs, r: Result<Fs>): Outcome<()> {
    match r
    case Ok(fs') => Outcome(Ok(()), fs')
    case Err(e) => Outcome(Err(e), fs)
  }

  // ---------------------------------------------------------------------------
  // Structural facts about the primitives.

  lemma PrefixOfParent(p: Path, q: Path)
    requires |q| > 0 && p <= Parent(q)
    ensures p <= q
  {
  }

  lemma {:induction false} AbsentMeansNothingBelow(fs: Fs, p: Path)
    requires WellFormed(fs) && |p| > 0 && p !in fs
    ensures NothingAt(fs, p)
  {
    forall q | q in fs ensures !(p <= q) {
      if p <= q {
        AncestorPresent(fs, p, q);
        assert false;
      }
    }
  }

  /** On a well-formed filesystem every ancestor of an entry is present, and a directory. */
  lemma {:induction false} AncestorPresent(fs: Fs, p: Path, q: Path)
    requires WellFormed(fs) && |p| > 0 && q in fs && p <= q
    ensures p in fs && (p != q ==> fs[p].Dir?)
    decreases |q|
  {
    if q != p {
      assert |q| > 1;
      assert p <= Parent(q);
      AncestorPresent(fs, p, Parent(q));
    }
  }

  /** No file lies at `p` or at any of its ancestors. */
  ghost predicate NoFileOnPath(fs: Fs, p: Path) {
    forall q | 0 < |q| && q <= p && q in fs :: fs[q].Dir?
  }

  /**
   * On a well-formed filesystem `create_dir_all` succeeds exactly when no file
   * stands at the path or at one of its ancestors.
   */
  lemma {:induction false} DirsCreatedSucceeds(fs: Fs, p: Path)
    requires WellFormed(fs)
    ensures DirsCreated(fs, p).Ok? <==> NoFileOnPath(fs, p)
    decreases |p|
  {
    if |p| == 0 {
    } else if p in fs {
      if fs[p].Dir? {
        forall q | 0 < |q| && q <= p && q in fs ensures fs[q].Dir? {
          AncestorPresent(fs, q, p);
        }
      }
    } else if |p| == 1 {
      assert forall q | 0 < |q| && q <= p :: q == p;
    } else {
      DirsCreatedSucceeds(fs, Parent(p));
      forall q | 0 < |q| && q <= p && q in fs ensures q <= Parent(p) {
        assert q != p;
      }
      forall q | 0 < |q| && q <= Parent(p) && q in fs ensures q <= p {
        PrefixOfParent(q, p);
      }
    }
  }

  lemma {:induction false} PrunedWellFormed(fs: Fs, p: Path)
    requires WellFormed(fs)
    ensures WellFormed(Pruned(fs, p))
  {
    var r := Pruned(fs, p);
    forall q | q in r && |q| > 1 ensures IsDir(r, Parent(q)) {
      if p <= Parent(q) {
        PrefixOfParent(p, q);
      }
    }
  }

  lemma {:induction false} DirsCreatedWellFormed(fs: Fs, p: Path)
    requires WellFormed(fs) && DirsCreated(fs, p).Ok?
    ensures WellFormed(DirsCreated(fs, p).value)
    decreases |p|
  {
    if |p| == 0 || p in fs || |p| == 1 {
    } else {
      DirsCreatedWellFormed(fs, Parent(p));
    }
  }

  lemma {:induction false} WrittenWellFormed(fs: Fs, p: Path, c: string)
    requires WellFormed(fs) && Written(fs, p, c).Ok?
    ensures WellFormed(Written(fs, p, c).value)
  {
  }

  lemma {:induction false} FileRemovedWellFormed(fs: Fs, p: Path)
    requires WellFormed(fs) && FileRemoved(fs, p).Ok?
    ensures WellFormed(FileRemoved(fs, p).value)
  {
    var r := fs - {p};
    forall q | q in r && |q| > 1 ensures IsDir(r, Parent(q)) {
      assert IsDir(fs, Parent(q));
    }
  }

  /** What survives a rename keeps its parents. */
  lemma {:induction false} RestParents(fs: Fs, a: Path, b: Path)
    requires WellFormed(fs)
    ensures forall k | k in Pruned(Pruned(fs, a), b) && |k| > 1 :: IsDir(Pruned(Pruned(fs, a), b), Parent(k))
  {
    var rest := Pruned(Pruned(fs, a), b);
    forall k | k in rest && |k| > 1 ensures IsDir(rest, Parent(k)) {
      assert IsDir(fs, Parent(k));
      if a <= Parent(k) { PrefixOfParent(a, k); }
      if b <= Parent(k) { PrefixOfParent(b, k); }
    }
  }

  /** A moved entry strictly below the destination has its moved parent above it. */
  lemma {:induction false} GraftParents(fs: Fs, a: Path, b: Path)
    requires WellFormed(fs) && |a| > 0
    ensures forall k | k in Graft(fs, a, b) && |k| > |b| :: IsDir(Graft(fs, a, b), Parent(k))
  {
    var moved := Graft(fs, a, b);
    forall k | k in moved && |k| > |b| ensures IsDir(moved, Parent(k)) {
      var q := a + k[|b|..];
      assert q in fs && |q| > 1;
      GraftParent(fs, a, b, k);
    }
  }

  /** One moved entry: its source's parent directory moves to its own parent. */
  lemma GraftParent(fs: Fs, a: Path, b: Path, k: Path)
    requires |a| > 0 && k in Graft(fs, a, b) && |k| > |b|
    requires |a + k[|b|..]| > 1 && IsDir(fs, Parent(a + k[|b|..]))
    ensures IsDir(Graft(fs, a, b), Parent(k))
  {
    var q := a + k[|b|..];
    assert a <= Parent(q);
    assert b + Parent(q)[|a|..] == Parent(k);
  }

  /** Gluing a moved subtree rooted at `b` onto what survives the move. */
  lemma {:induction false} UnionWellFormed(rest: Fs, moved: Fs, b: Path)
    requires |b| > 0 && (|b| > 1 ==> IsDir(rest, Parent(b)))
    requires forall k | k in rest && |k| > 1 :: IsDir(rest, Parent(k))
    requires forall k | k in rest :: |k| > 0 && !(b <= k)
    requires forall k | k in moved :: b <= k
    requires forall k | k in moved && |k| > |b| :: IsDir(moved, Parent(k))
    ensures WellFormed(rest + moved)
  {
    var r := rest + moved;
    forall k | k in r ensures |k| > 0 && (|k| > 1 ==> IsDir(r, Parent(k))) {
      if k in moved {
        if |k| == |b| {
          assert k == b;
        }
      }
    }
  }

  lemma {:induction false} RenamedWellFormed(fs: Fs, a: Path, b: Path)
    requires WellFormed(fs) && Renamed(fs, a, b).Ok?
    ensures WellFormed(Renamed(fs, a, b).value)
  {
    if a != b {
      RestParents(fs, a, b);
      GraftParents(fs, a, b);
      RenamedUnion(fs, a, b);
    }
  }

  /** A successful rename to another path glues the moved subtree onto the rest. */
  lemma {:induction false} RenamedUnion(fs: Fs, a: Path, b: Path)
    requires Renamed(fs, a, b).Ok? && a != b && |a| > 0
    requires forall k | k in fs :: |k| > 0
    requires forall k | k in Pruned(Pruned(fs, a), b) && |k| > 1 :: IsDir(Pruned(Pruned(fs, a), b), Parent(k))
    requires forall k | k in Graft(fs, a, b) && |k| > |b| :: IsDir(Graft(fs, a, b), Parent(k))
    ensures WellFormed(Renamed(fs, a, b).value)
  {
    var rest := Pruned(Pruned(fs, a), b);
    var moved := Graft(fs, a, b);
    RenamedShape(fs, a, b);
    if |b| > 1 {
      assert !(a <= Parent(b));
      assert !(b <= Parent(b));
    }
    UnionWellFormed(rest, moved, b);
  }

  /** A successful rename to another path: the destination hangs off a directory and lies outside the source. */
  lemma RenamedShape(fs: Fs, a: Path, b: Path)
    requires Renamed(fs, a, b).Ok? && a != b
    ensures Renamed(fs, a, b).value == Pruned(Pruned(fs, a), b) + Graft(fs, a, b)
    ensures ParentIsDir(fs, b) && !(a <= b)
  {
  }

  /** Entries grafted below `dir` from a well-formed tree lie strictly below it. */
  lemma {:induction false} GraftBelow(tree: Fs, dir: Path)
    requires WellFormed(tree)
    ensures forall k | k in Graft(tree, [], dir) :: |k| > |dir| && k[|dir|..] in tree
  {
    forall k | k in Graft(tree, [], dir) ensures |k| > |dir| && k[|dir|..] in tree {
      var q := k[|dir|..];
      assert [] + q == q;
      assert q in tree;
    }
  }

  lemma {:induction false} GraftedWellFormed(fs: Fs, dir: Path, tree: Fs)
    requires WellFormed(fs) && IsDir(fs, dir) && WellFormed(tree)
    requires forall q | q in tree :: dir + q in fs ==> fs[dir + q].Dir? == tree[q].Dir?
    ensures WellFormed(fs + Graft(tree, [], dir))
  {
    var moved := Graft(tree, [], dir);
    var r := fs + moved;
    GraftBelow(tree, dir);
    forall k | k in r ensures |k| > 0 && (|k| > 1 ==> IsDir(r, Parent(k))) {
      if k in moved {
        var q := k[|dir|..];
        assert q in tree;
        if |q| > 1 {
          assert IsDir(tree, Parent(q));
        }
        GraftedEntryParent(fs, dir, tree, k);
      } else if |k| > 1 {
        assert IsDir(fs, Parent(k));
        if Parent(k) in moved {
          var q := Parent(k)[|dir|..];
          assert q in tree;
          assert dir + q == Parent(k);
        }
      }
    }
  }

  /** A grafted entry's parent is the graft point or a grafted directory. */
  lemma GraftedEntryParent(fs: Fs, dir: Path, tree: Fs, k: Path)
    requires IsDir(fs, dir) && k in Graft(tree, [], dir) && |k| > |dir| && dir !in Graft(tree, [], dir)
    requires |k[|dir|..]| > 1 ==> IsDir(tree, Parent(k[|dir|..]))
    ensures IsDir(fs + Graft(tree, [], dir), Parent(k))
  {
    var q := k[|dir|..];
    assert k == dir + q;
    if |q| == 1 {
      assert Parent(k) == dir;
    } else {
      assert [] <= Parent(q);
      assert dir + Parent(q)[0..] == Parent(k);
    }
  }

  lemma {:induction false} UnpackedWellFormed(fs: Fs, dir: Path, tree: Fs)
    requires WellFormed(fs) && WellFormed(tree) && Unpacked(fs, dir, tree).Ok?
    ensures WellFormed(Unpacked(fs, dir, tree).value)
  {
    GraftedWellFormed(fs, dir, tree);
  }

  lemma {:induction false} PlantedWellFormed(fs: Fs, p: Path, tree: Fs)
    requires WellFormed(fs) && WellFormed(tree) && Planted(fs, p, tree).Ok?
    ensures WellFormed(Planted(fs, p, tree).value)
  {
    var fs1 := fs[p := Dir];
    assert WellFormed(fs1) by {
      forall k | k in fs1 && |k| > 1 ensures IsDir(fs1, Parent(k)) {
        if k != p {
          assert IsDir(fs, Parent(k));
        }
      }
    }
    forall q | q in tree ensures p + q !in fs1 {
      assert |q| > 0;
      assert p <= p + q;
      assert p + q != p;
    }
    GraftedWellFormed(fs1, p, tree);
  }

  /** The subtree of a file with nothing below it is the file alone. */
  lemma {:induction false} GraftLeaf(fs: Fs, a: Path, b: Path)
    requires a in fs && forall q | q in fs :: !(a < q)
    ensures Graft(fs, a, b) == map[b := fs[a]]
  {
    var g := Graft(fs, a, b);
    assert b + a[|a|..] == b;
    forall k | k in g ensures k == b {
      var q := a + k[|b|..];
      assert q in fs && a <= q && !(a < q);
    }
  }

  /** A file of a well-formed filesystem has nothing below it. */
  lemma {:induction false} FileIsLeaf(fs: Fs, a: Path)
    requires WellFormed(fs) && a in fs && fs[a].File?
    ensures forall q | q in fs :: !(a < q)
  {
    forall q | q in fs ensures !(a < q) {
      if a < q {
        AncestorPresent(fs, a, q);
        assert false;
      }
    }
  }

  /** Renaming a leaf onto a free sibling path moves its entry and nothing else. */
  lemma {:induction false} RenamedLeafToFree(fs: Fs, a: Path, b: Path)
    requires a in fs && forall q | q in fs :: !(a < q)
    requires NothingAt(fs, b) && ParentIsDir(fs, b) && |b| == |a| && a != b
    ensures Renamed(fs, a, b) == Ok((fs - {a})[b := fs[a]])
  {
    assert b !in fs;
    assert !(a <= b);
    RenamedOntoAbsent(fs, a, b);
    GraftLeaf(fs, a, b);
    PrunedLeaf(fs, a, b);
    MapUnionSingleton(fs - {a}, b, fs[a]);
  }

  /** Pruning a leaf and then a path with nothing at it removes the leaf alone. */
  lemma PrunedLeaf(fs: Fs, a: Path, b: Path)
    requires a in fs && forall q | q in fs :: !(a < q)
    requires NothingAt(fs, b)
    ensures Pruned(Pruned(fs, a), b) == fs - {a}
  {
    var once := Pruned(fs, a);
    forall k | k in fs && k != a ensures k in once {
      assert !(a < k);
    }
    assert once == fs - {a};
    assert Pruned(once, b) == once;
  }

  /** Renaming a file onto an absent sibling path moves its content and nothing else. */
  lemma {:induction false} RenamedFileToAbsent(fs: Fs, a: Path, b: Path)
    requires WellFormed(fs) && a in fs && fs[a].File?
    requires b !in fs && ParentIsDir(fs, b) && |b| == |a| && a != b
    ensures Renamed(fs, a, b) == Ok((fs - {a})[b := fs[a]])
  {
    AbsentMeansNothingBelow(fs, b);
    FileIsLeaf(fs, a);
    RenamedLeafToFree(fs, a, b);
  }

  /** A rename onto an absent path that is not inside the source takes the last branch. */
  lemma RenamedOntoAbsent(fs: Fs, a: Path, b: Path)
    requires a in fs && b !in fs && ParentIsDir(fs, b) && !(a <= b)
    ensures Renamed(fs, a, b) == Ok(Pruned(Pruned(fs, a), b) + Graft(fs, a, b))
  {
  }

  lemma MapUnionSingleton(m: Fs, k: Path, v: Node)
    ensures m + map[k := v] == m[k := v]
  {
  }

  // ---------------------------------------------------------------------------
  // The primitives performed in place.

  /** The filesystem of the machine the tool runs on. */
  class Disk {
    var entries: Fs

    ghost predicate Valid()
      reads this
    {
      WellFormed(entries)
    }

    constructor (initial: Fs)
      requires WellFormed(initial)
      ensures Valid() && entries == initial
    {
      entries := initial;
    }

    /** `Path::exists` */
    method Exists(p: Path) returns (b: bool)
      ensures b == (p in entries)
    {
      b := p in entries;
    }

    /** `Path::is_dir` */
    method IsDirectory(p: Path) returns (b: bool)
      ensures b == IsDir(entries, p)
    {
      b := p in entries && entries[p].Dir?;
    }

    method ReadToString(p: Path) returns (r: Result<string>)
      ensures r == Contents(entries, p)
    {
      if p !in entries {
        r := Err(NotFound(p));
      } else if entries[p].Dir? {
        r := Err(IsADirectory(p));
      } else {
        r := Ok(entries[p].content);
      }
    }

    method Write(p: Path, c: string) returns (r: Result<()>)
      requires Valid()
      modifies this
      ensures Valid()
      ensures Outcome(r, entries) == Apply(old(entries), Written(old(entries), p, c))
    {
      var w := Written(entries, p, c);
      if w.Ok? { WrittenWellFormed(entries, p, c); entries := w.value; r := Ok(()); } else { r := Err(w.error); }
    }

    method RemoveFile(p: Path) returns (r: Result<()>)
      requires Valid()
      modifies this
      ensures Valid()
      ensures Outcome(r, entries) == Apply(old(entries), FileRemoved(old(entries), p))
    {
      var w := FileRemoved(entries, p);
      if w.Ok? { FileRemovedWellFormed(entries, p); entries := w.value; r := Ok(()); } else { r := Err(w.error); }
    }

    method RemoveDirAll(p: Path) returns (r: Result<()>)
      requires Valid()
      modifies this
      ensures Valid()
      ensures Outcome(r, entries) == Apply(old(entries), TreeRemoved(old(entries), p))
    {
      var w := TreeRemoved(entries, p);
      if w.Ok? { PrunedWellFormed(entries, p); entries := w.value; r := Ok(()); } else { r := Err(w.error); }
    }

    method CreateDirAll(p: Path) returns (r: Result<()>)
      requires Valid()
      modifies this
      ensures Valid()
      ensures Outcome(r, entries) == Apply(old(entries), DirsCreated(old(entries), p))
    {
      var w := DirsCreated(entries, p);
      if w.Ok? { DirsCreatedWellFormed(entries, p); entries := w.value; r := Ok(()); } else { r := Err(w.error); }
    }

    method Rename(a: Path, b: Path) returns (r: Result<()>)
      requires Valid()
      modifies this
      ensures Valid()
      ensures Outcome(r, entries) == Apply(old(entries), Renamed(old(entries), a, b))
    {
      var w := Renamed(entries, a, b);
      if w.Ok? { RenamedWellFormed(entries, a, b); entries := w.value; r := Ok(()); } else { r := Err(w.error); }
    }

    method Unpack(dir: Path, tree: Fs) returns (r: Result<()>)
      requires Valid() && WellFormed(tree)
      modifies this
      ensures Valid()
      ensures Outcome(r, entries) == Apply(old(entries), Unpacked(old(entries), dir, tree))
    {
      var w := Unpacked(entries, dir, tree);
      if w.Ok? { UnpackedWellFormed(entries, dir, tree); entries := w.value; r := Ok(()); } else { r := Err(w.error); }
    }

    method Plant(p: Path, tree: Fs) returns (r: Result<()>)
      requires Valid() && WellFormed(tree)
      modifies this
      ensures Valid()
      ensures Outcome(r, entries) == Apply(old(entries), Planted(old(entries), p, tree))
    {
      var w := Planted(entries, p, tree);
      if w.Ok? { PlantedWellFormed(entries, p, tree); entries := w.value; r := Ok(()); } else { r := Err(w.error); }
    }
  }
}
