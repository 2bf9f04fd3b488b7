/**
  The filesystem as the profile manager and the options builder see it: a map from
  backslash-separated paths to directories and files, with `shutil.rmtree`,
  `os.makedirs` and `shutil.copytree` as operations on that map.
*/
module Files {
  import opened Wrappers

  type Path = string

  /** The path separator of the paths the source builds (`\bots\bot`, `\.downloads`). */
  const Sep: char := '\\'

  datatype Node = Dir | File(data: string)

  type Entries = map<Path, Node>

  /** The `OSError` subclasses the three operations raise. */
  datatype FsError = FileNotFound(path: Path) | FileExists(path: Path) | NotADirectory(path: Path)

  /** `k` names something strictly inside the directory `d`. */
  predicate Within(k: Path, d: Path)
  {
    0 < |d| < |k| && k[..|d|] == d && k[|d|] == Sep
  }

  /** The entry called `name` inside directory `d`. */
  function Child(d: Path, name: Path): Path
  {
    d + [Sep] + name
  }

  /** The name of `k` relative to a directory `d` it lies within. */
  function Relative(k: Path, d: Path): Path
    requires Within(k, d)
  {
    k[|d| + 1..]
  }

  /** Every directory `p` lies within, outermost first by length. */
  function Ancestors(p: Path): set<Path>
  {
    set i | 0 < i < |p| && p[i] == Sep :: p[..i]
  }

  /** A real filesystem: no empty name, and every entry's enclosing directories exist as directories. */
  ghost predicate WellFormed(m: Entries)
  {
    && "" !in m
    && forall k, d :: k in m && Within(k, d) ==> d in m && m[d] == Dir
  }

  /** What a directory holds, keyed by name relative to it. */
  ghost function Contents(m: Entries, d: Path): map<Path, Node>
  {
    RelativeInjective(d);
    map k | k in m && Within(k, d) :: Relative(k, d) := m[k]
  }

  // ---------------------------------------------------------------------------
  // Path lemmas

  lemma ChildRelative(k: Path, d: Path)
    requires Within(k, d)
    ensures Child(d, Relative(k, d)) == k
  {
    assert k == k[..|d|] + [k[|d|]] + k[|d| + 1..];
  }

  lemma RelativeChild(d: Path, name: Path)
    requires 0 < |d|
    ensures Within(Child(d, name), d) && Relative(Child(d, name), d) == name
  {
    assert Child(d, name)[..|d|] == d;
  }

  lemma RelativeInjective(d: Path)
    ensures forall k1, k2 :: Within(k1, d) && Within(k2, d) && Relative(k1, d) == Relative(k2, d) ==> k1 == k2
  {
    forall k1, k2 | Within(k1, d) && Within(k2, d) && Relative(k1, d) == Relative(k2, d)
      ensures k1 == k2
    {
      ChildRelative(k1, d);
      ChildRelative(k2, d);
    }
  }

  lemma ChildInjective(d: Path)
    ensures forall a, b :: Child(d, a) == Child(d, b) ==> a == b
  {
    forall a, b | Child(d, a) == Child(d, b)
      ensures a == b
    {
      assert a == Child(d, a)[|d| + 1..];
      assert b == Child(d, b)[|d| + 1..];
    }
  }

  lemma AncestorsWithin(p: Path, a: Path)
    ensures a in Ancestors(p) <==> Within(p, a)
  {
    if Within(p, a) {
      assert a == p[..|a|];
    }
  }

  lemma WithinTransitive(a: Path, b: Path, c: Path)
    ensures Within(a, b) && Within(b, c) ==> Within(a, c)
  {
    if Within(a, b) && Within(b, c) {
      assert a[..|c|] == a[..|b|][..|c|];
    }
  }

  /** Two directories that one path lies within are nested or equal. */
  lemma WithinBoth(k: Path, x: Path, y: Path)
    ensures Within(k, x) && Within(k, y) && |x| < |y| ==> Within(y, x)
  {
    if Within(k, x) && Within(k, y) && |x| < |y| {
      assert y[..|x|] == k[..|y|][..|x|];
    }
  }

  // ---------------------------------------------------------------------------
  // The three operations, as functions of the filesystem before the call

  function RemovedTree(m: Entries, d: Path): Entries
  {
    map k | k in m && k != d && !Within(k, d) :: m[k]
  }

  /** `shutil.rmtree(d)`: removes the directory and everything inside it. */
  function RemoveTreeSpec(m: Entries, d: Path): Result<Entries, FsError>
  {
    if d !in m then Err(FileNotFound(d))
    else if m[d].File? then Err(NotADirectory(d))
    else Ok(RemovedTree(m, d))
  }

  predicate HasFileAncestor(m: Entries, d: Path)
  {
    exists a :: a in Ancestors(d) && a in m && m[a].File?
  }

  function WithDirs(m: Entries, d: Path): Entries
  {
    m + map a | a in Ancestors(d) + {d} :: Dir
  }

  /** `os.makedirs(d)`: creates `d` and every missing enclosing directory. */
  function MakeDirsSpec(m: Entries, d: Path): Result<Entries, FsError>
  {
    if d == "" then Err(FileNotFound(d))
    else if d in m then Err(FileExists(d))
    else if HasFileAncestor(m, d) then Err(NotADirectory(d))
    else Ok(WithDirs(m, d))
  }

  function Copied(m: Entries, src: Path, dst: Path): Entries
  {
    ChildInjective(dst);
    RelativeInjective(src);
    map k | k in m && Within(k, src) :: Child(dst, Relative(k, src)) := m[k]
  }

  /** `shutil.copytree(src, dst)`: reads `src`, creates `dst` as `os.makedirs` does, copies everything inside. */
  function CopyTreeSpec(m: Entries, src: Path, dst: Path): Result<Entries, FsError>
  {
    if src !in m then Err(FileNotFound(src))
    else if m[src].File? then Err(NotADirectory(src))
    else match MakeDirsSpec(m, dst)
      case Err(e) => Err(e)
      case Ok(m1) => Ok(m1 + Copied(m, src, dst))
  }

  // ---------------------------------------------------------------------------
  // What the operations do

  /** After `rmtree` nothing is left at or inside `d`, and everything else is kept. */
  lemma RemoveTreeEffect(m: Entries, d: Path)
    requires RemoveTreeSpec(m, d).Ok?
    ensures var m' := RemoveTreeSpec(m, d).value;
      && d !in m'
      && Contents(m', d) == map[]
      && (forall k :: k in m' <==> k in m && k != d && !Within(k, d))
      && (forall k :: k in m' ==> m'[k] == m[k])
  {
    var m' := RemoveTreeSpec(m, d).value;
    assert forall k :: k in m' ==> !Within(k, d);
  }

  /** After `makedirs` the directory exists, is empty, and every earlier entry is unchanged. */
  lemma MakeDirsEffect(m: Entries, d: Path)
    requires WellFormed(m)
    requires MakeDirsSpec(m, d).Ok?
    ensures var m' := MakeDirsSpec(m, d).value;
      && d in m' && m'[d] == Dir
      && (forall k :: k in m' ==> !Within(k, d))
      && Contents(m', d) == map[]
      && (forall k :: k in m ==> k in m' && m'[k] == m[k])
      && (forall k :: k in m' && k !in m ==> k == d || k in Ancestors(d))
  {
    var m' := MakeDirsSpec(m, d).value;
    forall k | k in m'
      ensures !Within(k, d)
    {
      AncestorsWithin(d, k);
    }
    forall k | k in m
      ensures k in m' && m'[k] == m[k]
    {
      if k in Ancestors(d) {
        AncestorsWithin(d, k);
      }
    }
  }

  /** `makedirs` on a path that is already there reports it and changes nothing. */
  lemma MakeDirsExisting(m: Entries, d: Path)
    requires d in m && d != ""
    ensures MakeDirsSpec(m, d) == Err(FileExists(d))
  {
  }

  /**
    After `copytree` the destination holds exactly what the source held, every earlier
    entry is unchanged, and the only new entries are the destination, its enclosing
    directories and what lies inside it.
  */
  lemma CopyTreeEffect(m: Entries, src: Path, dst: Path)
    requires WellFormed(m)
    requires CopyTreeSpec(m, src, dst).Ok?
    ensures var m' := CopyTreeSpec(m, src, dst).value;
      && dst in m' && m'[dst] == Dir
      && Contents(m', dst) == Contents(m, src)
      && (forall k :: k in m ==> k in m' && m'[k] == m[k])
      && (forall k :: k in m' && k !in m ==> k == dst || Within(k, dst) || k in Ancestors(dst))
  {
    MakeDirsEffect(m, dst);
    CopiedKeys(m, src, dst);
    CopiedContents(m, MakeDirsSpec(m, dst).value, src, dst);
  }

  /** Copying into a directory that holds nothing gives it the contents of the source. */
  lemma CopiedContents(m: Entries, m1: Entries, src: Path, dst: Path)
    requires 0 < |src| && 0 < |dst|
    requires forall k :: k in m1 ==> !Within(k, dst)
    ensures Contents(m1 + Copied(m, src, dst), dst) == Contents(m, src)
  {
    var m' := m1 + Copied(m, src, dst);
    CopiedKeys(m, src, dst);
    var lhs := Contents(m', dst);
    var rhs := Contents(m, src);
    forall r
      ensures r in lhs <==> r in rhs
      ensures r in lhs ==> lhs[r] == rhs[r]
    {
      ContentsAt(m', dst, r);
      ContentsAt(m, src, r);
      CopiedAt(m, src, dst, r);
      RelativeChild(dst, r);
      assert Child(dst, r) in m1 ==> Within(Child(dst, r), dst);
    }
    assert lhs == rhs;
  }

  /** A directory holds `r` exactly when the path `d\r` is there. */
  lemma ContentsAt(m: Entries, d: Path, r: Path)
    requires 0 < |d|
    ensures r in Contents(m, d) <==> Child(d, r) in m
    ensures r in Contents(m, d) ==> Contents(m, d)[r] == m[Child(d, r)]
  {
    RelativeChild(d, r);
    if r in Contents(m, d) {
      var k :| k in m && Within(k, d) && Relative(k, d) == r;
      ChildRelative(k, d);
      RelativeInjective(d);
      assert Contents(m, d)[Relative(k, d)] == m[k];
    }
  }

  /** `copytree` writes `dst\r` exactly when `src\r` exists, with the same node. */
  lemma CopiedAt(m: Entries, src: Path, dst: Path, r: Path)
    requires 0 < |src|
    ensures Child(dst, r) in Copied(m, src, dst) <==> Child(src, r) in m
    ensures Child(src, r) in m ==> Copied(m, src, dst)[Child(dst, r)] == m[Child(src, r)]
  {
    var c := Copied(m, src, dst);
    RelativeChild(src, r);
    if Child(dst, r) in c {
      var k :| k in m && Within(k, src) && Child(dst, Relative(k, src)) == Child(dst, r);
      ChildInjective(dst);
      ChildRelative(k, src);
    }
    if Child(src, r) in m {
      var k := Child(src, r);
      ChildInjective(dst);
      RelativeInjective(src);
      assert c[Child(dst, Relative(k, src))] == m[k];
    }
  }

  /** Everything `copytree` writes lies inside the destination. */
  lemma CopiedKeys(m: Entries, src: Path, dst: Path)
    requires 0 < |dst|
    ensures forall y :: y in Copied(m, src, dst) ==> Within(y, dst)
  {
    forall y | y in Copied(m, src, dst)
      ensures Within(y, dst)
    {
      var k :| k in m && Within(k, src) && Child(dst, Relative(k, src)) == y;
      RelativeChild(dst, Relative(k, src));
    }
  }

  // ---------------------------------------------------------------------------
  // The operations keep a real filesystem real

  lemma RemoveTreeWellFormed(m: Entries, d: Path)
    requires WellFormed(m) && RemoveTreeSpec(m, d).Ok?
    ensures WellFormed(RemoveTreeSpec(m, d).value)
  {
    var m' := RemoveTreeSpec(m, d).value;
    forall k, a | k in m' && Within(k, a)
      ensures a in m' && m'[a] == Dir
    {
      WithinTransitive(k, a, d);
    }
  }

  lemma MakeDirsWellFormed(m: Entries, d: Path)
    requires WellFormed(m) && MakeDirsSpec(m, d).Ok?
    ensures WellFormed(MakeDirsSpec(m, d).value)
  {
    var m' := MakeDirsSpec(m, d).value;
    forall k | k in m
      ensures k in m' && m'[k] == m[k]
    {
      if k in Ancestors(d) {
        AncestorsWithin(d, k);
      }
    }
    forall k, a | k in m' && Within(k, a)
      ensures a in m' && m'[a] == Dir
    {
      if k !in m {
        assert k in Ancestors(d) + {d};
        if k != d {
          AncestorsWithin(d, k);
          WithinTransitive(d, k, a);
        }
        AncestorsWithin(d, a);
      }
    }
  }

  lemma CopyTreeWellFormed(m: Entries, src: Path, dst: Path)
    requires WellFormed(m) && CopyTreeSpec(m, src, dst).Ok?
    ensures WellFormed(CopyTreeSpec(m, src, dst).value)
  {
    var m1 := MakeDirsSpec(m, dst).value;
    var c := Copied(m, src, dst);
    var m' := m1 + c;
    MakeDirsWellFormed(m, dst);
    MakeDirsEffect(m, dst);
    assert 0 < |src| && 0 < |dst|;
    CopiedKeys(m, src, dst);
    forall y, x | y in m' && Within(y, x)
      ensures x in m' && m'[x] == Dir
    {
      if y in c {
        var k :| k in m && Within(k, src) && Child(dst, Relative(k, src)) == y;
        ChildRelative(k, src);
        CopiedAncestor(m, src, dst, Relative(k, src), x);
      } else {
        assert x in m1 && m1[x] == Dir;
        WithinTransitive(y, x, dst);
        assert !Within(y, dst);
        assert x !in c;
      }
    }
  }

  /** An enclosing directory of a copied entry is a directory after the copy. */
  lemma CopiedAncestor(m: Entries, src: Path, dst: Path, r: Path, x: Path)
    requires WellFormed(m) && CopyTreeSpec(m, src, dst).Ok?
    requires Child(src, r) in m && Within(Child(dst, r), x)
    ensures var m' := CopyTreeSpec(m, src, dst).value; x in m' && m'[x] == Dir
  {
    var m1 := MakeDirsSpec(m, dst).value;
    var c := Copied(m, src, dst);
    var y := Child(dst, r);
    RelativeChild(dst, r);
    MakeDirsEffect(m, dst);
    CopiedKeys(m, src, dst);
    if |x| < |dst| {
      WithinBoth(y, x, dst);
      AncestorsWithin(dst, x);
      assert x in m1 && m1[x] == Dir && !Within(x, dst);
    } else if |x| == |dst| {
      assert x == y[..|x|] == dst;
      assert x in m1 && m1[x] == Dir && !Within(x, dst);
    } else {
      WithinBoth(y, dst, x);
      var rx := Relative(x, dst);
      ChildRelative(x, dst);
      SourceAncestor(src, dst, r, rx);
      RelativeChild(src, r);
      CopiedAt(m, src, dst, rx);
    }
  }

  /** If `dst\rx` encloses `dst\r`, then `src\rx` encloses `src\r`. */
  lemma SourceAncestor(src: Path, dst: Path, r: Path, rx: Path)
    requires 0 < |src| && 0 < |dst|
    requires Within(Child(dst, r), Child(dst, rx))
    ensures Within(Child(src, r), Child(src, rx))
  {
    var y, x := Child(dst, r), Child(dst, rx);
    var k, xs := Child(src, r), Child(src, rx);
    var j := |rx|;
    assert rx == x[|dst| + 1..] == y[|dst| + 1..|x|] == r[..j];
    assert r[j] == y[|x|] == Sep;
    assert k[..|xs|] == xs;
  }

  // ---------------------------------------------------------------------------
  // The filesystem as mutable state

  class Disk {
    var entries: Entries

    ghost predicate Valid()
      reads this
    {
      WellFormed(entries)
    }

    constructor (initial: Entries)
      requires WellFormed(initial)
      ensures Valid() && entries == initial
    {
      entries := initial;
    }

    /** `os.path.exists(p)`. */
    method Exists(p: Path) returns (b: bool)
      ensures b <==> p in entries
    {
      b := p in entries;
    }

    method RemoveTree(d: Path) returns (r: Outcome<FsError>)
      requires Valid()
      modifies this
      ensures Valid()
      ensures match RemoveTreeSpec(old(entries), d)
        case Ok(m') => r == Pass && entries == m'
        case Err(e) => r == Fail(e) && entries == old(entries)
    {
      var s := RemoveTreeSpec(entries, d);
      if s.Ok? {
        RemoveTreeWellFormed(entries, d);
        entries := s.value;
        r := Pass;
      } else {
        r := Fail(s.error);
      }
    }

    method MakeDirs(d: Path) returns (r: Outcome<FsError>)
      requires Valid()
      modifies this
      ensures Valid()
      ensures match MakeDirsSpec(old(entries), d)
        case Ok(m') => r == Pass && entries == m'
        case Err(e) => r == Fail(e) && entries == old(entries)
    {
      var s := MakeDirsSpec(entries, d);
      if s.Ok? {
        MakeDirsWellFormed(entries, d);
        entries := s.value;
        r := Pass;
      } else {
        r := Fail(s.error);
      }
    }

    method CopyTree(src: Path, dst: Path) returns (r: Outcome<FsError>)
      requires Valid()
      modifies this
      ensures Valid()
      ensures match CopyTreeSpec(old(entries), src, dst)
        case Ok(m') => r == Pass && entries == m'
        case Err(e) => r == Fail(e) && entries == old(entries)
    {
      var s := CopyTreeSpec(entries, src, dst);
      if s.Ok? {
        CopyTreeWellFormed(entries, src, dst);
        entries := s.value;
        r := Pass;
      } else {
        r := Fail(s.error);
      }
    }
  }
}
