/**
  The per-bot profile directory: the bot index, the path derived from it, and the
  wipe-then-create (or wipe-then-copy) of that directory followed by an existence poll.
*/
module Profiles {
  import opened Wrappers
  import opened Text
  import opened Files

  /** The exceptions `define_profile` can end with. */
  datatype ProfileError =
    | ProfileNotCreated
    | FolderDoesNotExist
    | SourceNotGiven        // copying was asked for with no source profile
    | Fs(cause: FsError)    // an `OSError` from rmtree / makedirs / copytree, propagated

  /** How long `check_folder` polls, in seconds, when `define_profile` calls it. */
  const CheckTimeoutSeconds: nat := 60

  /**
    `check_folder`: look for the folder once a second until the timeout has elapsed.
    The clock is the count of one-second sleeps.
  */
  method CheckFolder(disk: Disk, folder: Path, timeoutSeconds: nat) returns (r: Result<bool, ProfileError>)
    ensures r.Ok? <==> 0 < timeoutSeconds && folder in disk.entries
    ensures r.Ok? ==> r.value
    ensures r.Err? ==> r.error == FolderDoesNotExist
  {
    var elapsed := 0;
    while elapsed < timeoutSeconds
      invariant elapsed <= timeoutSeconds
      invariant 0 < elapsed ==> folder !in disk.entries
    {
      var found := disk.Exists(folder);
      if found {
        return Ok(true);
      }
      elapsed := elapsed + 1;
    }
    return Err(FolderDoesNotExist);
  }

  /**
    The stored bot index. A negative index goes through `/= -1`, which turns it into a
    float: `FloatNumber(n)` is the float `n.0`.
  */
  datatype BotNumber = IntNumber(n: nat) | FloatNumber(n: nat)
  {
    /** Python's `str()` of the stored index. */
    function Text(): (s: string)
      ensures forall i :: 0 <= i < |s| ==> s[i] == '.' || '0' <= s[i] <= '9'
      ensures '.' in s <==> FloatNumber?
    {
      match this
      case IntNumber(n) => NatToString(n)
      case FloatNumber(n) =>
        var s := NatToString(n) + ".0";
        assert s[|s| - 2] == '.';
        s
    }
  }

  /** Different stored indices are written differently: `3`, `3.0` and `30` are three names. */
  lemma BotNumberTextInjective(a: BotNumber, b: BotNumber)
    requires a.Text() == b.Text()
    ensures a == b
  {
    var t := a.Text();
    match a
    case IntNumber(x) =>
      match b {
        case IntNumber(y) =>
          NatToStringInjective(x, y);
        case FloatNumber(y) =>
      }
    case FloatNumber(x) =>
      match b {
        case IntNumber(y) =>
        case FloatNumber(y) =>
          assert NatToString(x) == t[..|t| - 2] == NatToString(y);
          NatToStringInjective(x, y);
      }
  }

  /** The `num_bot` setter: `None` is 0, a negative index is negated and becomes a float. */
  function NormalizeNumBot(given: Option<int>): (r: BotNumber)
    ensures given.None? ==> r == IntNumber(0)
    ensures given.Some? ==> r.n as int == if given.value < 0 then -given.value else given.value
    ensures r.FloatNumber? <==> given.Some? && given.value < 0
  {
    match given
    case None => IntNumber(0)
    case Some(k) => if k < 0 then FloatNumber(-k) else IntNumber(k)
  }

  /** The directory holding every bot's profile. */
  function BotsDir(cwd: Path): Path
  {
    cwd + "\\bots"
  }

  /** The profile directory of a bot: `<cwd>\bots\bot<index>`. */
  function ProfilePath(cwd: Path, num: BotNumber): (p: Path)
    ensures Within(p, BotsDir(cwd))
    ensures Relative(p, BotsDir(cwd)) == "bot" + num.Text()
  {
    var p := cwd + "\\bots\\bot" + num.Text();
    assert p == Child(BotsDir(cwd), "bot" + num.Text());
    RelativeChild(BotsDir(cwd), "bot" + num.Text());
    p
  }

  /** Two bots with different indices get profile directories that are neither equal nor nested. */
  lemma ProfilePathsSeparate(cwd: Path, a: BotNumber, b: BotNumber)
    requires a != b
    ensures ProfilePath(cwd, a) != ProfilePath(cwd, b)
    ensures !Within(ProfilePath(cwd, a), ProfilePath(cwd, b))
  {
    var bots := BotsDir(cwd);
    var pa, pb := ProfilePath(cwd, a), ProfilePath(cwd, b);
    var na, nb := "bot" + a.Text(), "bot" + b.Text();
    if na == nb {
      assert a.Text() == na[3..] == nb[3..] == b.Text();
      BotNumberTextInjective(a, b);
    }
    ChildRelative(pa, bots);
    ChildRelative(pb, bots);
    assert |pb| < |pa| ==> pa[|pb|] == na[|nb|] != Sep;
  }

  /** What a call to `define_profile` ends with: its result and the filesystem after it. */
  datatype Effect<T> = Effect(result: Result<T, ProfileError>, entries: Entries)

  /** Whether the `profile` setter runs `define_profile` rather than storing the given value. */
  predicate RunsDefineProfile(given: Option<Path>, copyProfile: bool)
  {
    given.None? || copyProfile
  }

  /** `define_profile`: remove the directory (a missing one is fine), recreate or copy it, then poll for it. */
  function DefinedProfile(m: Entries, cwd: Path, num: BotNumber, copyProfile: bool, source: Option<Path>): Effect<Path>
  {
    var d := ProfilePath(cwd, num);
    var removal := RemoveTreeSpec(m, d);
    if removal.Err? && !removal.error.FileNotFound? then Effect(Err(Fs(removal.error)), m)
    else
      var m1 := if removal.Ok? then removal.value else m;
      if copyProfile && source.None? then Effect(Err(SourceNotGiven), m1)
      else
        var created := if copyProfile then CopyTreeSpec(m1, source.value, d) else MakeDirsSpec(m1, d);
        if created.Err? then Effect(Err(Fs(created.error)), m1)
        else if 0 < CheckTimeoutSeconds && d in created.value then Effect(Ok(d), created.value)
        else Effect(Err(ProfileNotCreated), created.value)
  }

  /** What the filesystem looks like after the removal step of `define_profile`. */
  lemma AfterRemoval(m: Entries, d: Path)
    requires WellFormed(m)
    requires !(d in m && m[d].File?)
    ensures var removal := RemoveTreeSpec(m, d);
      var m1 := if removal.Ok? then removal.value else m;
      && WellFormed(m1)
      && d !in m1
      && (forall k :: k in m1 ==> !Within(k, d))
      && (forall k :: k in m1 ==> k in m && m1[k] == m[k])
      && (forall k :: k in m && k != d && !Within(k, d) ==> k in m1)
  {
    if d in m {
      RemoveTreeWellFormed(m, d);
      RemoveTreeEffect(m, d);
    }
  }

  /** A successful `define_profile` leaves the profile directory in place, holding a copy of the source or nothing. */
  lemma DefinedProfileFresh(m: Entries, cwd: Path, num: BotNumber, copyProfile: bool, source: Option<Path>)
    requires WellFormed(m)
    ensures var e := DefinedProfile(m, cwd, num, copyProfile, source);
      var d := ProfilePath(cwd, num);
      && WellFormed(e.entries)
      && (e.result.Ok? ==>
        && e.result.value == d
        && d in e.entries && e.entries[d] == Dir
        && (!copyProfile ==> Contents(e.entries, d) == map[])
        && (copyProfile ==> source.Some? && (!Within(d, source.value) ==> Contents(e.entries, d) == Contents(m, source.value))))
      && (forall k :: k in m && k != d && !Within(k, d) ==> k in e.entries && e.entries[k] == m[k])
  {
    var d := ProfilePath(cwd, num);
    DefinedProfileFrame(m, cwd, num, copyProfile, source);
    if d in m && m[d].File? {
      return;
    }
    AfterRemoval(m, d);
    var removal := RemoveTreeSpec(m, d);
    var m1 := if removal.Ok? then removal.value else m;
    if copyProfile && source.None? {
      return;
    }
    CreatedFresh(m, m1, d, copyProfile, source);
  }

  /**
    Whatever `define_profile` ends with, it leaves every entry outside the profile directory
    as it was, and the only entries it adds are that directory, what lies inside it and the
    directories enclosing it.
  */
  lemma DefinedProfileFrame(m: Entries, cwd: Path, num: BotNumber, copyProfile: bool, source: Option<Path>)
    requires WellFormed(m)
    ensures var e := DefinedProfile(m, cwd, num, copyProfile, source);
      var d := ProfilePath(cwd, num);
      && (forall k :: k in m && k != d && !Within(k, d) ==> k in e.entries && e.entries[k] == m[k])
      && (forall k :: k in e.entries && k !in m ==> k == d || Within(k, d) || k in Ancestors(d))
  {
    var d := ProfilePath(cwd, num);
    if d in m && m[d].File? {
      return;
    }
    AfterRemoval(m, d);
    var removal := RemoveTreeSpec(m, d);
    var m1 := if removal.Ok? then removal.value else m;
    if copyProfile && source.Some? && CopyTreeSpec(m1, source.value, d).Ok? {
      CopyTreeEffect(m1, source.value, d);
    } else if !copyProfile && MakeDirsSpec(m1, d).Ok? {
      MakeDirsEffect(m1, d);
    }
  }

  /**
    Setting up one bot's profile leaves another bot's profile directory, and everything
    inside it, as it was.
  */
  lemma OtherProfileKept(m: Entries, cwd: Path, a: BotNumber, b: BotNumber, copyProfile: bool, source: Option<Path>)
    requires WellFormed(m) && a != b
    requires ProfilePath(cwd, b) in m
    ensures var e := DefinedProfile(m, cwd, a, copyProfile, source);
      var p := ProfilePath(cwd, b);
      && p in e.entries && e.entries[p] == m[p]
      && Contents(e.entries, p) == Contents(m, p)
  {
    var e := DefinedProfile(m, cwd, a, copyProfile, source);
    ProfilePathsSeparate(cwd, a, b);
    ProfilePathsSeparate(cwd, b, a);
    DefinedProfileFrame(m, cwd, a, copyProfile, source);
    FrameKeepsOther(m, e.entries, ProfilePath(cwd, a), ProfilePath(cwd, b));
  }

  /**
    A change confined to `d`, what lies inside it and the directories enclosing it leaves
    a directory `p` separate from `d`, with everything inside it, as it was.
  */
  lemma FrameKeepsOther(m: Entries, m': Entries, d: Path, p: Path)
    requires 0 < |p| && p in m
    requires p != d && !Within(p, d) && !Within(d, p)
    requires forall k :: k in m && k != d && !Within(k, d) ==> k in m' && m'[k] == m[k]
    requires forall k :: k in m' && k !in m ==> k == d || Within(k, d) || k in Ancestors(d)
    ensures p in m' && m'[p] == m[p]
    ensures Contents(m', p) == Contents(m, p)
  {
    forall r
      ensures r in Contents(m', p) <==> r in Contents(m, p)
      ensures r in Contents(m, p) ==> Contents(m', p)[r] == Contents(m, p)[r]
    {
      ContentsAt(m', p, r);
      ContentsAt(m, p, r);
      RelativeChild(p, r);
      SeparateInside(Child(p, r), d, p);
      AncestorsWithin(d, Child(p, r));
      WithinTransitive(d, Child(p, r), p);
    }
    assert Contents(m', p) == Contents(m, p);
  }

  /** The creation step of `define_profile`, on the filesystem the removal step left. */
  lemma CreatedFresh(m: Entries, m1: Entries, d: Path, copyProfile: bool, source: Option<Path>)
    requires WellFormed(m) && WellFormed(m1)
    requires copyProfile ==> source.Some?
    requires d !in m1
    requires forall k :: k in m1 ==> k in m && m1[k] == m[k]
    requires forall k :: k in m && k != d && !Within(k, d) ==> k in m1
    ensures var created := if copyProfile then CopyTreeSpec(m1, source.value, d) else MakeDirsSpec(m1, d);
      created.Ok? ==>
        && WellFormed(created.value)
        && d in created.value && created.value[d] == Dir
        && (!copyProfile ==> Contents(created.value, d) == map[])
        && (copyProfile && !Within(d, source.value) ==> Contents(created.value, d) == Contents(m, source.value))
  {
    if copyProfile {
      var src := source.value;
      if CopyTreeSpec(m1, src, d).Ok? {
        CopyTreeWellFormed(m1, src, d);
        CopyTreeEffect(m1, src, d);
        if !Within(d, src) {
          assert src in m1 && src != d && !Within(src, d);
          RemovalKeepsSource(m, m1, d, src);
        }
      }
    } else if MakeDirsSpec(m1, d).Ok? {
      MakeDirsWellFormed(m1, d);
      MakeDirsEffect(m1, d);
    }
  }


  /** Wiping the profile directory does not touch a source profile that survives it and does not enclose it. */
  lemma RemovalKeepsSource(m: Entries, m1: Entries, d: Path, src: Path)
    requires src in m1 && 0 < |src|
    requires d !in m1 && !Within(d, src) && !Within(src, d)
    requires forall k :: k in m1 ==> k in m && m1[k] == m[k]
    requires forall k :: k in m && k != d && !Within(k, d) ==> k in m1
    ensures Contents(m1, src) == Contents(m, src)
  {
    forall r
      ensures r in Contents(m1, src) <==> r in Contents(m, src)
      ensures r in Contents(m1, src) ==> Contents(m1, src)[r] == Contents(m, src)[r]
    {
      ContentsAt(m1, src, r);
      ContentsAt(m, src, r);
      RelativeChild(src, r);
      SeparateInside(Child(src, r), d, src);
    }
    assert Contents(m1, src) == Contents(m, src);
  }

  /** Something inside `src` is neither `d` nor inside `d` when `src` and `d` are distinct and not nested. */
  lemma SeparateInside(k: Path, d: Path, src: Path)
    requires Within(k, src) && src != d && !Within(d, src) && !Within(src, d)
    ensures k != d && !Within(k, d)
  {
    WithinBoth(k, d, src);
    WithinBoth(k, src, d);
  }

  /**
    How `define_profile` fails: a file in the way of the profile directory, a missing
    source profile, a file in the way of its enclosing directories; never by the poll.
  */
  lemma DefinedProfileErrors(m: Entries, cwd: Path, num: BotNumber, copyProfile: bool, source: Option<Path>)
    requires WellFormed(m)
    ensures var e := DefinedProfile(m, cwd, num, copyProfile, source);
      var d := ProfilePath(cwd, num);
      var blocked := d in m && m[d].File?;
      && e.result != Err(ProfileNotCreated)
      && (blocked ==> e == Effect(Err(Fs(NotADirectory(d))), m))
      && (!blocked && copyProfile && source.None? ==> e.result == Err(SourceNotGiven))
      && (!blocked && copyProfile && source.Some? && source.value !in m ==> e.result == Err(Fs(FileNotFound(source.value))))
      && (!blocked && !copyProfile && !HasFileAncestor(m, d) ==> e.result == Ok(d))
  {
    var d := ProfilePath(cwd, num);
    DefinedProfileFresh(m, cwd, num, copyProfile, source);
    if !(d in m && m[d].File?) {
      AfterRemoval(m, d);
      var removal := RemoveTreeSpec(m, d);
      var m1 := if removal.Ok? then removal.value else m;
      if copyProfile && source.Some? && CopyTreeSpec(m1, source.value, d).Ok? {
        CopyTreeEffect(m1, source.value, d);
      }
      if !copyProfile && MakeDirsSpec(m1, d).Ok? {
        MakeDirsEffect(m1, d);
      }
    }
  }

  /** Wiping a directory made by `makedirs`, with whatever was put inside it, and making it again restores it. */
  lemma RemakeSame(m1: Entries, d: Path, x: Entries)
    requires MakeDirsSpec(m1, d).Ok?
    requires forall k :: k in m1 ==> !Within(k, d)
    requires forall k :: k in x ==> Within(k, d)
    ensures var a := MakeDirsSpec(m1, d).value;
      && RemoveTreeSpec(a + x, d).Ok?
      && MakeDirsSpec(RemoveTreeSpec(a + x, d).value, d) == Ok(a)
      && (forall k :: k in RemoveTreeSpec(a + x, d).value <==> k in m1 || k in Ancestors(d))
      && (forall k :: k in m1 ==> RemoveTreeSpec(a + x, d).value[k] == m1[k])
  {
    var a := MakeDirsSpec(m1, d).value;
    assert d in a && a[d] == Dir && d !in x;
    var b := RemoveTreeSpec(a + x, d).value;
    forall k | k in Ancestors(d)
      ensures k in b && b[k] == Dir
    {
      AncestorsWithin(d, k);
    }
    forall k | k in m1
      ensures k in b && b[k] == m1[k]
    {
      AncestorsWithin(d, k);
    }
    forall k | k in b
      ensures k in m1 || k in Ancestors(d)
    {
    }
    assert !HasFileAncestor(b, d);
    SameWithDirs(b, m1, d);
  }

  /** Making the same directories over two maps that differ only on those directories gives the same map. */
  lemma SameWithDirs(b: Entries, m1: Entries, d: Path)
    requires forall k :: k in b <==> k in m1 || k in Ancestors(d)
    requires forall k :: k in m1 ==> b[k] == m1[k]
    ensures WithDirs(b, d) == WithDirs(m1, d)
  {
    var l, r := WithDirs(b, d), WithDirs(m1, d);
    assert forall k :: k in l <==> k in r;
    assert forall k :: k in l ==> l[k] == r[k];
  }

  /** The part of a filesystem inside `src` decides what `copytree` from `src` writes. */
  lemma CopiedSame(m: Entries, m': Entries, src: Path, dst: Path)
    requires 0 < |src| && 0 < |dst|
    requires forall k :: Within(k, src) ==> (k in m <==> k in m')
    requires forall k :: Within(k, src) && k in m ==> m[k] == m'[k]
    ensures Copied(m, src, dst) == Copied(m', src, dst)
  {
    var c, c' := Copied(m, src, dst), Copied(m', src, dst);
    CopiedKeys(m, src, dst);
    CopiedKeys(m', src, dst);
    forall y | y in c || y in c'
      ensures y in c && y in c' && c[y] == c'[y]
    {
      var r := Relative(y, dst);
      ChildRelative(y, dst);
      CopiedAt(m, src, dst, r);
      CopiedAt(m', src, dst, r);
      RelativeChild(src, r);
    }
  }

  /** Running `define_profile` a second time for the same bot ends in the same state as the first. */
  lemma DefinedProfileTwice(m: Entries, cwd: Path, num: BotNumber, copyProfile: bool, source: Option<Path>)
    requires WellFormed(m)
    requires DefinedProfile(m, cwd, num, copyProfile, source).result.Ok?
    requires copyProfile && source.Some? ==> !Within(ProfilePath(cwd, num), source.value)
    ensures var e := DefinedProfile(m, cwd, num, copyProfile, source);
      DefinedProfile(e.entries, cwd, num, copyProfile, source) == e
  {
    var d := ProfilePath(cwd, num);
    var e := DefinedProfile(m, cwd, num, copyProfile, source);
    AfterRemoval(m, d);
    var removal := RemoveTreeSpec(m, d);
    var m1 := if removal.Ok? then removal.value else m;
    var a := MakeDirsSpec(m1, d).value;
    if copyProfile {
      var src := source.value;
      var x := Copied(m1, src, d);
      assert e.entries == a + x;
      CopiedKeys(m1, src, d);
      RemakeSame(m1, d, x);
      var b := RemoveTreeSpec(a + x, d).value;
      forall k | Within(k, src)
        ensures (k in m1 <==> k in b) && (k in m1 ==> m1[k] == b[k])
      {
        AncestorsWithin(d, k);
        WithinTransitive(d, k, src);
      }
      CopiedSame(m1, b, src, d);
      assert CopyTreeSpec(b, src, d) == Ok(a + x);
    } else {
      assert e.entries == a + map[];
      RemakeSame(m1, d, map[]);
    }
    RerunSame(e.entries, cwd, num, copyProfile, source);
  }

  /** A run over a profile directory that is removed and then re-created exactly as it was returns it unchanged. */
  lemma RerunSame(m: Entries, cwd: Path, num: BotNumber, copyProfile: bool, source: Option<Path>)
    requires var d := ProfilePath(cwd, num);
      && d in m
      && RemoveTreeSpec(m, d).Ok?
      && (copyProfile ==> source.Some? && CopyTreeSpec(RemoveTreeSpec(m, d).value, source.value, d) == Ok(m))
      && (!copyProfile ==> MakeDirsSpec(RemoveTreeSpec(m, d).value, d) == Ok(m))
    ensures DefinedProfile(m, cwd, num, copyProfile, source) == Effect(Ok(ProfilePath(cwd, num)), m)
  {
  }

  /** The profile settings of one bot. */
  class DefineProfile {
    var copyProfile: bool
    var numBot: BotNumber
    var profile: Path

    constructor (copyProfile: bool)
      ensures this.copyProfile == copyProfile && numBot == IntNumber(0) && profile == ""
    {
      this.copyProfile := copyProfile;
      numBot := IntNumber(0);
      profile := "";
    }

    /** `__init__`: store the copy flag, then set the bot index and the profile. */
    static method New(disk: Disk, cwd: Path, copyProfile: bool, numBot: Option<int>, profile: Option<Path>)
      returns (r: Result<DefineProfile, ProfileError>)
      requires disk.Valid()
      modifies disk
      ensures disk.Valid()
      ensures r.Ok? ==> fresh(r.value)
      ensures r.Ok? ==> r.value.copyProfile == copyProfile && r.value.numBot == NormalizeNumBot(numBot)
      ensures !RunsDefineProfile(profile, copyProfile) ==>
        r.Ok? && r.value.profile == profile.value && disk.entries == old(disk.entries)
      ensures RunsDefineProfile(profile, copyProfile) ==>
        var e := DefinedProfile(old(disk.entries), cwd, NormalizeNumBot(numBot), copyProfile, profile);
        && disk.entries == e.entries
        && (r.Ok? <==> e.result.Ok?)
        && (r.Ok? ==> r.value.profile == e.result.value)
        && (r.Err? ==> r.error == e.result.error)
    {
      var settings := new DefineProfile(copyProfile);
      settings.SetNumBot(numBot);
      var stored := settings.SetProfile(disk, cwd, profile);
      if stored.Fail? {
        return Err(stored.error);
      }
      return Ok(settings);
    }

    /** The `num_bot` setter. */
    method SetNumBot(given: Option<int>)
      modifies this
      ensures numBot == NormalizeNumBot(given)
      ensures copyProfile == old(copyProfile) && profile == old(profile)
    {
      numBot := NormalizeNumBot(given);
    }

    /**
      The `profile` setter: a given profile with copying off is stored as it is; otherwise
      the directory `define_profile` makes is stored.
    */
    method SetProfile(disk: Disk, cwd: Path, given: Option<Path>) returns (r: Outcome<ProfileError>)
      requires disk.Valid()
      modifies this, disk
      ensures disk.Valid()
      ensures copyProfile == old(copyProfile) && numBot == old(numBot)
      ensures !RunsDefineProfile(given, copyProfile) ==>
        r == Pass && profile == given.value && disk.entries == old(disk.entries)
      ensures RunsDefineProfile(given, copyProfile) ==>
        var e := DefinedProfile(old(disk.entries), cwd, numBot, copyProfile, given);
        && disk.entries == e.entries
        && (e.result.Ok? ==> r == Pass && profile == e.result.value)
        && (e.result.Err? ==> r == Fail(e.result.error) && profile == old(profile))
    {
      if RunsDefineProfile(given, copyProfile) {
        var defined := DefineProfileDir(disk, cwd, given);
        if defined.Ok? {
          profile := defined.value;
          r := Pass;
        } else {
          r := Fail(defined.error);
        }
      } else {
        profile := given.value;
        r := Pass;
      }
    }

    /** `define_profile`: wipe the bot's directory, recreate or copy it, and wait for it to exist. */
    method DefineProfileDir(disk: Disk, cwd: Path, source: Option<Path>) returns (r: Result<Path, ProfileError>)
      requires disk.Valid()
      modifies disk
      ensures disk.Valid()
      ensures var e := DefinedProfile(old(disk.entries), cwd, numBot, copyProfile, source);
        r == e.result && disk.entries == e.entries
    {
      var d := ProfilePath(cwd, numBot);
      var removed := disk.RemoveTree(d);
      if removed.Fail? && !removed.error.FileNotFound? {
        return Err(Fs(removed.error));
      }
      if copyProfile {
        if source.None? {
          return Err(SourceNotGiven);
        }
        var copied := disk.CopyTree(source.value, d);
        if copied.Fail? {
          return Err(Fs(copied.error));
        }
      } else {
        var made := disk.MakeDirs(d);
        if made.Fail? {
          return Err(Fs(made.error));
        }
      }
      var checked := CheckFolder(disk, d, CheckTimeoutSeconds);
      if checked.Err? {
        return Err(ProfileNotCreated);
      }
      return Ok(d);
    }
  }
}
