/** The persist-directory resolver of getStatefulset: which directories of a
    member's filesystem go on the role's persistent volume. A default list
    and an application list are merged into one list in which no directory
    is covered by another. */
module PersistDirs {
  import opened Wrappers
  import opened Paths
  import opened ClusterTypes

  /** defaultMountFolders. */
  const DefaultMountFolders: seq<Path> := [["etc"]]

  /** appConfigDefaultMountFolders (setup package with the new layout). */
  const AppConfigDefaultMountFolders: seq<Path> :=
    [["etc"], ["opt", "guestconfig"], ["var", "log", "guestconfig"], ["usr", "local", "bin"], ["usr", "local", "lib"]]

  /** appConfigLegacyDefaultMountFolders (setup package, legacy layout). */
  const AppConfigLegacyDefaultMountFolders: seq<Path> := [["etc"], ["opt"], ["usr"]]

  /** The default list chosen by the role's setup package. Whatever the
      choice, it contains every entry of defaultMountFolders, which the
      comment on appConfigDefaultMountFolders says the code relies on. */
  function DefaultPersistDirs(setupInfo: Option<SetupPackageInfo>): (dirs: seq<Path>)
    ensures setupInfo.None? ==> dirs == DefaultMountFolders
    ensures setupInfo.Some? && setupInfo.value.useNewSetupLayout ==> dirs == AppConfigDefaultMountFolders
    ensures setupInfo.Some? && !setupInfo.value.useNewSetupLayout ==> dirs == AppConfigLegacyDefaultMountFolders
    ensures forall d :: d in DefaultMountFolders ==> d in dirs
    ensures forall i :: 0 <= i < |dirs| ==> IsClean(dirs[i])
  {
    if setupInfo.None? then DefaultMountFolders
    else if setupInfo.value.useNewSetupLayout then AppConfigDefaultMountFolders
    else AppConfigLegacyDefaultMountFolders
  }

  // ---------------------------------------------------------------------
  // Specification of addToDirs

  /** src[i] is covered inside its own list: by a directory it lies under,
      or by an equal directory at an earlier position. */
  predicate CoveredInOwnList(src: seq<Path>, i: nat)
    requires i < |src|
  {
    exists j :: 0 <= j < |src| && (Under(src[j], src[i]) || (j < i && src[j] == src[i]))
  }

  predicate HasAncestorIn(list: seq<Path>, p: Path) {
    exists o :: o in list && Under(o, p)
  }

  /** p is covered by the other list: it lies under one of its entries, or,
      when duplicates are checked, equals one. */
  predicate CoveredByOther(other: Option<seq<Path>>, p: Path, checkOtherDups: bool) {
    other.Some? && (HasAncestorIn(other.value, p) || (checkOtherDups && p in other.value))
  }

  predicate Kept(src: seq<Path>, i: nat, other: Option<seq<Path>>, checkOtherDups: bool)
    requires i < |src|
  {
    !CoveredInOwnList(src, i) && !CoveredByOther(other, src[i], checkOtherDups)
  }

  /** The entries of src[..k] that addToDirs appends, in order. */
  function Survivors(src: seq<Path>, other: Option<seq<Path>>, checkOtherDups: bool, k: nat): (kept: seq<Path>)
    requires k <= |src|
    ensures |kept| <= k
    ensures forall x :: x in kept ==> x in src
    decreases k
  {
    if k == 0 then []
    else Survivors(src, other, checkOtherDups, k - 1)
         + (if Kept(src, k - 1, other, checkOtherDups) then [src[k - 1]] else [])
  }

  /** The surviving default directories: each is checked against the
      application list for ancestors only. */
  function DefaultsKept(defaults: seq<Path>, appDirs: Option<seq<Path>>): seq<Path> {
    Survivors(defaults, appDirs, false, |defaults|)
  }

  /** The surviving application directories: each is checked against the
      default list for ancestors and for exact duplicates. */
  function AppKept(defaults: seq<Path>, appDirs: Option<seq<Path>>): seq<Path> {
    if appDirs.None? then [] else Survivors(appDirs.value, Some(defaults), true, |appDirs.value|)
  }

  /** The resolved list: surviving defaults, then surviving app dirs. It
      holds only offered directories, and no more entries than offered. */
  function Resolve(defaults: seq<Path>, appDirs: Option<seq<Path>>): (dirs: seq<Path>)
    ensures |dirs| <= |AllInputs(defaults, appDirs)|
    ensures forall x :: x in dirs ==> x in AllInputs(defaults, appDirs)
  {
    DefaultsKept(defaults, appDirs) + AppKept(defaults, appDirs)
  }

  /** Every directory offered, default or application. */
  function AllInputs(defaults: seq<Path>, appDirs: Option<seq<Path>>): seq<Path> {
    defaults + appDirs.GetOr([])
  }

  predicate NoDuplicates(ps: seq<Path>) {
    forall i, j :: 0 <= i < j < |ps| ==> ps[i] != ps[j]
  }

  predicate NoNesting(ps: seq<Path>) {
    forall x, y :: x in ps && y in ps ==> !Under(x, y)
  }

  /** Each p in ps is equal to or under some entry of dirs. */
  predicate CoveredBy(ps: seq<Path>, dirs: seq<Path>) {
    forall p :: p in ps ==> exists d :: d in dirs && Covers(d, p)
  }

  ghost predicate Subsequence(xs: seq<Path>, ys: seq<Path>) {
    exists idx: seq<nat> ::
      && |idx| == |xs|
      && (forall j :: 0 <= j < |idx| ==> idx[j] < |ys| && xs[j] == ys[idx[j]])
      && (forall a, b :: 0 <= a < b < |idx| ==> idx[a] < idx[b])
  }

  // ---------------------------------------------------------------------
  // The imperative resolver

  /** The addToDirs closure: appends to buf[n..] every entry of src that is
      not covered, and returns the new length. */
  method AddToDirs(buf: array<Path>, n: nat, src: seq<Path>, other: Option<seq<Path>>, checkOtherDups: bool)
    returns (n': nat)
    requires n + |src| <= buf.Length
    modifies buf
    ensures n <= n' <= n + |src|
    ensures buf[..n'] == old(buf[..n]) + Survivors(src, other, checkOtherDups, |src|)
  {
    n' := n;
    ghost var kept: seq<Path> := [];
    var sourceIndex := 0;
    while sourceIndex < |src|
      invariant 0 <= sourceIndex <= |src|
      invariant n <= n' <= n + sourceIndex
      invariant kept == Survivors(src, other, checkOtherDups, sourceIndex)
      invariant buf[..n'] == old(buf[..n]) + kept
    {
      var sourceDir := src[sourceIndex];
      var covered := CoveredWithinSource(src, sourceIndex);
      if !covered && other.Some? {
        covered := CoveredByOtherList(other.value, sourceDir, checkOtherDups);
      }
      SurvivorsStep(src, other, checkOtherDups, sourceIndex, covered);
      if !covered {
        Push(buf, n', sourceDir);
        n' := n' + 1;
        AppendAssoc(old(buf[..n]), kept, sourceDir);
        kept := kept + [sourceDir];
      }
      sourceIndex := sourceIndex + 1;
    }
  }

  /** Go's append onto the buffer's first len entries. */
  method Push(buf: array<Path>, len: nat, x: Path)
    requires len < buf.Length
    modifies buf
    ensures buf[..len + 1] == old(buf[..len]) + [x]
  {
    buf[len] := x;
  }

  /** One more entry of src: it is appended exactly when it is not
      covered. */
  lemma SurvivorsStep(src: seq<Path>, other: Option<seq<Path>>, checkOtherDups: bool, i: nat, covered: bool)
    requires i < |src|
    requires covered == (CoveredInOwnList(src, i) || CoveredByOther(other, src[i], checkOtherDups))
    ensures covered ==> Survivors(src, other, checkOtherDups, i + 1) == Survivors(src, other, checkOtherDups, i)
    ensures !covered ==> Survivors(src, other, checkOtherDups, i + 1) == Survivors(src, other, checkOtherDups, i) + [src[i]]
  {
    assert Survivors(src, other, checkOtherDups, i) + [] == Survivors(src, other, checkOtherDups, i);
  }

  lemma AppendAssoc(a: seq<Path>, b: seq<Path>, x: Path)
    ensures a + b + [x] == a + (b + [x])
  {
  }

  /** The first inner loop of addToDirs: does another entry of src cover
      src[sourceIndex]? A duplicate counts only when it comes earlier. */
  method CoveredWithinSource(src: seq<Path>, sourceIndex: nat) returns (covered: bool)
    requires sourceIndex < |src|
    ensures covered == CoveredInOwnList(src, sourceIndex)
  {
    var sourceDir := src[sourceIndex];
    covered := false;
    var otherSourceIndex := 0;
    while otherSourceIndex < |src|
      invariant 0 <= otherSourceIndex <= |src|
      invariant !covered ==> forall j :: 0 <= j < otherSourceIndex ==>
        !(Under(src[j], sourceDir) || (j < sourceIndex && src[j] == sourceDir))
      invariant covered ==> CoveredInOwnList(src, sourceIndex)
    {
      var otherSourceDir := src[otherSourceIndex];
      if Covers(otherSourceDir, sourceDir) {
        if otherSourceDir != sourceDir {
          // a proper ancestor
          covered := true;
          break;
        }
        // an equal entry counts only when it comes earlier
        if otherSourceIndex < sourceIndex {
          covered := true;
          break;
        }
      }
      otherSourceIndex := otherSourceIndex + 1;
    }
  }

  /** The second inner loop of addToDirs: does an entry of the other list
      cover sourceDir? An equal entry counts only when duplicates are
      checked. */
  method CoveredByOtherList(otherDirList: seq<Path>, sourceDir: Path, checkOtherDups: bool) returns (covered: bool)
    ensures covered == CoveredByOther(Some(otherDirList), sourceDir, checkOtherDups)
  {
    covered := false;
    var k := 0;
    while k < |otherDirList|
      invariant 0 <= k <= |otherDirList|
      invariant !covered ==> forall j :: 0 <= j < k ==>
        !(Under(otherDirList[j], sourceDir) || (checkOtherDups && otherDirList[j] == sourceDir))
      invariant covered ==> CoveredByOther(Some(otherDirList), sourceDir, checkOtherDups)
    {
      var otherDir := otherDirList[k];
      if Covers(otherDir, sourceDir) {
        if otherDir != sourceDir {
          // a proper ancestor
          covered := true;
          break;
        }
        // an equal entry counts only when duplicates are checked
        if checkOtherDups {
          covered := true;
          break;
        }
      }
      k := k + 1;
    }
  }

  /** The directory-union part of getStatefulset: a buffer with capacity for
      both lists, defaults added first (ancestors only checked against the
      app list), then app dirs (ancestors and duplicates checked against the
      defaults). */
  method ResolvePersistDirs(defaultPersistDirs: seq<Path>, appPersistDirs: Option<seq<Path>>)
    returns (persistDirs: seq<Path>)
    ensures persistDirs == Resolve(defaultPersistDirs, appPersistDirs)
    ensures |persistDirs| <= |AllInputs(defaultPersistDirs, appPersistDirs)|
    ensures NoDuplicates(persistDirs) && NoNesting(persistDirs)
    ensures CoveredBy(AllInputs(defaultPersistDirs, appPersistDirs), persistDirs)
  {
    var maxLen := |defaultPersistDirs|;
    if appPersistDirs.Some? {
      maxLen := maxLen + |appPersistDirs.value|;
    }
    var buf := new Path[maxLen];
    var n := AddToDirs(buf, 0, defaultPersistDirs, appPersistDirs, false);
    if appPersistDirs.Some? {
      n := AddToDirs(buf, n, appPersistDirs.value, Some(defaultPersistDirs), true);
    }
    persistDirs := buf[..n];
    ResolveNoDuplicates(defaultPersistDirs, appPersistDirs);
    ResolveNoNesting(defaultPersistDirs, appPersistDirs);
    ResolveCoversInputs(defaultPersistDirs, appPersistDirs);
  }

  // ---------------------------------------------------------------------
  // Properties of the specification

  /** Survivors keeps exactly the entries whose index passes Kept. */
  lemma {:induction false} SurvivorsMember(src: seq<Path>, other: Option<seq<Path>>, cd: bool, k: nat, x: Path)
    requires k <= |src|
    ensures x in Survivors(src, other, cd, k) <==> exists i :: 0 <= i < k && src[i] == x && Kept(src, i, other, cd)
    decreases k
  {
    if k > 0 {
      SurvivorsMember(src, other, cd, k - 1, x);
    }
  }

  /** An index passes Kept exactly when it is the first occurrence of a
      directory with no ancestor in its own list that the other list does
      not cover. */
  lemma KeptIsFirstRoot(src: seq<Path>, i: nat, other: Option<seq<Path>>, cd: bool)
    requires i < |src|
    ensures Kept(src, i, other, cd) <==>
      (forall j :: 0 <= j < i ==> src[j] != src[i]) && !HasAncestorIn(src, src[i]) && !CoveredByOther(other, src[i], cd)
  {
    if !HasAncestorIn(src, src[i]) {
      assert forall j :: 0 <= j < |src| ==> !Under(src[j], src[i]) by {
        forall j | 0 <= j < |src| ensures !Under(src[j], src[i]) {
          assert src[j] in src;
        }
      }
    } else {
      var o :| o in src && Under(o, src[i]);
      var j :| 0 <= j < |src| && src[j] == o;
      assert CoveredInOwnList(src, i);
    }
  }

  /** As a set, the survivors of a whole list are the directories of that
      list with no ancestor in it and not covered by the other list. */
  lemma SurvivorsExactly(src: seq<Path>, other: Option<seq<Path>>, cd: bool, x: Path)
    ensures x in Survivors(src, other, cd, |src|) <==>
      x in src && !HasAncestorIn(src, x) && !CoveredByOther(other, x, cd)
  {
    SurvivorsMember(src, other, cd, |src|, x);
    if x in src && !HasAncestorIn(src, x) && !CoveredByOther(other, x, cd) {
      var i := FirstIndex(src, x);
      KeptIsFirstRoot(src, i, other, cd);
    }
    if x in Survivors(src, other, cd, |src|) {
      var i :| 0 <= i < |src| && src[i] == x && Kept(src, i, other, cd);
      KeptIsFirstRoot(src, i, other, cd);
    }
  }

  lemma FirstIndex(s: seq<Path>, x: Path) returns (i: nat)
    requires x in s
    ensures i < |s| && s[i] == x && forall j :: 0 <= j < i ==> s[j] != x
  {
    i := 0;
    while s[i] != x
      invariant i < |s| && x in s[i..]
      invariant forall j :: 0 <= j < i ==> s[j] != x
      decreases |s| - i
    {
      i := i + 1;
    }
  }

  /** The resolved list holds exactly the offered directories that lie under
      no other offered directory (in either list). */
  lemma ResolveIsRoots(defaults: seq<Path>, appDirs: Option<seq<Path>>, x: Path)
    ensures x in Resolve(defaults, appDirs) <==>
      x in AllInputs(defaults, appDirs) && !HasAncestorIn(AllInputs(defaults, appDirs), x)
  {
    var all := AllInputs(defaults, appDirs);
    SurvivorsExactly(defaults, appDirs, false, x);
    if appDirs.Some? {
      SurvivorsExactly(appDirs.value, Some(defaults), true, x);
    }
    if HasAncestorIn(all, x) {
      var o :| o in all && Under(o, x);
      if o in defaults {
        assert HasAncestorIn(defaults, x);
      } else {
        assert HasAncestorIn(appDirs.value, x);
      }
    } else {
      assert !HasAncestorIn(defaults, x) by {
        forall o | o in defaults ensures !Under(o, x) { assert o in all; }
      }
      if appDirs.Some? {
        assert !HasAncestorIn(appDirs.value, x) by {
          forall o | o in appDirs.value ensures !Under(o, x) { assert o in all; }
        }
      }
    }
  }

  /** Survivors never repeats a directory. */
  lemma AppendFresh(ps: seq<Path>, x: Path)
    requires NoDuplicates(ps) && x !in ps
    ensures NoDuplicates(ps + [x])
  {
    forall i, j | 0 <= i < j < |ps| + 1 ensures (ps + [x])[i] != (ps + [x])[j] {
      if j == |ps| {
        assert (ps + [x])[i] == ps[i];
      }
    }
  }

  lemma {:induction false} SurvivorsNoDuplicates(src: seq<Path>, other: Option<seq<Path>>, cd: bool, k: nat)
    requires k <= |src|
    ensures NoDuplicates(Survivors(src, other, cd, k))
    decreases k
  {
    if k > 0 {
      SurvivorsNoDuplicates(src, other, cd, k - 1);
      var prev := Survivors(src, other, cd, k - 1);
      if Kept(src, k - 1, other, cd) {
        var x := src[k - 1];
        KeptIsFirstRoot(src, k - 1, other, cd);
        SurvivorsMember(src, other, cd, k - 1, x);
        AppendFresh(prev, x);
      }
    }
  }

  /** No directory appears twice in the resolved list: within a list the
      first occurrence wins, and an app dir equal to a default is dropped. */
  lemma ResolveNoDuplicates(defaults: seq<Path>, appDirs: Option<seq<Path>>)
    ensures NoDuplicates(Resolve(defaults, appDirs))
  {
    var d, a := DefaultsKept(defaults, appDirs), AppKept(defaults, appDirs);
    SurvivorsNoDuplicates(defaults, appDirs, false, |defaults|);
    if appDirs.Some? {
      SurvivorsNoDuplicates(appDirs.value, Some(defaults), true, |appDirs.value|);
      forall x | x in a ensures x !in d {
        SurvivorsExactly(appDirs.value, Some(defaults), true, x);
        SurvivorsExactly(defaults, appDirs, false, x);
      }
    }
    var r := d + a;
    forall i, j | 0 <= i < j < |r| ensures r[i] != r[j] {
      if i < |d| && |d| <= j {
        assert r[i] in d && r[j] in a;
      } else if |d| <= i {
        assert r[i] == a[i - |d|] && r[j] == a[j - |d|];
      }
    }
  }

  /** No resolved directory lies under another resolved directory. */
  lemma ResolveNoNesting(defaults: seq<Path>, appDirs: Option<seq<Path>>)
    ensures NoNesting(Resolve(defaults, appDirs))
  {
    var r, all := Resolve(defaults, appDirs), AllInputs(defaults, appDirs);
    forall x, y | x in r && y in r ensures !Under(x, y) {
      ResolveIsRoots(defaults, appDirs, x);
      ResolveIsRoots(defaults, appDirs, y);
    }
  }

  /** NoNesting is relative to the resolver's Under test, not to true
      ancestry: /a and /a/..b both survive, although /a is a segment prefix
      of /a/..b, so both end up as claim mounts. */
  lemma DotDotChildResolvedBesideParent()
    ensures var r := Resolve([["a"], ["a", "..b"]], None);
      r == [["a"], ["a", "..b"]] && |r[0]| < |r[1]| && r[1][..|r[0]|] == r[0]
  {
    var src: seq<Path> := [["a"], ["a", "..b"]];
    assert StartsWithDotDot(src[1][1]);
    assert !Under(src[0], src[1]);
    assert src[0] != src[1];
    assert !CoveredInOwnList(src, 0);
    assert !CoveredInOwnList(src, 1);
    assert Survivors(src, None, false, 1) == [src[0]];
    assert Survivors(src, None, false, 2) == [src[0], src[1]];
  }

  /** Following Under downwards from an offered directory ends at an offered
      directory with no offered ancestor, which covers the start. */
  lemma {:induction false} FindRoot(all: seq<Path>, x: Path) returns (m: Path)
    requires x in all
    ensures m in all && Covers(m, x) && !HasAncestorIn(all, m)
    decreases |x|
  {
    if HasAncestorIn(all, x) {
      var o :| o in all && Under(o, x);
      m := FindRoot(all, o);
      if m != o {
        UnderTransitive(m, o, x);
      }
    } else {
      m := x;
    }
  }

  /** Every offered directory, default or app, is equal to or under some
      resolved directory: nothing that was asked to persist is lost. */
  lemma ResolveCoversInputs(defaults: seq<Path>, appDirs: Option<seq<Path>>)
    ensures CoveredBy(AllInputs(defaults, appDirs), Resolve(defaults, appDirs))
  {
    var all := AllInputs(defaults, appDirs);
    forall x | x in all ensures exists d :: d in Resolve(defaults, appDirs) && Covers(d, x) {
      var m := FindRoot(all, x);
      ResolveIsRoots(defaults, appDirs, m);
    }
  }

  /** Survivors of a list keep the list's relative order. */
  lemma {:induction false} SurvivorsInOrder(src: seq<Path>, other: Option<seq<Path>>, cd: bool, k: nat)
    returns (idx: seq<nat>)
    requires k <= |src|
    ensures |idx| == |Survivors(src, other, cd, k)|
    ensures forall j :: 0 <= j < |idx| ==> idx[j] < k && Survivors(src, other, cd, k)[j] == src[idx[j]]
    ensures forall a, b :: 0 <= a < b < |idx| ==> idx[a] < idx[b]
    decreases k
  {
    if k == 0 {
      idx := [];
    } else {
      idx := SurvivorsInOrder(src, other, cd, k - 1);
      if Kept(src, k - 1, other, cd) {
        idx := idx + [k - 1];
      }
    }
  }

  /** The resolved list is the surviving defaults, in their original order,
      followed by the surviving app dirs, in their original order; no app
      dir that survives equals a default, and the list is no longer than
      both inputs together. */
  lemma ResolveOrder(defaults: seq<Path>, appDirs: Option<seq<Path>>)
    ensures Resolve(defaults, appDirs) == DefaultsKept(defaults, appDirs) + AppKept(defaults, appDirs)
    ensures Subsequence(DefaultsKept(defaults, appDirs), defaults)
    ensures appDirs.Some? ==> Subsequence(AppKept(defaults, appDirs), appDirs.value)
    ensures appDirs.None? ==> AppKept(defaults, appDirs) == []
    ensures forall x :: x in AppKept(defaults, appDirs) ==> x !in defaults
    ensures |Resolve(defaults, appDirs)| <= |AllInputs(defaults, appDirs)|
  {
    var di := SurvivorsInOrder(defaults, appDirs, false, |defaults|);
    assert |di| == |DefaultsKept(defaults, appDirs)|;
    if appDirs.Some? {
      var ai := SurvivorsInOrder(appDirs.value, Some(defaults), true, |appDirs.value|);
      assert |ai| == |AppKept(defaults, appDirs)|;
      forall x | x in AppKept(defaults, appDirs) ensures x !in defaults {
        SurvivorsExactly(appDirs.value, Some(defaults), true, x);
      }
    }
  }
}
