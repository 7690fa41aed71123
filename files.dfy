/**
 * FindComposeFile (src/utils/files.go): starting in the working directory, look for
 * docker-compose.yml in each directory on the way up, and give up with "" once the
 * home directory has been searched.
 */
module Files {
  import opened Wrappers
  import opened GoPaths

  const ComposeFileName: string := "docker-compose.yml"

  /** The path the loop tests in directory `cs`: filepath.Join(dir, "docker-compose.yml"). */
  function ComposeIn(cs: seq<string>): string {
    Render(cs + [ComposeFileName])
  }

  /**
   * What the loop returns when it is in directory `cs`: `Some(path)` for a compose file
   * found, `Some("")` when it stops at the home directory, `None` when it reaches `/`
   * without either, where `Dir("/") == "/"` and the loop repeats the same state forever.
   * `existing` is the set of paths for which os.Stat succeeds.
   */
  function FindFrom(cs: seq<string>, home: string, existing: set<string>): Option<string>
    decreases |cs|
  {
    if ComposeIn(cs) in existing then Some(ComposeIn(cs))
    else if Render(cs) == home then Some("")
    else if cs == [] then None
    else FindFrom(Parent(cs), home, existing)
  }

  lemma RenderParentShorter(cs: seq<string>)
    requires cs != [] && PlainNames(cs)
    ensures |Render(Parent(cs))| < |Render(cs)|
  {
    var init := cs[..|cs| - 1];
    assert cs == init + [cs[|cs| - 1]];
    RenderTailAppend(init, [cs[|cs| - 1]]);
  }

  /**
   * The loop of FindComposeFile over the working directory `cwd` (a clean absolute
   * path, as os.Getwd returns, whose elements are `cwdElems`) and `home` as
   * os.UserHomeDir returns it. `None` stands for the run that never returns.
   */
  method FindComposeFile(cwd: string, home: string, existing: set<string>, ghost cwdElems: seq<string>)
    returns (r: Option<string>)
    requires PlainNames(cwdElems) && cwd == Render(cwdElems)
    ensures r == FindFrom(cwdElems, home, existing)
  {
    var dir := cwd;
    ghost var cs := cwdElems;
    assert PlainName(ComposeFileName);
    while true
      invariant PlainNames(cs) && dir == Render(cs)
      invariant FindFrom(cs, home, existing) == FindFrom(cwdElems, home, existing)
      decreases |cs|
    {
      var composePath := PathJoin([dir, ComposeFileName]);
      PathJoinRender(cs, [ComposeFileName]);
      if composePath in existing {
        return Some(composePath);
      }
      if dir == home {
        return Some("");
      }
      var parent := Dir(dir);
      DirRender(cs);
      if cs != [] {
        RenderParentShorter(cs);
      }
      if parent == dir {
        return None;
      }
      dir, cs := parent, Parent(cs);
    }
  }

  lemma PrefixOfParent(cs: seq<string>, j: nat)
    requires cs != [] && j <= |cs| - 1
    ensures Parent(cs)[..j] == cs[..j]
  {
  }

  /**
   * The nearest directory holding the file is found: when the file exists in the
   * ancestor-or-self `cs[..k]`, and no directory strictly below it on the way up holds
   * the file or is the home directory, that path is the result. With `cs[..k]` the
   * home directory itself, this is the file found in home.
   */
  lemma {:induction false} FindFromNearest(cs: seq<string>, home: string, existing: set<string>, k: nat)
    requires k <= |cs|
    requires ComposeIn(cs[..k]) in existing
    requires forall j :: k < j <= |cs| ==> ComposeIn(cs[..j]) !in existing && Render(cs[..j]) != home
    ensures FindFrom(cs, home, existing) == Some(ComposeIn(cs[..k]))
    decreases |cs|
  {
    if k == |cs| {
      assert cs[..k] == cs;
    } else {
      assert cs[..|cs|] == cs;
      assert ComposeIn(cs) !in existing && Render(cs) != home;
      forall j | k < j <= |Parent(cs)|
        ensures ComposeIn(Parent(cs)[..j]) !in existing && Render(Parent(cs)[..j]) != home
      {
        PrefixOfParent(cs, j);
      }
      PrefixOfParent(cs, k);
      FindFromNearest(Parent(cs), home, existing, k);
    }
  }

  /**
   * "" is returned after the home directory `cs[..k]` has been checked and found
   * without the file, when nothing on the way up to it held the file.
   */
  lemma {:induction false} FindFromStopsAtHome(cs: seq<string>, home: string, existing: set<string>, k: nat)
    requires k <= |cs| && Render(cs[..k]) == home
    requires forall j :: k <= j <= |cs| ==> ComposeIn(cs[..j]) !in existing
    requires forall j :: k < j <= |cs| ==> Render(cs[..j]) != home
    ensures FindFrom(cs, home, existing) == Some("")
    decreases |cs|
  {
    assert cs[..|cs|] == cs;
    if k < |cs| {
      forall j | k <= j <= |Parent(cs)|
        ensures ComposeIn(Parent(cs)[..j]) !in existing
        ensures j > k ==> Render(Parent(cs)[..j]) != home
      {
        PrefixOfParent(cs, j);
      }
      PrefixOfParent(cs, k);
      FindFromStopsAtHome(Parent(cs), home, existing, k);
    }
  }

  /**
   * The loop never returns exactly when no ancestor-or-self holds the file and none
   * is the home directory. In particular it terminates whenever home is an
   * ancestor-or-self of the working directory, and with home elsewhere and no compose
   * file on the way up it runs forever.
   */
  lemma {:induction false} FindFromDiverges(cs: seq<string>, home: string, existing: set<string>)
    ensures FindFrom(cs, home, existing) == None
            <==> forall j :: 0 <= j <= |cs| ==> ComposeIn(cs[..j]) !in existing && Render(cs[..j]) != home
    decreases |cs|
  {
    assert cs[..|cs|] == cs;
    if cs != [] {
      FindFromDiverges(Parent(cs), home, existing);
      forall j | 0 <= j <= |Parent(cs)| ensures Parent(cs)[..j] == cs[..j] {
        PrefixOfParent(cs, j);
      }
    }
  }

  /** Every non-empty result is a compose file that exists on the way up from `cs`. */
  lemma {:induction false} FindFromSound(cs: seq<string>, home: string, existing: set<string>)
    ensures FindFrom(cs, home, existing).Some? && FindFrom(cs, home, existing).value != "" ==>
              exists k :: 0 <= k <= |cs| && FindFrom(cs, home, existing).value == ComposeIn(cs[..k])
                          && ComposeIn(cs[..k]) in existing
    ensures FindFrom(cs, home, existing) == Some("") ==>
              exists k :: 0 <= k <= |cs| && Render(cs[..k]) == home
    decreases |cs|
  {
    assert cs[..|cs|] == cs;
    var r := FindFrom(cs, home, existing);
    if ComposeIn(cs) !in existing && Render(cs) != home && cs != [] {
      FindFromSound(Parent(cs), home, existing);
      if r.Some? && r.value != "" {
        var k :| 0 <= k <= |Parent(cs)| && r.value == ComposeIn(Parent(cs)[..k]) && ComposeIn(Parent(cs)[..k]) in existing;
        PrefixOfParent(cs, k);
      }
      if r == Some("") {
        var k :| 0 <= k <= |Parent(cs)| && Render(Parent(cs)[..k]) == home;
        PrefixOfParent(cs, k);
      }
    }
  }

  /** From /tmp, with home at /home/ploy and no compose file anywhere, the loop never returns. */
  lemma OutsideHomeNeverReturns()
    ensures FindFrom(["tmp"], "/home/ploy", {}) == None
  {
    assert Render(["tmp"]) == "/tmp";
    assert Parent(["tmp"]) == [];
  }

  /**
   * The walk as evidently intended: it also gives up with "" once `/` has been
   * searched, so it always returns.
   */
  function IntendedFind(cs: seq<string>, home: string, existing: set<string>): (r: string)
    ensures r == "" || r in existing
    decreases |cs|
  {
    if ComposeIn(cs) in existing then ComposeIn(cs)
    else if Render(cs) == home || cs == [] then ""
    else IntendedFind(Parent(cs), home, existing)
  }

  /** Wherever the written loop returns, the intended walk returns the same; where it hangs, "" comes back. */
  lemma {:induction false} IntendedFindAgrees(cs: seq<string>, home: string, existing: set<string>)
    ensures FindFrom(cs, home, existing).Some? ==> IntendedFind(cs, home, existing) == FindFrom(cs, home, existing).value
    ensures FindFrom(cs, home, existing).None? ==> IntendedFind(cs, home, existing) == ""
    decreases |cs|
  {
    if ComposeIn(cs) !in existing && Render(cs) != home && cs != [] {
      IntendedFindAgrees(Parent(cs), home, existing);
    }
  }
}
