/**
 * src/utils/update.go: deciding whether a newer release exists, choosing the
 * release asset for this system, and the order in which SelfUpdate gives up.
 * The GitHub release (or the error fetching or decoding it), the effective user
 * id, runtime.GOOS/GOARCH and the outcome of the steps after the download are
 * parameters.
 */
module Update {
  import opened Wrappers
  import GoPaths

  /**
   * common.CurrentCliVersion as src/common/constants.go declares it. src/common/vars.go
   * declares the same constant as "0.1.1"; the value of constants.go is taken by choice.
   */
  const CurrentCliVersion := "0.5.8"

  datatype Asset = Asset(name: string, downloadURL: string)
  datatype Release = Release(tagName: string, assets: seq<Asset>)

  /** Go's `<` on strings: lexicographic, by character (UTF-8 byte order agrees with code-point order). */
  predicate Less(a: string, b: string)
    decreases |a|
  {
    if a == [] then b != []
    else if b == [] then false
    else if a[0] != b[0] then a[0] < b[0]
    else Less(a[1..], b[1..])
  }

  lemma {:induction false} LessIrreflexive(a: string)
    ensures !Less(a, a)
    decreases |a|
  {
    if a != [] {
      LessIrreflexive(a[1..]);
    }
  }

  lemma {:induction false} LessAsymmetric(a: string, b: string)
    ensures Less(a, b) ==> !Less(b, a)
    decreases |a|
  {
    if a != [] && b != [] && a[0] == b[0] {
      LessAsymmetric(a[1..], b[1..]);
    }
  }

  lemma {:induction false} LessTransitive(a: string, b: string, c: string)
    requires Less(a, b) && Less(b, c)
    ensures Less(a, c)
    decreases |a|
  {
    if a != [] && a[0] == b[0] && b[0] == c[0] {
      LessTransitive(a[1..], b[1..], c[1..]);
    }
  }

  lemma {:induction false} LessTotal(a: string, b: string)
    ensures a == b || Less(a, b) || Less(b, a)
    decreases |a|
  {
    if a != [] && b != [] && a[0] == b[0] {
      LessTotal(a[1..], b[1..]);
      if a[1..] == b[1..] {
        assert a == [a[0]] + a[1..] && b == [b[0]] + b[1..];
      }
    }
  }

  /** A proper prefix sorts first. */
  lemma {:induction false} LessProperPrefix(a: string, b: string)
    requires |a| < |b| && a == b[..|a|]
    ensures Less(a, b)
    decreases |a|
  {
    if a != [] {
      assert a[0] == b[0];
      assert a[1..] == b[1..][..|a| - 1];
      LessProperPrefix(a[1..], b[1..]);
    }
  }

  /** The `hasUpdate` result of CheckForUpdates: the tag sorts strictly after the running version. */
  predicate HasUpdate(tagName: string, current: string) {
    Less(current, tagName)
  }

  /**
   * CheckForUpdates over the outcome of fetching and decoding the latest release:
   * the tag and whether it is newer, or the fetch error unchanged.
   */
  function CheckForUpdates(latest: Result<Release, string>, current: string): (r: Result<(string, bool), string>)
    ensures latest.Err? <==> r.Err?
    ensures r.Err? ==> r.error == latest.error
    ensures r.Ok? ==> r.value.0 == latest.value.tagName && (r.value.1 <==> HasUpdate(latest.value.tagName, current))
    ensures r.Ok? && latest.value.tagName == current ==> !r.value.1
  {
    match latest
    case Err(e) => Err(e)
    case Ok(release) =>
      LessIrreflexive(current);
      Ok((release.tagName, HasUpdate(release.tagName, current)))
  }

  /** An update is never offered in both directions, and every different tag is either newer or older. */
  lemma HasUpdateTrichotomy(tag: string, current: string)
    ensures !(HasUpdate(tag, current) && HasUpdate(current, tag))
    ensures tag != current ==> HasUpdate(tag, current) || HasUpdate(current, tag)
  {
    LessAsymmetric(current, tag);
    LessTotal(tag, current);
  }

  /** A `v`-prefixed tag counts as newer than any version that starts with a digit, because 'v' sorts after every digit. */
  lemma VTagBeatsNumeric(rest: string, current: string)
    requires current != [] && '0' <= current[0] <= '9'
    ensures HasUpdate("v" + rest, current)
  {
    assert ("v" + rest)[0] == 'v';
  }

  /** The test release tag "v1.0.1" counts as newer than the built-in version. */
  lemma TestTagHasUpdate()
    ensures CheckForUpdates(Ok(Release("v1.0.1", [])), CurrentCliVersion) == Ok(("v1.0.1", true))
  {
    VTagBeatsNumeric("1.0.1", CurrentCliVersion);
  }

  /** The test release tag is newer than the "0.1.1" of src/common/vars.go too. */
  lemma TestTagHasUpdateVarsVersion()
    ensures CheckForUpdates(Ok(Release("v1.0.1", [])), "0.1.1") == Ok(("v1.0.1", true))
  {
    VTagBeatsNumeric("1.0.1", "0.1.1");
  }

  /** The release file a system should download, if it is one of the two supported ones. */
  predicate MatchesSystem(name: string, goos: string, goarch: string) {
    goos == "linux"
    && ((goarch == "amd64" && name == "ploy-linux-amd64.tar.gz")
        || (goarch == "arm64" && name == "ploy-linux-arm64.tar.gz"))
  }

  /** How an asset's name is checked for the ".tar.gz" extension. */
  datatype ExtensionTest =
    | FilepathExt  // as written: filepath.Ext(name) == ".tar.gz"
    | NameSuffix   // as intended: the name ends in ".tar.gz"

  predicate HasSuffix(s: string, suffix: string) {
    |suffix| <= |s| && s[|s| - |suffix|..] == suffix
  }

  /** The test getAssetURL applies to an asset. */
  predicate Matches(a: Asset, test: ExtensionTest, goos: string, goarch: string) {
    (if test == FilepathExt then GoPaths.Ext(a.name) == ".tar.gz" else HasSuffix(a.name, ".tar.gz"))
    && MatchesSystem(a.name, goos, goarch)
  }

  /** The position of the first asset that passes the test, |assets| when none does. */
  function FirstMatch(assets: seq<Asset>, test: ExtensionTest, goos: string, goarch: string): (i: nat)
    ensures i <= |assets|
    ensures forall j :: 0 <= j < i ==> !Matches(assets[j], test, goos, goarch)
    ensures i < |assets| ==> Matches(assets[i], test, goos, goarch)
    decreases |assets|
  {
    if assets == [] then 0
    else if Matches(assets[0], test, goos, goarch) then 0
    else
      var i := FirstMatch(assets[1..], test, goos, goarch);
      assert forall j :: 1 <= j < |assets| ==> assets[1..][j - 1] == assets[j];
      1 + i
  }

  /** getAssetURL as a search: the URL of the first asset that passes the test, or "". */
  function AssetURL(assets: seq<Asset>, test: ExtensionTest, goos: string, goarch: string): (url: string)
    ensures var i := FirstMatch(assets, test, goos, goarch);
            url == if i < |assets| then assets[i].downloadURL else ""
    decreases |assets|
  {
    if assets == [] then ""
    else
      var a := assets[0];
      if Matches(a, test, goos, goarch) then a.downloadURL
      else AssetURL(assets[1..], test, goos, goarch)
  }

  /** AssetURL looks at the first asset, then at the rest. */
  lemma AssetURLStep(assets: seq<Asset>, test: ExtensionTest, goos: string, goarch: string)
    requires assets != []
    ensures AssetURL(assets, test, goos, goarch)
            == if Matches(assets[0], test, goos, goarch) then assets[0].downloadURL
               else AssetURL(assets[1..], test, goos, goarch)
  {
  }

  /** getAssetURL: the loop over the release's assets with an early return. */
  method GetAssetURL(release: Release, goos: string, goarch: string) returns (url: string)
    ensures url == AssetURL(release.assets, FilepathExt, goos, goarch)
  {
    var i := 0;
    while i < |release.assets|
      invariant 0 <= i <= |release.assets|
      invariant AssetURL(release.assets[i..], FilepathExt, goos, goarch)
                == AssetURL(release.assets, FilepathExt, goos, goarch)
    {
      var asset := release.assets[i];
      AssetURLStep(release.assets[i..], FilepathExt, goos, goarch);
      if GoPaths.Ext(asset.name) == ".tar.gz" && goos == "linux" {
        if goarch == "amd64" && asset.name == "ploy-linux-amd64.tar.gz" {
          return asset.downloadURL;
        } else if goarch == "arm64" && asset.name == "ploy-linux-arm64.tar.gz" {
          return asset.downloadURL;
        }
      }
      assert release.assets[i..][1..] == release.assets[i + 1..];
      i := i + 1;
    }
    url := "";
  }

  /** As written, no asset passes the extension check, so getAssetURL returns "" for every release and system. */
  lemma AssetURLAlwaysEmpty(assets: seq<Asset>, goos: string, goarch: string)
    ensures AssetURL(assets, FilepathExt, goos, goarch) == ""
  {
    var i := FirstMatch(assets, FilepathExt, goos, goarch);
    if i < |assets| {
      GoPaths.ExtNeverTarGz(assets[i].name);
    }
  }

  /** With the intended test, the first asset named for the system is the one chosen. */
  lemma IntendedPicksSystemAsset(assets: seq<Asset>, goos: string, goarch: string, k: nat)
    requires k < |assets| && MatchesSystem(assets[k].name, goos, goarch)
    requires forall j :: 0 <= j < k ==> assets[j].name != assets[k].name
    ensures AssetURL(assets, NameSuffix, goos, goarch) == assets[k].downloadURL
  {
    assert Matches(assets[k], NameSuffix, goos, goarch);
    var i := FirstMatch(assets, NameSuffix, goos, goarch);
    assert i == k;
  }

  /** Only linux on amd64 or arm64 is served, under either test. */
  lemma UnsupportedSystemGetsNothing(assets: seq<Asset>, test: ExtensionTest, goos: string, goarch: string)
    requires goos != "linux" || (goarch != "amd64" && goarch != "arm64")
    ensures AssetURL(assets, test, goos, goarch) == ""
  {
  }

  /** The release of update_test.go on linux/amd64: the intended test finds its asset, the written one does not. */
  lemma TestReleaseAsset()
    ensures var assets := [Asset("ploy-linux-amd64.tar.gz", "https://example.com/ploy-linux-amd64.tar.gz")];
            AssetURL(assets, NameSuffix, "linux", "amd64") == "https://example.com/ploy-linux-amd64.tar.gz"
            && AssetURL(assets, FilepathExt, "linux", "amd64") == ""
  {
    var assets := [Asset("ploy-linux-amd64.tar.gz", "https://example.com/ploy-linux-amd64.tar.gz")];
    assert HasSuffix(assets[0].name, ".tar.gz");
    AssetURLAlwaysEmpty(assets, "linux", "amd64");
  }

  /** The effects SelfUpdate performs, in order. */
  datatype Step = FetchRelease | Download(url: string)

  /** The steps SelfUpdate took and what it returned (`(renamed, error)` as a Result). */
  datatype UpdateRun = UpdateRun(steps: seq<Step>, result: Result<bool, string>)

  /**
   * What follows once the release is known: an empty URL stops with "no suitable
   * binary found for this system" before any download; otherwise the download
   * happens and `install` (the outcome of writing, chmod-ing and renaming the new
   * binary) is returned.
   */
  function Install(url: string, install: Result<bool, string>): (r: UpdateRun)
    ensures url == "" <==> r.steps == [FetchRelease]
    ensures url == "" ==> r.result == Err("no suitable binary found for this system")
    ensures url != "" ==> r.steps == [FetchRelease, Download(url)] && r.result == install
  {
    if url == "" then UpdateRun([FetchRelease], Err("no suitable binary found for this system"))
    else UpdateRun([FetchRelease, Download(url)], install)
  }

  /**
   * SelfUpdate: it refuses to run unless the effective user id is 0, before fetching
   * anything; a failed fetch is returned as is; then the asset URL decides whether
   * a download happens.
   */
  function SelfUpdate(euid: int, latest: Result<Release, string>, goos: string, goarch: string,
                      install: Result<bool, string>): (r: UpdateRun)
    ensures euid != 0 <==> r.steps == []
    ensures euid != 0 ==> r.result == Err("the update command must be run as root")
    ensures euid == 0 && latest.Err? ==> r == UpdateRun([FetchRelease], Err(latest.error))
    ensures euid == 0 && latest.Ok? ==> r == Install(AssetURL(latest.value.assets, FilepathExt, goos, goarch), install)
    ensures forall u :: Download(u) in r.steps ==> u != "" && Download(u) == r.steps[1]
  {
    if euid != 0 then UpdateRun([], Err("the update command must be run as root"))
    else match latest
      case Err(e) => UpdateRun([FetchRelease], Err(e))
      case Ok(release) => Install(AssetURL(release.assets, FilepathExt, goos, goarch), install)
  }

  /** As written, SelfUpdate never downloads: run as root with a release in hand, it always reports no suitable binary. */
  lemma SelfUpdateNeverDownloads(euid: int, latest: Result<Release, string>, goos: string, goarch: string,
                                 install: Result<bool, string>)
    ensures forall u :: Download(u) !in SelfUpdate(euid, latest, goos, goarch, install).steps
    ensures euid == 0 && latest.Ok? ==>
              SelfUpdate(euid, latest, goos, goarch, install).result == Err("no suitable binary found for this system")
  {
    if euid == 0 && latest.Ok? {
      AssetURLAlwaysEmpty(latest.value.assets, goos, goarch);
    }
  }

  /** SelfUpdate with the intended asset test. */
  function IntendedSelfUpdate(euid: int, latest: Result<Release, string>, goos: string, goarch: string,
                              install: Result<bool, string>): (r: UpdateRun)
    ensures euid != 0 <==> r.steps == []
    ensures euid != 0 ==> r.result == Err("the update command must be run as root")
    ensures euid == 0 && latest.Err? ==> r == UpdateRun([FetchRelease], Err(latest.error))
    ensures euid == 0 && latest.Ok? ==> r == Install(AssetURL(latest.value.assets, NameSuffix, goos, goarch), install)
  {
    if euid != 0 then UpdateRun([], Err("the update command must be run as root"))
    else match latest
      case Err(e) => UpdateRun([FetchRelease], Err(e))
      case Ok(release) => Install(AssetURL(release.assets, NameSuffix, goos, goarch), install)
  }

  /** With the intended test, root on linux/amd64 downloads the test release's asset and returns the install outcome. */
  lemma IntendedSelfUpdateDownloads(install: Result<bool, string>)
    ensures var release := Release("v1.0.1", [Asset("ploy-linux-amd64.tar.gz", "https://example.com/ploy-linux-amd64.tar.gz")]);
            IntendedSelfUpdate(0, Ok(release), "linux", "amd64", install)
              == UpdateRun([FetchRelease, Download("https://example.com/ploy-linux-amd64.tar.gz")], install)
  {
    TestReleaseAsset();
  }
}
