/** The release resolver behind `v1/cb/android/upgrade/latest`. */
module Upgrade {
  import opened Kotlin
  import opened CbResponses
  import opened Sources
  import opened Entities

  /** The outcome of an HTTP GET: the client threw (a transport fault, with its
      message), or it answered with a body that may be null. */
  datatype Fetch<T> = Fault(message: string) | Fetched(body: Option<T>)

  /** Canary mode is on only for the exact flag "1". */
  predicate CanaryEnabled(canary: string) {
    "1" == canary
  }

  /** A release is eligible when its name (null read as "") starts with "Release",
      or with "Pre Release" in canary mode. */
  predicate ReleaseMatches(r: GitReleaseEntity, canaryEnable: bool) {
    var name := OrEmpty(r.name);
    StartsWith(name, "Release") || (canaryEnable && StartsWith(name, "Pre Release"))
  }

  function ReleaseFilter(canaryEnable: bool): (f: GitReleaseEntity -> bool) {
    (r: GitReleaseEntity) => ReleaseMatches(r, canaryEnable)
  }

  /** An asset qualifies when its download address is non-blank and its name
      (null read as "") ends in ".apk" and contains "_online" or "_canary". */
  predicate AssetQualifies(a: GitReleaseAssetEntity) {
    var name := OrEmpty(a.name);
    && !IsNullOrBlank(a.browser_download_url)
    && EndsWith(name, ".apk")
    && (Contains(name, "_online") || Contains(name, "_canary"))
  }

  function AssetFilter(): (f: GitReleaseAssetEntity -> bool) {
    (a: GitReleaseAssetEntity) => AssetQualifies(a)
  }

  /** The chosen release has no qualifying asset (or no asset list at all). */
  ghost predicate NoAsset(r: GitReleaseEntity) {
    r.assets.None? || forall j :: 0 <= j < |r.assets.value| ==> !AssetQualifies(r.assets.value[j])
  }

  /** The reported release, with every null field turned into "". */
  function Selected(r: GitReleaseEntity, a: GitReleaseAssetEntity): (e: ReleaseEntity) {
    ReleaseEntity(OrEmpty(r.name), OrEmpty(r.body), OrEmpty(a.name), OrEmpty(a.browser_download_url))
  }

  /** Within the chosen release only: its first qualifying asset, if any. */
  function PickAsset(release: GitReleaseEntity): (r: CbResponse<Payload>)
    ensures r == Failed(RESPONSE_CODE_FAILED_NO_RES, "No matched asset") || r.IsSuccess()
    ensures NoAsset(release) <==> r == Failed(RESPONSE_CODE_FAILED_NO_RES, "No matched asset")
    ensures forall j :: release.assets.Some? && IsFirst(release.assets.value, AssetFilter(), j) ==>
      r == Success(Some(Release(Selected(release, release.assets.value[j]))))
    ensures r.IsSuccess() ==> r.data.Some? && r.data.value.Release?
    ensures r.IsSuccess() ==>
      var e := r.data.value.release;
      && e.latestVersionName == OrEmpty(release.name)
      && !Blank(e.latestApkDownloadUrl)
      && EndsWith(e.latestApkName, ".apk")
      && (Contains(e.latestApkName, "_online") || Contains(e.latestApkName, "_canary"))
  {
    if release.assets.None? then Failed(RESPONSE_CODE_FAILED_NO_RES, "No matched asset")
    else
      match FirstIndex(release.assets.value, AssetFilter())
      case None => Failed(RESPONSE_CODE_FAILED_NO_RES, "No matched asset")
      case Some(j) =>
        FirstIndexUnique(release.assets.value, AssetFilter(), j);
        Success(Some(Release(Selected(release, release.assets.value[j]))))
  }

  /** The choice made over a fetched release list: the first eligible release and,
      within that release only, its first qualifying asset. */
  function Pick(rs: seq<GitReleaseEntity>, canaryEnable: bool): (r: CbResponse<Payload>)
    ensures r.code == RESPONSE_CODE_SUCCESS || r.code == RESPONSE_CODE_FAILED_NO_RES
    ensures (forall k :: 0 <= k < |rs| ==> !ReleaseMatches(rs[k], canaryEnable))
      <==> r == Failed(RESPONSE_CODE_FAILED_NO_RES, "No matched release")
    ensures forall i :: IsFirst(rs, ReleaseFilter(canaryEnable), i) ==> r == PickAsset(rs[i])
    ensures r.IsSuccess() ==> r.data.Some? && r.data.value.Release?
    ensures r.IsSuccess() ==>
      var name := r.data.value.release.latestVersionName;
      StartsWith(name, "Release") || (canaryEnable && StartsWith(name, "Pre Release"))
  {
    match FirstIndex(rs, ReleaseFilter(canaryEnable))
    case None => Failed(RESPONSE_CODE_FAILED_NO_RES, "No matched release")
    case Some(i) =>
      FirstIndexUnique(rs, ReleaseFilter(canaryEnable), i);
      PickAsset(rs[i])
  }

  /** `latest(source, canary)`: fetch the list of the selected source through
      `remote` (the HTTP GET, by address) and pick from it. A thrown fault becomes
      a generic failure carrying its message; it never escapes. */
  function Latest(source: string, canary: string, remote: string -> Fetch<seq<GitReleaseEntity>>): (r: CbResponse<Payload>)
    ensures remote(FromValue(source).Url()).Fault? ==>
      r == Failed(message := remote(FromValue(source).Url()).message)
    ensures remote(FromValue(source).Url()) == Fetched(None) ==>
      r == Failed(RESPONSE_CODE_FAILED_NO_RES, "Get Resource from remote failed")
    ensures remote(FromValue(source).Url()).Fetched? && remote(FromValue(source).Url()).body.Some? ==>
      r == Pick(remote(FromValue(source).Url()).body.value, CanaryEnabled(canary))
    ensures r.IsSuccess() ==> remote(FromValue(source).Url()).Fetched?
  {
    match remote(FromValue(source).Url())
    case Fault(m) => Failed(message := m)
    case Fetched(None) => Failed(RESPONSE_CODE_FAILED_NO_RES, "Get Resource from remote failed")
    case Fetched(Some(rs)) => Pick(rs, CanaryEnabled(canary))
  }

  /** Canary mode never turns a release ineligible: it adds exactly the names that
      start with "Pre Release", and a release without a name is never eligible. */
  lemma CanaryWidensEligibility(r: GitReleaseEntity, canaryEnable: bool)
    ensures ReleaseMatches(r, false) ==> ReleaseMatches(r, true)
    ensures ReleaseMatches(r, true) && !ReleaseMatches(r, false) ==> StartsWith(r.name.value, "Pre Release")
    ensures r.name.Some? && StartsWith(r.name.value, "Pre Release") ==> ReleaseMatches(r, true) && !ReleaseMatches(r, false)
    ensures r.name.None? ==> !ReleaseMatches(r, canaryEnable)
  {
    if r.name.Some? && StartsWith(r.name.value, "Pre Release") {
      assert r.name.value[..7][0] == 'P';
    }
  }

  /** An asset without a name or without a non-blank download address never
      qualifies; a qualifying name is at least as long as ".apk". */
  lemma QualifyingAssetHasNameAndAddress(a: GitReleaseAssetEntity)
    ensures a.name.None? ==> !AssetQualifies(a)
    ensures IsNullOrBlank(a.browser_download_url) ==> !AssetQualifies(a)
    ensures AssetQualifies(a) ==> a.name.Some? && |a.name.value| >= 4
  {
  }

  /** The manual drive source has no release list: `latest("2", ...)` sends its GET
      to the empty address, and the answer is whatever the client does with it. A
      client that refuses the address by throwing yields -1001 with its message,
      never a success. */
  lemma OneDriveFails(canary: string, remote: string -> Fetch<seq<GitReleaseEntity>>)
    requires remote("").Fault?
    ensures FromValue("2").Url() == ""
    ensures Latest("2", canary, remote) == Failed(message := remote("").message)
    ensures !Latest("2", canary, remote).IsSuccess()
  {
  }

  /** There is no fallback: when the first eligible release has no qualifying asset,
      a later eligible release with one is not considered. */
  lemma NoFallback(rs: seq<GitReleaseEntity>, canaryEnable: bool, i: int, later: int)
    requires IsFirst(rs, ReleaseFilter(canaryEnable), i) && NoAsset(rs[i])
    requires i < later < |rs| && ReleaseMatches(rs[later], canaryEnable)
    ensures Pick(rs, canaryEnable) == Failed(RESPONSE_CODE_FAILED_NO_RES, "No matched asset")
  {
  }

  /** Ineligible releases ahead of the first eligible one are skipped: the answer is
      the asset choice within that release, whatever the releases before it hold. */
  lemma SkipsIneligible(rs: seq<GitReleaseEntity>, canaryEnable: bool, i: int)
    requires 0 <= i < |rs| && ReleaseMatches(rs[i], canaryEnable)
    requires forall k :: 0 <= k < i ==> !ReleaseMatches(rs[k], canaryEnable)
    ensures Pick(rs, canaryEnable) == PickAsset(rs[i])
  {
    assert IsFirst(rs, ReleaseFilter(canaryEnable), i);
  }

  /** In the scenario below the pre-release is not eligible outside canary mode. */
  lemma PreReleaseIneligible()
    ensures !ReleaseMatches(GitReleaseEntity(None, Some("Pre Release 2.0"), None, None), false)
  {
    assert "Pre Release 2.0"[..7][0] == 'P';
  }

  /** In the scenario below the stable release is eligible. */
  lemma StableEligible()
    ensures ReleaseMatches(GitReleaseEntity(None, Some("Release 1.9"), None, None), false)
  {
    assert "Release 1.9"[..7] == "Release";
  }

  /** The scenario's asset name marks an online build. */
  lemma OnlineName()
    ensures Contains("app_online.apk", "_online")
  {
    var s := "app_online.apk";
    assert s[3..][..7] == "_online";
    assert Contains(s[3..], "_online");
    assert s[2..][1..] == s[3..];
    assert s[1..][1..] == s[2..];
  }

  /** In the scenario below the stable release's asset qualifies. */
  lemma OnlineApkQualifies()
    ensures AssetQualifies(GitReleaseAssetEntity(Some("app_online.apk"), Some("https://x/a.apk")))
  {
    OnlineName();
    assert EndsWith("app_online.apk", ".apk") by {
      assert "app_online.apk"[10..] == ".apk";
    }
    assert !Blank("https://x/a.apk") by {
      assert !IsWhitespace("https://x/a.apk"[0]);
    }
  }

  /** The default request ("0", "0") picks, outside canary mode, from GITHUB's list. */
  lemma LatestStableFromGithub(remote: string -> Fetch<seq<GitReleaseEntity>>, rs: seq<GitReleaseEntity>)
    requires remote(GITHUB.Url()) == Fetched(Some(rs))
    ensures Latest("0", "0", remote) == Pick(rs, false)
  {
    assert FromValue("0") == GITHUB && !CanaryEnabled("0");
  }

  /** The scenario's choice: outside canary mode, a pre-release ahead of a stable
      release with an online apk is skipped and the stable release is reported. */
  lemma StableScenarioPick()
    ensures Pick([GitReleaseEntity(None, Some("Pre Release 2.0"), None, None),
                  GitReleaseEntity(None, Some("Release 1.9"), None,
                    Some([GitReleaseAssetEntity(Some("app_online.apk"), Some("https://x/a.apk"))]))], false)
      == Success(Some(Release(ReleaseEntity("Release 1.9", "", "app_online.apk", "https://x/a.apk"))))
  {
    var asset := GitReleaseAssetEntity(Some("app_online.apk"), Some("https://x/a.apk"));
    var pre := GitReleaseEntity(None, Some("Pre Release 2.0"), None, None);
    var stable := GitReleaseEntity(None, Some("Release 1.9"), None, Some([asset]));
    PreReleaseIneligible();
    StableEligible();
    OnlineApkQualifies();
    assert ReleaseMatches(stable, false) by {
      assert OrEmpty(stable.name) == OrEmpty(GitReleaseEntity(None, Some("Release 1.9"), None, None).name);
    }
    SkipsIneligible([pre, stable], false, 1);
    assert IsFirst([asset], AssetFilter(), 0);
  }

  /** A stable list with a pre-release first: outside canary mode the "Release" entry is chosen. */
  lemma StableSkipsPreRelease(remote: string -> Fetch<seq<GitReleaseEntity>>)
    requires remote(GITHUB.Url()) == Fetched(Some([
      GitReleaseEntity(None, Some("Pre Release 2.0"), None, None),
      GitReleaseEntity(None, Some("Release 1.9"), None,
        Some([GitReleaseAssetEntity(Some("app_online.apk"), Some("https://x/a.apk"))]))]))
    ensures Latest("0", "0", remote)
      == Success(Some(Release(ReleaseEntity("Release 1.9", "", "app_online.apk", "https://x/a.apk"))))
  {
    StableScenarioPick();
    LatestStableFromGithub(remote, remote(GITHUB.Url()).body.value);
  }
}
