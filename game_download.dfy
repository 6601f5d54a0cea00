/** The download panel of src/components/GameDownload.tsx: the builds grouped by platform,
    the purchase gate in front of a download, the in-progress marker, and the icon choices. */
module GameDownload {
  import opened Common
  import opened GoogleDrive

  // ---------------------------------------------------------------------------
  // Icons

  datatype Icon = Smartphone | Monitor | FileArchive

  /** `getPlatformIcon`: a phone for Android and iOS in any letter case, a monitor otherwise. */
  function PlatformIcon(platform: string): (icon: Icon)
    ensures icon == Smartphone <==> Lower(platform) == "android" || Lower(platform) == "ios"
    ensures icon != FileArchive
  {
    var p := Lower(platform);
    if p == "android" || p == "ios" then Smartphone else Monitor
  }

  /** The platform icon ignores letter case. */
  lemma PlatformIconIgnoresCase(platform: string)
    ensures PlatformIcon(Lower(platform)) == PlatformIcon(platform)
  {
    LowerIdempotent(platform);
  }

  /** `getFileIcon`: `.apk` is tested before `.exe`; anything else is an archive. */
  function FileIcon(fileName: string): (icon: Icon)
    ensures icon == Smartphone <==> EndsWith(fileName, ".apk")
    ensures icon == Monitor <==> !EndsWith(fileName, ".apk") && EndsWith(fileName, ".exe")
    ensures icon == FileArchive <==> !EndsWith(fileName, ".apk") && !EndsWith(fileName, ".exe")
    ensures EndsWith(fileName, ".exe") ==> icon == Monitor
  {
    if EndsWith(fileName, ".apk") then Smartphone
    else if EndsWith(fileName, ".exe") then Monitor
    else FileArchive
  }

  // ---------------------------------------------------------------------------
  // Grouping by platform

  /** The builds of one platform, in input order. */
  function OfPlatform(builds: seq<GameBuild>, platform: string): (r: seq<GameBuild>)
    ensures |r| <= |builds|
    ensures forall b :: b in r <==> b in builds && b.platform == platform
  {
    if builds == [] then []
    else if builds[0].platform == platform then [builds[0]] + OfPlatform(builds[1..], platform)
    else OfPlatform(builds[1..], platform)
  }

  /** Within a group the builds keep their input order. */
  lemma {:induction false} OfPlatformKeepsOrder(builds: seq<GameBuild>, platform: string)
    ensures IsSubsequence(OfPlatform(builds, platform), builds)
  {
    if builds != [] {
      OfPlatformKeepsOrder(builds[1..], platform);
    }
  }

  lemma {:induction false} OfPlatformAppend(builds: seq<GameBuild>, b: GameBuild, platform: string)
    ensures OfPlatform(builds + [b], platform) ==
            OfPlatform(builds, platform) + (if b.platform == platform then [b] else [])
  {
    if builds != [] {
      assert (builds + [b])[1..] == builds[1..] + [b];
      OfPlatformAppend(builds[1..], b, platform);
    } else {
      assert [] + [b] == [b];
    }
  }

  /** The platforms in order of first appearance: the key order of the grouped record. */
  function PlatformsInOrder(builds: seq<GameBuild>): (ps: seq<string>)
    ensures NoDuplicates(ps)
  {
    if builds == [] then []
    else
      var init := builds[..|builds| - 1];
      var last := builds[|builds| - 1];
      assert builds == init + [last];
      var ps := PlatformsInOrder(init);
      if last.platform in ps then ps else ps + [last.platform]
  }
  /** The keys are exactly the platforms that occur among the builds. */
  lemma {:induction false} PlatformsInOrderMembers(builds: seq<GameBuild>)
    ensures forall p :: p in PlatformsInOrder(builds) <==> exists b :: b in builds && b.platform == p
  {
    if builds != [] {
      var init := builds[..|builds| - 1];
      var last := builds[|builds| - 1];
      assert builds == init + [last];
      PlatformsInOrderMembers(init);
      var ps := PlatformsInOrder(init);
      assert PlatformsInOrder(builds) == if last.platform in ps then ps else ps + [last.platform];
      forall p | true
        ensures p in PlatformsInOrder(builds) <==> exists b :: b in builds && b.platform == p
      {
        if p in ps {
          var b :| b in init && b.platform == p;
          assert b in builds;
        }
        if p == last.platform {
          assert last in builds;
        }
        if exists b :: b in builds && b.platform == p {
          var b :| b in builds && b.platform == p;
          assert b in init || b == last;
        }
      }
    }
  }


  /** The sizes of the groups of `ps`, added up. */
  function GroupSizes(builds: seq<GameBuild>, ps: seq<string>): nat
  {
    if ps == [] then 0
    else GroupSizes(builds, ps[..|ps| - 1]) + |OfPlatform(builds, ps[|ps| - 1])|
  }

  /** One more build adds one to the total exactly when its platform is among `ps`. */
  lemma {:induction false} GroupSizesStep(builds: seq<GameBuild>, b: GameBuild, ps: seq<string>)
    requires NoDuplicates(ps)
    ensures GroupSizes(builds + [b], ps) == GroupSizes(builds, ps) + (if b.platform in ps then 1 else 0)
    decreases |ps|
  {
    if ps != [] {
      var init := ps[..|ps| - 1];
      var r := ps[|ps| - 1];
      assert ps == init + [r];
      assert NoDuplicates(init);
      assert r !in init;
      GroupSizesStep(builds, b, init);
      OfPlatformAppend(builds, b, r);
    }
  }

  /** A platform that never occurs has an empty group. */
  lemma NoneOfPlatform(builds: seq<GameBuild>, platform: string)
    requires platform !in PlatformsInOrder(builds)
    ensures OfPlatform(builds, platform) == []
  {
    PlatformsInOrderMembers(builds);
    OfAbsentPlatform(builds, platform);
  }

  lemma {:induction false} OfAbsentPlatform(builds: seq<GameBuild>, platform: string)
    requires forall b :: b in builds ==> b.platform != platform
    ensures OfPlatform(builds, platform) == []
  {
    if builds != [] {
      assert builds[0] in builds;
      assert forall b :: b in builds[1..] ==> b in builds;
      OfAbsentPlatform(builds[1..], platform);
    }
  }

  /** The key order after one more build. */
  lemma KeysStep(builds: seq<GameBuild>, b: GameBuild)
    ensures PlatformsInOrder(builds + [b]) ==
            if b.platform in PlatformsInOrder(builds) then PlatformsInOrder(builds)
            else PlatformsInOrder(builds) + [b.platform]
  {
    var bs := builds + [b];
    assert bs[..|bs| - 1] == builds && bs[|bs| - 1] == b;
  }

  /** The group sizes add up to the number of builds. */
  lemma {:induction false} GroupSizesSum(builds: seq<GameBuild>)
    ensures GroupSizes(builds, PlatformsInOrder(builds)) == |builds|
    decreases |builds|
  {
    if builds != [] {
      var init := builds[..|builds| - 1];
      var b := builds[|builds| - 1];
      assert builds == init + [b];
      var ps := PlatformsInOrder(init);
      GroupSizesSum(init);
      GroupSizesStep(init, b, ps);
      if b.platform !in ps {
        var ps' := ps + [b.platform];
        assert PlatformsInOrder(builds) == ps';
        assert ps'[..|ps'| - 1] == ps;
        assert GroupSizes(builds, ps') == GroupSizes(builds, ps) + |OfPlatform(builds, b.platform)|;
        OfPlatformAppend(init, b, b.platform);
        NoneOfPlatform(init, b.platform);
      } else {
        assert PlatformsInOrder(builds) == ps;
      }
    }
  }

  /** `groups` and `keys` are the grouping of `builds`. */
  ghost predicate GroupedAs(builds: seq<GameBuild>, groups: map<string, seq<GameBuild>>, keys: seq<string>)
  {
    keys == PlatformsInOrder(builds) && KeysOf(groups, keys) && ListsExact(builds, groups)
  }

  /** The record's keys are the listed keys. */
  ghost predicate KeysOf(groups: map<string, seq<GameBuild>>, keys: seq<string>)
  {
    forall p :: p in groups <==> p in keys
  }

  /** Every list of the record holds exactly its platform's builds. */
  ghost predicate ListsExact(builds: seq<GameBuild>, groups: map<string, seq<GameBuild>>)
  {
    forall p :: p in groups ==> groups[p] == OfPlatform(builds, p)
  }

  /** A build of a platform already seen adds no key. */
  lemma KnownPlatformKeepsKeys(builds: seq<GameBuild>, b: GameBuild)
    requires b.platform in PlatformsInOrder(builds)
    ensures PlatformsInOrder(builds + [b]) == PlatformsInOrder(builds)
  {
    KeysStep(builds, b);
  }

  /** Pushing a build onto its platform's list keeps every list exact. */
  lemma PushKeepsGroups(builds: seq<GameBuild>, b: GameBuild, groups: map<string, seq<GameBuild>>)
    requires b.platform in groups
    requires forall p :: p in groups ==> groups[p] == OfPlatform(builds, p)
    ensures var after := groups[b.platform := groups[b.platform] + [b]];
            forall p :: p in after ==> after[p] == OfPlatform(builds + [b], p)
  {
    var after := groups[b.platform := groups[b.platform] + [b]];
    forall p | p in after
      ensures after[p] == OfPlatform(builds + [b], p)
    {
      OfPlatformAppend(builds, b, p);
      if p != b.platform {
        assert after[p] == groups[p];
      }
    }
  }

  /** A step on a platform that already has a list pushes onto it. */
  lemma GroupStepPresent(builds: seq<GameBuild>, b: GameBuild, groups: map<string, seq<GameBuild>>, keys: seq<string>)
    requires GroupedAs(builds, groups, keys) && b.platform in groups
    ensures GroupedAs(builds + [b], groups[b.platform := groups[b.platform] + [b]], keys)
  {
    var after := groups[b.platform := groups[b.platform] + [b]];
    assert PlatformsInOrder(builds + [b]) == keys by {
      KnownPlatformKeepsKeys(builds, b);
    }
    assert KeysOf(after, keys) by {
      assert after.Keys == groups.Keys;
    }
    assert ListsExact(builds + [b], after) by {
      PushKeepsGroups(builds, b, groups);
    }
  }

  /** A step on a new platform creates its list holding just this build. */
  lemma GroupStepAbsent(builds: seq<GameBuild>, b: GameBuild, groups: map<string, seq<GameBuild>>, keys: seq<string>)
    requires GroupedAs(builds, groups, keys) && b.platform !in groups
    ensures GroupedAs(builds + [b], groups[b.platform := [b]], keys + [b.platform])
  {
    var q := b.platform;
    KeysStep(builds, b);
    NoneOfPlatform(builds, q);
    forall p | p in groups || p == q
      ensures groups[q := [b]][p] == OfPlatform(builds + [b], p)
    {
      OfPlatformAppend(builds, b, p);
    }
  }

  /** `groupedBuilds`: a record from platform to its builds, filled by one pass that creates a
      platform's list on first sight and pushes each build onto its list. Also returns the
      order in which the keys were created, which is the order the groups are shown in. */
  method GroupBuilds(builds: seq<GameBuild>) returns (groups: map<string, seq<GameBuild>>, keys: seq<string>)
    ensures keys == PlatformsInOrder(builds)
    ensures forall p :: p in groups <==> p in keys
    ensures forall p :: p in groups ==> groups[p] == OfPlatform(builds, p)
  {
    groups := map[];
    keys := [];
    var i := 0;
    while i < |builds|
      invariant 0 <= i <= |builds|
      invariant GroupedAs(builds[..i], groups, keys)
    {
      var b := builds[i];
      assert builds[..i + 1] == builds[..i] + [b];
      if b.platform !in groups {
        GroupStepAbsent(builds[..i], b, groups, keys);
        groups := groups[b.platform := []];
        keys := keys + [b.platform];
        assert groups[b.platform] + [b] == [b];
      } else {
        GroupStepPresent(builds[..i], b, groups, keys);
      }
      groups := groups[b.platform := groups[b.platform] + [b]];
      i := i + 1;
    }
    assert builds[..i] == builds;
  }

  // ---------------------------------------------------------------------------
  // The download gate

  /** `canDownload` */
  predicate CanDownload(isFree: bool, isPurchased: bool)
  {
    isFree || isPurchased
  }

  /** What a click on a build's button led to. */
  datatype ClickEffect = NothingHappens | PurchaseRequested | DownloadStarted

  /** The arguments `onDownload` receives. */
  datatype DownloadCall = DownloadCall(buildId: Option<string>, platform: string)

  /** The temporary link element that is clicked: its `href` and its `download` file name. */
  datatype LinkClick = LinkClick(href: string, download: string)

  class DownloadPanel {
    /** `downloadingBuild`: the build being fetched, `None` when idle. */
    var downloading: Option<Option<string>>

    constructor ()
      ensures downloading == None
    {
      downloading := None;
    }

    /** The button of `build` is clickable: the game may be downloaded and the build is not
        already being fetched. */
    predicate Enabled(build: GameBuild, isFree: bool, isPurchased: bool)
      reads this
    {
      CanDownload(isFree, isPurchased) && downloading != Some(build.id)
    }

    /** The first half of `handleDownload`, up to the simulated delay. Without the right to
        download it only asks for a purchase (when a purchase handler exists); otherwise it
        marks the build as being fetched. */
    method Click(build: GameBuild, isFree: bool, isPurchased: bool, hasPurchaseHandler: bool)
      returns (effect: ClickEffect)
      modifies this
      ensures !CanDownload(isFree, isPurchased) ==>
        downloading == old(downloading) &&
        effect == (if hasPurchaseHandler then PurchaseRequested else NothingHappens)
      ensures CanDownload(isFree, isPurchased) ==> downloading == Some(build.id) && effect == DownloadStarted
      ensures CanDownload(isFree, isPurchased) ==> !Enabled(build, isFree, isPurchased)
    {
      if !isPurchased && !isFree {
        effect := if hasPurchaseHandler then PurchaseRequested else NothingHappens;
        return;
      }
      downloading := Some(build.id);
      effect := DownloadStarted;
    }

    /** The second half: click a link to the build's URL under its file name, then report
        the build's id and platform, unless the click threw; either way the marker is cleared. */
    method Finish(build: GameBuild, linkFailed: bool) returns (link: LinkClick, call: Option<DownloadCall>)
      modifies this
      ensures downloading == None
      ensures link == LinkClick(build.downloadUrl, build.fileName)
      ensures !linkFailed <==> call.Some?
      ensures call.Some? ==> call.value == DownloadCall(build.id, build.platform)
    {
      link := LinkClick(build.downloadUrl, build.fileName);
      if linkFailed {
        call := None;
      } else {
        call := Some(DownloadCall(build.id, build.platform));
      }
      downloading := None;
    }
  }

  /** A whole click on a build the user may not download leaves the panel idle and never
      reports a download; a permitted one reports exactly that build. */
  method HandleDownload(panel: DownloadPanel, build: GameBuild, isFree: bool, isPurchased: bool,
                        hasPurchaseHandler: bool, linkFailed: bool)
    returns (effect: ClickEffect, link: Option<LinkClick>, call: Option<DownloadCall>)
    requires panel.downloading == None
    modifies panel
    ensures panel.downloading == None
    ensures CanDownload(isFree, isPurchased) ==> panel.Enabled(build, isFree, isPurchased)
    ensures !CanDownload(isFree, isPurchased) ==> link == None && call == None && effect != DownloadStarted
    ensures CanDownload(isFree, isPurchased) ==>
      effect == DownloadStarted && link == Some(LinkClick(build.downloadUrl, build.fileName))
    ensures CanDownload(isFree, isPurchased) && !linkFailed ==>
      call == Some(DownloadCall(build.id, build.platform))
    ensures linkFailed ==> call == None
  {
    effect := panel.Click(build, isFree, isPurchased, hasPurchaseHandler);
    if effect == DownloadStarted {
      var clicked;
      clicked, call := panel.Finish(build, linkFailed);
      link := Some(clicked);
    } else {
      link, call := None, None;
    }
  }
}
