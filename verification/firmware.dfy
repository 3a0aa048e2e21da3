/**
  * Firmware release listing (mtg/utils/gith.py): the releases of the
  * meshtastic/firmware repository, as the GitHub client returns them, filtered
  * down to v2 firmware assets.  The GitHub connection and the token are not
  * modelled: the releases, each with its assets, are the input.
  */
module Firmware {
  import opened Strs

  datatype Asset = Asset(name: string, downloadUrl: string)

  datatype Release = Release(title: string, tagName: string, createdAt: string, htmlUrl: string,
                             assets: seq<Asset>)

  /** One row of the result: the release's date, tag and page plus one asset's URL. */
  datatype Entry = Entry(createdAt: string, tagName: string, htmlUrl: string, downloadUrl: string)

  /** A properly named, v2, non-revoked release. */
  predicate Eligible(r: Release) {
    StartsWith(r.title, "Meshtastic Firmware") && StartsWith(r.tagName, "v2") && !Contains(r.title, "Revoked")
  }

  predicate IsFirmware(a: Asset) {
    StartsWith(a.name, "firmware")
  }

  function EntryOf(r: Release, a: Asset): Entry {
    Entry(r.createdAt, r.tagName, r.htmlUrl, a.downloadUrl)
  }

  /** The entries the inner loop appends for the assets seen so far. */
  function AssetEntries(r: Release, assets: seq<Asset>): (es: seq<Entry>)
    ensures |es| <= |assets|
  {
    if |assets| == 0 then []
    else
      var last := assets[|assets| - 1];
      AssetEntries(r, assets[..|assets| - 1]) + (if IsFirmware(last) then [EntryOf(r, last)] else [])
  }

  /** The entries the outer loop has collected after the releases seen so far. */
  function FirmwareInfo(releases: seq<Release>): (es: seq<Entry>)
    ensures |releases| == 0 ==> es == []
  {
    if |releases| == 0 then []
    else
      var last := releases[|releases| - 1];
      FirmwareInfo(releases[..|releases| - 1]) + (if Eligible(last) then AssetEntries(last, last.assets) else [])
  }

  /** `get_firmware_info(token)`, over the releases the client returned. */
  method GetFirmwareInfo(repoReleases: seq<Release>) returns (releases: seq<Entry>)
    ensures releases == FirmwareInfo(repoReleases)
  {
    releases := [];
    for i := 0 to |repoReleases|
      invariant releases == FirmwareInfo(repoReleases[..i])
    {
      var release := repoReleases[i];
      assert repoReleases[..i + 1][..i] == repoReleases[..i];
      if !StartsWith(release.title, "Meshtastic Firmware") {
        continue;
      }
      if !StartsWith(release.tagName, "v2") {
        continue;
      }
      if Contains(release.title, "Revoked") {
        continue;
      }
      var before := releases;
      for j := 0 to |release.assets|
        invariant releases == before + AssetEntries(release, release.assets[..j])
      {
        var asset := release.assets[j];
        assert release.assets[..j + 1][..j] == release.assets[..j];
        if !StartsWith(asset.name, "firmware") {
          continue;
        }
        releases := releases + [EntryOf(release, asset)];
      }
      assert release.assets[..|release.assets|] == release.assets;
    }
    assert repoReleases[..|repoReleases|] == repoReleases;
  }

  /** Release order is kept: the listing of two runs of releases is the listing of
      the first followed by that of the second. */
  lemma {:induction false} FirmwareInfoAppend(xs: seq<Release>, ys: seq<Release>)
    ensures FirmwareInfo(xs + ys) == FirmwareInfo(xs) + FirmwareInfo(ys)
    decreases |ys|
  {
    if |ys| == 0 {
      assert xs + ys == xs;
    } else {
      var init := ys[..|ys| - 1];
      assert (xs + ys)[..|xs + ys| - 1] == xs + init;
      assert (xs + ys)[|xs + ys| - 1] == ys[|ys| - 1];
      FirmwareInfoAppend(xs, init);
    }
  }

  /** Asset order is kept in the same way within one release. */
  lemma {:induction false} AssetEntriesAppend(r: Release, xs: seq<Asset>, ys: seq<Asset>)
    ensures AssetEntries(r, xs + ys) == AssetEntries(r, xs) + AssetEntries(r, ys)
    decreases |ys|
  {
    if |ys| == 0 {
      assert xs + ys == xs;
    } else {
      var init := ys[..|ys| - 1];
      assert (xs + ys)[..|xs + ys| - 1] == xs + init;
      assert (xs + ys)[|xs + ys| - 1] == ys[|ys| - 1];
      AssetEntriesAppend(r, xs, init);
    }
  }

  /** A single release contributes its firmware assets when it is eligible, and
      nothing otherwise. */
  lemma OneRelease(r: Release)
    ensures Eligible(r) ==> FirmwareInfo([r]) == AssetEntries(r, r.assets)
    ensures !Eligible(r) ==> FirmwareInfo([r]) == []
  {
    assert [r][..0] == [];
  }

  /** The entries of one release are exactly its firmware assets. */
  lemma {:induction false} AssetEntriesMembers(r: Release, assets: seq<Asset>, e: Entry)
    ensures e in AssetEntries(r, assets) <==>
      exists j :: 0 <= j < |assets| && IsFirmware(assets[j]) && e == EntryOf(r, assets[j])
    decreases |assets|
  {
    if |assets| > 0 {
      var init := assets[..|assets| - 1];
      AssetEntriesMembers(r, init, e);
      if exists j :: 0 <= j < |init| && IsFirmware(init[j]) && e == EntryOf(r, init[j]) {
        var j :| 0 <= j < |init| && IsFirmware(init[j]) && e == EntryOf(r, init[j]);
        assert assets[j] == init[j];
      }
      if exists j :: 0 <= j < |assets| && IsFirmware(assets[j]) && e == EntryOf(r, assets[j]) {
        var j :| 0 <= j < |assets| && IsFirmware(assets[j]) && e == EntryOf(r, assets[j]);
        if j < |assets| - 1 {
          assert init[j] == assets[j];
        }
      }
    }
  }

  /** Asset `j` of release `i` is a firmware asset of an eligible release and gives `e`. */
  predicate Gives(releases: seq<Release>, i: int, j: int, e: Entry) {
    && 0 <= i < |releases|
    && Eligible(releases[i])
    && 0 <= j < |releases[i].assets|
    && IsFirmware(releases[i].assets[j])
    && e == EntryOf(releases[i], releases[i].assets[j])
  }

  /** An entry is listed exactly when some eligible release has a firmware asset
      that gives it. */
  lemma FirmwareInfoMembers(releases: seq<Release>, e: Entry)
    ensures e in FirmwareInfo(releases) <==> exists i, j :: Gives(releases, i, j, e)
  {
    if e in FirmwareInfo(releases) {
      ListedGiven(releases, e);
    }
    if exists i, j :: Gives(releases, i, j, e) {
      var i, j :| Gives(releases, i, j, e);
      GivenListed(releases, e, i, j);
    }
  }

  /** Every listed entry comes from a firmware asset of an eligible release. */
  lemma {:induction false} ListedGiven(releases: seq<Release>, e: Entry)
    requires e in FirmwareInfo(releases)
    ensures exists i, j :: Gives(releases, i, j, e)
    decreases |releases|
  {
    var init := releases[..|releases| - 1];
    var last := releases[|releases| - 1];
    if e in FirmwareInfo(init) {
      ListedGiven(init, e);
      var i, j :| Gives(init, i, j, e);
      assert releases[i] == init[i];
      assert Gives(releases, i, j, e);
    } else {
      AssetEntriesMembers(last, last.assets, e);
      var j :| 0 <= j < |last.assets| && IsFirmware(last.assets[j]) && e == EntryOf(last, last.assets[j]);
      assert Gives(releases, |releases| - 1, j, e);
    }
  }

  /** Every firmware asset of an eligible release is listed. */
  lemma {:induction false} GivenListed(releases: seq<Release>, e: Entry, i: int, j: int)
    requires Gives(releases, i, j, e)
    ensures e in FirmwareInfo(releases)
    decreases |releases|
  {
    var init := releases[..|releases| - 1];
    var last := releases[|releases| - 1];
    if i < |releases| - 1 {
      assert init[i] == releases[i];
      assert Gives(init, i, j, e);
      GivenListed(init, e, i, j);
    } else {
      AssetEntriesMembers(last, last.assets, e);
    }
  }

  /** Every listed entry carries a v2 tag. */
  lemma ListedAreV2(releases: seq<Release>, e: Entry)
    requires e in FirmwareInfo(releases)
    ensures StartsWith(e.tagName, "v2")
  {
    FirmwareInfoMembers(releases, e);
  }

  /** A run of releases none of which is eligible lists nothing. */
  lemma {:induction false} NoneEligible(releases: seq<Release>)
    requires forall i :: 0 <= i < |releases| ==> !Eligible(releases[i])
    ensures FirmwareInfo(releases) == []
    decreases |releases|
  {
    if |releases| > 0 {
      NoneEligible(releases[..|releases| - 1]);
    }
  }

  /** The release of the upstream example is eligible. */
  lemma ExampleEligible(r: Release)
    requires r.title == "Meshtastic Firmware v2.1.0" && r.tagName == "v2.1.0"
    ensures Eligible(r)
  {
    assert r.title[..19] == "Meshtastic Firmware";
    assert r.tagName[..2] == "v2";
    assert 'k' !in r.title;
    MissingCharAbsent(r.title, "Revoked", 'k');
  }

  /** A v2 firmware release with one firmware asset lists one entry. */
  lemma ListedExample(r: Release, url: string)
    requires r.title == "Meshtastic Firmware v2.1.0" && r.tagName == "v2.1.0"
    requires r.assets == [Asset("firmware-esp32.bin", url)]
    ensures FirmwareInfo([r]) == [Entry(r.createdAt, "v2.1.0", r.htmlUrl, url)]
  {
    ExampleEligible(r);
    assert r.assets[0].name[..8] == "firmware";
    assert r.assets[..0] == [];
    OneRelease(r);
  }

  /** The same release marked "Revoked" lists nothing. */
  lemma RevokedExample()
    ensures FirmwareInfo([Release("Meshtastic Firmware v2.1.0 - Revoked", "v2.1.0", "d", "page",
                                  [Asset("firmware-esp32.bin", "url")])]) == []
  {
    var title := "Meshtastic Firmware v2.1.0 - Revoked";
    assert title[29..36] == "Revoked";
    ContainsAt(title, "Revoked", 29);
    OneRelease(Release(title, "v2.1.0", "d", "page", [Asset("firmware-esp32.bin", "url")]));
  }
}
