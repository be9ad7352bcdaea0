/** What the page does before it draws anything (app_kor.py): find a fallback
    image, pick each channel's image, and assemble the per-channel results
    with the CCTV2 override.

    The file system is a snapshot `existing`, the set of paths for which
    `os.path.exists` holds; an opened image is represented by its path. */
module Dashboard {
  import opened Wrappers
  import opened Config
  import opened Hex
  import opened Risk

  /** A loaded channel image: the file it was read from and that file's base name. */
  datatype LoadedImage = LoadedImage(path: string, name: string)

  /** Where the last segment of a '/'-separated path starts: one past its
      last '/', or 0 when it has none (`p.rfind('/') + 1`). */
  function SegmentStart(path: string): (k: nat)
    ensures k <= |path|
  {
    if path == [] || path[|path| - 1] == '/' then |path| else SegmentStart(path[..|path| - 1])
  }

  /** `os.path.basename` on '/'-separated paths: what follows the last '/'.
      The base name is a suffix of the path without a '/', and the character
      before it, if there is one, is a '/'. */
  function Basename(path: string): (name: string)
    ensures |name| <= |path| && name == path[|path| - |name|..]
    ensures forall i :: 0 <= i < |name| ==> name[i] != '/'
    ensures |name| < |path| ==> path[|path| - |name| - 1] == '/'
  {
    BasenameIsLastSegment(path);
    path[SegmentStart(path)..]
  }

  /** The base name holds no '/', and the character before it, if any, is a
      '/': the cut is at the last separator. */
  lemma {:induction false} BasenameIsLastSegment(path: string)
    ensures forall i :: SegmentStart(path) <= i < |path| ==> path[i] != '/'
    ensures SegmentStart(path) > 0 ==> path[SegmentStart(path) - 1] == '/'
  {
    if path != [] && path[|path| - 1] != '/' {
      var init := path[..|path| - 1];
      BasenameIsLastSegment(init);
      var k := SegmentStart(init);
      assert SegmentStart(path) == k;
      forall i | k <= i < |path| ensures path[i] != '/' {
        if i < |init| {
          assert path[i] == init[i];
        }
      }
      if k > 0 {
        assert path[k - 1] == init[k - 1];
      }
    }
  }

  /** The string a channel's result is classified from: `f"{name}-{id}"`. */
  function ChannelKey(imageName: string, channelId: string): (key: string)
    ensures |key| == |imageName| + 1 + |channelId|
    ensures key[..|imageName|] == imageName && key[|imageName|] == '-'
    ensures key[|imageName| + 1..] == channelId
  {
    imageName + "-" + channelId
  }

  /** Channel identifiers of one length never make two (name, channel)
      pairs share a key: the key splits back into its parts. */
  lemma ChannelKeyIsInjective(name1: string, id1: string, name2: string, id2: string)
    requires |id1| == |id2|
    requires ChannelKey(name1, id1) == ChannelKey(name2, id2)
    ensures name1 == name2 && id1 == id2
  {
    var key := ChannelKey(name1, id1);
    assert |name1| == |name2|;
    assert name1 == key[..|name1|] == name2;
    assert id1 == key[|name1| + 1..] == id2;
  }

  /** Index k holds the earliest existing path of the list. */
  predicate IsFirstExisting(paths: seq<string>, existing: set<string>, k: int) {
    && 0 <= k < |paths|
    && paths[k] in existing
    && forall j :: 0 <= j < k ==> paths[j] !in existing
  }

  /** The first path of the list that exists, if any. */
  function FirstExisting(paths: seq<string>, existing: set<string>): Option<string> {
    if paths == [] then None
    else if paths[0] in existing then Some(paths[0])
    else FirstExisting(paths[1..], existing)
  }

  /** FirstExisting finds the earliest existing path, and finds none exactly
      when no path exists. */
  lemma {:induction false} FirstExistingIsEarliest(paths: seq<string>, existing: set<string>)
    ensures FirstExisting(paths, existing).None? <==> forall i :: 0 <= i < |paths| ==> paths[i] !in existing
    ensures FirstExisting(paths, existing).Some? ==>
      exists k :: IsFirstExisting(paths, existing, k) && paths[k] == FirstExisting(paths, existing).value
  {
    if paths == [] {
    } else if paths[0] in existing {
      assert IsFirstExisting(paths, existing, 0);
    } else {
      var rest := paths[1..];
      FirstExistingIsEarliest(rest, existing);
      if FirstExisting(rest, existing).Some? {
        var k :| IsFirstExisting(rest, existing, k) && rest[k] == FirstExisting(rest, existing).value;
        assert IsFirstExisting(paths, existing, k + 1);
      } else {
        forall i | 0 <= i < |paths| ensures paths[i] !in existing {
          if i > 0 { assert paths[i] == rest[i - 1]; }
        }
      }
    }
  }

  /** `_first_existing_path`: scan the list and return the first path that exists. */
  method FirstExistingPath(paths: seq<string>, existing: set<string>) returns (found: Option<string>)
    ensures found == FirstExisting(paths, existing)
    ensures found.None? <==> forall i :: 0 <= i < |paths| ==> paths[i] !in existing
    ensures found.Some? ==> exists k :: IsFirstExisting(paths, existing, k) && paths[k] == found.value
  {
    for i := 0 to |paths|
      invariant forall j :: 0 <= j < i ==> paths[j] !in existing
      invariant FirstExisting(paths[i..], existing) == FirstExisting(paths, existing)
    {
      if paths[i] in existing {
        assert IsFirstExisting(paths, existing, i);
        return Some(paths[i]);
      }
      assert paths[i..][1..] == paths[i + 1..];
    }
    return None;
  }

  /** The channel identifiers of a channel table are pairwise different, as
      the keys of a dictionary are. */
  predicate UniqueIds(channels: seq<(string, string)>) {
    forall i, j :: 0 <= i < j < |channels| ==> channels[i].0 != channels[j].0
  }

  function IdSet(channels: seq<(string, string)>): set<string> {
    set j | 0 <= j < |channels| :: channels[j].0
  }

  /** `_load_cctv_images`: with no existing fallback candidate there is no
      page; otherwise each channel shows its own image if that file exists,
      else the first existing candidate, and every chosen file exists. */
  method LoadCctvImages(candidates: seq<string>, channels: seq<(string, string)>, existing: set<string>)
    returns (loaded: Option<map<string, LoadedImage>>)
    requires UniqueIds(channels)
    ensures loaded.None? <==> forall i :: 0 <= i < |candidates| ==> candidates[i] !in existing
    ensures loaded.Some? ==> FirstExisting(candidates, existing).Some? && loaded.value.Keys == IdSet(channels)
    ensures loaded.Some? ==> forall j :: 0 <= j < |channels| ==>
      var image := loaded.value[channels[j].0];
      && image.path == (if channels[j].1 in existing then channels[j].1 else FirstExisting(candidates, existing).value)
      && image.name == Basename(image.path)
      && image.path in existing
  {
    var fallback := FirstExistingPath(candidates, existing);
    if fallback.None? {
      return None;
    }
    var fallbackPath := fallback.value;
    var m: map<string, LoadedImage> := map[];
    for i := 0 to |channels|
      invariant forall id :: id in m ==> exists j :: 0 <= j < i && channels[j].0 == id
      invariant forall j :: 0 <= j < i ==> channels[j].0 in m
      invariant forall j :: 0 <= j < i ==>
        var image := m[channels[j].0];
        && image.path == (if channels[j].1 in existing then channels[j].1 else fallbackPath)
        && image.name == Basename(image.path)
        && image.path in existing
    {
      var (channelId, imagePath) := channels[i];
      var selectedPath := if imagePath in existing then imagePath else fallbackPath;
      m := m[channelId := LoadedImage(selectedPath, Basename(selectedPath))];
    }
    return Some(m);
  }

  /** The per-channel results (app_kor.py:406-417): every channel is
      classified from its image name and its identifier, except CCTV2,
      whose entry is the override literal whatever the classifier would
      give; the key set is exactly the channel list. */
  method AssembleResults(ids: seq<string>, images: map<string, LoadedImage>, sha256: string -> HexDigest)
    returns (results: map<string, MockResult>)
    requires forall id :: id in ids ==> id in images
    ensures results.Keys == set id | id in ids
    ensures OverriddenChannel in ids ==> results[OverriddenChannel] == OverrideResult()
    ensures forall id :: id in ids && id != OverriddenChannel ==>
      results[id] == BuildMockResult(ChannelKey(images[id].name, id), sha256)
  {
    results := map[];
    for i := 0 to |ids|
      invariant results.Keys == set id | id in ids[..i]
      invariant forall id :: id in results && id != OverriddenChannel ==>
        results[id] == BuildMockResult(ChannelKey(images[id].name, id), sha256)
      invariant OverriddenChannel in results ==> results[OverriddenChannel] == OverrideResult()
    {
      var channelId := ids[i];
      if channelId == OverriddenChannel {
        results := results[channelId := OverrideResult()];
      } else {
        results := results[channelId := BuildMockResult(ChannelKey(images[channelId].name, channelId), sha256)];
      }
      assert ids[..i + 1] == ids[..i] + [channelId];
    }
    assert ids[..|ids|] == ids;
  }

  /** Whatever the channels, every assembled entry, the override included,
      is a result the classifier could have produced: the level matches the
      score's band and the description is that level's table entry. */
  lemma AssembledResultsAreConsistent(
    ids: seq<string>, images: map<string, LoadedImage>, sha256: string -> HexDigest,
    results: map<string, MockResult>)
    requires forall id :: id in ids ==> id in images
    requires results.Keys == set id | id in ids
    requires OverriddenChannel in ids ==> results[OverriddenChannel] == OverrideResult()
    requires forall id :: id in ids && id != OverriddenChannel ==>
      results[id] == BuildMockResult(ChannelKey(images[id].name, id), sha256)
    ensures forall id :: id in results ==> Consistent(results[id])
  {
  }

  /** `list(DEFAULT_CCTV_IMAGE_PATHS.keys())`: one id per table entry, in table
      order, holding exactly the table's ids, without repetition when the
      table's ids are distinct. */
  function ChannelIds(channels: seq<(string, string)>): (ids: seq<string>)
    ensures |ids| == |channels| && forall j :: 0 <= j < |channels| ==> ids[j] == channels[j].0
    ensures (set id | id in ids) == IdSet(channels)
    ensures UniqueIds(channels) ==> forall i, j :: 0 <= i < j < |ids| ==> ids[i] != ids[j]
  {
    var ids := seq(|channels|, j requires 0 <= j < |channels| => channels[j].0);
    assert forall id :: id in ids ==> id in IdSet(channels);
    assert forall j :: 0 <= j < |channels| ==> channels[j].0 in ids by {
      forall j | 0 <= j < |channels| ensures channels[j].0 in ids {
        assert ids[j] == channels[j].0;
      }
    }
    ids
  }

  /** The configured channel table: four distinct channels, CCTV1 to CCTV4. */
  lemma ConfiguredChannels()
    ensures UniqueIds(DefaultCctvImagePaths)
    ensures IdSet(DefaultCctvImagePaths) == {"CCTV1", "CCTV2", "CCTV3", "CCTV4"}
    ensures ChannelIds(DefaultCctvImagePaths) == ["CCTV1", "CCTV2", "CCTV3", "CCTV4"]
    ensures (set id | id in ChannelIds(DefaultCctvImagePaths)) == {"CCTV1", "CCTV2", "CCTV3", "CCTV4"}
    ensures DefaultCctvImagePaths[0] == ("CCTV1", "assets/case1.png")
  {
    var channels := DefaultCctvImagePaths;
    assert channels[0].0 == "CCTV1" && channels[1].0 == "CCTV2";
    assert channels[2].0 == "CCTV3" && channels[3].0 == "CCTV4";
  }

  /** No configured fallback candidate exists exactly when none of the three files does. */
  lemma NoConfiguredCandidate(existing: set<string>)
    ensures (forall i :: 0 <= i < |DefaultImageCandidates| ==> DefaultImageCandidates[i] !in existing) <==>
      "assets/case1.png" !in existing && "assets/logo/289.jpg" !in existing
      && "assets/logo/batch_test_sample.png" !in existing
  {
    var c := DefaultImageCandidates;
    assert c[0] == "assets/case1.png" && c[1] == "assets/logo/289.jpg";
    assert c[2] == "assets/logo/batch_test_sample.png";
  }

  /** The base name of "<dir>/<name>" is the name, whatever the directory. */
  lemma BasenameOfJoin(dir: string, name: string)
    requires forall i :: 0 <= i < |name| ==> name[i] != '/'
    ensures Basename(dir + "/" + name) == name
  {
    var path := dir + "/" + name;
    BasenameIsLastSegment(path);
    var k := SegmentStart(path);
    assert path[|dir|] == '/';
    assert k > |dir|;
    assert k == |dir| + 1;
    assert path[k..] == name;
  }

  /** The key CCTV1 is classified from when its own file is shown. */
  lemma Case1Key()
    ensures ChannelKey(Basename("assets/case1.png"), "CCTV1") == "case1.png-CCTV1"
  {
    assert "assets/case1.png" == "assets" + "/" + "case1.png";
    BasenameOfJoin("assets", "case1.png");
  }

  /** The data of one render pass (app_kor.py:401-417) with the configured
      tables: `None` when none of the three fallback candidates exists, where
      the page, after its header, shows an error message and stops without
      drawing any channel; otherwise the four channels, CCTV2 showing the override and every other
      channel the classification of "<shown file's base name>-<channel>". */
  method RenderPass(existing: set<string>, sha256: string -> HexDigest)
    returns (page: Option<(map<string, LoadedImage>, map<string, MockResult>)>)
    ensures page.None? <==>
      "assets/case1.png" !in existing && "assets/logo/289.jpg" !in existing
      && "assets/logo/batch_test_sample.png" !in existing
    ensures page.Some? ==>
      var (images, results) := page.value;
      && images.Keys == results.Keys == {"CCTV1", "CCTV2", "CCTV3", "CCTV4"}
      && results["CCTV2"] == OverrideResult()
      && (forall id :: id in results && id != "CCTV2" ==>
            results[id] == BuildMockResult(ChannelKey(images[id].name, id), sha256))
      && (forall id :: id in images ==> images[id].path in existing && images[id].name == Basename(images[id].path))
      && FirstExisting(DefaultImageCandidates, existing).Some? && images.Keys == IdSet(DefaultCctvImagePaths)
      && (forall j :: 0 <= j < |DefaultCctvImagePaths| ==>
            var (id, ownPath) := DefaultCctvImagePaths[j];
            images[id].path == (if ownPath in existing then ownPath
                                else FirstExisting(DefaultImageCandidates, existing).value))
    ensures page.Some? && "assets/case1.png" in existing ==>
      page.value.1["CCTV1"] == BuildMockResult("case1.png-CCTV1", sha256)
  {
    ConfiguredChannels();
    NoConfiguredCandidate(existing);
    var loaded := LoadCctvImages(DefaultImageCandidates, DefaultCctvImagePaths, existing);
    if loaded.None? {
      return None;
    }
    var images := loaded.value;
    var ids := ChannelIds(DefaultCctvImagePaths);
    var results := AssembleResults(ids, images, sha256);
    if "assets/case1.png" in existing {
      assert images["CCTV1"].path == "assets/case1.png";
      Case1Key();
    }
    return Some((images, results));
  }
}
