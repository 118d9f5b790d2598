/**
 * The platform registry, the preference store over persistent storage, and the lookup of
 * one platform's link in a response of the link-resolution service (utils/musicPlatforms.ts).
 */
module MusicPlatforms {
  import opened Wrappers
  import opened Host

  /** One supported destination: a stable key and the name shown to the user. */
  datatype Platform = Platform(key: string, name: string)

  /** The fixed table of supported platforms, in display order. */
  const Platforms: seq<Platform> := [
    Platform("spotify", "Spotify"),
    Platform("apple_music", "Apple Music"),
    Platform("youtube_music", "YouTube Music"),
    Platform("deezer", "Deezer"),
    Platform("tidal", "Tidal"),
    Platform("amazon_music", "Amazon Music"),
    Platform("pandora", "Pandora"),
    Platform("soundcloud", "SoundCloud")
  ]

  /** The single storage key under which the preferred platform's key is kept. */
  const PreferenceKey: string := "preferredMusicPlatform"

  predicate KeysDistinct(table: seq<Platform>) {
    forall i, j :: 0 <= i < j < |table| ==> table[i].key != table[j].key
  }

  /** The table has eight entries, no key twice, and every entry a non-empty name. */
  lemma PlatformTable()
    ensures |Platforms| == 8
    ensures KeysDistinct(Platforms)
    ensures forall i :: 0 <= i < |Platforms| ==> Platforms[i].name != ""
  {
  }

  /** `Array.prototype.find` over the table by key: the first entry whose key matches, if any. */
  function Find(table: seq<Platform>, key: string): (r: Option<Platform>)
    ensures r.None? <==> forall i :: 0 <= i < |table| ==> table[i].key != key
    ensures r.Some? ==> exists i :: 0 <= i < |table| && table[i] == r.value && table[i].key == key
                                    && forall j :: 0 <= j < i ==> table[j].key != key
  {
    if table == [] then None
    else if table[0].key == key then Some(table[0])
    else
      var r := Find(table[1..], key);
      if r.Some? then
        var i :| 0 <= i < |table[1..]| && table[1..][i] == r.value && table[1..][i].key == key
                 && forall j :: 0 <= j < i ==> table[1..][j].key != key;
        assert table[i + 1] == r.value && forall j :: 0 <= j < i + 1 ==> table[j].key != key;
        r
      else
        assert forall i :: 1 <= i < |table| ==> table[i].key == table[1..][i - 1].key;
        r
  }

  /** The name shown for a platform key: `platform?.name || platformKey`. */
  function DisplayName(key: string): string {
    var p := Find(Platforms, key);
    if p.Some? && p.value.name != "" then p.value.name else key
  }

  /** The shown name is the table's name for a known key, and the key itself for an unknown one. */
  lemma DisplayNameOf(key: string)
    ensures forall i :: 0 <= i < |Platforms| && Platforms[i].key == key ==> DisplayName(key) == Platforms[i].name
    ensures (forall i :: 0 <= i < |Platforms| ==> Platforms[i].key != key) ==> DisplayName(key) == key
  {
    PlatformTable();
  }

  /** What `getPreferredPlatform` returns when the storage read meets `fault`: the stored
      value, or null when the key is absent or the read throws. */
  function PreferenceRead(storage: map<string, string>, fault: Fault): (r: Option<string>)
    ensures fault.Throws? ==> r == None
    ensures !fault.Throws? ==> r == Lookup(storage, PreferenceKey)
  {
    if fault.Throws? then None else Lookup(storage, PreferenceKey)
  }

  /** `getPreferredPlatform`: one read of the preference key; a failing read gives null. */
  method GetPreferredPlatform(dev: Device) returns (p: Option<string>)
    modifies dev`faults, dev`log
    ensures p == PreferenceRead(old(dev.storage), old(dev.Upcoming()))
    ensures dev.faults == Drop(old(dev.faults), 1)
    ensures dev.log == old(dev.log) + [Read(PreferenceKey)]
  {
    var r := dev.GetItem(PreferenceKey);
    p := if r.Thrown? then None else r.value;
  }

  /** The calls `setPreferredPlatform(platform)` makes when it runs to the end with a retry:
      write, read back, write again, read back again. Every run issues a non-empty prefix of it. */
  function WriteVerifyRetry(platform: string): seq<Call> {
    [Write(PreferenceKey, platform), Read(PreferenceKey), Write(PreferenceKey, platform), Read(PreferenceKey)]
  }

  /** The number of storage writes among some calls. */
  function Writes(calls: seq<Call>): nat {
    if calls == [] then 0 else (if calls[0].Write? then 1 else 0) + Writes(calls[1..])
  }

  /** Counting writes distributes over concatenation. */
  lemma {:induction false} WritesAppend(a: seq<Call>, b: seq<Call>)
    ensures Writes(a + b) == Writes(a) + Writes(b)
  {
    if a != [] {
      assert (a + b)[1..] == a[1..] + b;
      WritesAppend(a[1..], b);
    } else {
      assert a + b == b;
    }
  }

  /** Every run of `setPreferredPlatform` writes at most twice, and exactly once when it stops
      at or before the first read-back. */
  lemma WritesOfPrefix(platform: string, n: nat)
    requires 1 <= n <= 4
    ensures Writes(WriteVerifyRetry(platform)[..n]) == if n <= 2 then 1 else 2
  {
    var s := WriteVerifyRetry(platform);
    var k := 1;
    assert s[..1] == [s[0]];
    while k < n
      invariant 1 <= k <= n
      invariant Writes(s[..k]) == if k <= 2 then 1 else 2
    {
      assert s[..k + 1] == s[..k] + [s[k]];
      WritesAppend(s[..k], [s[k]]);
      k := k + 1;
    }
  }

  /** The run of `setPreferredPlatform` issued the first n calls of `WriteVerifyRetry`, consumed
      n faults of the script, and threw exactly when one of those n calls threw (the last one). */
  ghost predicate RanPrefix(platform: string, logBefore: seq<Call>, logAfter: seq<Call>,
                            faultsBefore: seq<Fault>, faultsAfter: seq<Fault>, r: Outcome<()>, n: nat)
  {
    1 <= n <= 4
    && logAfter == logBefore + WriteVerifyRetry(platform)[..n]
    && faultsAfter == Drop(faultsBefore, n)
    && (r.Ok? <==> forall k :: 0 <= k < n ==> !FaultAt(faultsBefore, k).Throws?)
    && (r.Thrown? ==> FaultAt(faultsBefore, n - 1) == Throws(r.message))
  }

  /** Whatever the storage does, one run of `setPreferredPlatform` writes once or twice, and
      exactly once when it stops at or before the first read-back. */
  lemma RanPrefixWrites(platform: string, logBefore: seq<Call>, logAfter: seq<Call>,
                        faultsBefore: seq<Fault>, faultsAfter: seq<Fault>, r: Outcome<()>, n: nat)
    requires RanPrefix(platform, logBefore, logAfter, faultsBefore, faultsAfter, r, n)
    ensures 1 <= Writes(logAfter[|logBefore|..]) <= 2
    ensures n <= 2 <==> Writes(logAfter[|logBefore|..]) == 1
  {
    assert logAfter[|logBefore|..] == WriteVerifyRetry(platform)[..n];
    WritesOfPrefix(platform, n);
  }

  /** Dropping a and then b faults drops a + b. */
  lemma DropDrop(faults: seq<Fault>, a: nat, b: nat)
    ensures Drop(Drop(faults, a), b) == Drop(faults, a + b)
  {
  }

  /** The outcome of `setPreferredPlatform` and the world it leaves. */
  datatype Saving = Saving(result: Outcome<()>, world: World)

  /**
   * `setPreferredPlatform(platform)` in world w: write the preference, read it back, and if the
   * read-back differs write it once more and read it back once more, whatever that second read
   * shows. A storage call that throws ends the run, and its error is re-thrown.
   */
  function SavedIn(w: World, platform: string): Saving {
    var first := FaultAt(w.faults, 0);
    var w1 := AfterStorageCall(w, Write(PreferenceKey, platform));
    if first.Throws? then Saving(Thrown(first.message), w1)
    else
      var check := FaultAt(w1.faults, 0);
      var w2 := AfterStorageCall(w1, Read(PreferenceKey));
      if check.Throws? then Saving(Thrown(check.message), w2)
      else if Lookup(w1.storage, PreferenceKey) == Some(platform) then Saving(Ok(()), w2)
      else
        var retry := FaultAt(w2.faults, 0);
        var w3 := AfterStorageCall(w2, Write(PreferenceKey, platform));
        if retry.Throws? then Saving(Thrown(retry.message), w3)
        else
          var recheck := FaultAt(w3.faults, 0);
          var w4 := AfterStorageCall(w3, Read(PreferenceKey));
          if recheck.Throws? then Saving(Thrown(recheck.message), w4) else Saving(Ok(()), w4)
  }

  /** The faults met by the calls of a run, read off the script of the world it started in. */
  lemma SavedFaults(w: World, platform: string)
    ensures var w1 := AfterStorageCall(w, Write(PreferenceKey, platform));
            var w2 := AfterStorageCall(w1, Read(PreferenceKey));
            var w3 := AfterStorageCall(w2, Write(PreferenceKey, platform));
            FaultAt(w1.faults, 0) == FaultAt(w.faults, 1) && FaultAt(w2.faults, 0) == FaultAt(w.faults, 2)
            && FaultAt(w3.faults, 0) == FaultAt(w.faults, 3)
            && w2.faults == Drop(w.faults, 2) && w3.faults == Drop(w.faults, 3)
            && AfterStorageCall(w3, Read(PreferenceKey)).faults == Drop(w.faults, 4)
  {
    DropDrop(w.faults, 1, 1);
    DropDrop(w.faults, 2, 1);
    DropDrop(w.faults, 3, 1);
  }

  /** Only the preference key ever changes, and it ends as before or as the platform. */
  lemma SavedKeepsOtherKeys(w: World, platform: string)
    ensures var s := SavedIn(w, platform);
            s.world.storage - {PreferenceKey} == w.storage - {PreferenceKey}
            && (s.world.storage == w.storage || s.world.storage == w.storage[PreferenceKey := platform])
  {
    var s := SavedIn(w, platform);
    if s.world.storage != w.storage {
      assert s.world.storage == w.storage[PreferenceKey := platform];
    }
  }

  /** Every run issues a non-empty prefix of write, read, write, read, and throws exactly when
      its last call throws. */
  lemma SavedRunsPrefix(w: World, platform: string)
    ensures var s := SavedIn(w, platform);
            exists n :: RanPrefix(platform, w.log, s.world.log, w.faults, s.world.faults, s.result, n)
  {
    var s := SavedIn(w, platform);
    SavedFaults(w, platform);
    var c := WriteVerifyRetry(platform);
    var n: nat;
    if FaultAt(w.faults, 0).Throws? {
      n := 1;
    } else if FaultAt(w.faults, 1).Throws? || Lookup(Applied(w.storage, FaultAt(w.faults, 0), c[0]), PreferenceKey) == Some(platform) {
      n := 2;
    } else if FaultAt(w.faults, 2).Throws? {
      n := 3;
    } else {
      n := 4;
    }
    assert s.world.log == w.log + c[..n];
    assert s.world.faults == Drop(w.faults, n);
    assert s.result.Ok? <==> forall k :: 0 <= k < n ==> !FaultAt(w.faults, k).Throws?;
    assert RanPrefix(platform, w.log, s.world.log, w.faults, s.world.faults, s.result, n);
  }

  /** Storage that keeps the first write: one write, one read, the preference set. */
  lemma SavedWhenKept(w: World, platform: string)
    requires FaultAt(w.faults, 0).Succeeds? && !FaultAt(w.faults, 1).Throws?
    ensures var s := SavedIn(w, platform);
            s.result == Ok(()) && s.world.storage == w.storage[PreferenceKey := platform]
            && s.world.log == w.log + WriteVerifyRetry(platform)[..2]
  {
    SavedFaults(w, platform);
  }

  /** A first write that throws is re-thrown at once, and nothing changes. */
  lemma SavedFirstWriteThrows(w: World, platform: string)
    requires FaultAt(w.faults, 0).Throws?
    ensures var s := SavedIn(w, platform);
            s.result == Thrown(FaultAt(w.faults, 0).message) && s.world.storage == w.storage
            && s.world.log == w.log + WriteVerifyRetry(platform)[..1]
  {
  }

  /** A first read-back that throws is re-thrown at once, with no retry. */
  lemma SavedReadBackThrows(w: World, platform: string)
    requires !FaultAt(w.faults, 0).Throws? && FaultAt(w.faults, 1).Throws?
    ensures var s := SavedIn(w, platform);
            s.result == Thrown(FaultAt(w.faults, 1).message)
            && s.world.log == w.log + WriteVerifyRetry(platform)[..2]
  {
    SavedFaults(w, platform);
  }

  /** A dropped first write over a value already equal to the platform: the read-back matches,
      so there is no retry and the run succeeds. */
  lemma SavedOverEqualValue(w: World, platform: string)
    requires FaultAt(w.faults, 0).Loses? && !FaultAt(w.faults, 1).Throws?
    requires Lookup(w.storage, PreferenceKey) == Some(platform)
    ensures var s := SavedIn(w, platform);
            s.result == Ok(()) && s.world.storage == w.storage
            && s.world.log == w.log + WriteVerifyRetry(platform)[..2]
  {
    SavedFaults(w, platform);
  }

  /** A dropped first write whose read-back differs: exactly one more write of the same value,
      and one more read unless that write throws; the run succeeds exactly when neither throws. */
  lemma SavedRetried(w: World, platform: string)
    requires FaultAt(w.faults, 0).Loses? && !FaultAt(w.faults, 1).Throws?
    requires Lookup(w.storage, PreferenceKey) != Some(platform)
    ensures var s := SavedIn(w, platform);
            s.world.log == w.log + WriteVerifyRetry(platform)[..if FaultAt(w.faults, 2).Throws? then 3 else 4]
            && (FaultAt(w.faults, 2).Succeeds? ==> Lookup(s.world.storage, PreferenceKey) == Some(platform))
            && (s.result.Ok? <==> !FaultAt(w.faults, 2).Throws? && !FaultAt(w.faults, 3).Throws?)
            && (FaultAt(w.faults, 2).Throws? ==> s.result == Thrown(FaultAt(w.faults, 2).message))
            && (!FaultAt(w.faults, 2).Throws? && FaultAt(w.faults, 3).Throws? ==>
                  s.result == Thrown(FaultAt(w.faults, 3).message))
  {
    SavedFaults(w, platform);
  }

  /** Saving a preference and then reading it: when no storage call throws and the storage
      keeps the first write or the retried one, the run succeeds and the next read returns the
      saved platform, even though the first write may have been silently dropped. */
  lemma SavedThenRead(w: World, platform: string)
    requires forall k :: 0 <= k <= 4 ==> !FaultAt(w.faults, k).Throws?
    requires FaultAt(w.faults, 0).Succeeds? || FaultAt(w.faults, 2).Succeeds?
    ensures var s := SavedIn(w, platform);
            s.result.Ok? && PreferenceRead(s.world.storage, FaultAt(s.world.faults, 0)) == Some(platform)
  {
    SavedFaults(w, platform);
    assert !FaultAt(w.faults, 1).Throws? && !FaultAt(w.faults, 3).Throws? && !FaultAt(w.faults, 4).Throws?;
    if FaultAt(w.faults, 0).Succeeds? {
      assert FaultAt(Drop(w.faults, 2), 0) == FaultAt(w.faults, 2);
    } else {
      assert FaultAt(Drop(w.faults, 4), 0) == FaultAt(w.faults, 4);
    }
  }

  /** `setPreferredPlatform(platform)`: any storage failure is re-thrown to the caller. */
  method SetPreferredPlatform(dev: Device, platform: string) returns (r: Outcome<()>)
    modifies dev
    ensures var s := SavedIn(old(dev.State()), platform);
            r == s.result && dev.State() == s.world
  {
    ghost var w := dev.State();
    var stored := dev.SetItem(PreferenceKey, platform);
    ghost var w1 := dev.State();
    assert w1 == AfterStorageCall(w, Write(PreferenceKey, platform));
    if stored.Thrown? {
      return Thrown(stored.message);
    }
    var saved := dev.GetItem(PreferenceKey);
    ghost var w2 := dev.State();
    assert w2 == AfterStorageCall(w1, Read(PreferenceKey));
    if saved.Thrown? {
      return Thrown(saved.message);
    }
    if saved.value != Some(platform) {
      stored := dev.SetItem(PreferenceKey, platform);
      ghost var w3 := dev.State();
      assert w3 == AfterStorageCall(w2, Write(PreferenceKey, platform));
      if stored.Thrown? {
        return Thrown(stored.message);
      }
      var second := dev.GetItem(PreferenceKey);
      assert dev.State() == AfterStorageCall(w3, Read(PreferenceKey));
      if second.Thrown? {
        return Thrown(second.message);
      }
    }
    r := Ok(());
  }

  /** Saving a preference and reading it back, as the settings screen does. */
  method SaveAndReadBack(dev: Device, platform: string) returns (saved: Outcome<()>, readBack: Option<string>)
    requires forall k :: 0 <= k <= 4 ==> !FaultAt(dev.faults, k).Throws?
    requires FaultAt(dev.faults, 0).Succeeds? || FaultAt(dev.faults, 2).Succeeds?
    modifies dev
    ensures saved.Ok?
    ensures readBack == Some(platform)
  {
    SavedThenRead(dev.State(), platform);
    saved := SetPreferredPlatform(dev, platform);
    readBack := GetPreferredPlatform(dev);
  }

  /** A decoded response of the link-resolution service: the request or its JSON body failed,
      or the body's `linksByPlatform` table, from platform key to that platform's url. */
  datatype ApiResponse = FetchFailed | Fetched(linksByPlatform: map<string, string>)

  /** The lookup part of `getPlatformSpecificUrl`: the url under exactly the platform's key;
      null when that key is absent or the request failed. */
  function LinkFor(response: ApiResponse, platform: string): (r: Option<string>)
    ensures response.FetchFailed? ==> r == None
    ensures r.Some? <==> response.Fetched? && platform in response.linksByPlatform
    ensures r.Some? ==> r.value == response.linksByPlatform[platform]
  {
    if response.Fetched? && platform in response.linksByPlatform then
      Some(response.linksByPlatform[platform])
    else
      None
  }

  /** No key other than the platform's own is consulted: two responses that agree on it give
      the same result. */
  lemma LinkForReadsOnlyItsKey(a: ApiResponse, b: ApiResponse, platform: string)
    requires a.Fetched? && b.Fetched?
    requires Lookup(a.linksByPlatform, platform) == Lookup(b.linksByPlatform, platform)
    ensures LinkFor(a, platform) == LinkFor(b, platform)
  {
  }

  /** `getPlatformSpecificUrl(odesliUrl, platform)`: one request, then the lookup; a failed
      request or body gives null, never an error. */
  method GetPlatformSpecificUrl(dev: Device, odesliUrl: string, platform: string, response: ApiResponse)
    returns (r: Option<string>)
    modifies dev`log
    ensures dev.log == old(dev.log) + [Request(odesliUrl)]
    ensures r == LinkFor(response, platform)
  {
    dev.Fetch(odesliUrl);
    r := LinkFor(response, platform);
  }
}
