/**
 * The redirect screen (app/redirect.tsx): given the url it was opened with, it reads the
 * preferred platform, resolves the url to that platform's link, records the redirect in
 * storage and opens the link; on any failure it shows an error and counts down to the
 * home screen.
 */
module Redirect {
  import opened Wrappers
  import opened Host
  import opened MusicPlatforms

  /** The screen's `status` state. */
  datatype Status = Loading | Redirecting | Error

  /** What `decodeURIComponent(url)` gives: the decoded url, or the message of the error it
      throws on a malformed escape. */
  datatype Decoding = Decoded(url: string) | Malformed(message: string)

  const NoUrlMessage: string := "No URL provided"
  const NoPreferenceMessage: string := "No preferred music platform set. Please go to Settings to set one."
  const LastRedirectedUrl: string := "lastRedirectedUrl"
  const LastProcessedOdesliUrl: string := "lastProcessedOdesliUrl"
  const HomeRoute: string := "/(tabs)"
  const CountdownStart: int := 5

  /** The message shown when no link exists for the platform named `name`. */
  function NotFoundMessage(name: string): string {
    "Could not find a " + name + " link for this content"
  }

  /** The message shown for an error thrown with message `m`. */
  function ThrownMessage(m: string): (r: string)
    ensures |r| == |m| + 7
    ensures r[..7] == "Error: " && r[7..] == m
  {
    "Error: " + m
  }

  /** JavaScript truthiness of a `string | null`: present and non-empty. */
  predicate Truthy(s: Option<string>) {
    s.Some? && s.value != ""
  }

  /** A request the screen has not processed yet: a url is given, it decodes, and the decoded
      url differs from the one already processed. */
  predicate IsNew(url: Option<string>, decoded: Decoding, processed: Option<string>) {
    Truthy(url) && decoded.Decoded? && processed != Some(decoded.url)
  }

  // ---------------------------------------------------------------------------------------
  // The countdown

  /** One firing of the countdown interval, from the previous counter: never negative, one
      less for a positive counter. */
  function NextCount(prev: int): (next: int)
    ensures next >= 0
    ensures prev >= 1 ==> next == prev - 1
    ensures prev <= 0 ==> next == 0
  {
    if prev <= 1 then 0 else prev - 1
  }

  /** The firing that sees counter `prev` clears the interval and navigates home. */
  predicate FiresHome(prev: int) {
    prev <= 1
  }

  /** The counter after k firings of the interval, starting from n. */
  function Ticks(n: int, k: nat): int
    decreases k
  {
    if k == 0 then n else Ticks(NextCount(n), k - 1)
  }

  /** Before the counter reaches zero, each firing takes exactly one off. */
  lemma {:induction false} CountsDown(n: int, k: nat)
    requires k <= n
    ensures Ticks(n, k) == n - k
  {
    if k > 0 {
      CountsDown(n - 1, k - 1);
    }
  }

  /** The counter never goes negative once a firing has happened (nor before, from a
      non-negative start). */
  lemma {:induction false} NeverNegative(n: int, k: nat)
    requires n >= 0 || k >= 1
    ensures Ticks(n, k) >= 0
    decreases k
  {
    if k > 0 {
      NeverNegative(NextCount(n), k - 1);
    }
  }

  /** From a counter n >= 1, the n-th firing is the first one that navigates home; from the
      initial 5 that is the fifth. */
  lemma HomeAfterExactly(n: int)
    requires n >= 1
    ensures forall k :: 0 <= k < n - 1 ==> !FiresHome(Ticks(n, k))
    ensures FiresHome(Ticks(n, n - 1)) && NextCount(Ticks(n, n - 1)) == 0
  {
    forall k | 0 <= k < n - 1
      ensures !FiresHome(Ticks(n, k))
    {
      CountsDown(n, k);
    }
    CountsDown(n, n - 1);
  }

  // ---------------------------------------------------------------------------------------
  // The redirect flow, as a function of the screen's state and the outside world

  /** The screen's state that `handleRedirect` reads and writes (the countdown aside). */
  datatype View = View(status: Status, platformName: Option<string>, errorMessage: Option<string>,
                       processedUrl: Option<string>, countdownRunning: bool, homeScheduled: bool)

  /** What `handleRedirect` leaves: the new screen state and the new outside world. */
  datatype Step = Step(view: View, world: World)

  /** `setStatus('error'); setErrorMessage(message); redirectToHome()`. */
  function Failed(v: View, message: string): View {
    v.(status := Error, errorMessage := Some(message), countdownRunning := true)
  }

  /**
   * `handleRedirect` from screen state v in world w: `decoded` is what `decodeURIComponent(url)`
   * gives, `response` what the resolution service answers, and `openFailure` the message
   * `Linking.openURL` rejects with, if it does.
   */
  function Redirected(v: View, w: World, url: Option<string>, decoded: Decoding,
                      response: ApiResponse, openFailure: Option<string>): Step
  {
    if !Truthy(url) then Step(Failed(v, NoUrlMessage), w)
    else if decoded.Malformed? then Step(Failed(v, ThrownMessage(decoded.message)), w)
    else if v.processedUrl == Some(decoded.url) then Step(v, w)
    else Processed(v.(processedUrl := Some(decoded.url)), w, decoded.url, response, openFailure)
  }

  /** The flow for a new decoded url d, once it is marked processed: read the preference, then
      resolve for it. */
  function Processed(v: View, w: World, d: string, response: ApiResponse, openFailure: Option<string>): Step {
    var pref := PreferenceRead(w.storage, FaultAt(w.faults, 0));
    var w1 := AfterStorageCall(w, Read(PreferenceKey));
    if !Truthy(pref) then Step(Failed(v, NoPreferenceMessage), w1)
    else
      var name := DisplayName(pref.value);
      Resolved(v.(platformName := Some(name), status := Redirecting), w1, d, pref.value, name, response, openFailure)
  }

  /** The flow once the platform's name is shown: remove the last redirect target, ask the
      resolver for the platform `key`, shown as `name`, and open the link if there is one. */
  function Resolved(v: View, w: World, d: string, key: string, name: string, response: ApiResponse,
                    openFailure: Option<string>): Step
  {
    var removal := FaultAt(w.faults, 0);
    var w1 := AfterStorageCall(w, Delete(LastRedirectedUrl));
    if removal.Throws? then Step(Failed(v, ThrownMessage(removal.message)), w1)
    else
      var link := LinkFor(response, key);
      var w2 := AfterCall(w1, Request(d));
      if !Truthy(link) then Step(Failed(v, NotFoundMessage(name)), w2)
      else Recorded(v, w2, d, link.value, openFailure)
  }

  /** The flow once a link dest is found for d: record both, then open dest. */
  function Recorded(v: View, w: World, d: string, dest: string, openFailure: Option<string>): Step {
    var first := FaultAt(w.faults, 0);
    var w1 := AfterStorageCall(w, Write(LastRedirectedUrl, dest));
    if first.Throws? then Step(Failed(v, ThrownMessage(first.message)), w1)
    else
      var second := FaultAt(w1.faults, 0);
      var w2 := AfterStorageCall(w1, Write(LastProcessedOdesliUrl, d));
      if second.Throws? then Step(Failed(v, ThrownMessage(second.message)), w2)
      else
        var w3 := AfterCall(w2, OpenLink(dest));
        if openFailure.Some? then Step(Failed(v, ThrownMessage(openFailure.value)), w3)
        else Step(v.(homeScheduled := true), w3)
  }

  /** The preference `handleRedirect` reads in world w. */
  function PreferenceIn(w: World): Option<string> {
    PreferenceRead(w.storage, FaultAt(w.faults, 0))
  }

  /** No url (null or empty): the error "No URL provided", and no storage or resolver call. */
  lemma MissingUrl(v: View, w: World, url: Option<string>, decoded: Decoding,
                   response: ApiResponse, openFailure: Option<string>)
    requires !Truthy(url)
    ensures var s := Redirected(v, w, url, decoded, response, openFailure);
            s.view.status == Error && s.view.errorMessage == Some(NoUrlMessage) && s.view.countdownRunning
            && s.view.processedUrl == v.processedUrl && s.world == w
  {
  }

  /** A url whose decoding throws: the error "Error: " with the thrown message, and no storage or
      resolver call; the url is not marked processed. */
  lemma MalformedReported(v: View, w: World, url: Option<string>, message: string,
                          response: ApiResponse, openFailure: Option<string>)
    requires Truthy(url)
    ensures var s := Redirected(v, w, url, Malformed(message), response, openFailure);
            s.view.status == Error && s.view.errorMessage == Some(ThrownMessage(message)) && s.view.countdownRunning
            && s.view.processedUrl == v.processedUrl && s.world == w
  {
  }

  /** The url decoded to one already processed: nothing changes and nothing is called. */
  lemma AlreadyProcessed(v: View, w: World, url: Option<string>, decoded: Decoding,
                         response: ApiResponse, openFailure: Option<string>)
    requires Truthy(url) && decoded.Decoded? && v.processedUrl == Some(decoded.url)
    ensures Redirected(v, w, url, decoded, response, openFailure) == Step(v, w)
  {
  }

  /** Recording and opening only appends to the log and keeps what the screen shows of the platform and url. */
  lemma RecordedKeeps(v: View, w: World, d: string, dest: string, openFailure: Option<string>)
    ensures var s := Recorded(v, w, d, dest, openFailure);
            w.log <= s.world.log && s.view.processedUrl == v.processedUrl && s.view.platformName == v.platformName
  {
  }

  /** Resolving removes the last redirect target first, then only appends to the log, keeping
      what the screen shows of the platform and url. */
  lemma ResolvedKeeps(v: View, w: World, d: string, key: string, name: string, response: ApiResponse,
                      openFailure: Option<string>)
    ensures var s := Resolved(v, w, d, key, name, response, openFailure);
            w.log + [Delete(LastRedirectedUrl)] <= s.world.log
            && s.view.processedUrl == v.processedUrl && s.view.platformName == v.platformName
  {
    var w2 := AfterCall(AfterStorageCall(w, Delete(LastRedirectedUrl)), Request(d));
    var link := LinkFor(response, key);
    if !FaultAt(w.faults, 0).Throws? && Truthy(link) {
      RecordedKeeps(v, w2, d, link.value, openFailure);
    }
  }

  /** A new url is marked processed, and the first call to the outside is the preference read. */
  lemma MarkedBeforeAnyCall(v: View, w: World, url: Option<string>, decoded: Decoding,
                            response: ApiResponse, openFailure: Option<string>)
    requires IsNew(url, decoded, v.processedUrl)
    ensures var s := Redirected(v, w, url, decoded, response, openFailure);
            s.view.processedUrl == Some(decoded.url) && w.log + [Read(PreferenceKey)] <= s.world.log
  {
    var v1 := v.(processedUrl := Some(decoded.url));
    var w1 := AfterStorageCall(w, Read(PreferenceKey));
    var pref := PreferenceIn(w);
    if Truthy(pref) {
      var name := DisplayName(pref.value);
      ResolvedKeeps(v1.(platformName := Some(name), status := Redirecting), w1, decoded.url, pref.value, name,
                    response, openFailure);
    }
  }

  /** Without a preference: the no-preference error, the resolver is not asked, nothing is
      written and the status is never `Redirecting`. */
  lemma NoPreference(v: View, w: World, url: Option<string>, decoded: Decoding,
                     response: ApiResponse, openFailure: Option<string>)
    requires IsNew(url, decoded, v.processedUrl) && !Truthy(PreferenceIn(w))
    ensures var s := Redirected(v, w, url, decoded, response, openFailure);
            s.view.status == Error && s.view.errorMessage == Some(NoPreferenceMessage)
            && s.view.platformName == v.platformName && s.view.countdownRunning
            && s.world.log == w.log + [Read(PreferenceKey)] && s.world.storage == w.storage
  {
  }

  /** With a preference, its display name is shown: the table's name for a known key, the key
      itself otherwise; and the last redirect target is removed before the resolver is asked. */
  lemma PreferenceShown(v: View, w: World, url: Option<string>, decoded: Decoding,
                        response: ApiResponse, openFailure: Option<string>)
    requires IsNew(url, decoded, v.processedUrl) && Truthy(PreferenceIn(w))
    ensures var s := Redirected(v, w, url, decoded, response, openFailure);
            var key := PreferenceIn(w).value;
            s.view.platformName == Some(DisplayName(key))
            && (forall i :: 0 <= i < |Platforms| && Platforms[i].key == key ==> s.view.platformName == Some(Platforms[i].name))
            && ((forall i :: 0 <= i < |Platforms| ==> Platforms[i].key != key) ==> s.view.platformName == Some(key))
            && w.log + [Read(PreferenceKey), Delete(LastRedirectedUrl)] <= s.world.log
  {
    var key := PreferenceIn(w).value;
    var name := DisplayName(key);
    var w1 := AfterStorageCall(w, Read(PreferenceKey));
    ResolvedKeeps(v.(processedUrl := Some(decoded.url), platformName := Some(name), status := Redirecting),
                  w1, decoded.url, key, name, response, openFailure);
    assert w1.log + [Delete(LastRedirectedUrl)] == w.log + [Read(PreferenceKey), Delete(LastRedirectedUrl)];
    DisplayNameOf(key);
  }

  /** No link for the platform: an error naming the platform, the last redirect target stays
      removed, and nothing is written or opened. */
  lemma NoLink(v: View, w: World, url: Option<string>, decoded: Decoding,
               response: ApiResponse, openFailure: Option<string>)
    requires IsNew(url, decoded, v.processedUrl) && Truthy(PreferenceIn(w))
    requires !FaultAt(w.faults, 1).Throws? && !Truthy(LinkFor(response, PreferenceIn(w).value))
    ensures var s := Redirected(v, w, url, decoded, response, openFailure);
            s.view.status == Error && s.view.countdownRunning
            && s.view.errorMessage == Some(NotFoundMessage(DisplayName(PreferenceIn(w).value)))
            && (FaultAt(w.faults, 1).Succeeds? ==> LastRedirectedUrl !in s.world.storage)
            && s.world.log == w.log + [Read(PreferenceKey), Delete(LastRedirectedUrl), Request(decoded.url)]
  {
  }

  /** With both writes succeeding, the recording stage writes the link and the url, in that order, then
      opens the link: home is scheduled, or the rejection is reported. */
  lemma RecordedWrites(v: View, w: World, d: string, dest: string, openFailure: Option<string>)
    requires FaultAt(w.faults, 0).Succeeds? && FaultAt(w.faults, 1).Succeeds?
    ensures var s := Recorded(v, w, d, dest, openFailure);
            s.world.log == w.log + [Write(LastRedirectedUrl, dest), Write(LastProcessedOdesliUrl, d), OpenLink(dest)]
            && s.world.storage == w.storage[LastRedirectedUrl := dest][LastProcessedOdesliUrl := d]
            && (openFailure.None? ==> s.view == v.(homeScheduled := true))
            && (openFailure.Some? ==> s.view == Failed(v, ThrownMessage(openFailure.value)))
  {
  }

  /** With the removal and both writes succeeding and a link found, the resolving stage removes,
      requests, writes both keys and opens the link. */
  lemma ResolvedLinks(v: View, w: World, d: string, key: string, name: string, response: ApiResponse,
                      openFailure: Option<string>)
    requires forall k :: 0 <= k <= 2 ==> FaultAt(w.faults, k).Succeeds?
    requires Truthy(LinkFor(response, key))
    ensures var s := Resolved(v, w, d, key, name, response, openFailure);
            var dest := LinkFor(response, key).value;
            s.world.log == w.log + [Delete(LastRedirectedUrl), Request(d), Write(LastRedirectedUrl, dest),
                                    Write(LastProcessedOdesliUrl, d), OpenLink(dest)]
            && s.world.storage == w.storage[LastRedirectedUrl := dest][LastProcessedOdesliUrl := d]
            && (openFailure.None? ==> s.view == v.(homeScheduled := true))
            && (openFailure.Some? ==> s.view == Failed(v, ThrownMessage(openFailure.value)))
  {
    var dest := LinkFor(response, key).value;
    var w2 := AfterCall(AfterStorageCall(w, Delete(LastRedirectedUrl)), Request(d));
    assert FaultAt(w.faults, 0).Succeeds? && FaultAt(w.faults, 1).Succeeds? && FaultAt(w.faults, 2).Succeeds?;
    DropDrop(w.faults, 1, 1);
    assert FaultAt(w2.faults, 0) == FaultAt(w.faults, 1) && FaultAt(w2.faults, 1) == FaultAt(w.faults, 2);
    assert w2.storage[LastRedirectedUrl := dest] == w.storage[LastRedirectedUrl := dest];
    RecordedWrites(v, w2, d, dest, openFailure);
  }

  /** A link: the last redirect target and the processed url are written, in that order, before
      the link is opened; with storage that keeps them they hold those values. */
  lemma LinkOpened(v: View, w: World, url: Option<string>, decoded: Decoding,
                   response: ApiResponse, openFailure: Option<string>)
    requires IsNew(url, decoded, v.processedUrl) && Truthy(PreferenceIn(w))
    requires forall k :: 1 <= k <= 3 ==> FaultAt(w.faults, k).Succeeds?
    requires Truthy(LinkFor(response, PreferenceIn(w).value))
    ensures var s := Redirected(v, w, url, decoded, response, openFailure);
            var dest := LinkFor(response, PreferenceIn(w).value).value;
            s.world.log == w.log + [Read(PreferenceKey), Delete(LastRedirectedUrl), Request(decoded.url),
                                    Write(LastRedirectedUrl, dest), Write(LastProcessedOdesliUrl, decoded.url),
                                    OpenLink(dest)]
            && s.world.storage == w.storage[LastRedirectedUrl := dest][LastProcessedOdesliUrl := decoded.url]
            && (openFailure.None? ==> s.view.status == Redirecting && s.view.homeScheduled
                                      && s.view.errorMessage == v.errorMessage)
            && (openFailure.Some? ==> s.view.status == Error
                                      && s.view.errorMessage == Some(ThrownMessage(openFailure.value)))
  {
    var key := PreferenceIn(w).value;
    var w1 := AfterStorageCall(w, Read(PreferenceKey));
    assert forall k :: 0 <= k <= 2 ==> FaultAt(w1.faults, k) == FaultAt(w.faults, k + 1);
    var v1 := v.(processedUrl := Some(decoded.url), platformName := Some(DisplayName(key)), status := Redirecting);
    ResolvedLinks(v1, w1, decoded.url, key, DisplayName(key), response, openFailure);
    assert Redirected(v, w, url, decoded, response, openFailure)
        == Resolved(v1, w1, decoded.url, key, DisplayName(key), response, openFailure);
  }

  /** The two storage keys the redirect flow may change. */
  const RedirectKeys: set<string> := {LastRedirectedUrl, LastProcessedOdesliUrl}

  /** A write or removal of a key in K leaves every key outside K as it was. */
  lemma AppliedOutside(storage: map<string, string>, fault: Fault, call: Call, keys: set<string>)
    requires (call.Write? || call.Delete?) && call.key in keys
    ensures Applied(storage, fault, call) - keys == storage - keys
  {
    var after := Applied(storage, fault, call);
    forall k | k in storage - keys
      ensures k in after - keys && (after - keys)[k] == (storage - keys)[k]
    {
    }
    assert (after - keys).Keys == (storage - keys).Keys;
  }

  /** `handleRedirect` only ever changes the two redirect keys of storage. */
  lemma OnlyRedirectKeysChange(v: View, w: World, url: Option<string>, decoded: Decoding,
                               response: ApiResponse, openFailure: Option<string>)
    ensures Redirected(v, w, url, decoded, response, openFailure).world.storage - RedirectKeys
            == w.storage - RedirectKeys
  {
    if IsNew(url, decoded, v.processedUrl) && Truthy(PreferenceIn(w)) {
      var w1 := AfterStorageCall(w, Read(PreferenceKey));
      var w2 := AfterStorageCall(w1, Delete(LastRedirectedUrl));
      AppliedOutside(w1.storage, FaultAt(w1.faults, 0), Delete(LastRedirectedUrl), RedirectKeys);
      var link := LinkFor(response, PreferenceIn(w).value);
      if Truthy(link) {
        var w3 := AfterStorageCall(w2, Write(LastRedirectedUrl, link.value));
        AppliedOutside(w2.storage, FaultAt(w2.faults, 0), Write(LastRedirectedUrl, link.value), RedirectKeys);
        AppliedOutside(w3.storage, FaultAt(w3.faults, 0), Write(LastProcessedOdesliUrl, decoded.url), RedirectKeys);
      }
    }
  }

  /** A storage call that throws after the preference read (the removal, or one of the two
      writes) stops the flow at once, in the error state with "Error: " and its message. */
  lemma StorageFailureReported(v: View, w: World, url: Option<string>, decoded: Decoding,
                               response: ApiResponse, openFailure: Option<string>, k: nat)
    requires IsNew(url, decoded, v.processedUrl) && Truthy(PreferenceIn(w))
    requires 1 <= k <= 3 && FaultAt(w.faults, k).Throws?
    requires forall j :: 1 <= j < k ==> !FaultAt(w.faults, j).Throws?
    requires k >= 2 ==> Truthy(LinkFor(response, PreferenceIn(w).value))
    ensures var s := Redirected(v, w, url, decoded, response, openFailure);
            s.view.status == Error && s.view.countdownRunning
            && s.view.errorMessage == Some(ThrownMessage(FaultAt(w.faults, k).message))
            && |s.world.log| == |w.log| + (if k == 1 then 2 else k + 2)
  {
    DropDrop(w.faults, 1, 1);
    DropDrop(w.faults, 2, 1);
    assert FaultAt(Drop(Drop(w.faults, 1), 1), 0) == FaultAt(w.faults, 2);
    assert FaultAt(Drop(Drop(Drop(w.faults, 1), 1), 1), 0) == FaultAt(w.faults, 3);
  }

  // ---------------------------------------------------------------------------------------
  // When the countdown home starts

  /** The effect's dependencies `status` and `processedUrl` changed, so the effect runs again. */
  predicate Rerun(before: View, after: View) {
    before.status != after.status || before.processedUrl != after.processedUrl
  }

  /**
   * One run of the effect as the source is written: `redirectToHome` tests the `status` that
   * the run's closure captured when it began, not the one just set, so an error starts the
   * countdown only in a run that began in the error state.
   */
  function RunAsWritten(v: View, w: World, url: Option<string>, decoded: Decoding,
                        response: ApiResponse, openFailure: Option<string>): Step
  {
    var s := Redirected(v, w, url, decoded, response, openFailure);
    Step(s.view.(countdownRunning := v.countdownRunning || (v.status == Error && s.view.countdownRunning)), s.world)
  }

  /** As written, a missing or malformed url shows the error without a countdown; the run that
      the status change triggers fails the same way and then starts the countdown. */
  lemma EarlyErrorCountsDownOnRerun(v: View, w: World, url: Option<string>, decoded: Decoding,
                                    response: ApiResponse, openFailure: Option<string>)
    requires v.status == Loading && !v.countdownRunning && (!Truthy(url) || decoded.Malformed?)
    ensures var s1 := RunAsWritten(v, w, url, decoded, response, openFailure);
            var s2 := RunAsWritten(s1.view, s1.world, url, decoded, response, openFailure);
            s1.view.status == Error && !s1.view.countdownRunning && Rerun(v, s1.view)
            && s2.view.status == Error && s2.view.countdownRunning && s2.world == w
  {
  }

  /** As written, an error raised after a new url is marked processed (no preference, no link,
      or a thrown storage call or open) never starts the countdown: the run shows the error
      without it, and the run that the change triggers returns early and changes nothing. */
  lemma {:induction false} LateErrorNeverCountsDown(v: View, w: World, url: Option<string>, decoded: Decoding,
                                                    response: ApiResponse, openFailure: Option<string>)
    requires v.status == Loading && !v.countdownRunning && IsNew(url, decoded, v.processedUrl)
    requires Redirected(v, w, url, decoded, response, openFailure).view.status == Error
    ensures var s1 := RunAsWritten(v, w, url, decoded, response, openFailure);
            s1.view.status == Error && !s1.view.countdownRunning && Rerun(v, s1.view)
            && RunAsWritten(s1.view, s1.world, url, decoded, response, openFailure) == s1
  {
    MarkedBeforeAnyCall(v, w, url, decoded, response, openFailure);
    var s1 := RunAsWritten(v, w, url, decoded, response, openFailure);
    AlreadyProcessed(s1.view, s1.world, url, decoded, response, openFailure);
  }

  /** From the redirecting state, the resolving stage ends either still redirecting or in an
      error state with the countdown running. */
  lemma ResolvedErrorsCountDown(v: View, w: World, d: string, key: string, name: string, response: ApiResponse,
                                openFailure: Option<string>)
    requires v.status == Redirecting
    ensures var s := Resolved(v, w, d, key, name, response, openFailure);
            s.view.status == Redirecting || (s.view.status == Error && s.view.countdownRunning)
  {
  }

  /** The intended behaviour, which `Redirected` models: every error state that a run enters
      has the countdown home running. */
  lemma EveryErrorCountsDown(v: View, w: World, url: Option<string>, decoded: Decoding,
                             response: ApiResponse, openFailure: Option<string>)
    ensures var s := Redirected(v, w, url, decoded, response, openFailure);
            s.view.status == Error ==> s.view.countdownRunning || s == Step(v, w)
  {
    if IsNew(url, decoded, v.processedUrl) && Truthy(PreferenceIn(w)) {
      var key := PreferenceIn(w).value;
      var name := DisplayName(key);
      ResolvedErrorsCountDown(v.(processedUrl := Some(decoded.url), platformName := Some(name), status := Redirecting),
                              AfterStorageCall(w, Read(PreferenceKey)), decoded.url, key, name, response, openFailure);
    }
  }

  // ---------------------------------------------------------------------------------------
  // The screen

  class RedirectScreen {
    var status: Status
    var platformName: Option<string>
    var errorMessage: Option<string>
    var countdown: int
    var processedUrl: Option<string>
    /** The error countdown interval is running. Entering the error state starts it: an
        explicit assumption about React re-running the effect once `status` is 'error'. */
    var countdownRunning: bool
    /** The delayed navigation home after a successful open is pending. */
    var homeScheduled: bool

    constructor ()
      ensures status == Loading && platformName == None && errorMessage == None
      ensures countdown == CountdownStart && processedUrl == None
      ensures !countdownRunning && !homeScheduled
    {
      status := Loading;
      platformName := None;
      errorMessage := None;
      countdown := CountdownStart;
      processedUrl := None;
      countdownRunning := false;
      homeScheduled := false;
    }

    /** The screen's state as a value. */
    function Current(): View
      reads this
    {
      View(status, platformName, errorMessage, processedUrl, countdownRunning, homeScheduled)
    }

    /** Enter the error state with `message` and start the countdown home. */
    method ShowError(message: string)
      modifies this`status, this`errorMessage, this`countdownRunning
      ensures Current() == Failed(old(Current()), message)
    {
      status := Error;
      errorMessage := Some(message);
      countdownRunning := true;
    }

    /**
     * `handleRedirect`. `decoded` is what `decodeURIComponent(url)` gives, `response` what the
     * resolution service answers, and `openFailure` the message `Linking.openURL` rejects
     * with, if it does; storage behaves as `dev.faults` says.
     */
    method HandleRedirect(url: Option<string>, decoded: Decoding, dev: Device,
                          response: ApiResponse, openFailure: Option<string>)
      modifies this, dev
      ensures var s := Redirected(old(Current()), old(dev.State()), url, decoded, response, openFailure);
              Current() == s.view && dev.State() == s.world
      ensures countdown == old(countdown)
    {
      if !Truthy(url) {
        ShowError(NoUrlMessage);
        return;
      }
      if decoded.Malformed? {
        ShowError(ThrownMessage(decoded.message));
        return;
      }
      var decodedUrl := decoded.url;
      if processedUrl == Some(decodedUrl) {
        return;
      }
      processedUrl := Some(decodedUrl);
      Process(decodedUrl, dev, response, openFailure);
    }

    /** From reading the preference on, for a decoded url just marked processed. */
    method Process(decodedUrl: string, dev: Device, response: ApiResponse, openFailure: Option<string>)
      modifies this, dev
      ensures var s := Processed(old(Current()), old(dev.State()), decodedUrl, response, openFailure);
              Current() == s.view && dev.State() == s.world
      ensures countdown == old(countdown)
    {
      ghost var v, w := Current(), dev.State();
      var platformKey := GetPreferredPlatform(dev);
      ghost var w1 := dev.State();
      assert w1 == AfterStorageCall(w, Read(PreferenceKey));
      if !Truthy(platformKey) {
        ShowError(NoPreferenceMessage);
        return;
      }
      var name := DisplayName(platformKey.value);
      platformName := Some(name);
      status := Redirecting;
      ghost var v1 := Current();
      assert Processed(v, w, decodedUrl, response, openFailure)
          == Resolved(v1, w1, decodedUrl, platformKey.value, name, response, openFailure);
      Resolve(decodedUrl, platformKey.value, name, dev, response, openFailure);
    }

    /** From removing the last redirect target on. */
    method Resolve(decodedUrl: string, platformKey: string, name: string, dev: Device,
                   response: ApiResponse, openFailure: Option<string>)
      modifies this, dev
      ensures var s := Resolved(old(Current()), old(dev.State()), decodedUrl, platformKey, name, response, openFailure);
              Current() == s.view && dev.State() == s.world
      ensures countdown == old(countdown)
    {
      ghost var w := dev.State();
      var removed := dev.RemoveItem(LastRedirectedUrl);
      ghost var w1 := dev.State();
      assert w1 == AfterStorageCall(w, Delete(LastRedirectedUrl));
      if removed.Thrown? {
        ShowError(ThrownMessage(removed.message));
        return;
      }
      var platformUrl := GetPlatformSpecificUrl(dev, decodedUrl, platformKey, response);
      assert dev.State() == AfterCall(w1, Request(decodedUrl));
      if !Truthy(platformUrl) {
        ShowError(NotFoundMessage(name));
        return;
      }
      Open(decodedUrl, platformUrl.value, dev, openFailure);
    }

    /** From recording the redirect on: two writes, then the OS open. */
    method Open(decodedUrl: string, platformUrl: string, dev: Device, openFailure: Option<string>)
      modifies this, dev
      ensures var s := Recorded(old(Current()), old(dev.State()), decodedUrl, platformUrl, openFailure);
              Current() == s.view && dev.State() == s.world
      ensures countdown == old(countdown)
    {
      ghost var w := dev.State();
      var stored := dev.SetItem(LastRedirectedUrl, platformUrl);
      ghost var w1 := dev.State();
      assert w1 == AfterStorageCall(w, Write(LastRedirectedUrl, platformUrl));
      if stored.Thrown? {
        ShowError(ThrownMessage(stored.message));
        return;
      }
      stored := dev.SetItem(LastProcessedOdesliUrl, decodedUrl);
      assert dev.State() == AfterStorageCall(w1, Write(LastProcessedOdesliUrl, decodedUrl));
      if stored.Thrown? {
        ShowError(ThrownMessage(stored.message));
        return;
      }
      var launched := dev.OpenUrl(platformUrl, openFailure);
      if launched.Thrown? {
        ShowError(ThrownMessage(launched.message));
        return;
      }
      homeScheduled := true;
    }

    /** One firing of the countdown interval: count down, and on the last firing clear the
        interval and navigate home. */
    method Tick(dev: Device)
      requires countdownRunning
      modifies this`countdown, this`countdownRunning, dev`log
      ensures countdown == NextCount(old(countdown))
      ensures FiresHome(old(countdown)) ==> !countdownRunning && dev.log == old(dev.log) + [ReplaceRoute(HomeRoute)]
      ensures !FiresHome(old(countdown)) ==> countdownRunning && dev.log == old(dev.log)
    {
      if countdown <= 1 {
        countdownRunning := false;
        dev.Replace(HomeRoute);
        countdown := 0;
      } else {
        countdown := countdown - 1;
      }
    }

    /** The interval firing until it clears itself: from a counter n >= 1 that takes exactly
        n firings and ends at 0, having navigated home once. */
    method RunCountdown(dev: Device) returns (firings: nat)
      requires countdownRunning && countdown >= 1
      modifies this`countdown, this`countdownRunning, dev`log
      ensures firings == old(countdown)
      ensures countdown == 0 && !countdownRunning
      ensures dev.log == old(dev.log) + [ReplaceRoute(HomeRoute)]
    {
      firings := 0;
      while countdownRunning
        invariant countdownRunning ==> countdown == old(countdown) - firings >= 1 && dev.log == old(dev.log)
        invariant !countdownRunning ==>
                    firings == old(countdown) && countdown == 0 && dev.log == old(dev.log) + [ReplaceRoute(HomeRoute)]
        decreases countdown, countdownRunning
      {
        Tick(dev);
        firings := firings + 1;
      }
    }

    /** The delayed navigation home after a successful open. */
    method HomeDelayElapsed(dev: Device)
      requires homeScheduled
      modifies this`homeScheduled, dev`log
      ensures !homeScheduled && dev.log == old(dev.log) + [ReplaceRoute(HomeRoute)]
    {
      homeScheduled := false;
      dev.Replace(HomeRoute);
    }
  }
}
