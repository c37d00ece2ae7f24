/** Where the displayed lyrics come from: the engine's two fields against everything it was ever fed. */
module DisplayHistory {
  import opened Collections
  import opened SyncTypes
  import opened Snapshot
  import opened DisplayEngine

  /** What the page feeds the engine. */
  datatype Input = Heard(event: Event) | Restored(snapshot: Snapshot) | Shifted(offsetMs: real)

  function Fed(e: Engine, x: Input): Engine {
    match x
    case Heard(event) => AfterEvent(e, event)
    case Restored(s) => AfterSnapshot(e, s)
    case Shifted(ms) => e.(offsetMs := ms)
  }

  /** A new engine after all of `inputs`, oldest first. */
  function EngineAfter(prevCount: int, nextCount: int, inputs: seq<Input>): Engine {
    if inputs == [] then Engine(prevCount, nextCount, None, None, 0.0)
    else Fed(EngineAfter(prevCount, nextCount, Init(inputs)), Last(inputs))
  }

  // ---------------------------------------------------------------- the inputs by themselves

  predicate Stops(x: Input) {
    x.Heard? && x.event.NowPlayingUpdated? && x.event.track.None?
  }

  /** The clock sample that comes with the input. */
  function SampleIn(x: Input): Option<ClockSample> {
    if x.Heard? && x.event.ClockSampled? then Some(x.event.sample)
    else if x.Restored? then x.snapshot.playbackClock
    else None
  }

  /** The lyrics that come with the input: loaded for a track, or those of the snapshot's track. */
  function Offer(x: Input): Option<Lookup> {
    if x.Heard? && x.event.LyricsLoaded? then Some(Lookup(x.event.trackUri, x.event.lyrics))
    else if x.Restored? && x.snapshot.nowPlaying.Some?
      then Some(Lookup(x.snapshot.nowPlaying.value.track.uri, x.snapshot.lyrics))
    else None
  }

  /** The latest sample since playback last stopped. */
  function ClockAfter(inputs: seq<Input>): Option<ClockSample> {
    if inputs == [] || Stops(Last(inputs)) then None
    else if SampleIn(Last(inputs)).Some? then SampleIn(Last(inputs))
    else ClockAfter(Init(inputs))
  }

  predicate OnTrack(clock: Option<ClockSample>, uri: string) {
    clock.Some? && clock.value.trackUri == uri
  }

  /** A snapshot's lyrics are taken as they are; loaded ones only without a clock or for its track. */
  predicate Accepted(inputs: seq<Input>, k: nat)
    requires k < |inputs|
  {
    var clock, x := ClockAfter(inputs[..k]), inputs[k];
    Offer(x).Some? && (x.Restored? || clock.None? || OnTrack(clock, Offer(x).value.uri))
  }

  /** Lyrics of `uri` do not survive a stop, nor a sample of yet another track than both the clock's and
      theirs, unless the clock's track has the empty URI. */
  predicate Drops(inputs: seq<Input>, k: nat, uri: string)
    requires k < |inputs|
  {
    var clock, x := ClockAfter(inputs[..k]), inputs[k];
    || Stops(x)
    || (x.Heard? && x.event.ClockSampled? && x.event.sample.trackUri != uri
        && clock.Some? && clock.value.trackUri != "" && clock.value.trackUri != x.event.sample.trackUri)
  }

  /** The input at `k` brought `lookup`, was accepted, and nothing has replaced or dropped it since. */
  ghost predicate Gave(inputs: seq<Input>, k: nat, lookup: Lookup) {
    && k < |inputs| && Accepted(inputs, k) && Offer(inputs[k]) == Some(lookup)
    && forall j :: k < j < |inputs| ==> !Accepted(inputs, j) && !Drops(inputs, j, lookup.uri)
  }

  // ---------------------------------------------------------------- what the engine holds

  lemma {:induction false} HoldsClock(p: int, n: int, inputs: seq<Input>)
    ensures EngineAfter(p, n, inputs).sample == ClockAfter(inputs)
    ensures EngineAfter(p, n, inputs).prevCount == p && EngineAfter(p, n, inputs).nextCount == n
  {
    if inputs != [] {
      HoldsClock(p, n, Init(inputs));
    }
  }

  lemma PrefixesOfInit(inputs: seq<Input>, k: nat)
    requires k < |inputs| - 1
    ensures Init(inputs)[..k] == inputs[..k] && Init(inputs)[k] == inputs[k]
  {
  }

  lemma GaveBefore(inputs: seq<Input>, k: nat, lookup: Lookup)
    requires inputs != [] && k < |inputs| - 1
    ensures var last := |inputs| - 1;
      Gave(inputs, k, lookup) <==>
        Gave(Init(inputs), k, lookup) && !Accepted(inputs, last) && !Drops(inputs, last, lookup.uri)
  {
    var h := Init(inputs);
    forall j | 0 <= j < |h|
      ensures Accepted(h, j) == Accepted(inputs, j) && Drops(h, j, lookup.uri) == Drops(inputs, j, lookup.uri)
    {
      PrefixesOfInit(inputs, j);
    }
    PrefixesOfInit(inputs, k);
  }

  lemma FedExact(e: Engine, inputs: seq<Input>, lookup: Lookup)
    requires inputs != [] && e.sample == ClockAfter(Init(inputs))
    ensures var last := |inputs| - 1;
      Fed(e, Last(inputs)).lyrics == Some(lookup) <==>
        || (Accepted(inputs, last) && Offer(inputs[last]) == Some(lookup))
        || (e.lyrics == Some(lookup) && !Accepted(inputs, last) && !Drops(inputs, last, lookup.uri))
  {
    assert inputs[..|inputs| - 1] == Init(inputs);
  }

  /** For every sequence of events, snapshots and offsets: the engine holds certain lyrics if and only if
      an input brought them, was accepted, and has been neither replaced nor dropped since. */
  lemma {:induction false} HeldExact(p: int, n: int, inputs: seq<Input>, lookup: Lookup)
    ensures EngineAfter(p, n, inputs).lyrics == Some(lookup) <==> exists k: nat :: Gave(inputs, k, lookup)
  {
    if inputs != [] {
      var h, last := Init(inputs), |inputs| - 1;
      HeldExact(p, n, h, lookup);
      HoldsClock(p, n, h);
      FedExact(EngineAfter(p, n, h), inputs, lookup);
      forall k: nat | k < last ensures Gave(inputs, k, lookup) <==>
        Gave(h, k, lookup) && !Accepted(inputs, last) && !Drops(inputs, last, lookup.uri)
      {
        GaveBefore(inputs, k, lookup);
      }
      if exists k: nat :: Gave(h, k, lookup) {
        var k: nat :| Gave(h, k, lookup);
        assert k < last;
      }
      assert Gave(inputs, last, lookup) <==> Accepted(inputs, last) && Offer(inputs[last]) == Some(lookup);
    }
  }

  // ---------------------------------------------------------------- what that means for the display

  /** Does a sample of `uri` tell the engine that the track has changed? */
  predicate SwitchesFrom(clock: Option<ClockSample>, uri: string) {
    clock.Some? && clock.value.trackUri != "" && clock.value.trackUri != uri
  }

  /** After a sample the engine holds lyrics of another track if and only if it held them before and the
      sample is no switch: after a switch it holds none, or the sampled track's. */
  lemma StaleLyricsExact(p: int, n: int, inputs: seq<Input>, sample: ClockSample)
    ensures var before := EngineAfter(p, n, inputs).lyrics;
      var after := EngineAfter(p, n, inputs + [Heard(ClockSampled(sample))]).lyrics;
      && (SwitchesFrom(ClockAfter(inputs), sample.trackUri) ==> after.None? || after.value.uri == sample.trackUri)
      && (after.Some? && after.value.uri != sample.trackUri <==>
            before.Some? && before.value.uri != sample.trackUri && !SwitchesFrom(ClockAfter(inputs), sample.trackUri))
  {
    var all := inputs + [Heard(ClockSampled(sample))];
    assert Init(all) == inputs && Last(all) == Heard(ClockSampled(sample));
    HoldsClock(p, n, inputs);
  }

  function OffsetAfter(inputs: seq<Input>): real {
    if inputs == [] then 0.0 else if Last(inputs).Shifted? then Last(inputs).offsetMs else OffsetAfter(Init(inputs))
  }

  lemma {:induction false} HoldsOffset(p: int, n: int, inputs: seq<Input>)
    ensures EngineAfter(p, n, inputs).offsetMs == OffsetAfter(inputs)
  {
    if inputs != [] {
      HoldsOffset(p, n, Init(inputs));
    }
  }

  /** Some input gave the lyrics of the sampled track. */
  ghost predicate LyricsReady(inputs: seq<Input>) {
    exists k: nat, lookup :: Gave(inputs, k, lookup) && OnTrack(ClockAfter(inputs), lookup.uri)
  }

  lemma HeldIsGiven(p: int, n: int, inputs: seq<Input>)
    ensures EngineAfter(p, n, inputs).lyrics.Some? ==>
      exists k: nat :: Gave(inputs, k, EngineAfter(p, n, inputs).lyrics.value)
  {
    var held := EngineAfter(p, n, inputs).lyrics;
    if held.Some? {
      HeldExact(p, n, inputs, held.value);
    }
  }

  /** At any instant the page has left the loading state if and only if an input gave the lyrics of the
      track last sampled. */
  lemma LoadingExact(p: int, n: int, inputs: seq<Input>, now: real)
    ensures StateAt(EngineAfter(p, n, inputs), now).mode.Loading? <==> !LyricsReady(inputs)
  {
    var e := EngineAfter(p, n, inputs);
    HoldsClock(p, n, inputs);
    HeldIsGiven(p, n, inputs);
    if LyricsReady(inputs) {
      var k: nat, lookup :| Gave(inputs, k, lookup) && OnTrack(ClockAfter(inputs), lookup.uri);
      HeldExact(p, n, inputs, lookup);
      assert e.lyrics == Some(lookup);
    }
  }

  /** ... and then shows those lyrics, by the last sample and the last offset. */
  lemma ShowsWhatWasGiven(p: int, n: int, inputs: seq<Input>, k: nat, lookup: Lookup, now: real)
    requires Gave(inputs, k, lookup)
    ensures StateAt(EngineAfter(p, n, inputs), now)
      == StateAt(Engine(p, n, ClockAfter(inputs), Some(lookup), OffsetAfter(inputs)), now)
  {
    HoldsClock(p, n, inputs);
    HoldsOffset(p, n, inputs);
    HeldExact(p, n, inputs, lookup);
  }

  /** The input at `k` is the last one with lyrics for the track. */
  ghost predicate LastOffer(inputs: seq<Input>, k: nat, uri: string) {
    && k < |inputs| && Offer(inputs[k]).Some? && Offer(inputs[k]).value.uri == uri
    && forall j :: k < j < |inputs| ==> Offer(inputs[j]).None? || Offer(inputs[j]).value.uri != uri
  }

  /** Once lyrics of the sampled track are on show, they are the last ones that came for it if and only
      if those were not turned away, that is, came with a snapshot or with the clock on the track or
      without a clock. */
  lemma LastOfferShownExact(inputs: seq<Input>, k: nat, uri: string)
    requires LyricsReady(inputs) && OnTrack(ClockAfter(inputs), uri) && LastOffer(inputs, k, uri)
    ensures Gave(inputs, k, Offer(inputs[k]).value) <==> Accepted(inputs, k)
  {
    var j: nat, lookup :| Gave(inputs, j, lookup) && OnTrack(ClockAfter(inputs), lookup.uri);
    assert lookup.uri == uri;
    assert j <= k;
    if Accepted(inputs, k) {
      assert j == k;
    }
  }

  lemma FedNext(p: int, n: int, inputs: seq<Input>, x: Input)
    ensures EngineAfter(p, n, inputs + [x]) == Fed(EngineAfter(p, n, inputs), x)
  {
    assert Init(inputs + [x]) == inputs;
  }

  /** Lyrics reloaded while another track is sampled are lost: back on the first track the page shows the
      document it had before. */
  lemma LateLoadIsLost(p: int, n: int, a: ClockSample, b: ClockSample, first: Option<LyricsDocument>,
                       second: Option<LyricsDocument>)
    requires a.trackUri != b.trackUri
    ensures var inputs := [Heard(LyricsLoaded(a.trackUri, first)), Heard(ClockSampled(b)),
                           Heard(LyricsLoaded(a.trackUri, second)), Heard(ClockSampled(a))];
      && LastOffer(inputs, 2, a.trackUri) && OnTrack(ClockAfter(inputs), a.trackUri)
      && EngineAfter(p, n, inputs).lyrics == Some(Lookup(a.trackUri, first))
  {
    var x0, x1, x2, x3 := Heard(LyricsLoaded(a.trackUri, first)), Heard(ClockSampled(b)),
                          Heard(LyricsLoaded(a.trackUri, second)), Heard(ClockSampled(a));
    var s1, s2, s3 := [x0], [x0] + [x1], [x0] + [x1] + [x2];
    assert [x0, x1, x2, x3] == s3 + [x3] && [] + [x0] == s1;
    FedNext(p, n, [], x0);
    FedNext(p, n, s1, x1);
    FedNext(p, n, s2, x2);
    FedNext(p, n, s3, x3);
    HoldsClock(p, n, s3 + [x3]);
  }
}
