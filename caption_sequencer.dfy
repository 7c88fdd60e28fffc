/**
 * The caption playback sequencer of the live-analysis tab (src/App.tsx).
 *
 * Three pieces of React state, `isPlaying`, `currentCaptionIdx` and
 * `visibleCaptions`, are driven by the interval callback (one `Tick` per
 * period, and only while playing), the play/pause button and "Show All".
 * The state changes are first given as functions on a `Snapshot` of the three
 * fields, so that runs of several operations can be reasoned about; the class
 * `Sequencer` at the end holds the three fields and updates them in place,
 * and each of its methods is proved to perform exactly the matching step.
 */
module CaptionSequencer {
  import opened ShangChiData
  import Dashboard

  /** Captions revealed before playback first starts: `captions.slice(0, 5)`. */
  const SeedCount: nat := 5

  datatype Snapshot = Snapshot(isPlaying: bool, currentCaptionIdx: nat, visibleCaptions: seq<Caption>)

  function Min(a: int, b: int): int { if a <= b then a else b }

  /** The state at mount: paused, at caption 0, with the seed captions shown. */
  function InitialState(captions: seq<Caption>): Snapshot {
    Snapshot(false, 0, captions[..Min(SeedCount, |captions|)])
  }

  /** The interval callback; no interval exists while paused, so a tick then changes nothing. */
  function TickStep(captions: seq<Caption>, s: Snapshot): Snapshot
    requires |captions| >= 1
  {
    if !s.isPlaying then s
    else
      var next := Min(s.currentCaptionIdx + 1, |captions| - 1);
      Snapshot(!(next >= |captions| - 1), next, captions[..next + 1])
  }

  /** The play/pause button: pausing keeps the position, playing restarts at caption 0. */
  function ToggleStep(captions: seq<Caption>, s: Snapshot): Snapshot
    requires |captions| >= 1
  {
    if s.isPlaying then s.(isPlaying := false)
    else Snapshot(true, 0, captions[..1])
  }

  /** "Show All": every caption visible, index at the last one, playback flag untouched. */
  function ShowAllStep(captions: seq<Caption>, s: Snapshot): Snapshot
    requires |captions| >= 1
  {
    s.(visibleCaptions := captions, currentCaptionIdx := |captions| - 1)
  }

  /** The visible list is exactly the captions up to and including the current one. */
  ghost predicate Synced(captions: seq<Caption>, s: Snapshot) {
    s.currentCaptionIdx < |captions| && s.visibleCaptions == captions[..s.currentCaptionIdx + 1]
  }

  /** Every reachable state: the untouched initial state, or a synced one. */
  ghost predicate WellFormed(captions: seq<Caption>, s: Snapshot) {
    |captions| >= 1 && (Synced(captions, s) || s == InitialState(captions))
  }

  lemma InitialStateWellFormed(captions: seq<Caption>)
    requires |captions| >= 1
    ensures WellFormed(captions, InitialState(captions))
    ensures InitialState(captions).currentCaptionIdx < |captions|
    ensures InitialState(captions).visibleCaptions <= captions
    ensures |InitialState(captions).visibleCaptions| == Min(SeedCount, |captions|)
  {
  }

  /** A well-formed state never indexes outside the captions, and shows a non-empty prefix of them. */
  lemma WellFormedBounds(captions: seq<Caption>, s: Snapshot)
    requires WellFormed(captions, s)
    ensures s.currentCaptionIdx <= |captions| - 1
    ensures s.visibleCaptions <= captions && 1 <= |s.visibleCaptions|
    ensures s.isPlaying ==> Synced(captions, s)
  {
  }

  lemma TickStepSpec(captions: seq<Caption>, s: Snapshot)
    requires WellFormed(captions, s)
    ensures var t := TickStep(captions, s);
      && WellFormed(captions, t)
      && (!s.isPlaying ==> t == s)
      && (s.isPlaying ==>
            && t.currentCaptionIdx == Min(s.currentCaptionIdx + 1, |captions| - 1)
            && Synced(captions, t)
            && (t.isPlaying <==> t.currentCaptionIdx < |captions| - 1))
  {
  }

  lemma ToggleStepSpec(captions: seq<Caption>, s: Snapshot)
    requires WellFormed(captions, s)
    ensures var t := ToggleStep(captions, s);
      && WellFormed(captions, t) && Synced(captions, t)
      && t.isPlaying == !s.isPlaying
      && (s.isPlaying ==> t.currentCaptionIdx == s.currentCaptionIdx && t.visibleCaptions == s.visibleCaptions)
      && (!s.isPlaying ==> t.currentCaptionIdx == 0 && t.visibleCaptions == [captions[0]])
  {
  }

  lemma ShowAllStepSpec(captions: seq<Caption>, s: Snapshot)
    requires WellFormed(captions, s)
    ensures var t := ShowAllStep(captions, s);
      && WellFormed(captions, t) && Synced(captions, t)
      && t.visibleCaptions == captions && t.currentCaptionIdx == |captions| - 1
      && t.isPlaying == s.isPlaying
  {
  }

  /** Show All during playback: the next tick stays on the last caption and stops playback. */
  lemma ShowAllThenTickStops(captions: seq<Caption>, s: Snapshot)
    requires WellFormed(captions, s) && s.isPlaying
    ensures TickStep(captions, ShowAllStep(captions, s)) == Snapshot(false, |captions| - 1, captions)
  {
  }

  /** Pausing and pressing play again does not resume: it restarts from caption 0. */
  lemma ResumeRestarts(captions: seq<Caption>, s: Snapshot)
    requires WellFormed(captions, s) && s.isPlaying
    ensures ToggleStep(captions, s).currentCaptionIdx == s.currentCaptionIdx
    ensures ToggleStep(captions, ToggleStep(captions, s)) == Snapshot(true, 0, [captions[0]])
  {
  }

  /** `k` consecutive ticks. */
  function RunTicks(captions: seq<Caption>, s: Snapshot, k: nat): Snapshot
    requires |captions| >= 1
  {
    if k == 0 then s else TickStep(captions, RunTicks(captions, s, k - 1))
  }

  /** The state right after play is pressed from a paused state. */
  function Started(captions: seq<Caption>): Snapshot
    requires |captions| >= 1
  {
    Snapshot(true, 0, captions[..1])
  }

  /** After `k < N` ticks from a fresh start, caption `k` is current and playback is on until `k = N-1`. */
  lemma {:induction false} PlaybackProgress(captions: seq<Caption>, k: nat)
    requires 2 <= |captions| && k <= |captions| - 1
    ensures RunTicks(captions, Started(captions), k)
         == Snapshot(k < |captions| - 1, k, captions[..k + 1])
  {
    if k > 0 {
      PlaybackProgress(captions, k - 1);
      var prev := RunTicks(captions, Started(captions), k - 1);
      assert prev.isPlaying && Min(prev.currentCaptionIdx + 1, |captions| - 1) == k;
    }
  }

  /** Ticks after playback has stopped change nothing. */
  lemma {:induction false} StoppedStaysPut(captions: seq<Caption>, s: Snapshot, k: nat)
    requires |captions| >= 1 && !s.isPlaying
    ensures RunTicks(captions, s, k) == s
  {
    if k > 0 {
      StoppedStaysPut(captions, s, k - 1);
    }
  }

  /** With N >= 2, exactly N-1 ticks take a fresh start to the last caption with playback switched off. */
  lemma PlaybackStopsAtEnd(captions: seq<Caption>)
    requires |captions| >= 2
    ensures RunTicks(captions, Started(captions), |captions| - 1) == Snapshot(false, |captions| - 1, captions)
    ensures forall k :: 0 <= k < |captions| - 1 ==> RunTicks(captions, Started(captions), k).isPlaying
  {
    PlaybackProgress(captions, |captions| - 1);
    assert captions[..|captions|] == captions;
    forall k | 0 <= k < |captions| - 1
      ensures RunTicks(captions, Started(captions), k).isPlaying
    {
      PlaybackProgress(captions, k);
    }
  }

  /** With a single caption the start state already sits on the last caption, and one tick stops it. */
  lemma SingleCaptionStopsAfterOneTick(captions: seq<Caption>)
    requires |captions| == 1
    ensures Started(captions).isPlaying && Started(captions).currentCaptionIdx == |captions| - 1
    ensures RunTicks(captions, Started(captions), 1) == Snapshot(false, 0, captions)
  {
    assert captions[..1] == captions;
  }

  /** The user-visible controls; the timer firing counts as `Tick`. */
  datatype Control = Tick | Toggle | ShowAll

  function Apply(captions: seq<Caption>, s: Snapshot, c: Control): Snapshot
    requires |captions| >= 1
  {
    match c
    case Tick => TickStep(captions, s)
    case Toggle => ToggleStep(captions, s)
    case ShowAll => ShowAllStep(captions, s)
  }

  /** The controls applied one after the other, first to last. */
  function Run(captions: seq<Caption>, s: Snapshot, cs: seq<Control>): Snapshot
    requires |captions| >= 1
    decreases |cs|
  {
    if |cs| == 0 then s else Run(captions, Apply(captions, s, cs[0]), cs[1..])
  }

  /** Any sequence of controls keeps the state well formed, so the index stays in [0, N-1]. */
  lemma {:induction false} RunWellFormed(captions: seq<Caption>, s: Snapshot, cs: seq<Control>)
    requires WellFormed(captions, s)
    ensures WellFormed(captions, Run(captions, s, cs))
    ensures Run(captions, s, cs).currentCaptionIdx < |captions|
    decreases |cs|
  {
    if |cs| > 0 {
      var t := Apply(captions, s, cs[0]);
      assert WellFormed(captions, t);
      RunWellFormed(captions, t, cs[1..]);
    }
  }

  /** A synced state stays synced under every control. */
  lemma {:induction false} RunKeepsSynced(captions: seq<Caption>, s: Snapshot, cs: seq<Control>)
    requires |captions| >= 1 && Synced(captions, s)
    ensures Synced(captions, Run(captions, s, cs))
    decreases |cs|
  {
    if |cs| > 0 {
      RunKeepsSynced(captions, Apply(captions, s, cs[0]), cs[1..]);
    }
  }

  /** Once play/pause or Show All has been used, the visible list is the prefix up to the current caption. */
  lemma {:induction false} ControlledRunIsSynced(captions: seq<Caption>, s: Snapshot, cs: seq<Control>, i: nat)
    requires WellFormed(captions, s)
    requires i < |cs| && cs[i] != Tick
    ensures Synced(captions, Run(captions, s, cs))
    ensures |Run(captions, s, cs).visibleCaptions| == Run(captions, s, cs).currentCaptionIdx + 1
    decreases |cs|
  {
    var t := Apply(captions, s, cs[0]);
    assert WellFormed(captions, t);
    if i == 0 {
      RunKeepsSynced(captions, t, cs[1..]);
    } else {
      ControlledRunIsSynced(captions, t, cs[1..], i - 1);
    }
  }

  /** Width of the progress bar as a fraction: `currentCaptionIdx / (captions.length - 1)`. */
  function ProgressRatio(idx: nat, n: nat): (r: real)
    requires n >= 2
    ensures r * (n - 1) as real == idx as real
    ensures idx <= n - 1 ==> 0.0 <= r <= 1.0
    ensures r == 0.0 <==> idx == 0
    ensures r == 1.0 <==> idx == n - 1
  {
    var d := (n - 1) as real;
    var r := idx as real / d;
    assert r * d == idx as real;
    assert idx <= n - 1 ==> r <= 1.0;
    assert r == 1.0 ==> idx == n - 1;
    r
  }

  /** The bar grows with the index. */
  lemma ProgressMonotone(i: nat, j: nat, n: nat)
    requires n >= 2 && i < j
    ensures ProgressRatio(i, n) < ProgressRatio(j, n)
  {
    var a, b := ProgressRatio(i, n), ProgressRatio(j, n);
    var d := (n - 1) as real;
    assert b - a == (j - i) as real / d;
  }

  /** `captions[idx]?.timestamp || '00:00'`: an empty timestamp falls back to "00:00". */
  function ElapsedLabel(c: Caption): (r: string)
    ensures r != []
    ensures c.timestamp != [] ==> r == c.timestamp
    ensures c.timestamp == [] ==> r == "00:00"
  {
    if c.timestamp == [] then "00:00" else c.timestamp
  }

  /** The three state fields, updated in place as React's setters do. */
  class Sequencer {
    const captions: seq<Caption>
    var isPlaying: bool
    var currentCaptionIdx: nat
    var visibleCaptions: seq<Caption>

    function State(): Snapshot
      reads this
    {
      Snapshot(isPlaying, currentCaptionIdx, visibleCaptions)
    }

    ghost predicate Valid()
      reads this
    {
      WellFormed(captions, State())
    }

    constructor (captions: seq<Caption>)
      requires |captions| >= 1
      ensures this.captions == captions && Valid()
      ensures State() == InitialState(captions)
      ensures !isPlaying && currentCaptionIdx == 0
      ensures visibleCaptions == captions[..Min(SeedCount, |captions|)]
    {
      this.captions := captions;
      isPlaying := false;
      currentCaptionIdx := 0;
      visibleCaptions := captions[..Min(SeedCount, |captions|)];
    }

    /** One firing of the 2000 ms interval (src/App.tsx: the updater passed to setCurrentCaptionIdx). */
    method Tick()
      requires Valid()
      modifies this
      ensures Valid() && State() == TickStep(captions, old(State()))
      ensures !old(isPlaying) ==> unchanged(this)
      ensures old(isPlaying) ==>
        && currentCaptionIdx == Min(old(currentCaptionIdx) + 1, |captions| - 1)
        && visibleCaptions == captions[..currentCaptionIdx + 1]
        && (isPlaying <==> currentCaptionIdx < |captions| - 1)
    {
      if isPlaying {
        var next := Min(currentCaptionIdx + 1, |captions| - 1);
        visibleCaptions := captions[..next + 1];
        if next >= |captions| - 1 {
          isPlaying := false;
        }
        currentCaptionIdx := next;
      }
    }

    /** The play/pause button. */
    method Toggle()
      requires Valid()
      modifies this
      ensures Valid() && State() == ToggleStep(captions, old(State()))
      ensures isPlaying == !old(isPlaying)
      ensures old(isPlaying) ==> currentCaptionIdx == old(currentCaptionIdx) && visibleCaptions == old(visibleCaptions)
      ensures !old(isPlaying) ==> currentCaptionIdx == 0 && visibleCaptions == [captions[0]]
    {
      var wasPlaying := isPlaying;
      isPlaying := !wasPlaying;
      if !wasPlaying {
        currentCaptionIdx := 0;
        visibleCaptions := captions[..1];
      }
    }

    /** The "Show All" button. */
    method ShowAll()
      requires Valid()
      modifies this
      ensures Valid() && State() == ShowAllStep(captions, old(State()))
      ensures visibleCaptions == captions && currentCaptionIdx == |captions| - 1
      ensures isPlaying == old(isPlaying)
    {
      visibleCaptions := captions;
      currentCaptionIdx := |captions| - 1;
    }

    /** The caption the control bar reads, always defined. */
    function CurrentCaption(): (c: Caption)
      reads this
      requires Valid()
      ensures c in captions && c in visibleCaptions
    {
      captions[currentCaptionIdx]
    }

    /** `F` + zero-padded frame number of the current caption, as in the control bar. */
    function FrameCounter(): (r: string)
      reads this
      requires Valid()
      ensures |r| >= 5 && r[0] == 'F' && Dashboard.AllDigits(r[1..])
      ensures Dashboard.DecimalValue(r[1..]) == captions[currentCaptionIdx].frameNum
    {
      Dashboard.FrameLabel(captions[currentCaptionIdx].frameNum)
    }

    /** The progress-bar fraction; the source divides by N-1 without a guard, hence N >= 2. */
    function Progress(): (r: real)
      reads this
      requires Valid() && |captions| >= 2
      ensures 0.0 <= r <= 1.0
      ensures r == 1.0 <==> currentCaptionIdx == |captions| - 1
    {
      ProgressRatio(currentCaptionIdx, |captions|)
    }

    /** The feed header counter `visible/N`; after any control it reads `(idx+1)/N`. */
    function Counter(): (r: (nat, nat))
      reads this
      requires Valid()
      ensures r.1 == |captions| && 1 <= r.0 <= r.1
      ensures Synced(captions, State()) ==> r.0 == currentCaptionIdx + 1
    {
      (|visibleCaptions|, |captions|)
    }
  }
}
