/**
  The single-channel game (plotting_data_monitor_1eeg.py): a monitor window
  that owns one serial monitor thread, accumulates a running spectrum of the
  signal, and moves a ball to the right by the signal's band power until it
  crosses the goal line, when `color1` is announced as winner once.

  `Session` is a snapshot of the window's state; the functions over it are the
  specification of the window's methods, which `PlottingDataMonitor` below
  implements imperatively on its fields.
 */
module OneEeg {
  import opened Wrappers
  import opened Spectra
  import opened Samples

  /** Samples needed before a spectrum is taken (self.nmax). */
  const NMax: nat := 1000
  /** Length of the running spectrum, which starts as that many zeros. */
  const SpectrumLength: nat := NMax / 2
  /** The band whose power drives the ball (self.x_low, self.x_high). */
  const XLow: real := 4.0
  const XHigh: real := 13.0
  const TuningFactor: real := 0.1
  /** The only player, and so the only possible winner. */
  const Color1: string := "limegreen"

  /** A point of the arena curve. */
  datatype Point = Point(x: real, y: real)

  datatype Session = Session(
    monitorActive: bool,
    /** A ComMonitorThread is held: com_monitor is not None. */
    comMonitor: bool,
    startEnabled: bool,
    stopEnabled: bool,
    startArenaEnabled: bool,
    /** livefeed.updated_list and livefeed.list_data. */
    feedUpdated: bool,
    feedList: seq<Sample>,
    fftNorm: seq<real>,
    ballX: real,
    ballY: real,
    /** What the arena curve displays; None before anything was drawn. */
    shown: Option<Point>,
    showOneItem: bool,
    /** The winner banner on the arena, if one is shown. */
    winner: Option<string>,
    playing: bool)

  /** Invariant of every reachable session. */
  predicate Consistent(s: Session)
  {
    && s.startEnabled == !s.monitorActive
    && s.stopEnabled == s.monitorActive
    && s.startArenaEnabled == s.monitorActive
    && |s.fftNorm| == SpectrumLength
    && Nonneg(s.fftNorm)
    && (Sum(s.fftNorm) == 0.0 || Sum(s.fftNorm) == 1.0)
    && (s.showOneItem <==> s.winner.Some?)
    && (s.winner.Some? ==> s.winner.value == Color1)
    && (s.shown.Some? ==> -1.0 <= s.shown.value.x <= 1.0)
  }

  function Zeros(k: nat): (r: seq<real>)
    ensures |r| == k && Nonneg(r) && Sum(r) == 0.0
    ensures forall i :: 0 <= i < k ==> r[i] == 0.0
  {
    if k == 0 then [] else [0.0] + Zeros(k - 1)
  }

  /** The session __init__ and create_menu leave behind. */
  function Initial(): (r: Session)
    ensures Consistent(r)
    ensures !r.monitorActive && !r.comMonitor && !r.playing && !r.showOneItem
    ensures r.ballX == 0.0 && r.ballY == 0.0 && Sum(r.fftNorm) == 0.0
  {
    Session(
      monitorActive := false, comMonitor := false,
      startEnabled := true, stopEnabled := false, startArenaEnabled := false,
      feedUpdated := false, feedList := [],
      fftNorm := Zeros(SpectrumLength),
      ballX := 0.0, ballY := 0.0, shown := None,
      showOneItem := false, winner := None, playing := false)
  }

  /** set_actions_enable_state. */
  function ActionsUpdated(s: Session): (r: Session)
    ensures r.startEnabled <==> !r.monitorActive
    ensures r.stopEnabled <==> r.monitorActive
    ensures r.startArenaEnabled <==> r.monitorActive
    ensures r.(startEnabled := s.startEnabled, stopEnabled := s.stopEnabled,
               startArenaEnabled := s.startArenaEnabled) == s
  {
    s.(startEnabled := !s.monitorActive, stopEnabled := s.monitorActive,
       startArenaEnabled := s.monitorActive)
  }

  /** on_stop: drop the monitor thread and go inactive, leaving the game alone. */
  function Stopped(s: Session): (r: Session)
    requires Consistent(s)
    ensures Consistent(r)
    ensures !r.comMonitor && !r.monitorActive
    ensures r.startEnabled && !r.stopEnabled && !r.startArenaEnabled
    ensures r.playing == s.playing && r.showOneItem == s.showOneItem && r.winner == s.winner
    ensures r.ballX == s.ballX && r.ballY == s.ballY && r.shown == s.shown
    ensures r.fftNorm == s.fftNorm && r.feedUpdated == s.feedUpdated && r.feedList == s.feedList
  {
    ActionsUpdated(s.(comMonitor := false, monitorActive := false))
  }

  /** reset_arena: ball back to the centre, winner banner removed. */
  function ArenaReset(s: Session): (r: Session)
    requires Consistent(s)
    ensures Consistent(r)
    ensures !r.showOneItem && r.winner.None?
    ensures r.ballX == 0.0 && r.ballY == 0.0 && r.shown == Some(Point(0.0, 0.0))
    ensures r.playing == s.playing && r.monitorActive == s.monitorActive && r.comMonitor == s.comMonitor
    ensures r.fftNorm == s.fftNorm && r.feedUpdated == s.feedUpdated && r.feedList == s.feedList
  {
    s.(showOneItem := false, winner := None, ballX := 0.0, ballY := 0.0,
       shown := Some(Point(0.0, 0.0)))
  }

  /** reset_signal: the feed's list emptied and its flag cleared. */
  function SignalReset(s: Session): (r: Session)
    requires Consistent(s)
    ensures Consistent(r)
    ensures !r.feedUpdated && r.feedList == []
    ensures r.(feedUpdated := s.feedUpdated, feedList := s.feedList) == s
  {
    s.(feedUpdated := false, feedList := [])
  }

  /**
    on_start. `connected` says whether the new monitor thread reported no error
    when its error queue was polled; when it did report one, the thread is
    dropped but the window still goes active.
   */
  function Started(s: Session, connected: bool): (r: Session)
    requires Consistent(s)
    ensures Consistent(r)
    ensures s.comMonitor ==> r == s
    ensures !s.comMonitor ==> r.monitorActive && r.comMonitor == connected
    ensures !s.comMonitor && s.showOneItem ==>
      && !r.showOneItem && r.winner.None?
      && r.ballX == 0.0 && r.ballY == 0.0 && r.shown == Some(Point(0.0, 0.0))
      && !r.feedUpdated && r.feedList == []
    ensures !s.showOneItem ==>
      && r.showOneItem == s.showOneItem && r.winner == s.winner
      && r.ballX == s.ballX && r.ballY == s.ballY && r.shown == s.shown
      && r.feedUpdated == s.feedUpdated && r.feedList == s.feedList
    ensures r.playing == s.playing && r.fftNorm == s.fftNorm
  {
    if s.comMonitor then s
    else
      var s1 := if s.showOneItem then SignalReset(ArenaReset(s)) else s;
      ActionsUpdated(s1.(comMonitor := connected, monitorActive := true))
  }

  /** on_arena: the game starts with the ball exactly at the centre. */
  function ArenaStarted(s: Session): (r: Session)
    requires Consistent(s)
    ensures Consistent(r)
    ensures r.playing && r.ballX == 0.0 && r.ballY == 0.0 && r.shown == Some(Point(0.0, 0.0))
    ensures r.showOneItem == s.showOneItem && r.winner == s.winner
    ensures r.monitorActive == s.monitorActive && r.comMonitor == s.comMonitor
    ensures r.fftNorm == s.fftNorm
  {
    s.(playing := true, ballX := 0.0, ballY := 0.0, shown := Some(Point(0.0, 0.0)))
  }

  /**
    The running spectrum after one full window: the window's magnitudes
    without the zero-frequency bin, divided by their own total, are added to
    the old running spectrum, and the result is divided by its total.
   */
  function RunningSpectrum(acc: seq<real>, m: seq<real>): (r: seq<real>)
    requires |acc| == |m| && Nonneg(acc) && Nonneg(m) && Sum(m) > 0.0
    ensures |r| == |acc|
  {
    NormalizeSumsToOne(m);
    SumNonneg(acc);
    SumAdd(acc, Normalize(m));
    Normalize(AddSeq(acc, Normalize(m)))
  }

  /** The abscissa the arena curve draws: x with its magnitude capped at 1. */
  function DisplayedX(x: real): (r: real)
    ensures -1.0 <= r <= 1.0
    ensures -1.0 <= x <= 1.0 ==> r == x
    ensures x > 1.0 ==> r == 1.0
    ensures x < -1.0 ==> r == -1.0
  {
    var sign := if x > 0.0 then 1.0 else if x < 0.0 then -1.0 else 0.0;
    sign * (if Abs(x) < 1.0 then Abs(x) else 1.0)
  }

  /** What a tick needs of its window beyond numpy's shapes. */
  predicate TickInput(w: Window)
  {
    WellFormed(w) && (w.n >= NMax ==> Sum(w.mags[1..]) > 0.0)
  }

  /**
    The arena part of update_monitor while playing with a full window:
    x grows by the band power times the tuning factor, y takes the jitter,
    the curve shows the clamped x and the undamped y, then y is damped when
    it leaves the envelope and a first crossing of the goal line decides.
   */
  function Moved(s: Session, power: real, jitter: real): (r: Session)
    requires Consistent(s)
    ensures Consistent(r)
  {
    var s1 := Displaced(s, power, jitter);
    if Abs(s1.ballX) > 1.0 && !s1.showOneItem then
      Stopped(s1.(winner := Some(Color1), showOneItem := true, playing := false))
    else s1
  }

  /** The motion part of the arena step, before the goal test. */
  function Displaced(s: Session, power: real, jitter: real): (r: Session)
    requires Consistent(s)
    ensures Consistent(r)
  {
    var x := s.ballX + power * TuningFactor;
    var y := s.ballY + jitter;
    var y' := if Abs(y) > 0.7 * (1.1 - Abs(x)) then y * 0.6 else y;
    s.(ballX := x, ballY := y', shown := Some(Point(DisplayedX(x), y)))
  }

  /**
    update_monitor. `w` is None when the feed has no updated list; `jitter`
    is the normally distributed value the caller drew for y. A window whose spectrum
    does not have the running spectrum's shape makes numpy raise in the `+=`,
    which abandons the tick before any state changes.
   */
  function Ticked(s: Session, w: Option<Window>, jitter: real): (r: Session)
    requires Consistent(s)
    requires w.Some? ==> TickInput(w.value)
    ensures Consistent(r)
  {
    if w.None? || w.value.n < NMax || |w.value.mags| - 1 != |s.fftNorm| then s
    else
      var spectrum := RunningSpectrum(s.fftNorm, w.value.mags[1..]);
      RunningSpectrumIsDistribution(s.fftNorm, w.value.mags[1..]);
      var s1 := s.(fftNorm := spectrum);
      if !s1.playing then s1
      else Moved(s1, BandPower(w.value.freqs[1..], spectrum, XLow, XHigh), jitter)
  }

  /**
    read_serial_data: of everything drained from the data queue in one
    tick only the last item becomes a feed sample, stamped with that item's
    time; an empty drain posts nothing.
   */
  function ReadSerialData(qdata: seq<Packet>): (r: Option<Sample>)
    ensures r.None? <==> |qdata| == 0
    ensures r.Some? ==> r.value == ToSample(qdata[|qdata| - 1])
  {
    if |qdata| > 0 then Some(ToSample(qdata[|qdata| - 1])) else None
  }

  // ---------------------------------------------------------------------
  // Properties of the specification

  /**
    Over the reals the running spectrum stays a distribution: non-negative
    entries summing to exactly 1, whatever it held before (in particular the
    initial zeros).
   */
  lemma RunningSpectrumIsDistribution(acc: seq<real>, m: seq<real>)
    requires |acc| == |m| && Nonneg(acc) && Nonneg(m) && Sum(m) > 0.0
    ensures Nonneg(RunningSpectrum(acc, m)) && Sum(RunningSpectrum(acc, m)) == 1.0
  {
    var inc := Normalize(m);
    NormalizeIsDistribution(m);
    SumNonneg(acc);
    SumAdd(acc, inc);
    var total := AddSeq(acc, inc);
    assert Nonneg(total);
    NormalizeIsDistribution(total);
  }

  /** Dropping the earlier items of a drain does not change what is posted. */
  lemma OnlyLastPacketCounts(earlier: seq<Packet>, last: Packet)
    ensures ReadSerialData(earlier + [last]) == ReadSerialData([last])
    ensures ReadSerialData([last]) == Some(Sample(last.timestamp, NanMean(last.values)))
  {
  }

  /** With a distribution as spectrum the band power lies in [0, 1]. */
  lemma BandPowerInUnit(f: seq<real>, spectrum: seq<real>)
    requires |f| == |spectrum| && Nonneg(spectrum) && Sum(spectrum) == 1.0
    ensures 0.0 <= BandPower(f, spectrum, XLow, XHigh) <= 1.0
  {
  }

  /**
    A tick never moves the ball left, and moves it right by at most the
    tuning factor: exactly by band power times the tuning factor when playing
    on a full window of the right shape, not at all otherwise.
   */
  lemma TickAdvancesX(s: Session, w: Option<Window>, jitter: real)
    requires Consistent(s)
    requires w.Some? ==> TickInput(w.value)
    ensures s.ballX <= Ticked(s, w, jitter).ballX <= s.ballX + TuningFactor
    ensures w.Some? && w.value.n >= NMax && |w.value.mags| - 1 == SpectrumLength && s.playing ==>
      Ticked(s, w, jitter).ballX ==
        s.ballX + BandPower(w.value.freqs[1..], RunningSpectrum(s.fftNorm, w.value.mags[1..]), XLow, XHigh) * TuningFactor
  {
    if w.Some? && w.value.n >= NMax && |w.value.mags| - 1 == |s.fftNorm| {
      var spectrum := RunningSpectrum(s.fftNorm, w.value.mags[1..]);
      RunningSpectrumIsDistribution(s.fftNorm, w.value.mags[1..]);
      BandPowerInUnit(w.value.freqs[1..], spectrum);
    }
  }

  /**
    The position (and the curve) change only when playing on a full window:
    otherwise the ball, the banner, `playing` and the monitor are untouched.
   */
  lemma TickMovesOnlyWhilePlaying(s: Session, w: Option<Window>, jitter: real)
    requires Consistent(s)
    requires w.Some? ==> TickInput(w.value)
    requires !s.playing || w.None? || w.value.n < NMax
    ensures var r := Ticked(s, w, jitter);
      && r.ballX == s.ballX && r.ballY == s.ballY && r.shown == s.shown
      && r.showOneItem == s.showOneItem && r.winner == s.winner && r.playing == s.playing
      && r.monitorActive == s.monitorActive && r.comMonitor == s.comMonitor
  {
  }

  /**
    A tick without an updated list, with fewer than nmax samples, or with a
    spectrum numpy cannot add to the running one leaves the whole session as
    it was.
   */
  lemma UnusableWindowLeavesState(s: Session, w: Option<Window>, jitter: real)
    requires Consistent(s)
    requires w.Some? ==> TickInput(w.value)
    requires w.None? || w.value.n < NMax || |w.value.mags| - 1 != SpectrumLength
    ensures Ticked(s, w, jitter) == s
  {
  }

  /**
    When the ball moves, y first takes the jitter and is then scaled by 0.6
    exactly when it lies outside the envelope 0.7 * (1.1 - |x|); the curve
    shows the clamped x and the undamped y.
   */
  lemma TickDampsY(s: Session, power: real, jitter: real)
    requires Consistent(s)
    ensures var r := Moved(s, power, jitter);
      var x := s.ballX + power * TuningFactor;
      var y := s.ballY + jitter;
      && r.ballX == x
      && r.shown == Some(Point(DisplayedX(x), y))
      && (Abs(y) > 0.7 * (1.1 - Abs(x)) ==> r.ballY == 0.6 * y)
      && (Abs(y) <= 0.7 * (1.1 - Abs(x)) ==> r.ballY == y)
      && Abs(r.ballY) <= Abs(y)
  {
  }

  /**
    The decision: a tick that crosses |x| > 1 with no banner shown announces
    `color1`, stops playing and stops the monitor; once a banner is shown a
    tick neither removes nor replaces it.
   */
  lemma TickDecidesOnce(s: Session, w: Option<Window>, jitter: real)
    requires Consistent(s)
    requires w.Some? ==> TickInput(w.value)
    ensures var r := Ticked(s, w, jitter);
      && (s.showOneItem ==> r.showOneItem && r.winner == s.winner)
      && (!s.showOneItem && r.showOneItem ==>
            && r.winner == Some(Color1) && Abs(r.ballX) > 1.0
            && !r.playing && !r.monitorActive && !r.comMonitor
            && r.startEnabled && !r.stopEnabled && !r.startArenaEnabled)
      && (!s.showOneItem && !r.showOneItem ==> r.winner.None? && r.monitorActive == s.monitorActive)
      && ((s.playing && w.Some? && w.value.n >= NMax && |w.value.mags| - 1 == SpectrumLength
           && !s.showOneItem && !r.showOneItem) ==> Abs(r.ballX) <= 1.0)
  {
  }

  /**
    The goal test of the arena step, both ways: a move that takes |x| past 1
    with no banner shown announces `color1`, stops playing and stops the
    monitor; any other move is the displacement alone.
   */
  lemma MoveDecides(s: Session, power: real, jitter: real)
    requires Consistent(s)
    ensures var r := Moved(s, power, jitter);
      Abs(s.ballX + power * TuningFactor) > 1.0 && !s.showOneItem ==>
        && r.showOneItem && r.winner == Some(Color1) && !r.playing
        && !r.comMonitor && !r.monitorActive
        && r.ballX == s.ballX + power * TuningFactor
    ensures Abs(s.ballX + power * TuningFactor) <= 1.0 || s.showOneItem ==>
      Moved(s, power, jitter) == Displaced(s, power, jitter)
  {
  }

  /**
    A usable full window replaces the running spectrum by the fold of its
    magnitudes past the zero-frequency bin, which sums to exactly 1.
   */
  lemma TickAccumulates(s: Session, w: Window, jitter: real)
    requires Consistent(s) && TickInput(w)
    requires w.n >= NMax && |w.mags| - 1 == SpectrumLength
    ensures Ticked(s, Some(w), jitter).fftNorm == RunningSpectrum(s.fftNorm, w.mags[1..])
    ensures Sum(Ticked(s, Some(w), jitter).fftNorm) == 1.0
  {
    RunningSpectrumIsDistribution(s.fftNorm, w.mags[1..]);
  }

  /**
    On the first full window, when the running spectrum still holds zeros,
    the fold is just the window's own normalised spectrum: the second
    division by the total divides by 1.
   */
  lemma RunningSpectrumFromZeros(m: seq<real>)
    requires Nonneg(m) && Sum(m) > 0.0
    ensures RunningSpectrum(Zeros(|m|), m) == Normalize(m)
  {
    var z := Zeros(|m|);
    var n := Normalize(m);
    NormalizeSumsToOne(m);
    var t := AddSeq(z, n);
    forall i | 0 <= i < |n|
      ensures t[i] == n[i]
    {
    }
    assert t == n;
    NormalizeIdempotent(n);
  }

  /**
    From a running spectrum that is already a distribution, the sum before
    the second division is 2, so the fold is the average of the old spectrum
    and the window's normalised one.
   */
  lemma RunningSpectrumAverages(acc: seq<real>, m: seq<real>)
    requires |acc| == |m| && Nonneg(acc) && Nonneg(m) && Sum(m) > 0.0
    requires Sum(acc) == 1.0
    ensures Sum(AddSeq(acc, Normalize(m))) == 2.0
    ensures forall i :: 0 <= i < |acc| ==>
      RunningSpectrum(acc, m)[i] == (acc[i] + m[i] / Sum(m)) / 2.0
  {
    NormalizeSumsToOne(m);
    SumAdd(acc, Normalize(m));
  }

  /** The operations a user or the timers can trigger. */
  datatype Event =
    | Start(connected: bool)
    | Stop
    | Arena
    | Tick(window: Option<Window>, jitter: real)

  predicate EventInput(e: Event)
  {
    e.Tick? && e.window.Some? ==> TickInput(e.window.value)
  }

  function Apply(s: Session, e: Event): (r: Session)
    requires Consistent(s) && EventInput(e)
    ensures Consistent(r)
  {
    match e
    case Start(connected) => Started(s, connected)
    case Stop => Stopped(s)
    case Arena => ArenaStarted(s)
    case Tick(w, jitter) => Ticked(s, w, jitter)
  }

  /** Number of winner announcements along a run of events. */
  function Decisions(s: Session, es: seq<Event>): nat
    requires Consistent(s)
    requires forall i :: 0 <= i < |es| ==> EventInput(es[i])
    decreases |es|
  {
    if |es| == 0 then 0
    else
      var t := Apply(s, es[0]);
      (if !s.showOneItem && t.showOneItem then 1 else 0) + Decisions(t, es[1..])
  }

  /**
    Only on_start (through reset_arena) clears the banner, so a run without a
    start announces at most one winner, and none when a banner is already up.
   */
  lemma {:induction false} AtMostOneDecisionBetweenStarts(s: Session, es: seq<Event>)
    requires Consistent(s)
    requires forall i :: 0 <= i < |es| ==> EventInput(es[i]) && !es[i].Start?
    ensures Decisions(s, es) <= 1
    ensures s.showOneItem ==> Decisions(s, es) == 0
    decreases |es|
  {
    if |es| > 0 {
      var t := Apply(s, es[0]);
      if es[0].Tick? {
        TickDecidesOnce(s, es[0].window, es[0].jitter);
      }
      assert s.showOneItem ==> t.showOneItem;
      AtMostOneDecisionBetweenStarts(t, es[1..]);
    }
  }

  /** A run of ticks while not playing leaves the ball where it is. */
  lemma {:induction false} IdleTicksKeepBall(s: Session, es: seq<Event>)
    requires Consistent(s) && !s.playing
    requires forall i :: 0 <= i < |es| ==> EventInput(es[i]) && es[i].Tick?
    ensures Run(s, es).ballX == s.ballX && Run(s, es).ballY == s.ballY
    ensures Run(s, es).winner == s.winner && !Run(s, es).playing
    decreases |es|
  {
    if |es| > 0 {
      TickMovesOnlyWhilePlaying(s, es[0].window, es[0].jitter);
      IdleTicksKeepBall(Apply(s, es[0]), es[1..]);
    }
  }

  /** The session after a run of events. */
  function Run(s: Session, es: seq<Event>): (r: Session)
    requires Consistent(s)
    requires forall i :: 0 <= i < |es| ==> EventInput(es[i])
    ensures Consistent(r)
    decreases |es|
  {
    if |es| == 0 then s else Run(Apply(s, es[0]), es[1..])
  }

  // ---------------------------------------------------------------------
  // The window class

  class PlottingDataMonitor {
    var monitorActive: bool
    var comMonitor: bool
    var startEnabled: bool
    var stopEnabled: bool
    var startArenaEnabled: bool
    var feedUpdated: bool
    var feedList: seq<Sample>
    var fftNorm: seq<real>
    var ballX: real
    var ballY: real
    var shown: Option<Point>
    var showOneItem: bool
    var winner: Option<string>
    var playing: bool

    function State(): Session
      reads this
    {
      Session(monitorActive, comMonitor, startEnabled, stopEnabled, startArenaEnabled,
              feedUpdated, feedList, fftNorm, ballX, ballY, shown, showOneItem, winner, playing)
    }

    predicate Valid()
      reads this
    {
      Consistent(State())
    }

    constructor ()
      ensures Valid() && State() == Initial()
    {
      monitorActive := false;
      comMonitor := false;
      feedUpdated := false;
      feedList := [];
      fftNorm := Zeros(SpectrumLength);
      ballX, ballY := 0.0, 0.0;
      shown := None;
      showOneItem := false;
      winner := None;
      playing := false;
      startEnabled := true;
      stopEnabled := false;
      startArenaEnabled := false;
    }

    method SetActionsEnableState()
      modifies this
      ensures State() == ActionsUpdated(old(State()))
    {
      startEnabled := !monitorActive;
      stopEnabled := monitorActive;
      startArenaEnabled := monitorActive;
    }

    method OnStop()
      requires Valid()
      modifies this
      ensures Valid() && State() == Stopped(old(State()))
    {
      if comMonitor {
        comMonitor := false;
      }
      monitorActive := false;
      SetActionsEnableState();
    }

    method ResetArena()
      requires Valid()
      modifies this
      ensures Valid() && State() == ArenaReset(old(State()))
    {
      winner := None;
      showOneItem := false;
      ballX, ballY := 0.0, 0.0;
      shown := Some(Point(ballX, ballY));
    }

    method ResetSignal()
      requires Valid()
      modifies this
      ensures Valid() && State() == SignalReset(old(State()))
    {
      feedUpdated := false;
      feedList := [];
    }

    method OnStart(connected: bool)
      requires Valid()
      modifies this
      ensures Valid() && State() == Started(old(State()), connected)
    {
      if comMonitor {
        return;
      }
      if showOneItem {
        ResetArena();
        ResetSignal();
      }
      comMonitor := true;
      if !connected {
        comMonitor := false;
      }
      monitorActive := true;
      SetActionsEnableState();
    }

    method OnArena()
      requires Valid()
      modifies this
      ensures Valid() && State() == ArenaStarted(old(State()))
    {
      playing := true;
      ballX, ballY := 0.0, 0.0;
      shown := Some(Point(ballX, ballY));
    }

    method UpdateMonitor(w: Option<Window>, jitter: real)
      requires Valid()
      requires w.Some? ==> TickInput(w.value)
      modifies this
      ensures Valid() && State() == Ticked(old(State()), w, jitter)
    {
      if w.None? {
        return;
      }
      var n := w.value.n;
      if n >= NMax {
        var fft1 := w.value.mags;
        if |fft1| - 1 != |fftNorm| {
          return;
        }
        RunningSpectrumIsDistribution(fftNorm, fft1[1..]);
        fftNorm := RunningSpectrum(fftNorm, fft1[1..]);
      }
      if playing && n >= NMax {
        var power := BandPower(w.value.freqs[1..], fftNorm, XLow, XHigh);
        MoveBall(power, jitter);
      }
    }

    /** The arena block of update_monitor, run while playing on a full window. */
    method MoveBall(power: real, jitter: real)
      requires Valid()
      modifies this
      ensures Valid() && State() == Moved(old(State()), power, jitter)
    {
      Displace(power, jitter);
      if Abs(ballX) > 1.0 && !showOneItem {
        winner := Some(Color1);
        showOneItem := true;
        playing := false;
        OnStop();
      }
    }

    /** The motion part of the arena block: the ball moves and the curve is redrawn. */
    method Displace(power: real, jitter: real)
      requires Valid()
      modifies this
      ensures Valid() && State() == Displaced(old(State()), power, jitter)
    {
      ballX := ballX + power * TuningFactor;
      ballY := ballY + jitter;
      shown := Some(Point(DisplayedX(ballX), ballY));
      if Abs(ballY) > 0.7 * (1.1 - Abs(ballX)) {
        ballY := ballY * 0.6;
      }
    }
  }
}
