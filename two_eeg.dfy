/**
  The two-channel game (plotting_data_monitor_2eeg.py): a monitor window
  with one serial monitor thread per player. Each tick that brings a new
  list from both feeds computes each channel's band power from its own
  spectrum. When channel 2's list holds more than 999 samples, the ball moves
  along x by the difference (tuning factor 1); on earlier such ticks it is put
  back at (0, 0) whatever the powers. The first time the
  ball is more than 0.1 from the centre the player on that side wins, and
  nothing in the file ever takes that decision back.

  `Session` is a snapshot of the window's state; the functions over it are the
  specification of the window's methods, which `PlottingDataMonitor` below
  implements imperatively on its fields.
 */
module TwoEeg {
  import opened Wrappers
  import opened Spectra
  import opened Samples

  /** The band whose power each player controls (self.x_low, self.x_high). */
  const XLow: real := 0.1
  const XHigh: real := 3.0
  const TuningFactor: real := 1.0
  /** Distance from the centre that decides the game. */
  const GoalDistance: real := 0.1
  /** Largest sample count of channel 2 for which the ball is held at the centre. */
  const WarmUpSamples: nat := 999
  /** The player who wins on the negative side, and the one on the positive side. */
  const NegativeWinner: string := "limegreen"
  const PositiveWinner: string := "Magenta"

  datatype Session = Session(
    monitorActive: bool,
    /** com_monitor and com_monitor2 are not None. */
    comMonitor: bool,
    comMonitor2: bool,
    startEnabled: bool,
    stopEnabled: bool,
    /** ball_coordx[0] and ball_coordy[0]. */
    ballX: real,
    ballY: real,
    showOneItem: bool,
    /** The winner banner on the arena, if one was added. */
    winner: Option<string>)

  /** Invariant of every reachable session. */
  predicate Consistent(s: Session)
  {
    && s.startEnabled == !s.monitorActive
    && s.stopEnabled == s.monitorActive
    && (s.showOneItem <==> s.winner.Some?)
    && (s.winner.Some? ==> s.winner.value == NegativeWinner || s.winner.value == PositiveWinner)
    && s.ballY == 0.0
  }

  /** The session __init__ and create_menu leave behind. */
  function Initial(): (r: Session)
    ensures Consistent(r)
    ensures !r.monitorActive && !r.comMonitor && !r.comMonitor2 && !r.showOneItem
    ensures r.ballX == 0.0 && r.ballY == 0.0
  {
    Session(
      monitorActive := false, comMonitor := false, comMonitor2 := false,
      startEnabled := true, stopEnabled := false,
      ballX := 0.0, ballY := 0.0, showOneItem := false, winner := None)
  }

  /** set_actions_enable_state. */
  function ActionsUpdated(s: Session): (r: Session)
    ensures r.startEnabled <==> !r.monitorActive
    ensures r.stopEnabled <==> r.monitorActive
    ensures r.(startEnabled := s.startEnabled, stopEnabled := s.stopEnabled) == s
  {
    s.(startEnabled := !s.monitorActive, stopEnabled := s.monitorActive)
  }

  /** on_stop: only the first monitor thread is dropped; the second keeps running. */
  function Stopped(s: Session): (r: Session)
    requires Consistent(s)
    ensures Consistent(r)
    ensures !r.comMonitor && !r.monitorActive && r.startEnabled && !r.stopEnabled
    ensures r.comMonitor2 == s.comMonitor2
    ensures r.ballX == s.ballX && r.ballY == s.ballY
    ensures r.showOneItem == s.showOneItem && r.winner == s.winner
  {
    ActionsUpdated(s.(comMonitor := false, monitorActive := false))
  }

  /**
    on_start. `connected1` and `connected2` say whether each new monitor
    thread reported no error when its error queue was polled; a thread that
    did report one is dropped, and the window goes active either way.
   */
  function Started(s: Session, connected1: bool, connected2: bool): (r: Session)
    requires Consistent(s)
    ensures Consistent(r)
    ensures s.comMonitor ==> r == s
    ensures !s.comMonitor ==>
      && r.monitorActive && !r.startEnabled && r.stopEnabled
      && r.comMonitor == connected1 && r.comMonitor2 == connected2
    ensures r.ballX == s.ballX && r.ballY == s.ballY
    ensures r.showOneItem == s.showOneItem && r.winner == s.winner
  {
    if s.comMonitor then s
    else ActionsUpdated(s.(comMonitor := connected1, comMonitor2 := connected2, monitorActive := true))
  }

  /**
    One channel's spectrum: the magnitudes divided by their total with the
    zero-frequency bin still included, and that bin dropped afterwards.
   */
  function ChannelSpectrum(m: seq<real>): (r: seq<real>)
    requires |m| >= 1 && Sum(m) != 0.0
    ensures |r| == |m| - 1
    ensures forall i :: 0 <= i < |r| ==> r[i] == m[i + 1] / Sum(m)
  {
    Normalize(m)[1..]
  }

  /** What a channel's window needs beyond numpy's shapes: a spectrum with positive total. */
  predicate ChannelInput(w: Window)
  {
    WellFormed(w) && Sum(w.mags) > 0.0
  }

  /** A channel's band power, read with the strict band (x_low, x_high). */
  function ChannelPower(w: Window): (r: real)
    requires ChannelInput(w)
    ensures 0.0 <= r <= 1.0
  {
    ChannelSpectrumInUnit(w.mags);
    ChannelSpectrumMass(w.mags);
    BandPower(w.freqs[1..], ChannelSpectrum(w.mags), XLow, XHigh)
  }

  /**
    update_monitor. `w1` and `w2` are None when the respective feed has no
    updated list. The arena moves only when both have one; the window-full
    test reads the sample count last assigned, which is channel 2's.
   */
  function Ticked(s: Session, w1: Option<Window>, w2: Option<Window>): (r: Session)
    requires Consistent(s)
    requires w1.Some? ==> ChannelInput(w1.value)
    requires w2.Some? ==> ChannelInput(w2.value)
    ensures Consistent(r)
  {
    if w1.None? || w2.None? then s
    else
      var p1 := ChannelPower(w1.value);
      var p2 := ChannelPower(w2.value);
      var s1 :=
        if w2.value.n > WarmUpSamples then s.(ballX := s.ballX + (p2 - p1) * TuningFactor, ballY := s.ballY + 0.0)
        else s.(ballX := 0.0, ballY := 0.0);
      if Abs(s1.ballX) > GoalDistance && !s1.showOneItem then
        var colour := if s1.ballX < 0.0 then NegativeWinner else PositiveWinner;
        Stopped(s1.(winner := Some(colour), showOneItem := true))
      else s1
  }

  /**
    One channel of read_serial_data: a queue item becomes a feed sample only
    when decoding it gave at least one value.
   */
  function ChannelPost(item: Option<Packet>): (r: Option<Sample>)
    ensures r.Some? <==> item.Some? && |item.value.values| > 0
    ensures r.Some? ==> r.value == ToSample(item.value) && r.value.temperature.Num?
  {
    if item.Some? && |item.value.values| > 0 then Some(ToSample(item.value)) else None
  }

  /**
    What one call of read_serial_data posts to the two feeds, and whether it
    ended by raising (the TypeError of calling `list` on the None that
    get_item_from_queue returns for an empty queue).
   */
  datatype Posts = Posts(feed1: Option<Sample>, feed2: Option<Sample>, raised: bool)

  /**
    read_serial_data as written: an empty first queue raises before either
    feed is served, and an empty second queue raises after the first feed was.
    `q1` and `q2` are what get_item_from_queue returned for each data queue.
   */
  function ReadSerialDataAsWritten(q1: Option<Packet>, q2: Option<Packet>): (r: Posts)
    ensures r.raised <==> q1.None? || q2.None?
    ensures q1.None? ==> r.feed1.None? && r.feed2.None?
    ensures q1.Some? ==> r.feed1 == ChannelPost(q1)
    ensures q1.Some? && q2.None? ==> r.feed2.None?
    ensures q1.Some? && q2.Some? ==> r.feed2 == ChannelPost(q2)
  {
    if q1.None? then Posts(None, None, true)
    else
      var post1 := ChannelPost(q1);
      if q2.None? then Posts(post1, None, true)
      else Posts(post1, ChannelPost(q2), false)
  }

  /**
    read_serial_data as intended: each channel is served on its own, an
    empty queue or an empty decoding posting nothing to that channel's feed.
   */
  function ReadSerialData(q1: Option<Packet>, q2: Option<Packet>): (r: Posts)
    ensures !r.raised
    ensures r.feed1.Some? <==> q1.Some? && |q1.value.values| > 0
    ensures r.feed2.Some? <==> q2.Some? && |q2.value.values| > 0
    ensures r.feed1.Some? ==> r.feed1.value == ToSample(q1.value)
    ensures r.feed2.Some? ==> r.feed2.value == ToSample(q2.value)
  {
    Posts(ChannelPost(q1), ChannelPost(q2), false)
  }

  // ---------------------------------------------------------------------
  // Properties of the specification

  /** Every entry of a channel's spectrum lies in [0, 1]. */
  lemma ChannelSpectrumInUnit(m: seq<real>)
    requires |m| >= 1 && Nonneg(m) && Sum(m) > 0.0
    ensures Nonneg(ChannelSpectrum(m))
    ensures forall i :: 0 <= i < |m| - 1 ==> ChannelSpectrum(m)[i] <= 1.0
  {
    NormalizeIsDistribution(m);
  }

  /**
    Dividing by the total that still includes the zero-frequency bin leaves
    a mass of 1 less the DC share, so the spectrum sums to at most 1, and to
    exactly 1 only when that bin is 0.
   */
  lemma ChannelSpectrumMass(m: seq<real>)
    requires |m| >= 1 && Nonneg(m) && Sum(m) > 0.0
    ensures Sum(ChannelSpectrum(m)) == 1.0 - m[0] / Sum(m)
    ensures Sum(ChannelSpectrum(m)) <= 1.0
    ensures Sum(ChannelSpectrum(m)) == 1.0 <==> m[0] == 0.0
  {
    var n := Normalize(m);
    NormalizeSumsToOne(m);
    SumTail(n);
    assert n[0] == m[0] / Sum(m);
    EntryAtMostSum(m, 0);
    DivideWithinUnit(m[0], Sum(m));
    ZeroShare(m[0], Sum(m));
  }

  lemma ZeroShare(x: real, total: real)
    requires total > 0.0
    ensures x / total == 0.0 <==> x == 0.0
  {
  }

  /** The arena is touched only on ticks where both channels produced an update. */
  lemma TickNeedsBothChannels(s: Session, w1: Option<Window>, w2: Option<Window>)
    requires Consistent(s)
    requires w1.Some? ==> ChannelInput(w1.value)
    requires w2.Some? ==> ChannelInput(w2.value)
    requires w1.None? || w2.None?
    ensures Ticked(s, w1, w2) == s
  {
  }

  /**
    While channel 2 has at most 999 samples the ball is put exactly at the
    centre, whatever the powers, and so no decision can be made.
   */
  lemma WarmUpHoldsCentre(s: Session, w1: Window, w2: Window)
    requires Consistent(s) && ChannelInput(w1) && ChannelInput(w2)
    requires w2.n <= WarmUpSamples
    ensures var r := Ticked(s, Some(w1), Some(w2));
      && r.ballX == 0.0 && r.ballY == 0.0
      && r.showOneItem == s.showOneItem && r.winner == s.winner
      && r.monitorActive == s.monitorActive && r.comMonitor == s.comMonitor
  {
  }

  /**
    Past the warm-up x moves by the power difference times the tuning factor,
    hence by at most 1 per tick, and y stays where it is.
   */
  lemma FullWindowIntegrates(s: Session, w1: Window, w2: Window)
    requires Consistent(s) && ChannelInput(w1) && ChannelInput(w2)
    requires w2.n > WarmUpSamples
    ensures var r := Ticked(s, Some(w1), Some(w2));
      && r.ballX == s.ballX + (ChannelPower(w2) - ChannelPower(w1)) * TuningFactor
      && r.ballY == s.ballY
      && Abs(r.ballX - s.ballX) <= 1.0
  {
  }

  /** Channel 1's sample count plays no part in a tick; only its power does. */
  lemma WindowFullReadsChannelTwo(s: Session, w1: Window, w1': Window, w2: Option<Window>)
    requires Consistent(s) && ChannelInput(w1) && ChannelInput(w1')
    requires w2.Some? ==> ChannelInput(w2.value)
    requires ChannelPower(w1) == ChannelPower(w1')
    ensures Ticked(s, Some(w1), w2) == Ticked(s, Some(w1'), w2)
  {
  }

  /**
    The decision: the first tick that leaves the ball more than 0.1 from the
    centre announces `limegreen` if x is negative and `Magenta` otherwise and
    stops the first monitor; a banner once shown stays as it is.
   */
  lemma TickDecidesBySign(s: Session, w1: Option<Window>, w2: Option<Window>)
    requires Consistent(s)
    requires w1.Some? ==> ChannelInput(w1.value)
    requires w2.Some? ==> ChannelInput(w2.value)
    ensures var r := Ticked(s, w1, w2);
      && (s.showOneItem ==> r.showOneItem && r.winner == s.winner)
      && (!s.showOneItem && r.showOneItem ==>
            && Abs(r.ballX) > GoalDistance
            && r.winner == Some(if r.ballX < 0.0 then NegativeWinner else PositiveWinner)
            && !r.monitorActive && !r.comMonitor && r.comMonitor2 == s.comMonitor2)
      && (!s.showOneItem && !r.showOneItem ==> Abs(r.ballX) <= GoalDistance || w1.None? || w2.None?)
  {
  }

  /** The operations a user or the timers can trigger. */
  datatype Event =
    | Start(connected1: bool, connected2: bool)
    | Stop
    | Tick(window1: Option<Window>, window2: Option<Window>)

  predicate EventInput(e: Event)
  {
    e.Tick? ==>
      && (e.window1.Some? ==> ChannelInput(e.window1.value))
      && (e.window2.Some? ==> ChannelInput(e.window2.value))
  }

  function Apply(s: Session, e: Event): (r: Session)
    requires Consistent(s) && EventInput(e)
    ensures Consistent(r)
  {
    match e
    case Start(c1, c2) => Started(s, c1, c2)
    case Stop => Stopped(s)
    case Tick(w1, w2) => Ticked(s, w1, w2)
  }

  /** Number of winner announcements along a run of events. */
  function Decisions(s: Session, es: seq<Event>): nat
    requires Consistent(s)
    requires forall i :: 0 <= i < |es| ==> EventInput(es[i])
    decreases |es|
  {
    if |es| == 0 then 0
    else
      var t := Apply(s, es[0]);
      (if !s.showOneItem && t.showOneItem then 1 else 0) + Decisions(t, es[1..])
  }

  /**
    Nothing in this window clears `show_one_item`, so over any run of starts,
    stops and ticks at most one winner is ever announced, and none once one was.
   */
  lemma {:induction false} AtMostOneWinner(s: Session, es: seq<Event>)
    requires Consistent(s)
    requires forall i :: 0 <= i < |es| ==> EventInput(es[i])
    ensures Decisions(s, es) <= 1
    ensures s.showOneItem ==> Decisions(s, es) == 0
    decreases |es|
  {
    if |es| > 0 {
      var t := Apply(s, es[0]);
      if es[0].Tick? {
        TickDecidesBySign(s, es[0].window1, es[0].window2);
      }
      assert s.showOneItem ==> t.showOneItem;
      AtMostOneWinner(t, es[1..]);
    }
  }

  /**
    The finding in read_serial_data: with the first queue empty and a
    decodable item waiting in the second, the code as written raises and
    posts nothing, while the intended reading posts the second channel's sample.
   */
  lemma EmptyFirstQueueStarvesSecond(p: Packet)
    requires |p.values| > 0
    ensures ReadSerialDataAsWritten(None, Some(p)) == Posts(None, None, true)
    ensures ReadSerialData(None, Some(p)) == Posts(None, Some(ToSample(p)), false)
  {
  }

  /** When both queues hold an item the code as written does what was intended. */
  lemma AsWrittenAgreesWhenBothQueued(p1: Packet, p2: Packet)
    ensures ReadSerialDataAsWritten(Some(p1), Some(p2)) == ReadSerialData(Some(p1), Some(p2))
  {
  }

  /** In the intended reading each channel's post depends on its own queue only. */
  lemma ChannelsIndependent(q1: Option<Packet>, q1': Option<Packet>, q2: Option<Packet>, q2': Option<Packet>)
    ensures ReadSerialData(q1, q2).feed1 == ReadSerialData(q1, q2').feed1
    ensures ReadSerialData(q1, q2).feed2 == ReadSerialData(q1', q2).feed2
  {
  }

  // ---------------------------------------------------------------------
  // The window class

  class PlottingDataMonitor {
    var monitorActive: bool
    var comMonitor: bool
    var comMonitor2: bool
    var startEnabled: bool
    var stopEnabled: bool
    var ballX: real
    var ballY: real
    var showOneItem: bool
    var winner: Option<string>

    function State(): Session
      reads this
    {
      Session(monitorActive, comMonitor, comMonitor2, startEnabled, stopEnabled,
              ballX, ballY, showOneItem, winner)
    }

    predicate Valid()
      reads this
    {
      Consistent(State())
    }

    constructor ()
      ensures Valid() && State() == Initial()
    {
      monitorActive := false;
      comMonitor := false;
      comMonitor2 := false;
      ballX, ballY := 0.0, 0.0;
      showOneItem := false;
      winner := None;
      startEnabled := true;
      stopEnabled := false;
    }

    method SetActionsEnableState()
      modifies this
      ensures State() == ActionsUpdated(old(State()))
    {
      startEnabled := !monitorActive;
      stopEnabled := monitorActive;
    }

    method OnStop()
      requires Valid()
      modifies this
      ensures Valid() && State() == Stopped(old(State()))
    {
      if comMonitor {
        comMonitor := false;
      }
      monitorActive := false;
      SetActionsEnableState();
    }

    method OnStart(connected1: bool, connected2: bool)
      requires Valid()
      modifies this
      ensures Valid() && State() == Started(old(State()), connected1, connected2)
    {
      if comMonitor {
        return;
      }
      comMonitor := true;
      comMonitor2 := true;
      if !connected1 {
        comMonitor := false;
      }
      if !connected2 {
        comMonitor2 := false;
      }
      monitorActive := true;
      SetActionsEnableState();
    }

    method UpdateMonitor(w1: Option<Window>, w2: Option<Window>)
      requires Valid()
      requires w1.Some? ==> ChannelInput(w1.value)
      requires w2.Some? ==> ChannelInput(w2.value)
      modifies this
      ensures Valid() && State() == Ticked(old(State()), w1, w2)
    {
      var update1, update2 := false, false;
      var power1, power2 := 0.0, 0.0;
      var n := 0;
      if w1.Some? {
        n := w1.value.n;
        power1 := ChannelPower(w1.value);
        update1 := true;
      }
      if w2.Some? {
        n := w2.value.n;
        power2 := ChannelPower(w2.value);
        update2 := true;
      }
      if update1 && update2 {
        if n > WarmUpSamples {
          ballX := ballX + (power2 - power1) * TuningFactor;
          ballY := ballY + 0.0;
        } else {
          ballX := 0.0;
          ballY := 0.0;
        }
        if Abs(ballX) > GoalDistance && !showOneItem {
          winner := Some(if ballX < 0.0 then NegativeWinner else PositiveWinner);
          showOneItem := true;
          OnStop();
        }
      }
    }
  }
}
