# EEG-Mindball monitor windows, modelled in Dafny

EEG-Mindball is a biofeedback game. One or two EEG amplifiers stream 8-byte
packets over serial ports. A Qt window drains them into a live feed, takes a
spectrum of the signal and moves a ball across a football arena until a goal
decides the winner. This project models the session and arena state machine
of the two `PlottingDataMonitor` windows:

- `plotting_data_monitor_1eeg.py` (module `OneEeg`) is the single-player game.
  A tick whose window holds 1000 or 1001 samples folds the window's spectrum
  into a running spectrum. A larger window gives a longer spectrum, and numpy
  rejects the addition, so that tick changes nothing. While `playing`, such a
  tick also pushes the ball right by the band power between 4 and 13 Hz,
  times the tuning factor 0.1. The ball also jitters and is damped along y.
  The first crossing of |x| > 1 announces `limegreen`.
- `plotting_data_monitor_2eeg.py` (module `TwoEeg`) is the head-to-head game. On a
  tick where both feeds have a new list and channel 2's list holds more than
  999 samples, x moves by p2 - p1, the difference of the two channels' band
  powers between 0.1 and 3 Hz (tuning factor 1). On earlier such ticks the
  ball is put back at (0, 0). The first time |x| > 0.1, the player on that
  side wins.

Each module has three parts:
- a `Session` datatype (a snapshot of the window's fields) and `Consistent`,
  the invariant every reachable session keeps;
- pure functions that specify each operation, with lemmas about them;
- a class `PlottingDataMonitor` whose methods change those fields step by step,
  each proved to end in the state its specification function gives.

`Spectra` holds the real-valued array arithmetic both files use: totals,
normalisation and band power with a strict open band. `Samples` holds the
queue items and feed samples that `read_serial_data` passes along.

Inputs the model takes as given:
- The FFT stage's outputs: the sample count, the frequency axis and the
  magnitudes, zero-frequency bin included.
- The random y jitter, as a real.
- Whether each monitor thread failed to open (`connected`), as a boolean.

A serial monitor is reduced to a boolean "present". All arithmetic is over
`real`. The statements "the running spectrum sums to 1" and "the band power
lies in [0, 1]" hold in that real-number idealisation, not under floating-point
rounding.

Notes on the code:
- The band masks are strict on both ends.
- The two-channel goal distance is 0.1.
- The two-channel spectrum is divided by its total including the DC bin, so
  it does not sum to 1 (`TwoEeg.ChannelSpectrumMass`).
- The single-channel ball can only leave on the right, since x starts at 0
  and never decreases (`OneEeg.TickAdvancesX`). There is no sign test, and
  the winner is always `limegreen`.
- The single-channel running spectrum is divided by its total twice. On the
  first full window the second division divides by 1. After that, the total
  before that division is 2, so it averages the old spectrum with the new one
  (`OneEeg.RunningSpectrumAverages`).
- The two-channel "window full" test reads channel 2's sample count only.
- The two-channel decision is never reset; the single-channel one is reset
  only by `on_start` after a win.

## Model

| member | source | states |
|---|---|---|
| `Spectra.Normalize` | plotting_data_monitor_1eeg.py:359 | each entry of the result is the input's entry divided by the input's total |
| `Spectra.BandPower` | plotting_data_monitor_1eeg.py:364-365 | on a non-negative spectrum the band power lies between 0 and the spectrum's total |
| `Spectra.NormalizeIsDistribution` | plotting_data_monitor_1eeg.py:358-359 | a non-negative array with a positive total, divided by that total, has entries in [0, 1] and sums to exactly 1 |
| `Spectra.NormalizeSumsToOne` | plotting_data_monitor_1eeg.py:359 | dividing by a non-zero total gives total mass 1 |
| `Spectra.NormalizeIdempotent` | plotting_data_monitor_1eeg.py:359 | dividing an array that already sums to 1 by its total leaves it unchanged, which is what the second division does on the first full window only |
| `Spectra.BandPowerAppend` | plotting_data_monitor_2eeg.py:274 | band power adds up over a concatenation of frequency ranges |
| `Spectra.BandPowerOutside` | plotting_data_monitor_1eeg.py:364 | bins at or beyond either band edge contribute nothing, so the mask is strict on both ends |
| `Spectra.BandPowerInside` | plotting_data_monitor_2eeg.py:295 | when every bin lies strictly inside the band, the band power is the whole mass |
| `Samples.NanMean` | plotting_data_monitor_1eeg.py:395 | the mean of decoded values is NaN exactly for an empty decoding, and otherwise times the count gives the sum |
| `Samples.ToSample` | plotting_data_monitor_1eeg.py:394-395 | the posted sample carries the item's own timestamp, and its temperature is a number iff the decoding is non-empty |
| `Samples.MeanWithinBounds` | plotting_data_monitor_2eeg.py:331 | the posted temperature lies within the range of the packet's decoded values |
| `OneEeg.Initial` | plotting_data_monitor_1eeg.py:42-68 | the window starts inactive, without a monitor, not playing, with no banner, the ball at the origin and a zero running spectrum |
| `OneEeg.ActionsUpdated` | plotting_data_monitor_1eeg.py:215-222 | start is enabled iff the monitor is inactive; stop and start-arena are enabled iff it is active; nothing else changes |
| `OneEeg.Stopped` | plotting_data_monitor_1eeg.py:228-237 | afterwards there is no monitor and the window is inactive; `playing`, the ball, the curve, the banner and the spectrum are untouched |
| `OneEeg.ArenaReset` | plotting_data_monitor_1eeg.py:241-248 | clears `show_one_item` and the banner and puts the ball and its curve at (0,0); monitor state and `playing` unchanged |
| `OneEeg.SignalReset` | plotting_data_monitor_1eeg.py:250-253 | empties the feed's list and clears its flag and nothing else |
| `OneEeg.Started` | plotting_data_monitor_1eeg.py:259-287 | a no-op when a monitor is present; otherwise the window goes active even if opening failed, the monitor is present iff it opened, and the arena and feed are reset iff `show_one_item` was set |
| `OneEeg.ArenaStarted` | plotting_data_monitor_1eeg.py:317-320 | sets `playing` and puts the ball exactly at (0,0), leaving `show_one_item`, the banner and the monitor unchanged |
| `OneEeg.RunningSpectrum` | plotting_data_monitor_1eeg.py:358-359 | folding a window's spectrum into the running one keeps the running spectrum's length |
| `OneEeg.DisplayedX` | plotting_data_monitor_1eeg.py:370 | the drawn abscissa lies in [-1, 1], equals x inside that range and is the nearer end outside it |
| `OneEeg.Moved` | plotting_data_monitor_1eeg.py:367-382 | the arena step keeps the session invariant: the drawn x stays within [-1, 1], and a banner is shown iff one is set, always `limegreen` |
| `OneEeg.Displaced` | plotting_data_monitor_1eeg.py:367-373 | the motion before the goal test keeps the invariant, the drawn x in particular within [-1, 1] |
| `OneEeg.Ticked` | plotting_data_monitor_1eeg.py:326-382 | a tick keeps the session invariant. The enable flags follow `monitor_active`. The running spectrum keeps length 500, stays non-negative and sums to 0 or 1. The banner is shown iff one is set, and it is always `limegreen`. The drawn x stays within [-1, 1] |
| `OneEeg.UnusableWindowLeavesState` | plotting_data_monitor_1eeg.py:333-358 | with no updated list, fewer than nmax samples, or a spectrum whose shape differs from the running one, the whole session is unchanged |
| `OneEeg.ReadSerialData` | plotting_data_monitor_1eeg.py:391-396 | an empty drain posts nothing; otherwise the post is the last item's sample with that item's timestamp |
| `OneEeg.RunningSpectrumIsDistribution` | plotting_data_monitor_1eeg.py:353-359 | after a full window the running spectrum is non-negative and sums to exactly 1, starting from zeros or from a previous distribution |
| `OneEeg.OnlyLastPacketCounts` | plotting_data_monitor_1eeg.py:391-396 | items drained before the last one do not affect what is posted |
| `OneEeg.BandPowerInUnit` | plotting_data_monitor_1eeg.py:364-365 | on the running spectrum the band power lies in [0, 1] |
| `OneEeg.TickAdvancesX` | plotting_data_monitor_1eeg.py:363-367 | a tick never decreases x and raises it by at most the tuning factor; while playing on a full window of the right shape it adds exactly band power times 0.1 |
| `OneEeg.TickMovesOnlyWhilePlaying` | plotting_data_monitor_1eeg.py:363 | without `playing` or without a full window, the ball, the curve, the banner, `playing` and the monitor are unchanged |
| `OneEeg.TickDampsY` | plotting_data_monitor_1eeg.py:367-373 | y takes the jitter and is scaled by 0.6 iff \|y\| > 0.7 (1.1 - \|x\|); the curve shows the clamped x and the undamped y |
| `OneEeg.TickDecidesOnce` | plotting_data_monitor_1eeg.py:374-382 | a decision happens only on \|x\| > 1 with no banner; it announces `limegreen`, clears `playing` and stops the monitor. A playing tick on a usable full window that announces nothing leaves \|x\| <= 1. A banner once up is never replaced by a tick |
| `OneEeg.MoveDecides` | plotting_data_monitor_1eeg.py:374-382 | a move that takes \|x\| past 1 with no banner announces `limegreen`, clears `playing` and stops the monitor; any other move is the displacement alone |
| `OneEeg.TickAccumulates` | plotting_data_monitor_1eeg.py:353-359 | a usable full window replaces the running spectrum by the fold of its magnitudes past the DC bin, and the result sums to 1 |
| `OneEeg.RunningSpectrumFromZeros` | plotting_data_monitor_1eeg.py:358-359 | on the first full window, with the running spectrum all zeros, the fold is the window's own normalised spectrum |
| `OneEeg.RunningSpectrumAverages` | plotting_data_monitor_1eeg.py:358-359 | from a running spectrum summing to 1, the total before the second division is 2, and each new entry is the average of the old entry and the window's normalised one |
| `OneEeg.AtMostOneDecisionBetweenStarts` | plotting_data_monitor_1eeg.py:374-382 | over any run of stops, arena starts and ticks with no `on_start`, at most one winner is announced, and none when a banner is already up |
| `OneEeg.IdleTicksKeepBall` | plotting_data_monitor_1eeg.py:363 | after a decision, ticks leave the ball and banner unchanged until `on_arena` |
| `OneEeg.PlottingDataMonitor.constructor` | plotting_data_monitor_1eeg.py:42-68 | builds the initial session with the invariant |
| `OneEeg.PlottingDataMonitor.SetActionsEnableState` | plotting_data_monitor_1eeg.py:215-222 | sets the three enable flags from `monitor_active` |
| `OneEeg.PlottingDataMonitor.OnStop` | plotting_data_monitor_1eeg.py:228-237 | the new state is `Stopped` of the old one |
| `OneEeg.PlottingDataMonitor.ResetArena` | plotting_data_monitor_1eeg.py:241-248 | the new state is `ArenaReset` of the old one |
| `OneEeg.PlottingDataMonitor.ResetSignal` | plotting_data_monitor_1eeg.py:250-253 | the new state is `SignalReset` of the old one |
| `OneEeg.PlottingDataMonitor.OnStart` | plotting_data_monitor_1eeg.py:259-287 | the new state is `Started` of the old one |
| `OneEeg.PlottingDataMonitor.OnArena` | plotting_data_monitor_1eeg.py:317-320 | the new state is `ArenaStarted` of the old one |
| `OneEeg.PlottingDataMonitor.UpdateMonitor` | plotting_data_monitor_1eeg.py:326-382 | the new state is `Ticked` of the old one, and the invariant is kept |
| `OneEeg.PlottingDataMonitor.MoveBall` | plotting_data_monitor_1eeg.py:367-382 | the new state is `Moved` of the old one |
| `OneEeg.PlottingDataMonitor.Displace` | plotting_data_monitor_1eeg.py:367-373 | the new state is `Displaced` of the old one |
| `TwoEeg.Initial` | plotting_data_monitor_2eeg.py:27-47 | the window starts inactive with neither monitor, no banner and the ball at the origin |
| `TwoEeg.ActionsUpdated` | plotting_data_monitor_2eeg.py:149-154 | start is enabled iff inactive, stop iff active; nothing else changes |
| `TwoEeg.Stopped` | plotting_data_monitor_2eeg.py:161-170 | drops only the first monitor, leaves `com_monitor2` and the game untouched, and goes inactive |
| `TwoEeg.Started` | plotting_data_monitor_2eeg.py:174-211 | a no-op when the first monitor is present; otherwise both monitors are present iff they opened, and the window goes active either way |
| `TwoEeg.ChannelSpectrum` | plotting_data_monitor_2eeg.py:268-269 | each entry is a non-DC magnitude divided by the total including the DC bin |
| `TwoEeg.ChannelPower` | plotting_data_monitor_2eeg.py:274 | a channel's band power lies in [0, 1] |
| `TwoEeg.Ticked` | plotting_data_monitor_2eeg.py:240-314 | a tick keeps the invariant, y in particular staying 0 |
| `TwoEeg.ChannelPost` | plotting_data_monitor_2eeg.py:329-332 | an item is posted iff it is present and decodes to a non-empty array, with its own timestamp and a numeric temperature |
| `TwoEeg.ReadSerialDataAsWritten` | plotting_data_monitor_2eeg.py:326-340 | the code as written raises iff either queue is empty. An empty first queue serves neither feed. With the first queue served, the second feed gets its post iff the second queue gave an item |
| `TwoEeg.ReadSerialData` | plotting_data_monitor_2eeg.py:326-340 | as intended: each feed gets a sample iff its own queue gave a non-empty item, and it never raises |
| `TwoEeg.ChannelSpectrumInUnit` | plotting_data_monitor_2eeg.py:289-291 | every entry of a channel's spectrum lies in [0, 1] |
| `TwoEeg.ChannelSpectrumMass` | plotting_data_monitor_2eeg.py:269 | a channel's spectrum sums to 1 less the DC share, so at most 1, and exactly 1 iff the DC bin is 0 |
| `TwoEeg.TickNeedsBothChannels` | plotting_data_monitor_2eeg.py:298 | unless both channels updated, the tick changes nothing |
| `TwoEeg.WarmUpHoldsCentre` | plotting_data_monitor_2eeg.py:299-305 | while channel 2 has at most 999 samples the ball is set exactly to (0,0) whatever the powers, and no decision is made |
| `TwoEeg.FullWindowIntegrates` | plotting_data_monitor_2eeg.py:299-302 | past the warm-up x grows by (p2 - p1) times the tuning factor, y is unchanged, and x moves by at most 1 |
| `TwoEeg.WindowFullReadsChannelTwo` | plotting_data_monitor_2eeg.py:287-299 | channel 1's sample count plays no part in the tick |
| `TwoEeg.TickDecidesBySign` | plotting_data_monitor_2eeg.py:307-314 | a decision happens iff \|x\| > 0.1 with no banner; the winner is `limegreen` iff x < 0, else `Magenta`; the first monitor stops; a banner is never replaced |
| `TwoEeg.AtMostOneWinner` | plotting_data_monitor_2eeg.py:307-314 | over any run of starts, stops and ticks at most one winner is announced, and none once one was |
| `TwoEeg.EmptyFirstQueueStarvesSecond` | plotting_data_monitor_2eeg.py:326-328 | with the first queue empty the code as written raises before serving the second queue; the intended version posts the second channel's sample |
| `TwoEeg.AsWrittenAgreesWhenBothQueued` | plotting_data_monitor_2eeg.py:326-340 | when both queues hold an item, as written and as intended agree |
| `TwoEeg.ChannelsIndependent` | plotting_data_monitor_2eeg.py:329-340 | in the intended version each feed's post depends on its own queue only |
| `TwoEeg.PlottingDataMonitor.constructor` | plotting_data_monitor_2eeg.py:27-47 | builds the initial session with the invariant |
| `TwoEeg.PlottingDataMonitor.SetActionsEnableState` | plotting_data_monitor_2eeg.py:149-154 | sets the two enable flags from `monitor_active` |
| `TwoEeg.PlottingDataMonitor.OnStop` | plotting_data_monitor_2eeg.py:161-170 | the new state is `Stopped` of the old one |
| `TwoEeg.PlottingDataMonitor.OnStart` | plotting_data_monitor_2eeg.py:174-211 | the new state is `Started` of the old one |
| `TwoEeg.PlottingDataMonitor.UpdateMonitor` | plotting_data_monitor_2eeg.py:240-314 | the new state is `Ticked` of the old one, and the invariant is kept |

## Left out

- Qt and pyqtgraph presentation is not modelled: widgets, plots, menus, `create_action`/`add_actions`, window tiling, `on_about`, status texts and message boxes. Of the drawing, only the single-channel arena curve's point (`shown`) and the winner banner (`winner`) are kept, because the contracts speak of them.
- The two-channel arena curve is not modelled, because it is display only.
- `play_sound` and the random choice of a sound file are left out: audio is a host concern.
- The monitor threads, the data and error queues, `join(0.01)` and the timers are left out: this is concurrency and scheduling. A monitor is a boolean, the outcome of its error-queue poll is a parameter, and a timer tick is a method call. `timer.stop()` has no counterpart.
- `on_timer`, which moves pending feed data into the feed's list, is left out. The live feed class, `decode_output`, `get_all_from_queue` and `get_item_from_queue` are not part of this model: a queue item is given by its decoded values and timestamp. The feed is reduced to the two attributes `reset_signal` assigns, which start empty.
- Resampling, filtering and the FFT are numerics and library calls, so their outputs are inputs: a `Window` of sample count, frequency axis and magnitudes. `WellFormed` asks for at least one sample, since the code indexes the list first.
- The jitter is a real chosen by the caller, with no claim about its distribution.
- Floating-point rounding and NaN in spectra are not modelled, so sums are exact over the reals.
- OneEeg.Ticked: requires the magnitudes past the DC bin of a full window to have a positive total; a zero total would make numpy produce NaN, which the model cannot represent.
- OneEeg.PlottingDataMonitor.UpdateMonitor: carries the same positive-total requirement as `OneEeg.Ticked`.
- TwoEeg.ChannelPower: requires each channel's magnitudes, DC included, to have a positive total, for the same reason.
- TwoEeg.Ticked: requires a positive magnitude total on each channel that updated, as `TwoEeg.ChannelPower` does.
- TwoEeg.PlottingDataMonitor.UpdateMonitor: carries the same requirement as `TwoEeg.Ticked`.
- Python mutates the two-channel ball coordinates as one-element lists in place. They are plain real fields here, because the lists are never aliased.
- The feed's `updated_list` and `list_data` are only written here, by `reset_signal`. The single-channel tick's window is not tied to them: a tick on a feed with no new list is passed `None`, and what `read_list` leaves in those attributes is not modelled.
- The banner object `winner_text` stays assigned after `reset_arena` removes it from the plot. `OneEeg` models only whether a banner is shown.

## Findings

| source | as written | input that shows it | evidently intended | confidence | as-written member | corrected member |
|---|---|---|---|---|---|---|
| plotting_data_monitor_2eeg.py:326-328 | `read_serial_data` wraps the result of `get_item_from_queue` in `list(...)`. That helper returns None for an empty queue, as the single-channel window relies on at plotting_data_monitor_1eeg.py:280-281, so an empty first data queue raises a TypeError. The second channel is then never read on that tick. | a tick where the first data queue is empty and the second holds a decodable item, for example when the first monitor failed to open | serve each channel on its own, posting only when that queue gave a non-empty item, as the length guards at :329 and :337 suggest | not executed; medium — rests on the helper's None return, whose source is not part of this model | `TwoEeg.ReadSerialDataAsWritten` (shown by `TwoEeg.EmptyFirstQueueStarvesSecond`) | `TwoEeg.ReadSerialData` (with `TwoEeg.ChannelsIndependent`) |
