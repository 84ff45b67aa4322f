# Frequency analyzer view and image example, modelled in Dafny

This project models two pieces of handheld-device firmware.

The first is the frequency analyzer view of the sub-GHz application. A
sampling worker calls the view's pair callback with a frequency, an RSSI and a
signal flag. The view tracks a sticky `locked` flag. On every lock and unlock
transition it notifies its parent scene through a callback, if one is set. On
each unlock it shifts the frequency held until then into a three-slot history.
The `enter` and `exit` hooks and the allocator reset parts of the view model.
The input callback passes Back on and consumes every other key. The draw
callback shows an RSSI bar, the three history rows and the current frequency.

The second is the image example application. Its event loop moves a picture by
two pixels per arrow key on an 8-bit position, ends on any other key, and draws
the picture at the position reduced to the 128x64 screen.

Modules:

- `Ints` (ints.dfy): `u8` and `u32` as integer ranges.
- `InputEvents` (input_events.dfy): keys, event types and input events.
- `FrequencyAnalyzer` (frequency_analyzer.dfy): the controller and its view
  model as classes updated in place. Beside them are specification functions
  (`PairEvents`, `PairStep`, `Entered`, `Exited`) over a value `Snapshot` of
  the whole controller. The class methods are proved against those functions.
  `events` is a ghost log of the notifications sent to the parent scene.
- `AnalyzerRuns` (analyzer_runs.dfy): properties over a whole stream of samples.
- `AnalyzerDraw` (analyzer_draw.dfy): the bar loop, the digit split and the
  history rows.
- `ExampleImages` (example_images.dfy): the key dispatch as a function `Step`,
  the event loop as a method over the static position object, and the draw
  clamp.

Modelling choices:

- The RSSI is a `real`. The state machine only compares it with zero.
- Each `with_view_model` block is one atomic update of the model.
- The allocator leaves `locked`, the callback and every model field but `rssi`
  uninitialised. `Analyzer.Alloc` therefore takes their initial values as
  parameters instead of assuming false, null or zero.
- The bar's loop bound `(uint8_t)((rssi + 90) / 3)` is a float computation. The
  draw methods take it as a `u8` parameter `s`.
- The image event loop blocks on its queue forever. The model takes a finite
  sequence of polls, where a timeout is a poll with no event. The loop stops
  when an event ends it or when that sequence is used up.

The bar loop's condition `i < s` is strict, so the bound itself is never
drawn. For a bound of 10 the columns are 1, 2, 3, 5, 6, 7 and 9
(`AnalyzerDraw.DrawnColumnsForTen`). `locked` is never initialised by the
allocator, and `enter` does not reset it either (see
`FrequencyAnalyzer.ReenterWhileLocked`).

## Model

| member | source | states |
|---|---|---|
| `FrequencyAnalyzer.PairEvents` | applications/main/subghz/views/subghz_frequency_analyzer.c:129-145 | a Lock notification is sent exactly when a callback is set, the RSSI is non-zero and the view was unlocked; an Unlock exactly when a callback is set, the RSSI is zero and the view was locked; nothing otherwise, and nothing at all without a callback |
| `FrequencyAnalyzer.PairStep` | applications/main/subghz/views/subghz_frequency_analyzer.c:129-154 | the controller after one pair callback; its history changes only when the view was locked and the RSSI is zero |
| `FrequencyAnalyzer.PairStepEffect` | applications/main/subghz/views/subghz_frequency_analyzer.c:129-154 | after any pair callback `locked` is whether the RSSI was non-zero and the model holds the incoming rssi, frequency and signal; whenever the view was locked and the RSSI is zero, the history becomes `[previous frequency, h[0], h[1]]` (dropping `h[2]` and not recording the incoming frequency), whether or not a callback is set; otherwise the history is unchanged |
| `FrequencyAnalyzer.LifecycleResets` | applications/main/subghz/views/subghz_frequency_analyzer.c:171-196 | `enter` zeroes rssi, frequency and all three history slots and keeps `signal` and `locked`; `exit` zeroes only rssi; enter then exit leaves an empty history and no RSSI |
| `FrequencyAnalyzer.ReenterWhileLocked` | applications/main/subghz/views/subghz_frequency_analyzer.c:129-140 | since neither `exit` nor `enter` resets `locked`, a view left while locked sends Unlock on the first zero-RSSI sample after re-entering, and the history stays empty |
| `FrequencyAnalyzer.Input` | applications/main/subghz/views/subghz_frequency_analyzer.c:113-121 | the event is not handled exactly when its key is Back |
| `FrequencyAnalyzer.ViewModel.constructor` | applications/main/subghz/views/subghz_frequency_analyzer.c:204-205 | a freshly allocated view model with a fresh three-slot history holds the given initial contents |
| `FrequencyAnalyzer.Analyzer.Alloc` | applications/main/subghz/views/subghz_frequency_analyzer.c:199-219 | allocation clears only the model's rssi; `locked`, the callback and the other model fields keep their unspecified initial values; no notification has been sent |
| `FrequencyAnalyzer.Analyzer.SetCallback` | applications/main/subghz/views/subghz_frequency_analyzer.c:32-40 | registering the callback sets it and changes nothing else |
| `FrequencyAnalyzer.Analyzer.PairCallback` | applications/main/subghz/views/subghz_frequency_analyzer.c:123-155 | the in-place update, field by field and slot by slot, leaves the controller in `PairStep` of its old state and appends exactly `PairEvents` to the notification log |
| `FrequencyAnalyzer.Analyzer.Enter` | applications/main/subghz/views/subghz_frequency_analyzer.c:171-179 | the new state is `Entered` of the old one; no notification |
| `FrequencyAnalyzer.Analyzer.Exit` | applications/main/subghz/views/subghz_frequency_analyzer.c:192-196 | the new state is `Exited` of the old one; the history array is untouched; no notification |
| `AnalyzerRuns.RunEvents` | applications/main/subghz/views/subghz_frequency_analyzer.c:129-145 | the notifications over a stream of samples, in order; at most one per sample |
| `AnalyzerRuns.RunTracksLastSample` | applications/main/subghz/views/subghz_frequency_analyzer.c:147-154 | after any non-empty stream of samples, `locked` is whether the last sample's RSSI was non-zero, and the model holds the last sample |
| `AnalyzerRuns.RunKeepsCallback` | applications/main/subghz/views/subghz_frequency_analyzer.c:123-155 | pair callbacks never change whether a callback is set |
| `AnalyzerRuns.NoCallbackNoEvents` | applications/main/subghz/views/subghz_frequency_analyzer.c:130-144 | with no callback set, no stream of samples sends any notification |
| `AnalyzerRuns.EventsAlternate` | applications/main/subghz/views/subghz_frequency_analyzer.c:129-147 | with a callback, notifications alternate between Lock and Unlock; the first is Lock iff the view started unlocked; the last is Lock iff the view ends locked; with no notification the lock state is unchanged |
| `AnalyzerRuns.HistoryRecordsUnlocks` | applications/main/subghz/views/subghz_frequency_analyzer.c:129-140 | after any stream, the history is the three most recent frequencies recorded at unlock transitions, newest first, topped up from the starting history; a frequency is recorded at each zero-RSSI sample that follows a non-zero one (or a locked start), and it is the frequency held before that sample |
| `AnalyzerRuns.LockThenUnlock` | applications/main/subghz/views/subghz_frequency_analyzer.c:129-154 | from an unlocked view with an empty history, samples (100 MHz, -80) then (100 MHz, 0) send Lock then Unlock, leave the view unlocked and the history `[100000000, 0, 0]` |
| `AnalyzerRuns.ThreeCycles` | applications/main/subghz/views/subghz_frequency_analyzer.c:134-140 | three lock/unlock cycles on f1, f2, f3 leave the history `[f3, f2, f1]` from any starting state, whatever frequency the zero-RSSI samples carry |
| `AnalyzerDraw.DrawnColumnsSpec` | applications/main/subghz/views/subghz_frequency_analyzer.c:48-53 | the bar draws column `i` exactly when `1 <= i < s`, `i <= 20` and `i` is not a multiple of 4, in ascending order, so at most 15 columns |
| `AnalyzerDraw.DrawnColumnsForTen` | applications/main/subghz/views/subghz_frequency_analyzer.c:48-53 | a bound of 10 draws columns 1, 2, 3, 5, 6, 7, 9 |
| `AnalyzerDraw.DrawRssi` | applications/main/subghz/views/subghz_frequency_analyzer.c:42-56 | nothing is drawn when rssi is 0; otherwise the k-th drawn box sits at column `20 + 2i` for the k-th drawn index i, has top `64 - k` and height `4 + k`; at most 15 boxes, left to right, each one pixel taller than the last |
| `AnalyzerDraw.Pad3` | applications/main/subghz/views/subghz_frequency_analyzer.c:71 | `%03ld` of a value below 1000 is three decimal digits |
| `AnalyzerDraw.Pad3RoundTrip` | applications/main/subghz/views/subghz_frequency_analyzer.c:71 | the three digits spell the value back |
| `AnalyzerDraw.DisplayGroups` | applications/main/subghz/views/subghz_frequency_analyzer.c:72-73 | the MHz group `f / 1000000 % 1000` and the kHz group `f / 1000 % 1000` both lie in [0, 1000), and below 1 GHz they give back the frequency truncated to whole kHz |
| `AnalyzerDraw.FrequencyText` | applications/main/subghz/views/subghz_frequency_analyzer.c:97-102 | the read-out is seven characters: three decimal digits, a dot, three decimal digits; the two digit triples spell the MHz and kHz groups |
| `AnalyzerDraw.HistoryRowText` | applications/main/subghz/views/subghz_frequency_analyzer.c:67-76 | a row is the placeholder `---.---` exactly when its slot is 0, and the formatted frequency otherwise |
| `AnalyzerDraw.HistoryRows` | applications/main/subghz/views/subghz_frequency_analyzer.c:66-79 | the loop produces one row per history slot, in slot order |
| `AnalyzerDraw.Draw` | applications/main/subghz/views/subghz_frequency_analyzer.c:83-111 | the screen holds the RSSI bar, the three history rows and the formatted current frequency (even when it is 0), highlighted exactly when `signal` is set |
| `ExampleImages.Minus2` | applications/examples/example_images/example_images.c:51 | `x -= 2` on a uint8_t subtracts 2, wrapping 0 and 1 to 254 and 255 |
| `ExampleImages.Plus2` | applications/examples/example_images/example_images.c:54 | `x += 2` on a uint8_t adds 2, wrapping 254 and 255 to 0 and 1 |
| `ExampleImages.StepsCancel` | applications/examples/example_images/example_images.c:51-60 | the two 8-bit steps are inverse to each other |
| `ExampleImages.Step` | applications/examples/example_images/example_images.c:48-66 | the key dispatch for one event: the loop keeps running exactly when it was running and the event is not a quitting press or repeat; a quitting or ignored event leaves the position; only Left/Right change x and only Up/Down change y |
| `ExampleImages.StepEffect` | applications/examples/example_images/example_images.c:48-66 | on a press or repeat, Left/Right move x by -2/+2 and Up/Down move y by -2/+2 modulo 256, leaving the other coordinate and `running` alone; any other key clears `running` and leaves the position; other event types change nothing |
| `ExampleImages.OppositeStepsRestore` | applications/examples/example_images/example_images.c:48-61 | Left then Right, Right then Left, Up then Down and Down then Up restore the state |
| `ExampleImages.StepsAccumulate` | applications/examples/example_images/example_images.c:46-67 | after any polls the position is the start plus the net displacement modulo 256 on each axis, and the loop still runs iff it ran and no poll delivered a non-arrow press or repeat |
| `ExampleImages.DrawOrigin` | applications/examples/example_images/example_images.c:20 | the drawn coordinates lie in [0, 128) x [0, 64) and differ from the position by whole screen widths and heights |
| `ExampleImages.ImagePosition.constructor` | applications/examples/example_images/example_images.c:13 | the static position starts at (0, 0) |
| `ExampleImages.EventLoop` | applications/examples/example_images/example_images.c:45-69 | the in-place loop leaves the position and `running` equal to `Steps` over the polls it took; it stops at the first quitting event (no earlier poll quits), and otherwise takes the whole queue without meeting one |

## Left out

- Canvas drawing: fonts, colours, icons, the title and label strings and their coordinates. These are calls into the GUI framework. Only the integer logic behind them is modelled.
- The `snprintf` buffer handling. Only the `%03ld.%03ld` text of the two digit groups is modelled.
- The frequency analyzer worker (allocation, start, stop, running check, free). It runs on its own thread, and its code is not part of this model. `enter` and `exit` are modelled only by their effect on the view model.
- The view-model lock and any interleaving between the worker thread and the redraw path. Each `with_view_model` block is one sequential update.
- The float computation `(rssi + 90) / 3` and its `uint8_t` cast. The truncated bound is a parameter `s`.
- Float special values: a NaN RSSI and the sign of zero are not modelled. The RSSI is a real.
- The context pointer passed to the parent's callback, and the callback's own behaviour. Notifications are recorded in a ghost log.
- `view_alloc`, `view_free`, callback registration with the view, `subghz_frequency_analyzer_free` and `subghz_frequency_analyzer_get_view`. These are framework plumbing.
- The `furi_assert` checks on non-null pointers. A null pointer cannot occur in the model.
- In the image example: the message queue, view port, GUI record, the 100 ms wait, `view_port_update` and teardown. These are I/O and framework calls. The queue is a finite sequence of polls.
- ExampleImages.EventLoop: ends when its finite queue is used up, whereas the firmware's loop waits for further events forever.
