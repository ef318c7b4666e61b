# Macro recorder: session, capture buffer and playback loop

A Dafny model of the core of `MacroRecorder` in `AUTO_FLOW_SKETCH.py`, a
mouse-and-keyboard macro recorder. The window, listeners and controllers are
stripped away. Three sequential pieces remain:

- the session flags `is_recording` and `is_playing`, guarded by
  `start_recording`, `stop_recording`, `toggle_recording`, `start_playback`
  and `on_close`;
- the event buffer, emptied when a recording starts and appended to by the
  five listener callbacks while recording, with every F8 key event dropped;
- the playback loop, which walks the stored events in order, checks before
  each one whether playback was cancelled, sleeps until the event is due and
  makes one controller call per event, swallowing controller errors, and
  finally lowers the playing flag.

Files:

- `events.dfy` (module `Events`): keys, buttons, the five event variants, the
  callback arguments (`Input`), the controller calls (`Action`), `Stamp` (what
  a callback stores) and `ActionOf` (what playback does with a stored event).
- `session.dfy` (module `Session`): the session as a value (`State`), one
  function per entry point, `Run` over a sequence of calls, and the lemmas
  that relate several calls.
- `playback.dfy` (module `Playback`): the specification of the playback loop.
  `Moment` is what the rest of the world does during one iteration: another
  thread clearing the playing flag, the clock reading, and whether the
  controller accepts its call. `Trace` gives the sleeps and calls made for a
  run of events. `StopIndex` gives how many iterations pass the cancellation
  check.
- `recorder.dfy` (module `Recorder`): the class `MacroRecorder`. It has the
  source's fields and one method per entry point. The field `trace` records
  every sleep and controller call. Each method's postcondition ties the new
  fields to the matching `Session` function of the old ones. `PlaybackLoop`
  is a `while` loop with the source's `break`, proved against `Playback.Trace`
  and `Playback.StopIndex`.

Time is counted in integer ticks of an abstract clock. Every clock reading
(`time.time()`) is a parameter of the method that takes it.

Facts about the code that shape the model:

- `start_recording` checks only the playing flag. A direct call during a
  recording restarts it with an empty buffer
  (`Session.StartRecordingResets`). Such a restart also starts a second
  pair of listeners (lines 80-90) while the first pair keeps running, and
  `stop_recording` stops only the newest pair (lines 101-104), so every
  input would then be appended twice. The model does not capture this,
  because the listeners are left out. The window never takes this path: it
  only reaches `start_recording` through `toggle_recording`, which stops a
  running recording instead.
- The loop checks for cancellation only at the top of each iteration,
  before the wait. The loop's code still dispatches an event whose wait
  has begun, and the sleep cannot be interrupted.
- `AUTO_FLOW_SKETCH.py` has no speed factor, no looping and no
  stop-playback command.
  `stop_recording` returns nothing.
- A listener that fails to start is not handled.
- The code also produces notifications for the window:
  - the recorded count in the status text (line 97);
  - a time-and-label row for each click and key press (lines 115 and 129);
  - the `finish_playback` callback after playback (line 186).

  They are presentation and are left out (see below).

## Model

| member | source | states |
|---|---|---|
| Events.Stamp | AUTO_FLOW_SKETCH.py:106-136 | a stored event carries the time it was given, and is an F8 key event exactly when the callback's input was an F8 press or release |
| Events.StampRoundTrip | AUTO_FLOW_SKETCH.py:106-136 | a stored event keeps exactly the callback's arguments: un-stamping gives back the input, and re-stamping gives back the event |
| Events.ActionOf | AUTO_FLOW_SKETCH.py:169-181 | the call made for an event, performed with the pointer where a click or scroll was captured, is reported by the listeners as exactly the input the event was stored from; facts proved about it are in `ReplayReproducesInput` and `ScrollIgnoresStoredPosition` |
| Events.ReplayReproducesInput | AUTO_FLOW_SKETCH.py:167-181 | the controller call made for an event, performed with the pointer where a click or scroll was captured, is reported by the listeners as the input the event was recorded from |
| Events.ScrollIgnoresStoredPosition | AUTO_FLOW_SKETCH.py:176-177 | a scroll is replayed as `scroll(dx, dy)`; its stored time and position do not affect the call |
| Session.StartRecording | AUTO_FLOW_SKETCH.py:66-77 | keeps the flags exclusive and leaves the playing flag alone; afterwards it is recording exactly when it was recording or not playing |
| Session.StopRecording | AUTO_FLOW_SKETCH.py:92-96 | afterwards it is not recording; the buffer, epoch and playing flag are kept |
| Session.ToggleRecording | AUTO_FLOW_SKETCH.py:60-64 | keeps the flags exclusive; afterwards it is recording exactly when it was neither recording nor playing; the playing flag is kept |
| Session.StartPlayback | AUTO_FLOW_SKETCH.py:142-146 | keeps the flags exclusive; afterwards it is playing exactly when it was playing, or was not recording and had events; the buffer, epoch and recording flag are kept |
| Session.FinishPlayback | AUTO_FLOW_SKETCH.py:185 | afterwards it is not playing; the buffer, epoch and recording flag are kept |
| Session.Close | AUTO_FLOW_SKETCH.py:193-195 | afterwards both flags are down; the buffer and epoch are kept |
| Session.Capture | AUTO_FLOW_SKETCH.py:106-136 | flags and epoch are kept; the old buffer is a prefix of the new one, which is longer by exactly one event when recording and the input is not F8, and otherwise equal; a buffer free of F8 key events stays free of them |
| Session.ApplyKeepsExclusive | AUTO_FLOW_SKETCH.py:60-195 | every entry point keeps recording and playing from both being true |
| Session.RunKeepsExclusive | AUTO_FLOW_SKETCH.py:60-195 | from a state with at most one flag up, no sequence of entry-point calls ever raises both |
| Session.StartPlaybackGuard | AUTO_FLOW_SKETCH.py:142-146 | `start_playback` changes nothing while recording, while playing or with an empty buffer; otherwise it raises only the playing flag and leaves the events and epoch unchanged |
| Session.StopRecordingIdempotent | AUTO_FLOW_SKETCH.py:92-96 | `stop_recording` is a no-op when not recording, so a second stop changes nothing; a stop lowers the recording flag and keeps the buffer, epoch and playing flag |
| Session.StartRecordingResets | AUTO_FLOW_SKETCH.py:66-77 | `start_recording` is a no-op while playing; otherwise the buffer is empty, the recording flag is up and the epoch is the call's clock reading, even when a recording was in progress |
| Session.ToggleDispatch | AUTO_FLOW_SKETCH.py:60-64 | `toggle_recording` is `stop_recording` when recording and `start_recording` otherwise; two toggles from idle leave an empty, stopped recording |
| Session.CaptureAppends | AUTO_FLOW_SKETCH.py:106-136 | a callback while recording appends exactly one event at the end, with time `now - start_time`, keeping earlier events; an F8 key event or any input while not recording changes nothing; no callback touches the flags or epoch |
| Session.CaptureInCallOrder | AUTO_FLOW_SKETCH.py:106-136 | while recording, a run of callbacks appends exactly the reference recording of them (call order, F8 dropped, each stamped from the epoch) and changes nothing else |
| Session.RecordThenStop | AUTO_FLOW_SKETCH.py:66-104 | start, callbacks, stop leaves exactly the reference recording of the callbacks with the start's clock reading as epoch and both flags down |
| Session.RecordedHasNoHotkey | AUTO_FLOW_SKETCH.py:122-136 | a recording never holds a press or release of F8 |
| Session.RunNeverStoresHotkey | AUTO_FLOW_SKETCH.py:122-136 | once the buffer holds no F8 key event, no sequence of entry-point calls stores one |
| Playback.Delay | AUTO_FLOW_SKETCH.py:161-165 | the sleep before an event is never negative and never ends before `start + event.time`; when positive it ends exactly at that target |
| Playback.StepFor | AUTO_FLOW_SKETCH.py:161-181 | one iteration makes the event's call and reports the controller's outcome; its wait is never negative, never ends before `start + event.time`, and when positive ends exactly there |
| Playback.Trace | AUTO_FLOW_SKETCH.py:157-183 | a run over the events makes exactly one step per event |
| Playback.StopIndex | AUTO_FLOW_SKETCH.py:157-159 | the iterations that pass the check are exactly those before the first one whose check sees the playing flag down; all of them if none does |
| Playback.TraceAt | AUTO_FLOW_SKETCH.py:157-183 | step `i` waits for, and makes the call of, stored event `i`, with what the world does in iteration `i` |
| Playback.TraceDispatchesInOrder | AUTO_FLOW_SKETCH.py:157-181 | the calls made are the calls of the stored events, each once, in stored index order |
| Playback.TracePrefix | AUTO_FLOW_SKETCH.py:157-159 | stopping after `k` events gives the first `k` steps of the full run |
| Playback.DispatchedPrefix | AUTO_FLOW_SKETCH.py:157-181 | stopping after `k` events hands the controllers the first `k` calls of the whole stored sequence |
| Playback.DispatchNotBeforeTarget | AUTO_FLOW_SKETCH.py:161-165 | every event is dispatched no earlier than `start + event.time`, and a sleep wakes exactly at it |
| Playback.InjectorFailureDoesNotStop | AUTO_FLOW_SKETCH.py:168-183 | whatever the controller accepts or refuses, the same calls are made in the same order with the same waits |
| Playback.StopIndexAtLeast | AUTO_FLOW_SKETCH.py:157-159 | the loop gets past every check that precedes the first cancellation it sees |
| Playback.StopIndexUnique | AUTO_FLOW_SKETCH.py:157-159 | the number of iterations that pass the check is determined by the first check that sees the flag down |
| Playback.NoCancelDispatchesAll | AUTO_FLOW_SKETCH.py:157-159 | if the playing flag stays up, every stored event is dispatched |
| Playback.CancelSeenAt | AUTO_FLOW_SKETCH.py:157-159 | if the check of iteration `k` is the first to see the flag down, exactly the first `k` events are dispatched |
| Playback.NotPlayingDispatchesNothing | AUTO_FLOW_SKETCH.py:157-159 | a loop whose first check sees the flag down dispatches nothing |
| Playback.CancelDuringWaitStillDispatches | AUTO_FLOW_SKETCH.py:157-165 | a cancellation that arrives during the wait for event `i`, and so is first seen by the check of iteration `i + 1`, stops playback after exactly `i + 1` events, the last of them event `i` with its wait and call |
| Recorder.MacroRecorder.constructor | AUTO_FLOW_SKETCH.py:16-19 | a new recorder has an empty buffer, epoch 0, both flags down and has made no calls |
| Recorder.MacroRecorder.ToggleRecording | AUTO_FLOW_SKETCH.py:60-64 | the new state is `Session.ToggleRecording` of the old; the invariant holds |
| Recorder.MacroRecorder.StartRecording | AUTO_FLOW_SKETCH.py:66-77 | the new state is `Session.StartRecording` of the old; the invariant holds |
| Recorder.MacroRecorder.StopRecording | AUTO_FLOW_SKETCH.py:92-96 | the new state is `Session.StopRecording` of the old; only the recording flag may change |
| Recorder.MacroRecorder.OnMove | AUTO_FLOW_SKETCH.py:106-109 | the new state is `Session.Capture` of a move; only the buffer may change |
| Recorder.MacroRecorder.OnClick | AUTO_FLOW_SKETCH.py:111-114 | the new state is `Session.Capture` of a click; only the buffer may change |
| Recorder.MacroRecorder.OnScroll | AUTO_FLOW_SKETCH.py:117-120 | the new state is `Session.Capture` of a scroll; only the buffer may change |
| Recorder.MacroRecorder.OnPress | AUTO_FLOW_SKETCH.py:122-129 | the new state is `Session.Capture` of a key press, so F8 is dropped; only the buffer may change |
| Recorder.MacroRecorder.OnRelease | AUTO_FLOW_SKETCH.py:131-136 | the new state is `Session.Capture` of a key release, so F8 is dropped; only the buffer may change |
| Recorder.MacroRecorder.StartPlayback | AUTO_FLOW_SKETCH.py:142-146 | the new state is `Session.StartPlayback` of the old; only the playing flag may change |
| Recorder.MacroRecorder.PlaybackLoop | AUTO_FLOW_SKETCH.py:154-185 | the calls made are exactly `Trace` of the events before the first iteration whose check sees the flag down; afterwards the playing flag is down and nothing else in the session has changed |
| Recorder.MacroRecorder.Close | AUTO_FLOW_SKETCH.py:193-195 | both flags are down afterwards; the buffer and epoch are unchanged |

## Left out

- The tkinter window: widgets, status text, button states, the event list
  view, `update_tree_view`, `root.after` and `finish_playback`. These are
  presentation only.
- The pynput mouse and keyboard listeners, their start and stop in
  `start_recording` and `stop_recording`, the global hotkey listener, and
  the controllers. These are calls into the operating system. The model's
  callers call the capture methods directly, and the controllers appear
  only as the calls recorded in `trace`.
- Threads and the data races between the listener threads, the hotkey
  thread and the playback thread. The loop is one sequential method. In
  this code the only thing that clears `is_playing` while the loop runs is
  `on_close` (line 195), so the per-iteration `cancelRequested` reading
  stands for the window being closed. Once
  that reading clears the flag, the model keeps it down until the loop
  ends; a playback restarted by another thread in the middle of the loop is
  not modelled.
- Process exit after the window closes. `on_close` calls `root.destroy()`
  (line 198), `root.mainloop()` (line 204) then returns and the process
  ends, which kills the playback thread because it is a daemon thread
  (line 152). A playback cancelled by closing the window therefore
  normally dies inside its sleep, and the model does not capture this.
  `Playback.CancelSeenAt` and `Playback.CancelDuringWaitStillDispatches`
  describe the loop's code (lines 157-165), not what a user sees after
  closing the window.
- The loop iterates over a snapshot of the buffer. This matches Python's
  `for`, which keeps the old list even when `start_recording` rebinds
  `self.events`. Appends to that same list during playback cannot happen,
  because capture needs the recording flag.
- Recorder.MacroRecorder.PlaybackLoop: requires one `Moment` per stored
  event. This is an artefact of supplying the world's behaviour as a
  parameter, not a demand of the source.
- The floating-point wall clock `time.time()` and `time.sleep`. These are
  replaced by integer ticks, and the sleep by the `wait` of each step.
  Clock drift during a sleep or a controller call shows up only through
  the next clock reading.
- The text of an error printed when the controller refuses a call, and the
  `__main__` start-up. These are I/O.
- Key identity is modelled as structural equality on `Key`. F8 is the
  special key named "f8", in place of pynput's `Key.f8`.
