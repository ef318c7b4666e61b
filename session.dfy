/** The recorder's session state as a value, with one function per entry
    point of MacroRecorder (AUTO_FLOW_SKETCH.py). The class in module Recorder
    is specified by these functions; the lemmas here relate several calls. */
module Session {
  import opened Events

  /** `events` is the buffer, `epoch` the clock reading taken when the
      recording started (`start_time`), `recording` and `playing` the two
      flags. */
  datatype State = State(events: seq<Event>, epoch: int, recording: bool, playing: bool)

  /** The state the recorder is constructed in. */
  const Initial: State := State([], 0, false, false)

  /** Mutual exclusion: never recording and playing at once. */
  predicate Exclusive(s: State) {
    !(s.recording && s.playing)
  }

  /** `start_recording`: ignored while playing; otherwise empties the buffer,
      takes the epoch and raises the recording flag. It does not look at the
      recording flag, so it restarts a recording already in progress. */
  function StartRecording(s: State, now: int): (r: State)
    ensures Exclusive(s) ==> Exclusive(r)
    ensures r.playing == s.playing
    ensures r.recording <==> s.recording || !s.playing
  {
    if s.playing then s
    else s.(events := [], epoch := now, recording := true)
  }

  /** `stop_recording`: ignored unless recording; otherwise lowers the flag
      and keeps the buffer as captured. */
  function StopRecording(s: State): (r: State)
    ensures Exclusive(r) && !r.recording
    ensures r.events == s.events && r.epoch == s.epoch && r.playing == s.playing
  {
    if !s.recording then s
    else s.(recording := false)
  }

  /** `toggle_recording` (the F8 hotkey and the Record button). */
  function ToggleRecording(s: State, now: int): (r: State)
    ensures Exclusive(s) ==> Exclusive(r)
    ensures r.recording <==> !s.recording && !s.playing
    ensures r.playing == s.playing
  {
    if s.recording then StopRecording(s) else StartRecording(s, now)
  }

  /** `start_playback`: ignored while recording, while playing, or when the
      buffer is empty; otherwise raises the playing flag. */
  function StartPlayback(s: State): (r: State)
    ensures Exclusive(s) ==> Exclusive(r)
    ensures r.playing <==> s.playing || (!s.recording && s.events != [])
    ensures r.events == s.events && r.epoch == s.epoch && r.recording == s.recording
  {
    if s.recording || s.playing || |s.events| == 0 then s
    else s.(playing := true)
  }

  /** The final write of `_playback_loop`. */
  function FinishPlayback(s: State): (r: State)
    ensures Exclusive(r) && !r.playing
    ensures r.events == s.events && r.epoch == s.epoch && r.recording == s.recording
  {
    s.(playing := false)
  }

  /** The flag resets of `on_close`. */
  function Close(s: State): (r: State)
    ensures Exclusive(r) && !r.recording && !r.playing
    ensures r.events == s.events && r.epoch == s.epoch
  {
    s.(recording := false, playing := false)
  }

  /** The five capture callbacks: while recording, every input except a
      press or release of F8 is appended with its time since the epoch. */
  function Capture(s: State, now: int, i: Input): (r: State)
    ensures r.recording == s.recording && r.playing == s.playing && r.epoch == s.epoch
    ensures s.events <= r.events && |r.events| <= |s.events| + 1
    ensures |r.events| == |s.events| + 1 <==> s.recording && !IsHotkey(i)
    ensures NoHotkeyStored(s.events) ==> NoHotkeyStored(r.events)
  {
    if s.recording && !IsHotkey(i) then s.(events := s.events + [Stamp(i, now - s.epoch)])
    else s
  }

  /** One invocation of an entry point, with the clock reading it takes. */
  datatype Delivery = Delivery(now: int, input: Input)

  datatype Command =
    | StartRec(now: int)
    | StopRec
    | ToggleRec(now: int)
    | StartPlay
    | EndPlay
    | CloseWindow
    | Deliver(d: Delivery)

  function Apply(s: State, c: Command): State {
    match c
    case StartRec(now) => StartRecording(s, now)
    case StopRec => StopRecording(s)
    case ToggleRec(now) => ToggleRecording(s, now)
    case StartPlay => StartPlayback(s)
    case EndPlay => FinishPlayback(s)
    case CloseWindow => Close(s)
    case Deliver(d) => Capture(s, d.now, d.input)
  }

  /** The state after the commands `cs`, in order. */
  function Run(s: State, cs: seq<Command>): State
    decreases |cs|
  {
    if |cs| == 0 then s else Run(Apply(s, cs[0]), cs[1..])
  }

  /** The callback invocations `ins`, as commands. */
  function Deliveries(ins: seq<Delivery>): (cs: seq<Command>)
    ensures |cs| == |ins|
    ensures forall k :: 0 <= k < |ins| ==> cs[k] == Deliver(ins[k])
  {
    seq(|ins|, k requires 0 <= k < |ins| => Deliver(ins[k]))
  }

  /** Reference definition of a recording: the inputs in call order, F8
      dropped, each stamped with its time since `epoch`. */
  function Recorded(ins: seq<Delivery>, epoch: int): seq<Event>
    decreases |ins|
  {
    if |ins| == 0 then []
    else
      (if IsHotkey(ins[0].input) then [] else [Stamp(ins[0].input, ins[0].now - epoch)])
      + Recorded(ins[1..], epoch)
  }

  predicate NoHotkeyStored(events: seq<Event>) {
    forall k :: 0 <= k < |events| ==> !IsHotkeyEvent(events[k])
  }

  // ---------------------------------------------------------------- guards

  /** Every entry point keeps the two flags mutually exclusive. */
  lemma ApplyKeepsExclusive(s: State, c: Command)
    requires Exclusive(s)
    ensures Exclusive(Apply(s, c))
  {
  }

  /** No sequence of calls ever has both flags raised. */
  lemma {:induction false} RunKeepsExclusive(s: State, cs: seq<Command>)
    requires Exclusive(s)
    ensures Exclusive(Run(s, cs))
    decreases |cs|
  {
    if |cs| > 0 {
      ApplyKeepsExclusive(s, cs[0]);
      RunKeepsExclusive(Apply(s, cs[0]), cs[1..]);
    }
  }

  /** `start_playback` changes nothing while recording, while playing or with
      an empty buffer; otherwise it raises only the playing flag. */
  lemma StartPlaybackGuard(s: State)
    ensures s.recording || s.playing || s.events == [] ==> StartPlayback(s) == s
    ensures !s.recording && !s.playing && s.events != [] ==>
      StartPlayback(s).playing && StartPlayback(s).events == s.events
      && StartPlayback(s).epoch == s.epoch && !StartPlayback(s).recording
  {
  }

  /** `stop_recording` is a no-op when not recording, so a second call right
      after a first changes nothing; a stop keeps the buffer as captured. */
  lemma StopRecordingIdempotent(s: State)
    ensures !s.recording ==> StopRecording(s) == s
    ensures StopRecording(StopRecording(s)) == StopRecording(s)
    ensures StopRecording(s).events == s.events && !StopRecording(s).recording
    ensures StopRecording(s).playing == s.playing && StopRecording(s).epoch == s.epoch
  {
  }

  /** `start_recording` is a no-op while playing; otherwise the buffer is
      empty, the recording flag is raised and the epoch is the call's clock
      reading, whether or not a recording was already in progress. */
  lemma StartRecordingResets(s: State, now: int)
    ensures s.playing ==> StartRecording(s, now) == s
    ensures !s.playing ==> StartRecording(s, now) == State([], now, true, false)
  {
  }

  /** `toggle_recording` stops a recording in progress and otherwise starts
      one: two toggles from idle leave a stopped, empty recording. */
  lemma ToggleDispatch(s: State, now: int, now': int)
    ensures s.recording ==> ToggleRecording(s, now) == StopRecording(s)
    ensures !s.recording ==> ToggleRecording(s, now) == StartRecording(s, now)
    ensures !s.recording && !s.playing ==>
      ToggleRecording(ToggleRecording(s, now), now') == State([], now, false, false)
  {
  }

  // --------------------------------------------------------------- capture

  /** One callback while recording appends exactly one event, at the end,
      with time `now - epoch`, and leaves earlier events alone; an F8 key
      event or any input while not recording leaves the state unchanged. */
  lemma CaptureAppends(s: State, now: int, i: Input)
    ensures s.recording && !IsHotkey(i) ==>
      |Capture(s, now, i).events| == |s.events| + 1
      && Capture(s, now, i).events[..|s.events|] == s.events
      && Capture(s, now, i).events[|s.events|] == Stamp(i, now - s.epoch)
      && Capture(s, now, i).events[|s.events|].time == now - s.epoch
    ensures !s.recording || IsHotkey(i) ==> Capture(s, now, i) == s
    ensures Capture(s, now, i).(events := s.events) == s
  {
  }

  lemma {:induction false} RunAppend(s: State, a: seq<Command>, b: seq<Command>)
    ensures Run(s, a + b) == Run(Run(s, a), b)
    decreases |a|
  {
    if |a| > 0 {
      assert (a + b)[0] == a[0];
      assert (a + b)[1..] == a[1..] + b;
      RunAppend(Apply(s, a[0]), a[1..], b);
    } else {
      assert a + b == b;
    }
  }

  /** While recording, a run of callbacks appends exactly the reference
      recording of those callbacks, in call order, and changes nothing else. */
  lemma {:induction false} CaptureInCallOrder(s: State, ins: seq<Delivery>)
    requires s.recording
    ensures Run(s, Deliveries(ins)) == s.(events := s.events + Recorded(ins, s.epoch))
    decreases |ins|
  {
    if |ins| == 0 {
      assert s.events + [] == s.events;
    } else {
      var cs := Deliveries(ins);
      assert cs[1..] == Deliveries(ins[1..]);
      var s' := Capture(s, ins[0].now, ins[0].input);
      assert Run(s, cs) == Run(s', cs[1..]);
      CaptureInCallOrder(s', ins[1..]);
      var head := if IsHotkey(ins[0].input) then [] else [Stamp(ins[0].input, ins[0].now - s.epoch)];
      assert s'.events == s.events + head;
      assert s.events + head + Recorded(ins[1..], s.epoch) == s.events + (head + Recorded(ins[1..], s.epoch));
    }
  }

  /** Starting a recording, delivering callbacks and stopping leaves exactly
      the reference recording of those callbacks, stamped from the start's
      clock reading, with both flags down. */
  lemma RecordThenStop(s: State, start: int, ins: seq<Delivery>)
    requires !s.playing
    ensures Run(s, [StartRec(start)] + Deliveries(ins) + [StopRec])
         == State(Recorded(ins, start), start, false, false)
  {
    var started := StartRecording(s, start);
    assert Run(s, [StartRec(start)]) == started;
    RunAppend(s, [StartRec(start)], Deliveries(ins));
    CaptureInCallOrder(started, ins);
    assert [] + Recorded(ins, start) == Recorded(ins, start);
    RunAppend(s, [StartRec(start)] + Deliveries(ins), [StopRec]);
  }

  /** The F8 filter: the reference recording never holds a press or release
      of F8. */
  lemma {:induction false} RecordedHasNoHotkey(ins: seq<Delivery>, epoch: int)
    ensures NoHotkeyStored(Recorded(ins, epoch))
    decreases |ins|
  {
    if |ins| > 0 {
      RecordedHasNoHotkey(ins[1..], epoch);
    }
  }

  /** The F8 filter over any sequence of calls: once the buffer holds no F8
      key event, no entry point ever stores one. */
  lemma {:induction false} RunNeverStoresHotkey(s: State, cs: seq<Command>)
    requires NoHotkeyStored(s.events)
    ensures NoHotkeyStored(Run(s, cs).events)
    decreases |cs|
  {
    if |cs| > 0 {
      var s' := Apply(s, cs[0]);
      assert NoHotkeyStored(s'.events);
      RunNeverStoresHotkey(s', cs[1..]);
    }
  }
}
