/** The recorder object of AUTO_FLOW_SKETCH.py without its window: the
    recording and playing flags, the epoch, the event buffer and the
    playback loop. Each entry point is specified by the matching function
    of module Session; the playback loop by module Playback. The listeners
    call the capture methods directly, and every clock reading is a
    parameter. */
module Recorder {
  import opened Events
  import Session
  import Playback

  class MacroRecorder {
    /** The event buffer, in capture order. */
    var events: seq<Event>
    /** The clock reading taken when the current recording started. */
    var startTime: int
    var isRecording: bool
    var isPlaying: bool
    /** Every sleep and controller call the playback loop has made, in
        order: the observable effect of playback on the machine. */
    var trace: seq<Playback.Step>

    /** The object invariant: recording and playing are mutually exclusive. */
    predicate Valid()
      reads this
    {
      Session.Exclusive(Model())
    }

    /** The session state the fields hold. */
    function Model(): Session.State
      reads this
    {
      Session.State(events, startTime, isRecording, isPlaying)
    }

    constructor ()
      ensures Valid()
      ensures Model() == Session.Initial && trace == []
    {
      events := [];
      startTime := 0;
      isRecording := false;
      isPlaying := false;
      trace := [];
    }

    /** The F8 hotkey and the Record button. */
    method ToggleRecording(now: int)
      requires Valid()
      modifies this`events, this`startTime, this`isRecording
      ensures Valid()
      ensures Model() == Session.ToggleRecording(old(Model()), now)
    {
      if isRecording {
        StopRecording();
      } else {
        StartRecording(now);
      }
    }

    /** Starts a recording at clock reading `now`, unless playing. */
    method StartRecording(now: int)
      requires Valid()
      modifies this`events, this`startTime, this`isRecording
      ensures Valid()
      ensures Model() == Session.StartRecording(old(Model()), now)
    {
      if isPlaying {
        return;
      }
      events := [];
      isRecording := true;
      startTime := now;
    }

    method StopRecording()
      requires Valid()
      modifies this`isRecording
      ensures Valid()
      ensures Model() == Session.StopRecording(old(Model()))
    {
      if !isRecording {
        return;
      }
      isRecording := false;
    }

    method OnMove(now: int, x: int, y: int)
      requires Valid()
      modifies this`events
      ensures Valid()
      ensures Model() == Session.Capture(old(Model()), now, MouseMoved(x, y))
    {
      if isRecording {
        var dt := now - startTime;
        events := events + [Move(dt, x, y)];
      }
    }

    method OnClick(now: int, x: int, y: int, button: Button, pressed: bool)
      requires Valid()
      modifies this`events
      ensures Valid()
      ensures Model() == Session.Capture(old(Model()), now, MouseClicked(x, y, button, pressed))
    {
      if isRecording {
        var dt := now - startTime;
        events := events + [Click(dt, x, y, button, pressed)];
      }
    }

    method OnScroll(now: int, x: int, y: int, dx: int, dy: int)
      requires Valid()
      modifies this`events
      ensures Valid()
      ensures Model() == Session.Capture(old(Model()), now, MouseScrolled(x, y, dx, dy))
    {
      if isRecording {
        var dt := now - startTime;
        events := events + [Scroll(dt, x, y, dx, dy)];
      }
    }

    method OnPress(now: int, key: Key)
      requires Valid()
      modifies this`events
      ensures Valid()
      ensures Model() == Session.Capture(old(Model()), now, KeyPressed(key))
    {
      if isRecording {
        if key == F8 {
          return;
        }
        var dt := now - startTime;
        events := events + [Press(dt, key)];
      }
    }

    method OnRelease(now: int, key: Key)
      requires Valid()
      modifies this`events
      ensures Valid()
      ensures Model() == Session.Capture(old(Model()), now, KeyReleased(key))
    {
      if isRecording {
        if key == F8 {
          return;
        }
        var dt := now - startTime;
        events := events + [Release(dt, key)];
      }
    }

    /** The F9 hotkey and the Play button. Starting the playback thread is
        the caller's next step: PlaybackLoop. */
    method StartPlayback()
      requires Valid()
      modifies this`isPlaying
      ensures Valid()
      ensures Model() == Session.StartPlayback(old(Model()))
    {
      if isRecording || isPlaying || |events| == 0 {
        return;
      }
      isPlaying := true;
    }

    /** The body of the playback thread, started at clock reading `start`.
        Moment `i` of `world` is what other threads, the clock and the
        controllers do during iteration `i`. The loop dispatches exactly the
        events before the first iteration whose check sees the playing flag
        down, each after its wait, and always ends with the flag down. */
    method PlaybackLoop(start: int, world: seq<Playback.Moment>)
      requires Valid()
      requires |world| == |events|
      modifies this`isPlaying, this`trace
      ensures Valid() && !isPlaying
      ensures Model() == Session.FinishPlayback(old(Model()))
      ensures trace == old(trace)
        + Playback.Trace(events[..Playback.StopIndex(old(isPlaying), world)], start, world)
    {
      var evs := events;
      var i := 0;
      while i < |evs|
        invariant i <= |evs|
        invariant evs == events
        invariant isPlaying == old(isPlaying)
        invariant forall j :: 0 <= j < i ==> old(isPlaying) && !world[j].cancelRequested
        invariant trace == old(trace) + Playback.Trace(evs[..i], start, world)
      {
        // another thread may have cleared the flag since the last check
        if world[i].cancelRequested {
          isPlaying := false;
        }
        if !isPlaying {
          break;
        }
        var target := start + evs[i].time;
        var now := world[i].clock;
        var wait: nat := 0;
        if target > now {
          wait := target - now;
        }
        var action := ActionOf(evs[i]);
        // a call the controller refuses is reported and the loop goes on
        var accepted := world[i].injectorAccepts;
        assert evs[..i + 1][..i] == evs[..i];
        trace := trace + [Playback.Step(wait, action, accepted)];
        i := i + 1;
      }
      Playback.StopIndexUnique(old(isPlaying), world, i);
      isPlaying := false;
    }

    /** The flag resets of the window's close handler. */
    method Close()
      requires Valid()
      modifies this`isRecording, this`isPlaying
      ensures Valid()
      ensures Model() == Session.Close(old(Model()))
    {
      isRecording := false;
      isPlaying := false;
    }
  }
}
