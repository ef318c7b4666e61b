/** The specification of the playback loop (`_playback_loop` in
    AUTO_FLOW_SKETCH.py): which events it dispatches, how long it waits
    before each, and what it hands the controllers. The loop itself is
    MacroRecorder.PlaybackLoop in module Recorder. */
module Playback {
  import opened Events

  /** What the rest of the world does during one iteration of the loop:
      whether another thread has cleared the playing flag before the check
      at the top of the iteration, the clock reading the iteration takes
      before it waits, and whether the controller accepts the call or
      raises. */
  datatype Moment = Moment(cancelRequested: bool, clock: int, injectorAccepts: bool)

  /** One iteration as the world sees it: the sleep taken (0 when the event
      is already due), the controller call, and whether it succeeded. A
      refused call is reported and swallowed. */
  datatype Step = Step(wait: nat, action: Action, accepted: bool)

  /** The sleep before an event due at `target` when the clock reads `now`:
      never negative, never ends before the target, and no longer than
      needed. */
  function Delay(target: int, now: int): (d: nat)
    ensures now + d >= target
    ensures d > 0 ==> now + d == target
  {
    if target > now then target - now else 0
  }

  /** The iteration that handles `e` when playback started at clock reading
      `start`: it waits until `start + e.time`, then makes `e`'s call. */
  function StepFor(e: Event, start: int, m: Moment): (st: Step)
    ensures st.action == ActionOf(e) && st.accepted == m.injectorAccepts
    ensures m.clock + st.wait >= start + e.time
    ensures st.wait > 0 ==> m.clock + st.wait == start + e.time
  {
    Step(Delay(start + e.time, m.clock), ActionOf(e), m.injectorAccepts)
  }

  /** The iterations that handle `evs`, in stored order, one per event. */
  function Trace(evs: seq<Event>, start: int, world: seq<Moment>): (t: seq<Step>)
    requires |evs| <= |world|
    ensures |t| == |evs|
    decreases |evs|
  {
    if |evs| == 0 then []
    else
      var n := |evs| - 1;
      Trace(evs[..n], start, world) + [StepFor(evs[n], start, world[n])]
  }

  /** The number of iterations that pass the cancellation check, when the
      playing flag reads `playing` as the loop starts: the first iteration
      at whose top the flag is down, or all of them. */
  function StopIndex(playing: bool, world: seq<Moment>): (k: nat)
    ensures k <= |world|
    ensures forall i :: 0 <= i < k ==> playing && !world[i].cancelRequested
    ensures k < |world| ==> !playing || world[k].cancelRequested
    decreases |world|
  {
    if !playing || |world| == 0 || world[0].cancelRequested then 0
    else 1 + StopIndex(playing, world[1..])
  }

  /** The controller calls of a trace. */
  function Actions(t: seq<Step>): (r: seq<Action>)
    ensures |r| == |t|
    ensures forall i :: 0 <= i < |t| ==> r[i] == t[i].action
  {
    seq(|t|, i requires 0 <= i < |t| => t[i].action)
  }

  /** Reference definition: the call for every stored event, in order. */
  function Dispatched(evs: seq<Event>): (r: seq<Action>)
    ensures |r| == |evs|
    ensures forall i :: 0 <= i < |evs| ==> r[i] == ActionOf(evs[i])
  {
    seq(|evs|, i requires 0 <= i < |evs| => ActionOf(evs[i]))
  }

  /** Iteration `i` of the trace handles stored event `i`, with the world's
      moment `i`. */
  lemma {:induction false} TraceAt(evs: seq<Event>, start: int, world: seq<Moment>, i: nat)
    requires |evs| <= |world|
    requires i < |evs|
    ensures Trace(evs, start, world)[i] == StepFor(evs[i], start, world[i])
    decreases |evs|
  {
    var n := |evs| - 1;
    if i < n {
      TraceAt(evs[..n], start, world, i);
    }
  }

  /** The trace dispatches every event exactly once, in stored index order. */
  lemma TraceDispatchesInOrder(evs: seq<Event>, start: int, world: seq<Moment>)
    requires |evs| <= |world|
    ensures Actions(Trace(evs, start, world)) == Dispatched(evs)
  {
    var t := Trace(evs, start, world);
    forall i | 0 <= i < |evs| ensures Actions(t)[i] == Dispatched(evs)[i] {
      TraceAt(evs, start, world, i);
    }
  }

  /** The trace of a prefix of the events is the prefix of the trace. */
  lemma TracePrefix(evs: seq<Event>, start: int, world: seq<Moment>, k: nat)
    requires |evs| <= |world|
    requires k <= |evs|
    ensures Trace(evs[..k], start, world) == Trace(evs, start, world)[..k]
  {
    var p := Trace(evs[..k], start, world);
    var t := Trace(evs, start, world);
    forall i | 0 <= i < k ensures p[i] == t[i] {
      TraceAt(evs[..k], start, world, i);
      TraceAt(evs, start, world, i);
    }
  }

  /** What a playback that stops after `k` iterations hands the
      controllers: the first `k` entries of the calls for the whole stored
      sequence. */
  lemma DispatchedPrefix(evs: seq<Event>, start: int, world: seq<Moment>, k: nat)
    requires |evs| <= |world|
    requires k <= |evs|
    ensures Actions(Trace(evs[..k], start, world)) == Dispatched(evs)[..k]
  {
    TraceDispatchesInOrder(evs[..k], start, world);
    assert Dispatched(evs[..k]) == Dispatched(evs)[..k];
  }

  /** Timing: every event is dispatched no earlier than `start + time`, and
      when the loop sleeps it wakes exactly at that target. */
  lemma DispatchNotBeforeTarget(evs: seq<Event>, start: int, world: seq<Moment>, i: nat)
    requires |evs| <= |world|
    requires i < |evs|
    ensures world[i].clock + Trace(evs, start, world)[i].wait >= start + evs[i].time
    ensures Trace(evs, start, world)[i].wait > 0 ==>
      world[i].clock + Trace(evs, start, world)[i].wait == start + evs[i].time
  {
    TraceAt(evs, start, world, i);
  }

  /** A refused controller call stops nothing: whatever the controller
      accepts, the same calls are made, in the same order, with the same
      waits. */
  lemma InjectorFailureDoesNotStop(evs: seq<Event>, start: int, w1: seq<Moment>, w2: seq<Moment>)
    requires |evs| <= |w1| && |evs| <= |w2|
    requires forall i :: 0 <= i < |evs| ==> w1[i].clock == w2[i].clock
    ensures Actions(Trace(evs, start, w1)) == Actions(Trace(evs, start, w2)) == Dispatched(evs)
    ensures forall i :: 0 <= i < |evs| ==> Trace(evs, start, w1)[i].wait == Trace(evs, start, w2)[i].wait
  {
    TraceDispatchesInOrder(evs, start, w1);
    TraceDispatchesInOrder(evs, start, w2);
    forall i | 0 <= i < |evs| ensures Trace(evs, start, w1)[i].wait == Trace(evs, start, w2)[i].wait {
      TraceAt(evs, start, w1, i);
      TraceAt(evs, start, w2, i);
    }
  }

  /** The loop gets past the check of every iteration before the first one
      whose check sees the flag down. */
  lemma {:induction false} StopIndexAtLeast(world: seq<Moment>, m: nat)
    requires m <= |world|
    requires forall i :: 0 <= i < m ==> !world[i].cancelRequested
    ensures StopIndex(true, world) >= m
    decreases m
  {
    if m > 0 {
      var rest := world[1..];
      assert forall i :: 0 <= i < m - 1 ==> !rest[i].cancelRequested by {
        forall i | 0 <= i < m - 1 ensures !rest[i].cancelRequested {
          assert rest[i] == world[i + 1];
        }
      }
      StopIndexAtLeast(rest, m - 1);
    }
  }

  /** The three properties of StopIndex determine it. */
  lemma {:induction false} StopIndexUnique(playing: bool, world: seq<Moment>, k: nat)
    requires k <= |world|
    requires forall i :: 0 <= i < k ==> playing && !world[i].cancelRequested
    requires k < |world| ==> !playing || world[k].cancelRequested
    ensures StopIndex(playing, world) == k
    decreases k
  {
    if k > 0 {
      assert !world[0].cancelRequested;
      assert playing;
      var rest := world[1..];
      assert forall i :: 0 <= i < k - 1 ==> playing && !rest[i].cancelRequested by {
        forall i | 0 <= i < k - 1 ensures playing && !rest[i].cancelRequested {
          assert rest[i] == world[i + 1];
        }
      }
      assert k - 1 < |rest| ==> rest[k - 1] == world[k];
      StopIndexUnique(playing, rest, k - 1);
    }
  }

  /** If nobody clears the flag, every event is dispatched. */
  lemma NoCancelDispatchesAll(world: seq<Moment>)
    requires forall i :: 0 <= i < |world| ==> !world[i].cancelRequested
    ensures StopIndex(true, world) == |world|
  {
    StopIndexUnique(true, world, |world|);
  }

  /** If the check at the top of iteration `k` is the first to see the flag
      down, exactly the first `k` events are dispatched. */
  lemma CancelSeenAt(world: seq<Moment>, k: nat)
    requires k < |world|
    requires forall i :: 0 <= i < k ==> !world[i].cancelRequested
    requires world[k].cancelRequested
    ensures StopIndex(true, world) == k
  {
    StopIndexUnique(true, world, k);
  }

  /** Playback that never started its first check with the flag up
      dispatches nothing. */
  lemma NotPlayingDispatchesNothing(world: seq<Moment>)
    ensures StopIndex(false, world) == 0
  {
  }

  /** The check comes only before the wait: a cancellation that arrives
      while the loop waits for event `i` is first seen by the check of
      iteration `i + 1`, so event `i` is still dispatched, after its wait,
      as the last call of the playback, and event `i + 1` is not. */
  lemma CancelDuringWaitStillDispatches(evs: seq<Event>, start: int, world: seq<Moment>, i: nat)
    requires |evs| == |world|
    requires i + 1 < |world|
    requires forall j :: 0 <= j <= i ==> !world[j].cancelRequested
    requires world[i + 1].cancelRequested
    ensures StopIndex(true, world) == i + 1
    ensures |Trace(evs[..StopIndex(true, world)], start, world)| == i + 1
    ensures Trace(evs[..StopIndex(true, world)], start, world)[i] == StepFor(evs[i], start, world[i])
  {
    StopIndexUnique(true, world, i + 1);
    TraceAt(evs[..i + 1], start, world, i);
  }
}
