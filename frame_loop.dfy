/**
 * The main loop's event handling: each iteration drains the window events
 * that are pending, updating the quit and stop-rendering flags, then draws
 * one frame unless rendering is stopped. The loop ends after the iteration in
 * which a quit event arrived.
 */
module FrameLoop {

  /** The window events the loop reacts to; every other event is ignored. */
  datatype Event = Quit | Minimized | Restored | OtherEvent

  /**
   * One iteration's input: the events pending when it polls, and the
   * swapchain image the presentation engine hands out if it draws.
   */
  datatype Tick = Tick(events: seq<Event>, acquired: nat)

  /** The stop-rendering flag after handling `events` in order, starting from `stop`. */
  function StopAfter(stop: bool, events: seq<Event>): bool
    decreases |events|
  {
    if events == [] then stop
    else
      var before := StopAfter(stop, events[..|events| - 1]);
      match events[|events| - 1]
      case Minimized => true
      case Restored => false
      case _ => before
  }

  /** A batch with no minimize or restore event leaves the flag as it was. */
  lemma {:induction false} StopAfterWithoutWindowEvents(stop: bool, events: seq<Event>)
    requires forall j :: 0 <= j < |events| ==> events[j] != Minimized && events[j] != Restored
    ensures StopAfter(stop, events) == stop
    decreases |events|
  {
    if events != [] {
      StopAfterWithoutWindowEvents(stop, events[..|events| - 1]);
    }
  }

  /** Otherwise the last minimize or restore event of the batch decides the flag. */
  lemma {:induction false} StopAfterLastWindowEvent(stop: bool, events: seq<Event>, k: nat)
    requires k < |events| && (events[k] == Minimized || events[k] == Restored)
    requires forall j :: k < j < |events| ==> events[j] != Minimized && events[j] != Restored
    ensures StopAfter(stop, events) == (events[k] == Minimized)
    decreases |events|
  {
    if k < |events| - 1 {
      StopAfterLastWindowEvent(stop, events[..|events| - 1], k);
    }
  }

  /**
   * The ticks whose iteration calls `draw`, in order: an iteration draws when
   * the flag is clear after its events, and the iteration that sees a quit
   * event is the last one (it still draws if the flag is clear).
   */
  function DrawnTicks(stop: bool, ticks: seq<Tick>): seq<Tick>
    decreases |ticks|
  {
    if ticks == [] then []
    else
      var stop' := StopAfter(stop, ticks[0].events);
      (if stop' then [] else [ticks[0]]) + (if Quit in ticks[0].events then [] else DrawnTicks(stop', ticks[1..]))
  }

  /** The stop-rendering flag when the loop ends (after the quit iteration, or when the input runs out). */
  function FinalStop(stop: bool, ticks: seq<Tick>): bool
    decreases |ticks|
  {
    if ticks == [] then stop
    else
      var stop' := StopAfter(stop, ticks[0].events);
      if Quit in ticks[0].events then stop' else FinalStop(stop', ticks[1..])
  }

  /** The images the drawn ticks present, in order. */
  function AcquiredImages(ticks: seq<Tick>): (images: seq<nat>)
    ensures |images| == |ticks|
    decreases |ticks|
  {
    if ticks == [] then [] else AcquiredImages(ticks[..|ticks| - 1]) + [ticks[|ticks| - 1].acquired]
  }

  /**
   * One pass of the main loop, seen from the whole run: if the passes so far
   * drew `drawn`, left the flag at `stop` and left the ticks `rest` to come,
   * then after the next pass (which leaves the flag at `stop'`, draws the
   * tick exactly when `stop'` is clear, and ends the loop on a quit event)
   * the same holds of the new values.
   */
  lemma LoopPass(start: bool, ticks: seq<Tick>, stop: bool, rest: seq<Tick>, drawn: seq<Tick>,
                 stop': bool, rest': seq<Tick>, drawn': seq<Tick>)
    requires DrawnTicks(start, ticks) == drawn + DrawnTicks(stop, rest)
    requires FinalStop(start, ticks) == FinalStop(stop, rest)
    requires rest != [] && stop' == StopAfter(stop, rest[0].events)
    requires rest' == if Quit in rest[0].events then [] else rest[1..]
    requires drawn' == if stop' then drawn else drawn + [rest[0]]
    ensures DrawnTicks(start, ticks) == drawn' + DrawnTicks(stop', rest')
    ensures FinalStop(start, ticks) == FinalStop(stop', rest')
  {
    var later := DrawnTicks(stop', rest');
    if Quit in rest[0].events {
      assert later == [] && FinalStop(stop, rest) == stop';
    }
    if stop' {
      assert DrawnTicks(stop, rest) == [] + later == later;
    } else {
      assert DrawnTicks(stop, rest) == [rest[0]] + later;
      AppendAssoc(drawn, [rest[0]], later);
    }
  }

  lemma AppendAssoc<T>(a: seq<T>, b: seq<T>, c: seq<T>)
    ensures a + (b + c) == (a + b) + c
  {
  }

  /** Nothing after the iteration that receives a quit event is drawn. */
  lemma {:induction false} QuitEndsLoop(stop: bool, ticks: seq<Tick>, k: nat)
    requires k < |ticks| && Quit in ticks[k].events
    ensures DrawnTicks(stop, ticks) == DrawnTicks(stop, ticks[..k + 1])
    decreases k
  {
    if k > 0 && Quit !in ticks[0].events {
      var stop' := StopAfter(stop, ticks[0].events);
      QuitEndsLoop(stop', ticks[1..], k - 1);
      assert ticks[..k + 1][1..] == ticks[1..][..k];
    }
  }

  /** While minimized, with no restore event arriving, nothing is drawn. */
  lemma {:induction false} MinimizedDrawsNothing(ticks: seq<Tick>)
    requires forall i :: 0 <= i < |ticks| ==> Restored !in ticks[i].events
    ensures DrawnTicks(true, ticks) == []
    decreases |ticks|
  {
    if ticks != [] {
      StopAfterStaysSet(ticks[0].events);
      MinimizedDrawsNothing(ticks[1..]);
    }
  }

  /** Without a restore event a set flag stays set. */
  lemma {:induction false} StopAfterStaysSet(events: seq<Event>)
    requires Restored !in events
    ensures StopAfter(true, events)
    decreases |events|
  {
    if events != [] {
      assert events[..|events| - 1] <= events;
      StopAfterStaysSet(events[..|events| - 1]);
    }
  }

  /** While not minimized, with no minimize or quit event, every iteration draws. */
  lemma {:induction false} RenderingDrawsEveryTick(ticks: seq<Tick>)
    requires forall i :: 0 <= i < |ticks| ==> Minimized !in ticks[i].events && Quit !in ticks[i].events
    ensures DrawnTicks(false, ticks) == ticks
    decreases |ticks|
  {
    if ticks != [] {
      StopAfterStaysClear(ticks[0].events);
      RenderingDrawsEveryTick(ticks[1..]);
    }
  }

  /** Without a minimize event a clear flag stays clear. */
  lemma {:induction false} StopAfterStaysClear(events: seq<Event>)
    requires Minimized !in events
    ensures !StopAfter(false, events)
    decreases |events|
  {
    if events != [] {
      assert events[..|events| - 1] <= events;
      StopAfterStaysClear(events[..|events| - 1]);
    }
  }
}
