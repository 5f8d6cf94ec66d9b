/** The orbit camera's input handling (main.cpp): three process-wide values,
    `yaw`, `pitch` and `distance`, updated by mouse-wheel and mouse-motion
    events. Wheel events zoom (distance, floored at 1); motion events with the
    left button held orbit (yaw unbounded, pitch clamped short of the poles).

    Floats are exact reals here. The pure functions Step and Run specify the
    updates on values; the class OrbitCamera holds the mutable state and its
    methods are proved against them. */
module Camera {

  /** Radians of orbit per pixel of mouse motion (`kPan`). */
  const Pan: real := 0.002
  /** Metres of zoom per unit of wheel scroll (`kZoom`). */
  const Zoom: real := 25.0e9
  /** `glm::pi<float>()`: the single-precision value nearest to pi. */
  const Pi: real := 3.1415927410125732421875
  /** The pitch bound `kClamp = pi / 2 - 0.01`. */
  const PitchLimit: real := Pi / 2.0 - 0.01
  /** The smallest distance the wheel can reach. */
  const MinDistance: real := 1.0
  /** The distance the program starts at. */
  const InitialDistance: real := 1.0e11
  /** `SDL_BUTTON_LMASK`, the left-button bit of a motion event's button state. */
  const LeftButtonMask: bv32 := 1

  /** The input events the loop reacts to; every other event type is Other. */
  datatype Event =
    | MouseWheel(y: real)
    | MouseMotion(state: bv32, xrel: real, yrel: real)
    | Quit
    | Other

  /** A snapshot of the orbit parameters. */
  datatype Orbit = Orbit(yaw: real, pitch: real, distance: real)

  /** The orbit the program starts from (the statics' initial values). */
  const Initial: Orbit := Orbit(0.0, 0.0, InitialDistance)

  /** The invariant the input handling keeps: pitch within the clamp, and the
      distance at least the minimum. */
  predicate InRange(o: Orbit) {
    -PitchLimit <= o.pitch <= PitchLimit && MinDistance <= o.distance
  }

  /** `std::clamp(v, lo, hi)`. */
  function Clamp(v: real, lo: real, hi: real): (r: real)
    requires lo <= hi
    ensures lo <= r <= hi
    ensures lo <= v <= hi ==> r == v
  {
    if v < lo then lo else if hi < v then hi else v
  }

  /** `std::max(a, b)`. */
  function Max(a: real, b: real): (r: real)
    ensures a <= r && b <= r
    ensures r == a || r == b
  {
    if a < b then b else a
  }

  function Abs(x: real): real {
    if x < 0.0 then -x else x
  }

  /** The clamped value is the point of [lo, hi] nearest to v. */
  lemma ClampIsNearest(v: real, lo: real, hi: real, u: real)
    requires lo <= hi && lo <= u <= hi
    ensures Abs(Clamp(v, lo, hi) - v) <= Abs(u - v)
  {
  }

  /** Clamping twice is clamping once. */
  lemma ClampIdempotent(v: real, lo: real, hi: real)
    requires lo <= hi
    ensures Clamp(Clamp(v, lo, hi), lo, hi) == Clamp(v, lo, hi)
  {
  }

  /** True when the left button is held during a motion event: the lowest
      bit of the button state, which SDL gives to the left button. */
  predicate LeftHeld(state: bv32)
    ensures LeftHeld(state) <==> state % 2 == 1
  {
    state & LeftButtonMask != 0
  }

  /** Other buttons held at the same time do not change the test. */
  lemma LeftHeldIgnoresOtherButtons(state: bv32, others: bv32)
    requires others & LeftButtonMask == 0
    ensures LeftHeld(state | others) == LeftHeld(state)
  {
  }

  /** The effect of one event on the orbit parameters. */
  function Step(o: Orbit, e: Event): (o': Orbit)
    // wheel events zoom and floor the distance, and leave the angles alone
    ensures e.MouseWheel? ==>
              o'.yaw == o.yaw && o'.pitch == o.pitch &&
              MinDistance <= o'.distance && o.distance - e.y * Zoom <= o'.distance &&
              (o'.distance == MinDistance || o'.distance == o.distance - e.y * Zoom)
    // motion events never change the distance; with the left button up they
    // change nothing at all
    ensures e.MouseMotion? ==> o'.distance == o.distance
    ensures e.MouseMotion? && !LeftHeld(e.state) ==> o' == o
    // a drag turns the yaw by the horizontal motion and leaves the pitch
    // within the clamp, moved by the vertical motion as far as the clamp
    // allows; an overshoot stops at the nearer bound
    ensures e.MouseMotion? && LeftHeld(e.state) ==>
              o'.yaw == o.yaw + e.xrel * Pan &&
              -PitchLimit <= o'.pitch <= PitchLimit &&
              (-PitchLimit <= o.pitch + e.yrel * Pan <= PitchLimit ==> o'.pitch == o.pitch + e.yrel * Pan) &&
              (PitchLimit < o.pitch + e.yrel * Pan ==> o'.pitch == PitchLimit) &&
              (o.pitch + e.yrel * Pan < -PitchLimit ==> o'.pitch == -PitchLimit)
    // the remaining events do not touch the camera
    ensures (e.Quit? || e.Other?) ==> o' == o
  {
    match e
    case MouseWheel(y) =>
      o.(distance := Max(MinDistance, o.distance - y * Zoom))
    case MouseMotion(state, xrel, yrel) =>
      if LeftHeld(state) then
        o.(yaw := o.yaw + xrel * Pan, pitch := Clamp(o.pitch + yrel * Pan, -PitchLimit, PitchLimit))
      else
        o
    case Quit => o
    case Other => o
  }

  /** The orbit after handling the events in order, each by Step. */
  function Run(o: Orbit, events: seq<Event>): (r: Orbit)
    // the distance is the starting one until a wheel event, and at least 1 after
    ensures r.distance == o.distance || MinDistance <= r.distance
    // the angles are the starting ones until a drag, and the pitch lies within
    // the clamp after
    ensures (r.yaw == o.yaw && r.pitch == o.pitch) || -PitchLimit <= r.pitch <= PitchLimit
    decreases |events|
  {
    if events == [] then o else Step(Run(o, events[..|events| - 1]), events[|events| - 1])
  }

  /** The clamp stays strictly inside the open interval (-pi/2, pi/2), and in
      particular away from the poles where the camera basis degenerates. */
  lemma PitchLimitBelowPole()
    ensures 0.0 < PitchLimit < Pi / 2.0
    // also below the real pi / 2 = 1.57079632679..., of which Pi is an over-approximation
    ensures PitchLimit < 1.5707963
  {
  }

  /** One event keeps the invariant. */
  lemma StepKeepsInRange(o: Orbit, e: Event)
    requires InRange(o)
    ensures InRange(Step(o, e))
  {
  }

  /** Any sequence of events keeps the invariant (a consequence of Run's
      contract). */
  lemma RunKeepsInRange(o: Orbit, events: seq<Event>)
    requires InRange(o)
    ensures InRange(Run(o, events))
  {
  }

  /** Handling two batches of events one after the other is handling their
      concatenation. */
  lemma {:induction false} RunAppend(o: Orbit, first: seq<Event>, second: seq<Event>)
    ensures Run(o, first + second) == Run(Run(o, first), second)
    decreases |second|
  {
    if second == [] {
      assert first + second == first;
    } else {
      var all, init := first + second, second[..|second| - 1];
      assert all[..|all| - 1] == first + init;
      assert all[|all| - 1] == second[|second| - 1];
      RunAppend(o, first, init);
    }
  }

  /** The events are applied from the first one on: the first event is handled
      by Step, and the rest from the state it leaves. */
  lemma RunFirst(o: Orbit, e: Event, rest: seq<Event>)
    ensures Run(o, [e] + rest) == Run(Step(o, e), rest)
  {
    RunAppend(o, [e], rest);
    assert [e][..0] == [];
  }

  /** From the start of the program, every sequence of events leaves the
      pitch within the clamp and the distance at least 1. */
  lemma RunFromInitialInRange(events: seq<Event>)
    ensures InRange(Run(Initial, events))
  {
    RunKeepsInRange(Initial, events);
  }

  /** Only wheel events move the distance. */
  predicate NoWheel(events: seq<Event>) {
    forall i :: 0 <= i < |events| ==> !events[i].MouseWheel?
  }

  /** Only drags (motion with the left button held) move the angles. */
  predicate NoDrag(events: seq<Event>) {
    forall i :: 0 <= i < |events| ==> !(events[i].MouseMotion? && LeftHeld(events[i].state))
  }

  /** Without wheel events the distance is unchanged. */
  lemma {:induction false} RunWithoutWheelKeepsDistance(o: Orbit, events: seq<Event>)
    requires NoWheel(events)
    ensures Run(o, events).distance == o.distance
    decreases |events|
  {
    if events != [] {
      var init := events[..|events| - 1];
      assert NoWheel(init) by {
        forall i | 0 <= i < |init| ensures !init[i].MouseWheel? {
          assert init[i] == events[i];
        }
      }
      RunWithoutWheelKeepsDistance(o, init);
    }
  }

  /** Without drags the yaw and the pitch are unchanged. */
  lemma {:induction false} RunWithoutDragKeepsAngles(o: Orbit, events: seq<Event>)
    requires NoDrag(events)
    ensures Run(o, events).yaw == o.yaw && Run(o, events).pitch == o.pitch
    decreases |events|
  {
    if events != [] {
      var init := events[..|events| - 1];
      assert NoDrag(init) by {
        forall i | 0 <= i < |init| ensures !(init[i].MouseMotion? && LeftHeld(init[i].state)) {
          assert init[i] == events[i];
        }
      }
      RunWithoutDragKeepsAngles(o, init);
    }
  }

  /** The yaw is not bounded: one drag can turn it to any angle. */
  lemma YawUnbounded(o: Orbit, target: real)
    ensures Step(o, MouseMotion(LeftButtonMask, (target - o.yaw) / Pan, 0.0)).yaw == target
  {
  }

  /** The mutable camera state: the statics `yaw`, `pitch` and `distance`. */
  class OrbitCamera {
    var yaw: real
    var pitch: real
    var distance: real

    /** The current orbit parameters as a value. */
    function State(): Orbit
      reads this
    {
      Orbit(yaw, pitch, distance)
    }

    ghost predicate Valid()
      reads this
    {
      InRange(State())
    }

    /** The statics' initial values: yaw and pitch zero, distance 1e11. */
    constructor ()
      ensures State() == Initial && Valid()
    {
      yaw, pitch, distance := 0.0, 0.0, InitialDistance;
    }

    /** The SDL_EVENT_MOUSE_WHEEL case: zoom by the scroll amount. */
    method OnWheel(y: real)
      requires Valid()
      modifies this
      ensures Valid()
      ensures State() == Step(old(State()), MouseWheel(y))
    {
      distance := Max(MinDistance, distance - y * Zoom);
    }

    /** The SDL_EVENT_MOUSE_MOTION case: orbit while the left button is held. */
    method OnMotion(state: bv32, xrel: real, yrel: real)
      requires Valid()
      modifies this
      ensures Valid()
      ensures State() == Step(old(State()), MouseMotion(state, xrel, yrel))
    {
      if LeftHeld(state) {
        yaw := yaw + xrel * Pan;
        pitch := Clamp(pitch + yrel * Pan, -PitchLimit, PitchLimit);
      }
    }

    /** One turn of the switch in the event loop. */
    method HandleEvent(e: Event)
      requires Valid()
      modifies this
      ensures Valid()
      ensures State() == Step(old(State()), e)
    {
      match e
      case MouseWheel(y) => OnWheel(y);
      case MouseMotion(state, xrel, yrel) => OnMotion(state, xrel, yrel);
      case Quit =>
      case Other =>
    }

    /** The inner event loop of one frame, over the events polled so far. */
    method HandleEvents(events: seq<Event>)
      requires Valid()
      modifies this
      ensures Valid()
      ensures State() == Run(old(State()), events)
    {
      var i := 0;
      while i < |events|
        invariant 0 <= i <= |events|
        invariant Valid()
        invariant State() == Run(old(State()), events[..i])
      {
        assert events[..i + 1][..i] == events[..i];
        HandleEvent(events[i]);
        i := i + 1;
      }
      assert events[..|events|] == events;
    }
  }
}
