// The per-tick behaviour of the cat as pure functions over a snapshot of its
// state (update_state, handle_digging and handle_idle_animations), and the
// properties of that behaviour: priorities, resets, timeouts and invariants.

module Behaviour {
  import opened Geometry
  import opened Direction

  // Constants of initUI (oneko.py:110-116). NEKO_SPEED (24) only scales the
  // chase step, which each tick receives already rounded.
  const SPRITE_SIZE: int := 64
  const TRIGGER_DISTANCE: int := 64
  const CATCH_DISTANCE: int := 24
  const OFFSET_X: int := -20
  const OFFSET_Y: int := -20
  const DIG_TIMEOUT: int := 50

  /** Sprite files 1.GIF to 32.GIF are loaded as indices 0 to 31. */
  const SPRITE_COUNT: int := 32
  const SIT_SPRITE: int := 24
  const SETTLE_SPRITE: int := 26
  const DEEP_SLEEP_SPRITE: int := 28
  const SURPRISED_SPRITE: int := 31
  const SURPRISE_TICKS: int := 5
  const IDLE_PERIOD: int := 100
  /** The idle timer a dig timeout leaves behind: past the 300-tick mark. */
  const TIRED_IDLE_TIMER: int := 301

  datatype Option<T> = None | Some(value: T)

  datatype State = Chasing | Idle | Surprised | Digging

  datatype IdleAction = Sit | Wash | Sleep

  /** Every field update_state reads or writes. `lastUpdate` is the surprise
      countdown; `shown` is the sprite on display, None before the first. */
  datatype Snapshot = Snapshot(
    state: State,
    idleTimer: int,
    idleAction: IdleAction,
    idleActionCounter: int,
    digTimer: int,
    digDirection: Option<Edge>,
    lastUpdate: int,
    currentFrame: int,
    pos: Point,
    shown: Option<int>)

  /** What one tick learns from outside: the pointer, the screens, the two
      random draws of handle_idle_animations (the second one is only consumed
      when the source reaches it), the rounded chase step and the angle of
      motion in degrees. */
  datatype TickInput = TickInput(
    cursor: Point,
    screens: seq<Rect>,
    draw1: real,
    draw2: real,
    step: Point,
    degrees: real)

  /** Offset from the sprite's centre to the pointer's target point. */
  function Dx(pos: Point, cursor: Point): int { cursor.x + OFFSET_X - (pos.x + SPRITE_SIZE / 2) }
  function Dy(pos: Point, cursor: Point): int { cursor.y + OFFSET_Y - (pos.y + SPRITE_SIZE / 2) }

  /** The square of the source's `distance`; for integer offsets comparing it
      against the squared thresholds is the same as comparing the root. */
  function DistanceSquared(pos: Point, cursor: Point): int
  {
    var dx, dy := Dx(pos, cursor), Dy(pos, cursor);
    dx * dx + dy * dy
  }

  /** The squared distance is zero exactly when the offset is zero, which is
      when the source's `distance > 0` test fails. */
  lemma DistanceSquaredZero(pos: Point, cursor: Point)
    ensures DistanceSquared(pos, cursor) >= 0
    ensures DistanceSquared(pos, cursor) == 0 <==> Dx(pos, cursor) == 0 && Dy(pos, cursor) == 0
  {
    var dx, dy := Dx(pos, cursor), Dy(pos, cursor);
    assert dx * dx >= 0 && dy * dy >= 0;
    assert dx != 0 ==> dx * dx > 0;
    assert dy != 0 ==> dy * dy > 0;
  }

  /** Comparing the Euclidean distance (any nonnegative root of the squared
      distance) with a threshold k decides the same as comparing the squared
      distance with k * k; so the checks against 24, 64 and 0 can be made on
      integers. */
  lemma SquaredThreshold(d2: int, distance: real, k: nat)
    requires distance >= 0.0 && distance * distance == d2 as real
    ensures distance < k as real <==> d2 < k * k
    ensures distance > k as real <==> d2 > k * k
  {
    var kr := k as real;
    assert (k * k) as real == kr * kr;
    if distance < kr {
      assert distance * distance <= distance * kr < kr * kr;
    } else if distance > kr {
      calc {
        d2 as real;
        distance * distance;
      > { assert (distance - kr) * distance > 0.0; }
        kr * distance;
      >= { assert kr * (distance - kr) >= 0.0; }
        kr * kr;
        (k * k) as real;
      }
    } else {
      assert distance * distance == kr * kr;
    }
  }

  predicate Caught(d2: int) { d2 < CATCH_DISTANCE * CATCH_DISTANCE }
  predicate Startling(d2: int) { d2 > TRIGGER_DISTANCE * TRIGGER_DISTANCE }
  predicate Resting(st: State) { st == Idle || st == Digging }

  /** setNekoMovie guarded by `in self.animations`: the display switches to
      sprite i when its animation was loaded and keeps the old one otherwise. */
  function Show(s: Snapshot, avail: set<int>, i: int): Snapshot
    requires 0 <= i < SPRITE_COUNT
  {
    if i in avail then s.(shown := Some(i)) else s
  }

  /** set_direction_animation with the current walk parity. */
  function ShowDirection(s: Snapshot, avail: set<int>, degrees: real): Snapshot
    requires s.currentFrame == 0 || s.currentFrame == 1
  {
    Show(s, avail, DirectionSprite(degrees, s.currentFrame))
  }

  /** The chance of falling asleep from sitting, as written at oneko.py:569. */
  function SleepChance(st: State): real { if st == Digging then 0.5 else 0.1 }

  /** The sit/wash/sleep choice made every IDLE_PERIOD ticks (oneko.py:564-575),
      for a timer that has already been advanced. */
  function IdleTransition(s: Snapshot, draw1: real, draw2: real): Snapshot
  {
    if s.idleTimer % IDLE_PERIOD != 0 then s
    else match s.idleAction
      case Sit =>
        if draw1 < 0.15 then s.(idleAction := Wash, idleActionCounter := 0)
        else if s.idleTimer > 300 && draw2 < SleepChance(s.state) then s.(idleAction := Sleep, idleActionCounter := 0)
        else s
      case Wash =>
        if s.idleActionCounter > 30 then s.(idleAction := Sit, idleActionCounter := 0) else s
      case Sleep => s
  }

  /** handle_idle_animations. */
  function IdleTick(s: Snapshot, avail: set<int>, draw1: real, draw2: real): Snapshot
  {
    var t := s.idleTimer + 1;
    var s1 := IdleTransition(s.(idleTimer := t), draw1, draw2);
    match s1.idleAction
    case Sit => Show(s1, avail, SIT_SPRITE)
    case Wash =>
      var s2 := s1.(idleActionCounter := s1.idleActionCounter + 1);
      Show(s2, avail, SIT_SPRITE + t / 3 % 2)
    case Sleep =>
      var s2 := s1.(idleActionCounter := s1.idleActionCounter + 1);
      if s2.idleActionCounter < 20 then Show(s2, avail, SETTLE_SPRITE)
      else Show(s2, avail, DEEP_SLEEP_SPRITE + t / 5 % 2)
  }

  /** handle_digging: the sprite pair comes from the edge nearest the pointer
      now, not from the stored dig direction. */
  function DigTick(s: Snapshot, avail: set<int>, inp: TickInput): Snapshot
    requires |inp.screens| > 0
  {
    var t := s.digTimer + 1;
    var frames := ScreenEdge(inp.cursor, inp.screens).1;
    var s1 := Show(s.(digTimer := t), avail, if t % 2 == 0 then frames.0 else frames.1);
    if t >= DIG_TIMEOUT then
      s1.(state := Idle, idleTimer := TIRED_IDLE_TIMER, idleAction := Sleep, idleActionCounter := 0)
    else s1
  }

  /** Entry into DIGGING (oneko.py:504-507): the dig timer restarts and the
      direction is taken from the edge nearest the pointer, only when the cat
      was not already digging. */
  function EnterDigging(s: Snapshot, inp: TickInput): Snapshot
    requires |inp.screens| > 0
  {
    if s.state != Digging then
      s.(state := Digging, digTimer := 0, digDirection := Some(ScreenEdge(inp.cursor, inp.screens).0))
    else s
  }

  /** Entry into IDLE (oneko.py:512-518): sitting, with the idle timer and
      the action counter at 0, only when the cat was not already idle. */
  function EnterIdle(s: Snapshot, avail: set<int>): Snapshot
  {
    if s.state != Idle then
      Show(s.(state := Idle, idleTimer := 0, idleAction := Sit, idleActionCounter := 0), avail, SIT_SPRITE)
    else s
  }

  /** The startle of oneko.py:523-526. */
  function Startle(s: Snapshot, avail: set<int>): Snapshot
  {
    Show(s.(state := Surprised), avail, SURPRISED_SPRITE).(lastUpdate := SURPRISE_TICKS)
  }

  /** The surprise countdown of oneko.py:529-532. */
  function CountDown(s: Snapshot): Snapshot
  {
    if s.state == Surprised then
      var c := s.lastUpdate - 1;
      s.(lastUpdate := c, state := if c <= 0 then Chasing else Surprised)
    else s
  }

  /** The chase step of oneko.py:534-545. */
  function Chase(s: Snapshot, avail: set<int>, inp: TickInput, d2: int): Snapshot
    requires s.currentFrame == 0 || s.currentFrame == 1
  {
    if s.state == Chasing && d2 > 0 then
      ShowDirection(s.(pos := s.pos.Plus(inp.step), currentFrame := (s.currentFrame + 1) % 2), avail, inp.degrees)
    else s
  }

  /** update_state: one tick, its checks in the source's priority order. */
  function Tick(s: Snapshot, avail: set<int>, inp: TickInput): Snapshot
    requires s.currentFrame == 0 || s.currentFrame == 1
    requires |inp.screens| > 0
  {
    var d2 := DistanceSquared(s.pos, inp.cursor);
    if !OnAnyScreen(inp.screens, inp.cursor) then DigTick(EnterDigging(s, inp), avail, inp)
    else if Caught(d2) then IdleTick(EnterIdle(s, avail), avail, inp.draw1, inp.draw2)
    else if Resting(s.state) && Startling(d2) then Startle(s, avail)
    else Chase(CountDown(s), avail, inp, d2)
  }

  /** The state right after construction: the sprite centred on the pointer
      (the __init__ move at oneko.py:28 comes after initUI's). */
  function Initial(cursor: Point): Snapshot
  {
    Snapshot(Chasing, 0, Sit, 0, 0, None, 0, 0,
             Point(cursor.x - SPRITE_SIZE / 2, cursor.y - SPRITE_SIZE / 2), None)
  }

  /** The part of the invariant that does not depend on the state: the walk
      parity is 0 or 1, the counters are not negative, and the sprite on
      display is a loaded one in [0, 31]. */
  predicate Coherent(s: Snapshot, avail: set<int>)
  {
    (s.currentFrame == 0 || s.currentFrame == 1) &&
    s.digTimer >= 0 && s.idleActionCounter >= 0 && s.idleTimer >= 0 && s.lastUpdate >= 0 &&
    (s.shown.Some? ==> s.shown.value in avail && 0 <= s.shown.value < SPRITE_COUNT)
  }

  /** What holds before and after every tick. */
  predicate Inv(s: Snapshot, avail: set<int>)
  {
    Coherent(s, avail) &&
    (s.state == Digging ==> 1 <= s.digTimer < DIG_TIMEOUT && s.digDirection.Some?) &&
    (s.state == Surprised ==> 1 <= s.lastUpdate <= SURPRISE_TICKS) &&
    (s.state == Idle ==> s.idleTimer >= 1)
  }

  predicate ValidInputs(inputs: seq<TickInput>)
  {
    forall k :: 0 <= k < |inputs| ==> |inputs[k].screens| > 0
  }

  /** The state after a sequence of ticks, the last input applied last. */
  function Run(s: Snapshot, avail: set<int>, inputs: seq<TickInput>): (r: Snapshot)
    requires Inv(s, avail) && ValidInputs(inputs)
    ensures Inv(r, avail)
    decreases |inputs|
  {
    if |inputs| == 0 then s
    else
      var prev := Run(s, avail, inputs[..|inputs| - 1]);
      TickPreservesInv(prev, avail, inputs[|inputs| - 1]);
      Tick(prev, avail, inputs[|inputs| - 1])
  }

  // ---------------------------------------------------------------------
  // Invariants

  lemma InitialInv(cursor: Point, avail: set<int>)
    ensures Inv(Initial(cursor), avail)
  {
  }

  lemma IdleTickKeepsInv(s: Snapshot, avail: set<int>, draw1: real, draw2: real)
    requires Coherent(s, avail) && s.state == Idle && s.idleTimer >= 0
    ensures Inv(IdleTick(s, avail, draw1, draw2), avail)
  {
  }

  /** Every tick keeps the invariant; in particular every sprite ever
      displayed is a loaded one in [0, 31]. */
  lemma TickPreservesInv(s: Snapshot, avail: set<int>, inp: TickInput)
    requires Inv(s, avail) && |inp.screens| > 0
    ensures Inv(Tick(s, avail, inp), avail)
  {
    var d2 := DistanceSquared(s.pos, inp.cursor);
    if OnAnyScreen(inp.screens, inp.cursor) && Caught(d2) {
      IdleTickKeepsInv(EnterIdle(s, avail), avail, inp.draw1, inp.draw2);
    }
  }

  // ---------------------------------------------------------------------
  // One tick, case by case in the source's priority order

  /** Check 1, pointer off every screen: the tick digs. The dig timer
      restarts and the dig direction is taken only on entry; the sprite
      alternates between the pair of the edge nearest the pointer now; the
      fiftieth dig tick ends in IDLE, asleep, with the idle timer at 301. */
  lemma OffScreenTick(s: Snapshot, avail: set<int>, inp: TickInput)
    requires Inv(s, avail) && |inp.screens| > 0
    requires !OnAnyScreen(inp.screens, inp.cursor)
    ensures var r := Tick(s, avail, inp);
      var t := (if s.state == Digging then s.digTimer else 0) + 1;
      var pair := DigFrames(NearestEdge(inp.cursor, VirtualDesktop(inp.screens)));
      var sprite := if t % 2 == 0 then pair.0 else pair.1;
      r.digTimer == t &&
      r.digDirection == (if s.state == Digging then s.digDirection
                         else Some(NearestEdge(inp.cursor, VirtualDesktop(inp.screens)))) &&
      (r.state == Idle <==> s.state == Digging && s.digTimer == DIG_TIMEOUT - 1) &&
      (r.state != Idle ==>
         (r.state == Digging && r.idleTimer == s.idleTimer && r.idleAction == s.idleAction &&
          r.idleActionCounter == s.idleActionCounter)) &&
      (r.state == Idle ==>
         (r.idleTimer == TIRED_IDLE_TIMER && r.idleAction == Sleep && r.idleActionCounter == 0)) &&
      r.shown == (if sprite in avail then Some(sprite) else s.shown) &&
      r.pos == s.pos && r.currentFrame == s.currentFrame && r.lastUpdate == s.lastUpdate
  {
  }

  /** Check 2, pointer caught: the tick ends in IDLE whatever came before.
      The idle timer, action and counter restart only when the cat was not
      already IDLE; an IDLE cat just runs the idle handler on its own fields,
      so an IDLE left by a dig timeout stays asleep. */
  lemma CaughtTick(s: Snapshot, avail: set<int>, inp: TickInput)
    requires Inv(s, avail) && |inp.screens| > 0
    requires OnAnyScreen(inp.screens, inp.cursor) && Caught(DistanceSquared(s.pos, inp.cursor))
    ensures var r := Tick(s, avail, inp);
      r.state == Idle &&
      r.idleTimer == (if s.state == Idle then s.idleTimer else 0) + 1 &&
      (s.state != Idle ==>
         (r.idleAction == Sit && r.idleActionCounter == 0 &&
          r.shown == (if SIT_SPRITE in avail then Some(SIT_SPRITE) else s.shown))) &&
      (s.state == Idle ==> r == IdleTick(s, avail, inp.draw1, inp.draw2)) &&
      (s.state == Idle && s.idleAction == Sleep ==> r.idleAction == Sleep) &&
      r.pos == s.pos && r.currentFrame == s.currentFrame && r.lastUpdate == s.lastUpdate &&
      r.digTimer == s.digTimer && r.digDirection == s.digDirection
  {
  }

  /** The idle sub-machine inside a tick always compares the second draw with
      0.1: the 0.5 of oneko.py:569 needs state DIGGING, but the idle handler
      is only reached once the state is IDLE. */
  lemma CaughtSitFallsAsleep(s: Snapshot, avail: set<int>, inp: TickInput)
    requires Inv(s, avail) && |inp.screens| > 0
    requires OnAnyScreen(inp.screens, inp.cursor) && Caught(DistanceSquared(s.pos, inp.cursor))
    requires s.state == Idle && s.idleAction == Sit
    ensures var r := Tick(s, avail, inp);
      var t := s.idleTimer + 1;
      (r.idleAction == Sleep <==>
         t % IDLE_PERIOD == 0 && inp.draw1 >= 0.15 && t > 300 && inp.draw2 < 0.1) &&
      (r.idleAction == Wash <==> t % IDLE_PERIOD == 0 && inp.draw1 < 0.15)
  {
  }

  /** Check 3: a resting cat (IDLE or DIGGING) whose pointer is farther than
      the trigger distance is startled: SURPRISED, countdown 5, sprite 31,
      and no movement. */
  lemma StartleTick(s: Snapshot, avail: set<int>, inp: TickInput)
    requires Inv(s, avail) && |inp.screens| > 0
    requires OnAnyScreen(inp.screens, inp.cursor)
    requires Resting(s.state) && Startling(DistanceSquared(s.pos, inp.cursor))
    ensures var r := Tick(s, avail, inp);
      r.state == Surprised && r.lastUpdate == SURPRISE_TICKS &&
      r.shown == (if SURPRISED_SPRITE in avail then Some(SURPRISED_SPRITE) else s.shown) &&
      r.pos == s.pos && r.currentFrame == s.currentFrame &&
      r.idleTimer == s.idleTimer && r.idleAction == s.idleAction &&
      r.idleActionCounter == s.idleActionCounter && r.digTimer == s.digTimer
  {
  }

  /** A resting cat whose pointer is between the catch and trigger distances
      is left exactly as it was. */
  lemma RestingUnchanged(s: Snapshot, avail: set<int>, inp: TickInput)
    requires Inv(s, avail) && |inp.screens| > 0
    requires OnAnyScreen(inp.screens, inp.cursor) && Resting(s.state)
    requires var d2 := DistanceSquared(s.pos, inp.cursor); !Caught(d2) && !Startling(d2)
    ensures Tick(s, avail, inp) == s
  {
  }

  /** Check 4: a SURPRISED cat counts down; the tick the countdown reaches 0
      it becomes CHASING and already takes its step. */
  lemma SurprisedTick(s: Snapshot, avail: set<int>, inp: TickInput)
    requires Inv(s, avail) && |inp.screens| > 0
    requires OnAnyScreen(inp.screens, inp.cursor) && !Caught(DistanceSquared(s.pos, inp.cursor))
    requires s.state == Surprised
    ensures var r := Tick(s, avail, inp);
      r.lastUpdate == s.lastUpdate - 1 &&
      (s.lastUpdate > 1 ==>
         (r.state == Surprised && r.pos == s.pos && r.shown == s.shown &&
          r.currentFrame == s.currentFrame)) &&
      (s.lastUpdate <= 1 ==>
         (r.state == Chasing && r.pos == s.pos.Plus(inp.step) &&
          r.currentFrame == 1 - s.currentFrame))
  {
  }

  /** Check 5: a CHASING cat whose pointer is on screen and not caught takes
      the step, flips its walk parity and shows the walking sprite of the
      direction of motion with the new parity. */
  lemma ChasingTick(s: Snapshot, avail: set<int>, inp: TickInput)
    requires Inv(s, avail) && |inp.screens| > 0
    requires OnAnyScreen(inp.screens, inp.cursor) && !Caught(DistanceSquared(s.pos, inp.cursor))
    requires s.state == Chasing
    ensures var r := Tick(s, avail, inp);
      var sprite := DirectionSprite(inp.degrees, 1 - s.currentFrame);
      r.state == Chasing && r.pos == s.pos.Plus(inp.step) &&
      r.currentFrame == 1 - s.currentFrame &&
      r.shown == (if sprite in avail then Some(sprite) else s.shown) &&
      r.lastUpdate == s.lastUpdate && r.idleTimer == s.idleTimer &&
      r.idleAction == s.idleAction && r.digTimer == s.digTimer
  {
  }

  /** The cat moves in a tick exactly when the pointer is on screen, not
      caught, and the cat is chasing after the countdown. */
  predicate Moves(s: Snapshot, inp: TickInput)
  {
    OnAnyScreen(inp.screens, inp.cursor) && !Caught(DistanceSquared(s.pos, inp.cursor)) &&
    (s.state == Chasing || (s.state == Surprised && s.lastUpdate <= 1))
  }

  /** The walk parity flips exactly on the ticks where the cat moves, and the
      position changes on no other tick. The `distance > 0` test of
      oneko.py:535 never fails where it is reached, since an uncaught pointer
      is at least the catch distance away. */
  lemma ParityFlipsOnlyWhenMoving(s: Snapshot, avail: set<int>, inp: TickInput)
    requires Inv(s, avail) && |inp.screens| > 0
    ensures var r := Tick(s, avail, inp);
      (r.currentFrame != s.currentFrame <==> Moves(s, inp)) &&
      (r.pos != s.pos ==> Moves(s, inp)) &&
      (Moves(s, inp) ==> r.pos == s.pos.Plus(inp.step))
  {
    var d2 := DistanceSquared(s.pos, inp.cursor);
    if OnAnyScreen(inp.screens, inp.cursor) && !Caught(d2) {
      assert d2 > 0;
    }
  }

  // ---------------------------------------------------------------------
  // The idle sub-machine

  /** Each idle tick advances the idle timer by one, and the action changes
      only on a tick whose new timer is a multiple of 100. */
  lemma IdleTimerAndPeriod(s: Snapshot, avail: set<int>, draw1: real, draw2: real)
    ensures var r := IdleTick(s, avail, draw1, draw2);
      r.idleTimer == s.idleTimer + 1 && r.state == s.state && r.pos == s.pos &&
      (r.idleAction != s.idleAction ==> r.idleTimer % IDLE_PERIOD == 0)
  {
  }

  /** From sit: to wash exactly when the first draw is below 0.15, to sleep
      exactly when it is not, the timer is past 300 and the second draw is
      below the sleep chance, all on a 100-tick mark. */
  lemma SitTransitions(s: Snapshot, avail: set<int>, draw1: real, draw2: real)
    requires s.idleAction == Sit
    ensures var r := IdleTick(s, avail, draw1, draw2);
      var t := s.idleTimer + 1;
      (r.idleAction == Wash <==> t % IDLE_PERIOD == 0 && draw1 < 0.15) &&
      (r.idleAction == Sleep <==>
         t % IDLE_PERIOD == 0 && draw1 >= 0.15 && t > 300 && draw2 < SleepChance(s.state)) &&
      (r.idleAction == Sit ==> r.idleActionCounter == s.idleActionCounter) &&
      (r.idleAction != Sit ==> r.idleActionCounter == 1)
  {
  }

  /** From wash: back to sit exactly on a 100-tick mark with the counter
      past 30; never straight to sleep. Washing counts its ticks. */
  lemma WashTransitions(s: Snapshot, avail: set<int>, draw1: real, draw2: real)
    requires s.idleAction == Wash
    ensures var r := IdleTick(s, avail, draw1, draw2);
      var t := s.idleTimer + 1;
      r.idleAction != Sleep &&
      (r.idleAction == Sit <==> t % IDLE_PERIOD == 0 && s.idleActionCounter > 30) &&
      (r.idleAction == Sit ==> r.idleActionCounter == 0) &&
      (r.idleAction == Wash ==> r.idleActionCounter == s.idleActionCounter + 1)
  {
  }

  /** Sleep has no exit inside the idle sub-machine. */
  lemma SleepStays(s: Snapshot, avail: set<int>, draw1: real, draw2: real)
    requires s.idleAction == Sleep
    ensures var r := IdleTick(s, avail, draw1, draw2);
      r.idleAction == Sleep && r.idleActionCounter == s.idleActionCounter + 1
  {
  }

  /** The idle sprites: sit shows 24, wash alternates 24 and 25 every three
      ticks, sleep shows 26 for its first 19 ticks and then alternates 28 and
      29 every five ticks. */
  lemma IdleSprites(s: Snapshot, avail: set<int>, draw1: real, draw2: real)
    ensures var r := IdleTick(s, avail, draw1, draw2);
      var t := s.idleTimer + 1;
      var sprite :=
        match r.idleAction
        case Sit => 24
        case Wash => if t / 3 % 2 == 0 then 24 else 25
        case Sleep => if r.idleActionCounter < 20 then 26 else if t / 5 % 2 == 0 then 28 else 29;
      r.shown == (if sprite in avail then Some(sprite) else s.shown)
  {
  }

  // ---------------------------------------------------------------------
  // Several ticks

  lemma RunLast(s: Snapshot, avail: set<int>, inputs: seq<TickInput>, k: nat)
    requires Inv(s, avail) && ValidInputs(inputs) && k < |inputs|
    ensures ValidInputs(inputs[..k]) && ValidInputs(inputs[..k + 1])
    ensures Run(s, avail, inputs[..k + 1]) == Tick(Run(s, avail, inputs[..k]), avail, inputs[k])
  {
    assert inputs[..k + 1][..k] == inputs[..k];
  }

  predicate AllOffScreen(inputs: seq<TickInput>)
  {
    forall k :: 0 <= k < |inputs| ==> !OnAnyScreen(inputs[k].screens, inputs[k].cursor)
  }

  /** While the pointer stays off screen, the k-th tick of a digging episode
      that starts from any other state is DIGGING with dig timer k, and the
      dig direction stays the one chosen on entry. */
  lemma {:induction false} DigStreak(s: Snapshot, avail: set<int>, inputs: seq<TickInput>, k: nat)
    requires Inv(s, avail) && ValidInputs(inputs) && AllOffScreen(inputs)
    requires s.state != Digging && 1 <= k < DIG_TIMEOUT && k <= |inputs|
    ensures ValidInputs(inputs[..k])
    ensures var r := Run(s, avail, inputs[..k]);
      r.state == Digging && r.digTimer == k &&
      r.digDirection == Some(NearestEdge(inputs[0].cursor, VirtualDesktop(inputs[0].screens)))
  {
    RunLast(s, avail, inputs, k - 1);
    if k == 1 {
      assert inputs[..0] == [];
      OffScreenTick(s, avail, inputs[0]);
    } else {
      DigStreak(s, avail, inputs, k - 1);
      OffScreenTick(Run(s, avail, inputs[..k - 1]), avail, inputs[k - 1]);
    }
  }

  lemma LastDigTick(s: Snapshot, avail: set<int>, inp: TickInput)
    requires Inv(s, avail) && |inp.screens| > 0 && !OnAnyScreen(inp.screens, inp.cursor)
    requires s.state == Digging && s.digTimer == DIG_TIMEOUT - 1
    ensures var r := Tick(s, avail, inp);
      r.state == Idle && r.idleAction == Sleep &&
      r.idleTimer == TIRED_IDLE_TIMER && r.idleActionCounter == 0 && r.digTimer == DIG_TIMEOUT
  {
  }

  /** Fifty off-screen ticks from any state other than DIGGING end in IDLE,
      asleep, with idle timer 301 and action counter 0, after 49 ticks of
      digging. */
  lemma DigTimeout(s: Snapshot, avail: set<int>, inputs: seq<TickInput>)
    requires Inv(s, avail) && ValidInputs(inputs) && AllOffScreen(inputs)
    requires s.state != Digging && |inputs| == DIG_TIMEOUT
    ensures var r := Run(s, avail, inputs);
      r.state == Idle && r.idleAction == Sleep &&
      r.idleTimer == TIRED_IDLE_TIMER && r.idleActionCounter == 0 && r.digTimer == DIG_TIMEOUT
  {
    var n := |inputs|;
    var prefix := inputs[..n - 1];
    DigStreak(s, avail, inputs, n - 1);
    var before := Run(s, avail, prefix);
    assert before.state == Digging && before.digTimer == DIG_TIMEOUT - 1;
    assert ValidInputs(prefix);
    assert Run(s, avail, inputs) == Tick(before, avail, inputs[n - 1]);
    LastDigTick(before, avail, inputs[n - 1]);
  }

  /** A SURPRISED cat whose pointer stays on screen and uncaught (measured
      from where it stands) keeps still for countdown - 1 ticks, counting
      down by one each tick. */
  lemma {:induction false} SurpriseHolds(s: Snapshot, avail: set<int>, inputs: seq<TickInput>, k: nat)
    requires Inv(s, avail) && ValidInputs(inputs) && s.state == Surprised
    requires forall j :: 0 <= j < |inputs| ==>
      OnAnyScreen(inputs[j].screens, inputs[j].cursor) && !Caught(DistanceSquared(s.pos, inputs[j].cursor))
    requires k < s.lastUpdate && k <= |inputs|
    ensures ValidInputs(inputs[..k])
    ensures var r := Run(s, avail, inputs[..k]);
      r.state == Surprised && r.lastUpdate == s.lastUpdate - k && r.pos == s.pos &&
      r.currentFrame == s.currentFrame
  {
    if k == 0 {
      assert inputs[..0] == [];
    } else {
      SurpriseHolds(s, avail, inputs, k - 1);
      RunLast(s, avail, inputs, k - 1);
      SurprisedTick(Run(s, avail, inputs[..k - 1]), avail, inputs[k - 1]);
    }
  }

  /** ...and on the tick the countdown runs out it is CHASING and has taken
      that tick's step. */
  lemma SurpriseEnds(s: Snapshot, avail: set<int>, inputs: seq<TickInput>)
    requires Inv(s, avail) && ValidInputs(inputs) && s.state == Surprised
    requires forall j :: 0 <= j < |inputs| ==>
      OnAnyScreen(inputs[j].screens, inputs[j].cursor) && !Caught(DistanceSquared(s.pos, inputs[j].cursor))
    requires |inputs| == s.lastUpdate
    ensures var r := Run(s, avail, inputs);
      r.state == Chasing && r.pos == s.pos.Plus(inputs[|inputs| - 1].step)
  {
    var n := |inputs|;
    SurpriseHolds(s, avail, inputs, n - 1);
    RunLast(s, avail, inputs, n - 1);
    assert inputs[..n] == inputs;
    SurprisedTick(Run(s, avail, inputs[..n - 1]), avail, inputs[n - 1]);
  }
}
