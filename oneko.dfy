// The cat's window as an object whose fields change on every timer tick
// (OnekoWindow in oneko.py). Each method updates the fields step by step as
// the source does, and is proved to agree with the pure behaviour of module
// Behaviour, where the properties of a tick are stated and proved.

module Oneko {
  import opened Geometry
  import opened Behaviour

  class OnekoWindow {
    /** Indices of the sprites whose animation file was found and loaded. */
    const avail: set<int>

    var state: State
    var idleTimer: int
    var currentFrame: int
    /** The surprise countdown. */
    var lastUpdate: int
    var currentIdleAction: IdleAction
    var idleActionCounter: int
    var digTimer: int
    var digDirection: Option<Edge>
    /** Top-left corner of the window. */
    var pos: Point
    /** Index of the sprite on display; None until the first is shown. */
    var shown: Option<int>

    /** The fields as one value, on which Behaviour states what a tick does. */
    function Model(): Snapshot
      reads this
    {
      Snapshot(state, idleTimer, currentIdleAction, idleActionCounter, digTimer,
               digDirection, lastUpdate, currentFrame, pos, shown)
    }

    /** The invariant every tick keeps. */
    ghost predicate Valid()
      reads this
    {
      Inv(Model(), avail)
    }

    /** The state set up by initUI, with the window centred on the pointer. */
    constructor (avail: set<int>, cursor: Point)
      ensures Valid() && this.avail == avail && Model() == Initial(cursor)
    {
      this.avail := avail;
      state := Chasing;
      idleTimer := 0;
      currentFrame := 0;
      lastUpdate := 0;
      currentIdleAction := Sit;
      idleActionCounter := 0;
      digTimer := 0;
      digDirection := None;
      shown := None;
      pos := Point(cursor.x - SPRITE_SIZE / 2, cursor.y - SPRITE_SIZE / 2);
    }

    /** Switch the display to a loaded sprite; nothing happens when it is
        already the one on display. */
    method SetNekoMovie(i: int)
      requires i in avail
      modifies this`shown
      ensures shown == Some(i)
    {
      if shown != Some(i) {
        shown := Some(i);
      }
    }

    /** Show the walking sprite for the direction of motion. */
    method SetDirectionAnimation(degrees: real)
      requires currentFrame == 0 || currentFrame == 1
      modifies this`shown
      ensures Model() == ShowDirection(old(Model()), avail, degrees)
    {
      var frameIdx: int;
      if -22.5 <= degrees <= 22.5 {
        frameIdx := 4 + currentFrame;
      } else if 22.5 < degrees <= 67.5 {
        frameIdx := 6 + currentFrame;
      } else if 67.5 < degrees <= 112.5 {
        frameIdx := 8 + currentFrame;
      } else if 112.5 < degrees <= 157.5 {
        frameIdx := 10 + currentFrame;
      } else if degrees > 157.5 || degrees <= -157.5 {
        frameIdx := 12 + currentFrame;
      } else if -157.5 < degrees <= -112.5 {
        frameIdx := 14 + currentFrame;
      } else if -112.5 < degrees <= -67.5 {
        frameIdx := 0 + currentFrame;
      } else {
        frameIdx := 2 + currentFrame;
      }
      if frameIdx in avail {
        SetNekoMovie(frameIdx);
      }
    }

    /** handle_digging: advance the dig timer, show the sprite of the edge
        nearest the pointer, and give up into sleep after DIG_TIMEOUT ticks. */
    method HandleDigging(inp: TickInput)
      requires |inp.screens| > 0
      modifies this`digTimer, this`shown, this`state, this`idleTimer, this`currentIdleAction,
        this`idleActionCounter
      ensures Model() == DigTick(old(Model()), avail, inp)
    {
      ghost var s0 := Model();
      digTimer := digTimer + 1;
      var frames := ScreenEdge(inp.cursor, inp.screens).1;
      var frameIdx := if digTimer % 2 == 0 then frames.0 else frames.1;
      assert 0 <= frameIdx < SPRITE_COUNT;
      if frameIdx in avail {
        SetNekoMovie(frameIdx);
      }
      assert Model() == Show(s0.(digTimer := s0.digTimer + 1), avail, frameIdx);
      if digTimer >= DIG_TIMEOUT {
        state := Idle;
        idleTimer := TIRED_IDLE_TIMER;
        currentIdleAction := Sleep;
        idleActionCounter := 0;
      }
    }

    /** handle_idle_animations: the sit/wash/sleep machine and its sprites. */
    method HandleIdleAnimations(draw1: real, draw2: real)
      modifies this`idleTimer, this`currentIdleAction, this`idleActionCounter, this`shown
      ensures Model() == IdleTick(old(Model()), avail, draw1, draw2)
    {
      ghost var s0 := Model();
      idleTimer := idleTimer + 1;

      if idleTimer % IDLE_PERIOD == 0 {
        if currentIdleAction == Sit {
          if draw1 < 0.15 {
            currentIdleAction := Wash;
            idleActionCounter := 0;
          } else if idleTimer > 300 && draw2 < (if state == Digging then 0.5 else 0.1) {
            currentIdleAction := Sleep;
            idleActionCounter := 0;
          }
        } else if currentIdleAction == Wash {
          if idleActionCounter > 30 {
            currentIdleAction := Sit;
            idleActionCounter := 0;
          }
        }
      }
      assert Model() == IdleTransition(s0.(idleTimer := s0.idleTimer + 1), draw1, draw2);

      if currentIdleAction == Sit {
        if SIT_SPRITE in avail {
          SetNekoMovie(SIT_SPRITE);
        }
      } else if currentIdleAction == Wash {
        idleActionCounter := idleActionCounter + 1;
        var frameIdx := SIT_SPRITE + idleTimer / 3 % 2;
        if frameIdx in avail {
          SetNekoMovie(frameIdx);
        }
      } else {
        idleActionCounter := idleActionCounter + 1;
        if idleActionCounter < 20 {
          if SETTLE_SPRITE in avail {
            SetNekoMovie(SETTLE_SPRITE);
          }
        } else {
          var frameIdx := DEEP_SLEEP_SPRITE + idleTimer / 5 % 2;
          if frameIdx in avail {
            SetNekoMovie(frameIdx);
          }
        }
      }
    }

    /** update_state: one timer tick. */
    method UpdateState(inp: TickInput)
      requires Valid() && |inp.screens| > 0
      modifies this
      ensures Model() == Tick(old(Model()), avail, inp)
      ensures Valid()
    {
      ghost var s0 := Model();
      var distanceSquared := DistanceSquared(pos, inp.cursor);

      if !OnAnyScreen(inp.screens, inp.cursor) {
        if state != Digging {
          state := Digging;
          digTimer := 0;
          var edge := ScreenEdge(inp.cursor, inp.screens).0;
          digDirection := Some(edge);
        }
        assert Model() == EnterDigging(s0, inp);
        HandleDigging(inp);
      } else if distanceSquared < CATCH_DISTANCE * CATCH_DISTANCE {
        if state != Idle {
          state := Idle;
          idleTimer := 0;
          currentIdleAction := Sit;
          idleActionCounter := 0;
          if SIT_SPRITE in avail {
            SetNekoMovie(SIT_SPRITE);
          }
        }
        assert Model() == EnterIdle(s0, avail);
        HandleIdleAnimations(inp.draw1, inp.draw2);
      } else if (state == Idle || state == Digging) && distanceSquared > TRIGGER_DISTANCE * TRIGGER_DISTANCE {
        state := Surprised;
        if SURPRISED_SPRITE in avail {
          SetNekoMovie(SURPRISED_SPRITE);
        }
        lastUpdate := SURPRISE_TICKS;
        assert Model() == Startle(s0, avail);
      } else {
        if state == Surprised {
          lastUpdate := lastUpdate - 1;
          if lastUpdate <= 0 {
            state := Chasing;
          }
        }
        assert Model() == CountDown(s0);
        if state == Chasing {
          if distanceSquared > 0 {
            pos := pos.Plus(inp.step);
            currentFrame := (currentFrame + 1) % 2;
            SetDirectionAnimation(inp.degrees);
          }
        }
        assert Model() == Chase(CountDown(s0), avail, inp, distanceSquared);
      }
      TickPreservesInv(s0, avail, inp);
    }
  }
}
