/** The game object and its per-tick update (main.js:19-31, 65-69, 82-181,
    242-248): the single `state` record, the edge detector on it, the
    simulation step and the frame driver. */
module Game {
  import opened Numeric
  import opened Entities
  import opened Input
  import opened Movement
  import opened Arrows
  import opened Effects
  import opened Cinematic

  /** loop(): the elapsed time since the previous frame, in seconds, capped
      at 1/30. */
  function FrameDt(ts: real, last: real): (dt: real)
    ensures dt <= 1.0 / 30.0
    ensures ts >= last ==> dt >= 0.0
    ensures (ts - last) / 1000.0 >= 1.0 / 30.0 ==> dt == 1.0 / 30.0
    ensures (ts - last) / 1000.0 <= 1.0 / 30.0 ==> dt == (ts - last) / 1000.0
  {
    Min(1.0 / 30.0, (ts - last) / 1000.0)
  }

  /** The arrows of a tick after the optional shot. */
  function Armed(arrows: seq<Arrow>, fired: bool, boy: Player): seq<Arrow>
  {
    if fired then arrows + [NewArrow(boy)] else arrows
  }

  class GameState {
    const width: real
    const height: real
    var running: bool
    var t: real
    var dt: real
    /** The timestamp of the previous frame (`let last`). */
    var last: real
    var keys: KeyMap
    var pressed: KeyMap
    var hits: int
    const maxHits: int := 3
    var boy: Player
    var girl: Target
    var arrows: seq<Arrow>
    var pops: seq<Pop>
    var phase: Phase
    /** The global `end` record of the ending. */
    const end: EndRecord

    /** The sprite sizes never change; the hit counter never goes down; the
        win condition and the phase agree. */
    ghost predicate Valid()
      reads this
    {
      boy.w == 64.0 && boy.h == 64.0 && girl.w == 64.0 && girl.h == 64.0 &&
      0 <= hits && (hits >= maxHits ==> phase == Ending)
    }

    /** The initial `state` and `end` records. */
    constructor (width: real, height: real)
      ensures Valid() && fresh(end)
      ensures this.width == width && this.height == height
      ensures !running && t == 0.0 && dt == 0.0 && last == 0.0 && keys == map[] && pressed == map[]
      ensures hits == 0 && phase == Start && arrows == [] && pops == []
      ensures boy == Player(24.0, 110.0, 64.0, 64.0)
      ensures girl == Target(250.0, 60.0, 64.0, 64.0, 250.0, 60.0, 0.0)
      ensures end.View() == EndState(0.0, 0.0, 0.0, Slide, 0.0, true)
    {
      this.width := width;
      this.height := height;
      running, t, dt, last := false, 0.0, 0.0, 0.0;
      keys, pressed := map[], map[];
      hits := 0;
      boy := Player(24.0, 110.0, 64.0, 64.0);
      girl := Target(250.0, 60.0, 64.0, 64.0, 250.0, 60.0, 0.0);
      arrows, pops := [], [];
      phase := Start;
      end := new EndRecord();
    }

    /** pressedOnce(k). */
    method PressedOnce(k: string) returns (fired: bool)
      modifies this`pressed
      ensures Poll(fired, pressed) == PressStep(keys, old(pressed), k)
    {
      if !Held(pressed, k) && Held(keys, k) {
        pressed := pressed[k := true];
        return true;
      }
      if Held(pressed, k) && !Held(keys, k) {
        pressed := pressed[k := false];
      }
      return false;
    }

    /** shoot(): appends one arrow and leaves the others as they were. */
    method Shoot()
      modifies this`arrows
      ensures arrows == old(arrows) + [NewArrow(boy)]
      ensures arrows[|arrows| - 1] == Arrow(boy.x + 60.0, boy.y + 26.0, 96.0, 48.0, 400.0, 0.0, false, 0.0)
    {
      arrows := arrows + [NewArrow(boy)];
    }

    /** popHeart(): appends one pop at the centre of the playfield. */
    method PopHeart()
      modifies this`pops
      ensures pops == old(pops) + [CenterPop(width, height)]
    {
      pops := pops + [Pop(0.0, width / 2.0 - 16.0, height / 2.0 - 16.0)];
    }

    /** winSequence(): switches to the ending and resets the end record to
        values derived from the width only, so calling it again in the same
        tick leaves the same record. */
    method WinSequence()
      modifies this`phase, end
      ensures phase == Ending
      ensures end.View() == InitialEnding(width)
    {
      phase := Ending;
      end.Reset(width);
    }


    /** The movement section of update (main.js:95-102). */
    method MoveBoy(dt: real)
      modifies this`boy
      ensures boy == MovePlayer(old(boy), keys, dt, width, height)
    {
      var x := boy.x;
      var y := boy.y;
      if Held(keys, "arrowleft") || Held(keys, "a") { x := x - PlayerSpeed * dt; }
      if Held(keys, "arrowright") || Held(keys, "d") { x := x + PlayerSpeed * dt; }
      if Held(keys, "arrowup") || Held(keys, "w") { y := y - PlayerSpeed * dt; }
      if Held(keys, "arrowdown") || Held(keys, "s") { y := y + PlayerSpeed * dt; }
      boy := boy.(x := Clamp(x, 0.0, width - boy.w), y := Clamp(y, 0.0, height - boy.h - 4.0));
    }

    /** The shooting section of update (main.js:105): 'space' is polled only
        when ' ' did not fire. */
    method ShootOnEdge()
      modifies this`pressed, this`arrows
      ensures var poll := FireEdge(keys, old(pressed));
              pressed == poll.latch && arrows == Armed(old(arrows), poll.fired, boy)
    {
      var fired := PressedOnce(" ");
      if !fired {
        fired := PressedOnce("space");
      }
      assert Poll(fired, pressed) == FireEdge(keys, old(pressed));
      if fired {
        Shoot();
      }
    }

    /** What a credited hit does inside the arrow loop (main.js:116-118):
        a pop, one more hit, and the win sequence once the count reaches
        maxHits, again on every later hit of the same tick. */
    method Score()
      requires Valid()
      modifies this`pops, this`hits, this`phase, end
      ensures Valid()
      ensures pops == old(pops) + [CenterPop(width, height)]
      ensures hits == old(hits) + 1
      ensures phase == (if hits >= maxHits then Ending else old(phase))
      ensures end.View() == (if hits >= maxHits then InitialEnding(width) else old(end.View()))
    {
      PopHeart();
      hits := hits + 1;
      if hits >= maxHits {
        WinSequence();
      }
    }

    /** One iteration of the arrow loop (main.js:109-124): advance arrow i,
        credit a first overlap with the face, then tick its grace timer. */
    method VisitArrow(i: nat, dt: real)
      requires Valid() && i < |arrows|
      modifies this`arrows, this`hits, this`pops, this`phase, end
      ensures Valid()
      ensures arrows == old(arrows)[i := StepArrow(old(arrows)[i], girl, dt)]
      ensures hits == old(hits) + (if Credited(old(arrows)[i], girl, dt) then 1 else 0)
      ensures pops == old(pops) + Burst(hits - old(hits), width, height)
      ensures phase == (if hits >= maxHits then Ending else old(phase))
      ensures end.View() == (if hits > old(hits) && hits >= maxHits then InitialEnding(width) else old(end.View()))
    {
      var a := Moved(arrows[i], dt);
      if !a.hit && Collision.FaceHit(a, girl) {
        a := a.(hit := true, hitTimer := HitGrace);
        Score();
      }
      if a.hit {
        a := a.(hitTimer := a.hitTimer - dt);
      }
      arrows := arrows[i := a];
    }

    /** The arrow loop of update (main.js:108-125): every arrow visited once,
        in order, updated in place. */
    method AdvanceArrows(dt: real)
      requires Valid() && phase == Play
      modifies this`arrows, this`hits, this`pops, this`phase, end
      ensures Valid()
      ensures arrows == StepAll(old(arrows), girl, dt)
      ensures hits == old(hits) + Credits(old(arrows), girl, dt)
      ensures pops == old(pops) + Burst(Credits(old(arrows), girl, dt), width, height)
      ensures phase == (if hits >= maxHits then Ending else Play)
      ensures end.View() == (if hits >= maxHits then InitialEnding(width) else old(end.View()))
    {
      ghost var shot := arrows;
      var i := 0;
      while i < |arrows|
        invariant Valid() && 0 <= i <= |arrows| == |shot|
        invariant forall j :: 0 <= j < i ==> arrows[j] == StepArrow(shot[j], girl, dt)
        invariant forall j :: i <= j < |shot| ==> arrows[j] == shot[j]
        invariant hits == old(hits) + CreditsBefore(shot, i, girl, dt)
        invariant pops == old(pops) + Burst(hits - old(hits), width, height)
        invariant phase == (if hits >= maxHits then Ending else Play)
        invariant end.View() == (if hits >= maxHits then InitialEnding(width) else old(end.View()))
      {
        ghost var hits0 := hits;
        VisitArrow(i, dt);
        BurstExtends(old(pops), hits0 - old(hits), hits - hits0, width, height);
        i := i + 1;
      }
    }

    /** The aging loop of update (main.js:159): every pop one tick older, in
        place. */
    method AgePops(dt: real)
      modifies this`pops
      ensures pops == Aged(old(pops), dt)
    {
      var j := 0;
      while j < |pops|
        invariant 0 <= j <= |pops| == |old(pops)|
        invariant forall k :: 0 <= k < j ==> pops[k] == old(pops)[k].(t := old(pops)[k].t + dt)
        invariant forall k :: j <= k < |pops| ==> pops[k] == old(pops)[k]
      {
        pops := pops[j := pops[j].(t := pops[j].t + dt)];
        j := j + 1;
      }
    }

    /** The state after one play tick, in terms of the state before it: the
        boy moved, the fire edge polled, the arrows stepped and pruned with a
        pop and a hit per credited arrow, the target stepped, the pops aged
        and pruned, and the phase switched to the ending once the hits reach
        maxHits. */
    twostate predicate Ticked(dt: real, draws: Draws)
      requires ValidDraws(draws)
      reads this`keys, this`pressed, this`boy, this`arrows, this`girl, this`hits, this`pops, this`phase
    {
      var poll := FireEdge(old(keys), old(pressed));
      var boy1 := MovePlayer(old(boy), old(keys), dt, width, height);
      var shot := Armed(old(arrows), poll.fired, boy1);
      var credits := Credits(shot, old(girl), dt);
      && boy == boy1
      && pressed == poll.latch
      && hits == old(hits) + credits
      && arrows == Prune(StepAll(shot, old(girl), dt), width)
      && pops == PrunePops(Aged(old(pops) + Burst(credits, width, height), dt))
      && girl == StepTarget(old(girl), boy1.x, width, height, dt, draws)
      && phase == (if hits >= maxHits then Ending else Play)
    }

    /** The end record after a play tick: reset by winSequence once the hits
        reach maxHits, untouched otherwise. */
    twostate predicate EndArmed()
      reads this, end
    {
      end.View() == (if hits >= maxHits then InitialEnding(width) else old(end.View()))
    }

    /** Everything on screen: the boy inside the canvas, the target inside its
        band, every arrow still alive, every pop younger than its life. */
    predicate OnScreen()
      reads this`boy, this`girl, this`arrows, this`pops
    {
      && 0.0 <= boy.x && 0.0 <= boy.y
      && (width >= 64.0 ==> boy.x <= width - 64.0)
      && (height >= 68.0 ==> boy.y <= height - 68.0)
      && width * 0.4 <= girl.x && 20.0 <= girl.y
      && (width >= 100.0 ==> girl.x <= width - 60.0)
      && (height >= 94.0 ==> girl.y <= height - 74.0)
      && (forall i :: 0 <= i < |arrows| ==> Survives(arrows[i], width))
      && (forall i :: 0 <= i < |pops| ==> pops[i].t < PopLife)
    }

    /** The player and projectile sections of update (main.js:95-128): move,
        shoot on the fire edge, advance and credit the arrows, prune them. */
    method Shooting(dt: real)
      requires Valid() && phase == Play
      modifies this`boy, this`pressed, this`arrows, this`hits, this`pops, this`phase, end
      ensures Valid() && EndArmed()
      ensures var poll := FireEdge(keys, old(pressed));
              var shot := Armed(old(arrows), poll.fired, boy);
              var credits := Credits(shot, girl, dt);
              && boy == MovePlayer(old(boy), keys, dt, width, height)
              && pressed == poll.latch
              && hits == old(hits) + credits
              && arrows == Prune(StepAll(shot, girl, dt), width)
              && pops == old(pops) + Burst(credits, width, height)
              && phase == (if hits >= maxHits then Ending else Play)
    {
      MoveBoy(dt);
      ShootOnEdge();

      // Advance every arrow; credit a first overlap with the face.
      AdvanceArrows(dt);

      // Drop arrows that left the screen or whose hit grace has expired.
      arrows := Prune(arrows, width);
    }

    /** The body of update in the play phase (main.js:95-160), section by
        section. */
    method Tick(dt: real, draws: Draws)
      requires Valid() && ValidDraws(draws) && phase == Play
      modifies this`boy, this`pressed, this`arrows, this`hits, this`pops, this`girl, this`phase, end
      ensures Valid() && Ticked(dt, draws) && EndArmed()
    {
      Shooting(dt);

      // The target's evasion controller.
      girl := StepTarget(girl, boy.x, width, height, dt, draws);

      // Age every pop, then drop the expired ones.
      AgePops(dt);
      pops := PrunePops(pops);
    }

    /** update(dt): one simulation tick, a no-op outside the play phase. */
    method Update(dt: real, draws: Draws)
      requires Valid() && ValidDraws(draws)
      modifies this`boy, this`pressed, this`arrows, this`hits, this`pops, this`girl, this`phase, end
      ensures Valid()
      ensures old(phase) != Play ==> unchanged(this) && unchanged(end)
      ensures old(phase) == Play ==> Ticked(dt, draws) && EndArmed() && OnScreen()
    {
      if phase != Play {
        return;
      }
      Tick(dt, draws);
    }

    /** One animation frame of loop(ts): the capped step, update, and the
        state half of renderEnding when the game is in its ending. Drawing
        and the scheduling of the next frame are not modelled. */
    method Frame(ts: real, draws: Draws)
      requires Valid() && ValidDraws(draws)
      modifies this, end
      ensures Valid()
      ensures !old(running) ==> unchanged(this) && unchanged(end)
      ensures old(running) ==> dt == FrameDt(ts, old(last)) && dt <= 1.0 / 30.0 && last == ts && t == ts
      ensures old(running) && old(phase) == Ending ==>
                phase == Ending && end.View() == EndStep(old(end.View()), dt, width)
      ensures old(running) && old(phase) == Play && phase == Ending ==>
                end.View() == EndStep(InitialEnding(width), dt, width)
      ensures old(running) && old(phase) == Play ==> Ticked(dt, draws) && OnScreen()
      ensures old(running) && old(phase) != Play ==>
                boy == old(boy) && girl == old(girl) && arrows == old(arrows) && pops == old(pops) &&
                hits == old(hits) && pressed == old(pressed) && phase == old(phase)
      ensures keys == old(keys)
      ensures old(running) && phase == Ending ==> (running <==> !Handoff(end.View()))
      ensures old(running) && phase != Ending ==> running && end.View() == old(end.View())
    {
      if !running {
        return;
      }
      // update reads neither state.dt, nor state.t, nor last, so those are
      // written after it here instead of before.
      var step := FrameDt(ts, last);
      Update(step, draws);
      dt := step;
      last := ts;
      t := ts;
      Render();
    }

    /** The state half of render() (main.js:216-218): in the ending, one
        renderEnding step, which stops the loop on the hand-off to the video.
        The drawing is not modelled. */
    method Render()
      modifies this`running, end
      ensures phase == Ending ==>
                end.View() == EndStep(old(end.View()), dt, width) &&
                (running <==> old(running) && !Handoff(end.View()))
      ensures phase != Ending ==> running == old(running) && end.View() == old(end.View())
    {
      if phase == Ending {
        var handoff := end.Step(dt, width);
        if handoff {
          running := false;
        }
      }
    }
  }
}
