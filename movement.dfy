/** Player movement (main.js:95-102) and the target's evasion controller
    (main.js:130-156). */
module Movement {
  import opened Numeric
  import opened Entities
  import opened Input

  /** Player speed in units per second. */
  const PlayerSpeed := 120.0

  function Axis(on: bool): real { if on then 1.0 else 0.0 }

  predicate Left(keys: KeyMap)  { Held(keys, "arrowleft") || Held(keys, "a") }
  predicate Right(keys: KeyMap) { Held(keys, "arrowright") || Held(keys, "d") }
  predicate Up(keys: KeyMap)    { Held(keys, "arrowup") || Held(keys, "w") }
  predicate Down(keys: KeyMap)  { Held(keys, "arrowdown") || Held(keys, "s") }

  /** Move the player by the held direction keys, then clamp it into the
      playfield, leaving a 4-unit margin at the bottom. */
  function MovePlayer(boy: Player, keys: KeyMap, dt: real, width: real, height: real): (r: Player)
    ensures r.w == boy.w && r.h == boy.h
    ensures r.x >= 0.0 && r.y >= 0.0
    ensures width >= boy.w ==> r.x <= width - boy.w
    ensures height >= boy.h + 4.0 ==> r.y <= height - boy.h - 4.0
    ensures var nx := boy.x + PlayerSpeed * dt * (Axis(Right(keys)) - Axis(Left(keys)));
            0.0 <= nx <= width - boy.w ==> r.x == nx
    ensures var ny := boy.y + PlayerSpeed * dt * (Axis(Down(keys)) - Axis(Up(keys)));
            0.0 <= ny <= height - boy.h - 4.0 ==> r.y == ny
  {
    var x1 := if Left(keys) then boy.x - PlayerSpeed * dt else boy.x;
    var x2 := if Right(keys) then x1 + PlayerSpeed * dt else x1;
    var y1 := if Up(keys) then boy.y - PlayerSpeed * dt else boy.y;
    var y2 := if Down(keys) then y1 + PlayerSpeed * dt else y1;
    boy.(x := Clamp(x2, 0.0, width - boy.w), y := Clamp(y2, 0.0, height - boy.h - 4.0))
  }

  /** The band the target retargets into horizontally, relative to the
      player: [max(boy.x + 100, 0.4 width), min(boy.x + 180, width - 60)]. */
  function RetargetMinX(boyX: real, width: real): real { Max(boyX + 100.0, width * 0.4) }
  function RetargetMaxX(boyX: real, width: real): real { Min(boyX + 180.0, width - 60.0) }

  /** Ease factor of the target per tick. */
  const TargetEase := 0.85

  /** One tick of the evasion controller: count the retarget timer down; when
      it expires pick a new clamped goal at distance randInt(60, 120) along the
      drawn direction and rearm the timer with randRange(0.3, 0.7); then ease
      85% of the way to the goal and clamp into the target's area. */
  function StepTarget(g: Target, boyX: real, width: real, height: real, dt: real, d: Draws): (r: Target)
    requires ValidDraws(d)
    ensures r.w == g.w && r.h == g.h
    ensures r.x >= width * 0.4 && r.y >= 20.0
    ensures width >= 100.0 ==> r.x <= width - 60.0
    ensures height >= g.h + 30.0 ==> r.y <= height - g.h - 10.0
    ensures g.timer - dt > 0.0 ==> r.tx == g.tx && r.ty == g.ty && r.timer == g.timer - dt
    ensures g.timer - dt <= 0.0 ==>
              r.tx >= RetargetMinX(boyX, width) && 20.0 <= r.ty <= 120.0 && 0.3 <= r.timer < 0.7
    ensures g.timer - dt <= 0.0 && RetargetMinX(boyX, width) <= RetargetMaxX(boyX, width) ==>
              r.tx <= RetargetMaxX(boyX, width)
  {
    var timer := g.timer - dt;
    var minX := RetargetMinX(boyX, width);
    var maxX := RetargetMaxX(boyX, width);
    var distance := RandInt(60, 120, d.rDist) as real;
    var tx := if timer <= 0.0 then Clamp(g.x + d.ux * distance, minX, maxX) else g.tx;
    var ty := if timer <= 0.0 then Clamp(g.y + d.uy * distance, 20.0, 120.0) else g.ty;
    var timer' := if timer <= 0.0 then RandRange(0.3, 0.7, d.rTimer) else timer;
    var x := Ease(g.x, tx, TargetEase);
    var y := Ease(g.y, ty, TargetEase);
    Target(Clamp(x, width * 0.4, width - 60.0), Clamp(y, 20.0, height - g.h - 10.0),
           g.w, g.h, tx, ty, timer')
  }

  /** The target eases 85% of the way toward its goal on every tick, whether
      or not the tick retargets: once its position and the goal chosen this
      tick lie inside its area, it ends at 15% of its former distance from
      that goal on each axis. */
  lemma TargetClosesOnGoal(g: Target, boyX: real, width: real, height: real, dt: real, d: Draws)
    requires ValidDraws(d)
    requires var r := StepTarget(g, boyX, width, height, dt, d);
             width * 0.4 <= r.tx <= width - 60.0 && 20.0 <= r.ty <= height - g.h - 10.0
    requires width * 0.4 <= g.x <= width - 60.0 && 20.0 <= g.y <= height - g.h - 10.0
    ensures var r := StepTarget(g, boyX, width, height, dt, d);
            Abs(r.x - r.tx) == 0.15 * Abs(g.x - r.tx) && Abs(r.y - r.ty) == 0.15 * Abs(g.y - r.ty)
  {
  }
}
