/** Projectiles (main.js:108-128, 163-177): spawning, the per-tick advance
    with at-most-once credit, and pruning. */
module Arrows {
  import opened Entities
  import opened Collision
  import opened Seqs

  /** The bow's offset from the player (BOW_OFF, main.js:34). */
  const BowOffX := 52.0
  const BowOffY := 18.0

  /** The seconds a hit arrow stays on screen. */
  const HitGrace := 0.1

  /** shoot(): the arrow leaves 8 units inside the bow's corner, flying right. */
  function NewArrow(boy: Player): (a: Arrow)
    ensures a == Arrow(boy.x + 60.0, boy.y + 26.0, 96.0, 48.0, 400.0, 0.0, false, 0.0)
  {
    Arrow(boy.x + BowOffX + 8.0, boy.y + BowOffY + 8.0, 96.0, 48.0, 400.0, 0.0, false, 0.0)
  }

  /** An arrow moves horizontally only, so wherever it flies it meets the
      face of a 64-unit-tall target exactly when the shooter stood in a band
      of rows around the target and the arrow is level with the face. In
      particular, an arrow shot from the player's starting position (24, 110)
      never meets the face of the target at its starting position (250, 60). */
  lemma FaceRowBand(boy: Player, g: Target, x: real)
    requires g.h == 64.0
    ensures FaceHit(NewArrow(boy).(x := x), g) <==>
              g.y - 64.4 < boy.y < g.y + 9.2 && g.x + g.w * 0.25 - 96.0 < x < g.x + g.w * 0.75
    ensures boy.y == 110.0 && g.y == 60.0 ==> !FaceHit(NewArrow(boy).(x := x), g)
  {
  }

  function Moved(a: Arrow, dt: real): Arrow
  {
    a.(x := a.x + a.vx * dt, y := a.y + a.vy * dt)
  }

  /** The arrow scores this tick: not hit before, and its advanced position
      overlaps the target's face. Arrows already hit are never tested. */
  predicate Credited(a: Arrow, g: Target, dt: real)
    ensures Credited(a, g, dt) ==> StepArrow(a, g, dt).hit && StepArrow(a, g, dt).hitTimer == HitGrace - dt
    ensures !Credited(a, g, dt) ==> StepArrow(a, g, dt).hit == a.hit
  {
    !a.hit && FaceHit(Moved(a, dt), g)
  }

  /** One iteration of the arrow loop: advance, test, then tick the grace
      timer of a hit arrow (so a fresh hit leaves 0.1 - dt). */
  function StepArrow(a: Arrow, g: Target, dt: real): (r: Arrow)
    ensures r.x == a.x + a.vx * dt && r.y == a.y + a.vy * dt
    ensures r.w == a.w && r.h == a.h && r.vx == a.vx && r.vy == a.vy
    ensures a.hit ==> r.hit && r.hitTimer == a.hitTimer - dt
    ensures !a.hit ==> (r.hit <==> FaceHit(Moved(a, dt), g))
    ensures !a.hit && r.hit ==> r.hitTimer == HitGrace - dt
    ensures !r.hit ==> r.hitTimer == a.hitTimer
  {
    var m := Moved(a, dt);
    var c := if !m.hit && FaceHit(m, g) then m.(hit := true, hitTimer := HitGrace) else m;
    if c.hit then c.(hitTimer := c.hitTimer - dt) else c
  }

  /** The whole arrow loop applied to a list, element by element. */
  function StepAll(s: seq<Arrow>, g: Target, dt: real): (r: seq<Arrow>)
    ensures |r| == |s|
    ensures forall i :: 0 <= i < |s| ==> r[i] == StepArrow(s[i], g, dt)
  {
    seq(|s|, i requires 0 <= i < |s| => StepArrow(s[i], g, dt))
  }

  /** A set hit flag is never cleared by a tick. */
  lemma HitIsSticky(s: seq<Arrow>, g: Target, dt: real, i: int)
    requires 0 <= i < |s| && s[i].hit
    ensures StepAll(s, g, dt)[i].hit
  {
  }

  /** An arrow that was hit takes the same step whatever the target does: it
      is not tested again. */
  lemma HitArrowIgnoresTarget(a: Arrow, g1: Target, g2: Target, dt: real)
    requires a.hit
    ensures StepArrow(a, g1, dt) == StepArrow(a, g2, dt)
  {
  }

  /** The number of hits the loop credits over the first n arrows of s (each
      one is a hits++ and a popHeart()). */
  function CreditsBefore(s: seq<Arrow>, n: nat, g: Target, dt: real): (c: nat)
    requires n <= |s|
    ensures c <= UnhitBefore(s, n)
  {
    if n == 0 then 0
    else CreditsBefore(s, n - 1, g, dt) + (if Credited(s[n - 1], g, dt) then 1 else 0)
  }

  /** The hits credited by one pass of the loop over s. */
  function Credits(s: seq<Arrow>, g: Target, dt: real): nat
  {
    CreditsBefore(s, |s|, g, dt)
  }

  /** The number of arrows among the first n of s that are not yet hit. */
  function UnhitBefore(s: seq<Arrow>, n: nat): (c: nat)
    requires n <= |s|
    ensures c <= n
  {
    if n == 0 then 0
    else UnhitBefore(s, n - 1) + (if s[n - 1].hit then 0 else 1)
  }

  /** The number of positions below n where `after` is hit and `before` was
      not: the arrows that flipped from unhit to hit. */
  function FlippedBefore(before: seq<Arrow>, after: seq<Arrow>, n: nat): nat
    requires n <= |before| == |after|
  {
    if n == 0 then 0
    else FlippedBefore(before, after, n - 1) + (if !before[n - 1].hit && after[n - 1].hit then 1 else 0)
  }

  /** Credit is given once per flipping arrow and for nothing else: the
      credits of a tick are exactly the arrows whose flag went from clear to
      set, and never more than the arrows that were not hit yet. */
  lemma {:induction false} CreditsAreFlips(s: seq<Arrow>, g: Target, dt: real, n: nat)
    requires n <= |s|
    ensures CreditsBefore(s, n, g, dt) == FlippedBefore(s, StepAll(s, g, dt), n)
  {
    if n > 0 {
      CreditsAreFlips(s, g, dt, n - 1);
    }
  }

  /** An arrow credited in one tick cannot be credited in any later tick. */
  lemma NoSecondCredit(a: Arrow, g1: Target, g2: Target, dt1: real, dt2: real)
    requires Credited(a, g1, dt1)
    ensures !Credited(StepArrow(a, g1, dt1), g2, dt2)
  {
  }

  /** The filter at main.js:128: on screen (x < width + 220) and, when hit,
      with grace time left. */
  predicate Survives(a: Arrow, width: real)
  {
    a.x < width + 220.0 && (!a.hit || a.hitTimer > 0.0)
  }

  function Prune(s: seq<Arrow>, width: real): (r: seq<Arrow>)
    ensures |r| <= |s|
    ensures forall i :: 0 <= i < |r| ==> Survives(r[i], width) && r[i] in s
    ensures forall a :: a in s && Survives(a, width) ==> a in r
  {
    var r := Filter(s, a => Survives(a, width));
    forall a | a in s && Survives(a, width) ensures a in r {
      FilterKeepsEverySurvivor(s, a => Survives(a, width), a);
    }
    r
  }

  /** Pruning a list whose arrows are all on screen and within their grace
      time returns it unchanged. */
  lemma PruneKeepsLiveArrows(s: seq<Arrow>, width: real)
    requires forall i :: 0 <= i < |s| ==> Survives(s[i], width)
    ensures Prune(s, width) == s
  {
    FilterAllKept(s, a => Survives(a, width));
  }

  /** A fresh hit stays visible for the rest of its tick when the tick is
      shorter than the grace period and the arrow is still on screen. */
  lemma FreshHitIsShown(a: Arrow, g: Target, dt: real, width: real)
    requires Credited(a, g, dt) && dt < HitGrace && Moved(a, dt).x < width + 220.0
    ensures StepArrow(a, g, dt).hit && Survives(StepArrow(a, g, dt), width)
  {
  }
}
