/** Hit particles ("pops", main.js:158-160, 179-181) and the scale/alpha
    formulas the renderer derives from timers (main.js:201, 280, 282). */
module Effects {
  import opened Numeric
  import opened Entities
  import opened Seqs

  /** Lifetime of a pop in seconds. */
  const PopLife := 0.9

  /** popHeart(): a new pop, age 0, centred on the playfield (the 32x32 glyph
      is offset by half its size). */
  function CenterPop(width: real, height: real): (p: Pop)
    ensures p.t == 0.0 && p.x + 16.0 == width / 2.0 && p.y + 16.0 == height / 2.0
  {
    Pop(0.0, width / 2.0 - 16.0, height / 2.0 - 16.0)
  }

  /** The n pops pushed by n credited hits. */
  function Burst(n: nat, width: real, height: real): (s: seq<Pop>)
    ensures |s| == n && forall i :: 0 <= i < n ==> s[i] == CenterPop(width, height)
  {
    if n == 0 then [] else Burst(n - 1, width, height) + [CenterPop(width, height)]
  }

  lemma {:induction false} BurstAppend(m: nat, n: nat, width: real, height: real)
    ensures Burst(m, width, height) + Burst(n, width, height) == Burst(m + n, width, height)
  {
    if n > 0 {
      BurstAppend(m, n - 1, width, height);
    }
  }

  /** Pushing the pops of m hits and then those of n hits onto a list pushes
      the pops of m + n hits. */
  lemma BurstExtends(p: seq<Pop>, m: nat, n: nat, width: real, height: real)
    ensures p + Burst(m, width, height) + Burst(n, width, height) == p + Burst(m + n, width, height)
  {
    BurstAppend(m, n, width, height);
    assert p + Burst(m, width, height) + Burst(n, width, height)
        == p + (Burst(m, width, height) + Burst(n, width, height));
  }

  /** Every pop one tick older. */
  function Aged(s: seq<Pop>, dt: real): (r: seq<Pop>)
    ensures |r| == |s|
    ensures forall i :: 0 <= i < |s| ==> r[i].t == s[i].t + dt && r[i].x == s[i].x && r[i].y == s[i].y
  {
    seq(|s|, i requires 0 <= i < |s| => s[i].(t := s[i].t + dt))
  }

  predicate Alive(p: Pop) { p.t < PopLife }

  /** The filter at main.js:160. */
  function PrunePops(s: seq<Pop>): (r: seq<Pop>)
    ensures |r| <= |s|
    ensures forall i :: 0 <= i < |r| ==> r[i].t < PopLife && r[i] in s
    ensures forall p :: p in s && p.t < PopLife ==> p in r
  {
    var r := Filter(s, Alive);
    forall p | p in s && Alive(p) ensures p in r {
      FilterKeepsEverySurvivor(s, Alive, p);
    }
    r
  }

  /** A pop grows from scale 1 while it lives. */
  function PopScale(t: real): (s: real)
    ensures 0.0 <= t < PopLife ==> 1.0 <= s < 1.72
  {
    1.0 + t * 0.8
  }

  /** A pop fades from full opacity and never reaches 0 while it lives. */
  function PopAlpha(t: real): (a: real)
    ensures 0.0 <= t < PopLife ==> 0.0 < a <= 1.0
    ensures t == 0.0 ==> a == 1.0
  {
    1.0 - t / 0.9
  }

  /** Older pops are more transparent. */
  lemma PopFades(t1: real, t2: real)
    requires t1 <= t2
    ensures PopAlpha(t2) <= PopAlpha(t1) && PopScale(t1) <= PopScale(t2)
  {
  }

  /** A pop half a second old is drawn at scale 1.4 and alpha 4/9; at 0.95
      seconds it has been removed. */
  lemma PopHalfway(width: real, height: real)
    ensures PopScale(0.5) == 1.4 && PopAlpha(0.5) == 4.0 / 9.0
    ensures PrunePops([CenterPop(width, height).(t := 0.5)]) == [CenterPop(width, height).(t := 0.5)]
    ensures PrunePops([CenterPop(width, height).(t := 0.95)]) == []
  {
    assert Filter([CenterPop(width, height).(t := 0.95)], Alive) == [];
  }

  /** Scale of the ending's heart: min(3.5, 0.5 + 2 heartT). */
  function HeartScale(heartT: real): (s: real)
    ensures s <= 3.5
    ensures heartT >= 0.0 ==> 0.5 <= s
    ensures heartT >= 1.5 ==> s == 3.5
  {
    Min(3.5, 0.5 + heartT * 2.0)
  }

  /** Opacity of the ending's heart: min(1, 2 heartT). */
  function HeartAlpha(heartT: real): (a: real)
    ensures a <= 1.0
    ensures heartT >= 0.0 ==> 0.0 <= a
    ensures heartT >= 0.5 ==> a == 1.0
  {
    Min(1.0, heartT * 2.0)
  }

  /** Both heart formulas grow with the heart timer, then hold. */
  lemma HeartGrows(t1: real, t2: real)
    requires t1 <= t2
    ensures HeartScale(t1) <= HeartScale(t2) && HeartAlpha(t1) <= HeartAlpha(t2)
  {
  }
}
