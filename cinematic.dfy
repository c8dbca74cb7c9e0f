/** The ending controller: the `end` record (main.js:241), its reset by
    winSequence (main.js:242-248) and the state-changing half of
    renderEnding (main.js:250-307). */
module Cinematic {
  import opened Numeric

  /** The ending's sub-phase: 'slide' then 'heart'. */
  datatype EndPhase = Slide | Heart

  /** The value of the `end` record. */
  datatype EndState = EndState(t: real, gx: real, bx: real, phase: EndPhase, heartT: real, showText: bool)

  /** Ease factor of the two standing sprites per tick. */
  const SlideEase := 0.08

  /** Where the two sprites slide to. */
  function TargetLeft(width: real): real { width / 2.0 - 48.0 }
  function TargetRight(width: real): real { width / 2.0 - 16.0 }

  /** The hand anchors the thread joins. */
  function LeftHand(e: EndState): real { e.gx + 52.0 }
  function RightHand(e: EndState): real { e.bx + 12.0 }
  function HandGap(e: EndState): real { Abs(RightHand(e) - LeftHand(e)) }

  /** The end record as winSequence leaves it: determined by the width
      alone, whatever it held before. */
  function InitialEnding(width: real): (e: EndState)
    ensures e.t == 0.0 && e.heartT == 0.0 && e.phase == Slide && e.showText
    ensures RightHand(e) - LeftHand(e) == 96.0
  {
    EndState(0.0, width / 2.0 - 100.0, width / 2.0 + 36.0, Slide, 0.0, true)
  }

  /** How far the hands are from their resting separation: the right hand
      rests 8 units left of the left hand, so this is the gap plus 8. */
  function Offset(e: EndState): real { RightHand(e) - LeftHand(e) + 8.0 }

  /** One tick of renderEnding's state update. */
  function EndStep(e: EndState, dt: real, width: real): (r: EndState)
    ensures r.t == e.t + dt
    ensures Offset(r) == 0.92 * Offset(e)
    ensures Abs(r.gx - TargetLeft(width)) == 0.92 * Abs(e.gx - TargetLeft(width))
    ensures Abs(r.bx - TargetRight(width)) == 0.92 * Abs(e.bx - TargetRight(width))
    ensures r.phase == Heart <==> e.phase == Heart || HandGap(r) < 15.0
    ensures r.heartT == if r.phase == Heart then e.heartT + dt else e.heartT
    ensures dt >= 0.0 ==> r.heartT >= e.heartT
    ensures r.showText == e.showText
  {
    var gx := Ease(e.gx, TargetLeft(width), SlideEase);
    var bx := Ease(e.bx, TargetRight(width), SlideEase);
    var x1 := gx + 52.0;
    var x2 := bx + 12.0;
    var phase := if Abs(x2 - x1) < 15.0 then Heart else e.phase;
    var heartT := if phase == Heart then e.heartT + dt else e.heartT;
    EndState(e.t + dt, gx, bx, phase, heartT, e.showText)
  }

  /** The ending hands over to the video once the heart has shown for more
      than five seconds; the test sits inside the fade test, so the hand-off
      only happens while the fade overlay is drawn. */
  predicate Handoff(e: EndState)
    ensures Handoff(e) ==> Fading(e)
  {
    e.heartT > 5.0
  }

  /** The low-opacity fade overlay is drawn after two seconds of heart. */
  predicate Fading(e: EndState) { e.heartT > 2.0 }

  /** The heart sub-phase is absorbing: once reached it is never left. */
  lemma {:induction false} HeartIsFinal(e: EndState, dts: seq<real>, width: real)
    requires e.phase == Heart
    ensures EndRun(e, dts, width).phase == Heart
  {
    if dts != [] {
      HeartIsFinal(e, dts[..|dts| - 1], width);
    }
  }

  /** The ending ticks with the frame times dts, in order. */
  function EndRun(e: EndState, dts: seq<real>, width: real): EndState
  {
    if dts == [] then e
    else EndStep(EndRun(e, dts[..|dts| - 1], width), dts[|dts| - 1], width)
  }

  function Sum(s: seq<real>): real
  {
    if s == [] then 0.0 else Sum(s[..|s| - 1]) + s[|s| - 1]
  }

  /** The offset after n ticks from the start of the ending: 104 * 0.92^n. */
  function SlideOffset(n: nat): (o: real)
    ensures o > 0.0
  {
    if n == 0 then 104.0 else 0.92 * SlideOffset(n - 1)
  }

  lemma {:induction false} SlideOffsetShrinks(m: nat, n: nat)
    requires m <= n
    ensures SlideOffset(n) <= SlideOffset(m)
  {
    if m < n {
      SlideOffsetShrinks(m, n - 1);
    }
  }

  /** The hands meet (gap under 15) exactly from tick 19 on. */
  lemma SlideOffsetCrossing(n: nat)
    ensures SlideOffset(n) < 23.0 <==> n >= 19
  {
    assert 63.06 < SlideOffset(6) < 63.07;
    assert 38.23 < SlideOffset(12) < 38.24;
    assert 23.18 < SlideOffset(18) < 23.19;
    if n >= 19 {
      SlideOffsetShrinks(19, n);
    } else {
      SlideOffsetShrinks(n, 18);
    }
  }

  /** The hands' offset after n ticks does not depend on the width or on
      the frame times. */
  lemma {:induction false} EndRunOffset(width: real, dts: seq<real>)
    ensures Offset(EndRun(InitialEnding(width), dts, width)) == SlideOffset(|dts|)
  {
    if dts != [] {
      EndRunOffset(width, dts[..|dts| - 1]);
    }
  }

  /** From winSequence on, the sub-phase switches from slide to heart on
      exactly the 19th ending tick, for every width and every sequence of
      frame times; the heart timer then holds the time elapsed since. */
  lemma {:induction false} HeartFromNineteenthTick(width: real, dts: seq<real>)
    ensures var e := EndRun(InitialEnding(width), dts, width);
            (e.phase == Heart <==> |dts| >= 19) &&
            e.heartT == (if |dts| >= 19 then Sum(dts[18..]) else 0.0) &&
            e.t == Sum(dts)
  {
    if dts != [] {
      var n := |dts| - 1;
      var prev := EndRun(InitialEnding(width), dts[..n], width);
      var e := EndStep(prev, dts[n], width);
      HeartFromNineteenthTick(width, dts[..n]);
      assert dts[..n + 1] == dts;
      EndRunOffset(width, dts);
      SlideOffsetCrossing(|dts|);
      assert HandGap(e) < 15.0 <==> Offset(e) < 23.0;
      if |dts| > 19 {
        assert dts[18..][..n - 18] == dts[18..n];
      } else if |dts| == 19 {
        assert dts[18..] == [dts[18]];
        assert Sum(dts[18..]) == Sum([]) + dts[18];
      }
    }
  }

  /** The `end` record, updated in place by winSequence and renderEnding. */
  class EndRecord {
    var t: real
    var gx: real
    var bx: real
    var phase: EndPhase
    var heartT: real
    var showText: bool

    function View(): EndState
      reads this
    {
      EndState(t, gx, bx, phase, heartT, showText)
    }

    /** `let end = { t:0, gx:0, bx:0, phase:'slide', heartT:0, showText:true }` */
    constructor ()
      ensures View() == EndState(0.0, 0.0, 0.0, Slide, 0.0, true)
    {
      t, gx, bx, phase, heartT, showText := 0.0, 0.0, 0.0, Slide, 0.0, true;
    }

    /** The reset winSequence performs. */
    method Reset(width: real)
      modifies this
      ensures View() == InitialEnding(width)
    {
      t := 0.0;
      phase := Slide;
      heartT := 0.0;
      showText := true;
      gx := width / 2.0 - 100.0;
      bx := width / 2.0 + 36.0;
    }

    /** The state update of one renderEnding call; reports whether the
        ending hands over to the video (which stops the frame loop). */
    method Step(dt: real, width: real) returns (handoff: bool)
      modifies this
      ensures View() == EndStep(old(View()), dt, width)
      ensures handoff <==> Handoff(View())
    {
      t := t + dt;
      gx := gx + (TargetLeft(width) - gx) * SlideEase;
      bx := bx + (TargetRight(width) - bx) * SlideEase;
      var x1 := gx + 52.0;
      var x2 := bx + 12.0;
      if Abs(x2 - x1) < 15.0 {
        phase := Heart;
      }
      if phase == Heart {
        heartT := heartT + dt;
      }
      handoff := false;
      if heartT > 2.0 {
        if heartT > 5.0 {
          handoff := true;
        }
      }
    }
  }
}
