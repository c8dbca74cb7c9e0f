/** The records of the game state (main.js:19-31, 167-176, 180). Each is a
    value here; the game object owns them and replaces them when the source
    assigns to one of their fields. */
module Entities {

  /** The player (`state.boy`): top-left corner and sprite size. */
  datatype Player = Player(x: real, y: real, w: real, h: real)

  /** The evading target (`state.girl`): position, size, the point it eases
      toward (tx, ty) and the retarget countdown. */
  datatype Target = Target(x: real, y: real, w: real, h: real, tx: real, ty: real, timer: real)

  /** A projectile: position, size, velocity, the hit flag and the grace timer
      that keeps a hit arrow on screen for a moment. */
  datatype Arrow = Arrow(x: real, y: real, w: real, h: real, vx: real, vy: real,
                         hit: bool, hitTimer: real)

  /** A particle effect ("pop"): its age and where it is drawn. */
  datatype Pop = Pop(t: real, x: real, y: real)

  /** The outer game phase: 'start', 'play' or 'ending'. */
  datatype Phase = Start | Play | Ending

  /** The random draws one tick may consume, passed in instead of calling
      Math.random, Math.cos and Math.sin: (ux, uy) is the unit vector
      (cos angle, sin angle) of the retarget direction, rDist feeds
      randInt(60, 120) and rTimer feeds randRange(0.3, 0.7). */
  datatype Draws = Draws(ux: real, uy: real, rDist: real, rTimer: real)

  predicate ValidDraws(d: Draws)
  {
    d.ux * d.ux + d.uy * d.uy == 1.0 && 0.0 <= d.rDist < 1.0 && 0.0 <= d.rTimer < 1.0
  }
}
