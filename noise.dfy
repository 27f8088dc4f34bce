/**
 * The two kinds of audible event delivered to the agents. The broadcast
 * channel itself is not modelled: handlers are called directly.
 */
module Noise {
  import opened Geometry

  /** A one-shot sound: where it happened, how far it should carry, who made it, and when. */
  datatype NoiseEvent = NoiseEvent(position: Vec3, radius: real, sourceId: int, time: real)

  /**
   * One frame of an expanding sound wave. The same `pulseId` is broadcast on
   * every frame of the wave's life, each time with a larger `currentRadius`.
   */
  datatype NoisePulse = NoisePulse(pulseId: int, position: Vec3, currentRadius: real, sourceId: int)
}
