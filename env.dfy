/** The floating-point trigonometry and pygame image operations the
    simulation calls but that carry no logic of its own. They are passed in
    as opaque functions, so that every statement proved about the game holds
    whatever they return. */
module Environment {

  datatype Env = Env(
    /** `math.degrees(math.atan2(y, x))`. */
    atan2Deg: (real, real) -> real,
    /** `(math.cos(math.radians(a)), math.sin(math.radians(a)))`. */
    cosSinDeg: real -> (real, real),
    /** A zombie's unit step towards the player: from the direction
        (dx, dy), the wobble timer and the wobble amplitude, the normalised
        `direction + perpendicular * sin(timer) * amplitude`. */
    steer: (real, real, real, real) -> (real, real),
    /** Size of the bounding box of a w-by-h image after
        `pygame.transform.rotate` by the given angle in degrees. */
    rotatedSize: (nat, nat, real) -> (nat, nat))
}
