// The walking sprite chosen from the direction of motion
// (set_direction_animation). Screen y grows downward, so positive angles
// point down.

module Direction {

  /** The eight compass octants, named by where they point on screen. */
  datatype Heading = East | SouthEast | South | SouthWest | West | NorthWest | North | NorthEast

  /** First sprite of each walking pair in the sprite table. */
  function Base(h: Heading): (b: int)
    ensures 0 <= b <= 14 && b % 2 == 0
  {
    match h
    case North => 0
    case NorthEast => 2
    case East => 4
    case SouthEast => 6
    case South => 8
    case SouthWest => 10
    case West => 12
    case NorthWest => 14
  }

  /** The angle, in degrees, each heading is centred on. */
  function Center(h: Heading): real
  {
    match h
    case East => 0.0
    case SouthEast => 45.0
    case South => 90.0
    case SouthWest => 135.0
    case West => 180.0
    case NorthWest => -135.0
    case North => -90.0
    case NorthEast => -45.0
  }

  function RealAbs(r: real): real { if r < 0.0 then -r else r }

  /** Angular distance between two angles of [-180, 180], going round the
      shorter way. */
  function Gap(a: real, b: real): (g: real)
    requires -180.0 <= a <= 180.0 && -180.0 <= b <= 180.0
    ensures 0.0 <= g <= 180.0
  {
    var d := RealAbs(a - b);
    if d <= 180.0 then d else 360.0 - d
  }

  /** The chain of tests at oneko.py:598-613, taken in order. The last test
      is asserted rather than tested: every real that fails the first seven
      passes it, so the source never leaves the sprite unset. */
  function Octant(degrees: real): Heading
  {
    if -22.5 <= degrees <= 22.5 then East
    else if 22.5 < degrees <= 67.5 then SouthEast
    else if 67.5 < degrees <= 112.5 then South
    else if 112.5 < degrees <= 157.5 then SouthWest
    else if degrees > 157.5 || degrees <= -157.5 then West
    else if -157.5 < degrees <= -112.5 then NorthWest
    else if -112.5 < degrees <= -67.5 then North
    else
      assert -67.5 < degrees <= -22.5;
      NorthEast
  }

  /** The sprite shown while walking: the octant's pair, offset by the walk
      parity. */
  function DirectionSprite(degrees: real, frame: int): (i: int)
    requires frame == 0 || frame == 1
    ensures 0 <= i <= 15 && i % 2 == frame
    ensures i - frame == Base(Octant(degrees))
  {
    Base(Octant(degrees)) + frame
  }

  /** For every angle atan2 can produce, the chosen heading is a nearest one
      of the eight compass directions: its centre is within 22.5 degrees, and
      no other centre is closer. */
  lemma OctantIsNearest(degrees: real, h: Heading)
    requires -180.0 <= degrees <= 180.0
    ensures Gap(degrees, Center(Octant(degrees))) <= 22.5
    ensures Gap(degrees, Center(Octant(degrees))) <= Gap(degrees, Center(h))
  {
  }

  /** Where an angle is exactly half-way between two headings. */
  lemma OctantBoundaries()
    ensures Octant(22.5) == East && Octant(-22.5) == East
    ensures Octant(67.5) == SouthEast && Octant(112.5) == South
    ensures Octant(157.5) == SouthWest && Octant(-157.5) == West
    ensures Octant(-112.5) == NorthWest && Octant(-67.5) == North
  {
  }

  /** Sample angles and the sprite each one shows on both walk parities. */
  lemma DirectionSpriteExamples()
    ensures DirectionSprite(0.0, 0) == 4 && DirectionSprite(0.0, 1) == 5
    ensures DirectionSprite(180.0, 0) == 12 && DirectionSprite(180.0, 1) == 13
    ensures DirectionSprite(22.5, 0) == 4 && DirectionSprite(22.5001, 0) == 6
    ensures DirectionSprite(-157.5, 1) == 13
    ensures DirectionSprite(44.9, 0) == 6 && DirectionSprite(45.1, 0) == 6
    ensures DirectionSprite(90.0, 0) == 8 && DirectionSprite(-90.0, 1) == 1
  {
  }
}
