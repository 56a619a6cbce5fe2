/** The surveillance-feed selector: which fixed camera feeds the clickable screen,
    and how a pointer position becomes normalised device coordinates. */
module Selection {

  /** The four perspective cameras of the scene: the user-driven primary camera
      and the three fixed surveillance cameras. */
  datatype Camera = PrimaryCamera | SecondaryCam1 | SecondaryCam2 | SecondaryCam3
  {
    /** One of the three surveillance cameras. */
    predicate IsSecondary() {
      !PrimaryCamera?
    }
  }

  /** The selection in force when the page starts. */
  const InitialSelection: Camera := SecondaryCam1

  /** The camera the click handler switches to on a hit: an identity ladder on
      cam1 and cam2 whose final `else` sends every other camera to cam1. */
  function NextCamera(c: Camera): (n: Camera)
    ensures n.IsSecondary()
    ensures n != c
  {
    if c == SecondaryCam1 then SecondaryCam2
    else if c == SecondaryCam2 then SecondaryCam3
    else SecondaryCam1
  }

  /** Position of a surveillance camera in the cycle cam1, cam2, cam3. */
  function Slot(c: Camera): (i: nat)
    requires c.IsSecondary()
    ensures i < 3
  {
    match c
    case SecondaryCam1 => 0
    case SecondaryCam2 => 1
    case SecondaryCam3 => 2
  }

  /** The surveillance camera at a position of the cycle. */
  function CameraAt(i: nat): (c: Camera)
    requires i < 3
    ensures c.IsSecondary() && Slot(c) == i
  {
    if i == 0 then SecondaryCam1 else if i == 1 then SecondaryCam2 else SecondaryCam3
  }

  /** The ladder is the successor modulo 3 on the cycle positions. */
  lemma NextIsSuccessorModThree(c: Camera)
    requires c.IsSecondary()
    ensures Slot(NextCamera(c)) == (Slot(c) + 1) % 3
    ensures NextCamera(c) == CameraAt((Slot(c) + 1) % 3)
  {
  }

  /** The selection after `hits` clicks that hit the screen. */
  function Advance(c: Camera, hits: nat): Camera
    decreases hits
  {
    if hits == 0 then c else Advance(NextCamera(c), hits - 1)
  }

  /** k hits move the selection k places round the three-camera cycle. */
  lemma {:induction false} AdvanceMovesBySlots(c: Camera, hits: nat)
    requires c.IsSecondary()
    ensures Advance(c, hits) == CameraAt((Slot(c) + hits) % 3)
    decreases hits
  {
    if hits > 0 {
      NextIsSuccessorModThree(c);
      AdvanceMovesBySlots(NextCamera(c), hits - 1);
    }
  }

  /** Three consecutive hits bring back the camera one started from, and no
      fewer than three do. */
  lemma ThreeHitsReturn(c: Camera)
    requires c.IsSecondary()
    ensures Advance(c, 3) == c
    ensures Advance(c, 1) != c && Advance(c, 2) != c
  {
    AdvanceMovesBySlots(c, 1);
    AdvanceMovesBySlots(c, 2);
    AdvanceMovesBySlots(c, 3);
  }

  /** Horizontal normalised device coordinate of a pointer position. */
  function NdcX(clientX: real, innerWidth: nat): (x: real)
    requires innerWidth > 0
    ensures 0.0 <= clientX <= innerWidth as real ==> -1.0 <= x <= 1.0
    ensures clientX == 0.0 ==> x == -1.0
    ensures clientX == innerWidth as real ==> x == 1.0
  {
    QuotientInUnitInterval(clientX, innerWidth as real);
    (clientX / innerWidth as real) * 2.0 - 1.0
  }

  /** Vertical normalised device coordinate of a pointer position; pixel rows
      grow downwards, so the axis is inverted. */
  function NdcY(clientY: real, innerHeight: nat): (y: real)
    requires innerHeight > 0
    ensures 0.0 <= clientY <= innerHeight as real ==> -1.0 <= y <= 1.0
    ensures clientY == 0.0 ==> y == 1.0
    ensures clientY == innerHeight as real ==> y == -1.0
  {
    QuotientInUnitInterval(clientY, innerHeight as real);
    -(clientY / innerHeight as real) * 2.0 + 1.0
  }

  /** Pixel column of a horizontal normalised coordinate. */
  function ClientXOf(x: real, innerWidth: nat): real {
    (x + 1.0) / 2.0 * innerWidth as real
  }

  /** Pixel row of a vertical normalised coordinate. */
  function ClientYOf(y: real, innerHeight: nat): real {
    (1.0 - y) / 2.0 * innerHeight as real
  }

  /** No pointer information is lost: the pixel position is recovered from
      the normalised coordinates. */
  lemma NdcRoundTrip(clientX: real, clientY: real, innerWidth: nat, innerHeight: nat)
    requires innerWidth > 0 && innerHeight > 0
    ensures ClientXOf(NdcX(clientX, innerWidth), innerWidth) == clientX
    ensures ClientYOf(NdcY(clientY, innerHeight), innerHeight) == clientY
  {
  }

  /** Moving right raises x; moving down lowers y. */
  lemma NdcOrientation(c1: real, c2: real, innerWidth: nat, innerHeight: nat)
    requires innerWidth > 0 && innerHeight > 0
    requires c1 < c2
    ensures NdcX(c1, innerWidth) < NdcX(c2, innerWidth)
    ensures NdcY(c1, innerHeight) > NdcY(c2, innerHeight)
  {
    QuotientIsMonotone(c1, c2, innerWidth as real);
    QuotientIsMonotone(c1, c2, innerHeight as real);
  }

  lemma QuotientInUnitInterval(a: real, d: real)
    requires d > 0.0
    ensures 0.0 <= a <= d ==> 0.0 <= a / d <= 1.0
    ensures a == 0.0 ==> a / d == 0.0
    ensures a == d ==> a / d == 1.0
  {
    assert (a / d) * d == a;
  }

  lemma QuotientIsMonotone(a: real, b: real, d: real)
    requires a < b && d > 0.0
    ensures a / d < b / d
  {
    assert b / d - a / d == (b - a) / d;
  }
}
