/** `Bopimo_Decal`: a texture shown by stretching a clothing mesh over a
    block. The decal is described by its texture (width, height, position,
    rotation, an offset for badly centred images); its export turns that
    into the mesh transform the game needs: a rescaled mesh, a translation
    that centres a pants texture on its leg, and a small z tilt that undoes
    the warp of the pants mesh. */
module Decal {
  import opened Vectors

  /** `Decal_Type`: which clothing mesh carries the texture. */
  datatype DecalType = Shirt | PantsLeft | PantsRight

  /** `SHIRT_WIDTH_RATIO`, `SHIRT_HEIGHT_RATIO` (a 16:17 texture). */
  const ShirtWidthRatio: real := 10.0 / 8.0
  const ShirtHeightRatio: real := 20.0 / 17.0
  /** `PANTS_WIDTH_RATIO`, `PANTS_HEIGHT_RATIO` (a 12:21 texture). */
  const PantsWidthRatio: real := 10.0 / 3.0
  const PantsHeightRatio: real := 40.0 / 21.0
  /** `PANTS_X_ADJUST`, `PANTS_Y_ADJUST`, `PANTS_TILT_FIX`. */
  const PantsXAdjust: real := 41.0 / 200.0
  const PantsYAdjust: real := 25.0 / 2000.0
  const PantsTiltFix: real := 2.0

  /** The Euler rotation of the source, `R_y · R_x · R_z` built from sines
      and cosines, applied to a vector; it is a parameter here. The angles
      are given in radians, converted from degrees with `radiansPerDegree`. */
  datatype Frame = Frame(rotate: (Vector3, Vector3) -> Vector3, radiansPerDegree: real)

  /** The decal's own state: the texture's scale is `(width, height, 0.01)`
      and the rotation pivot is only used when rotation is enabled. */
  datatype Decal = Decal(
    kind: DecalType,
    position: Vector3,
    rotation: Vector3,
    scale: Vector3,
    offset: Vector3,
    rotationEnabled: bool,
    pivot: Vector3)

  /** `Bopimo_Decal(...)`: a flat texture of the given size, no offset,
      rotation about its own centre disabled. */
  function NewDecal(kind: DecalType, position: Vector3, rotation: Vector3, width: real, height: real): (d: Decal)
    ensures d.kind == kind && d.position == position && d.rotation == rotation
    ensures d.scale == Vector3(width, height, 0.01)
    ensures d.offset == Zero && !d.rotationEnabled && d.pivot == Zero
  {
    Decal(kind, position, rotation, Vector3(width, height, 0.01), Zero, false, Zero)
  }

  /** The width and height ratios of the mesh that carries `kind`; every
      type other than the shirt uses the pants mesh. */
  function Ratios(kind: DecalType): (r: (real, real))
    ensures r.0 > 1.0 && r.1 > 1.0
  {
    match kind
    case Shirt => (ShirtWidthRatio, ShirtHeightRatio)
    case _ => (PantsWidthRatio, PantsHeightRatio)
  }

  /** `calculate_size()`: the mesh size that makes the texture come out at
      the decal's scale; the depth is kept. */
  function CalculateSize(d: Decal): (s: Vector3)
    ensures d.kind.Shirt? ==> s.x == d.scale.x * (10.0 / 8.0) && s.y == d.scale.y * (20.0 / 17.0)
    ensures !d.kind.Shirt? ==> s.x == d.scale.x * (10.0 / 3.0) && s.y == d.scale.y * (40.0 / 21.0)
    ensures s.z == d.scale.z
    ensures d.scale.x > 0.0 ==> s.x > d.scale.x
    ensures d.scale.y > 0.0 ==> s.y > d.scale.y
  {
    var (w, h) := Ratios(d.kind);
    Vector3(d.scale.x * w, d.scale.y * h, d.scale.z)
  }

  /** The texture size a mesh size shows: the ratios undone. */
  function TextureSize(kind: DecalType, mesh: Vector3): Vector3 {
    var (w, h) := Ratios(kind);
    Vector3(mesh.x / w, mesh.y / h, mesh.z)
  }

  /** The mesh size determines the texture size: nothing is lost. */
  lemma SizeRoundTrip(d: Decal)
    ensures TextureSize(d.kind, CalculateSize(d)) == d.scale
  {
    var (w, h) := Ratios(d.kind);
    assert d.scale.x * w / w == d.scale.x;
    assert d.scale.y * h / h == d.scale.y;
  }

  /** The unrotated shift of a pants texture towards its leg: the left leg
      moves by `-41/200` of the mesh width, the right leg by `+41/200`, both
      up by `25/2000` of the mesh height, plus the decal's offset; depth 0. */
  function LegShift(kind: DecalType, mesh: Vector3, offset: Vector3): (v: Vector3)
    requires !kind.Shirt?
    ensures kind.PantsLeft? ==> v.x == -(41.0 / 200.0) * mesh.x + offset.x
    ensures kind.PantsRight? ==> v.x == (41.0 / 200.0) * mesh.x + offset.x
    ensures v.y == (25.0 / 2000.0) * mesh.y + offset.y && v.z == 0.0
  {
    var direction := if kind.PantsRight? then -1.0 else 1.0;
    Vector3(PantsXAdjust * mesh.x * -direction + offset.x, PantsYAdjust * mesh.y + offset.y, 0.0)
  }

  /** Without an offset the two legs shift to mirror images of each other
      across the mesh's vertical axis. */
  lemma LegsMirror(mesh: Vector3)
    ensures LegShift(PantsLeft, mesh, Zero).x == -LegShift(PantsRight, mesh, Zero).x
    ensures LegShift(PantsLeft, mesh, Zero).y == LegShift(PantsRight, mesh, Zero).y
    ensures LegShift(PantsLeft, mesh, Zero).z == LegShift(PantsRight, mesh, Zero).z == 0.0
  {
  }

  /** `calculate_center_vector(scale)`: zero for a shirt; for pants the leg
      shift turned by the decal's rotation (in radians). */
  function CenterVector(f: Frame, d: Decal, mesh: Vector3): (t: Vector3)
    ensures d.kind.Shirt? ==> t == Zero
    ensures !d.kind.Shirt? ==> t == f.rotate(ToRadians(d.rotation, f.radiansPerDegree), LegShift(d.kind, mesh, d.offset))
  {
    if d.kind.Shirt? then Zero
    else f.rotate(ToRadians(d.rotation, f.radiansPerDegree), LegShift(d.kind, mesh, d.offset))
  }

  /** The transform fields `json()` writes for the decal: the mesh scale,
      the position, the rotation pivot offset and the rotation. */
  datatype Placement = Placement(scale: Vector3, position: Vector3, pivot: Vector3, rotation: Vector3)

  /** `PANTS_TILT_FIX` with its sign: +2 for the right leg, -2 for the
      left. */
  function Tilt(kind: DecalType): (z: real)
    requires !kind.Shirt?
    ensures kind.PantsRight? ==> z == 2.0
    ensures kind.PantsLeft? ==> z == -2.0
  {
    if kind.PantsRight? then PantsTiltFix else -PantsTiltFix
  }

  /** `json()`: the mesh size replaces the scale; the centring translation
      goes to the pivot when rotation is enabled (the pivot carries the
      texture then) and to the position otherwise; pants get their tilt on
      the z rotation. */
  function Json(f: Frame, d: Decal): (p: Placement)
    ensures p.scale == CalculateSize(d)
    ensures d.rotationEnabled ==> p.position == d.position && p.pivot == Add(d.pivot, CenterVector(f, d, p.scale))
    ensures !d.rotationEnabled ==> p.pivot == d.pivot && p.position == Add(d.position, CenterVector(f, d, p.scale))
    ensures d.kind.Shirt? ==> p.rotation == d.rotation
    ensures !d.kind.Shirt? ==> p.rotation == Vector3(d.rotation.x, d.rotation.y, d.rotation.z + Tilt(d.kind))
  {
    var mesh := CalculateSize(d);
    var t := CenterVector(f, d, mesh);
    var position := if d.rotationEnabled then d.position else Add(d.position, t);
    var pivot := if d.rotationEnabled then Add(d.pivot, t) else d.pivot;
    var rotation := if d.kind.Shirt? then d.rotation else Add(d.rotation, Vector3(0.0, 0.0, Tilt(d.kind)));
    Placement(mesh, position, pivot, rotation)
  }

  /** The decal's own transform is recovered from its export: the texture
      size from the mesh size, the moved point by taking the translation
      back off, and the rotation by taking the tilt back off. */
  lemma JsonRecoversDecal(f: Frame, d: Decal)
    ensures var p := Json(f, d);
      var t := CenterVector(f, d, p.scale);
      TextureSize(d.kind, p.scale) == d.scale
      && (if d.rotationEnabled then Sub(p.pivot, t) == d.pivot else Sub(p.position, t) == d.position)
      && (d.kind.Shirt? || Sub(p.rotation, Vector3(0.0, 0.0, Tilt(d.kind))) == d.rotation)
  {
    SizeRoundTrip(d);
  }

  /** A shirt decal only changes size: its position, pivot and rotation are
      exported as they are. */
  lemma ShirtOnlyRescales(f: Frame, d: Decal)
    requires d.kind.Shirt?
    ensures Json(f, d) == Placement(CalculateSize(d), d.position, d.pivot, d.rotation)
  {
  }

  /** Exactly one of position and pivot moves, and only by the centring
      translation; the two legs tilt in opposite directions. */
  lemma OnePointMoves(f: Frame, d: Decal)
    ensures var p := Json(f, d);
      (p.position == d.position || p.pivot == d.pivot)
      && Add(Sub(p.position, d.position), Sub(p.pivot, d.pivot)) == CenterVector(f, d, p.scale)
    ensures Tilt(PantsLeft) + Tilt(PantsRight) == 0.0
  {
    var p := Json(f, d);
    MovedByOne(d.position, d.pivot, CenterVector(f, d, p.scale), p.position, p.pivot);
  }

  /** Of two points, one stays and the other moves by `t`: their two moves
      are zero and `t`, and add up to `t`. */
  lemma MovedByOne(a: Vector3, b: Vector3, t: Vector3, a1: Vector3, b1: Vector3)
    requires (a1 == a && b1 == Add(b, t)) || (b1 == b && a1 == Add(a, t))
    ensures a1 == a || b1 == b
    ensures Add(Sub(a1, a), Sub(b1, b)) == t
  {
    AdditiveGroup(t, a);
    AdditiveGroup(t, b);
    AdditiveGroup(a, t);
    AdditiveGroup(b, t);
  }
}
