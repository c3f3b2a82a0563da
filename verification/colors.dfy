/** `Color`: an 8-bit RGB triple. The constructor clamps every channel into
    [0, 255]; `from_hsv` builds a colour from hue, saturation and value
    through the private `__from_hs` sector table and clamps again. Later
    assignment to a channel is not clamped. */
module Colors {
  import opened Failures
  import opened Wire

  datatype Color = Color(red: int, green: int, blue: int)

  /** The right-hand operand of `==`/`!=`. */
  datatype Operand = Col(c: Color) | Foreign

  /** `max(0, min(v, 255))`, the clamp shared by colour channels and the
      opacity attributes of blocks. */
  function Clamp8(v: int): (r: int)
    ensures 0 <= r <= 255
    ensures 0 <= v <= 255 ==> r == v
    ensures v < 0 ==> r == 0
    ensures v > 255 ==> r == 255
  {
    var m := if v < 255 then v else 255;
    if 0 < m then m else 0
  }

  /** Every channel lies in [0, 255]. */
  predicate InRange(c: Color) {
    0 <= c.red <= 255 && 0 <= c.green <= 255 && 0 <= c.blue <= 255
  }

  /** `Color(red, green, blue)`: `__init__` followed by `__clamp`. Each
      channel is clamped on its own; in-range channels are kept as given. */
  function New(red: int, green: int, blue: int): (c: Color)
    ensures InRange(c)
    ensures c.red == Clamp8(red) && c.green == Clamp8(green) && c.blue == Clamp8(blue)
    ensures InRange(Color(red, green, blue)) ==> c == Color(red, green, blue)
    ensures red < 0 ==> c.red == 0
    ensures red > 255 ==> c.red == 255
  {
    Clamp(Color(red, green, blue))
  }

  /** `__clamp()` on an existing colour. */
  function Clamp(c: Color): (r: Color)
    ensures InRange(r)
    ensures r.red == Clamp8(c.red) && r.green == Clamp8(c.green) && r.blue == Clamp8(c.blue)
    ensures InRange(c) ==> r == c
  {
    Color(Clamp8(c.red), Clamp8(c.green), Clamp8(c.blue))
  }

  /** Clamping twice is clamping once. */
  lemma ClampIdempotent(c: Color)
    ensures Clamp(Clamp(c)) == Clamp(c)
  {
  }

  /** `c.red = v`: a plain attribute write, not clamped again. */
  function SetRed(c: Color, v: int): (r: Color)
    ensures r.red == v && r.green == c.green && r.blue == c.blue
  {
    c.(red := v)
  }

  /** Assignment after construction can leave the range. */
  lemma AssignmentNotClamped()
    ensures InRange(New(0, 0, 0)) && !InRange(SetRed(New(0, 0, 0), 300))
  {
  }

  /** Python's `int(x)` on a float: truncation toward zero. */
  function Trunc(x: real): (r: int)
    ensures 0.0 <= x ==> 0 <= r && r as real <= x < r as real + 1.0
    ensures x < 0.0 ==> r <= 0 && r as real - 1.0 < x <= r as real
  {
    if 0.0 <= x then x.Floor else -((-x).Floor)
  }

  /** The integer part `i` of `math.modf((h % 360) / 60)`. Python's `%` by
      the positive 360 is never negative, like Dafny's. */
  function HueSector(h: int): (i: int)
    ensures 0 <= i <= 5
    ensures i == (h % 360) / 60
    ensures i as real <= ((h % 360) as real) / 60.0 < i as real + 1.0
  {
    var m := h % 360;
    SectorFloor(m);
    ((m as real) / 60.0).Floor
  }

  /** For an integer `m` in [0, 360), the floor of `m / 60` over the reals is
      the integer quotient. */
  lemma SectorFloor(m: int)
    requires 0 <= m < 360
    ensures ((m as real) / 60.0).Floor == m / 60
  {
    var k, r := m / 60, m % 60;
    assert m == 60 * k + r;
    assert (m as real) / 60.0 == k as real + (r as real) / 60.0;
    assert 0.0 <= (r as real) / 60.0 < 1.0;
  }

  /** True when one of the three components equals `x`. */
  predicate Has(c: (real, real, real), x: real) {
    c.0 == x || c.1 == x || c.2 == x
  }

  /** True when every component lies in [lo, hi]. */
  predicate Within(c: (real, real, real), lo: real, hi: real) {
    lo <= c.0 <= hi && lo <= c.1 <= hi && lo <= c.2 <= hi
  }

  /** `__from_hs(h, s)`: the RGB fractions of hue `h` at saturation `s` and
      full value. The six sectors of 60 degrees each return a tuple holding
      1 and 1 - s; the `(1, 1, 1)` fallback is never reached because the
      sector is always one of 0..5. */
  function FromHs(h: int, s: real): (c: (real, real, real))
    ensures Has(c, 1.0) && Has(c, 1.0 - s)
    ensures 0.0 <= s <= 1.0 ==> Within(c, 1.0 - s, 1.0)
    ensures s == 0.0 ==> c == (1.0, 1.0, 1.0)
  {
    var hue := ((h % 360) as real) / 60.0;
    var i := HueSector(h);
    var frac := hue - i as real;
    var t := 1.0 - s;
    var f := s * frac + t;
    var g := s * (1.0 - frac) + t;
    SaturatedBetween(s, frac);
    SaturatedBetween(s, 1.0 - frac);
    if i == 0 then (1.0, f, t)
    else if i == 1 then (g, 1.0, t)
    else if i == 2 then (t, 1.0, f)
    else if i == 3 then (t, g, 1.0)
    else if i == 4 then (f, t, 1.0)
    else if i == 5 then (1.0, t, g)
    else (1.0, 1.0, 1.0)
  }

  /** For a fraction `a` in [0, 1], `s * a + (1 - s)` lies in [1 - s, 1]. */
  lemma SaturatedBetween(s: real, a: real)
    ensures 0.0 <= s <= 1.0 && 0.0 <= a <= 1.0 ==> 1.0 - s <= s * a + (1.0 - s) <= 1.0
  {
    if 0.0 <= s <= 1.0 && 0.0 <= a <= 1.0 {
      assert 0.0 <= s * a;
      assert s * a <= s * 1.0;
    }
  }

  /** `Color.from_hsv(hue, saturation, value)`: the `__from_hs` fractions
      scaled by `value * 255`, truncated with `int()`, clamped by the
      constructor and clamped once more. The brightest channel is the
      truncated `value * 255` and the darkest the truncated
      `(1 - saturation) * value * 255`, both clamped. */
  function FromHsv(hue: int, saturation: real, value: real): (c: Color)
    ensures InRange(c)
    ensures HasChannel(c, Clamp8(Channel(1.0, value)))
    ensures HasChannel(c, Clamp8(Channel(1.0 - saturation, value)))
    ensures saturation == 0.0 ==> c.red == c.green == c.blue
  {
    var rgb := FromHs(hue, saturation);
    ChannelCarries(rgb, 1.0, value);
    ChannelCarries(rgb, 1.0 - saturation, value);
    Clamp(Scaled(rgb, value))
  }

  /** The three fractions scaled by `value * 255`, truncated and passed to
      the constructor. */
  function Scaled(rgb: (real, real, real), value: real): (c: Color)
    ensures InRange(c)
  {
    New(Channel(rgb.0, value), Channel(rgb.1, value), Channel(rgb.2, value))
  }

  /** `int(x * value * 255)` for one fraction `x` of `__from_hs`. */
  function Channel(x: real, value: real): int {
    Trunc(x * value * 255.0)
  }

  /** A fraction present in the `__from_hs` tuple shows up, scaled and
      clamped, as one of the channels. */
  lemma ChannelCarries(rgb: (real, real, real), x: real, value: real)
    requires Has(rgb, x)
    ensures HasChannel(Clamp(Scaled(rgb, value)), Clamp8(Channel(x, value)))
  {
    var a, b, c := Channel(rgb.0, value), Channel(rgb.1, value), Channel(rgb.2, value);
    var y := Channel(x, value);
    assert y == a || y == b || y == c;
    ClampCarries(a, b, c, y);
  }

  /** A constructor argument shows up, clamped, as one of the channels. */
  lemma ClampCarries(a: int, b: int, c: int, y: int)
    requires y == a || y == b || y == c
    ensures HasChannel(Clamp(New(a, b, c)), Clamp8(y))
  {
  }

  /** True when one of the channels equals `v`. */
  predicate HasChannel(c: Color, v: int) {
    c.red == v || c.green == v || c.blue == v
  }

  /** Pure red, green and blue at the three primary hues, and white at zero
      saturation. */
  lemma PrimaryHues()
    ensures FromHsv(0, 1.0, 1.0) == Color(255, 0, 0)
    ensures FromHsv(120, 1.0, 1.0) == Color(0, 255, 0)
    ensures FromHsv(240, 1.0, 1.0) == Color(0, 0, 255)
    ensures FromHsv(360, 1.0, 1.0) == Color(255, 0, 0)
    ensures FromHsv(45, 0.0, 1.0) == Color(255, 255, 255)
  {
    assert HueSector(0) == 0 && HueSector(120) == 2 && HueSector(240) == 4 && HueSector(360) == 0;
  }

  /** `a == other` and `a != other`: channel by channel, `TypeError` against
      any other class. */
  function Equals(a: Color, other: Operand, negate: bool): (r: Result<bool>)
    ensures r.Raise? <==> other.Foreign?
    ensures r.Raise? ==> r.error == TypeError
    ensures other.Col? ==> r == Ok((a == other.c) != negate)
  {
    match other
    case Foreign => Raise(TypeError)
    case Col(b) => Ok((a.red == b.red && a.green == b.green && a.blue == b.blue) != negate)
  }

  /** `to_obj()`: `{"r": red, "g": green, "b": blue}`. */
  function ToObj(c: Color): Json {
    JObj([("r", JInt(c.red)), ("g", JInt(c.green)), ("b", JInt(c.blue))])
  }

  /** Reads an `{r, g, b}` object back. */
  function FromObj(j: Json): Option<Color> {
    if j.JObj? && |j.fields| == 3
      && j.fields[0].0 == "r" && j.fields[0].1.JInt?
      && j.fields[1].0 == "g" && j.fields[1].1.JInt?
      && j.fields[2].0 == "b" && j.fields[2].1.JInt?
    then
      Some(Color(j.fields[0].1.i, j.fields[1].1.i, j.fields[2].1.i))
    else
      None
  }

  /** `to_obj()` loses nothing: the colour is read back from it. */
  lemma ObjRoundTrip(c: Color)
    ensures FromObj(ToObj(c)) == Some(c)
  {
  }
}
