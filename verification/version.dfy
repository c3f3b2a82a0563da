/** `Game_Version`: the (major, minor, micro) triple a level declares and
    every object class demands as its `MIN_VERSION`, with the six Python
    comparison operators. Each operator raises `TypeError` when the other
    operand is not a `Game_Version`. */
module Version {
  import opened Failures

  datatype GameVersion = GameVersion(major: int, minor: int, micro: int)

  /** The right-hand operand of a comparison: Python lets any object appear
      there, and the operators reject everything but a `Game_Version`. */
  datatype Operand = Ver(v: GameVersion) | Foreign

  /** The default version of a level in the package. */
  const PackageGameVersion := GameVersion(1, 1, 0)
  /** The default version of a level in the older root snapshot. */
  const RootGameVersion := GameVersion(1, 0, 15)
  /** `MIN_VERSION` of the base object class, inherited by most objects. */
  const ObjectMinVersion := GameVersion(1, 0, 14)
  /** `MIN_VERSION` of the rose. */
  const RoseMinVersion := GameVersion(1, 0, 15)
  /** `MIN_VERSION` of the note block, sign, level painting, cornstalk and tree. */
  const NewBlocksMinVersion := GameVersion(1, 1, 0)
  /** The default minimum version of a root-snapshot `Bopimo_Property`. */
  const PropertyDefaultMinVersion := GameVersion(1, 0, 11)

  /** `__lt__`, branch for branch. */
  predicate Less(a: GameVersion, b: GameVersion) {
    if a.major > b.major then false
    else if a.major < b.major then true
    else if a.minor > b.minor then false
    else if a.minor < b.minor then true
    else a.micro < b.micro
  }

  /** `__gt__`, branch for branch. */
  predicate Greater(a: GameVersion, b: GameVersion) {
    if a.major < b.major then false
    else if a.major > b.major then true
    else if a.minor < b.minor then false
    else if a.minor > b.minor then true
    else a.micro > b.micro
  }

  /** `__eq__`: all three components agree. */
  predicate Same(a: GameVersion, b: GameVersion) {
    a.major == b.major && a.minor == b.minor && a.micro == b.micro
  }

  /** `__le__` is `<` or `==`. */
  predicate AtMost(a: GameVersion, b: GameVersion) {
    Less(a, b) || Same(a, b)
  }

  /** `__ge__` is `>` or `==`. */
  predicate AtLeast(a: GameVersion, b: GameVersion) {
    Greater(a, b) || Same(a, b)
  }

  datatype Comparison = Eq | Ne | Lt | Le | Gt | Ge

  /** `a <op> other` as Python evaluates it. */
  function Compare(op: Comparison, a: GameVersion, other: Operand): (r: Result<bool>)
    ensures r.Raise? <==> other.Foreign?
    ensures r.Raise? ==> r.error == TypeError
    ensures other.Ver? && op == Lt ==> r == Ok(Less(a, other.v)) && r == Ok(LexLess(Key(a), Key(other.v)))
    ensures other.Ver? && op == Gt ==> r == Ok(Greater(a, other.v)) && r == Ok(LexLess(Key(other.v), Key(a)))
    ensures other.Ver? && op == Le ==> r == Ok(AtMost(a, other.v))
    ensures other.Ver? && op == Ge ==> r == Ok(AtLeast(a, other.v))
    ensures other.Ver? && op == Ne ==> r == Ok(a != other.v)
    ensures other.Ver? && op == Eq ==> r == Ok(a == other.v)
  {
    match other
    case Foreign => Raise(TypeError)
    case Ver(b) =>
      LexicographicOrder(a, b);
      match op
      case Eq => Ok(Same(a, b))
      case Ne => Ok(!Same(a, b))
      case Lt => Ok(Less(a, b))
      case Le => Ok(AtMost(a, b))
      case Gt => Ok(Greater(a, b))
      case Ge => Ok(AtLeast(a, b))
  }

  /** The components as a list, most significant first. */
  function Key(v: GameVersion): seq<int> {
    [v.major, v.minor, v.micro]
  }

  /** Lexicographic order on integer lists of one length: the reference the
      operators are checked against. */
  predicate LexLess(s: seq<int>, t: seq<int>)
    requires |s| == |t|
  {
    |s| > 0 && (s[0] < t[0] || (s[0] == t[0] && LexLess(s[1..], t[1..])))
  }

  /** `<` and `>` are lexicographic order on (major, minor, micro) and its
      converse, and `==` is equality of the triples. */
  lemma LexicographicOrder(a: GameVersion, b: GameVersion)
    ensures Less(a, b) <==> LexLess(Key(a), Key(b))
    ensures Greater(a, b) <==> LexLess(Key(b), Key(a))
    ensures Same(a, b) <==> Key(a) == Key(b)
  {
    var ka, kb := Key(a), Key(b);
    assert ka[1..][1..][1..] == [] && kb[1..][1..][1..] == [];
    assert !LexLess(ka[1..][1..][1..], kb[1..][1..][1..]);
    assert LexLess(ka[1..][1..], kb[1..][1..]) <==> a.micro < b.micro;
    assert LexLess(kb[1..][1..], ka[1..][1..]) <==> b.micro < a.micro;
    assert LexLess(ka[1..], kb[1..]) <==> a.minor < b.minor || (a.minor == b.minor && a.micro < b.micro);
    assert LexLess(kb[1..], ka[1..]) <==> b.minor < a.minor || (a.minor == b.minor && b.micro < a.micro);
    if ka == kb {
      assert ka[0] == kb[0] && ka[1] == kb[1] && ka[2] == kb[2];
    }
  }

  /** Exactly one of `<`, `==`, `>` holds, and `>` is `<` with the operands
      swapped: the operators form a strict total order. */
  lemma Trichotomy(a: GameVersion, b: GameVersion)
    ensures Less(a, b) || Same(a, b) || Greater(a, b)
    ensures !(Less(a, b) && Same(a, b)) && !(Less(a, b) && Greater(a, b)) && !(Same(a, b) && Greater(a, b))
    ensures Greater(a, b) <==> Less(b, a)
    ensures AtMost(a, b) <==> !Greater(a, b)
    ensures AtLeast(a, b) <==> !Less(a, b)
  {
  }

  /** `<` is transitive, so the version gate is monotone in the level's
      version. */
  lemma LessTransitive(a: GameVersion, b: GameVersion, c: GameVersion)
    requires Less(a, b) && Less(b, c)
    ensures Less(a, c)
  {
  }

  /** Raising a level's version never makes the gate fail: if `v >= m` and
      `w >= v` then `w >= m`. */
  lemma AtLeastTransitive(w: GameVersion, v: GameVersion, m: GameVersion)
    requires AtLeast(w, v) && AtLeast(v, m)
    ensures AtLeast(w, m)
  {
  }

  /** Root snapshot `Bopimo_Property(value, min_version)`: a value tagged with
      the first game version that understands it. */
  datatype Property<T> = Property(value: T, minVersion: GameVersion)

  /** Root snapshot `Bopimo_Property.compatible(level_version)`. */
  predicate Compatible<T>(p: Property<T>, levelVersion: GameVersion) {
    AtLeast(levelVersion, p.minVersion)
  }

  /** `compatible(v)` holds exactly when `v` is not older than the property,
      i.e. when `v < min_version` is false. */
  lemma CompatibleIffNotOlder<T>(p: Property<T>, v: GameVersion)
    ensures Compatible(p, v) <==> !Less(v, p.minVersion)
    ensures Compatible(p, v) <==> !LexLess(Key(v), Key(p.minVersion))
  {
    LexicographicOrder(v, p.minVersion);
  }

  /** The root default version 1.0.15 is accepted by a property that keeps
      its default minimum 1.0.11, and is older than the package's 1.1.0. */
  lemma RootDefaults<T>(x: T)
    ensures Compatible(Property(x, PropertyDefaultMinVersion), RootGameVersion)
    ensures Less(RootGameVersion, PackageGameVersion)
    ensures AtLeast(RootGameVersion, RoseMinVersion) && AtLeast(PackageGameVersion, ObjectMinVersion)
  {
  }
}
