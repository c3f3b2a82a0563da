/** The typed arrays: `Vector3Array`, `ColorArray`, `IntArray` with its
    32- and 64-bit subclasses, and `Float32Array`. Each wraps a Python list
    and forwards `add_*`/`get_*`/`set_*`/`remove_*`/`clear`/`+`/`len` to it;
    the sequence operations are therefore defined once, here and in
    `PyList`. What differs per class is the element conversion of
    `Float32Array`, the bound check of the fixed-width integer arrays, the
    class of the result of `IntArray.__add__`, the class test of `==` and
    the wire name of `json()`. */
module TypedArrays {
  import opened Failures
  import opened Wire
  import PyList
  import Vectors
  import Colors

  /** `IntArray` itself and its two fixed-width subclasses. */
  datatype IntWidth = Unbounded | Bits32 | Bits64

  datatype Vector3Array = Vector3Array(vectors: seq<Vectors.Vector3>)
  datatype ColorArray = ColorArray(colors: seq<Colors.Color>)
  /** `signed` is only read by the fixed-width subclasses, whose constructor
      sets it to false. */
  datatype IntArray = IntArray(width: IntWidth, signed: bool, ints: seq<int>)
  datatype Float32Array = Float32Array(floats: seq<real>)

  /** Any Python object, as the operand of `==`. */
  datatype Value =
    | V3(v: Vector3Array)
    | Cols(c: ColorArray)
    | Ints(i: IntArray)
    | F32(f: Float32Array)
    | OtherObject

  const Vector3ArrayName := "Vector3F32_Array"
  const ColorArrayName := "Color8_Array"
  const Float32ArrayName := "Float32_Array"

  /** `bopjson_type_name` of the integer array classes. */
  function IntArrayName(w: IntWidth): string {
    match w
    case Unbounded => "Int_Array"
    case Bits32 => "Int32_Array"
    case Bits64 => "Int64_Array"
  }

  // ---------------------------------------------------------------------
  // Sequence operations shared by every array class

  /** `add_*(x)`: `list.append`. */
  function Append<T>(s: seq<T>, x: T): (r: seq<T>)
    ensures |r| == |s| + 1 && r[|s|] == x
    ensures forall i :: 0 <= i < |s| ==> r[i] == s[i]
  {
    s + [x]
  }

  /** `a + b`: the elements of `a` followed by those of `b`, for another
      array of the class or a plain list alike. */
  function Concat<T>(s: seq<T>, other: seq<T>): (r: seq<T>)
    ensures |r| == |s| + |other|
    ensures forall i :: 0 <= i < |s| ==> r[i] == s[i]
    ensures forall i :: 0 <= i < |other| ==> r[|s| + i] == other[i]
  {
    s + other
  }

  /** `is_empty()`: `len(self) == 0`. */
  function IsEmpty<T>(s: seq<T>): (r: bool)
    ensures r <==> s == []
  {
    |s| == 0
  }

  /** `clear()` */
  function Clear<T>(s: seq<T>): (r: seq<T>)
    ensures IsEmpty(r)
  {
    []
  }

  /** `get_*(-1)` right after `add_*(x)` returns `x`, and `remove_*(-1)`
      returns `x` with the array as it was; `add` only ever grows the end. */
  lemma AppendThenGetAndRemove<T>(s: seq<T>, x: T)
    ensures PyList.Get(Append(s, x), -1) == Ok(x)
    ensures PyList.Get(Append(s, x), |s|) == Ok(x)
    ensures PyList.Pop(Append(s, x), -1) == Ok((x, s))
  {
    assert Append(s, x)[..|s|] + Append(s, x)[|s| + 1..] == s;
  }

  /** `set_*(i, v)` followed by `get_*(i)` gives `v`, every other position
      keeps its element, and writing back what `get_*(i)` returned changes
      nothing. */
  lemma SetThenGet<T>(s: seq<T>, i: int, j: int, v: T)
    requires PyList.InRange(|s|, i) && PyList.InRange(|s|, j)
    ensures PyList.Get(PyList.Set(s, i, v).value, i) == Ok(v)
    ensures PyList.Slot(|s|, j) != PyList.Slot(|s|, i) ==>
      PyList.Get(PyList.Set(s, i, v).value, j) == PyList.Get(s, j)
    ensures PyList.Set(s, i, PyList.Get(s, i).value) == Ok(s)
  {
    var k := PyList.Slot(|s|, i);
    assert s[k := s[k]] == s;
  }

  /** `remove_*(i)` returns the element at `i`, and putting it back between
      the two halves gives the original array. */
  lemma RemoveSplits<T>(s: seq<T>, i: int)
    requires PyList.InRange(|s|, i)
    ensures var k := PyList.Slot(|s|, i);
      var r := PyList.Pop(s, i).value;
      r.1[..k] + [r.0] + r.1[k..] == s
  {
    var k := PyList.Slot(|s|, i);
    var r := PyList.Pop(s, i).value;
    assert r.1 == s[..k] + s[k + 1..];
    assert r.1[..k] == s[..k] && r.1[k..] == s[k + 1..];
  }

  /** Concatenation is associative and `clear` gives its unit, so `+`
      keeps the order of all elements. */
  lemma ConcatMonoid<T>(a: seq<T>, b: seq<T>, c: seq<T>)
    ensures Concat(Concat(a, b), c) == Concat(a, Concat(b, c))
    ensures Concat(Clear(a), b) == b && Concat(a, Clear(b)) == a
  {
  }

  // ---------------------------------------------------------------------
  // Equality

  /** The comparison loop of every `__eq__`: walk both lists in step and
      stop at the first pair that differs. */
  function ZipEqual<T(==)>(s: seq<T>, t: seq<T>): bool
    requires |s| == |t|
  {
    if s == [] then true
    else if s[0] != t[0] then false
    else ZipEqual(s[1..], t[1..])
  }

  /** The comparison loop decides equality of the two lists. */
  lemma {:induction false} ZipEqualIffSame<T>(s: seq<T>, t: seq<T>)
    requires |s| == |t|
    ensures ZipEqual(s, t) <==> s == t
  {
    if s != [] {
      ZipEqualIffSame(s[1..], t[1..]);
      if s[0] == t[0] && s[1..] == t[1..] {
        assert s == [s[0]] + s[1..] && t == [t[0]] + t[1..];
      }
    }
  }

  /** Lengths first, then the empty case, then the loop, as `__eq__`
      orders them. The result is equality of the element lists: order and
      length both matter. */
  function ListEquals<T(==)>(s: seq<T>, t: seq<T>): (r: bool)
    ensures r <==> s == t
  {
    if |s| != |t| then false
    else if IsEmpty(s) then true
    else
      ZipEqualIffSame(s, t);
      ZipEqual(s, t)
  }

  /** `isinstance(other, self.__class__)`: an `IntArray` accepts its
      subclasses, a fixed-width array accepts only its own class. */
  predicate IsInstance(other: Value, self: Value) {
    match (self, other)
    case (V3(_), V3(_)) => true
    case (Cols(_), Cols(_)) => true
    case (F32(_), F32(_)) => true
    case (Ints(a), Ints(b)) => a.width == Unbounded || a.width == b.width
    case _ => false
  }

  /** The two operands are of the same class. */
  predicate SameClass(a: Value, b: Value) {
    match (a, b)
    case (V3(_), V3(_)) => true
    case (Cols(_), Cols(_)) => true
    case (F32(_), F32(_)) => true
    case (Ints(x), Ints(y)) => x.width == y.width
    case _ => false
  }

  /** The class of `a` is a proper subclass of the class of `b`: the
      fixed-width integer arrays derive from `IntArray`. */
  predicate ProperSubclass(a: Value, b: Value) {
    a.Ints? && b.Ints? && a.i.width != Unbounded && b.i.width == Unbounded
  }

  /** The method calls `self.__eq__(other)` (`negate` false) and
      `self.__ne__(other)` (`negate` true) for an array `self`: `TypeError`
      unless `other` is an instance of the class of `self`, otherwise
      element-wise, order-sensitive equality of the lists. `__ne__` goes on
      to evaluate `self == other`, and when the class of `other` is a proper
      subclass of the class of `self` that operator calls `other.__eq__`
      first, which raises. */
  function Equals(self: Value, other: Value, negate: bool): (r: Result<bool>)
    requires !self.OtherObject?
    ensures r.Raise? <==> !IsInstance(other, self) || (negate && ProperSubclass(other, self))
    ensures r.Raise? ==> r.error == TypeError
    ensures r.Ok? && self.V3? ==> r.value == ((self.v.vectors == other.v.vectors) != negate)
    ensures r.Ok? && self.Cols? ==> r.value == ((self.c.colors == other.c.colors) != negate)
    ensures r.Ok? && self.Ints? ==> r.value == ((self.i.ints == other.i.ints) != negate)
    ensures r.Ok? && self.F32? ==> r.value == ((self.f.floats == other.f.floats) != negate)
  {
    if !IsInstance(other, self) then Raise(TypeError)
    else if negate && ProperSubclass(other, self) then Raise(TypeError)
    else
      var same :=
        match self
        case V3(a) => ListEquals(a.vectors, other.v.vectors)
        case Cols(a) => ListEquals(a.colors, other.c.colors)
        case Ints(a) => ListEquals(a.ints, other.i.ints)
        case F32(a) => ListEquals(a.floats, other.f.floats);
      Ok(same != negate)
  }

  /** The operators `left == right` (`negate` false) and `left != right`
      (`negate` true) between two arrays. When the class of `right` is a
      proper subclass of the class of `left`, Python calls the reflected
      method of `right` first (`right.__eq__(left)`, or `right.__ne__(left)`
      for `!=`), and that call raises; otherwise it calls the method of
      `left`. So the operators raise `TypeError` unless both
      operands are of the same class, and then both orders of the method
      call agree. */
  function Compare(left: Value, right: Value, negate: bool): (r: Result<bool>)
    requires !left.OtherObject? && !right.OtherObject?
    ensures r.Raise? <==> !SameClass(left, right)
    ensures r.Raise? ==> r.error == TypeError
    ensures r.Ok? ==> r == Equals(left, right, negate) && r == Equals(right, left, negate)
  {
    if ProperSubclass(right, left) then Equals(right, left, negate)
    else Equals(left, right, negate)
  }

  /** The operators are symmetric: swapping the operands changes neither
      the exception nor the answer. */
  lemma CompareSymmetric(a: Value, b: Value, negate: bool)
    requires !a.OtherObject? && !b.OtherObject?
    ensures Compare(a, b, negate) == Compare(b, a, negate)
  {
  }

  /** Between a base `IntArray` and an `Int32Array` of the same integers,
      the method `IntArray.__eq__` called directly accepts the subclass,
      while `Int32Array.__eq__` refuses the base class; `IntArray.__ne__`
      and the operator `==` in either order reach the latter and raise. */
  lemma IntEqualityRaisesBothWays(xs: seq<int>)
    ensures Equals(Ints(IntArray(Unbounded, false, xs)), Ints(IntArray(Bits32, false, xs)), false) == Ok(true)
    ensures Equals(Ints(IntArray(Bits32, false, xs)), Ints(IntArray(Unbounded, false, xs)), false) == Raise(TypeError)
    ensures Equals(Ints(IntArray(Unbounded, false, xs)), Ints(IntArray(Bits32, false, xs)), true) == Raise(TypeError)
    ensures Compare(Ints(IntArray(Unbounded, false, xs)), Ints(IntArray(Bits32, false, xs)), false) == Raise(TypeError)
    ensures Compare(Ints(IntArray(Bits32, false, xs)), Ints(IntArray(Unbounded, false, xs)), false) == Raise(TypeError)
  {
  }

  // ---------------------------------------------------------------------
  // Integer arrays

  /** `IntArray.__add__`: always a base `IntArray`, whatever the classes of
      the operands, so the width check and the signed flag are dropped. */
  function IntConcat(a: IntArray, other: seq<int>): (r: IntArray)
    ensures r.width == Unbounded && !r.signed
    ensures r.ints == Concat(a.ints, other)
  {
    IntArray(Unbounded, false, a.ints + other)
  }

  /** The bounds `json()` checks, as written: unsigned values may reach
      2^N inclusive. */
  function Bounds(w: IntWidth, signed: bool): (b: (int, int))
    requires w != Unbounded
  {
    var bits := if w == Bits32 then 32 else 64;
    var half: int := Pow2(bits - 1);
    if signed then (-half, half - 1) else (0, 2 * half)
  }

  /** `2 ** n` */
  function Pow2(n: nat): (r: nat)
    ensures r >= 1
  {
    if n == 0 then 1 else 2 * Pow2(n - 1)
  }

  /** The value passes the check of `json()`. */
  predicate Accepted(w: IntWidth, signed: bool, v: int) {
    w == Unbounded || (Bounds(w, signed).0 <= v <= Bounds(w, signed).1)
  }

  /** The wire form of one integer. */
  function IntToJson(v: int): Json {
    JInt(v)
  }

  /** The loop of `json()`: every value is checked in order, the first one
      outside the bounds raises `OverflowError`, and otherwise the values
      are collected unchanged. */
  function CheckAll(w: IntWidth, signed: bool, xs: seq<int>): (r: Result<seq<int>>)
    ensures r.Raise? <==> exists i :: 0 <= i < |xs| && !Accepted(w, signed, xs[i])
    ensures r.Raise? ==> r.error == OverflowError
    ensures r.Ok? ==> r.value == xs
  {
    if xs == [] then Ok([])
    else if !Accepted(w, signed, xs[0]) then Raise(OverflowError)
    else
      var rest :- CheckAll(w, signed, xs[1..]);
      assert forall i :: 0 <= i < |xs[1..]| ==> xs[1..][i] == xs[i + 1];
      Ok([xs[0]] + rest)
  }

  /** `json()` of `IntArray`, `Int32Array` and `Int64Array`. The base class
      emits its values unchecked; the subclasses raise `OverflowError`
      exactly when some value lies outside their bounds. The values come
      back out of the wire form in order. */
  function IntJson(a: IntArray): (r: Result<Json>)
    ensures r.Raise? <==> exists i :: 0 <= i < |a.ints| && !Accepted(a.width, a.signed, a.ints[i])
    ensures r.Raise? ==> r.error == OverflowError && a.width != Unbounded
    ensures r.Ok? ==> IntsFromJson(r.value, IntArrayName(a.width)) == Some(a.ints)
  {
    var values :- CheckAll(a.width, a.signed, a.ints);
    DecodeAllEncode(values, IntToJson, IntFromJson);
    Ok(Typed(IntArrayName(a.width), JList(Encode(values, IntToJson))))
  }

  function IntFromJson(j: Json): Option<int> {
    if j.JInt? then Some(j.i) else None
  }

  /** Reads the values back from `{"type": name, "value": [...]}`. */
  function IntsFromJson(j: Json, name: string): Option<seq<int>> {
    match Payload(j, name)
    case Some(JList(items)) => DecodeAll(items, IntFromJson)
    case _ => None
  }

  /** The unsigned fixed-width arrays accept 2^N, which does not fit in N
      bits. */
  lemma UnsignedAcceptsTwoToTheN()
    ensures IntJson(IntArray(Bits32, false, [0x1_0000_0000])).Ok?
    ensures IntJson(IntArray(Bits64, false, [0x1_0000_0000_0000_0000])).Ok?
    ensures !FitsBits(Bits32, false, 0x1_0000_0000)
  {
    assert Pow2(32) == 0x1_0000_0000 by { Pow2Value(32); }
    assert Pow2(64) == 0x1_0000_0000_0000_0000 by { Pow2Value(64); }
    assert Accepted(Bits32, false, 0x1_0000_0000);
    assert Accepted(Bits64, false, 0x1_0000_0000_0000_0000);
  }

  /** `Pow2` agrees with the literals used in this module. */
  lemma Pow2Value(n: nat)
    requires n == 31 || n == 32 || n == 63 || n == 64
    ensures n == 31 ==> Pow2(n) == 0x8000_0000
    ensures n == 32 ==> Pow2(n) == 0x1_0000_0000
    ensures n == 63 ==> Pow2(n) == 0x8000_0000_0000_0000
    ensures n == 64 ==> Pow2(n) == 0x1_0000_0000_0000_0000
  {
    if n <= 32 {
      Pow2Of32();
    } else {
      Pow2Of64();
    }
  }

  lemma Pow2Of16()
    ensures Pow2(16) == 0x1_0000
  {
    assert Pow2(2) == 4;
    assert Pow2(4) == 16 by { Pow2Add(2, 2); }
    assert Pow2(8) == 0x100 by { Pow2Add(4, 4); }
    Pow2Add(8, 8);
  }

  lemma Pow2Of32()
    ensures Pow2(32) == 0x1_0000_0000 && Pow2(31) == 0x8000_0000
  {
    Pow2Of16();
    Pow2Add(16, 16);
    assert Pow2(32) == 2 * Pow2(31);
  }

  lemma Pow2Of64()
    ensures Pow2(64) == 0x1_0000_0000_0000_0000 && Pow2(63) == 0x8000_0000_0000_0000
  {
    Pow2Of32();
    Pow2Add(32, 32);
    assert Pow2(64) == 2 * Pow2(63);
  }

  lemma {:induction false} Pow2Add(a: nat, b: nat)
    ensures Pow2(a + b) == Pow2(a) * Pow2(b)
  {
    if b > 0 {
      Pow2Add(a, b - 1);
      assert Pow2(a + b) == 2 * Pow2(a + b - 1);
    }
  }

  /** The value is representable in the array's fixed width: [0, 2^N) when
      unsigned, [-2^(N-1), 2^(N-1)) when signed. */
  predicate FitsBits(w: IntWidth, signed: bool, v: int) {
    match w
    case Unbounded => true
    case Bits32 =>
      if signed then -0x8000_0000 <= v < 0x8000_0000 else 0 <= v < 0x1_0000_0000
    case Bits64 =>
      if signed then -0x8000_0000_0000_0000 <= v < 0x8000_0000_0000_0000
      else 0 <= v < 0x1_0000_0000_0000_0000
  }

  /** The bound check with the unsigned upper bound 2^N - 1. */
  function CorrectedBounds(w: IntWidth, signed: bool): (b: (int, int))
    requires w != Unbounded
  {
    var b := Bounds(w, signed);
    if signed then b else (0, b.1 - 1)
  }

  /** `json()` with the corrected bounds: raises `OverflowError` exactly
      when some value does not fit in the array's width. */
  function IntJsonFixed(a: IntArray): (r: Result<Json>)
    ensures r.Raise? <==> exists i :: 0 <= i < |a.ints| && !FitsBits(a.width, a.signed, a.ints[i])
    ensures r.Raise? ==> r.error == OverflowError
    ensures r.Ok? ==> IntsFromJson(r.value, IntArrayName(a.width)) == Some(a.ints)
  {
    if a.width == Unbounded then
      IntJson(a)
    else
      var b := CorrectedBounds(a.width, a.signed);
      CorrectedBoundsFit(a.width, a.signed);
      if exists i :: 0 <= i < |a.ints| && !(b.0 <= a.ints[i] <= b.1) then
        Raise(OverflowError)
      else
        DecodeAllEncode(a.ints, IntToJson, IntFromJson);
        Ok(Typed(IntArrayName(a.width), JList(Encode(a.ints, IntToJson))))
  }

  /** The corrected bounds are exactly the representable range. */
  lemma CorrectedBoundsFit(w: IntWidth, signed: bool)
    requires w != Unbounded
    ensures forall v :: CorrectedBounds(w, signed).0 <= v <= CorrectedBounds(w, signed).1 <==> FitsBits(w, signed, v)
  {
    Pow2Value(31);
    Pow2Value(32);
    Pow2Value(63);
    Pow2Value(64);
  }

  // ---------------------------------------------------------------------
  // Float32Array

  /** How inserted Python floats are stored: the package converts each to
      a 32-bit float (`round32`, which this model leaves uninterpreted);
      the root snapshot stores them verbatim. */
  datatype Precision = Single(round32: real -> real) | Verbatim

  /** An argument of `add_float`/`set_float`: a Python `float`/`int`, or a
      value that already is a `numpy.float32` and is stored unchanged. */
  datatype FloatArg = PyFloat(x: real) | Float32Value(x: real)

  /** The value the array stores for an argument. */
  function Store(p: Precision, f: FloatArg): (r: real)
    ensures p.Verbatim? || f.Float32Value? ==> r == f.x
  {
    match (p, f)
    case (Single(round32), PyFloat(x)) => round32(x)
    case _ => f.x
  }

  /** The constructor from a list: every element converted by `Store`. */
  function NewFloat32Array(p: Precision, fs: seq<FloatArg>): (r: Float32Array)
    ensures |r.floats| == |fs|
    ensures forall i :: 0 <= i < |fs| ==> r.floats[i] == Store(p, fs[i])
  {
    Float32Array(seq(|fs|, i requires 0 <= i < |fs| => Store(p, fs[i])))
  }

  /** `add_float(f)` */
  function AddFloat(p: Precision, a: Float32Array, f: FloatArg): (r: Float32Array)
    ensures r.floats == Append(a.floats, Store(p, f))
  {
    Float32Array(a.floats + [Store(p, f)])
  }

  /** `set_float(i, f)` */
  function SetFloat(p: Precision, a: Float32Array, i: int, f: FloatArg): (r: Result<Float32Array>)
    ensures r.Raise? <==> !PyList.InRange(|a.floats|, i)
    ensures r.Raise? ==> r.error == IndexError
    ensures r.Ok? ==> PyList.Get(r.value.floats, i) == Ok(Store(p, f))
    ensures r.Ok? ==> |r.value.floats| == |a.floats|
  {
    var s :- PyList.Set(a.floats, i, Store(p, f));
    Ok(Float32Array(s))
  }

  /** `get_float(i)`: the stored value, widened back to a Python float
      (exactly). */
  function GetFloat(a: Float32Array, i: int): (r: Result<real>)
    ensures r == PyList.Get(a.floats, i)
  {
    PyList.Get(a.floats, i)
  }

  /** The elements of a NumPy `float32` array, as arguments: each already
      is a `numpy.float32`. */
  function NumpyArgs(values: seq<real>): (r: seq<FloatArg>)
    ensures |r| == |values|
    ensures forall i :: 0 <= i < |values| ==> r[i] == Float32Value(values[i])
  {
    seq(|values|, i requires 0 <= i < |values| => Float32Value(values[i]))
  }

  /** The constructor from a NumPy `float32` array, corrected: the values are
      kept as `numpy.float32` elements, exactly as the list constructor keeps
      them. */
  function NewFromNumpy(p: Precision, values: seq<real>): (r: Float32Array)
    ensures r.floats == values
  {
    NewFloat32Array(p, NumpyArgs(values))
  }

  /** The right operand of `Float32Array.__add__`: another array, a list, or
      a NumPy `float32` array given by its values. */
  datatype FloatsOperand =
    | FloatArray(arr: Float32Array)
    | FloatList(items: seq<FloatArg>)
    | NumpyArray(values: seq<real>)

  /** `a + other`: another array's stored values are taken as they are, a
      list's elements are converted, and a NumPy array's values (corrected)
      are appended unchanged. */
  function ConcatFloats(p: Precision, a: Float32Array, other: FloatsOperand): (r: Float32Array)
    ensures other.FloatArray? ==> r.floats == Concat(a.floats, other.arr.floats)
    ensures other.FloatList? ==> r.floats == Concat(a.floats, NewFloat32Array(p, other.items).floats)
    ensures other.NumpyArray? ==> r.floats == Concat(a.floats, other.values)
  {
    match other
    case FloatArray(b) => Float32Array(a.floats + b.floats)
    case FloatList(items) => Float32Array(a.floats + NewFloat32Array(p, items).floats)
    case NumpyArray(values) => Float32Array(a.floats + NewFromNumpy(p, values).floats)
  }

  /** Corrected NumPy operands behave as the list of their `float32` values,
      and every appended value reads back as itself. */
  lemma NumpyReadBack(p: Precision, a: Float32Array, values: seq<real>, i: int)
    ensures ConcatFloats(p, a, NumpyArray(values)) == ConcatFloats(p, a, FloatList(NumpyArgs(values)))
    ensures NewFromNumpy(p, values) == NewFloat32Array(p, NumpyArgs(values))
    ensures 0 <= i < |values| ==> GetFloat(NewFromNumpy(p, values), i) == Ok(values[i])
    ensures 0 <= i < |values| ==> GetFloat(ConcatFloats(p, a, NumpyArray(values)), |a.floats| + i) == Ok(values[i])
  {
  }

  // ---------------------------------------------------------------------
  // Float32Array as written, element by element

  /** An element of the package's `_list`: a `numpy.float32`, which has
      `.item()`, or a plain Python float, which does not. */
  datatype Held = NumpyFloat32(v: real) | PythonFloat(v: real)

  /** `.item()` on an element. */
  function Item(h: Held): (r: Result<real>)
    ensures r.Ok? <==> h.NumpyFloat32?
    ensures r.Ok? ==> r.value == h.v
    ensures r.Raise? ==> r.error == AttributeError
  {
    match h
    case NumpyFloat32(v) => Ok(v)
    case PythonFloat(_) => Raise(AttributeError)
  }

  /** The elements an array of the model holds: all `numpy.float32`. */
  function HeldBy(a: Float32Array): (r: seq<Held>)
    ensures |r| == |a.floats|
    ensures forall i :: 0 <= i < |r| ==> r[i] == NumpyFloat32(a.floats[i])
  {
    seq(|a.floats|, i requires 0 <= i < |a.floats| => NumpyFloat32(a.floats[i]))
  }

  /** The constructor from a NumPy array as written: `tolist()` turns every
      value into a plain Python float. */
  function NewFromNumpyAsWritten(values: seq<real>): (r: seq<Held>)
    ensures |r| == |values|
    ensures forall i :: 0 <= i < |r| ==> r[i] == PythonFloat(values[i])
  {
    seq(|values|, i requires 0 <= i < |values| => PythonFloat(values[i]))
  }

  /** `a + ndarray` as written: `np.append` builds one NumPy array of the
      old and the new values, and the constructor's `tolist()` then turns
      all of them, the old ones too, into plain Python floats. */
  function ConcatNumpyAsWritten(a: Float32Array, values: seq<real>): (r: seq<Held>)
    ensures |r| == |a.floats| + |values|
    ensures forall i :: 0 <= i < |a.floats| ==> r[i] == PythonFloat(a.floats[i])
    ensures forall i :: 0 <= i < |values| ==> r[|a.floats| + i] == PythonFloat(values[i])
  {
    NewFromNumpyAsWritten(a.floats + values)
  }

  /** `get_float(i)` as written: `self._list[index].item()`. */
  function GetHeld(s: seq<Held>, i: int): (r: Result<real>)
    ensures !PyList.InRange(|s|, i) ==> r == Raise(IndexError)
    ensures PyList.InRange(|s|, i) ==> r == Item(s[PyList.Slot(|s|, i)])
  {
    var h :- PyList.Get(s, i);
    Item(h)
  }

  /** The `.item()` of every element, in order, as `json()` collects them;
      the first plain Python float raises. */
  function Items(s: seq<Held>): (r: Result<seq<real>>)
    ensures r.Ok? <==> forall i :: 0 <= i < |s| ==> s[i].NumpyFloat32?
    ensures r.Ok? ==> |r.value| == |s| && forall i :: 0 <= i < |s| ==> r.value[i] == s[i].v
    ensures r.Raise? ==> r.error == AttributeError
  {
    if s == [] then Ok([])
    else
      var v :- Item(s[0]);
      var rest :- Items(s[1..]);
      Ok([v] + rest)
  }

  /** `json()` as written, on the elements. */
  function HeldJson(s: seq<Held>): (r: Result<Json>)
    ensures r.Ok? <==> forall i :: 0 <= i < |s| ==> s[i].NumpyFloat32?
    ensures r.Raise? ==> r.error == AttributeError
  {
    var vs :- Items(s);
    Ok(Typed(Float32ArrayName, JList(Encode(vs, FloatToJson))))
  }

  /** On the elements a list-built array holds, the as-written reads and
      export agree with the model's `GetFloat` and `Float32ArrayJson`. */
  lemma HeldAgrees(a: Float32Array, i: int)
    ensures GetHeld(HeldBy(a), i) == GetFloat(a, i)
    ensures HeldJson(HeldBy(a)) == Ok(Float32ArrayJson(a))
  {
    var r := Items(HeldBy(a));
    assert r.Ok? && r.value == a.floats;
  }

  /** As written, an array built from a NumPy array, or extended by one,
      cannot be read or exported: every in-range `get_float` raises
      `AttributeError`, even at an index that read fine before the `+`. */
  lemma NumpyItemRaises(a: Float32Array, values: seq<real>, i: int)
    ensures PyList.InRange(|values|, i) ==> GetHeld(NewFromNumpyAsWritten(values), i) == Raise(AttributeError)
    ensures PyList.InRange(|a.floats| + |values|, i) ==> GetHeld(ConcatNumpyAsWritten(a, values), i) == Raise(AttributeError)
    ensures 0 <= i < |a.floats| ==> GetFloat(a, i) == Ok(a.floats[i])
    ensures values != [] ==> HeldJson(NewFromNumpyAsWritten(values)).Raise?
    ensures a.floats + values != [] ==> HeldJson(ConcatNumpyAsWritten(a, values)) == Raise(AttributeError)
  {
    if values != [] {
      assert !NewFromNumpyAsWritten(values)[0].NumpyFloat32?;
    }
    if a.floats + values != [] {
      assert !NewFromNumpyAsWritten(a.floats + values)[0].NumpyFloat32?;
    }
  }

  /** After `add_float(f)`, the last element reads back as the converted
      value in the package and as `f` itself in the root snapshot; after
      `set_float(i, f)` the same holds at `i`. */
  lemma FloatReadBack(p: Precision, a: Float32Array, i: int, f: FloatArg)
    ensures GetFloat(AddFloat(p, a, f), -1) == Ok(Store(p, f))
    ensures p.Verbatim? ==> GetFloat(AddFloat(p, a, f), -1) == Ok(f.x)
    ensures PyList.InRange(|a.floats|, i) ==> GetFloat(SetFloat(p, a, i, f).value, i) == Ok(Store(p, f))
    ensures PyList.InRange(|a.floats|, i) && p.Verbatim? ==> GetFloat(SetFloat(p, a, i, f).value, i) == Ok(f.x)
  {
  }

  // ---------------------------------------------------------------------
  // Wire form

  function FloatToJson(v: real): Json {
    JReal(v)
  }

  function FloatFromJson(j: Json): Option<real> {
    if j.JReal? then Some(j.r) else None
  }

  /** `Vector3Array.json()`: `{"type": "Vector3F32_Array", "value": [...]}`
      with one `{x, y, z}` per vector, in order. */
  function Vector3ArrayJson(a: Vector3Array): (j: Json)
    ensures Vector3ArrayFromJson(j) == Some(a)
  {
    forall v | true ensures Vectors.FromObj(Vectors.ToObj(v)) == Some(v) {
      Vectors.ObjRoundTrip(v);
    }
    DecodeAllEncode(a.vectors, Vectors.ToObj, Vectors.FromObj);
    Typed(Vector3ArrayName, JList(Encode(a.vectors, Vectors.ToObj)))
  }

  function Vector3ArrayFromJson(j: Json): Option<Vector3Array> {
    match Payload(j, Vector3ArrayName)
    case Some(JList(items)) =>
      (match DecodeAll(items, Vectors.FromObj)
       case Some(vs) => Some(Vector3Array(vs))
       case None => None)
    case _ => None
  }

  /** `ColorArray.json()`: `{"type": "Color8_Array", "value": [...]}` with
      one `{r, g, b}` per colour, in order. */
  function ColorArrayJson(a: ColorArray): (j: Json)
    ensures ColorArrayFromJson(j) == Some(a)
  {
    forall c | true ensures Colors.FromObj(Colors.ToObj(c)) == Some(c) {
      Colors.ObjRoundTrip(c);
    }
    DecodeAllEncode(a.colors, Colors.ToObj, Colors.FromObj);
    Typed(ColorArrayName, JList(Encode(a.colors, Colors.ToObj)))
  }

  function ColorArrayFromJson(j: Json): Option<ColorArray> {
    match Payload(j, ColorArrayName)
    case Some(JList(items)) =>
      (match DecodeAll(items, Colors.FromObj)
       case Some(cs) => Some(ColorArray(cs))
       case None => None)
    case _ => None
  }

  /** `Float32Array.json()`: `{"type": "Float32_Array", "value": [...]}`
      with the stored values in order. */
  function Float32ArrayJson(a: Float32Array): (j: Json)
    ensures Float32ArrayFromJson(j) == Some(a)
  {
    DecodeAllEncode(a.floats, FloatToJson, FloatFromJson);
    Typed(Float32ArrayName, JList(Encode(a.floats, FloatToJson)))
  }

  function Float32ArrayFromJson(j: Json): Option<Float32Array> {
    match Payload(j, Float32ArrayName)
    case Some(JList(items)) =>
      (match DecodeAll(items, FloatFromJson)
       case Some(fs) => Some(Float32Array(fs))
       case None => None)
    case _ => None
  }

  /** The wire names tell the classes apart, so no array's `json()` reads
      back as another class. */
  lemma WireNamesDistinct(a: Vector3Array, c: ColorArray, f: Float32Array)
    ensures ColorArrayFromJson(Vector3ArrayJson(a)) == None
    ensures Vector3ArrayFromJson(ColorArrayJson(c)) == None
    ensures Vector3ArrayFromJson(Float32ArrayJson(f)) == None
    ensures IntArrayName(Bits32) != IntArrayName(Bits64) && IntArrayName(Unbounded) != IntArrayName(Bits32)
  {
  }
}
