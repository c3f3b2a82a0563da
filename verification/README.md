# Bopymo core in Dafny

Bopymo is a Python library that builds levels for the game Bopimo and
writes them out as `.bopjson` files. This project models the parts of the
library that carry its rules:

- **the level** (`Bopimo_Level`): objects keyed by a random 32-bit uid,
  the completion-star list, the per-object sanity check (a minimum-version
  gate and the portal destination check), add/get/remove, and the block
  list that `json()` emits;
- **the game version** (`Game_Version`) and its comparison operators;
- **position kinematics** (`Bopimo_Object`): explicit travel times, and
  the older constant-speed mode whose times are recomputed from distances;
- **the typed arrays** (`Vector3Array`, `ColorArray`, `IntArray`,
  `Int32Array`, `Int64Array`, `Float32Array`): Python-list indexing,
  concatenation, equality, and the 32/64-bit overflow check of `json()`;
- **the value types** `Color` (clamped 8-bit channels, HSV conversion)
  and `Vector3` (component-wise arithmetic, Python `%`, degrees and
  radians);
- **the attribute guards** of block, tilable object, magma and level
  painting, including the nine-step `transparency` view of a block's
  opacity;
- **the decal export** (`Bopimo_Decal`): the mesh size, the centring
  translation on the pants leg, and the tilt fix.

The repository has two snapshots of the same library: the package
(`src/bopymo/`) and an older single-file version (`bopymo.py`,
`bopimo_types.py`) with default version 1.0.15. The model follows the
package. Where the older snapshot differs in a modelled rule (its default
version, the `Bopimo_Property.compatible` check, its bounds check), it is
cited as well.

Modules, one per file:

| file | module | models |
|---|---|---|
| failures.dfy | `Failures` | Python exceptions as `Result`, plus `Option` |
| pylist.dfy | `PyList` | `list` indexing, `pop`, `index`, `remove` |
| wire.dfy | `Wire` | JSON values, the `{"type", "value"}` wrapper |
| version.dfy | `Version` | `Game_Version`, `Bopimo_Property` |
| vectors.dfy | `Vectors` | `Vector3` |
| colors.dfy | `Colors` | `Color` |
| arrays.dfy | `TypedArrays` | the typed arrays |
| kinematics.dfy | `Kinematics` | the position-kinematics operations |
| kinematics_proofs.dfy | `KinematicsProofs` | what those operations keep and break |
| level.dfy | `Level` | `Bopimo_Level` |
| blocks.dfy | `Blocks` | the attribute guards |
| decal.dfy | `Decal` | `Bopimo_Decal` |

The code, not its documentation, decides every modelled behaviour. For
example, an unsigned 32-bit array accepts 2^32 because the code's bound
is inclusive, and the constructor of a level painting does not clamp its
id although the setter does.

The objects are changed in place, so a call that raises part-way keeps the
changes made before the raise. The model returns that partial state with
the exception: `Kinematics.Outcome` for `add_position_points` and
`set_position_point`, and the partial level for `Level.AddObjects`.

Several quantities are left abstract and passed in as parameters:

- **Magnitude and float32 rounding.** `Kinematics.Env` carries a magnitude
  function and a storage precision: either verbatim, or an opaque rounding
  for numpy float32.
- **Rotation.** `Decal.Frame` carries the rotation matrix as a function,
  together with the degrees-to-radians factor.
- **The random uid.** The uid drawn by `add_object` is a nondeterministic
  choice among the free uids in [1, 2^32).

## Model

| member | source | states |
|---|---|---|
| Version.Compare | src/bopymo/classes.py:65-118 | Every comparison operator raises `TypeError` exactly when the right operand is not a `Game_Version`. Otherwise `<` and `>` are the lexicographic order on (major, minor, patch) in either direction, `<=` is `<` or `==`, `>=` is `>` or `==`, and `!=` is not `==`. |
| Version.LexicographicOrder | src/bopymo/classes.py:74-102 | The nested branches of `__lt__` and `__gt__` decide lexicographic order on (major, minor, micro), and `__eq__` decides equality of the triples. |
| Version.Trichotomy | src/bopymo/classes.py:65-113 | Exactly one of `<`, `==` and `>` holds. `a > b` is `b < a`. `<=` is not `>`, and `>=` is not `<`. |
| Version.LessTransitive | src/bopymo/classes.py:74-87 | `<` is transitive. |
| Version.AtLeastTransitive | src/bopymo/classes.py:109-113 | `>=` is transitive, so raising a level's version never makes a passing version gate fail. |
| Version.CompatibleIffNotOlder | bopymo.py:287-293 | `Bopimo_Property.compatible(v)` holds exactly when `v` is not lexicographically older than the property's minimum version. |
| Version.RootDefaults | bopymo.py:111 | The older snapshot's default 1.0.15 is compatible with a property's default minimum 1.0.11. It is older than the package's 1.1.0. It passes the rose's gate of 1.0.15, and 1.1.0 passes the base gate of 1.0.14. |
| Wire.Payload | src/bopymo/bopimo_types.py:427-435 | A payload is found only inside a `{"type": name, "value": ...}` wrapper with the expected type name. |
| Wire.TypedRoundTrip | src/bopymo/bopimo_types.py:427-435 | A wrapper is taken apart into exactly the name and value it was built from. A different expected name finds nothing. |
| Wire.Encode | src/bopymo/bopimo_types.py:598-609 | The `json()` loop emits one item per element, in order. |
| Wire.DecodeAll | src/bopymo/bopimo_types.py:598-609 | Reading a list back succeeds exactly when every item decodes, and keeps the order. |
| Wire.DecodeAllEncode | src/bopymo/bopimo_types.py:598-609 | Decoding an encoded list gives back the list whenever each element's encoding is read back by the decoder. |
| Vectors.Div | src/bopymo/bopimo_types.py:459-465 | `v / k` raises `ZeroDivisionError` exactly for `k == 0`. Otherwise the result times `k` is `v`. |
| Vectors.PyMod | src/bopymo/bopimo_types.py:467-470 | Python's float `%` gives a remainder that differs from the dividend by a whole multiple of the divisor. It has the sign of the divisor and is strictly smaller in size. |
| Vectors.PyModUnique | src/bopymo/bopimo_types.py:467-470 | The remainder is the only value in that range that differs from the dividend by a whole multiple of the divisor. |
| Vectors.FloorDivBounds | src/bopymo/bopimo_types.py:467-470 | The floor of `a / d` puts `a` between two consecutive multiples of `d`, on the side of the divisor's sign. |
| Vectors.DivMod | src/bopymo/bopimo_types.py:467-470 | `divmod(v, k)` raises `ZeroDivisionError` for `k == 0`. Otherwise each component is Python's `%` of that component by `k`, so it lies in [0, k) for positive `k` and in (k, 0] for negative `k`. |
| Vectors.Equals | src/bopymo/bopimo_types.py:477-485 | `==` and `!=` raise `TypeError` exactly against a non-vector. Otherwise they decide component-wise equality and its negation. |
| Vectors.AdditiveGroup | src/bopymo/bopimo_types.py:341-354 | Zero is the identity of `+`. `-` undoes `+`, and `+` is commutative. Negation is scaling by -1, scaling by 1 changes nothing, and scaling by 0 gives zero. |
| Vectors.RadiansRoundTrip | src/bopymo/bopimo_types.py:390-414 | `to_degrees` and `to_radians` are inverse to each other. |
| Vectors.ObjRoundTrip | src/bopymo/bopimo_types.py:416-425 | `to_obj()` loses nothing: the vector is read back from `{x, y, z}`. |
| Colors.Clamp8 | src/bopymo/bopimo_types.py:81-89 | `max(0, min(v, 255))` lies in [0, 255]. It keeps in-range values and maps values below to 0 and values above to 255. |
| Colors.New | src/bopymo/bopimo_types.py:31-35 | Each channel of a constructed colour is its argument clamped on its own to [0, 255]. Arguments already in range are kept. |
| Colors.Clamp | src/bopymo/bopimo_types.py:81-89 | `__clamp` clamps each channel on its own to [0, 255]. It leaves an in-range colour unchanged. |
| Colors.ClampIdempotent | src/bopymo/bopimo_types.py:81-89 | Clamping twice is clamping once. |
| Colors.SetRed | src/bopymo/bopimo_types.py:31-35 | Assigning a channel after construction writes it unclamped and leaves the other channels alone. |
| Colors.AssignmentNotClamped | src/bopymo/bopimo_types.py:31-35 | A colour that was constructed in range can leave the range through assignment. |
| Colors.Trunc | src/bopymo/bopimo_types.py:114 | Python's `int()` on a float truncates toward zero. |
| Colors.HueSector | src/bopymo/bopimo_types.py:59-62 | The integer part of `(h % 360) / 60` lies in 0..5, and it is the floor of that quotient over the reals. |
| Colors.FromHs | src/bopymo/bopimo_types.py:40-79 | The fractions always contain 1 and `1 - s`. For `s` in [0, 1] they lie in [1 - s, 1]. For `s = 0` they are all 1. |
| Colors.FromHsv | src/bopymo/bopimo_types.py:94-116 | `from_hsv` gives an in-range colour. One channel is `int(value * 255)` clamped and one is `int((1 - s) * value * 255)` clamped. Zero saturation gives a grey. |
| Colors.ChannelCarries | src/bopymo/bopimo_types.py:113-115 | A fraction that `__from_hs` produces shows up, scaled, truncated and clamped, as a channel of the result. |
| Colors.PrimaryHues | src/bopymo/bopimo_types.py:94-116 | Hues 0, 120, 240 and 360 at full saturation and value give pure red, green, blue and red. Zero saturation gives white. |
| Colors.Equals | src/bopymo/bopimo_types.py:165-177 | `==` and `!=` raise `TypeError` exactly against a non-colour. Otherwise they decide channel-wise equality and its negation. |
| Colors.ObjRoundTrip | src/bopymo/bopimo_types.py:141-150 | `to_obj()` loses nothing: the colour is read back from `{r, g, b}`. |
| PyList.Slot | src/bopymo/bopimo_types.py:548-560 | An accepted index `-n <= i < n` addresses position `i`, or position `n + i` when `i` is negative. |
| PyList.Get | src/bopymo/bopimo_types.py:548-560 | `get_*(i)` succeeds exactly for accepted indices and returns the addressed element. Otherwise it raises `IndexError`. |
| PyList.Set | src/bopymo/bopimo_types.py:562-572 | `set_*(i, v)` succeeds exactly for accepted indices. It writes `v` at the addressed position, and the length and every other element are kept. |
| PyList.Pop | src/bopymo/bopimo_types.py:584-596 | `remove_*(i)` returns the addressed element. The rest keep their order, and later elements shift down by one. Other indices raise `IndexError`. |
| PyList.Index | src/bopymo/classes.py:1064-1066 | `list.index(x)` raises `ValueError` exactly when `x` is absent. Otherwise it returns the first position holding `x`. |
| PyList.RemoveFirst | src/bopymo/classes.py:833-834 | `list.remove(x)` raises `ValueError` exactly when `x` is absent. Otherwise it drops one occurrence of `x`, shown as a multiset. |
| PyList.RemoveFirstOfDistinct | src/bopymo/classes.py:833-834 | On a list without duplicates, `remove(x)` of a present element is leaving `x` out. |
| PyList.WithoutDistinct | src/bopymo/classes.py:833-835 | Leaving an element out keeps a list free of duplicates. Exactly the other elements remain. |
| PyList.WithoutShifts | src/bopymo/classes.py:833-834 | Leaving out the element at position `i` of a list without duplicates gives `s[..i] + s[i+1..]`, so later elements move down by one. |
| PyList.DistinctCard | src/bopymo/classes.py:787-791 | A list without duplicates is as long as its set of elements. |
| TypedArrays.Append | src/bopymo/bopimo_types.py:512-520 | `add_*(x)` puts `x` at the end and keeps the elements before it. |
| TypedArrays.Concat | src/bopymo/bopimo_types.py:629-635 | `a + b` lists the elements of `a` and then those of `b`. |
| TypedArrays.IsEmpty | src/bopymo/bopimo_types.py:574-582 | `is_empty()` holds exactly for the empty array. |
| TypedArrays.Clear | src/bopymo/bopimo_types.py:522-526 | `clear()` leaves an empty array. |
| TypedArrays.AppendThenGetAndRemove | src/bopymo/bopimo_types.py:512-596 | Right after `add_*(x)`, both `get_*(-1)` and `get_*(len - 1)` return `x`. `remove_*(-1)` returns `x` and the previous contents. |
| TypedArrays.SetThenGet | src/bopymo/bopimo_types.py:548-572 | `get` after `set` at the same index returns the stored value, and every other position reads as before. Storing the element that is already there changes nothing. |
| TypedArrays.RemoveSplits | src/bopymo/bopimo_types.py:584-596 | `remove_*(i)` returns the addressed element. Putting it back at its place restores the array. |
| TypedArrays.ConcatMonoid | src/bopymo/bopimo_types.py:629-635 | `+` is associative, and an empty array is its unit on both sides. |
| TypedArrays.ZipEqualIffSame | src/bopymo/bopimo_types.py:1024-1027 | The zip loop of `__eq__` returns true exactly for equal lists. |
| TypedArrays.ListEquals | src/bopymo/bopimo_types.py:1018-1027 | The length test, the empty test and the zip loop together decide list equality. |
| TypedArrays.Equals | src/bopymo/bopimo_types.py:1015-1032 | The methods `__eq__` and `__ne__`, called on the receiver, raise `TypeError` when the operand is not an instance of the receiver's class. `__ne__` also raises when the operand's class is a proper subclass, because its inner `==` reaches the subclass's method. Otherwise they decide equality of the element lists, and its negation. |
| TypedArrays.Compare | src/bopymo/bopimo_types.py:1015-1035 | The operators `==` and `!=` between two arrays raise `TypeError` exactly when the classes differ, since a subclass operand on the right is asked first. Between arrays of one class both orders of the method call give the same answer. |
| TypedArrays.CompareSymmetric | src/bopymo/bopimo_types.py:1015-1035 | The operators are symmetric in their operands, exception included. |
| TypedArrays.IntEqualityRaisesBothWays | src/bopymo/bopimo_types.py:1015-1035 | `IntArray.__eq__` called directly accepts an `Int32Array` of equal contents. `Int32Array.__eq__`, `IntArray.__ne__` and the operator `==` in either order raise `TypeError`. |
| TypedArrays.IntConcat | src/bopymo/bopimo_types.py:996-1000 | `IntArray.__add__` always yields a base `IntArray`, even from fixed-width operands, holding the concatenated values. |
| TypedArrays.CheckAll | src/bopymo/bopimo_types.py:1069-1074 | The loop in `json()` raises `OverflowError` exactly when some value lies outside the bounds. Otherwise it yields the values unchanged. |
| TypedArrays.IntJson | src/bopymo/bopimo_types.py:965-976 | `json()` raises `OverflowError` exactly when a value is out of the width's bounds as written; the base class never raises. A successful export reads back to the same values under the class's type name. |
| TypedArrays.UnsignedAcceptsTwoToTheN | src/bopymo/bopimo_types.py:1067-1068 | Unsigned `Int32Array` accepts 2^32 and unsigned `Int64Array` accepts 2^64, although 2^32 does not fit in 32 unsigned bits. |
| TypedArrays.CorrectedBoundsFit | bopimo_types.py:1075-1076 | The corrected bounds [0, 2^N - 1] and [-2^(N-1), 2^(N-1) - 1] are exactly the values that fit in N bits. |
| TypedArrays.IntJsonFixed | src/bopymo/bopimo_types.py:1110-1118 | With the corrected bounds, `json()` raises `OverflowError` exactly for values that do not fit in the array's width. Otherwise the export reads back to the same values. |
| TypedArrays.Store | src/bopymo/bopimo_types.py:1158-1161 | Python floats and ints are converted on insertion, and values that are already float32 are stored as given. With exact storage, every value is kept. |
| TypedArrays.NewFloat32Array | src/bopymo/bopimo_types.py:1147-1161 | The constructor stores one converted value per element, in order. |
| TypedArrays.AddFloat | src/bopymo/bopimo_types.py:1167-1177 | `add_float(f)` appends the converted value. |
| TypedArrays.SetFloat | src/bopymo/bopimo_types.py:1219-1231 | `set_float(i, f)` raises `IndexError` exactly for rejected indices. Otherwise it stores the converted value at `i` and keeps the length. |
| TypedArrays.GetFloat | src/bopymo/bopimo_types.py:1205-1217 | `get_float(i)` is Python indexing into the stored values. |
| TypedArrays.ConcatFloats | src/bopymo/bopimo_types.py:1288-1303 | `+` with another array appends its stored values. `+` with a list appends the converted list values. `+` with a NumPy `float32` array (corrected, see Findings) appends its values unchanged. |
| TypedArrays.NewFromNumpy | src/bopymo/bopimo_types.py:1162-1163 | The constructor from a NumPy `float32` array (corrected, see Findings) holds exactly the array's values, in order. |
| TypedArrays.NumpyReadBack | src/bopymo/bopimo_types.py:1302-1303 | A corrected NumPy operand behaves as the list of its `float32` values, and each appended value reads back by `get_float` as itself. |
| TypedArrays.Item | src/bopymo/bopimo_types.py:1217 | `.item()` succeeds, returning the value, exactly on a `numpy.float32` element; on a plain Python float it raises `AttributeError`. |
| TypedArrays.HeldBy | src/bopymo/bopimo_types.py:1154-1161 | The list constructor holds every element as a `numpy.float32`, one per stored value, in order. |
| TypedArrays.NewFromNumpyAsWritten | src/bopymo/bopimo_types.py:1162-1163 | As written, the constructor from a NumPy array holds every value as a plain Python float, through `tolist()`. |
| TypedArrays.ConcatNumpyAsWritten | src/bopymo/bopimo_types.py:1302-1303 | As written, `a + ndarray` holds the old values followed by the new ones, all of them as plain Python floats. |
| TypedArrays.GetHeld | src/bopymo/bopimo_types.py:1205-1217 | As written, `get_float(i)` raises `IndexError` out of range and otherwise is `.item()` of the element at the Python index. |
| TypedArrays.Items | src/bopymo/bopimo_types.py:1265-1267 | The `json()` loop succeeds exactly when every element is a `numpy.float32`. It then yields their values in order; otherwise it raises `AttributeError`. |
| TypedArrays.HeldJson | src/bopymo/bopimo_types.py:1257-1268 | As written, `json()` succeeds exactly when every element is a `numpy.float32`, and otherwise raises `AttributeError`. |
| TypedArrays.HeldAgrees | src/bopymo/bopimo_types.py:1205-1268 | On the elements of a list-built array, the as-written `get_float` and `json()` agree with the model's `GetFloat` and `Float32ArrayJson`. |
| TypedArrays.NumpyItemRaises | src/bopymo/bopimo_types.py:1162-1163 | As written, every in-range `get_float` on an array built from, or extended by, a NumPy array raises `AttributeError`, including indices that read fine before the `+`. Its `json()` raises too. |
| TypedArrays.FloatReadBack | src/bopymo/bopimo_types.py:1167-1231 | After `add_float(f)` or `set_float(i, f)`, reading the same position gives the stored value, which is `f` itself under exact storage. |
| TypedArrays.Vector3ArrayJson | src/bopymo/bopimo_types.py:598-609 | The `Vector3F32_Array` export reads back to the same array. |
| TypedArrays.ColorArrayJson | src/bopymo/bopimo_types.py:777-790 | The `Color8_Array` export reads back to the same array. |
| TypedArrays.Float32ArrayJson | src/bopymo/bopimo_types.py:1257-1268 | The `Float32_Array` export reads back to the same array. |
| TypedArrays.WireNamesDistinct | src/bopymo/bopimo_types.py:598-609 | The type names tell the array classes apart, so one class's export never reads as another's. |
| Kinematics.Speed | src/bopymo/classes.py:250-261 | An undeclared speed reads as 0, and a declared one reads as itself. |
| Kinematics.Next | src/bopymo/classes.py:238-242 | The point after point `i` is `i + 1`, and the last point wraps to the first. |
| Kinematics.Refresh | src/bopymo/classes.py:228-247 | With a declared speed, every point's time becomes the stored distance to the next point divided by the speed. Points, speed and length are kept. Without a declared speed nothing changes. |
| Kinematics.SetSpeed | src/bopymo/classes.py:263-274 | The speed setter stores the value. A non-zero value refreshes the times, and zero leaves them as they were. |
| Kinematics.WithOrigin | src/bopymo/classes.py:323-328 | The deprecated setter puts the origin in front of a list that does not start with it. |
| Kinematics.SetPointsDeprecated | src/bopymo/classes.py:303-334 | The deprecated `position_points` setter stores the points with the origin in front and one time per point. An undeclared speed becomes 5, and the times are the refreshed ones. |
| Kinematics.AddPoint | src/bopymo/classes.py:336-370 | `add_position_point` appends the point. In explicit-time mode it appends the given time. In either mode it adds exactly one time and keeps one time per point. |
| Kinematics.Positions | src/bopymo/classes.py:403-421 | The positions of a mixed argument list, in order. |
| Kinematics.AddBare | src/bopymo/classes.py:404-419 | A bare point in the loop of `add_position_points` divides by the speed once a previous point exists. It therefore raises `ZeroDivisionError` exactly in explicit-time mode with a point already present. The point is appended either way, and on the raise no time is added. |
| Kinematics.AddOne | src/bopymo/classes.py:403-421 | One loop pass appends the element's point, and one time unless it raises. Only a bare element in explicit-time mode can raise, and then only `ZeroDivisionError`. |
| Kinematics.AddLoop | src/bopymo/classes.py:403-421 | The loop appends all positions in order and one time per element. Otherwise it raises `ZeroDivisionError` in explicit-time mode at some bare element. The positions up to and including that element stay appended, with one time fewer than points added. |
| Kinematics.AddPoints | src/bopymo/classes.py:372-429 | An empty list changes nothing. The last element alone decides the `TypeError` for a mode mismatch, raised before any change. A later `ZeroDivisionError` leaves the points added so far, the failing one included, with no time for it. Otherwise the positions are appended with one time each. |
| Kinematics.GetPoint | src/bopymo/classes.py:431-444 | `get_position_point` is Python indexing into the points. |
| Kinematics.SetPoint | src/bopymo/classes.py:446-481 | `set_position_point` raises `IndexError` without a change for an index outside [-n, n). In constant-speed mode it also raises at index -n, after the point is written. It keeps the lengths of both lists in every case, and otherwise writes the point at the index. In explicit-time mode it also writes the given time at that index. |
| Kinematics.RemovePoint | src/bopymo/classes.py:483-504 | `remove_position_point` returns the addressed point. Explicit-time mode returns and pops the time as well. Constant-speed mode pops only the point. |
| Kinematics.Clear | src/bopymo/classes.py:506-512 | `clear_position_points` empties both lists and keeps the speed. |
| Kinematics.SetPointFixed | src/bopymo/classes.py:446-481 | The corrected `set` raises `IndexError` only outside [-n, n), before any change. Otherwise it writes the point and recomputes the two outgoing times that depend on it. In explicit-time mode it agrees with the code. |
| Kinematics.RemovePointFixed | src/bopymo/classes.py:483-504 | The corrected `remove` pops the point and its time and refreshes constant-speed times. In explicit-time mode it agrees with the code. |
| KinematicsProofs.RefreshFixpoint | src/bopymo/classes.py:228-247 | Refreshing is idempotent, and a refreshed state is a fixpoint. |
| KinematicsProofs.AddPointRefreshes | src/bopymo/classes.py:336-370 | In constant-speed mode, `add_position_point` on a refreshed state leaves a refreshed state with one time per point. |
| KinematicsProofs.AddLoopRefreshes | src/bopymo/classes.py:403-429 | In constant-speed mode the bare-point loop never raises. Every time but the last is the refreshed one, which is why the code fixes the last time after the loop. |
| KinematicsProofs.AddPointsRefreshes | src/bopymo/classes.py:372-429 | `add_position_points` of bare points in constant-speed mode keeps the times refreshed. |
| KinematicsProofs.AddLoopExplicit | src/bopymo/classes.py:403-421 | In explicit-time mode the loop over timed points appends exactly the supplied times. |
| KinematicsProofs.AddPointsExplicit | src/bopymo/classes.py:372-429 | `add_position_points` of timed points in explicit-time mode appends the points and their times, in order. |
| KinematicsProofs.OnlyLastChecked | src/bopymo/classes.py:394-419 | Only the last element's kind is checked. A bare point earlier in an explicit-time list reaches the loop and raises `ZeroDivisionError`, after it has been appended and before it has a time. |
| KinematicsProofs.ZeroDivisionDesyncs | src/bopymo/classes.py:403-419 | After that `ZeroDivisionError` an object that had one time per point has one time fewer than points. |
| KinematicsProofs.SpeedTenTimes | src/bopymo/classes.py:372-429 | Speed 10 followed by three bare points 10 apart stores the times 1 and 1, then the closing distance over 10, each converted to `float32`. With verbatim storage they are those reals exactly. |
| KinematicsProofs.SpeedTenExample | reference/02-new_kinematics.py:29-32 | The example's points (0,0,0), (0,0,10) and (10,0,10) at speed 10 store the times 1, 1 and then the closing segment's, each converted to `float32`. |
| KinematicsProofs.SyncKept | src/bopymo/classes.py:176-181 | `clear`, the speed setter, `set` (even when it raises), explicit-time `remove` and a timed `add` that does not raise keep one time per point. |
| KinematicsProofs.SetFirstNegativeRaises | src/bopymo/classes.py:465-470 | Constant-speed `set_position_point(-n, ...)` with two or more points writes the first point, then raises `IndexError` with the times untouched. |
| KinematicsProofs.RemoveDesyncs | src/bopymo/classes.py:503-504 | Constant-speed `remove_position_point` leaves one time more than there are points. |
| KinematicsProofs.SetPointBreaksRefresh | src/bopymo/classes.py:471-481 | From a refreshed state, constant-speed `set_position_point` leaves times that are not the refreshed ones. |
| KinematicsProofs.SetPointFixedRefreshes | src/bopymo/classes.py:446-481 | The corrected `set` keeps one time per point, each the refreshed one. |
| KinematicsProofs.RemovePointFixedConsistent | src/bopymo/classes.py:483-504 | The corrected `remove` keeps one time per point, each the refreshed one. |
| KinematicsProofs.Apply | src/bopymo/classes.py:263-512 | One call, with the corrected `set` and `remove`. Only `add_position_points` raising `ZeroDivisionError` leaves a changed state behind. Every other raise leaves the state as it was, and every outcome but that one has at least one time per point. |
| KinematicsProofs.ApplyAll | src/bopymo/classes.py:263-512 | A run of calls stops at the first raise. Unless that raise is the `ZeroDivisionError` of `add_position_points`, it ends with at least one time per point. |
| KinematicsProofs.ApplyConsistent | src/bopymo/classes.py:176-181 | Any single call, with the corrected `set` and `remove`, keeps one time per point with refreshed times in constant-speed mode. This holds whether or not the call raises, except for the `ZeroDivisionError` of `add_position_points`. |
| KinematicsProofs.AlwaysConsistent | src/bopymo/classes.py:176-181 | Any sequence of such calls keeps that invariant, whether the run ends normally or by an exception, except when it ends by that `ZeroDivisionError`. |
| KinematicsProofs.RaiseBreaksConsistency | src/bopymo/classes.py:394-419 | That exception does break the invariant: one point and time `0`, then a bare and a timed point without a speed, leave two points and one time. |
| KinematicsProofs.InitialConsistent | src/bopymo/classes.py:217-221 | A fresh object has no points, no times and no declared speed, and satisfies the invariant. |
| Level.MinVersion | src/bopymo/classes.py:195 | Stars and portals inherit the base gate of 1.0.14. |
| Level.NewLevel | src/bopymo/classes.py:747-785 | The constructor's assertion fails exactly when the version is below 1.0.14. Otherwise the level is empty and valid. |
| Level.DefaultLevelsConstruct | src/bopymo/classes.py:753-758 | Both snapshots' default versions pass the constructor's assertion. |
| Level.StarAmount | src/bopymo/classes.py:787-791 | In a valid level, `star_amount` is the number of completion stars among the objects. |
| Level.CheckDestinations | src/bopymo/classes.py:807-817 | The portal check passes exactly when every destination is a portal in the level. Otherwise it raises `KeyError` or `TypeError`, and `KeyError` when only missing uids break it. |
| Level.SanityCheck | src/bopymo/classes.py:793-817 | The sanity check passes exactly when the level version passes the object's gate and, for a portal, its destinations check. The gate comes first and raises `AssertionError`. |
| Level.Insert | src/bopymo/classes.py:871-874 | After the sanity check, the object is stored under the uid and the uid is appended to the iteration order. A star's uid is appended to the star list, and a failing check raises its error. |
| Level.FreshUidExists | src/bopymo/classes.py:867-870 | While fewer than 2^32 - 1 uids are taken, a free uid in [1, 2^32) exists, so the redraw loop can stop. |
| Level.AddObject | src/bopymo/classes.py:855-875 | `add_object` returns a fresh uid in [1, 2^32). The object is stored under it and a star is also listed. The uid is appended to the insertion order, the version is kept, and the new level is exactly the one `Insert` gives for that uid. It fails exactly when the sanity check does, and a valid level stays valid. |
| Level.InsertKeepsValid | src/bopymo/classes.py:871-874 | Storing under a fresh valid uid keeps a level valid. |
| Level.AddObjects | src/bopymo/classes.py:877-894 | `add_objects` stores object `i` under the `i`-th returned uid and keeps every earlier object. The returned uids are distinct, valid and new to the level, and the level gains no other keys. The version is kept, the insertion order grows by exactly those uids, and the star list grows by the uids of the new completion stars. It stops at the first failing sanity check with that check's error, and a valid level stays valid. |
| Level.Get | src/bopymo/classes.py:837-853 | `get_object` returns the object exactly for a present uid, and `None` otherwise. |
| Level.Remove | src/bopymo/classes.py:819-835 | `remove_object` raises `KeyError` for an absent uid. Otherwise it returns the object, drops the uid from the objects and the order, and keeps the star list for a non-star. |
| Level.RemoveValid | src/bopymo/classes.py:831-835 | In a valid level, removing a present uid succeeds, drops it from the star list, and keeps the level valid. |
| Level.InsertThenRemove | src/bopymo/classes.py:819-875 | Adding an object under a fresh uid and removing that uid gives back the object and the original level. |
| Level.JsonFrom | src/bopymo/classes.py:924-936 | The block list has one entry per uid, in iteration order, each with its object. It is emitted only if every object passes the sanity check. A star's id is its position in the star list. |
| Level.StarIdsAreIndices | src/bopymo/classes.py:926-936 | In a valid level where every object passes, `json()` succeeds. Star ids are positions in the star list and are pairwise distinct. |
| Level.JsonFromOk | src/bopymo/classes.py:926-936 | In a valid level where every object passes, the entries for any list of present uids are produced. |
| Level.RemoveRenumbersStars | src/bopymo/classes.py:833-834 | Removing a star moves every later star one place down, so its exported star id drops by one. |
| Level.RemovedDestinationBreaksJson | src/bopymo/classes.py:819-835 | `remove_object` does not check portals. Removing a portal's destination makes that portal fail the sanity check, and so `json()` fails. |
| Level.VersionGateDefaults | bopymo.py:950-963 | At the older default 1.0.15 the rose and the star pass the gate, and a 1.1.0 object raises `AssertionError`. At 1.1.0 the 1.1.0 object passes. |
| Blocks.SetPatternOpacity | src/bopymo/classes.py:629-635 | The `pattern_opacity` setter clamps to [0, 255] and keeps in-range values. |
| Blocks.SetOpacity | src/bopymo/classes.py:1078-1081 | The `opacity` setter clamps to [0, 255] and keeps in-range values. |
| Blocks.SetTransparency | src/bopymo/classes.py:1068-1072 | The `transparency` setter raises `ValueError` exactly outside 0..8. Otherwise it sets the opacity to that step's table entry. |
| Blocks.Transparency | src/bopymo/classes.py:1064-1066 | The `transparency` getter raises `ValueError` exactly for an opacity not in the table. Otherwise it returns that opacity's step. |
| Blocks.LookupIncreasing | src/bopymo/classes.py:1018 | The transparency table rises strictly. |
| Blocks.TransparencyRoundTrip | src/bopymo/classes.py:1064-1072 | Setting a step and reading it back gives the step. |
| Blocks.TransparencyRestores | src/bopymo/classes.py:1064-1072 | Reading the step and setting it back leaves the block unchanged. |
| Blocks.TransparencyOnlyOnSteps | src/bopymo/classes.py:1064-1072 | The getter succeeds exactly on the opacities that some step produces. |
| Blocks.OpacityOffTheSteps | src/bopymo/classes.py:1018-1081 | The default opacity 255 reads as step 8. Opacity 100, which the opacity setter accepts, makes the getter raise `ValueError`. |
| Blocks.ClampDamage | src/bopymo/classes.py:1359-1365 | The magma's clamp keeps non-negative damage and turns negative damage into 0. |
| Blocks.NewMagma | src/bopymo/classes.py:1341-1348 | A constructed magma's damage is the argument when non-negative, and 0 otherwise. |
| Blocks.SetDamage | src/bopymo/classes.py:1354-1357 | The `damage_amount` setter stores a non-negative value and clamps a negative one to 0. |
| Blocks.DamageGuards | src/bopymo/classes.py:1341-1365 | The setter and the constructor agree. Clamping is idempotent, and the default damage is 25. |
| Blocks.NewPainting | src/bopymo/classes.py:2221-2230 | The level painting's constructor stores the id as given. |
| Blocks.SetLevelId | src/bopymo/classes.py:2236-2239 | The `level_id` setter keeps ids of at least 1 and turns smaller ids into 1. |
| Blocks.ConstructorSkipsLevelIdClamp | src/bopymo/classes.py:2221-2239 | A painting built with an id below 1 keeps it, while the setter would turn that id into 1. |
| Decal.NewDecal | src/bopymo/classes.py:3189-3210 | A new decal's scale is (width, height, 0.01). It has no offset, and rotation about its pivot is disabled. |
| Decal.Ratios | src/bopymo/classes.py:3178-3187 | Both mesh ratios exceed 1, so the mesh is larger than the texture it shows. |
| Decal.CalculateSize | src/bopymo/classes.py:3212-3237 | A shirt's mesh is the scale times 10/8 and 20/17. Every other type uses the pants ratios 10/3 and 40/21. Depth is kept, and positive sizes grow. |
| Decal.SizeRoundTrip | src/bopymo/classes.py:3212-3237 | The texture size is recovered from the mesh size. |
| Decal.LegShift | src/bopymo/classes.py:3289-3296 | Before rotation, the left leg moves by -41/200 and the right leg by +41/200 of the mesh width. Both move up by 25/2000 of the mesh height, plus the offset, with depth 0. |
| Decal.LegsMirror | src/bopymo/classes.py:3289-3296 | Without an offset, the two legs' shifts mirror each other across the mesh's vertical axis. |
| Decal.CenterVector | src/bopymo/classes.py:3271-3300 | A shirt is not moved. Pants are moved by the leg shift turned by the decal's rotation in radians. |
| Decal.Tilt | src/bopymo/classes.py:3323-3329 | The tilt fix is +2 on the right leg and -2 on the left. |
| Decal.Json | src/bopymo/classes.py:3302-3331 | The export writes the mesh size. It moves the pivot when rotation is enabled and the position otherwise, and adds the tilt to the z rotation of pants. |
| Decal.JsonRecoversDecal | src/bopymo/classes.py:3302-3331 | The decal's own transform is recovered from the export: its scale, the moved point and the rotation. |
| Decal.ShirtOnlyRescales | src/bopymo/classes.py:3289-3290 | A shirt's export changes only its scale. |
| Decal.OnePointMoves | src/bopymo/classes.py:3315-3322 | Exactly one of position and pivot moves, and only by the centring translation. The two legs' tilts cancel. |

## Left out

- Writing the `.bopjson` file (`export`, timing, logging) and the level
  metadata that `json()` copies unchanged: name, description, music,
  atmosphere, gravity, and the save time read from the clock. Only the
  block list, which carries the rules, is modelled.
- `random.randrange` is not modelled as a distribution. `Level.AddObject`
  picks any free uid in [1, 2^32).
- `Level.AddObject`: requires fewer than 2^32 - 1 objects. On a full
  level the source's redraw loop never ends.
- `Level.AddObjects`: on a failing object the source has already stored
  the earlier ones. The model returns that partial level together with the
  error instead of propagating the exception.
- The `SERVER_BLOCK_LIMIT` warning on export is not modelled, because it
  only logs.
- Vector magnitude, `math.sin`/`cos`, pi and numpy float32 rounding are
  parameters (`Kinematics.Env`, `Decal.Frame`), not computed.
- Floating-point arithmetic is modelled as exact real arithmetic: no NaN,
  infinity or rounding in `Vector3`, `Color.from_hsv`, magma damage or the
  decal ratios.
- `Vector3.forward`/`up`/`left` (Euler matrices) and `magnitude` are
  parameters, not computed.
- The deprecated `position_points` getter is left out. It sets the speed
  to 5 as a side effect of a read and returns the live list.
- The logging and deprecation-warning flags of every setter are left out.
- Kinematics operations require `Wellformed`, at least one time per point.
  The source assumes this state without checking it. Every operation here
  preserves it except `add_position_points` raising `ZeroDivisionError`,
  which leaves a point without a time. The model says nothing about calls
  made on that state.
- The constant-speed `set_position_point` branch on a single point is
  modelled as written: the time is first set to 0 and then overwritten.
- `copy`, `__copy__`, `__deepcopy__`, `__str__` and `__iter__` are left out.
- Each object class's own `json()` fields, apart from the uid, the object
  and the star id in the block list, are left out.
- The enumerations (`Block_ID`, `Sky`, `Music`, `Decal_Type` values) are
  left out, except for the three decal types.
- `logger.py`, `legacy/godot_types.py`, the reference scripts, `main.py`
  and `template.py` are not part of this model.
- In the older snapshot, `Bopimo_Block.transparency` is a plain attribute
  (default 7) with no lookup. Only the package's property is modelled.
- `Blocks.ClampDamage`: does not distinguish Python `int` 0 from `0.0`
  for negative damage. Both are modelled as the real 0.
- `PyList.Without`: its own contract only bounds the length. Its meaning
  is stated by `PyList.WithoutDistinct`, `PyList.WithoutShifts`,
  `PyList.WithoutConcat` and `PyList.RemoveFirstOfDistinct`.
- `TypedArrays.GetFloat`: returns the stored value. numpy's `.item()`
  widening to a Python float is exact and is not modelled separately.
  The elements that are plain Python floats, which only a NumPy argument
  creates, are modelled by `TypedArrays.GetHeld` (see Findings).
- Aliasing and shared mutable objects are not modelled: every value here
  is immutable. In the source, `Vector3Array(list)` keeps the caller's
  list rather than a copy (src/bopymo/bopimo_types.py:505-508). The
  deprecated `position_points` setter stores the caller's array
  (src/bopymo/classes.py:327-329). `Vector3` and `Color` elements are
  shared mutable objects. A later change to any of these through another
  reference changes the level, and the model does not show that.

## Findings

| source | as written | input that shows it | evidently intended | confidence | as-written member | corrected member |
|---|---|---|---|---|---|---|
| src/bopymo/classes.py:503-504 | In constant-speed mode, `remove_position_point` pops only the point and leaves its travel time in the times array | speed 1, points (0,0,0), (1,0,0), (3,0,0) with times 1, 2, 3; `remove_position_point(0)` leaves 2 points and 3 times | one time per point, as the class documentation says: pop the time too and recompute the times | not executed | KinematicsProofs.RemoveDesyncs | KinematicsProofs.RemovePointFixedConsistent |
| src/bopymo/classes.py:471-481 | Constant-speed `set_position_point` writes into time `index` the distance from the previous point, and into time `index + 1` the distance to the next point. These are incoming segments, while the refresh stores each point's outgoing segment. | speed 1, points at x = 0, 1, 3 with refreshed times 1, 2, 3; `set_position_point(1, (2,0,0))` gives times 1, 2, 1 instead of 2, 1, 3 | recompute the outgoing times of the moved point and of its predecessor, matching `__refresh_constant_travel_speed_times` | not executed | KinematicsProofs.SetPointBreaksRefresh | KinematicsProofs.SetPointFixedRefreshes |
| src/bopymo/bopimo_types.py:1162-1163 | The constructor stores `float_list.tolist()` for a NumPy array, so every element is a plain Python float. `get_float`, `remove_float` and `json()` then call `.item()` on it (lines 1217, 1255, 1267). | `Float32Array(np.array([1.5], dtype=np.float32)).get_float(0)` raises `AttributeError` | keep the values as `numpy.float32` elements, as the list branch does | not executed | TypedArrays.NumpyItemRaises | TypedArrays.NumpyReadBack |
| src/bopymo/bopimo_types.py:1302-1303 | `a + ndarray` rebuilds the array from `np.append(...)`, whose `tolist()` turns every element into a plain Python float, the old ones included | `(Float32Array([1.0]) + np.array([2.0], dtype=np.float32)).get_float(0)` raises `AttributeError`, although `get_float(0)` on the left operand returns 1.0 | append the NumPy values as `numpy.float32` elements and keep the existing ones | not executed | TypedArrays.NumpyItemRaises | TypedArrays.ConcatFloats |
| src/bopymo/bopimo_types.py:1067-1068 | The unsigned upper bound of `Int32Array.json()` is `2**32`, inclusive, and likewise `2**64` for `Int64Array` (lines 1110-1111, and bopimo_types.py:1075-1076 in the older snapshot) | `Int32Array([2**32])` with `signed = False` exports without `OverflowError` | the upper bound `2**N - 1`, the largest unsigned N-bit value | not executed | TypedArrays.UnsignedAcceptsTwoToTheN | TypedArrays.CorrectedBoundsFit |
