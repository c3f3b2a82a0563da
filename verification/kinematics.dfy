/** Position kinematics of `Bopimo_Object`: a list of position points, a
    parallel list of travel times (`times[i]` is the time from point `i` to
    the next one, the last one wrapping round to the first), and an optional
    constant travel speed.

    With no speed, or speed 0, the times are whatever the caller supplied
    (explicit-time mode). With a non-zero speed the times are derived: the
    refresh sets `times[i] = |p[next(i)] - p[i]| / speed` (constant-speed
    mode). Every stored time goes through the `Float32Array` conversion.

    The magnitude (a square root) is a parameter of the model; the lemmas
    that need it ask only that the zero vector has magnitude 0. */
module Kinematics {
  import opened Failures
  import opened Vectors
  import PyList
  import TypedArrays

  datatype Kinematics = Kinematics(points: seq<Vector3>, times: seq<real>, speed: Option<real>)

  /** What the model does not compute itself: the magnitude of a vector,
      and how the times array stores a Python float. */
  datatype Env = Env(mag: Vector3 -> real, prec: TypedArrays.Precision)

  /** `(b - a).magnitude` */
  function Dist(env: Env, a: Vector3, b: Vector3): real {
    env.mag(Sub(b, a))
  }

  /** A Python float as the times array stores it. */
  function Stored(env: Env, x: real): real {
    TypedArrays.Store(env.prec, TypedArrays.PyFloat(x))
  }

  /** The magnitude of the zero vector is zero. */
  predicate ZeroLength(env: Env) {
    env.mag(Zero) == 0.0
  }

  /** A fresh object: no points, no times, no speed. */
  const Initial := Kinematics([], [], None)

  /** The `position_travel_speed` getter: an undeclared speed reads as 0. */
  function Speed(k: Kinematics): (s: real)
    ensures k.speed.None? ==> s == 0.0
    ensures k.speed.Some? ==> s == k.speed.value
  {
    match k.speed
    case None => 0.0
    case Some(v) => v
  }

  /** Constant-speed mode: a non-zero speed is declared. */
  predicate SpeedMode(k: Kinematics) {
    Speed(k) != 0.0
  }

  /** The point after point `i` in travel order: the last one wraps to the
      first. */
  function Next(n: nat, i: nat): (j: nat)
    requires i < n
    ensures j < n
    ensures j == (i + 1) % n
  {
    if i == n - 1 then 0 else i + 1
  }

  /** The time the refresh computes for leaving point `i` at speed `s`. */
  function Segment(env: Env, points: seq<Vector3>, s: real, i: nat): real
    requires i < |points| && s != 0.0
  {
    Stored(env, Dist(env, points[i], points[Next(|points|, i)]) / s)
  }

  /** There is a time for every point: every operation keeps this. */
  predicate Wellformed(k: Kinematics) {
    |k.times| >= |k.points|
  }

  /** Exactly one time per point, as the class documentation promises. */
  predicate Synced(k: Kinematics) {
    |k.times| == |k.points|
  }

  /** In constant-speed mode the first `m` times are the refreshed ones. */
  predicate RefreshedUpTo(env: Env, k: Kinematics, m: nat) {
    SpeedMode(k) ==>
      forall i :: 0 <= i < m && i < |k.points| && i < |k.times| ==>
        k.times[i] == Segment(env, k.points, Speed(k), i)
  }

  /** In constant-speed mode every point's time is the refreshed one. */
  predicate Refreshed(env: Env, k: Kinematics) {
    RefreshedUpTo(env, k, |k.points|)
  }

  /** The invariant the corrected operations keep. */
  predicate Consistent(env: Env, k: Kinematics) {
    Synced(k) && Refreshed(env, k)
  }

  // ---------------------------------------------------------------------
  // Operations, as written

  /** `__refresh_constant_travel_speed_times`: with a declared speed, sets
      the time of every point to the distance to the next point divided by
      the speed; times past the last point are not touched. Without a
      speed, nothing happens. Its callers only call it with a non-zero
      speed. */
  function Refresh(env: Env, k: Kinematics): (r: Kinematics)
    requires Wellformed(k) && k.speed != Some(0.0)
    ensures r.points == k.points && r.speed == k.speed && |r.times| == |k.times|
    ensures Refreshed(env, r)
    ensures k.speed.None? ==> r == k
    ensures forall i :: |k.points| <= i < |k.times| ==> r.times[i] == k.times[i]
  {
    match k.speed
    case None => k
    case Some(s) =>
      var n := |k.points|;
      k.(times := seq(|k.times|, i requires 0 <= i < |k.times| =>
        if i < n then Segment(env, k.points, s, i) else k.times[i]))
  }

  /** The `position_travel_speed` setter: stores the speed and, when it is
      non-zero, refreshes every time. Speed 0 keeps the times as they are. */
  function SetSpeed(env: Env, k: Kinematics, value: real): (r: Kinematics)
    requires Wellformed(k)
    ensures r.points == k.points && r.speed == Some(value) && |r.times| == |k.times|
    ensures value == 0.0 ==> r.times == k.times
    ensures Refreshed(env, r)
  {
    var k1 := k.(speed := Some(value));
    if value != 0.0 then Refresh(env, k1) else k1
  }

  /** The point list the deprecated `position_points` setter stores: the
      origin is prepended when the first point is not the origin. */
  function WithOrigin(points: seq<Vector3>): (r: seq<Vector3>)
    ensures r != [] ==> r[0] == Zero
    ensures points == [] || points[0] == Zero ==> r == points
    ensures points != [] && points[0] != Zero ==> r == [Zero] + points
  {
    if points != [] && points[0] != Zero then [Zero] + points else points
  }

  /** The deprecated `position_points` setter: stores the points (with the
      origin prepended if needed), resets the times to one zero per point,
      defaults an undeclared speed to 5 and, with a non-zero speed,
      refreshes. */
  function SetPointsDeprecated(env: Env, k: Kinematics, points: seq<Vector3>): (r: Kinematics)
    ensures r.points == WithOrigin(points)
    ensures Synced(r) && Refreshed(env, r)
    ensures k.speed.None? ==> r.speed == Some(5.0)
    ensures k.speed.Some? ==> r.speed == k.speed
    ensures !SpeedMode(r) ==> forall i :: 0 <= i < |r.times| ==> r.times[i] == Stored(env, 0.0)
  {
    var positions := WithOrigin(points);
    var k1 := Kinematics(positions, seq(|positions|, _ => Stored(env, 0.0)), k.speed);
    var k2 := if k.speed.None? then SetSpeed(env, k1, 5.0) else k1;
    if k2.speed.value != 0.0 then Refresh(env, k2) else k2
  }

  /** `add_position_point(position, time)`. In explicit-time mode the time
      is appended as given. In constant-speed mode the time of the former
      last point is set to the distance to the new point, and the new
      point's time, the distance back to the first point, is appended; a
      first point gets time 0. */
  function AddPoint(env: Env, k: Kinematics, position: Vector3, time: real): (r: Kinematics)
    requires Wellformed(k)
    ensures r.points == k.points + [position] && r.speed == k.speed
    ensures |r.times| == |k.times| + 1
    ensures !SpeedMode(k) ==> r.times == k.times + [Stored(env, time)]
    ensures Wellformed(r) && (Synced(k) ==> Synced(r))
  {
    var points := k.points + [position];
    var n := |points|;
    if !SpeedMode(k) then
      k.(points := points, times := k.times + [Stored(env, time)])
    else if n < 2 then
      k.(points := points, times := k.times + [Stored(env, 0.0)])
    else
      var s := Speed(k);
      var back := Stored(env, Dist(env, points[n - 2], position) / s);
      var wrap := Stored(env, Dist(env, position, points[0]) / s);
      k.(points := points, times := k.times[n - 2 := back] + [wrap])
  }

  /** One element of the argument of `add_position_points`: a bare point,
      or a point with its travel time. */
  datatype PointArg = Bare(position: Vector3) | Timed(position: Vector3, time: real)

  /** The positions of a list of arguments, in order. */
  function Positions(items: seq<PointArg>): (r: seq<Vector3>)
    ensures |r| == |items|
    ensures forall i :: 0 <= i < |items| ==> r[i] == items[i].position
  {
    if items == [] then [] else [items[0].position] + Positions(items[1..])
  }
  /** What a call leaves behind: the state, and the exception it raised, if
      any. The lists are changed in place, so a call that raises part-way
      keeps every change it made before the raise. */
  datatype Outcome = Outcome(state: Kinematics, error: Option<Exception>)

  /** The outcome of a call that raises before it changes anything. */
  function Leaves(k: Kinematics, r: Result<Kinematics>): Outcome {
    match r
    case Ok(k1) => Outcome(k1, None)
    case Raise(e) => Outcome(k, Some(e))
  }

  /** One pass of the loop of `add_position_points` for a bare point: append
      it, set the time of the former last point and append a placeholder
      time 0. Without a speed the division raises `ZeroDivisionError`, after
      the point is appended and before any time is. */
  function AddBare(env: Env, k: Kinematics, position: Vector3): (r: Outcome)
    requires Wellformed(k)
    ensures r.error.Some? <==> !SpeedMode(k) && |k.points| >= 1
    ensures r.error.Some? ==> r.error.value == ZeroDivisionError && r.state.times == k.times
    ensures r.state.points == k.points + [position] && r.state.speed == k.speed
    ensures r.error.None? ==> |r.state.times| == |k.times| + 1 && Wellformed(r.state)
  {
    var points := k.points + [position];
    var n := |points|;
    if n < 2 then
      Outcome(k.(points := points, times := k.times + [Stored(env, 0.0)]), None)
    else if Speed(k) == 0.0 then
      Outcome(k.(points := points), Some(ZeroDivisionError))
    else
      var back := Stored(env, Dist(env, points[n - 2], position) / Speed(k));
      Outcome(k.(points := points, times := k.times[n - 2 := back] + [Stored(env, 0.0)]), None)
  }

  /** One pass of the loop of `add_position_points`. */
  function AddOne(env: Env, k: Kinematics, item: PointArg): (r: Outcome)
    requires Wellformed(k)
    ensures r.error.Some? ==> item.Bare? && !SpeedMode(k) && r.error.value == ZeroDivisionError
    ensures r.error.Some? ==> r.state.times == k.times
    ensures r.state.points == k.points + [item.position] && r.state.speed == k.speed
    ensures r.error.None? ==> |r.state.times| == |k.times| + 1 && Wellformed(r.state)
  {
    match item
    case Bare(p) => AddBare(env, k, p)
    case Timed(p, t) => Outcome(AddPoint(env, k, p, t), None)
  }

  /** `s` is what the loop of `add_position_points` leaves when its
      `added`-th argument, a bare point, raised: the first `added` positions
      are appended, and a time for each of them but the last. */
  predicate StoppedAt(k: Kinematics, items: seq<PointArg>, s: Kinematics, added: int) {
    1 <= added <= |items| && items[added - 1].Bare?
    && s.points == k.points + Positions(items[..added])
    && |s.times| == |k.times| + added - 1
  }

  /** The loop of `add_position_points` over its whole argument. A bare
      point that raises ends it, with that point appended and no time for
      it. */
  function AddLoop(env: Env, k: Kinematics, items: seq<PointArg>): (r: Outcome)
    requires Wellformed(k)
    ensures r.state.speed == k.speed
    ensures r.error.None? ==> r.state.points == k.points + Positions(items)
    ensures r.error.None? ==> |r.state.times| == |k.times| + |items| && Wellformed(r.state)
    ensures r.error.Some? ==> r.error.value == ZeroDivisionError && !SpeedMode(k)
    ensures r.error.Some? ==> StoppedAt(k, items, r.state, |r.state.points| - |k.points|)
    decreases |items|
  {
    if items == [] then Outcome(k, None)
    else
      var o := AddOne(env, k, items[0]);
      if o.error.Some? then
        StoppedFirst(k, items, o.state);
        o
      else
        var r := AddLoop(env, o.state, items[1..]);
        AppendPositions(k.points, items);
        if r.error.Some? then
          StoppedOneLater(k, o.state, items, r.state, |r.state.points| - |o.state.points|);
          r
        else
          r
  }

  /** Appending the first position and then the rest's is appending all
      of them. */
  lemma AppendPositions(ps: seq<Vector3>, items: seq<PointArg>)
    requires items != []
    ensures (ps + [items[0].position]) + Positions(items[1..]) == ps + Positions(items)
  {
    assert Positions(items) == [items[0].position] + Positions(items[1..]);
  }

  /** Stopping at the first argument. */
  lemma StoppedFirst(k: Kinematics, items: seq<PointArg>, s: Kinematics)
    requires items != [] && items[0].Bare?
    requires s.points == k.points + [items[0].position] && s.times == k.times
    ensures StoppedAt(k, items, s, 1)
  {
    assert items[..1] == [items[0]];
    assert Positions(items[..1]) == [items[0].position] + Positions([]);
  }

  /** Stopping after `m` arguments of the rest, once the first argument
      is in, is stopping after `m + 1` of the whole list. */
  lemma StoppedOneLater(k: Kinematics, k1: Kinematics, items: seq<PointArg>, s: Kinematics, m: int)
    requires items != [] && k1.points == k.points + [items[0].position] && |k1.times| == |k.times| + 1
    requires StoppedAt(k1, items[1..], s, m)
    ensures StoppedAt(k, items, s, m + 1)
  {
    assert items[..m + 1][1..] == items[1..][..m];
    AppendPositions(k.points, items[..m + 1]);
  }

  /** `add_position_points(items)`. An empty list changes nothing. Before
      anything is added, `TypeError` is raised when the last element is a
      bare point and there is no speed, or a timed point and there is one;
      only the last element is checked, so an earlier bare point without a
      speed raises `ZeroDivisionError` inside the loop, leaving the points
      before it and itself appended. After the loop, a trailing bare point
      gets its wrap-round time. */
  function AddPoints(env: Env, k: Kinematics, items: seq<PointArg>): (r: Outcome)
    requires Wellformed(k)
    ensures items == [] ==> r == Outcome(k, None)
    ensures items != [] && items[|items| - 1].Bare? && !SpeedMode(k) ==> r == Outcome(k, Some(TypeError))
    ensures items != [] && items[|items| - 1].Timed? && SpeedMode(k) ==> r == Outcome(k, Some(TypeError))
    ensures r.error == Some(TypeError) ==> r.state == k
    ensures r.error.Some? ==> r.error.value == TypeError || r.error.value == ZeroDivisionError
    ensures r.error == Some(ZeroDivisionError) ==>
      !SpeedMode(k) && StoppedAt(k, items, r.state, |r.state.points| - |k.points|)
    ensures r.state.speed == k.speed
    ensures r.error.None? ==> r.state.points == k.points + Positions(items)
    ensures r.error.None? ==> |r.state.times| == |k.times| + |items| && Wellformed(r.state)
  {
    if items == [] then Outcome(k, None)
    else
      var e := items[|items| - 1];
      if e.Bare? && Speed(k) == 0.0 then Outcome(k, Some(TypeError))
      else if e.Timed? && Speed(k) != 0.0 then Outcome(k, Some(TypeError))
      else
        var o := AddLoop(env, k, items);
        if o.error.Some? then o
        else if e.Bare? then
          var k1 := o.state;
          var last := |k1.times| - 1;
          var wrap := Stored(env, Dist(env, e.position, k1.points[0]) / Speed(k1));
          Outcome(k1.(times := k1.times[last := wrap]), None)
        else
          o
  }

  /** `get_position_point(index)`: the point at a Python index, `IndexError`
      outside [-n, n). */
  function GetPoint(k: Kinematics, index: int): (r: Result<Vector3>)
    ensures r.Ok? <==> PyList.InRange(|k.points|, index)
    ensures r.Ok? ==> r.value == k.points[PyList.Slot(|k.points|, index)]
    ensures r.Raise? ==> r.error == IndexError
  {
    PyList.Get(k.points, index)
  }

  /** `set_position_point(index, position, time)`, as written. In
      explicit-time mode the time at `index` becomes `time`. In
      constant-speed mode the time at `index` becomes the distance from the
      point before it, and, unless `index` addresses the last point, the
      time at `index + 1` becomes the distance from the new point to the
      one after it. The point before index `-n` is read at `-n - 1`, which
      raises `IndexError` after the point is written. */
  function SetPoint(env: Env, k: Kinematics, index: int, position: Vector3, time: real): (r: Outcome)
    requires Wellformed(k)
    ensures !PyList.InRange(|k.points|, index) ==> r == Outcome(k, Some(IndexError))
    ensures r.error.Some? <==> !PyList.InRange(|k.points|, index) || (SpeedMode(k) && index == -|k.points|)
    ensures r.error.Some? ==> r.error.value == IndexError
    ensures r.state.speed == k.speed && |r.state.times| == |k.times| && |r.state.points| == |k.points|
    ensures PyList.InRange(|k.points|, index) ==>
      r.state.points == k.points[PyList.Slot(|k.points|, index) := position]
    ensures Synced(k) && PyList.InRange(|k.points|, index) && !SpeedMode(k) ==>
      r == Outcome(k.(points := k.points[PyList.Slot(|k.points|, index) := position],
                      times := k.times[PyList.Slot(|k.points|, index) := Stored(env, time)]), None)
  {
    if !PyList.InRange(|k.points|, index) then Outcome(k, Some(IndexError))
    else
      var points := PyList.Set(k.points, index, position).value;
      if !SpeedMode(k) then
        var times := PyList.Set(k.times, index, Stored(env, time)).value;
        Outcome(k.(points := points, times := times), None)
      else
        var s := Speed(k);
        var t1 := if |points| < 2 then PyList.Set(k.times, index, Stored(env, 0.0)).value else k.times;
        if !PyList.InRange(|points|, index - 1) then
          Outcome(k.(points := points, times := t1), Some(IndexError))
        else
          var prev := PyList.Get(points, index - 1).value;
          var t2 := PyList.Set(t1, index, Stored(env, Dist(env, prev, position) / s)).value;
          if index < |points| - 1 then
            var next := PyList.Get(points, index + 1).value;
            var t3 := PyList.Set(t2, index + 1, Stored(env, Dist(env, position, next) / s)).value;
            Outcome(k.(points := points, times := t3), None)
          else
            Outcome(k.(points := points, times := t2), None)
  }

  /** What `remove_position_point` returns: the pair in explicit-time mode,
      the bare point in constant-speed mode. */
  datatype Removed = PointAndTime(point: Vector3, time: real) | PointOnly(point: Vector3)

  /** `remove_position_point(index)`, as written. Explicit-time mode pops
      the same index from both lists and returns the pair; constant-speed
      mode pops only the point and leaves the times alone. */
  function RemovePoint(k: Kinematics, index: int): (r: Result<(Removed, Kinematics)>)
    requires Wellformed(k)
    ensures r.Ok? <==> PyList.InRange(|k.points|, index)
    ensures r.Raise? ==> r.error == IndexError
    ensures r.Ok? ==> r.value.0.point == k.points[PyList.Slot(|k.points|, index)]
    ensures r.Ok? ==> r.value.1.speed == k.speed && |r.value.1.points| + 1 == |k.points|
    ensures r.Ok? && SpeedMode(k) ==> r.value.0.PointOnly? && r.value.1.times == k.times
    ensures r.Ok? && !SpeedMode(k) ==> r.value.0.PointAndTime? && |r.value.1.times| + 1 == |k.times|
    ensures r.Ok? ==> Wellformed(r.value.1)
  {
    var (p, points) :- PyList.Pop(k.points, index);
    if !SpeedMode(k) then
      var (t, times) := PyList.Pop(k.times, index).value;
      Ok((PointAndTime(p, t), k.(points := points, times := times)))
    else
      Ok((PointOnly(p), k.(points := points)))
  }

  /** `clear_position_points()`: both lists emptied, the speed kept. */
  function Clear(k: Kinematics): (r: Kinematics)
    ensures r.points == [] && r.times == [] && r.speed == k.speed
    ensures Synced(r)
  {
    k.(points := [], times := [])
  }

  // ---------------------------------------------------------------------
  // Corrected operations

  /** The point before point `j` in travel order: the first one wraps to the
      last, as the Python index `j - 1` does. */
  function Prev(n: nat, j: nat): (i: nat)
    requires j < n
    ensures i < n && Next(n, i) == j
  {
    if j == 0 then n - 1 else j - 1
  }

  /** `set_position_point` with the outgoing-segment convention of the
      refresh: in constant-speed mode the two times that depend on the
      moved point, its own and its predecessor's, are recomputed. */
  function SetPointFixed(env: Env, k: Kinematics, index: int, position: Vector3, time: real): (r: Result<Kinematics>)
    requires Wellformed(k)
    ensures r.Ok? <==> PyList.InRange(|k.points|, index)
    ensures r.Raise? ==> r.error == IndexError
    ensures r.Ok? ==> r.value.speed == k.speed && |r.value.times| == |k.times|
    ensures r.Ok? ==> r.value.points == k.points[PyList.Slot(|k.points|, index) := position]
    ensures Synced(k) && !SpeedMode(k) ==> SetPoint(env, k, index, position, time) == Leaves(k, r)
  {
    var points :- PyList.Set(k.points, index, position);
    var j := PyList.Slot(|k.points|, index);
    if !SpeedMode(k) then
      Ok(k.(points := points, times := PyList.Set(k.times, index, Stored(env, time)).value))
    else
      var s := Speed(k);
      var i := Prev(|points|, j);
      var times := k.times[j := Segment(env, points, s, j)][i := Segment(env, points, s, i)];
      Ok(k.(points := points, times := times))
  }

  /** `remove_position_point` as documented: the point and its time are
      popped from the same position in both modes and returned as a pair;
      in constant-speed mode the times are then refreshed, since the
      predecessor of the removed point now travels to its successor. */
  function RemovePointFixed(env: Env, k: Kinematics, index: int): (r: Result<(Removed, Kinematics)>)
    requires Wellformed(k)
    ensures r.Ok? <==> PyList.InRange(|k.points|, index)
    ensures r.Raise? ==> r.error == IndexError
    ensures r.Ok? ==> r.value.0.PointAndTime? && r.value.0.point == k.points[PyList.Slot(|k.points|, index)]
    ensures r.Ok? ==> r.value.1.speed == k.speed && |r.value.1.points| + 1 == |k.points|
    ensures r.Ok? ==> |r.value.1.times| + 1 == |k.times| && Refreshed(env, r.value.1)
    ensures Synced(k) && !SpeedMode(k) ==> r == RemovePoint(k, index)
  {
    var (p, points) :- PyList.Pop(k.points, index);
    var j := PyList.Slot(|k.points|, index);
    var (t, times) := PyList.Pop(k.times, j).value;
    var k1 := k.(points := points, times := times);
    Ok((PointAndTime(p, t), if SpeedMode(k) then Refresh(env, k1) else k1))
  }
}
