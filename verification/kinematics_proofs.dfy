/** What the kinematics operations keep and what they break: the refresh is
    idempotent, the incremental updates of `add_position_point` and
    `add_position_points` agree with a full refresh, the explicit-time paths
    store the given times, and the constant-speed `set` and `remove` lose
    the agreement (one time per point, each time the refreshed one), which
    their corrected versions restore. */
module KinematicsProofs {
  import opened Failures
  import opened Vectors
  import PyList
  import TypedArrays
  import opened Kinematics

  /** Refreshing twice is refreshing once, and a state whose times already
      are the refreshed ones is left alone. */
  lemma RefreshFixpoint(env: Env, k: Kinematics)
    requires Wellformed(k) && k.speed != Some(0.0)
    ensures Refresh(env, Refresh(env, k)) == Refresh(env, k)
    ensures Refreshed(env, k) ==> Refresh(env, k) == k
  {
    if Refreshed(env, k) && k.speed.Some? {
      assert Refresh(env, k).times == k.times;
    }
  }

  /** Every time but the last one is the refreshed one: the state inside
      the loop of `add_position_points`, whose last time is a placeholder. */
  predicate RefreshedButLast(env: Env, k: Kinematics) {
    SpeedMode(k) ==>
      forall i :: 0 <= i < |k.points| - 1 && i < |k.times| ==>
        k.times[i] == Segment(env, k.points, Speed(k), i)
  }

  /** `v - v` is the zero vector, so a point's distance to itself is the
      magnitude of zero. */
  lemma DistSelf(env: Env, v: Vector3)
    requires ZeroLength(env)
    ensures Dist(env, v, v) == 0.0
  {
    AdditiveGroup(v, v);
  }

  /** In constant-speed mode, `add_position_point` on a state with one time
      per point whose times (but possibly the last) are the refreshed ones
      ends with every time refreshed: the incremental update equals a full
      refresh of the new point list. */
  lemma {:induction false} AddPointRefreshes(env: Env, k: Kinematics, position: Vector3, time: real)
    requires ZeroLength(env) && Synced(k) && RefreshedButLast(env, k)
    ensures Synced(AddPoint(env, k, position, time))
    ensures Refreshed(env, AddPoint(env, k, position, time))
    ensures SpeedMode(k) ==> Refresh(env, AddPoint(env, k, position, time)) == AddPoint(env, k, position, time)
  {
    var r := AddPoint(env, k, position, time);
    var n := |r.points|;
    if SpeedMode(k) {
      var s := Speed(k);
      if n == 1 {
        DistSelf(env, position);
        assert r.times[0] == Segment(env, r.points, s, 0);
      } else {
        forall i | 0 <= i < n
          ensures r.times[i] == Segment(env, r.points, s, i)
        {
          if i < n - 2 {
            assert k.times[i] == Segment(env, k.points, s, i);
            assert Next(n, i) == Next(n - 1, i) == i + 1;
          }
        }
      }
      RefreshFixpoint(env, r);
    }
  }

  /** One bare point in the loop of `add_position_points`, in
      constant-speed mode: the state stays one-time-per-point and refreshed
      but for the last (placeholder) time. */
  lemma AddBareStep(env: Env, k: Kinematics, position: Vector3)
    requires SpeedMode(k) && Synced(k) && RefreshedButLast(env, k)
    ensures AddBare(env, k, position).error.None?
    ensures Synced(AddBare(env, k, position).state)
    ensures RefreshedButLast(env, AddBare(env, k, position).state)
  {
    var r := AddBare(env, k, position).state;
    var n := |r.points|;
    var s := Speed(k);
    forall i | 0 <= i < n - 1
      ensures r.times[i] == Segment(env, r.points, s, i)
    {
      if i < n - 2 {
        assert k.times[i] == Segment(env, k.points, s, i);
        assert Next(n, i) == Next(n - 1, i) == i + 1;
      }
    }
  }

  /** The loop of `add_position_points` in constant-speed mode never raises
      and keeps the state refreshed but for the last time. */
  lemma {:induction false} AddLoopRefreshes(env: Env, k: Kinematics, items: seq<PointArg>)
    requires ZeroLength(env) && SpeedMode(k) && Synced(k) && RefreshedButLast(env, k)
    ensures AddLoop(env, k, items).error.None?
    ensures Synced(AddLoop(env, k, items).state)
    ensures RefreshedButLast(env, AddLoop(env, k, items).state)
    decreases |items|
  {
    if items != [] {
      var k1 := AddOne(env, k, items[0]);
      match items[0] {
        case Bare(p) => AddBareStep(env, k, p);
        case Timed(p, t) => AddPointRefreshes(env, k, p, t);
      }
      AddLoopRefreshes(env, k1.state, items[1..]);
    }
  }

  /** `add_position_points` of bare points in constant-speed mode, with the
      wrap-round time deferred to the end, ends with one time per point,
      every one of them the refreshed one. */
  lemma AddPointsRefreshes(env: Env, k: Kinematics, items: seq<PointArg>)
    requires ZeroLength(env) && SpeedMode(k) && Consistent(env, k)
    requires items != [] && items[|items| - 1].Bare?
    ensures AddPoints(env, k, items).error.None?
    ensures Consistent(env, AddPoints(env, k, items).state)
  {
    AddLoopRefreshes(env, k, items);
    var k1 := AddLoop(env, k, items).state;
    var r := AddPoints(env, k, items).state;
    var n := |r.points|;
    assert r.points[n - 1] == items[|items| - 1].position;
    forall i | 0 <= i < n
      ensures r.times[i] == Segment(env, r.points, Speed(r), i)
    {
      if i < n - 1 {
        assert k1.times[i] == Segment(env, k1.points, Speed(k1), i);
      }
    }
  }

  /** The times a list of timed points supplies, as stored. */
  function SuppliedTimes(env: Env, items: seq<PointArg>): (r: seq<real>)
    requires forall i :: 0 <= i < |items| ==> items[i].Timed?
    ensures |r| == |items|
  {
    if items == [] then []
    else
      assert forall i :: 0 <= i < |items[1..]| ==> items[1..][i] == items[i + 1];
      [Stored(env, items[0].time)] + SuppliedTimes(env, items[1..])
  }

  /** In explicit-time mode the loop over timed points appends every point
      and its time, in order. */
  lemma {:induction false} AddLoopExplicit(env: Env, k: Kinematics, items: seq<PointArg>)
    requires Wellformed(k) && !SpeedMode(k)
    requires forall i :: 0 <= i < |items| ==> items[i].Timed?
    ensures AddLoop(env, k, items).error.None?
    ensures AddLoop(env, k, items).state.times == k.times + SuppliedTimes(env, items)
    decreases |items|
  {
    if items != [] {
      var it, tail := items[0], items[1..];
      assert it.Timed?;
      var k1 := AddPoint(env, k, it.position, it.time);
      assert AddLoop(env, k, items) == AddLoop(env, k1, tail) by {
        assert AddOne(env, k, it) == Outcome(k1, None);
      }
      assert forall i :: 0 <= i < |tail| ==> tail[i].Timed? by {
        assert forall i :: 0 <= i < |tail| ==> tail[i] == items[i + 1];
      }
      AddLoopExplicit(env, k1, tail);
      var t := Stored(env, it.time);
      assert SuppliedTimes(env, items) == [t] + SuppliedTimes(env, tail);
      assert k1.times == k.times + [t];
      ConcatAssoc(k.times, [t], SuppliedTimes(env, tail));
    }
  }

  lemma ConcatAssoc<T>(a: seq<T>, b: seq<T>, c: seq<T>)
    ensures (a + b) + c == a + (b + c)
  {
  }

  /** `add_position_points` of timed points in explicit-time mode appends
      every point and stores every supplied time, in order. */
  lemma AddPointsExplicit(env: Env, k: Kinematics, items: seq<PointArg>)
    requires Wellformed(k) && !SpeedMode(k)
    requires forall i :: 0 <= i < |items| ==> items[i].Timed?
    ensures AddPoints(env, k, items).error.None?
    ensures AddPoints(env, k, items).state.points == k.points + Positions(items)
    ensures AddPoints(env, k, items).state.times == k.times + SuppliedTimes(env, items)
  {
    AddLoopExplicit(env, k, items);
  }

  /** Only the last element is checked: in explicit-time mode a bare point
      before a timed one passes the check and then divides by the speed 0,
      after it has been appended and before it has a time. */
  lemma OnlyLastChecked(env: Env, p: Vector3, q: Vector3)
    ensures AddPoints(env, Kinematics([p], [0.0], None), [Bare(q), Timed(p, 1.0)])
      == Outcome(Kinematics([p, q], [0.0], None), Some(ZeroDivisionError))
  {
    assert [p] + [q] == [p, q];
  }

  /** A `ZeroDivisionError` out of `add_position_points` leaves one point
      without a time: from one time per point, one time fewer than points. */
  lemma ZeroDivisionDesyncs(env: Env, k: Kinematics, items: seq<PointArg>)
    requires Wellformed(k) && Synced(k)
    requires AddPoints(env, k, items).error == Some(ZeroDivisionError)
    ensures |AddPoints(env, k, items).state.times| + 1 == |AddPoints(env, k, items).state.points|
    ensures !Wellformed(AddPoints(env, k, items).state)
  {
    var s := AddPoints(env, k, items).state;
    var added := |s.points| - |k.points|;
    assert |Positions(items[..added])| == added;
  }

  /** The first bare point at speed 10 gets the placeholder time 0. */
  lemma TenFirst(env: Env, a: Vector3)
    ensures AddOne(env, Kinematics([], [], Some(10.0)), Bare(a))
      == Outcome(Kinematics([a], [Stored(env, 0.0)], Some(10.0)), None)
  {
    assert [] + [a] == [a] && [] + [Stored(env, 0.0)] == [Stored(env, 0.0)];
  }

  /** The second bare point, ten away, gives the first point time 1. */
  lemma TenSecond(env: Env, a: Vector3, b: Vector3)
    requires Dist(env, a, b) == 10.0
    ensures AddOne(env, Kinematics([a], [Stored(env, 0.0)], Some(10.0)), Bare(b))
      == Outcome(Kinematics([a, b], [Stored(env, 1.0), Stored(env, 0.0)], Some(10.0)), None)
  {
    assert [a] + [b] == [a, b];
    assert [Stored(env, 0.0)][0 := Stored(env, 1.0)] + [Stored(env, 0.0)] == [Stored(env, 1.0), Stored(env, 0.0)];
  }

  /** The third bare point, ten away, gives the second point time 1. */
  lemma TenThird(env: Env, a: Vector3, b: Vector3, c: Vector3)
    requires Dist(env, b, c) == 10.0
    ensures AddOne(env, Kinematics([a, b], [Stored(env, 1.0), Stored(env, 0.0)], Some(10.0)), Bare(c))
      == Outcome(Kinematics([a, b, c], [Stored(env, 1.0), Stored(env, 1.0), Stored(env, 0.0)], Some(10.0)), None)
  {
    assert [a, b] + [c] == [a, b, c];
    assert [Stored(env, 1.0), Stored(env, 0.0)][1 := Stored(env, 1.0)] + [Stored(env, 0.0)]
      == [Stored(env, 1.0), Stored(env, 1.0), Stored(env, 0.0)];
  }

  /** The loop of `add_position_points` over three bare points ten apart
      at speed 10. */
  lemma TenLoop(env: Env, a: Vector3, b: Vector3, c: Vector3)
    requires Dist(env, a, b) == 10.0 && Dist(env, b, c) == 10.0
    ensures AddLoop(env, Kinematics([], [], Some(10.0)), [Bare(a), Bare(b), Bare(c)])
      == Outcome(Kinematics([a, b, c], [Stored(env, 1.0), Stored(env, 1.0), Stored(env, 0.0)], Some(10.0)), None)
  {
    var z, o := Stored(env, 0.0), Stored(env, 1.0);
    var k0 := Kinematics([], [], Some(10.0));
    var k1 := Kinematics([a], [z], Some(10.0));
    var k2 := Kinematics([a, b], [o, z], Some(10.0));
    var k3 := Kinematics([a, b, c], [o, o, z], Some(10.0));
    TenFirst(env, a);
    TenSecond(env, a, b);
    TenThird(env, a, b, c);
    assert AddLoop(env, k2, [Bare(c)]) == Outcome(k3, None) by {
      assert [Bare(c)][1..] == [];
    }
    assert AddLoop(env, k1, [Bare(b), Bare(c)]) == Outcome(k3, None) by {
      assert [Bare(b), Bare(c)][1..] == [Bare(c)];
    }
    assert [Bare(a), Bare(b), Bare(c)][1..] == [Bare(b), Bare(c)];
  }

  /** Speed 10, then three bare points ten apart: the stored times are 1, 1
      and the wrap-round distance over 10, each through the `Float32Array`
      conversion; with verbatim storage they are those reals themselves. */
  lemma SpeedTenTimes(env: Env, a: Vector3, b: Vector3, c: Vector3)
    requires Dist(env, a, b) == 10.0 && Dist(env, b, c) == 10.0
    ensures AddPoints(env, SetSpeed(env, Initial, 10.0), [Bare(a), Bare(b), Bare(c)])
      == Outcome(Kinematics([a, b, c], [Stored(env, 1.0), Stored(env, 1.0), Stored(env, Dist(env, c, a) / 10.0)], Some(10.0)), None)
    ensures env.prec.Verbatim? ==>
      AddPoints(env, SetSpeed(env, Initial, 10.0), [Bare(a), Bare(b), Bare(c)])
        == Outcome(Kinematics([a, b, c], [1.0, 1.0, Dist(env, c, a) / 10.0], Some(10.0)), None)
  {
    assert SetSpeed(env, Initial, 10.0) == Kinematics([], [], Some(10.0));
    TenLoop(env, a, b, c);
    var o := Stored(env, 1.0);
    var k3 := Kinematics([a, b, c], [o, o, Stored(env, 0.0)], Some(10.0));
    assert k3.times[2 := Stored(env, Dist(env, c, a) / 10.0)] == [o, o, Stored(env, Dist(env, c, a) / 10.0)];
  }

  /** The points (0,0,0), (0,0,10), (10,0,10) at speed 10, as in the
      package's kinematics examples: the stored times are 1, 1 and the
      wrap-round distance over 10. */
  lemma SpeedTenExample(env: Env)
    requires env.mag(Vector3(0.0, 0.0, 10.0)) == 10.0 && env.mag(Vector3(10.0, 0.0, 0.0)) == 10.0
    ensures var a, b, c := Vector3(0.0, 0.0, 0.0), Vector3(0.0, 0.0, 10.0), Vector3(10.0, 0.0, 10.0);
      AddPoints(env, SetSpeed(env, Initial, 10.0), [Bare(a), Bare(b), Bare(c)])
        == Outcome(Kinematics([a, b, c], [Stored(env, 1.0), Stored(env, 1.0), Stored(env, env.mag(Vector3(-10.0, 0.0, -10.0)) / 10.0)], Some(10.0)), None)
  {
    var a, b, c := Vector3(0.0, 0.0, 0.0), Vector3(0.0, 0.0, 10.0), Vector3(10.0, 0.0, 10.0);
    assert Dist(env, a, b) == 10.0 by {
      assert Sub(b, a) == Vector3(0.0, 0.0, 10.0);
    }
    assert Dist(env, b, c) == 10.0 by {
      assert Sub(c, b) == Vector3(10.0, 0.0, 0.0);
    }
    assert Dist(env, c, a) == env.mag(Vector3(-10.0, 0.0, -10.0)) by {
      assert Sub(a, c) == Vector3(-10.0, 0.0, -10.0);
    }
    SpeedTenTimes(env, a, b, c);
  }

  // ---------------------------------------------------------------------
  // One time per point

  /** `clear`, explicit-time `remove`, `set` and the speed setter keep one
      time per point. */
  lemma SyncKept(env: Env, k: Kinematics, index: int, position: Vector3, time: real, value: real)
    requires Synced(k)
    ensures Synced(Clear(k))
    ensures Synced(SetSpeed(env, k, value))
    ensures !SpeedMode(k) && RemovePoint(k, index).Ok? ==> Synced(RemovePoint(k, index).value.1)
    ensures Synced(SetPoint(env, k, index, position, time).state)
    ensures AddPoints(env, k, [Timed(position, time)]).error.None? ==> Synced(AddPoints(env, k, [Timed(position, time)]).state)
  {
  }

  /** Constant-speed `set_position_point(-n, ...)` writes the first point
      and then reads the point before it at `-n - 1`, which raises
      `IndexError`: the new point stays, and with two or more points the
      times are untouched. */
  lemma SetFirstNegativeRaises(env: Env, k: Kinematics, position: Vector3, time: real)
    requires Wellformed(k) && SpeedMode(k) && |k.points| >= 2
    ensures SetPoint(env, k, -|k.points|, position, time)
      == Outcome(k.(points := k.points[0 := position]), Some(IndexError))
  {
  }

  /** Constant-speed `remove_position_point` pops only the point: afterwards
      there is one time more than there are points. */
  lemma RemoveDesyncs(k: Kinematics, index: int)
    requires Synced(k) && SpeedMode(k) && PyList.InRange(|k.points|, index)
    ensures RemovePoint(k, index).Ok?
    ensures |RemovePoint(k, index).value.1.times| == |RemovePoint(k, index).value.1.points| + 1
  {
  }

  /** The point at `a` on the x axis. */
  function OnAxis(a: real): Vector3 {
    Vector3(a, 0.0, 0.0)
  }

  /** The difference of two points on the x axis lies on the x axis. */
  lemma SubOnAxis(a: real, b: real)
    ensures Sub(OnAxis(a), OnAxis(b)) == OnAxis(a - b)
  {
  }

  /** The magnitudes the counterexample needs: the Euclidean magnitude of a
      vector along the x axis is its length. */
  predicate AxisLengths(env: Env) {
    env.mag(Zero) == 0.0
    && env.mag(OnAxis(1.0)) == 1.0
    && env.mag(OnAxis(2.0)) == 2.0
    && env.mag(OnAxis(-3.0)) == 3.0
  }

  /** Such a magnitude exists: the sum of the absolute components. */
  lemma AxisLengthsExist()
    ensures AxisLengths(Env((v: Vector3) => Abs(v.x) + Abs(v.y) + Abs(v.z), TypedArrays.Verbatim))
  {
  }

  function Abs(x: real): real {
    if x < 0.0 then -x else x
  }

  /** Three points on the x axis at 0, 1 and 3, speed 1, refreshed times. */
  const Before := Kinematics([OnAxis(0.0), OnAxis(1.0), OnAxis(3.0)], [1.0, 2.0, 3.0], Some(1.0))

  /** What `set_position_point(1, (2, 0, 0))` leaves behind. */
  const After := Kinematics([OnAxis(0.0), OnAxis(2.0), OnAxis(3.0)], [1.0, 2.0, 1.0], Some(1.0))

  /** The refreshed time of point `i`. */
  lemma RefreshAt(env: Env, k: Kinematics, i: nat)
    requires Synced(k) && k.speed.Some? && k.speed.value != 0.0 && i < |k.points|
    ensures Refresh(env, k).times[i] == Segment(env, k.points, k.speed.value, i)
  {
  }

  /** With exact storage, a segment time is the distance over the speed. */
  lemma SegmentIs(env: Env, ps: seq<Vector3>, s: real, i: nat, j: nat, d: real)
    requires env.prec.Verbatim? && s != 0.0 && i < |ps| && j == Next(|ps|, i)
    requires Dist(env, ps[i], ps[j]) == d
    ensures Segment(env, ps, s, i) == d / s
  {
  }

  /** The state the counterexample starts from keeps the promise. */
  lemma BeforeConsistent(env: Env)
    requires env.prec.Verbatim? && AxisLengths(env)
    ensures ZeroLength(env) && Consistent(env, Before)
  {
    var ps := Before.points;
    assert |ps| == 3 && |Before.times| == 3 && Speed(Before) == 1.0;
    assert Before.times[0] == Segment(env, ps, 1.0, 0) by {
      SubOnAxis(1.0, 0.0);
      SegmentIs(env, ps, 1.0, 0, 1, 1.0);
    }
    assert Before.times[1] == Segment(env, ps, 1.0, 1) by {
      SubOnAxis(3.0, 1.0);
      SegmentIs(env, ps, 1.0, 1, 2, 2.0);
    }
    assert Before.times[2] == Segment(env, ps, 1.0, 2) by {
      SubOnAxis(0.0, 3.0);
      SegmentIs(env, ps, 1.0, 2, 0, 3.0);
    }
    ThreeRefreshed(env, Before);
  }

  /** Three points whose three times are the refreshed ones. */
  lemma ThreeRefreshed(env: Env, k: Kinematics)
    requires |k.points| == 3 && |k.times| == 3 && SpeedMode(k)
    requires forall i :: 0 <= i < 3 ==> k.times[i] == Segment(env, k.points, Speed(k), i)
    ensures Consistent(env, k)
  {
  }

  /** The refreshed times of the moved points are 2, 1 and 3. */
  lemma AfterRefreshed(env: Env)
    requires env.prec.Verbatim? && AxisLengths(env)
    ensures var t := Refresh(env, After).times; |t| == 3 && t[0] == 2.0 && t[1] == 1.0 && t[2] == 3.0
  {
    var ps := After.points;
    assert Refresh(env, After).times[0] == 2.0 by {
      SubOnAxis(2.0, 0.0);
      SegmentIs(env, ps, 1.0, 0, 1, 2.0);
      RefreshAt(env, After, 0);
    }
    assert Refresh(env, After).times[1] == 1.0 by {
      SubOnAxis(3.0, 2.0);
      SegmentIs(env, ps, 1.0, 1, 2, 1.0);
      RefreshAt(env, After, 1);
    }
    assert Refresh(env, After).times[2] == 3.0 by {
      SubOnAxis(0.0, 3.0);
      SegmentIs(env, ps, 1.0, 2, 0, 3.0);
      RefreshAt(env, After, 2);
    }
  }

  /** What constant-speed `set_position_point(1, (2, 0, 0))` does to the
      counterexample's starting state. */
  lemma SetPointOnAxis(env: Env)
    requires env.prec.Verbatim? && AxisLengths(env)
    ensures SetPoint(env, Before, 1, OnAxis(2.0), 0.0) == Outcome(After, None)
  {
    var ps := Before.points[1 := OnAxis(2.0)];
    assert ps == After.points;
    SubOnAxis(2.0, 0.0);
    SubOnAxis(3.0, 2.0);
    assert Before.times[1 := 2.0][2 := 1.0] == After.times;
  }

  /** Constant-speed `set_position_point` writes the incoming segment into
      the moved point's own time: at speed 1 with points at 0, 1 and 3 on
      the x axis, moving the middle point to 2 leaves times 1, 2, 1 where
      the refresh gives 2, 1, 3. */
  lemma SetPointBreaksRefresh(env: Env)
    requires env.prec.Verbatim? && AxisLengths(env)
    ensures ZeroLength(env) && Consistent(env, Before)
    ensures SetPoint(env, Before, 1, OnAxis(2.0), 0.0) == Outcome(After, None)
    ensures !Refreshed(env, After)
  {
    BeforeConsistent(env);
    AfterRefreshed(env);
    SetPointOnAxis(env);
    assert After.times[0] != Segment(env, After.points, 1.0, 0) by {
      RefreshAt(env, After, 0);
    }
  }

  /** The corrected `set_position_point` keeps one time per point, each the
      refreshed one: the two recomputed times are exactly what a full
      refresh of the new point list gives. */
  lemma SetPointFixedRefreshes(env: Env, k: Kinematics, index: int, position: Vector3, time: real)
    requires Consistent(env, k) && PyList.InRange(|k.points|, index)
    ensures SetPointFixed(env, k, index, position, time).Ok?
    ensures Consistent(env, SetPointFixed(env, k, index, position, time).value)
    ensures SpeedMode(k) ==>
      Refresh(env, SetPointFixed(env, k, index, position, time).value) == SetPointFixed(env, k, index, position, time).value
  {
    var r := SetPointFixed(env, k, index, position, time).value;
    if SpeedMode(k) {
      var n := |k.points|;
      var j := PyList.Slot(n, index);
      var s := Speed(k);
      forall i | 0 <= i < n
        ensures r.times[i] == Segment(env, r.points, s, i)
      {
        if i != j && i != Prev(n, j) {
          assert Next(n, i) != j;
          assert k.times[i] == Segment(env, k.points, s, i);
        }
      }
      RefreshFixpoint(env, r);
    }
  }

  /** The corrected `remove_position_point` keeps one time per point, each
      the refreshed one. */
  lemma RemovePointFixedConsistent(env: Env, k: Kinematics, index: int)
    requires Consistent(env, k) && PyList.InRange(|k.points|, index)
    ensures RemovePointFixed(env, k, index).Ok?
    ensures Consistent(env, RemovePointFixed(env, k, index).value.1)
  {
  }

  // ---------------------------------------------------------------------
  // Any sequence of corrected operations

  /** A call on the kinematics interface. */
  datatype Mutation =
    | SpeedTo(value: real)
    | PointsTo(points: seq<Vector3>)
    | Add(position: Vector3, time: real)
    | AddAll(items: seq<PointArg>)
    | SetAt(index: int, position: Vector3, time: real)
    | RemoveAt(index: int)
    | ClearAll

  /** What one call leaves, with the corrected `set` and `remove`. Only
      `add_position_points` can raise after changing the state; every other
      raise leaves the state as it was. */
  function Apply(env: Env, k: Kinematics, m: Mutation): (r: Outcome)
    requires Wellformed(k)
    ensures r.error != Some(ZeroDivisionError) ==> Wellformed(r.state)
    ensures r.error.Some? && r.error.value != ZeroDivisionError ==> r.state == k
    ensures r.error == Some(ZeroDivisionError) ==> m.AddAll?
  {
    match m
    case SpeedTo(v) => Outcome(SetSpeed(env, k, v), None)
    case PointsTo(ps) => Outcome(SetPointsDeprecated(env, k, ps), None)
    case Add(p, t) => Outcome(AddPoint(env, k, p, t), None)
    case AddAll(items) => AddPoints(env, k, items)
    case SetAt(i, p, t) => Leaves(k, SetPointFixed(env, k, i, p, t))
    case RemoveAt(i) =>
      (match RemovePointFixed(env, k, i)
       case Ok(r) => Outcome(r.1, None)
       case Raise(e) => Outcome(k, Some(e)))
    case ClearAll => Outcome(Clear(k), None)
  }

  /** What a sequence of calls leaves: the calls run in order, and the
      first one that raises ends the run with its exception. */
  function ApplyAll(env: Env, k: Kinematics, ms: seq<Mutation>): (r: Outcome)
    requires Wellformed(k)
    ensures r.error != Some(ZeroDivisionError) ==> Wellformed(r.state)
    decreases |ms|
  {
    if ms == [] then Outcome(k, None)
    else
      var o := Apply(env, k, ms[0]);
      if o.error.Some? then o else ApplyAll(env, o.state, ms[1..])
  }

  /** One corrected call keeps one time per point, each the refreshed one,
      unless it is `add_position_points` raising `ZeroDivisionError`. */
  lemma ApplyConsistent(env: Env, k: Kinematics, m: Mutation)
    requires ZeroLength(env) && Consistent(env, k)
    ensures Apply(env, k, m).error != Some(ZeroDivisionError) ==> Consistent(env, Apply(env, k, m).state)
  {
    match m
    case SpeedTo(v) =>
    case PointsTo(ps) =>
    case Add(p, t) => AddPointRefreshes(env, k, p, t);
    case AddAll(items) =>
      if items != [] && items[|items| - 1].Bare? && SpeedMode(k) {
        AddPointsRefreshes(env, k, items);
      }
    case SetAt(i, p, t) =>
      if PyList.InRange(|k.points|, i) {
        SetPointFixedRefreshes(env, k, i, p, t);
      }
    case RemoveAt(i) =>
      if PyList.InRange(|k.points|, i) {
        RemovePointFixedConsistent(env, k, i);
      }
    case ClearAll =>
  }

  /** From a fresh object, any sequence of calls with the corrected `set`
      and `remove` keeps the documented promise, exactly one time per point
      and in constant-speed mode every time the refreshed one, whether the
      run ends normally or by an exception, unless that exception is the
      `ZeroDivisionError` of `add_position_points`. */
  lemma {:induction false} AlwaysConsistent(env: Env, k: Kinematics, ms: seq<Mutation>)
    requires ZeroLength(env) && Consistent(env, k)
    ensures ApplyAll(env, k, ms).error != Some(ZeroDivisionError) ==> Consistent(env, ApplyAll(env, k, ms).state)
    decreases |ms|
  {
    if ms != [] {
      ApplyConsistent(env, k, ms[0]);
      var o := Apply(env, k, ms[0]);
      if o.error.None? {
        AlwaysConsistent(env, o.state, ms[1..]);
      }
    }
  }

  /** That exception does break the promise: a bare point before a timed
      one, without a speed, leaves two points and one time behind. */
  lemma RaiseBreaksConsistency(env: Env, p: Vector3, q: Vector3)
    ensures Consistent(env, Kinematics([p], [0.0], None))
    ensures ApplyAll(env, Kinematics([p], [0.0], None), [AddAll([Bare(q), Timed(p, 1.0)])])
      == Outcome(Kinematics([p, q], [0.0], None), Some(ZeroDivisionError))
    ensures !Consistent(env, Kinematics([p, q], [0.0], None))
  {
    OnlyLastChecked(env, p, q);
  }

  /** A fresh object satisfies the promise. */
  lemma InitialConsistent(env: Env)
    ensures Consistent(env, Initial) && Initial.speed.None? && !SpeedMode(Initial)
  {
  }
}
