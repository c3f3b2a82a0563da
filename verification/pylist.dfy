/** The Python `list` operations the typed arrays and the kinematics state are
    built on: indexing that accepts negative indices, item assignment, `pop`,
    `remove` and `index`. Every typed array of the source wraps a plain list
    and forwards to exactly these operations. */
module PyList {
  import opened Failures

  /** Python accepts index `i` into a list of length `n` when `-n <= i < n`;
      a negative index counts back from the end. */
  predicate InRange(n: nat, i: int) {
    -(n as int) <= i < n
  }

  /** The position an accepted index refers to. */
  function Slot(n: nat, i: int): (k: nat)
    requires InRange(n, i)
    ensures k < n
    ensures 0 <= i ==> k == i
    ensures i < 0 ==> k + (-i) == n
  {
    if i < 0 then n + i else i
  }

  /** `s[i]` */
  function Get<T>(s: seq<T>, i: int): (r: Result<T>)
    ensures r.Ok? <==> InRange(|s|, i)
    ensures r.Ok? ==> r.value == s[Slot(|s|, i)]
    ensures r.Raise? ==> r.error == IndexError
  {
    if InRange(|s|, i) then Ok(s[Slot(|s|, i)]) else Raise(IndexError)
  }

  /** `s[i] = v`: only the addressed element changes. */
  function Set<T>(s: seq<T>, i: int, v: T): (r: Result<seq<T>>)
    ensures r.Ok? <==> InRange(|s|, i)
    ensures r.Raise? ==> r.error == IndexError
    ensures r.Ok? ==> |r.value| == |s| && r.value[Slot(|s|, i)] == v
    ensures r.Ok? ==> forall j :: 0 <= j < |s| && j != Slot(|s|, i) ==> r.value[j] == s[j]
  {
    if InRange(|s|, i) then Ok(s[Slot(|s|, i) := v]) else Raise(IndexError)
  }

  /** `s.pop(i)`: returns the addressed element and the list with the later
      elements shifted down by one. */
  function Pop<T>(s: seq<T>, i: int): (r: Result<(T, seq<T>)>)
    ensures r.Ok? <==> InRange(|s|, i)
    ensures r.Raise? ==> r.error == IndexError
    ensures r.Ok? ==> r.value.0 == s[Slot(|s|, i)] && |r.value.1| + 1 == |s|
    ensures r.Ok? ==> forall j :: 0 <= j < Slot(|s|, i) ==> r.value.1[j] == s[j]
    ensures r.Ok? ==> forall j :: Slot(|s|, i) <= j < |r.value.1| ==> r.value.1[j] == s[j + 1]
  {
    if InRange(|s|, i) then
      var k := Slot(|s|, i);
      Ok((s[k], s[..k] + s[k + 1..]))
    else
      Raise(IndexError)
  }

  /** `s.index(x)`: the position of the first occurrence, `ValueError` when
      there is none. */
  function Index<T(==)>(s: seq<T>, x: T): (r: Result<nat>)
    ensures r.Raise? <==> x !in s
    ensures r.Raise? ==> r.error == ValueError
    ensures r.Ok? ==> r.value < |s| && s[r.value] == x
    ensures r.Ok? ==> forall j :: 0 <= j < r.value ==> s[j] != x
  {
    if s == [] then Raise(ValueError)
    else if s[0] == x then Ok(0)
    else
      var k :- Index(s[1..], x);
      Ok(k + 1)
  }

  /** `s.remove(x)`: drops the first occurrence, `ValueError` when there is
      none. */
  function RemoveFirst<T(==)>(s: seq<T>, x: T): (r: Result<seq<T>>)
    ensures r.Raise? <==> x !in s
    ensures r.Raise? ==> r.error == ValueError
    ensures r.Ok? ==> multiset(r.value) + multiset{x} == multiset(s)
  {
    if s == [] then Raise(ValueError)
    else if s[0] == x then
      assert s == [s[0]] + s[1..];
      Ok(s[1..])
    else
      var rest :- RemoveFirst(s[1..], x);
      assert s == [s[0]] + s[1..];
      Ok([s[0]] + rest)
  }

  /** True when no element occurs twice. */
  predicate Distinct<T(==)>(s: seq<T>) {
    forall i, j :: 0 <= i < j < |s| ==> s[i] != s[j]
  }

  /** The list with every occurrence of `x` left out, order kept. */
  function Without<T(==)>(s: seq<T>, x: T): (r: seq<T>)
    ensures |r| <= |s|
  {
    if s == [] then []
    else if s[0] == x then Without(s[1..], x)
    else [s[0]] + Without(s[1..], x)
  }

  /** In a list without duplicates, `remove` of a present element is the
      same as dropping every occurrence of it. */
  lemma {:induction false} RemoveFirstOfDistinct<T>(s: seq<T>, x: T)
    requires Distinct(s) && x in s
    ensures RemoveFirst(s, x) == Ok(Without(s, x))
  {
    if s[0] == x {
      assert x !in s[1..] by {
        forall j | 1 <= j < |s| ensures s[j] != x { }
      }
      WithoutAbsent(s[1..], x);
    } else {
      assert Distinct(s[1..]) by {
        forall i, j | 0 <= i < j < |s[1..]| ensures s[1..][i] != s[1..][j] {
          assert s[1..][i] == s[i + 1] && s[1..][j] == s[j + 1];
        }
      }
      assert x in s[1..] by {
        var k :| 0 <= k < |s| && s[k] == x;
        assert s[1..][k - 1] == x;
      }
      RemoveFirstOfDistinct(s[1..], x);
    }
  }

  /** Leaving out an absent element changes nothing. */
  lemma {:induction false} WithoutAbsent<T>(s: seq<T>, x: T)
    requires x !in s
    ensures Without(s, x) == s
  {
    if s != [] {
      assert x !in s[1..];
      WithoutAbsent(s[1..], x);
      assert s == [s[0]] + s[1..];
    }
  }

  /** The tail of a list without duplicates has none either and does not
      hold the head. */
  lemma DistinctTail<T>(s: seq<T>)
    requires Distinct(s) && s != []
    ensures Distinct(s[1..]) && s[0] !in s[1..]
  {
    var t := s[1..];
    forall i, j | 0 <= i < j < |t| ensures t[i] != t[j] {
      assert t[i] == s[i + 1] && t[j] == s[j + 1];
    }
    forall j | 0 <= j < |t| ensures t[j] != s[0] {
      assert t[j] == s[j + 1];
    }
  }

  /** Putting a new element in front keeps a list free of duplicates. */
  lemma DistinctCons<T>(a: T, w: seq<T>)
    requires Distinct(w) && a !in w
    ensures Distinct([a] + w)
  {
    var t := [a] + w;
    forall i, j | 0 <= i < j < |t| ensures t[i] != t[j] {
      assert t[j] == w[j - 1];
      if i > 0 {
        assert t[i] == w[i - 1];
      }
    }
  }

  /** Appending a new element keeps a list free of duplicates. */
  lemma DistinctAppend<T>(s: seq<T>, x: T)
    requires Distinct(s) && x !in s
    ensures Distinct(s + [x])
  {
    var t := s + [x];
    forall i, j | 0 <= i < j < |t| ensures t[i] != t[j] {
      assert t[i] == s[i];
      if j < |s| {
        assert t[j] == s[j];
      }
    }
  }

  /** Leaving an element out keeps a list free of duplicates, and what is
      left is exactly the other elements. */
  lemma {:induction false} WithoutDistinct<T>(s: seq<T>, x: T)
    requires Distinct(s)
    ensures Distinct(Without(s, x))
    ensures forall u :: u in Without(s, x) <==> u in s && u != x
  {
    if s != [] {
      DistinctTail(s);
      WithoutDistinct(s[1..], x);
      if s[0] != x {
        DistinctCons(s[0], Without(s[1..], x));
      }
    }
  }

  /** Dropping the element at position `i` of a list without duplicates
      closes the gap: the elements before it keep their positions and every
      later one moves down by one. */
  lemma WithoutShifts<T>(s: seq<T>, i: nat)
    requires Distinct(s) && i < |s|
    ensures Without(s, s[i]) == s[..i] + s[i + 1..]
  {
    var x, p, q := s[i], s[..i], s[i + 1..];
    OnlyOnce(s, i);
    WithoutMiddle(p, x, q);
    assert s[i..] == [x] + q;
    assert s == p + s[i..];
  }

  /** In a list without duplicates an element occurs neither before nor
      after its own position. */
  lemma OnlyOnce<T>(s: seq<T>, i: nat)
    requires Distinct(s) && i < |s|
    ensures s[i] !in s[..i] && s[i] !in s[i + 1..]
  {
    var p, q := s[..i], s[i + 1..];
    forall j | 0 <= j < |p| ensures p[j] != s[i] {
      assert p[j] == s[j];
    }
    forall j | 0 <= j < |q| ensures q[j] != s[i] {
      assert q[j] == s[i + 1 + j];
    }
  }

  /** Leaving out an element that occurs once, between two lists without
      it, joins the two lists. */
  lemma WithoutMiddle<T>(p: seq<T>, x: T, q: seq<T>)
    requires x !in p && x !in q
    ensures Without(p + ([x] + q), x) == p + q
  {
    WithoutConcat(p, [x] + q, x);
    WithoutAbsent(p, x);
    assert Without([x] + q, x) == Without(q, x) by {
      assert ([x] + q)[1..] == q;
    }
    WithoutAbsent(q, x);
  }

  /** Leaving out an element distributes over concatenation. */
  lemma {:induction false} WithoutConcat<T>(a: seq<T>, b: seq<T>, x: T)
    ensures Without(a + b, x) == Without(a, x) + Without(b, x)
  {
    if a != [] {
      WithoutConcat(a[1..], b, x);
      assert (a + b)[1..] == a[1..] + b;
    } else {
      assert a + b == b;
    }
  }

  /** Leaving out an element appended to a list where it was absent gives
      back the list. */
  lemma {:induction false} AppendWithout<T>(s: seq<T>, x: T)
    requires x !in s
    ensures Without(s + [x], x) == s
  {
    if s == [] {
      assert [x][1..] == [];
    } else {
      AppendWithout(s[1..], x);
      assert (s + [x])[1..] == s[1..] + [x];
      assert s == [s[0]] + s[1..];
    }
  }

  /** A list without duplicates has as many elements as its set. */
  lemma {:induction false} DistinctCard<T>(s: seq<T>)
    requires Distinct(s)
    ensures |set u | u in s| == |s|
  {
    if s != [] {
      DistinctTail(s);
      DistinctCard(s[1..]);
      assert (set u | u in s) == (set u | u in s[1..]) + {s[0]} by {
        assert s == [s[0]] + s[1..];
      }
    }
  }
}
