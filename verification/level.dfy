/** `Bopimo_Level`: the objects of a level keyed by their uid, kept in
    insertion order as a Python dictionary is, and the uids of the
    completion stars in the order they were added. A star's position in
    that list is its star id. Adding an object draws a fresh random uid in
    [1, 2^32) and runs the sanity check (the version gate and, for a portal,
    the check that every destination is a portal of the level) before
    storing anything. */
module Level {
  import opened Failures
  import opened Version
  import PyList

  type Uid = int

  /** `random.randrange(1, 2**32)` draws from [1, UidLimit). */
  const UidLimit: int := 0x1_0000_0000

  predicate ValidUid(u: Uid) {
    1 <= u < UidLimit
  }

  /** What the level needs to know about an object: whether it is a
      completion star, a portal (with the uids of its destinations), or any
      other object class (with its `MIN_VERSION`). */
  datatype Block =
    | CompletionStar
    | Portal(destinations: seq<Uid>)
    | Other(minVersion: GameVersion)

  /** `MIN_VERSION` of the object's class: stars and portals inherit the
      base class's 1.0.14. */
  function MinVersion(b: Block): (v: GameVersion)
    ensures !b.Other? ==> v == ObjectMinVersion
  {
    match b
    case Other(m) => m
    case _ => ObjectMinVersion
  }

  datatype Level = Level(version: GameVersion, blocks: map<Uid, Block>, order: seq<Uid>, stars: seq<Uid>)

  /** The iteration order lists every key exactly once. */
  predicate OrderMatches(l: Level) {
    PyList.Distinct(l.order)
    && (forall u :: u in l.order ==> u in l.blocks)
    && (forall u :: u in l.blocks ==> u in l.order)
  }

  /** The state every public operation keeps: uids in range, the order
      lists the keys, and the star list holds each star of the level
      exactly once. */
  predicate Valid(l: Level) {
    OrderMatches(l)
    && (forall u :: u in l.blocks ==> ValidUid(u))
    && PyList.Distinct(l.stars)
    && (forall u :: u in l.stars ==> u in l.blocks && l.blocks[u].CompletionStar?)
    && (forall u :: u in l.blocks && l.blocks[u].CompletionStar? ==> u in l.stars)
  }

  /** `Bopimo_Level()`: no objects, and the version read from the module
      constant `GAME_VERSION`, which `version` stands for (the two copies of
      the module set it differently, see `DefaultLevelsConstruct`). The
      constructor asserts that version is at least 1.0.14. */
  function NewLevel(version: GameVersion): (r: Result<Level>)
    ensures r.Ok? <==> AtLeast(version, ObjectMinVersion)
    ensures r.Raise? ==> r.error == AssertionError
    ensures r.Ok? ==> Valid(r.value) && r.value.blocks == map[] && r.value.version == version
  {
    if !AtLeast(version, ObjectMinVersion) then Raise(AssertionError)
    else Ok(Level(version, map[], [], []))
  }

  /** Both snapshots' default versions pass the constructor's assertion. */
  lemma DefaultLevelsConstruct()
    ensures NewLevel(PackageGameVersion).Ok? && NewLevel(RootGameVersion).Ok?
  {
  }

  /** The `star_amount` property. */
  function StarAmount(l: Level): (n: nat)
    ensures Valid(l) ==> n == |set u | u in l.blocks && l.blocks[u].CompletionStar?|
  {
    if Valid(l) then StarsCounted(l); |l.stars| else |l.stars|
  }

  /** The star list of a valid level counts its stars. */
  lemma StarsCounted(l: Level)
    requires Valid(l)
    ensures |l.stars| == |set u | u in l.blocks && l.blocks[u].CompletionStar?|
  {
    PyList.DistinctCard(l.stars);
    var a := set u | u in l.stars;
    var b := set u | u in l.blocks && l.blocks[u].CompletionStar?;
    forall u | u in a ensures u in b {
      assert u in l.stars;
    }
    forall u | u in b ensures u in a {
      assert u in l.blocks && l.blocks[u].CompletionStar?;
    }
    assert a == b;
  }

  /** The destination loop of the sanity check: the first destination
      that is not a key raises `KeyError`, the first that is not a portal
      raises `TypeError`. */
  function CheckDestinations(blocks: map<Uid, Block>, dests: seq<Uid>): (r: Result<Unit>)
    ensures r.Ok? <==> forall i :: 0 <= i < |dests| ==> dests[i] in blocks && blocks[dests[i]].Portal?
    ensures r.Raise? ==> r.error == KeyError || r.error == TypeError
    ensures (exists i :: 0 <= i < |dests| && dests[i] !in blocks) && (forall i :: 0 <= i < |dests| && dests[i] in blocks ==> blocks[dests[i]].Portal?)
      ==> r == Raise(KeyError)
  {
    if dests == [] then Ok(Unit)
    else
      var d := dests[0];
      assert forall i :: 1 <= i < |dests| ==> dests[i] == dests[1..][i - 1];
      if d !in blocks then Raise(KeyError)
      else if !blocks[d].Portal? then Raise(TypeError)
      else CheckDestinations(blocks, dests[1..])
  }

  /** `__block_sanity_check(block)`: the version gate (an `assert`, so
      `AssertionError`), then, for a portal, the destination loop. */
  function SanityCheck(l: Level, b: Block): (r: Result<Unit>)
    ensures r.Ok? <==> (AtLeast(l.version, MinVersion(b))
      && (b.Portal? ==> forall i :: 0 <= i < |b.destinations| ==> b.destinations[i] in l.blocks && l.blocks[b.destinations[i]].Portal?))
    ensures !AtLeast(l.version, MinVersion(b)) ==> r == Raise(AssertionError)
    ensures b.CompletionStar? ==> (r.Ok? <==> AtLeast(l.version, ObjectMinVersion))
  {
    if !AtLeast(l.version, MinVersion(b)) then Raise(AssertionError)
    else if b.Portal? then CheckDestinations(l.blocks, b.destinations)
    else Ok(Unit)
  }

  /** The body of `add_object` after the uid has been drawn: the sanity
      check, then the object is stored under `uid` and, if it is a star,
      `uid` joins the star list. A failed check leaves the level as it
      was. */
  function Insert(l: Level, uid: Uid, b: Block): (r: Result<Level>)
    requires uid !in l.blocks
    ensures r.Ok? <==> SanityCheck(l, b).Ok?
    ensures r.Raise? ==> r.error == SanityCheck(l, b).error
    ensures r.Ok? ==> r.value.version == l.version && r.value.blocks == l.blocks[uid := b]
    ensures r.Ok? ==> r.value.order == l.order + [uid]
    ensures r.Ok? ==> r.value.stars == if b.CompletionStar? then l.stars + [uid] else l.stars
  {
    var _ :- SanityCheck(l, b);
    var stars := if b.CompletionStar? then l.stars + [uid] else l.stars;
    Ok(Level(l.version, l.blocks[uid := b], l.order + [uid], stars))
  }

  /** There is a free uid as long as fewer than 2^32 - 1 uids are taken. */
  lemma FreshUidExists(blocks: map<Uid, Block>)
    requires |blocks| < UidLimit - 1
    ensures exists u :: ValidUid(u) && u !in blocks
  {
    FreeBelow(blocks.Keys, UidLimit);
  }

  /** Fewer than `hi - 1` keys cannot cover [1, hi). */
  lemma FreeBelow(keys: set<Uid>, hi: int)
    requires |keys| < hi - 1
    ensures exists u :: 1 <= u < hi && u !in keys
  {
    var range := Range(1, hi);
    if forall u :: 1 <= u < hi ==> u in keys {
      assert range <= keys;
      SubsetCard(range, keys);
      assert false;
    }
  }

  /** The integers in [lo, hi), hi - lo of them. */
  function Range(lo: int, hi: int): (r: set<int>)
    requires lo <= hi
    ensures |r| == hi - lo
    ensures forall u :: u in r <==> lo <= u < hi
    decreases hi - lo
  {
    if lo == hi then {} else Range(lo, hi - 1) + {hi - 1}
  }

  lemma SubsetCard(a: set<Uid>, b: set<Uid>)
    requires a <= b
    ensures |a| <= |b|
  {
    assert b == a + (b - a);
  }

  /** `add_object(obj)`: draws a uid in [1, 2^32) that is not yet a key
      (the retry loop of the source, as a nondeterministic choice), runs the
      sanity check and stores the object. The source loops for ever once
      every uid is taken, so the level must have room. */
  method AddObject(l: Level, b: Block) returns (r: Result<(Uid, Level)>)
    requires |l.blocks| < UidLimit - 1
    ensures r.Ok? <==> SanityCheck(l, b).Ok?
    ensures r.Raise? ==> r.error == SanityCheck(l, b).error
    ensures r.Ok? ==> ValidUid(r.value.0) && r.value.0 !in l.blocks
    ensures r.Ok? ==> r.value.1.blocks == l.blocks[r.value.0 := b] && |r.value.1.blocks| == |l.blocks| + 1
    ensures r.Ok? ==> r.value.1.stars == if b.CompletionStar? then l.stars + [r.value.0] else l.stars
    ensures r.Ok? ==> r.value.1.version == l.version && r.value.1.order == l.order + [r.value.0]
    ensures r.Ok? ==> r.value.1 == Insert(l, r.value.0, b).value
    ensures r.Ok? && Valid(l) ==> Valid(r.value.1)
  {
    FreshUidExists(l.blocks);
    var uid :| ValidUid(uid) && uid !in l.blocks;
    var inserted := Insert(l, uid, b);
    match inserted {
      case Raise(e) =>
        r := Raise(e);
      case Ok(l1) =>
        InsertKeepsValid(l, uid, b);
        r := Ok((uid, l1));
    }
  }

  /** Storing an object under a fresh valid uid keeps the level valid. */
  lemma InsertKeepsValid(l: Level, uid: Uid, b: Block)
    requires uid !in l.blocks
    ensures Valid(l) && ValidUid(uid) && Insert(l, uid, b).Ok? ==> Valid(Insert(l, uid, b).value)
  {
    if Valid(l) && ValidUid(uid) && Insert(l, uid, b).Ok? {
      var l1 := Insert(l, uid, b).value;
      assert uid !in l.order && uid !in l.stars;
      PyList.DistinctAppend(l.order, uid);
      if b.CompletionStar? {
        PyList.DistinctAppend(l.stars, uid);
      }
    }
  }

  /** Every object of `a` is in `b` under the same uid. */
  predicate Extends(a: map<Uid, Block>, b: map<Uid, Block>) {
    forall u :: u in a ==> u in b && b[u] == a[u]
  }

  /** Object `i` of `objs` is stored under `uids[i]`. */
  predicate StoredUnder(blocks: map<Uid, Block>, uids: seq<Uid>, objs: seq<Block>) {
    |uids| <= |objs| && forall i :: 0 <= i < |uids| ==> uids[i] in blocks && blocks[uids[i]] == objs[i]
  }

  /** One more successful `add_object` keeps both facts of the loop. */
  lemma AddStep(start: map<Uid, Block>, blocks: map<Uid, Block>, uids: seq<Uid>, objs: seq<Block>, uid: Uid)
    requires Extends(start, blocks) && StoredUnder(blocks, uids, objs)
    requires uid !in blocks && |uids| < |objs|
    ensures Extends(start, blocks[uid := objs[|uids|]])
    ensures StoredUnder(blocks[uid := objs[|uids|]], uids + [uid], objs)
  {
    var next := blocks[uid := objs[|uids|]];
    var us := uids + [uid];
    forall i | 0 <= i < |us| ensures us[i] in next && next[us[i]] == objs[i] {
      if i < |uids| {
        assert us[i] == uids[i] && us[i] in blocks;
      }
    }
  }

  /** The uids of the stars among the first `|uids|` objects, in order:
      what the star list gains while `uids` are added. */
  function NewStars(uids: seq<Uid>, objs: seq<Block>): (r: seq<Uid>)
    requires |uids| <= |objs|
    ensures |r| <= |uids|
    decreases |uids|
  {
    if uids == [] then []
    else
      var n := |uids| - 1;
      NewStars(uids[..n], objs) + (if objs[n].CompletionStar? then [uids[n]] else [])
  }

  /** `add_objects(objs)`: `add_object` for each object in turn. An object
      that fails the check stops the loop with the objects before it
      already added; `uids` then lists those objects' uids, and the error
      is the one the failing object's sanity check raised against the level
      as it then stood. */
  method AddObjects(l: Level, objs: seq<Block>) returns (level: Level, uids: seq<Uid>, error: Option<Exception>)
    requires |l.blocks| + |objs| < UidLimit - 1
    ensures |level.blocks| == |l.blocks| + |uids|
    ensures StoredUnder(level.blocks, uids, objs) && Extends(l.blocks, level.blocks)
    ensures error.None? <==> |uids| == |objs|
    ensures error.Some? ==> SanityCheck(level, objs[|uids|]) == Raise(error.value)
    ensures PyList.Distinct(uids) && forall i :: 0 <= i < |uids| ==> ValidUid(uids[i]) && uids[i] !in l.blocks
    ensures forall u :: u in level.blocks <==> u in l.blocks || u in uids
    ensures level.version == l.version && level.order == l.order + uids
    ensures level.stars == l.stars + NewStars(uids, objs)
    ensures Valid(l) ==> Valid(level)
  {
    level, uids, error := l, [], None;
    while |uids| < |objs|
      invariant AddedSoFar(l, level, uids, objs)
      invariant Valid(l) ==> Valid(level)
      decreases |objs| - |uids|
    {
      var r := AddObject(level, objs[|uids|]);
      match r {
        case Raise(e) =>
          return level, uids, Some(e);
        case Ok(added) =>
          AddedOneMore(l, level, uids, objs, added.0, added.1);
          level, uids := added.1, uids + [added.0];
      }
    }
  }

  /** What the loop of `add_objects` keeps: the objects so far are stored
      under new, distinct uids, nothing else is added, and the order and
      star list grew by exactly those uids. */
  ghost predicate AddedSoFar(l: Level, level: Level, uids: seq<Uid>, objs: seq<Block>) {
    |level.blocks| == |l.blocks| + |uids|
    && StoredUnder(level.blocks, uids, objs) && Extends(l.blocks, level.blocks)
    && PyList.Distinct(uids) && (forall i :: 0 <= i < |uids| ==> ValidUid(uids[i]) && uids[i] !in l.blocks)
    && (forall u :: u in level.blocks <==> u in l.blocks || u in uids)
    && level.version == l.version && level.order == l.order + uids
    && level.stars == l.stars + NewStars(uids, objs)
  }

  /** One more successful `add_object` keeps the loop's facts. */
  lemma AddedOneMore(l: Level, level: Level, uids: seq<Uid>, objs: seq<Block>, uid: Uid, next: Level)
    requires AddedSoFar(l, level, uids, objs) && |uids| < |objs|
    requires ValidUid(uid) && uid !in level.blocks
    requires Insert(level, uid, objs[|uids|]).Ok? && next == Insert(level, uid, objs[|uids|]).value
    ensures AddedSoFar(l, next, uids + [uid], objs)
  {
    AddStep(l.blocks, level.blocks, uids, objs, uid);
    assert uid !in uids;
    PyList.DistinctAppend(uids, uid);
    NewStarsStep(uids, objs, uid);
    var us := uids + [uid];
    forall i | 0 <= i < |us| ensures ValidUid(us[i]) && us[i] !in l.blocks {
      if i < |uids| {
        assert us[i] == uids[i];
      }
    }
    assert next.order == l.order + us;
  }

  /** One more uid adds its object's star, if it is one. */
  lemma NewStarsStep(uids: seq<Uid>, objs: seq<Block>, uid: Uid)
    requires |uids| < |objs|
    ensures NewStars(uids + [uid], objs)
      == NewStars(uids, objs) + (if objs[|uids|].CompletionStar? then [uid] else [])
  {
    assert (uids + [uid])[..|uids|] == uids;
  }

  /** `get_object(uid)`: the object, or `None` for an unknown uid. */
  function Get(l: Level, uid: Uid): (r: Option<Block>)
    ensures r.Some? <==> uid in l.blocks
    ensures r.Some? ==> r.value == l.blocks[uid]
  {
    if uid in l.blocks then Some(l.blocks[uid]) else None
  }

  /** `remove_object(uid)`: `KeyError` for an unknown uid; otherwise a star
      is first removed from the star list (`list.remove`, which raises
      `ValueError` if it is missing), then the key is popped and its object
      returned. */
  function Remove(l: Level, uid: Uid): (r: Result<(Block, Level)>)
    ensures uid !in l.blocks ==> r == Raise(KeyError)
    ensures r.Ok? ==> uid in l.blocks && r.value.0 == l.blocks[uid]
    ensures r.Ok? ==> r.value.1.blocks == l.blocks - {uid} && r.value.1.version == l.version
    ensures r.Ok? ==> r.value.1.order == PyList.Without(l.order, uid)
    ensures r.Ok? && !l.blocks[uid].CompletionStar? ==> r.value.1.stars == l.stars
  {
    if uid !in l.blocks then Raise(KeyError)
    else
      var b := l.blocks[uid];
      var stars :- if b.CompletionStar? then PyList.RemoveFirst(l.stars, uid) else Ok(l.stars);
      Ok((b, Level(l.version, l.blocks - {uid}, PyList.Without(l.order, uid), stars)))
  }

  /** In a valid level, removing a present uid succeeds, drops the uid from
      the star list (every later star moves down by one), and keeps the
      level valid. */
  lemma RemoveValid(l: Level, uid: Uid)
    requires Valid(l) && uid in l.blocks
    ensures Remove(l, uid).Ok?
    ensures Remove(l, uid).value.1.stars == PyList.Without(l.stars, uid)
    ensures Valid(Remove(l, uid).value.1)
  {
    if l.blocks[uid].CompletionStar? {
      PyList.RemoveFirstOfDistinct(l.stars, uid);
    } else {
      PyList.WithoutAbsent(l.stars, uid);
    }
    var l1 := Remove(l, uid).value.1;
    PyList.WithoutDistinct(l.order, uid);
    PyList.WithoutDistinct(l.stars, uid);
  }

  /** Storing a fresh object and removing it again gives back the level
      and the object. */
  lemma InsertThenRemove(l: Level, uid: Uid, b: Block)
    requires Valid(l) && uid !in l.blocks && Insert(l, uid, b).Ok?
    ensures Remove(Insert(l, uid, b).value, uid) == Ok((b, l))
  {
    var l1 := Insert(l, uid, b).value;
    assert uid !in l.order && uid !in l.stars;
    PyList.WithoutAbsent(l.order, uid);
    PyList.WithoutAbsent(l.stars, uid);
    PyList.AppendWithout(l.order, uid);
    if b.CompletionStar? {
      PyList.AppendWithout(l.stars, uid);
      assert PyList.RemoveFirst(l1.stars, uid) == Ok(l.stars) by {
        PyList.DistinctAppend(l.stars, uid);
        PyList.RemoveFirstOfDistinct(l1.stars, uid);
      }
    }
    assert l1.blocks - {uid} == l.blocks;
  }

  /** One block of the `level_blocks` list `json()` emits: its uid, the
      object, and for a star its star id. */
  datatype Entry = Entry(uid: Uid, block: Block, starId: Option<nat>)

  /** The block entries of `json()`: every object in insertion order, each
      re-checked by the sanity check first (the first failure raises), and
      each star given its current index in the star list (`list.index`,
      which raises `ValueError` for a missing uid). */
  function Json(l: Level): (r: Result<seq<Entry>>)
    requires OrderMatches(l)
  {
    assert forall u :: u in l.order ==> u in l.blocks;
    JsonFrom(l, l.order)
  }

  /** The entries for the uids `us`, in order. */
  function JsonFrom(l: Level, us: seq<Uid>): (r: Result<seq<Entry>>)
    requires forall i :: 0 <= i < |us| ==> us[i] in l.blocks
    ensures r.Ok? ==> |r.value| == |us|
    ensures r.Ok? ==> forall i :: 0 <= i < |us| ==> r.value[i].uid == us[i] && r.value[i].block == l.blocks[us[i]]
    ensures r.Ok? ==> forall i :: 0 <= i < |us| ==> SanityCheck(l, l.blocks[us[i]]).Ok?
    ensures r.Ok? ==> forall i :: 0 <= i < |us| ==>
      (r.value[i].starId.Some? <==> l.blocks[us[i]].CompletionStar?)
    ensures r.Ok? ==> forall i :: 0 <= i < |us| && r.value[i].starId.Some? ==>
      r.value[i].starId.value < |l.stars| && l.stars[r.value[i].starId.value] == us[i]
    ensures (exists i :: 0 <= i < |us| && SanityCheck(l, l.blocks[us[i]]).Raise?) ==> r.Raise?
  {
    if us == [] then Ok([])
    else
      var u := us[0];
      var b := l.blocks[u];
      assert forall i :: 1 <= i < |us| ==> us[i] == us[1..][i - 1];
      var _ :- SanityCheck(l, b);
      var starId :- if b.CompletionStar? then
          var k :- PyList.Index(l.stars, u); Ok(Some(k))
        else Ok(None);
      var rest :- JsonFrom(l, us[1..]);
      Ok([Entry(u, b, starId)] + rest)
  }

  /** In a valid level whose objects all pass the sanity check, `json()`
      succeeds, and the star ids are exactly the positions in the star
      list: distinct, and numbered 0 .. star_amount - 1. */
  lemma StarIdsAreIndices(l: Level)
    requires Valid(l)
    requires forall u :: u in l.blocks ==> SanityCheck(l, l.blocks[u]).Ok?
    ensures Json(l).Ok?
    ensures forall i :: 0 <= i < |l.order| && Json(l).value[i].starId.Some? ==>
      Json(l).value[i].starId.value < StarAmount(l) && l.stars[Json(l).value[i].starId.value] == l.order[i]
    ensures forall i, j :: 0 <= i < j < |l.order| && Json(l).value[i].starId.Some? && Json(l).value[j].starId.Some? ==>
      Json(l).value[i].starId != Json(l).value[j].starId
  {
    assert forall u :: u in l.order ==> u in l.blocks;
    JsonFromOk(l, l.order);
  }

  /** `json()` succeeds over any list of keys when the level is valid and
      every object passes the sanity check. */
  lemma {:induction false} JsonFromOk(l: Level, us: seq<Uid>)
    requires Valid(l)
    requires forall i :: 0 <= i < |us| ==> us[i] in l.blocks
    requires forall u :: u in l.blocks ==> SanityCheck(l, l.blocks[u]).Ok?
    ensures JsonFrom(l, us).Ok?
  {
    if us != [] {
      assert forall i :: 1 <= i < |us| ==> us[i] == us[1..][i - 1];
      JsonFromOk(l, us[1..]);
    }
  }

  /** Removing a star renumbers the stars after it: in the new level the
      star that had id `j > i` has id `j - 1`, and the earlier ones keep
      theirs. */
  lemma RemoveRenumbersStars(l: Level, i: nat)
    requires Valid(l) && i < |l.stars|
    ensures Remove(l, l.stars[i]).Ok?
    ensures var l1 := Remove(l, l.stars[i]).value.1;
      |l1.stars| + 1 == |l.stars|
      && (forall j :: 0 <= j < i ==> l1.stars[j] == l.stars[j])
      && (forall j :: i < j < |l.stars| ==> l1.stars[j - 1] == l.stars[j])
  {
    RemoveValid(l, l.stars[i]);
    PyList.WithoutShifts(l.stars, i);
    var w := Remove(l, l.stars[i]).value.1.stars;
    forall j | i < j < |l.stars| ensures w[j - 1] == l.stars[j] {
      assert w[j - 1] == l.stars[i + 1..][j - 1 - i];
    }
  }

  /** Removing a portal's destination is not checked by `remove_object`,
      but the sanity check `json()` repeats then fails for that portal, so
      `json()` raises. */
  lemma RemovedDestinationBreaksJson(l: Level, p: Uid, k: nat)
    requires Valid(l) && p in l.blocks && l.blocks[p].Portal?
    requires k < |l.blocks[p].destinations| && l.blocks[p].destinations[k] != p
    ensures Remove(l, l.blocks[p].destinations[k]).Ok? ==>
      var l1 := Remove(l, l.blocks[p].destinations[k]).value.1;
      OrderMatches(l1) && Json(l1).Raise?
  {
    var d := l.blocks[p].destinations[k];
    if Remove(l, d).Ok? {
      RemoveValid(l, d);
      var l1 := Remove(l, d).value.1;
      assert SanityCheck(l1, l1.blocks[p]).Raise?;
      var i :| 0 <= i < |l1.order| && l1.order[i] == p;
      assert forall j :: 0 <= j < |l1.order| ==> l1.order[j] in l1.order;
      assert SanityCheck(l1, l1.blocks[l1.order[i]]).Raise?;
    }
  }

  /** The gate in both snapshots: the root default 1.0.15 admits a rose
      (1.0.15) but not the objects that need 1.1.0, which the package
      default 1.1.0 admits. */
  lemma VersionGateDefaults(blocks: map<Uid, Block>, order: seq<Uid>, stars: seq<Uid>)
    ensures SanityCheck(Level(RootGameVersion, blocks, order, stars), Other(RoseMinVersion)).Ok?
    ensures SanityCheck(Level(RootGameVersion, blocks, order, stars), Other(NewBlocksMinVersion)) == Raise(AssertionError)
    ensures SanityCheck(Level(PackageGameVersion, blocks, order, stars), Other(NewBlocksMinVersion)).Ok?
    ensures SanityCheck(Level(RootGameVersion, blocks, order, stars), CompletionStar).Ok?
  {
  }
}
