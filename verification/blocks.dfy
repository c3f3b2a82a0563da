/** The per-class attribute guards of the object classes: the clamped
    opacities of tilable objects and blocks, the block's nine-step
    `transparency` view of its opacity kept for levels made before Bopimo
    1.1.0, the magma's non-negative damage and the level painting's
    positive level id. Only the guarded attribute of each class is kept;
    the rest of each object is plain data. */
module Blocks {
  import opened Failures
  import Colors
  import PyList

  /** `Bopimo_Tilable_Object`: the pattern opacity, 60 by default. */
  datatype Tilable = Tilable(patternOpacity: int)

  const DefaultTilable: Tilable := Tilable(60)

  /** The `pattern_opacity` setter: `max(0, min(value, 255))`. */
  function SetPatternOpacity(t: Tilable, value: int): (r: Tilable)
    ensures 0 <= r.patternOpacity <= 255
    ensures 0 <= value <= 255 ==> r.patternOpacity == value
    ensures value < 0 ==> r.patternOpacity == 0
    ensures value > 255 ==> r.patternOpacity == 255
  {
    t.(patternOpacity := Colors.Clamp8(value))
  }

  /** `Bopimo_Block`: the opacity, 255 (fully opaque) by default. */
  datatype Block = Block(opacity: int)

  const DefaultBlock: Block := Block(255)

  /** `TRANSPARENCY_LOOKUP`: the opacity of each of the nine transparency
      steps of the attribute Bopimo replaced in 1.1.0. */
  const TransparencyLookup: seq<int> := [0, 31, 63, 95, 127, 159, 191, 223, 255]

  /** The `opacity` setter: `max(0, min(value, 255))`. */
  function SetOpacity(b: Block, value: int): (r: Block)
    ensures 0 <= r.opacity <= 255
    ensures 0 <= value <= 255 ==> r.opacity == value
    ensures value < 0 ==> r.opacity == 0
    ensures value > 255 ==> r.opacity == 255
  {
    b.(opacity := Colors.Clamp8(value))
  }

  /** The `transparency` setter: `ValueError` outside 0..8, otherwise the
      opacity becomes the step's table entry. */
  function SetTransparency(b: Block, value: int): (r: Result<Block>)
    ensures r.Raise? <==> value < 0 || value > 8
    ensures r.Raise? ==> r.error == ValueError
    ensures r.Ok? ==> r.value.opacity == TransparencyLookup[value]
  {
    if value < 0 || value > 8 then Raise(ValueError)
    else Ok(b.(opacity := TransparencyLookup[value]))
  }

  /** The `transparency` getter: the position of the opacity in the table
      (`list.index`), `ValueError` for any opacity that is not one of the
      nine entries. */
  function Transparency(b: Block): (r: Result<nat>)
    ensures r.Raise? <==> b.opacity !in TransparencyLookup
    ensures r.Raise? ==> r.error == ValueError
    ensures r.Ok? ==> r.value <= 8 && TransparencyLookup[r.value] == b.opacity
  {
    PyList.Index(TransparencyLookup, b.opacity)
  }

  /** The table rises strictly, so every opacity occurs at most once. */
  lemma LookupIncreasing()
    ensures forall i, j :: 0 <= i < j < |TransparencyLookup| ==> TransparencyLookup[i] < TransparencyLookup[j]
  {
  }

  /** Setting a transparency step and reading it back gives the step. */
  lemma TransparencyRoundTrip(b: Block, value: int)
    requires 0 <= value <= 8
    ensures SetTransparency(b, value).Ok?
    ensures Transparency(SetTransparency(b, value).value) == Ok(value)
  {
    LookupIncreasing();
    var opacity := TransparencyLookup[value];
    assert opacity in TransparencyLookup;
    var r := Transparency(Block(opacity));
    assert SetTransparency(b, value).value == Block(opacity);
    SameEntrySamePlace(TransparencyLookup, r.value, value);
  }

  /** In a strictly rising list, equal entries sit at the same place. */
  lemma SameEntrySamePlace(s: seq<int>, i: nat, j: nat)
    requires forall a, b :: 0 <= a < b < |s| ==> s[a] < s[b]
    requires i < |s| && j < |s| && s[i] == s[j]
    ensures i == j
  {
  }

  /** Reading the step and setting it back leaves the block as it was. */
  lemma TransparencyRestores(b: Block)
    requires Transparency(b).Ok?
    ensures SetTransparency(b, Transparency(b).value) == Ok(b)
  {
  }

  /** The getter succeeds exactly for the opacities a step produces. */
  lemma TransparencyOnlyOnSteps(b: Block)
    ensures Transparency(b).Ok? <==> exists v :: 0 <= v <= 8 && SetTransparency(b, v) == Ok(b)
  {
    if Transparency(b).Ok? {
      TransparencyRestores(b);
      var v := Transparency(b).value;
      assert 0 <= v <= 8 && SetTransparency(b, v) == Ok(b);
    }
  }

  /** The default block reads as the last step, while the opacity setter
      can produce an opacity the getter rejects. */
  lemma OpacityOffTheSteps(b: Block)
    ensures Transparency(DefaultBlock) == Ok(8)
    ensures Transparency(SetOpacity(b, 100)) == Raise(ValueError)
  {
    LookupIncreasing();
    TransparencyRoundTrip(DefaultBlock, 8);
    assert SetTransparency(DefaultBlock, 8) == Ok(DefaultBlock);
    assert 100 !in TransparencyLookup by {
      forall i | 0 <= i < |TransparencyLookup| ensures TransparencyLookup[i] != 100 {
        if i <= 3 {
          assert TransparencyLookup[i] <= TransparencyLookup[3] < 100;
        } else {
          assert 100 < TransparencyLookup[4] <= TransparencyLookup[i];
        }
      }
    }
  }

  /** `Bopimo_Magma`: the damage dealt on contact. */
  datatype Magma = Magma(damage: real)

  /** The private `__clamp`: `max(0, damage)`. */
  function ClampDamage(m: Magma): (r: Magma)
    ensures r.damage >= 0.0
    ensures m.damage >= 0.0 ==> r == m
    ensures m.damage < 0.0 ==> r.damage == 0.0
  {
    if m.damage > 0.0 then m else Magma(0.0)
  }

  /** `Bopimo_Magma(damage=...)`: the constructor stores the damage and
      clamps it (25 by default). */
  function NewMagma(damage: real): (m: Magma)
    ensures m.damage >= 0.0
    ensures damage >= 0.0 ==> m.damage == damage
  {
    ClampDamage(Magma(damage))
  }

  const DefaultMagma: Magma := NewMagma(25.0)

  /** The `damage_amount` setter: store, then clamp. */
  function SetDamage(m: Magma, value: real): (r: Magma)
    ensures r.damage >= 0.0
    ensures value >= 0.0 ==> r.damage == value
    ensures value < 0.0 ==> r.damage == 0.0
  {
    ClampDamage(m.(damage := value))
  }

  /** The constructor and the setter agree, and clamping again changes
      nothing. */
  lemma DamageGuards(m: Magma, value: real)
    ensures SetDamage(m, value) == NewMagma(value)
    ensures ClampDamage(ClampDamage(m)) == ClampDamage(m)
    ensures DefaultMagma.damage == 25.0
  {
  }

  /** `Bopimo_Level_Painting`: the id of the level it leads to. */
  datatype Painting = Painting(levelId: int)

  /** The constructor stores the id as given (4193 by default); only the
      setter clamps. */
  function NewPainting(levelId: int): (p: Painting)
    ensures p.levelId == levelId
  {
    Painting(levelId)
  }

  /** The `level_id` setter: `max(1, id)`. */
  function SetLevelId(p: Painting, id: int): (r: Painting)
    ensures r.levelId >= 1
    ensures id >= 1 ==> r.levelId == id
    ensures id < 1 ==> r.levelId == 1
  {
    Painting(if id > 1 then id else 1)
  }

  /** A painting built with an id below 1 keeps it, while assigning the
      same id through the setter gives 1. */
  lemma ConstructorSkipsLevelIdClamp(id: int)
    requires id < 1
    ensures NewPainting(id).levelId < 1
    ensures SetLevelId(NewPainting(id), id).levelId == 1
    ensures SetLevelId(SetLevelId(NewPainting(id), id), id) == SetLevelId(NewPainting(id), id)
  {
  }
}
