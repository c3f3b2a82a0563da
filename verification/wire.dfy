/** The JSON values the exporter builds (the bopjson wire format), and the
    `{"type": <name>, "value": <payload>}` wrapper every typed value uses.
    Objects keep their keys in insertion order, as Python dictionaries do. */
module Wire {
  import opened Failures

  datatype Json =
    | JNull
    | JBool(b: bool)
    | JInt(i: int)
    | JReal(r: real)
    | JStr(s: string)
    | JList(items: seq<Json>)
    | JObj(fields: seq<(string, Json)>)

  /** `{"type": name, "value": value}` */
  function Typed(name: string, value: Json): Json {
    JObj([("type", JStr(name)), ("value", value)])
  }

  /** Reads a `{"type", "value"}` wrapper back; `None` for anything else. */
  function Untyped(j: Json): Option<(string, Json)> {
    match j
    case JObj(fs) =>
      if |fs| == 2 && fs[0].0 == "type" && fs[0].1.JStr? && fs[1].0 == "value" then
        Some((fs[0].1.s, fs[1].1))
      else
        None
    case _ => None
  }

  /** The payload of a wrapper that carries the expected type name. */
  function Payload(j: Json, name: string): (r: Option<Json>)
    ensures r.Some? ==> j == Typed(name, r.value)
  {
    match Untyped(j)
    case Some(p) => if p.0 == name then Some(p.1) else None
    case None => None
  }

  /** The wrapper is taken apart again into exactly the name and payload it
      was built from, and only wrappers are accepted. */
  lemma TypedRoundTrip(name: string, other: string, value: Json, j: Json)
    ensures Untyped(Typed(name, value)) == Some((name, value))
    ensures Payload(Typed(name, value), name) == Some(value)
    ensures other != name ==> Payload(Typed(name, value), other) == None
    ensures Untyped(j).Some? ==> j == Typed(Untyped(j).value.0, Untyped(j).value.1)
  {
  }

  /** A list of JSON values, one per element, in order. */
  function Encode<T>(xs: seq<T>, enc: T -> Json): (r: seq<Json>)
    ensures |r| == |xs|
    ensures forall i :: 0 <= i < |xs| ==> r[i] == enc(xs[i])
  {
    seq(|xs|, i requires 0 <= i < |xs| => enc(xs[i]))
  }

  /** Decodes every item of a list with `dec`; `None` as soon as one item
      does not decode. */
  function DecodeAll<T>(items: seq<Json>, dec: Json -> Option<T>): (r: Option<seq<T>>)
    ensures r.Some? ==> |r.value| == |items|
    ensures r.Some? ==> forall i :: 0 <= i < |items| ==> dec(items[i]) == Some(r.value[i])
    ensures r.None? ==> exists i :: 0 <= i < |items| && dec(items[i]).None?
  {
    if items == [] then Some([])
    else
      match dec(items[0])
      case None => None
      case Some(x) =>
        match DecodeAll(items[1..], dec)
        case None =>
          assert forall i :: 0 <= i < |items[1..]| ==> items[1..][i] == items[i + 1];
          None
        case Some(rest) => Some([x] + rest)
  }

  /** Decoding a list encoded with `enc` gives back the elements, in order,
      whenever `dec` undoes `enc` on single elements. */
  lemma {:induction false} DecodeAllEncode<T>(xs: seq<T>, enc: T -> Json, dec: Json -> Option<T>)
    requires forall x :: dec(enc(x)) == Some(x)
    ensures DecodeAll(Encode(xs, enc), dec) == Some(xs)
  {
    var items := Encode(xs, enc);
    var r := DecodeAll(items, dec);
    assert r.Some?;
    forall i | 0 <= i < |xs| ensures r.value[i] == xs[i] {
      assert dec(items[i]) == Some(r.value[i]);
      assert dec(enc(xs[i])) == Some(xs[i]);
    }
    assert r.value == xs;
  }
}
