/** The JSON values that Alamofire's JSON response serializer hands to the Gloss bridge. */
module Json {
  import opened Wrappers

  /** A parsed JSON tree. A JSON object is what Gloss calls `JSON`, a `[String: AnyObject]`. */
  datatype JSON =
    | Null
    | Bool(b: bool)
    | Num(n: int)
    | Str(s: string)
    | Arr(elements: seq<JSON>)
    | Obj(fields: map<string, JSON>)

  /** The conditional cast `value as? JSON`: succeeds exactly on a JSON object. */
  function AsObject(value: JSON): (r: Option<map<string, JSON>>)
    ensures r.Some? <==> value.Obj?
    ensures r.Some? ==> value == Obj(r.value)
  {
    match value
    case Obj(fields) => Some(fields)
    case _ => None
  }

  /** True when every element of `values` is a JSON object. */
  predicate AllObjects(values: seq<JSON>)
  {
    forall i :: 0 <= i < |values| ==> values[i].Obj?
  }

  /** The bridging of an array's elements to `[JSON]`, element by element: it succeeds exactly
      when every element is a JSON object, and then yields those objects in order. */
  function CastObjects(values: seq<JSON>): (r: Option<seq<map<string, JSON>>>)
    ensures r.Some? <==> AllObjects(values)
    ensures r.Some? ==> |r.value| == |values|
    ensures r.Some? ==> forall i :: 0 <= i < |values| ==> values[i] == Obj(r.value[i])
    decreases |values|
  {
    if values == [] then Some([])
    else
      match values[0]
      case Obj(fields) =>
        (match CastObjects(values[1..])
         case Some(rest) => Some([fields] + rest)
         case None => None)
      case _ => None
  }

  /** The conditional cast `value as? [JSON]`: succeeds exactly on an array of JSON objects,
      the empty array included. */
  function AsObjectArray(value: JSON): (r: Option<seq<map<string, JSON>>>)
    ensures r.Some? <==> value.Arr? && AllObjects(value.elements)
    ensures r.Some? ==> |r.value| == |value.elements|
    ensures r.Some? ==> forall i :: 0 <= i < |r.value| ==> value.elements[i] == Obj(r.value[i])
  {
    match value
    case Arr(elements) => CastObjects(elements)
    case _ => None
  }

  /** Casting back and forth: an array built from objects casts to exactly those objects. */
  lemma {:induction false} CastObjectsOfObjects(objects: seq<map<string, JSON>>)
    ensures CastObjects(seq(|objects|, i requires 0 <= i < |objects| => Obj(objects[i]))) == Some(objects)
    decreases |objects|
  {
    var values := seq(|objects|, i requires 0 <= i < |objects| => Obj(objects[i]));
    if objects != [] {
      var tail := seq(|objects[1..]|, i requires 0 <= i < |objects[1..]| => Obj(objects[1..][i]));
      assert values[1..] == tail;
      CastObjectsOfObjects(objects[1..]);
      assert [objects[0]] + objects[1..] == objects;
    }
  }
}
