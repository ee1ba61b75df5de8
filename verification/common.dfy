/** Small shared vocabulary: an optional value, and the JSON values that the
    HTTP bodies, the stored documents and the form states are made of. */
module Common {

  datatype Option<+T> = None | Some(value: T) {
    function GetOr(default: T): T {
      match this
      case Some(v) => v
      case None => default
    }
  }

  /** The sequence without its element at index `i`, the others in order. */
  function RemoveAt<T>(s: seq<T>, i: nat): (r: seq<T>)
    requires i < |s|
    ensures |r| == |s| - 1
    ensures forall j :: 0 <= j < i ==> r[j] == s[j]
    ensures forall j :: i <= j < |r| ==> r[j] == s[j + 1]
  {
    s[..i] + s[i + 1..]
  }
}

module Json {
  import opened Common

  /** A MongoDB ObjectId, held as its 24-digit lower-case hexadecimal text. */
  datatype ObjectId = ObjectId(hex: string)

  /** JSON values as they travel between the browser and the server.  JavaScript
      numbers are modelled as integers; `Oid` is an ObjectId as stored by MongoDB. */
  datatype Value =
    | Null
    | Bool(b: bool)
    | Num(n: int)
    | Str(s: string)
    | Arr(items: seq<Value>)
    | Obj(fields: map<string, Value>)
    | Oid(id: ObjectId)

  /** A document: a JSON object, the unit stored in a collection and sent in a body. */
  type Document = map<string, Value>

  /** JavaScript truthiness: `null`, `false`, `0` and `""` are falsy, everything else is truthy
      (an absent key reads as `undefined`, which is falsy too: see `TruthyAt`). */
  predicate Truthy(v: Value) {
    match v
    case Null => false
    case Bool(b) => b
    case Num(n) => n != 0
    case Str(s) => s != ""
    case _ => true
  }

  /** `doc[key]` used as a condition. */
  predicate TruthyAt(doc: Document, key: string) {
    key in doc && Truthy(doc[key])
  }

  predicate IsHexDigit(c: char) {
    '0' <= c <= '9' || 'a' <= c <= 'f' || 'A' <= c <= 'F'
  }

  function LowerHex(c: char): (d: char)
    ensures IsHexDigit(c) ==> IsHexDigit(d) && !('A' <= d <= 'F')
  {
    if 'A' <= c <= 'F' then (c as int - 'A' as int + 'a' as int) as char else c
  }

  function LowerHexString(s: string): (t: string)
    ensures |t| == |s|
    ensures forall i :: 0 <= i < |s| ==> t[i] == LowerHex(s[i])
  {
    if s == [] then [] else [LowerHex(s[0])] + LowerHexString(s[1..])
  }

  /** A well-formed ObjectId: exactly 24 lower-case hexadecimal digits. */
  predicate WellFormedId(id: ObjectId) {
    |id.hex| == 24 && forall i :: 0 <= i < 24 ==> IsHexDigit(id.hex[i]) && !('A' <= id.hex[i] <= 'F')
  }

  /** `new mongoose.Types.ObjectId(text)`: a 24-digit hexadecimal string is accepted
      (upper- and lower-case digits name the same id); anything else throws. */
  function ParseObjectId(text: string): (r: Option<ObjectId>)
    ensures r.Some? <==> |text| == 24 && forall i :: 0 <= i < |text| ==> IsHexDigit(text[i])
    ensures r.Some? ==> WellFormedId(r.value)
    ensures r.Some? ==> forall i :: 0 <= i < 24 ==> r.value.hex[i] == LowerHex(text[i])
  {
    if |text| == 24 && forall i :: 0 <= i < |text| ==> IsHexDigit(text[i])
    then Some(ObjectId(LowerHexString(text)))
    else None
  }

  /** Printing a well-formed id and parsing it back gives the same id. */
  lemma ParsePrinted(id: ObjectId)
    requires WellFormedId(id)
    ensures ParseObjectId(id.hex) == Some(id)
  {
    var t := LowerHexString(id.hex);
    assert forall i :: 0 <= i < 24 ==> t[i] == id.hex[i];
    assert t == id.hex;
  }
}
