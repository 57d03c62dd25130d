/**
 * The platform and Foundation values the messages are built from, and the abstract
 * structured value that stands for the JSON a payload is encoded to.
 */
module Values {
  import opened Wrappers

  /** A 128-bit UUID; only compared for equality. */
  datatype Uuid = Uuid(bits: bv128)

  /** A 32-bit IEEE float, kept as its bit pattern: no arithmetic is modelled. */
  datatype Float = Float(bits: bv32)

  /** Swift's `Int` on a 64-bit platform. */
  newtype Int64 = x: int | -0x8000_0000_0000_0000 <= x < 0x8000_0000_0000_0000

  /** A session participant, identified by its UUID. */
  datatype Participant = Participant(id: Uuid)

  /**
   * A structured value as the JSON coders see it: strings, unbounded numbers, booleans,
   * floats, UUIDs, lists and keyed objects.
   */
  datatype Value =
    | Str(s: string)
    | Int(i: int)
    | Bool(b: bool)
    | Num(f: Float)
    | UuidValue(u: Uuid)
    | List(items: seq<Value>)
    | Object(fields: map<string, Value>)

  /** Why decoding an envelope or a payload failed. */
  datatype DecodeError =
    | InvalidTag(tag: string)             // the `type` field is not one of the six tags
    | MissingCustomType                   // a custom envelope without its identifier
    | UnknownCustomType(identifier: string)
    | NotAnObject                          // a payload that is not a keyed container
    | KeyNotFound(key: string)
    | TypeMismatch(key: string)
    | NumberOutOfRange(key: string)        // a number that does not fit in Int64
    | WrongCount(key: string, expected: nat)

  /** Every key of `written` is present in `read` with the same value. */
  predicate AgreesWith(read: map<string, Value>, written: map<string, Value>) {
    forall k :: k in written ==> k in read && read[k] == written[k]
  }

  function GetString(fields: map<string, Value>, key: string): (r: Result<string, DecodeError>)
    ensures r.Ok? <==> key in fields && fields[key].Str?
    ensures r.Ok? ==> fields[key] == Str(r.value)
  {
    if key !in fields then Err(KeyNotFound(key))
    else if fields[key].Str? then Ok(fields[key].s)
    else Err(TypeMismatch(key))
  }

  function GetBool(fields: map<string, Value>, key: string): (r: Result<bool, DecodeError>)
    ensures r.Ok? <==> key in fields && fields[key].Bool?
    ensures r.Ok? ==> fields[key] == Bool(r.value)
  {
    if key !in fields then Err(KeyNotFound(key))
    else if fields[key].Bool? then Ok(fields[key].b)
    else Err(TypeMismatch(key))
  }

  function GetUuid(fields: map<string, Value>, key: string): (r: Result<Uuid, DecodeError>)
    ensures r.Ok? <==> key in fields && fields[key].UuidValue?
    ensures r.Ok? ==> fields[key] == UuidValue(r.value)
  {
    if key !in fields then Err(KeyNotFound(key))
    else if fields[key].UuidValue? then Ok(fields[key].u)
    else Err(TypeMismatch(key))
  }

  /** A number is accepted as an `Int` only when it fits in 64 bits. */
  function GetInt64(fields: map<string, Value>, key: string): (r: Result<Int64, DecodeError>)
    ensures r.Ok? <==> key in fields && fields[key].Int? &&
                       -0x8000_0000_0000_0000 <= fields[key].i < 0x8000_0000_0000_0000
    ensures r.Ok? ==> fields[key] == Int(r.value as int)
  {
    if key !in fields then Err(KeyNotFound(key))
    else if !fields[key].Int? then Err(TypeMismatch(key))
    else if -0x8000_0000_0000_0000 <= fields[key].i < 0x8000_0000_0000_0000 then Ok(fields[key].i as Int64)
    else Err(NumberOutOfRange(key))
  }

  function FloatList(fs: seq<Float>): (v: Value)
    ensures v.List? && |v.items| == |fs|
    ensures forall i :: 0 <= i < |fs| ==> v.items[i] == Num(fs[i])
  {
    List(seq(|fs|, i requires 0 <= i < |fs| => Num(fs[i])))
  }

  /** A `[Float]`: a list every element of which is a float. */
  function GetFloats(fields: map<string, Value>, key: string): (r: Result<seq<Float>, DecodeError>)
    ensures r.Ok? <==> key in fields && fields[key].List? &&
                       forall i :: 0 <= i < |fields[key].items| ==> fields[key].items[i].Num?
    ensures r.Ok? ==> fields[key] == FloatList(r.value)
  {
    if key !in fields then Err(KeyNotFound(key))
    else if !fields[key].List? then Err(TypeMismatch(key))
    else
      var items := fields[key].items;
      if forall i :: 0 <= i < |items| ==> items[i].Num? then
        var fs := seq(|items|, i requires 0 <= i < |items| => items[i].f);
        assert FloatList(fs).items == items;
        Ok(fs)
      else Err(TypeMismatch(key))
  }

  /** A list written by `FloatList` is read back as the same floats. */
  lemma GetFloatsOfList(fields: map<string, Value>, key: string, fs: seq<Float>)
    requires key in fields && fields[key] == FloatList(fs)
    ensures GetFloats(fields, key) == Ok(fs)
  {
    var items := fields[key].items;
    assert forall i :: 0 <= i < |items| ==> items[i].Num? && items[i].f == fs[i];
    assert seq(|items|, i requires 0 <= i < |items| => items[i].f) == fs;
  }
}
