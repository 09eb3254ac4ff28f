/** An abstract JSON value and the small decoding vocabulary that Foundation's
    `JSONDecoder` offers to `Decodable` implementations: keyed containers,
    required and optional fields, and the four kinds of `DecodingError`.
    Text parsing, UTF-8 conversion and number formatting are not modelled;
    the model starts from an already-parsed value. */
module Json {
  import opened Wrappers

  /** The range of Swift's `Int` on the 64-bit platforms the library targets. */
  predicate InInt64(i: int) {
    -0x8000_0000_0000_0000 <= i <= 0x7FFF_FFFF_FFFF_FFFF
  }

  type Int64 = i: int | InInt64(i)

  /** JSON numbers appear only as integers: every number in the modelled
      messages is decoded as an `Int`. */
  datatype JValue =
    | JNull
    | JBool(b: bool)
    | JInt(i: int)
    | JString(s: string)
    | JArray(items: seq<JValue>)
    | JObject(fields: map<string, JValue>)

  /** One step of a `codingPath`: an object key or an array position. */
  datatype PathKey = Key(name: string) | Index(index: nat)

  type Path = seq<PathKey>

  /** `DecodingError`, each case carrying the coding path of the offending
      value (for `KeyNotFound`, the path of the object that lacks the key). */
  datatype DecodeError =
    | KeyNotFound(key: string, path: Path)
    | ValueNotFound(path: Path)
    | TypeMismatch(path: Path)
    | DataCorrupted(path: Path)

  type Decoded<T> = Result<T, DecodeError>

  /** The error for a value of the wrong JSON kind: `null` is reported as a
      missing value, anything else as a type mismatch. */
  function WrongKind(v: JValue, path: Path): DecodeError {
    if v.JNull? then ValueNotFound(path) else TypeMismatch(path)
  }

  /** `container(keyedBy:)`. */
  function AsObject(v: JValue, path: Path): Decoded<map<string, JValue>> {
    if v.JObject? then Success(v.fields) else Failure(WrongKind(v, path))
  }

  /** An unkeyed container. */
  function AsArray(v: JValue, path: Path): Decoded<seq<JValue>> {
    if v.JArray? then Success(v.items) else Failure(WrongKind(v, path))
  }

  function AsString(v: JValue, path: Path): Decoded<string> {
    if v.JString? then Success(v.s) else Failure(WrongKind(v, path))
  }

  function AsBool(v: JValue, path: Path): Decoded<bool> {
    if v.JBool? then Success(v.b) else Failure(WrongKind(v, path))
  }

  /** A number that does not fit in `Int` is corrupted data, not a type
      mismatch. */
  function AsInt(v: JValue, path: Path): Decoded<Int64> {
    if !v.JInt? then Failure(WrongKind(v, path))
    else if InInt64(v.i) then Success(v.i)
    else Failure(DataCorrupted(path))
  }

  /** `container.decode(_, forKey:)` before the value is converted. */
  function Field(o: map<string, JValue>, key: string, path: Path): Decoded<JValue> {
    if key in o then Success(o[key]) else Failure(KeyNotFound(key, path))
  }

  function StringField(o: map<string, JValue>, key: string, path: Path): Decoded<string> {
    var v :- Field(o, key, path);
    AsString(v, path + [Key(key)])
  }

  function IntField(o: map<string, JValue>, key: string, path: Path): Decoded<Int64> {
    var v :- Field(o, key, path);
    AsInt(v, path + [Key(key)])
  }

  function BoolField(o: map<string, JValue>, key: string, path: Path): Decoded<bool> {
    var v :- Field(o, key, path);
    AsBool(v, path + [Key(key)])
  }

  /** `decodeIfPresent`: an absent key and an explicit `null` both read as nil. */
  function OptionalField(o: map<string, JValue>, key: string): Option<JValue> {
    if key in o && !o[key].JNull? then Some(o[key]) else None
  }
}
