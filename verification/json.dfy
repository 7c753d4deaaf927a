/**
 * An abstract JSON value and the parts of Go's encoding/json that the
 * tolerant decoders rely on: how a JSON value is stored into a Go string,
 * int, []string or struct, and how an object member selects a struct field.
 *
 * Objects keep their members in wire order, duplicates included, because
 * Go stores every member in turn and a later one overwrites an earlier one.
 * A number keeps its literal text, which is assumed to be a valid JSON
 * number literal.
 */
module Json {
  import opened Results
  import Decimal

  datatype Json =
    | JNull
    | JBool(b: bool)
    | JNumber(literal: string)
    | JString(s: string)
    | JArray(items: seq<Json>)
    | JObject(members: seq<Member>)

  datatype Member = Member(key: string, value: Json)

  datatype DecodeError =
    /** encoding/json's UnmarshalTypeError: the JSON value does not fit the Go type. */
    | TypeMismatch(goType: string, found: Json)
    /** A custom UnmarshalJSON gave up: "failed to unmarshal '<field>': data=<raw>". */
    | Rejected(field: string, data: Json)
    /** The bytes are not JSON text at all. */
    | InvalidJson

  predicate IsScalar(v: Json) {
    v.JBool? || v.JNumber? || v.JString?
  }

  /**
   * Case folding used when matching an object key against a struct field
   * name. Field names are ASCII; the only non-ASCII characters that fold onto
   * ASCII letters are the Kelvin sign (onto K) and the long s (onto S).
   */
  function FoldChar(c: char): char {
    if 'a' <= c <= 'z' then (c as int - 32) as char
    else if c == '\U{212A}' then 'K'
    else if c == '\U{017F}' then 'S'
    else c
  }

  /** True when an object key selects the struct field tagged `name`. */
  predicate KeyMatches(key: string, name: string) {
    |key| == |name| && (|key| == 0 || (FoldChar(key[0]) == FoldChar(name[0]) && KeyMatches(key[1..], name[1..])))
  }

  lemma KeyMatchesItself(name: string)
    ensures KeyMatches(name, name)
  {
  }

  /** The value Go finally stores into field `name`: that of the last member selecting it. */
  function FieldValue(ms: seq<Member>, name: string): Option<Json> {
    if |ms| == 0 then None
    else if KeyMatches(ms[|ms| - 1].key, name) then Some(ms[|ms| - 1].value)
    else FieldValue(ms[..|ms| - 1], name)
  }

  /** The value of the last member whose key is exactly `key` (map decoding does not fold). */
  function LastValue(ms: seq<Member>, key: string): Option<Json> {
    if |ms| == 0 then None
    else if ms[|ms| - 1].key == key then Some(ms[|ms| - 1].value)
    else LastValue(ms[..|ms| - 1], key)
  }

  function MemberKeys(ms: seq<Member>): set<string> {
    set i | 0 <= i < |ms| :: ms[i].key
  }

  /** A JSON value stored into a Go string that already holds `cur`; null leaves it unchanged. */
  function DecodeStringInto(cur: string, v: Json): (r: Result<string, DecodeError>)
    ensures v.JString? ==> r == Ok(v.s)
    ensures v.JNull? ==> r == Ok(cur)
    ensures !v.JString? && !v.JNull? ==> r == Err(TypeMismatch("string", v))
  {
    match v
    case JString(s) => Ok(s)
    case JNull => Ok(cur)
    case _ => Err(TypeMismatch("string", v))
  }

  /**
   * A JSON value stored into a 64-bit Go int that already holds `cur`: only an
   * integer literal in range is accepted; null leaves the int unchanged.
   */
  function DecodeIntInto(cur: int, v: Json): (r: Result<int, DecodeError>)
    ensures r.Ok? && !v.JNull? ==> v.JNumber? && Decimal.ParseInt64(v.literal) == Some(r.value)
    ensures v.JNull? ==> r == Ok(cur)
    ensures v.JNumber? && Decimal.ParseInt64(v.literal).Some? ==> r.Ok?
    ensures r.Err? ==> r.error == TypeMismatch("int", v)
  {
    match v
    case JNull => Ok(cur)
    case JNumber(lit) =>
      (match Decimal.ParseInt64(lit)
       case Some(n) => Ok(n)
       case None => Err(TypeMismatch("int", v)))
    case _ => Err(TypeMismatch("int", v))
  }

  /** Decodes every element in order; the first element that fails decides the error. */
  function DecodeEach<T>(items: seq<Json>, elem: Json -> Result<T, DecodeError>): (r: Result<seq<T>, DecodeError>)
    ensures r.Ok? <==> forall i :: 0 <= i < |items| ==> elem(items[i]).Ok?
    ensures r.Ok? ==> |r.value| == |items| && forall i :: 0 <= i < |items| ==> r.value[i] == elem(items[i]).value
    ensures r.Err? ==> exists i :: 0 <= i < |items| && elem(items[i]) == Err(r.error)
                                   && forall j :: 0 <= j < i ==> elem(items[j]).Ok?
  {
    if |items| == 0 then Ok([])
    else
      match elem(items[0])
      case Err(e) => Err(e)
      case Ok(x) =>
        match DecodeEach(items[1..], elem)
        case Err(e) => assert items[1..][0] == items[1]; Err(e)
        case Ok(xs) => Ok([x] + xs)
  }

  predicate IsStringOrNull(v: Json) {
    v.JString? || v.JNull?
  }

  /** The Go string an element of a []string holds after decoding `v`. */
  function StringOrEmpty(v: Json): string {
    if v.JString? then v.s else ""
  }

  function StringElem(v: Json): Result<string, DecodeError> {
    DecodeStringInto("", v)
  }

  /** A JSON value stored into a fresh Go []string. */
  function DecodeStringList(v: Json): (r: Result<seq<string>, DecodeError>)
    ensures v.JNull? ==> r == Ok([])
    ensures v.JArray? ==> (r.Ok? <==> forall i :: 0 <= i < |v.items| ==> IsStringOrNull(v.items[i]))
    ensures v.JArray? && r.Ok? ==> |r.value| == |v.items|
                                   && forall i :: 0 <= i < |v.items| ==> r.value[i] == StringOrEmpty(v.items[i])
    ensures !v.JNull? && !v.JArray? ==> r == Err(TypeMismatch("[]string", v))
  {
    match v
    case JNull => Ok([])
    case JArray(items) => DecodeEach(items, StringElem)
    case _ => Err(TypeMismatch("[]string", v))
  }

  /** A JSON value stored into a fresh Go []interface{}: any array, whatever it holds. */
  function DecodeAnyList(v: Json): (r: Result<seq<Json>, DecodeError>)
    ensures r.Ok? <==> v.JNull? || v.JArray?
    ensures v.JArray? ==> r == Ok(v.items)
  {
    match v
    case JNull => Ok([])
    case JArray(items) => Ok(items)
    case _ => Err(TypeMismatch("[]interface {}", v))
  }

  /** Stores the members of an object one after another, in wire order. */
  function FoldMembers<X>(cur: X, ms: seq<Member>, apply: (X, Member) -> Result<X, DecodeError>): Result<X, DecodeError>
  {
    if |ms| == 0 then Ok(cur)
    else
      match FoldMembers(cur, ms[..|ms| - 1], apply)
      case Err(e) => Err(e)
      case Ok(x) => apply(x, ms[|ms| - 1])
  }

  /**
   * A JSON value stored into a Go struct that already holds `cur`: null
   * leaves it unchanged, an object stores its members, anything else is a
   * type mismatch.
   */
  function DecodeStructInto<X>(cur: X, v: Json, goType: string, apply: (X, Member) -> Result<X, DecodeError>): (r: Result<X, DecodeError>)
    ensures v.JNull? ==> r == Ok(cur)
    ensures v.JObject? ==> r == FoldMembers(cur, v.members, apply)
    ensures v.JArray? || IsScalar(v) ==> r == Err(TypeMismatch(goType, v))
  {
    match v
    case JNull => Ok(cur)
    case JObject(ms) => FoldMembers(cur, ms, apply)
    case _ => Err(TypeMismatch(goType, v))
  }
}
