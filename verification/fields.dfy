/**
 * The tolerant decoders of three product fields that the vendor sends in
 * more than one JSON shape (structs.go: CustomAll, CustomAdd, CustomXtr).
 * Each tries one shape, then a fallback, and otherwise fails quoting the raw
 * value.
 */
module Fields {
  import opened Results
  import opened Json

  /** Stores one member of `struct { ID []string `json:"id"` }`. */
  function ApplyIdMember(cur: seq<string>, m: Member): Result<seq<string>, DecodeError> {
    if KeyMatches(m.key, "id") then DecodeStringList(m.value) else Ok(cur)
  }

  /** Every member that selects the "id" field holds a string array or null. */
  predicate IdMembersDecode(ms: seq<Member>) {
    forall i :: 0 <= i < |ms| && KeyMatches(ms[i].key, "id") ==> DecodeStringList(ms[i].value).Ok?
  }

  /** The "id" list an object yields: that of the last member selecting the field, or empty. */
  function IdListOf(ms: seq<Member>): seq<string>
    requires IdMembersDecode(ms)
  {
    FieldValueFromMatch(ms, "id");
    match FieldValue(ms, "id")
    case None => []
    case Some(v) => DecodeStringList(v).value
  }

  lemma {:induction false} FieldValueFromMatch(ms: seq<Member>, name: string)
    ensures FieldValue(ms, name).Some? ==>
      exists i :: 0 <= i < |ms| && KeyMatches(ms[i].key, name) && FieldValue(ms, name) == Some(ms[i].value)
  {
    if |ms| > 0 && !KeyMatches(ms[|ms| - 1].key, name) {
      FieldValueFromMatch(ms[..|ms| - 1], name);
    }
  }

  /** The fresh `struct { ID []string }` that CustomAll and CustomAdd fall back on. */
  function DecodeIdObject(v: Json): (r: Result<seq<string>, DecodeError>)
    ensures v.JNull? ==> r == Ok([])
    ensures v.JArray? || IsScalar(v) ==> r.Err?
  {
    DecodeStructInto([], v, "struct { ID []string }", ApplyIdMember)
  }

  /** An object decodes exactly when every "id" member is a string list; the last one wins. */
  lemma {:induction false} IdObjectMembers(ms: seq<Member>)
    ensures FoldMembers([], ms, ApplyIdMember).Ok? <==> IdMembersDecode(ms)
    ensures IdMembersDecode(ms) ==> FoldMembers([], ms, ApplyIdMember) == Ok(IdListOf(ms))
  {
    if |ms| > 0 {
      var init := ms[..|ms| - 1];
      var last := ms[|ms| - 1];
      IdObjectMembers(init);
      assert forall i :: 0 <= i < |init| ==> init[i] == ms[i];
      if IdMembersDecode(ms) {
        assert IdMembersDecode(init);
      }
      if FoldMembers([], init, ApplyIdMember).Ok? && ApplyIdMember(FoldMembers([], init, ApplyIdMember).value, last).Ok? {
        assert IdMembersDecode(ms) by {
          forall i | 0 <= i < |ms| && KeyMatches(ms[i].key, "id")
            ensures DecodeStringList(ms[i].value).Ok?
          {
            if i < |init| {
              assert init[i] == ms[i];
            }
          }
        }
      }
    }
  }

  lemma IdObjectDecodes(ms: seq<Member>)
    ensures DecodeIdObject(JObject(ms)).Ok? <==> IdMembersDecode(ms)
    ensures IdMembersDecode(ms) ==> DecodeIdObject(JObject(ms)) == Ok(IdListOf(ms))
  {
    IdObjectMembers(ms);
  }

  lemma IdObjectShape(v: Json)
    ensures v.JObject? ==> (DecodeIdObject(v).Ok? <==> IdMembersDecode(v.members))
    ensures v.JObject? && IdMembersDecode(v.members) ==> DecodeIdObject(v) == Ok(IdListOf(v.members))
  {
    if v.JObject? {
      IdObjectDecodes(v.members);
    }
  }

  /**
   * CustomAll.UnmarshalJSON: a string array first, then an object with an
   * "id" string array, otherwise fail quoting the raw value.
   */
  function DecodeAll(v: Json): (r: Result<seq<string>, DecodeError>)
    ensures v.JNull? ==> r == Ok([])
    ensures v.JArray? ==> (r.Ok? <==> forall i :: 0 <= i < |v.items| ==> IsStringOrNull(v.items[i]))
    ensures v.JArray? && r.Ok? ==> |r.value| == |v.items|
                                   && forall i :: 0 <= i < |v.items| ==> r.value[i] == StringOrEmpty(v.items[i])
    ensures v.JObject? ==> (r.Ok? <==> IdMembersDecode(v.members))
    ensures v.JObject? && r.Ok? ==> r.value == IdListOf(v.members)
    ensures IsScalar(v) ==> r == Err(Rejected("all", v))
    ensures r.Err? ==> r.error == Rejected("all", v)
  {
    IdObjectShape(v);
    match DecodeStringList(v)
    case Ok(strings) => Ok(strings)
    case Err(_) =>
      match DecodeIdObject(v)
      case Ok(ids) => Ok(ids)
      case Err(_) => Err(Rejected("all", v))
  }

  /**
   * CustomAdd.UnmarshalJSON: the reverse priority of CustomAll. An object with
   * an "id" string array first, then any string array (not only an empty
   * one), otherwise fail quoting the raw value.
   */
  function DecodeAdd(v: Json): (r: Result<seq<string>, DecodeError>)
    ensures v.JNull? ==> r == Ok([])
    ensures v.JObject? ==> (r.Ok? <==> IdMembersDecode(v.members))
    ensures v.JObject? && r.Ok? ==> r.value == IdListOf(v.members)
    ensures v.JArray? ==> (r.Ok? <==> forall i :: 0 <= i < |v.items| ==> IsStringOrNull(v.items[i]))
    ensures v.JArray? && r.Ok? ==> |r.value| == |v.items|
                                   && forall i :: 0 <= i < |v.items| ==> r.value[i] == StringOrEmpty(v.items[i])
    ensures IsScalar(v) ==> r == Err(Rejected("add", v))
    ensures r.Err? ==> r.error == Rejected("add", v)
  {
    IdObjectShape(v);
    match DecodeIdObject(v)
    case Ok(ids) => Ok(ids)
    case Err(_) =>
      match DecodeStringList(v)
      case Ok(strings) => Ok(strings)
      case Err(_) => Err(Rejected("add", v))
  }

  /**
   * No JSON value decodes both as a string array and as an object, so the
   * reversed priority of CustomAdd is unobservable: both decoders accept the
   * same values and produce the same list.
   */
  lemma AddAgreesWithAll(v: Json)
    ensures DecodeAdd(v).Ok? <==> DecodeAll(v).Ok?
    ensures DecodeAdd(v).Ok? ==> DecodeAdd(v).value == DecodeAll(v).value
  {
    if v.JArray? && DecodeAll(v).Ok? {
      assert DecodeAdd(v).value == DecodeAll(v).value;
    }
  }

  /** Stores one member of a map[string]string: the key verbatim, the value as a string. */
  function ApplyMapMember(cur: map<string, string>, m: Member): Result<map<string, string>, DecodeError> {
    match DecodeStringInto("", m.value)
    case Err(e) => Err(e)
    case Ok(s) => Ok(cur[m.key := s])
  }

  predicate AllStringValued(ms: seq<Member>) {
    forall i :: 0 <= i < |ms| ==> IsStringOrNull(ms[i].value)
  }

  /** The map an object of strings denotes: each key bound to its last value. */
  predicate DenotesMembers(m: map<string, string>, ms: seq<Member>) {
    && m.Keys == MemberKeys(ms)
    && forall k :: k in m ==> LastValue(ms, k).Some? && m[k] == StringOrEmpty(LastValue(ms, k).value)
  }

  lemma {:induction false} StringMapMembers(ms: seq<Member>)
    ensures FoldMembers(map[], ms, ApplyMapMember).Ok? <==> AllStringValued(ms)
    ensures AllStringValued(ms) ==> DenotesMembers(FoldMembers(map[], ms, ApplyMapMember).value, ms)
  {
    if |ms| > 0 {
      var init := ms[..|ms| - 1];
      var last := ms[|ms| - 1];
      StringMapMembers(init);
      assert forall i :: 0 <= i < |init| ==> init[i] == ms[i];
      if AllStringValued(ms) {
        assert AllStringValued(init);
        var m := FoldMembers(map[], init, ApplyMapMember).value;
        var m' := FoldMembers(map[], ms, ApplyMapMember).value;
        assert m' == m[last.key := StringOrEmpty(last.value)];
        assert MemberKeys(ms) == MemberKeys(init) + {last.key} by {
          forall k | k in MemberKeys(ms) ensures k in MemberKeys(init) + {last.key} {
            var i :| 0 <= i < |ms| && ms[i].key == k;
            if i < |init| { assert init[i] == ms[i]; }
          }
          forall k | k in MemberKeys(init) ensures k in MemberKeys(ms) {
            var i :| 0 <= i < |init| && init[i].key == k;
            assert ms[i] == init[i];
          }
          assert ms[|ms| - 1].key == last.key;
        }
      }
    }
  }

  /** A JSON value stored into a fresh Go map[string]string. */
  function DecodeStringMap(v: Json): (r: Result<map<string, string>, DecodeError>)
    ensures v.JNull? ==> r == Ok(map[])
    ensures v.JObject? ==> (r.Ok? <==> AllStringValued(v.members))
    ensures v.JObject? && r.Ok? ==> DenotesMembers(r.value, v.members)
    ensures v.JArray? || IsScalar(v) ==> r.Err?
  {
    match v
    case JNull => Ok(map[])
    case JObject(ms) => StringMapMembers(ms); FoldMembers(map[], ms, ApplyMapMember)
    case _ => Err(TypeMismatch("map[string]string", v))
  }

  /**
   * CustomXtr.UnmarshalJSON: an object of strings decodes to that map; any
   * array, whatever it holds, decodes to the empty map; anything else fails
   * quoting the raw value.
   */
  function DecodeXtr(v: Json): (r: Result<map<string, string>, DecodeError>)
    ensures v.JNull? ==> r == Ok(map[])
    ensures v.JObject? ==> (r.Ok? <==> AllStringValued(v.members))
    ensures v.JObject? && r.Ok? ==> DenotesMembers(r.value, v.members)
    ensures v.JArray? ==> r == Ok(map[])
    ensures IsScalar(v) ==> r == Err(Rejected("xtr", v))
    ensures r.Err? ==> r.error == Rejected("xtr", v)
  {
    match DecodeStringMap(v)
    case Ok(m) => Ok(m)
    case Err(_) =>
      match DecodeAnyList(v)
      case Ok(_) => Ok(map[])
      case Err(_) => Err(Rejected("xtr", v))
  }

  /** An object whose keys are pairwise distinct decodes to exactly its members. */
  lemma XtrDistinctKeys(ms: seq<Member>)
    requires AllStringValued(ms)
    requires forall i, j :: 0 <= i < j < |ms| ==> ms[i].key != ms[j].key
    ensures DecodeXtr(JObject(ms)).Ok?
    ensures forall i :: 0 <= i < |ms| ==> DecodeXtr(JObject(ms)).value[ms[i].key] == StringOrEmpty(ms[i].value)
  {
    var m := DecodeXtr(JObject(ms)).value;
    forall i | 0 <= i < |ms|
      ensures m[ms[i].key] == StringOrEmpty(ms[i].value)
    {
      assert ms[i].key in MemberKeys(ms);
      LastValueDistinct(ms, i);
    }
  }

  lemma {:induction false} LastValueDistinct(ms: seq<Member>, i: int)
    requires 0 <= i < |ms|
    requires forall a, b :: 0 <= a < b < |ms| ==> ms[a].key != ms[b].key
    ensures LastValue(ms, ms[i].key) == Some(ms[i].value)
  {
    if i < |ms| - 1 {
      var init := ms[..|ms| - 1];
      assert init[i] == ms[i];
      LastValueDistinct(init, i);
    }
  }
}
