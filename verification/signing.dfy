/**
 * The signed form that sendRequest posts (takeawayapi.go:40-66): the
 * checksum preimage, its hex digest and the positional form fields. MD5
 * itself is a parameter: any function from strings to 16-byte digests.
 */
module Signing {
  import opened Results
  import opened Decimal
  import opened Hex

  /** takeAwayPassword: the secret appended to every preimage. */
  const Secret := "4ndro1d"

  /** A request parameter: a string, or an integer (an int or a CountryCode). */
  datatype Param = Text(s: string) | Number(n: int)

  /** fmt.Sprintf("%v", p): strings verbatim, integers in decimal. */
  function ParamString(p: Param): (r: string)
    ensures p.Text? ==> r == p.s
    ensures p.Number? ==> |r| >= 1 && (p.n < 0 <==> r[0] == '-')
    ensures p.Number? && p.n >= 0 ==> NoLeadingZero(r) && DigitsValue(r) == p.n
    ensures p.Number? && p.n < 0 ==> |r| >= 2 && NoLeadingZero(r[1..]) && DigitsValue(r[1..]) == -p.n
    ensures p.Number? && InInt64(p.n) ==> ParseInt64(r) == Some(p.n)
  {
    match p
    case Text(s) => s
    case Number(n) =>
      if InInt64(n) then IntToStringRoundTrip(n); IntToString(n) else IntToString(n)
  }

  /** strings.Join(ss, ""). */
  function Concat(ss: seq<string>): (r: string)
    ensures |ss| == 0 ==> r == ""
  {
    if |ss| == 0 then "" else Concat(ss[..|ss| - 1]) + ss[|ss| - 1]
  }

  function ParamStrings(params: seq<Param>): (r: seq<string>)
    ensures |r| == |params|
    ensures forall i :: 0 <= i < |params| ==> r[i] == ParamString(params[i])
  {
    seq(|params|, i requires 0 <= i < |params| => ParamString(params[i]))
  }

  /** The MD5 input: the function name, each parameter's string, then the secret. */
  function Preimage(name: string, params: seq<Param>): string {
    Concat([name] + ParamStrings(params) + [Secret])
  }

  lemma {:induction false} ConcatAppend(a: seq<string>, b: seq<string>)
    ensures Concat(a + b) == Concat(a) + Concat(b)
    decreases |b|
  {
    if |b| == 0 {
      assert a + b == a;
    } else {
      var b' := b[..|b| - 1];
      assert (a + b)[..|a + b| - 1] == a + b';
      ConcatAppend(a, b');
    }
  }

  /** Where each string of a join lands: ss[i] begins after the join of the strings before it. */
  lemma ConcatPlacement(ss: seq<string>, i: int)
    requires 0 <= i < |ss|
    ensures var off := |Concat(ss[..i])|;
            off + |ss[i]| <= |Concat(ss)| && Concat(ss)[off..off + |ss[i]|] == ss[i]
  {
    ConcatAppend(ss[..i], ss[i..]);
    assert ss == ss[..i] + ss[i..];
    ConcatAppend([ss[i]], ss[i + 1..]);
    assert ss[i..] == [ss[i]] + ss[i + 1..];
    assert Concat([ss[i]]) == Concat([]) + ss[i];
  }

  /**
   * The preimage starts with the function name, ends with the secret, and
   * carries each parameter's string at the offset the earlier ones leave.
   */
  lemma PreimageLayout(name: string, params: seq<Param>)
    ensures var p := Preimage(name, params);
            |p| == |name| + |Concat(ParamStrings(params))| + |Secret|
            && p[..|name|] == name
            && p[|p| - |Secret|..] == Secret
            && p[|name|..|p| - |Secret|] == Concat(ParamStrings(params))
  {
    Framed(name, ParamStrings(params), Secret);
  }

  /** Joining a head, some strings and a tail: the head and tail sit at the two ends. */
  lemma Framed(head: string, ss: seq<string>, tail: string)
    ensures var p := Concat([head] + ss + [tail]);
            |p| == |head| + |Concat(ss)| + |tail|
            && p[..|head|] == head
            && p[|p| - |tail|..] == tail
            && p[|head|..|p| - |tail|] == Concat(ss)
  {
    ConcatAppend([head] + ss, [tail]);
    ConcatAppend([head], ss);
    assert Concat([head]) == Concat([]) + head;
    assert Concat([tail]) == Concat([]) + tail;
    var p := head + Concat(ss) + tail;
    assert Concat([head] + ss + [tail]) == p;
    assert p[..|head|] == head;
    assert p[|p| - |tail|..] == tail;
    assert p[|head|..|p| - |tail|] == Concat(ss);
  }

  lemma ConcatCons(head: string, ss: seq<string>)
    ensures Concat([head] + ss) == head + Concat(ss)
  {
    ConcatAppend([head], ss);
    assert Concat([head]) == Concat([]) + head;
  }

  lemma FramedPlacement(head: string, ss: seq<string>, i: int)
    requires 0 <= i < |ss|
    ensures var off := |head| + |Concat(ss[..i])|;
            off + |ss[i]| <= |Concat([head] + ss + [Secret])| && Concat([head] + ss + [Secret])[off..off + |ss[i]|] == ss[i]
  {
    var all := [head] + ss + [Secret];
    assert all[..i + 1] == [head] + ss[..i];
    ConcatCons(head, ss[..i]);
    ConcatPlacement(all, i + 1);
    assert all[i + 1] == ss[i];
  }

  /** The i-th parameter's string sits in the preimage right after the name and the parameters before it. */
  lemma PreimageParam(name: string, params: seq<Param>, i: int)
    requires 0 <= i < |params|
    ensures var off := |name| + |Concat(ParamStrings(params)[..i])|;
            var s := ParamString(params[i]);
            off + |s| <= |Preimage(name, params)| && Preimage(name, params)[off..off + |s|] == s
  {
    FramedPlacement(name, ParamStrings(params), i);
  }

  /**
   * The preimage has no separators, so the checksum cannot tell where one
   * parameter ends and the next begins.
   */
  lemma PreimageIgnoresBoundaries()
    ensures Preimage("f", [Text("ab"), Text("c")]) == Preimage("f", [Text("a"), Text("bc")])
  {
    ConcatAppend(["f", "ab"], ["c", Secret]);
    ConcatAppend(["f", "a"], ["bc", Secret]);
    assert [Text("ab"), Text("c")] == [Text("ab")] + [Text("c")];
    assert ["f"] + ParamStrings([Text("ab"), Text("c")]) + [Secret] == ["f", "ab"] + ["c", Secret];
    assert ["f"] + ParamStrings([Text("a"), Text("bc")]) + [Secret] == ["f", "a"] + ["bc", Secret];
    assert Concat(["f", "ab"]) == "fab" by { assert ["f", "ab"][..1] == ["f"]; }
    assert Concat(["f", "a"]) == "fa" by { assert ["f", "a"][..1] == ["f"]; }
    assert Concat(["c", Secret]) == "c" + Secret by { assert ["c", Secret][..1] == ["c"]; }
    assert Concat(["bc", Secret]) == "bc" + Secret by { assert ["bc", Secret][..1] == ["bc"]; }
  }

  /** An MD5 sum: exactly 16 bytes. */
  type Digest = s: seq<byte> | |s| == 16 witness [0, 0, 0, 0, 0, 0, 0, 0, 0, 0, 0, 0, 0, 0, 0, 0]

  /** var0: the lower-case hex form of the digest of the preimage. */
  function Checksum(name: string, params: seq<Param>, md5: string -> Digest): (r: string)
    ensures |r| == 32
    ensures forall i :: 0 <= i < |r| ==> IsLowerHex(r[i])
    ensures HexDecode(r) == Some(md5(Preimage(name, params)))
  {
    var d := md5(Preimage(name, params));
    HexRoundTrip(d);
    HexEncode(d)
  }

  /** The form field name of the i-th parameter: var2, var3, ... */
  function FieldName(i: nat): string {
    "var" + NatToString(i + 2)
  }

  lemma FieldNameInjective(i: nat, j: nat)
    requires FieldName(i) == FieldName(j)
    ensures i == j
  {
    assert FieldName(i)[3..] == NatToString(i + 2);
    assert FieldName(j)[3..] == NatToString(j + 2);
    NatToStringInjective(i + 2, j + 2);
  }

  /** No parameter field is named var0 or var1. */
  lemma FieldNameNotReserved(i: nat)
    ensures FieldName(i) != "var0" && FieldName(i) != "var1"
  {
    NatToStringRoundTrip(i + 2);
    assert FieldName(i)[3..] == NatToString(i + 2);
    assert "var0"[3..] == "0" && DigitsValue("0") == 0;
    assert "var1"[3..] == "1" && DigitsValue("1") == 1;
  }

  /** defaultParams. */
  const DefaultParams: map<string, string> :=
    map["language" := "de", "version" := "5.7", "systemVersion" := "24", "appVersion" := "4.15.3.2"]

  const DefaultKeys: set<string> := {"language", "version", "systemVersion", "appVersion"}

  lemma DefaultKeysCount()
    ensures DefaultParams.Keys == DefaultKeys && |DefaultKeys| == 4
  {
  }

  /** No default key starts with "var". */
  lemma DefaultKeysAreNotFields(k: string)
    requires |k| >= 3 && k[..3] == "var"
    ensures k !in DefaultParams
  {
    DefaultKeysCount();
    assert "language"[..3] == "lan" && "version"[..3] == "ver";
    assert "systemVersion"[..3] == "sys" && "appVersion"[..3] == "app";
  }

  /** The fields of the parameters, set one after another onto `base`. */
  function ParamFields(base: map<string, string>, params: seq<Param>): map<string, string> {
    if |params| == 0 then base
    else ParamFields(base, params[..|params| - 1])[FieldName(|params| - 1) := ParamString(params[|params| - 1])]
  }

  /** The field names of the first n parameters. */
  function FieldNames(n: nat): set<string> {
    set i | 0 <= i < n :: FieldName(i)
  }

  /** The i-th parameter's field holds its string: later fields never overwrite earlier ones. */
  lemma {:induction false} ParamFieldsValues(base: map<string, string>, params: seq<Param>)
    ensures forall i :: 0 <= i < |params| ==>
              FieldName(i) in ParamFields(base, params) && ParamFields(base, params)[FieldName(i)] == ParamString(params[i])
  {
    if |params| > 0 {
      var n := |params| - 1;
      var init := params[..n];
      ParamFieldsValues(base, init);
      var before := ParamFields(base, init);
      var after := ParamFields(base, params);
      assert after == before[FieldName(n) := ParamString(params[n])];
      forall i | 0 <= i < |params|
        ensures FieldName(i) in after && after[FieldName(i)] == ParamString(params[i])
      {
        if i < n {
          assert init[i] == params[i];
          assert FieldName(i) in before && before[FieldName(i)] == ParamString(init[i]);
          if FieldName(i) == FieldName(n) { FieldNameInjective(i, n); }
        }
      }
    }
  }

  /** The keys are those of `base` and the parameters' field names. */
  lemma {:induction false} ParamFieldsKeys(base: map<string, string>, params: seq<Param>)
    ensures ParamFields(base, params).Keys == base.Keys + FieldNames(|params|)
  {
    if |params| > 0 {
      var n := |params| - 1;
      ParamFieldsKeys(base, params[..n]);
      assert FieldNames(n + 1) == FieldNames(n) + {FieldName(n)};
    }
  }

  /** A key of `base` that no parameter names keeps its value. */
  lemma {:induction false} ParamFieldsKeepBase(base: map<string, string>, params: seq<Param>, k: string)
    requires k in base && k !in FieldNames(|params|)
    ensures k in ParamFields(base, params) && ParamFields(base, params)[k] == base[k]
  {
    if |params| > 0 {
      var n := |params| - 1;
      assert FieldNames(n) <= FieldNames(n + 1);
      assert FieldName(n) in FieldNames(n + 1);
      ParamFieldsKeepBase(base, params[..n], k);
    }
  }

  lemma ParamFieldsContents(base: map<string, string>, params: seq<Param>)
    ensures forall i :: 0 <= i < |params| ==>
              FieldName(i) in ParamFields(base, params) && ParamFields(base, params)[FieldName(i)] == ParamString(params[i])
    ensures forall k :: k in ParamFields(base, params) <==> k in base || k in FieldNames(|params|)
    ensures forall k :: k in base && k !in FieldNames(|params|) ==> ParamFields(base, params)[k] == base[k]
  {
    ParamFieldsValues(base, params);
    ParamFieldsKeys(base, params);
    forall k | k in base && k !in FieldNames(|params|) ensures ParamFields(base, params)[k] == base[k] {
      ParamFieldsKeepBase(base, params, k);
    }
  }

  lemma {:induction false} FieldNamesCount(n: nat)
    ensures |FieldNames(n)| == n
  {
    if n > 0 {
      FieldNamesCount(n - 1);
      assert FieldNames(n) == FieldNames(n - 1) + {FieldName(n - 1)};
      if FieldName(n - 1) in FieldNames(n - 1) {
        var i :| 0 <= i < n - 1 && FieldName(i) == FieldName(n - 1);
        FieldNameInjective(i, n - 1);
      }
    }
  }

  /** url.Values as sendRequest fills it: var1, the parameters, var0 (the checksum), then the defaults. */
  function FormFields(name: string, params: seq<Param>, checksum: string): map<string, string> {
    ParamFields(map["var1" := name], params)["var0" := checksum] + DefaultParams
  }

  /** A parameter field is neither var0, var1 nor a default key. */
  lemma FieldNameIsFresh(i: nat)
    ensures FieldName(i) != "var0" && FieldName(i) != "var1" && FieldName(i) !in DefaultParams
  {
    FieldNameNotReserved(i);
    assert FieldName(i)[..3] == "var";
    DefaultKeysAreNotFields(FieldName(i));
  }

  /**
   * Every field holds what sendRequest put there, and nothing overwrites
   * anything: var1 the function, var0 the checksum, var(i+2) the i-th
   * parameter's string (the same one the preimage used), and the defaults.
   */
  lemma FormFieldsContents(name: string, params: seq<Param>, checksum: string)
    ensures var f := FormFields(name, params, checksum);
            && "var1" in f && f["var1"] == name
            && "var0" in f && f["var0"] == checksum
            && (forall i :: 0 <= i < |params| ==> FieldName(i) in f && f[FieldName(i)] == ParamString(params[i]))
            && (forall k :: k in DefaultParams ==> k in f && f[k] == DefaultParams[k])
  {
    var base := map["var1" := name];
    var signed := ParamFields(base, params)["var0" := checksum];
    assert "var1" !in DefaultParams && "var0" !in DefaultParams by { DefaultKeysCount(); }
    assert "var1" !in FieldNames(|params|) by {
      if "var1" in FieldNames(|params|) {
        var i :| 0 <= i < |params| && FieldName(i) == "var1";
        FieldNameIsFresh(i);
      }
    }
    ParamFieldsKeepBase(base, params, "var1");
    OverlayKeeps(signed, DefaultParams, "var1");
    OverlayKeeps(signed, DefaultParams, "var0");
    ParamFieldsValues(base, params);
    forall i | 0 <= i < |params|
      ensures FieldName(i) in FormFields(name, params, checksum)
              && FormFields(name, params, checksum)[FieldName(i)] == ParamString(params[i])
    {
      FormFieldAt(ParamFields(base, params), checksum, FieldName(i));
    }
  }

  /** A parameter field survives the checksum and the defaults. */
  lemma FormFieldAt(fields: map<string, string>, checksum: string, key: string)
    requires key in fields && |key| >= 3 && key[..3] == "var" && key != "var0"
    ensures key in fields["var0" := checksum] + DefaultParams
    ensures (fields["var0" := checksum] + DefaultParams)[key] == fields[key]
  {
    DefaultKeysAreNotFields(key);
    OverlayKeeps(fields["var0" := checksum], DefaultParams, key);
  }

  /** A key the overlay does not carry keeps its value under `+`. */
  lemma OverlayKeeps(m: map<string, string>, d: map<string, string>, k: string)
    requires k in m && k !in d
    ensures k in m + d && (m + d)[k] == m[k]
  {
  }

  lemma FormFieldsKeySet(name: string, params: seq<Param>, checksum: string)
    ensures FormFields(name, params, checksum).Keys == {"var0", "var1"} + DefaultKeys + FieldNames(|params|)
  {
    var base := map["var1" := name];
    ParamFieldsKeys(base, params);
    SignedKeys(ParamFields(base, params), "var0", checksum, DefaultParams);
    DefaultKeysCount();
    assert base.Keys == {"var1"};
  }

  /** Keys of a map with one field set and an overlay added. */
  lemma SignedKeys(m: map<string, string>, k: string, v: string, d: map<string, string>)
    ensures (m[k := v] + d).Keys == m.Keys + {k} + d.Keys
  {
  }

  lemma FixedKeysCount()
    ensures |{"var0", "var1"} + DefaultKeys| == 6
  {
    assert {"var0", "var1"} + DefaultKeys == {"var0", "var1", "language", "version", "systemVersion", "appVersion"};
  }

  lemma DisjointUnionCount(a: set<string>, b: set<string>)
    requires a !! b
    ensures |a + b| == |a| + |b|
  {
    assert a * b == {};
  }

  /** The form's key set, and so its size: n parameters give n + 6 fields. */
  lemma FormFieldsKeys(name: string, params: seq<Param>, checksum: string)
    ensures FormFields(name, params, checksum).Keys == {"var0", "var1"} + DefaultKeys + FieldNames(|params|)
    ensures |FormFields(name, params, checksum)| == |params| + 6
  {
    FormFieldsKeySet(name, params, checksum);
    var fixed, names := {"var0", "var1"} + DefaultKeys, FieldNames(|params|);
    FieldNamesCount(|params|);
    FixedKeysCount();
    forall k | k in names ensures k !in fixed {
      var i :| 0 <= i < |params| && FieldName(i) == k;
      FieldNameIsFresh(i);
      DefaultKeysCount();
    }
    DisjointUnionCount(fixed, names);
    assert |FormFields(name, params, checksum)| == |FormFields(name, params, checksum).Keys|;
  }
}
