/**
 * Request headers as net/http stores them: Header.Set files a value under
 * the canonical form of its key (textproto.CanonicalMIMEHeaderKey), and
 * sendRequest sets Content-Type and Accept before it copies the client's
 * custom headers, in whatever order Go's map iteration visits them.
 */
module Headers {
  import opened Results

  /** A character allowed in a header field name (a `tchar` of RFC 7230, section 3.2.6). */
  predicate IsTokenChar(c: char) {
    || 'a' <= c <= 'z' || 'A' <= c <= 'Z' || '0' <= c <= '9'
    || c == '!' || c == '#' || c == '$' || c == '%' || c == '&' || c == '\'' || c == '*'
    || c == '+' || c == '-' || c == '.' || c == '^' || c == '_' || c == '`' || c == '|' || c == '~'
  }

  predicate IsToken(s: string) {
    forall i :: 0 <= i < |s| ==> IsTokenChar(s[i])
  }

  predicate IsLowerLetter(c: char) { 'a' <= c <= 'z' }
  predicate IsUpperLetter(c: char) { 'A' <= c <= 'Z' }

  function ToLower(c: char): char {
    if IsUpperLetter(c) then (c as int + 32) as char else c
  }

  function ToUpper(c: char): char {
    if IsLowerLetter(c) then (c as int - 32) as char else c
  }

  /** Equal up to the case of ASCII letters. */
  predicate SameIgnoringCase(a: string, b: string) {
    |a| == |b| && forall i :: 0 <= i < |a| ==> ToLower(a[i]) == ToLower(b[i])
  }

  /** Position `i` starts a word: it is first, or follows a hyphen. */
  predicate StartsWord(s: string, i: int)
    requires 0 <= i < |s|
  {
    i == 0 || s[i - 1] == '-'
  }

  /** Canonical shape: the first letter of each hyphen-separated word upper case, all others lower case. */
  predicate CanonicalShape(s: string) {
    forall i :: 0 <= i < |s| ==>
      if StartsWord(s, i) then !IsLowerLetter(s[i]) else !IsUpperLetter(s[i])
  }

  /** The rewriting loop of CanonicalMIMEHeaderKey; `upper` says whether s[0] starts a word. */
  function CaseFix(s: string, upper: bool): (r: string)
    ensures |r| == |s|
  {
    if |s| == 0 then ""
    else
      var c := if upper then ToUpper(s[0]) else ToLower(s[0]);
      [c] + CaseFix(s[1..], c == '-')
  }

  /**
   * textproto.CanonicalMIMEHeaderKey: a key made only of token characters
   * gets its canonical shape; any other key is used unchanged.
   */
  function CanonicalKey(s: string): (r: string)
    ensures |r| == |s|
    ensures !IsToken(s) ==> r == s
  {
    if IsToken(s) then CaseFix(s, true) else s
  }

  /** The canonical key differs from the key only in case, and has the canonical shape. */
  lemma CanonicalKeySpec(s: string)
    ensures SameIgnoringCase(CanonicalKey(s), s)
    ensures IsToken(s) ==> IsToken(CanonicalKey(s)) && CanonicalShape(CanonicalKey(s))
  {
    CaseFixSpec(s, true);
  }

  lemma {:induction false} CaseFixSpec(s: string, upper: bool)
    ensures SameIgnoringCase(CaseFix(s, upper), s)
    ensures IsToken(s) ==> IsToken(CaseFix(s, upper))
    ensures |s| > 0 ==> (if upper then !IsLowerLetter(CaseFix(s, upper)[0]) else !IsUpperLetter(CaseFix(s, upper)[0]))
    ensures forall i :: 1 <= i < |s| ==>
      (if CaseFix(s, upper)[i - 1] == '-' then !IsLowerLetter(CaseFix(s, upper)[i]) else !IsUpperLetter(CaseFix(s, upper)[i]))
  {
    if |s| > 0 {
      var r := CaseFix(s, upper);
      var c := r[0];
      CaseFixSpec(s[1..], c == '-');
      assert r[1..] == CaseFix(s[1..], c == '-');
      forall i | 1 <= i < |s|
        ensures if r[i - 1] == '-' then !IsLowerLetter(r[i]) else !IsUpperLetter(r[i])
      {
        if i > 1 {
          assert r[i - 1] == r[1..][i - 2] && r[i] == r[1..][i - 1];
        }
      }
      forall i | 0 <= i < |s| ensures ToLower(r[i]) == ToLower(s[i]) {
        if i > 0 {
          assert r[i] == r[1..][i - 1] && s[i] == s[1..][i - 1];
        }
      }
      if IsToken(s) {
        forall i | 0 <= i < |s| ensures IsTokenChar(r[i]) {
          if i > 0 {
            assert r[i] == r[1..][i - 1] && s[i] == s[1..][i - 1];
            assert IsTokenChar(s[1..][i - 1]);
          }
        }
      }
    }
  }

  /** Two canonically shaped strings that differ only in case are equal. */
  lemma CanonicalShapeUnique(a: string, b: string)
    requires CanonicalShape(a) && CanonicalShape(b) && SameIgnoringCase(a, b)
    ensures a == b
  {
    forall i | 0 <= i < |a| ensures a[i] == b[i] {
      if i > 0 {
        assert ToLower(a[i - 1]) == ToLower(b[i - 1]);
        assert a[i - 1] == '-' <==> b[i - 1] == '-';
      }
    }
  }

  /** Two token keys file under the same header exactly when they differ only in letter case. */
  lemma CanonicalKeyIdentifiesCase(a: string, b: string)
    requires IsToken(a) && IsToken(b)
    ensures CanonicalKey(a) == CanonicalKey(b) <==> SameIgnoringCase(a, b)
  {
    var ca, cb := CanonicalKey(a), CanonicalKey(b);
    CanonicalKeySpec(a);
    CanonicalKeySpec(b);
    if SameIgnoringCase(a, b) {
      assert SameIgnoringCase(ca, cb);
      CanonicalShapeUnique(ca, cb);
    }
  }

  lemma CanonicalKeyIdempotent(s: string)
    ensures CanonicalKey(CanonicalKey(s)) == CanonicalKey(s)
  {
    var c := CanonicalKey(s);
    CanonicalKeySpec(s);
    if IsToken(s) {
      var cc := CanonicalKey(c);
      CanonicalKeySpec(c);
      assert SameIgnoringCase(cc, c);
      CanonicalShapeUnique(cc, c);
    }
  }

  /** http.Header.Set: the value replaces whatever the canonical key held. */
  function SetField(h: map<string, string>, key: string, value: string): (r: map<string, string>)
    ensures CanonicalKey(key) in r && r[CanonicalKey(key)] == value
    ensures forall k :: k != CanonicalKey(key) ==> (k in r <==> k in h) && (k in h ==> r[k] == h[k])
  {
    h[CanonicalKey(key) := value]
  }

  /** The two headers sendRequest sets before the custom ones. */
  const FixedHeaders: map<string, string> :=
    map["Content-Type" := "application/x-www-form-urlencoded", "Accept" := "application/json"]

  /** A key already in canonical shape is its own canonical key. */
  lemma CanonicalKeyOfCanonical(s: string)
    requires IsToken(s) && CanonicalShape(s)
    ensures CanonicalKey(s) == s
  {
    CanonicalKeySpec(s);
    CanonicalShapeUnique(CanonicalKey(s), s);
  }

  lemma ContentTypeIsCanonical()
    ensures CanonicalKey("Content-Type") == "Content-Type"
  {
    CanonicalKeyOfCanonical("Content-Type");
  }

  lemma AcceptIsCanonical()
    ensures CanonicalKey("Accept") == "Accept"
  {
    CanonicalKeyOfCanonical("Accept");
  }

  /** Setting Content-Type and then Accept on an empty header yields FixedHeaders. */
  lemma FixedHeadersAreSet()
    ensures SetField(SetField(map[], "Content-Type", "application/x-www-form-urlencoded"), "Accept", "application/json")
            == FixedHeaders
  {
    ContentTypeIsCanonical();
    AcceptIsCanonical();
  }

  /**
   * Copies the custom headers in the order `order` visits their keys; a
   * key the map does not hold is skipped.
   */
  function ApplyCustom(h: map<string, string>, custom: map<string, string>, order: seq<string>): map<string, string> {
    if |order| == 0 then h
    else
      var k := order[|order| - 1];
      var before := ApplyCustom(h, custom, order[..|order| - 1]);
      if k in custom then SetField(before, k, custom[k]) else before
  }

  /** The headers of a request built for a client holding `custom`. */
  function RequestHeaders(custom: map<string, string>, order: seq<string>): map<string, string> {
    ApplyCustom(FixedHeaders, custom, order)
  }

  /** Copying custom headers only adds or replaces entries: every key of `h` is still there. */
  lemma {:induction false} ApplyCustomKeepsKeys(h: map<string, string>, custom: map<string, string>, order: seq<string>)
    ensures h.Keys <= ApplyCustom(h, custom, order).Keys
  {
    if |order| > 0 {
      ApplyCustomKeepsKeys(h, custom, order[..|order| - 1]);
    }
  }

  /** The iteration visits exactly the keys of the map. */
  predicate VisitsAll(order: seq<string>, custom: map<string, string>) {
    (forall k :: k in order ==> k in custom) && (forall k :: k in custom ==> k in order)
  }

  /** No two custom keys file under the same header. */
  predicate CanonicallyDistinct(custom: map<string, string>) {
    forall a, b :: a in custom && b in custom && CanonicalKey(a) == CanonicalKey(b) ==> a == b
  }

  /** The custom headers restricted to `keys`, filed under their canonical keys. */
  function CanonicalPart(custom: map<string, string>, keys: set<string>): map<string, string>
    requires CanonicallyDistinct(custom)
  {
    map k | k in keys && k in custom :: CanonicalKey(k) := custom[k]
  }

  lemma CanonicalPartAdd(custom: map<string, string>, keys: set<string>, k: string)
    requires CanonicallyDistinct(custom) && k in custom
    ensures CanonicalPart(custom, keys + {k}) == CanonicalPart(custom, keys)[CanonicalKey(k) := custom[k]]
  {
    var part := CanonicalPart(custom, keys);
    var lhs, rhs := CanonicalPart(custom, keys + {k}), part[CanonicalKey(k) := custom[k]];
    forall h | h in lhs ensures h in rhs {
      var x :| x in keys + {k} && x in custom && CanonicalKey(x) == h;
      if x != k { assert x in keys && h in part; }
    }
    forall h | h in rhs ensures h in lhs {
      if h != CanonicalKey(k) {
        var x :| x in keys && x in custom && CanonicalKey(x) == h;
        assert x in keys + {k};
      }
    }
    assert lhs.Keys == rhs.Keys;
    forall h | h in lhs ensures lhs[h] == rhs[h] {
      if h != CanonicalKey(k) {
        var x :| x in keys + {k} && x in custom && CanonicalKey(x) == h;
        assert x in keys;
      }
    }
  }

  /** Updating a union updates its right operand. */
  lemma UnionUpdate(a: map<string, string>, b: map<string, string>, k: string, v: string)
    ensures (a + b)[k := v] == a + b[k := v]
  {
  }

  /** The keys an order visits, as a set. */
  function Visited(order: seq<string>): (r: set<string>)
    ensures forall k :: k in r <==> k in order
  {
    set k | k in order
  }

  lemma VisitedSnoc(order: seq<string>, k: string)
    ensures Visited(order + [k]) == Visited(order) + {k}
  {
    assert forall x :: x in order + [k] <==> x in order || x == k;
  }

  lemma {:induction false} ApplyCustomIsUnion(custom: map<string, string>, order: seq<string>)
    requires CanonicallyDistinct(custom)
    ensures ApplyCustom(FixedHeaders, custom, order) == FixedHeaders + CanonicalPart(custom, Visited(order))
  {
    if |order| > 0 {
      var init := order[..|order| - 1];
      var k := order[|order| - 1];
      var before := ApplyCustom(FixedHeaders, custom, init);
      ApplyCustomIsUnion(custom, init);
      assert order == init + [k];
      VisitedSnoc(init, k);
      if k in custom {
        assert ApplyCustom(FixedHeaders, custom, order) == before[CanonicalKey(k) := custom[k]];
        UnionUpdate(FixedHeaders, CanonicalPart(custom, Visited(init)), CanonicalKey(k), custom[k]);
        CanonicalPartAdd(custom, Visited(init), k);
      } else {
        assert ApplyCustom(FixedHeaders, custom, order) == before;
        assert CanonicalPart(custom, Visited(order)) == CanonicalPart(custom, Visited(init));
      }
    }
  }

  /**
   * When no two custom keys collide after canonicalisation, the request
   * headers are the fixed ones overridden by every custom header, whatever
   * the iteration order.
   */
  lemma CustomHeadersWin(custom: map<string, string>, order: seq<string>)
    requires VisitsAll(order, custom) && CanonicallyDistinct(custom)
    ensures forall k :: k in custom ==>
              CanonicalKey(k) in RequestHeaders(custom, order) && RequestHeaders(custom, order)[CanonicalKey(k)] == custom[k]
    ensures forall h :: h in RequestHeaders(custom, order) <==> h in FixedHeaders || exists k :: k in custom && CanonicalKey(k) == h
    ensures forall h :: h in FixedHeaders && (forall k :: k in custom ==> CanonicalKey(k) != h) ==>
              h in RequestHeaders(custom, order) && RequestHeaders(custom, order)[h] == FixedHeaders[h]
  {
    var r := RequestHeaders(custom, order);
    var part := CanonicalPart(custom, custom.Keys);
    ApplyCustomIsUnion(custom, order);
    assert Visited(order) == custom.Keys;
    assert r == FixedHeaders + part;
    forall k | k in custom ensures CanonicalKey(k) in r && r[CanonicalKey(k)] == custom[k] {
      assert CanonicalKey(k) in part;
      var x :| x in custom.Keys && x in custom && CanonicalKey(x) == CanonicalKey(k) && part[CanonicalKey(k)] == custom[x];
    }
  }

  lemma OrderIrrelevant(custom: map<string, string>, o1: seq<string>, o2: seq<string>)
    requires VisitsAll(o1, custom) && VisitsAll(o2, custom) && CanonicallyDistinct(custom)
    ensures RequestHeaders(custom, o1) == RequestHeaders(custom, o2)
  {
    ApplyCustomIsUnion(custom, o1);
    ApplyCustomIsUnion(custom, o2);
    assert Visited(o1) == Visited(o2);
  }

  /** A character equal up to case to a token character is one itself. */
  lemma TokenIgnoringCase(a: string, b: string)
    requires SameIgnoringCase(a, b) && IsToken(b)
    ensures IsToken(a)
  {
    forall i | 0 <= i < |a| ensures IsTokenChar(a[i]) {
      assert ToLower(a[i]) == ToLower(b[i]);
    }
  }

  /** The custom key visited at position j files under `key`. */
  predicate WritesAt(custom: map<string, string>, order: seq<string>, j: int, key: string)
    requires 0 <= j < |order|
  {
    order[j] in custom && CanonicalKey(order[j]) == key
  }

  /** The position of the last custom key in `order` that files under `key`, if any. */
  function LastWriter(custom: map<string, string>, order: seq<string>, key: string): (r: Option<nat>)
    ensures r.Some? ==> r.value < |order| && WritesAt(custom, order, r.value, key)
                        && forall m :: r.value < m < |order| ==> !WritesAt(custom, order, m, key)
    ensures r.None? ==> forall m :: 0 <= m < |order| ==> !WritesAt(custom, order, m, key)
  {
    if |order| == 0 then None
    else if WritesAt(custom, order, |order| - 1, key) then Some(|order| - 1)
    else
      var init := order[..|order| - 1];
      assert forall m :: 0 <= m < |init| ==> WritesAt(custom, init, m, key) == WritesAt(custom, order, m, key);
      LastWriter(custom, init, key)
  }

  /**
   * Colliding keys or not, a header that some visited custom key files
   * under ends up holding the value of the last such key visited.
   */
  lemma {:induction false} ApplyCustomLastWriter(h: map<string, string>, custom: map<string, string>, order: seq<string>, key: string)
    requires LastWriter(custom, order, key).Some?
    ensures key in ApplyCustom(h, custom, order)
    ensures ApplyCustom(h, custom, order)[key] == custom[order[LastWriter(custom, order, key).value]]
  {
    var n := |order| - 1;
    if !WritesAt(custom, order, n, key) {
      var init := order[..n];
      ApplyCustomLastWriter(h, custom, init, key);
      var j := LastWriter(custom, init, key).value;
      assert init[j] == order[j];
    }
  }

  /**
   * A custom header spelled like Content-Type in any letter case (say
   * "content-type") replaces the form encoding sendRequest sets. When several
   * custom keys spell it, one of their values wins (the one the iteration
   * visits last); without such collisions it is this key's value.
   */
  lemma CustomContentTypeWins(custom: map<string, string>, order: seq<string>, k: string)
    requires VisitsAll(order, custom)
    requires k in custom && SameIgnoringCase(k, "Content-Type")
    ensures "Content-Type" in RequestHeaders(custom, order)
    ensures exists k' :: k' in custom && SameIgnoringCase(k', "Content-Type")
                         && RequestHeaders(custom, order)["Content-Type"] == custom[k']
    ensures CanonicallyDistinct(custom) ==> RequestHeaders(custom, order)["Content-Type"] == custom[k]
  {
    ContentTypeIsCanonical();
    assert IsToken("Content-Type") by { CanonicalKeySpec("Content-Type"); }
    TokenIgnoringCase(k, "Content-Type");
    CanonicalKeyIdentifiesCase(k, "Content-Type");
    var i :| 0 <= i < |order| && order[i] == k;
    assert WritesAt(custom, order, i, "Content-Type");
    ApplyCustomLastWriter(FixedHeaders, custom, order, "Content-Type");
    var j := LastWriter(custom, order, "Content-Type").value;
    CanonicalKeySpec(order[j]);
  }
}
