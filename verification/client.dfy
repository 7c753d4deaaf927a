/**
 * The client value (takeawayapi.go: TakeAwayClient) and the methods that
 * build and adjust it. The *http.Client handle is not part of the model:
 * sendRequest never uses it, so NewClient and NewClientWithHTTPClient
 * coincide here.
 */
module TakeAwayClient {
  import opened Results
  import Headers

  datatype Client = Client(baseURL: string, language: string, headers: map<string, string>)

  const UrlPrefix := "https://"
  const UrlSuffix := ".citymeal.com/android/android.php"

  /** The endpoint for a language: takeAwayURL with %s replaced by the language, verbatim. */
  function EndpointFor(language: string): string {
    UrlPrefix + language + UrlSuffix
  }

  /** Reads the language back out of an endpoint URL; None for any other URL. */
  function LanguageOf(url: string): (r: Option<string>)
    ensures r.Some? ==> EndpointFor(r.value) == url
  {
    if |url| >= |UrlPrefix| + |UrlSuffix| && url[..|UrlPrefix|] == UrlPrefix && url[|url| - |UrlSuffix|..] == UrlSuffix then
      var language := url[|UrlPrefix|..|url| - |UrlSuffix|];
      assert EndpointFor(language) == url by {
        assert url == url[..|UrlPrefix|] + language + url[|url| - |UrlSuffix|..];
      }
      Some(language)
    else None
  }

  /** NewClient: the endpoint for the language, the language itself and no custom headers. */
  function NewClient(language: string): (c: Client)
    ensures LanguageOf(c.baseURL) == Some(c.language)
    ensures c.language == language
    ensures c.headers == map[]
  {
    var c := Client(EndpointFor(language), language, map[]);
    LanguageRoundTrip(language);
    c
  }

  /** NewClientWithHTTPClient: identical to NewClient once the transport handle is abstracted away. */
  function NewClientWithHTTPClient(language: string): (c: Client)
    ensures c == NewClient(language)
  {
    Client(EndpointFor(language), language, map[])
  }

  lemma LanguageRoundTrip(language: string)
    ensures LanguageOf(EndpointFor(language)) == Some(language)
  {
    var url := EndpointFor(language);
    assert url[..|UrlPrefix|] == UrlPrefix;
    assert url[|url| - |UrlSuffix|..] == UrlSuffix;
    assert url[|UrlPrefix|..|url| - |UrlSuffix|] == language;
  }

  /** Two clients built for different languages talk to different endpoints. */
  lemma EndpointsDistinct(a: string, b: string)
    requires a != b
    ensures NewClient(a).baseURL != NewClient(b).baseURL
  {
    LanguageRoundTrip(a);
    LanguageRoundTrip(b);
  }

  /** SetHeader: the key (exactly as given, not canonicalised) now maps to the value. */
  function SetHeader(c: Client, key: string, value: string): (r: Client)
    ensures key in r.headers && r.headers[key] == value
    ensures forall k :: k != key ==> (k in r.headers <==> k in c.headers) && (k in c.headers ==> r.headers[k] == c.headers[k])
    ensures r.baseURL == c.baseURL && r.language == c.language
  {
    c.(headers := c.headers[key := value])
  }

  /** SetHeaders: the given map replaces the custom headers wholesale. */
  function SetHeaders(c: Client, headers: map<string, string>): (r: Client)
    ensures forall k :: k in r.headers <==> k in headers
    ensures forall k :: k in headers ==> r.headers[k] == headers[k]
    ensures r.baseURL == c.baseURL && r.language == c.language
  {
    c.(headers := headers)
  }

  /** AppendHeaders: the given keys take the given values; every other header is kept. */
  function AppendHeaders(c: Client, headers: map<string, string>): (r: Client)
    ensures forall k :: k in headers ==> k in r.headers && r.headers[k] == headers[k]
    ensures forall k :: k !in headers ==> (k in r.headers <==> k in c.headers) && (k in c.headers ==> r.headers[k] == c.headers[k])
    ensures r.baseURL == c.baseURL && r.language == c.language
  {
    c.(headers := c.headers + headers)
  }

  /** The loop of AppendHeaders: SetHeader for each key in the order the iteration visits them. */
  function SetEach(c: Client, headers: map<string, string>, order: seq<string>): Client {
    if |order| == 0 then c
    else
      var k := order[|order| - 1];
      var before := SetEach(c, headers, order[..|order| - 1]);
      if k in headers then SetHeader(before, k, headers[k]) else before
  }

  /** The keys an order has visited, restricted to a map. */
  function Restrict(headers: map<string, string>, order: seq<string>): map<string, string> {
    map k | k in headers && k in order :: headers[k]
  }

  /** Visiting one more key adds that key's entry, if the map has one. */
  lemma RestrictSnoc(headers: map<string, string>, init: seq<string>, k: string)
    ensures Restrict(headers, init + [k]) == if k in headers then Restrict(headers, init)[k := headers[k]] else Restrict(headers, init)
  {
    assert forall x :: x in init + [k] <==> x in init || x == k;
  }

  lemma {:induction false} SetEachIsUnion(c: Client, headers: map<string, string>, order: seq<string>)
    ensures SetEach(c, headers, order) == c.(headers := c.headers + Restrict(headers, order))
  {
    if |order| > 0 {
      var init, k := order[..|order| - 1], order[|order| - 1];
      SetEachIsUnion(c, headers, init);
      assert order == init + [k];
      assert forall x :: x in order <==> x in init || x == k;
      var merged := c.headers + Restrict(headers, init);
      var lhs := if k in headers then merged[k := headers[k]] else merged;
      assert SetEach(c, headers, order).headers == lhs;
      assert lhs == c.headers + Restrict(headers, order) by {
        RestrictSnoc(headers, init, k);
      }
    }
  }

  /**
   * Whatever order the iteration visits the keys in, AppendHeaders amounts
   * to one SetHeader per key: the loop's result is the merged map.
   */
  lemma AppendIsRepeatedSet(c: Client, headers: map<string, string>, order: seq<string>)
    requires Headers.VisitsAll(order, headers)
    ensures SetEach(c, headers, order) == AppendHeaders(c, headers)
  {
    SetEachIsUnion(c, headers, order);
    assert Restrict(headers, order) == headers;
  }

  /** Appending to a fresh client gives the same headers as replacing them. */
  lemma AppendToNewIsSet(language: string, headers: map<string, string>)
    ensures AppendHeaders(NewClient(language), headers) == SetHeaders(NewClient(language), headers)
  {
    assert map[] + headers == headers;
  }

  /** SetHeaders forgets a header set earlier unless the new map has it too. */
  lemma SetHeadersDiscards(c: Client, key: string, value: string, headers: map<string, string>)
    requires key !in headers
    ensures key !in SetHeaders(SetHeader(c, key, value), headers).headers
    ensures SetHeaders(SetHeader(c, key, value), headers) == SetHeaders(c, headers)
  {
  }

  /** Setting one key twice keeps the later value; setting two different keys commutes. */
  lemma SetHeaderLastWins(c: Client, k1: string, v1: string, k2: string, v2: string)
    ensures k1 == k2 ==> SetHeader(SetHeader(c, k1, v1), k2, v2) == SetHeader(c, k2, v2)
    ensures k1 != k2 ==> SetHeader(SetHeader(c, k1, v1), k2, v2) == SetHeader(SetHeader(c, k2, v2), k1, v1)
  {
  }
}
