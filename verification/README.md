# takeawayapi in Dafny

A model of the Go client for the Takeaway (citymeal) Android API. It covers the client's own logic:

- **Tolerant field decoders** (`structs.go`). The menu fields `pr`, `all`, `add` and `xtr` arrive in more than one JSON shape. Each decoder tries one shape, then a fallback, in a fixed order, and normalises the result or fails quoting the raw payload.
- **The signed request** that `sendRequest` posts. The MD5 preimage is the function name, then each parameter rendered with `%v`, then the secret `4ndro1d`. The digest goes on the form in lower-case hex. The form holds the positional fields `var0`, `var1`, `var2`… and four defaults.
- **Response triage.** The body is first decoded against the error envelope `{"nok":{"error":{"errorid":…}}}`. A non-zero code is a vendor error; every other body is decoded with the operation's success schema.
- **Headers.** The client holds custom headers (`NewClient`, `SetHeader`, `SetHeaders`, `AppendHeaders`). The request sets `Content-Type` and `Accept`, then copies the custom headers over them, with keys canonicalised as `http.Header.Set` does.
- **The timestamp format** `2006-01-02 15:04:05`. Parsing and formatting form a pair, checked for calendar validity.
- **The typed operations.** Each has its positional parameter order, its function name, and the time post-processing it performs on success.

JSON is an algebraic datatype (`Json.Json`). Objects are ordered member lists, so Go's "the last duplicate wins" and its case-insensitive field matching can be stated. Struct decoding is a fold of the members into the current value, as `encoding/json` does:

- null leaves a struct or string unchanged and resets a slice or map;
- a value of the wrong shape is a type error.

What lies outside the model enters as parameters (`Transport.Env`):

- MD5, a function from strings to 16-byte digests;
- the HTTP exchange;
- the iteration order Go's runtime picks for a map.

The decoders of the plain response records are parameters too.

Modules, in dependency order: `Results`, `Decimal` (the `%v` rendering of integers and `strconv.ParseInt`), `Hex`, `Json`, `Fields` (`CustomAll`, `CustomAdd`, `CustomXtr`), `Products`, `Envelope`, `Countries`, `TakeAwayTime`, `Headers`, `TakeAwayClient`, `Signing`, `Transport`, `Operations`.

## Model

| member | source | states |
|---|---|---|
| Fields.DecodeAll | structs.go:462-480 | A string array (null elements read as "") decodes to itself, element by element. An object decodes to its `id` list, and to the empty list when `id` is absent. Null gives the empty list. An array with a non-string element, or a scalar, fails with `Rejected("all", raw)`. Every failure quotes the raw payload. Repeated `id` keys whose later array holds null are the exception listed under "Left out". |
| Fields.DecodeAdd | structs.go:487-505 | The reverse priority: the object shape is tried first, then any string array (not only an empty one). Results and errors are stated shape by shape, as for `all`, with the same exception for repeated `id` keys. |
| Fields.AddAgreesWithAll | structs.go:462-505 | Because no JSON value is both an object and an array, the two priorities accept exactly the same inputs and give the same lists. |
| Fields.DecodeXtr | structs.go:512-528 | An object of strings (or nulls) decodes to the map its members denote: every key present, holding the value of its last occurrence. Any array decodes to the empty map, whatever its elements. An object with a non-string value fails with `Rejected("xtr", raw)`, and so does a scalar. |
| Fields.XtrDistinctKeys | structs.go:512-518 | With distinct keys, every member's value is found under its key in the decoded map. |
| Fields.StringMapMembers | structs.go:514 | Decoding a `map[string]string` succeeds exactly when every member is a string or null, and then yields the map the members denote. |
| Fields.IdObjectDecodes | structs.go:470-475 | The `struct{ID []string}` fallback succeeds exactly when every member matching `id` holds a string array or null. It then yields the last such list, which is Go's result whenever `id` occurs once or the last `id` array has no null element. |
| Products.DecodeProducts | structs.go:408-433 | An array decodes iff every element decodes as a product, giving those products in order. A single object is wrapped into a one-element list iff it decodes as a product. Null gives the empty list. A scalar fails with `Rejected("pr", raw)`. Every failure quotes the raw payload. |
| Products.ArrayOfOneMatchesObject | structs.go:411-426 | A one-element array and its lone object decode to the same product list: the wrapping branch agrees with the array branch. |
| Products.IdOnlyProduct | structs.go:421-426 | An object holding only `id` becomes one zero product carrying that id, and so does the array holding it. |
| Products.FieldMatchIgnoresCase | structs.go:436 | The key `ID` fills the field tagged `id`, as `encoding/json` matches keys case-insensitively. |
| Products.DecodeProduct | structs.go:435-448 | Null leaves the zero product. An array or scalar is a type error. |
| Countries.CodeRoundTrip | structs.go:18-28 | Each named country maps to its code (NL 1, DE 2, BE 3, AT 5, CH 6, LU 10, PL 180, PT 181, VN 239), and the code maps back to the country. |
| Countries.CodesDistinct | structs.go:18-28 | The nine codes are pairwise distinct. |
| Countries.CountryOf | structs.go:14-28 | A code names a country only when that country's code is that number. |
| Envelope.DecodeEnvelope | structs.go:30-37 | Decoding into the error envelope: null leaves code 0 and empty text, and any array or scalar body fails. |
| Envelope.EnvelopeRoundTrip | structs.go:30-37 | The wire form `{"nok":{"error":{"errorid":n,"errortext":t}}}` decodes back to `(n, t)` for every 64-bit n. |
| Envelope.OnlyObjectsCarryErrors | takeawayapi.go:96-97 | Only a JSON object can be decoded as an envelope with a non-zero code. |
| Transport.Triage | takeawayapi.go:95-105 | A malformed body is an unmarshal error. A body decoding as the envelope with a non-zero code is an API error carrying that code and text. Any other body succeeds iff the success decoder does, and its failure becomes an unmarshal error. |
| Transport.ApiErrorShortCircuits | takeawayapi.go:96-99 | A vendor error is reported as such whatever the success schema, which is never consulted. |
| Transport.ZeroCodeFallsThrough | takeawayapi.go:97-105 | An envelope with code 0 is no error: the result is the success decoder's. |
| Transport.NonObjectsReachDecoder | takeawayapi.go:96-105 | A body that is not an object always reaches the success decoder, and can fail only as an unmarshal error. |
| Transport.SendRequest | takeawayapi.go:40-106 | The result is the decoded body exactly when the call delivered: the body is JSON, is no vendor error, and the success schema accepts it. A failed exchange is a transport error. A refused call is the vendor's error with its non-zero code, whatever the success decoder would say. Every other received body is an unmarshal error. |
| Transport.BuildRequest | takeawayapi.go:40-79 | A POST to the client's base URL. Its form has `var1` = the function name, `var(i+2)` = parameter i's string, the four defaults and a `var0` that hex-decodes to the MD5 of this very call's preimage: n + 6 fields for n parameters. The request always carries Content-Type and Accept. |
| Transport.ClientHeadersOnRequest | takeawayapi.go:73-79 | When no two custom keys canonicalise to the same header, every custom header of the client reaches the request under its canonical key with its value. |
| Signing.PreimageLayout | takeawayapi.go:42-52 | The preimage is the function name, then the parameters' strings joined with no separator, then `4ndro1d`. |
| Signing.PreimageParam | takeawayapi.go:46-52 | Parameter i's `%v` string sits in the preimage right after the name and the strings of the parameters before it. |
| Signing.PreimageIgnoresBoundaries | takeawayapi.go:52 | Two parameter lists that concatenate to the same text (`"ab","c"` and `"a","bc"`) have the same preimage, and so the same checksum. |
| Signing.Checksum | takeawayapi.go:53 | The checksum is 32 lower-case hex characters that decode back to the 16-byte digest of the preimage. |
| Signing.ParamString | takeawayapi.go:47 | `%v` of a string is the string. `%v` of an integer (an int or a CountryCode) is its canonical decimal: the digits of its absolute value with no leading zero and no `+`, after a `-` exactly when negative. For 64-bit values `strconv.ParseInt` reads it back as the integer. |
| Signing.FormFieldsContents | takeawayapi.go:56-66 | `var1` holds the function name, `var(i+2)` the same string for parameter i that went into the preimage, `var0` the checksum, and each default key its default value. Nothing overwrites anything. |
| Signing.FormFieldsKeys | takeawayapi.go:56-66 | The keys are `var0`, `var1`, `var2`…`var(n+1)` and the four defaults, so n parameters give exactly n + 6 fields. |
| Signing.FieldNameInjective | takeawayapi.go:59 | Different parameter positions get different field names. |
| Signing.FieldNameNotReserved | takeawayapi.go:57-61 | No parameter field is named `var0` or `var1`. |
| Signing.ParamFieldsContents | takeawayapi.go:58-60 | The parameter loop files parameter i under `var(i+2)`, and leaves every other key of the form as it was. |
| Signing.DefaultKeysCount | takeawayapi.go:20-25 | The defaults are exactly `language`, `version`, `systemVersion` and `appVersion`. |
| Headers.CanonicalKeySpec | takeawayapi.go:73-78 | A canonicalised key differs from the key only in letter case. A token key becomes canonically shaped: upper case at the start of each hyphen-separated word, lower case elsewhere. A non-token key is left as is. |
| Headers.CanonicalKeyIdentifiesCase | takeawayapi.go:73-78 | Two token keys file under the same header exactly when they differ only in letter case. |
| Headers.CanonicalKeyIdempotent | takeawayapi.go:73-78 | Canonicalising twice is canonicalising once. |
| Headers.SetField | takeawayapi.go:78 | `Header.Set` stores the value under the canonical key and changes no other header. |
| Headers.FixedHeadersAreSet | takeawayapi.go:73-74 | Setting Content-Type and then Accept on an empty header gives exactly those two headers. |
| Headers.ApplyCustomIsUnion | takeawayapi.go:76-79 | When no two custom keys collide after canonicalisation, copying them in any order gives the fixed headers overridden by the canonicalised custom map. |
| Headers.CustomHeadersWin | takeawayapi.go:73-79 | Every custom header is on the request under its canonical key. The request's keys are the fixed ones plus the custom ones. A fixed header survives exactly when no custom key canonicalises to it. |
| Headers.OrderIrrelevant | takeawayapi.go:76-79 | Under the same condition, map iteration order cannot change the request's headers. |
| Headers.CustomContentTypeWins | takeawayapi.go:73-79 | Any custom key spelled like Content-Type in any case (e.g. `content-type`) replaces the form encoding: the request's Content-Type is the value of one such key, even when several collide. Without collisions it is this key's value. |
| Headers.ApplyCustomLastWriter | takeawayapi.go:76-79 | Colliding keys or not, a header that some visited custom key canonicalises to ends up holding the value of the last such key the iteration visits. |
| TakeAwayClient.NewClient | takeawayapi.go:109-117 | The base URL is the endpoint of the language, which can be read back from it. The language is kept. No custom headers are set. |
| TakeAwayClient.LanguageRoundTrip | takeawayapi.go:17 | The language can be read back out of `https://<language>.citymeal.com/android/android.php`. |
| TakeAwayClient.EndpointsDistinct | takeawayapi.go:110 | Clients for different languages talk to different endpoints. |
| TakeAwayClient.NewClientWithHTTPClient | takeawayapi.go:120-128 | The same client as NewClient, since the HTTP handle is never used by sendRequest. |
| TakeAwayClient.SetHeader | takeawayapi.go:131-133 | The key, taken exactly as given, maps to the value. Every other header and the endpoint are unchanged. |
| TakeAwayClient.SetHeaders | takeawayapi.go:136-138 | The custom headers become exactly the given map. |
| TakeAwayClient.SetHeadersDiscards | takeawayapi.go:136-138 | Headers set before SetHeaders and not in its map are gone. |
| TakeAwayClient.SetHeaderLastWins | takeawayapi.go:131-133 | Setting one key twice keeps the later value. Setting two different keys commutes. |
| TakeAwayClient.AppendHeaders | takeawayapi.go:141-145 | The given keys take the given values. Every other header is kept. |
| TakeAwayClient.AppendIsRepeatedSet | takeawayapi.go:141-145 | The loop of SetHeader calls, in any order that visits each key, yields the merged map. |
| TakeAwayClient.SetEachIsUnion | takeawayapi.go:142-144 | After any prefix of the iteration, the headers are the old ones overridden by the keys visited so far. |
| TakeAwayClient.AppendToNewIsSet | takeawayapi.go:109-145 | On a fresh client, appending headers and replacing them agree. |
| TakeAwayTime.ParseTime | takeawayapi.go:15-29 | A successful parse comes from a 19-character text and yields a calendar-valid time in years 0-9999. |
| TakeAwayTime.FormatThenParse | takeawayapi_test.go:15-25 | Formatting any calendar-valid time and parsing the text gives the same time back. |
| TakeAwayTime.ParseThenFormat | takeawayapi.go:15-29 | Every accepted text is the formatting of the time parsed from it, so the layout is the only spelling accepted. |
| TakeAwayTime.FormatThenParseAnyDay | takeawayapi.go:27-29 | For a two-digit day number, parsing the formatted text succeeds iff the day exists in that month; otherwise it fails on the day. |
| TakeAwayTime.LeapDay | takeawayapi.go:27-29 | February 29 parses exactly in leap years. |
| TakeAwayTime.OnlyFourDigitYearsRoundTrip | takeawayapi.go:15 | A year outside 0-9999 formats to text the layout rejects. |
| Operations.ParseSlots | takeawayapi.go:198-217 | The slot loop succeeds iff every slot's start and end parse, and then each slot holds the parse of its own strings. On failure it reports the first failing slot, its start tried before its end. |
| Operations.ParseRestaurantTimes | takeawayapi.go:194-218 | Success iff the current time and every Td and Tm slot parse. The parsed values then sit next to their strings, and the pickup times, the delivery times' own current time and every other field are unchanged. The current time is tried first, then Td, then Tm. |
| Operations.RestaurantTimesRoundTrip | takeawayapi.go:194-218 | Every time a successful restaurant call returns formats back to the string it was parsed from. |
| Operations.ParseCurrentTime | takeawayapi.go:155-159 | Success iff the current-time string parses. The time then formats back to that string, and nothing else changes. |
| Operations.ParseRestaurantsTime | takeawayapi.go:170-174 | The same for the restaurant list's current time. |
| Operations.GetCurrentTime | takeawayapi.go:148-160 | A failed send is reported with the function name. A successful one returns a representable current time that formats back to its string. |
| Operations.GetRestaurants | takeawayapi.go:163-175 | A failed send is reported with the function name. A successful one returns a representable current time that formats back to its string. |
| Operations.GetCountriesData | takeawayapi.go:178-186 | The result is the decoded body exactly when the call delivered. A transport failure or a vendor refusal comes back as `SendFailed("getcountriesdata", …)`, whatever the decoder, and so does every other error. |
| Operations.GetRestaurantDataFor | takeawayapi.go:188-219 | A failed send is reported with the function name; otherwise the result is the time post-processing of the decoded record. |
| Operations.GetRestaurantData | takeawayapi.go:188-225 | A transport failure or vendor refusal comes back labelled `getrestaurantdata`. A success means the call delivered, and a delivered record gives exactly its time post-processing (ParseRestaurantTimes). A successful result's current time is representable and formats back to the string sent. |
| Operations.GetRestaurantCheckoutData | takeawayapi.go:228-231 | The same as GetRestaurantData under the label `getrestaurantcheckoutdata`: failures are labelled, success only on delivery, with the times parsed and the current time round-tripping. |
| Operations.GetRestaurantReviews | takeawayapi.go:234-242 | The result is the decoded review list exactly when the call delivered. A transport failure or a vendor refusal comes back as `SendFailed("restaurantreviews", …)`, whatever the decoder, and so does every other error. |
| Operations.CurrentTimeForm | takeawayapi.go:151 | The form carries `var2` = the decimal country code, `var3` = the restaurant and `var4` = the decimal ordering mode: 9 fields in all. |
| Operations.RestaurantsForm | takeawayapi.go:166 | The form carries postal code, country code, latitude, longitude and the client's language as `var2`…`var6`: 11 fields. |
| Operations.RestaurantDataForm | takeawayapi.go:188-190 | The form carries the restaurant as `var2`, then the country code as `var3` before the postcode as `var4`, then latitude, longitude and client id: 12 fields. |
| Operations.ReviewsForm | takeawayapi.go:237 | The form carries the restaurant as `var2` and the decimal page as `var3`: 8 fields. |
| Operations.NoParamsForm | takeawayapi.go:181 | A call without parameters posts only `var0`, `var1` and the defaults: 6 fields and no `var2`. |
| Operations.CountryOnForm | takeawayapi.go:47 | A named country goes on the form as its decimal code, e.g. DE as `2` and VN as `239`. |
| Decimal.IntToStringCanonical | takeawayapi.go:47 | The `%v` rendering is the only spelling of an integer with its sign, no `+` and no leading zero. |
| Decimal.IntToStringRoundTrip | takeawayapi.go:47 | The `%v` rendering of a 64-bit integer parses back with `strconv.ParseInt` to the same integer. |
| Hex.HexRoundTrip | takeawayapi.go:53 | `hex.EncodeToString` is inverted by hex decoding. |

## Left out

- HTTP: `http.NewRequest`, `client.Do` and `io.ReadAll` are the `exchange` parameter, and any of their failures is a `TransportFailed` response. URL percent-encoding of the form is not modelled; the form is the map of fields before encoding, and `url.Values` holds one value per key.
- MD5 is the `md5` parameter. Only its preimage and the hex rendering of its result are modelled.
- The `HTTP` field of the client and its 10-second timeout are not modelled, because `sendRequest` builds a fresh `http.Client{}` and never reads them.
- Plain response records (`Country`, `Restaurant`, `RestaurantData`, …) are decoded by a decoder passed as a parameter. The records keep only the fields the operations touch plus a few plain ones. `any` / `interface{}` values stay opaque JSON.
- Floating-point fields (`Rt.Cr`, `Rt.Prr` and others) are not modelled.
- The debug `fmt.Printf` output in `Products.UnmarshalJSON` has no observable effect on results and is omitted.
- The integration tests in takeawayapi_test.go other than the time round trip call the live service and are not modelled.
- Time zones: every time is UTC, as `time.Parse` returns for this layout.
- The `Review` time string is not parsed, because `GetRestaurantReviews` does not parse it either.
- Raw bytes of a response body are either parsed JSON or "malformed". JSON syntax itself is not modelled.
- TakeAwayTime.ParseTime: accepts only the canonical 19-character form. Go's `time.Parse` also takes a one-digit hour, a run of spaces where the layout has one, and fractional seconds after the seconds. Inputs using these leniencies are rejected here where Go accepts them.
- Fields.DecodeXtr: Go's `[]interface{}` fallback fails on a number literal beyond the float64 range inside the array; the model accepts every array.
- Products.DecodeProducts: on failure Go decodes into structs whose slices may already hold elements from an earlier duplicate key, and reports the first type error it met. The model decodes every slice afresh and stops at the first error. Only the identity of the reported error, and contents after duplicate keys of slice type, can differ.
- TakeAwayClient.SetHeaders: Go stores the caller's map itself (takeawayapi.go:137), so later writes through the caller's reference change the client's headers, and a later `SetHeader` or `AppendHeaders` writes into the caller's map. The model's maps are values, so this aliasing is not modelled. A nil map stored by `SetHeaders(nil)` makes a later `SetHeader` panic in Go. The model has no nil maps, so it treats nil as empty.
- TakeAwayClient.AppendHeaders: after `SetHeaders(nil)`, appending a non-empty map panics in Go (takeawayapi.go:143, a write to a nil map). The model treats the nil map as empty and merges.
- Fields.DecodeAll: when an object repeats the `id` key, Go decodes each later `id` array into the slice the earlier one left behind. A null element there keeps the string already at that index, and that includes strings beyond the slice's length that remain within its capacity. The model decodes the last `id` array afresh and reads null as "". For example, `{"id":["a"],"id":[null]}` gives `["a"]` in Go and `[""]` here. The results agree whenever `id` occurs once, or the last `id` array has no null element. Modelling the reuse exactly would require the Go runtime's slice-growth policy.
- Fields.DecodeAdd: the same divergence as `Fields.DecodeAll` on repeated `id` keys whose later array holds null.
- Fields.IdObjectDecodes: states the last `id` list, which is Go's result only under the conditions given for `Fields.DecodeAll`.
- Headers.CustomHeadersWin: the override result is proved only when no two custom keys canonicalise to the same header. With colliding keys the Go result depends on map iteration order, which the model leaves as a parameter. For that case, `Headers.ApplyCustomLastWriter` states which value wins for a given order.
