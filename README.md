# HttpProxy.Options request building, in Dafny

`HttpProxy.Options` is the per-request builder of the `HttpProxy` HTTP utility. A caller fills it
through chained setters with a URI, parameters, headers, cookies and a content type. Before a
request is sent, `parse` copies the builder onto an `HttpGet` or `HttpPost`:

- `parseBasics` rejects a null URI, then sets the request URI and every header verbatim, and
  applies the cookies;
- `parseCookies` gives every cookie a default domain (`DEFAULT_COOKIE_DOMAIN`) and path (`/`) when
  it has none, puts them in a fresh cookie store and installs that store on the request context,
  which is created the first time it is needed;
- for GET, `parseParameters` appends the parameters to the URI as `name=value` segments joined by
  `&`, skipping every name whose `name=` already occurs anywhere in the URI's raw query, and
  attaches the segments after `?`, directly, or after `&` when the raw query is absent, empty or
  non-empty;
- for POST, `parseParameters` sets `Content-Type` to the configured type and a JSON entity, a
  form-urlencoded entity of `(key, String.valueOf(value))` pairs, or no entity for any other type.

Files:

- `types.dfy` (module `Types`): `Option` for Java nulls, parameter `Value`s with `ValueOf`
  (`String.valueOf`), and `IsEnumeration`, which says that a sequence is one iteration order of a
  map's keys.
- `strings.dfy` (module `Strings`): `Contains` (Java's `String.contains`) and its positional
  characterisation, `Join`, and the `&`-terminated buffer `Terminated`.
- `query_merge.dfy` (module `QueryMerge`): the GET merge as specification functions (`Blocks`,
  `KeptNames`, `Segments`, `MergedUri`), the buffer-building loop `BuildParamBuffer`, and the
  lemmas about the merge.
- `post_body.dfy` (module `PostBody`): content-type constants, `Entity`, `FormPairs`, the pair
  loop `BuildFormPairs` and the form round trip.
- `cookies.dfy` (module `Cookies`): input and store cookies, `Normalize`, `NormalizedStore` and
  the store-building loop `NormalizeCookies`.
- `options.dfy` (module `HttpProxy`): classes `Request` (the URI, headers and entity of
  `HttpGet`/`HttpPost`), `HttpClientContext` (its cookie store) and `Options` (the builder; its
  methods update its fields and the request in place).

`HashMap` iteration order is unspecified. The operations that iterate over `parameters` therefore
take the iteration order as an argument `order`, constrained by `IsEnumeration` to list every key
exactly once; the lemmas hold for every such order. Header application does not depend on the
order, so `ParseBasics` picks the next header with `:|` and proves that the result is the same map
whatever the choice.

Points where the code does more or less than its own comments say, or than a reader might
expect; the model follows the code:

- The comment at HttpProxy.java:234 speaks of ignoring a parameter that already exists in the
  URI, but the test at HttpProxy.java:233 is a substring test on the raw query, not a whole-name
  match: an existing `aq=` also skips `q` (`QueryMerge.LooseMatchExample`), and so does `q=`
  inside another parameter's value.
- The comment at HttpProxy.java:80 lists `APPLICATION_JSON` and `APPLICATION_FORM_URLENCODED` as
  the usable content types, but `setContentType` accepts any string. A type other than the two
  known ones sets the `Content-Type` header and no entity.
- The form round trip for POST is stated on the name/value pairs handed to the form entity; the
  percent-encoding is done by the library.
- `BasicClientCookie.setDomain` lower-cases the domain it stores, while the domain attribute set
  beside it keeps the text as given; the model keeps both (ASCII letters only).

## Model

| member | source | states |
|---|---|---|
| `Types.ValueOf` | src/main/java/com/toien/discover/hc/component/HttpProxy.java:276 | `String.valueOf`: an object gives its `toString()` text and null gives `null`; `StringBuffer.append(Object)` at line 236 renders the same way |
| `Strings.Contains` | src/main/java/com/toien/discover/hc/component/HttpProxy.java:233 | `String.contains`: a string contains itself, and never contains a longer string |
| `QueryMerge.Blocks` | src/main/java/com/toien/discover/hc/component/HttpProxy.java:233 | the skip test: it holds only for a present, non-empty raw query that is longer than the name |
| `QueryMerge.Segment` | src/main/java/com/toien/discover/hc/component/HttpProxy.java:236 | the text appended for one parameter starts with `name=` |
| `QueryMerge.KeptNames` | src/main/java/com/toien/discover/hc/component/HttpProxy.java:232-238 | the names the loop appends; never more than were iterated |
| `QueryMerge.SegmentsOf` | src/main/java/com/toien/discover/hc/component/HttpProxy.java:236 | one `name=value` segment per given name |
| `QueryMerge.Segments` | src/main/java/com/toien/discover/hc/component/HttpProxy.java:232-238 | one segment per kept name |
| `Strings.ContainsIff` | src/main/java/com/toien/discover/hc/component/HttpProxy.java:233 | the substring test used for skipping holds exactly when `name=` occurs at some position of the raw query |
| `Strings.TerminatedIsJoin` | src/main/java/com/toien/discover/hc/component/HttpProxy.java:236-241 | a non-empty buffer of `segment&` entries, with its last character deleted, is the segments joined by `&`, with no trailing `&` |
| `Strings.JoinContainsPart` | src/main/java/com/toien/discover/hc/component/HttpProxy.java:236 | every appended segment occurs in the joined suffix |
| `QueryMerge.KeptNamesIff` | src/main/java/com/toien/discover/hc/component/HttpProxy.java:232-238 | a parameter is appended exactly when the raw query is null, empty, or lacks the substring `name=`; otherwise it is skipped |
| `QueryMerge.KeptNamesDistinct` | src/main/java/com/toien/discover/hc/component/HttpProxy.java:232-238 | each appended name appears once, because each key is iterated once |
| `QueryMerge.SegmentsOfAt` | src/main/java/com/toien/discover/hc/component/HttpProxy.java:236 | there is one segment per appended name, and the i-th is `name=String.valueOf(value)` for the i-th name |
| `QueryMerge.MergedUri` | src/main/java/com/toien/discover/hc/component/HttpProxy.java:240-250 | the original URI string is always a prefix of the merged URI |
| `QueryMerge.MergedUnchangedIff` | src/main/java/com/toien/discover/hc/component/HttpProxy.java:225-251 | the URI is left unchanged exactly when every parameter is skipped, which includes the case of no parameters |
| `QueryMerge.MergeKeepsParameter` | src/main/java/com/toien/discover/hc/component/HttpProxy.java:232-250 | a parameter that is not skipped occurs as `name=value` in the merged URI; a skipped one contributes no segment, so the existing query value is never overwritten |
| `QueryMerge.FooQueryBlocks` | src/main/java/com/toien/discover/hc/component/HttpProxy.java:233 | the raw query `q=foo` skips `q` and does not skip `page` |
| `QueryMerge.SearchKept` | src/main/java/com/toien/discover/hc/component/HttpProxy.java:232-238 | against the raw query `q=foo`, the names kept from `[q, page]` and from `[page, q]` are both just `page` |
| `QueryMerge.SearchExample` | src/main/java/com/toien/discover/hc/component/HttpProxy.java:232-250 | `http://example.com/search?q=foo` with `{q: bar, page: 2}` becomes `http://example.com/search?q=foo&page=2` in either iteration order |
| `QueryMerge.NoQueryKeepsAll` | src/main/java/com/toien/discover/hc/component/HttpProxy.java:233 | with a null or empty raw query no parameter is skipped: the kept names are exactly the iterated names, in order |
| `QueryMerge.NoQueryMerge` | src/main/java/com/toien/discover/hc/component/HttpProxy.java:244-247 | for any non-empty parameters, a null raw query gives `uri?k1=v1&k2=v2...` and an empty one gives `uri` directly followed by `k1=v1&k2=v2...`, in iteration order |
| `QueryMerge.NoQueryExample` | src/main/java/com/toien/discover/hc/component/HttpProxy.java:244-245 | example: `http://example.com/api` with `{a: 1, b: 2}` iterated as `a`, `b` becomes `http://example.com/api?a=1&b=2` |
| `QueryMerge.SearchMerge` | src/main/java/com/toien/discover/hc/component/HttpProxy.java:240-250 | once only `page` is kept, the search URI `...?q=foo` becomes `...?q=foo&page=2` |
| `QueryMerge.LooseMatchExample` | src/main/java/com/toien/discover/hc/component/HttpProxy.java:233 | an existing `aq=1` skips the parameter `q` and leaves the URI unchanged |
| `QueryMerge.BuildParamBuffer` | src/main/java/com/toien/discover/hc/component/HttpProxy.java:230-241 | the loop's buffer, after deleting its last `&`, is the kept segments joined by `&`; it is empty exactly when no segment was kept |
| `PostBody.PostEntity` | src/main/java/com/toien/discover/hc/component/HttpProxy.java:266-285 | an entity is set exactly for the JSON and form content types: JSON carries the whole parameter map, and form carries exactly the pair list `FormPairs` of the iteration, with charset UTF-8 |
| `PostBody.FormPairs` | src/main/java/com/toien/discover/hc/component/HttpProxy.java:272-278 | one pair per iterated entry |
| `PostBody.StringValues` | src/main/java/com/toien/discover/hc/component/HttpProxy.java:276 | every parameter's `String.valueOf` rendering, for exactly the parameter names |
| `PostBody.FormPairsAt` | src/main/java/com/toien/discover/hc/component/HttpProxy.java:272-278 | there is one pair per map entry, and the i-th pair is the i-th iterated key with `String.valueOf` of its value |
| `PostBody.FormRoundTrip` | src/main/java/com/toien/discover/hc/component/HttpProxy.java:272-281 | reading the form pairs back as a map gives every parameter's `String.valueOf` rendering, whatever the iteration order |
| `PostBody.BuildFormPairs` | src/main/java/com/toien/discover/hc/component/HttpProxy.java:272-278 | the loop builds exactly the pair list of the form body |
| `Cookies.LowerAscii` | src/main/java/com/toien/discover/hc/component/HttpProxy.java:319-323 | the domain `setDomain` stores: same length, every upper-case ASCII letter `A`-`Z` replaced by its lower-case letter (code point plus 32), every other character unchanged, so no upper-case ASCII letter is left |
| `Cookies.Normalize` | src/main/java/com/toien/discover/hc/component/HttpProxy.java:315-332 | the store cookie for one input keeps its name and value, takes the input domain (or `DEFAULT_COOKIE_DOMAIN`) lower-cased and the input path (or `/`), and records both as given in its attributes |
| `Cookies.DefaultDomainIsLower` | src/main/java/com/toien/discover/hc/component/HttpProxy.java:319 | the default domain is unchanged by the lower-casing |
| `Cookies.MixedCaseDomainExample` | src/main/java/com/toien/discover/hc/component/HttpProxy.java:322-323 | example: domain `Example.COM` is stored as `example.com`, while the domain attribute keeps `Example.COM`; a missing path becomes `/` |
| `Cookies.NormalizedStore` | src/main/java/com/toien/discover/hc/component/HttpProxy.java:313-335 | one store cookie per input cookie, so the store has exactly as many cookies as the input |
| `Cookies.NormalizedStoreAt` | src/main/java/com/toien/discover/hc/component/HttpProxy.java:313-335 | the store holds one cookie per input in input order. Each has the input's name and value, its domain (or `DEFAULT_COOKIE_DOMAIN` when null) lower-cased and its path (or `/` when null), and its domain and path attributes record the domain and path as set |
| `Cookies.NormalizeCookies` | src/main/java/com/toien/discover/hc/component/HttpProxy.java:313-335 | the loop builds that store, and every store cookie is normalised from the input cookie at the same index |
| `HttpProxy.Request.constructor` | src/main/java/com/toien/discover/hc/component/HttpProxy.java:430 | a new request has no URI, no headers and no entity |
| `HttpProxy.Request.SetUri` | src/main/java/com/toien/discover/hc/component/HttpProxy.java:297 | the request URI becomes the given string (also used for the merged URI at lines 245-249) |
| `HttpProxy.Request.SetEntity` | src/main/java/com/toien/discover/hc/component/HttpProxy.java:269 | the request entity becomes the given one (also for the form entity at line 281) |
| `HttpProxy.HttpClientContext.constructor` | src/main/java/com/toien/discover/hc/component/HttpProxy.java:310 | a new context has no cookie store |
| `HttpProxy.Request.SetHeader` | src/main/java/com/toien/discover/hc/component/HttpProxy.java:299 | setting a header replaces any value of that name and keeps the others |
| `HttpProxy.Options.constructor` | src/main/java/com/toien/discover/hc/component/HttpProxy.java:70-104 | a new builder has no URI, no parameters, headers or cookies, no context, and content type `application/json` |
| `HttpProxy.Options.AddCookie` | src/main/java/com/toien/discover/hc/component/HttpProxy.java:114-117 | appends one cookie and keeps the existing ones in order |
| `HttpProxy.Options.AddCookies` | src/main/java/com/toien/discover/hc/component/HttpProxy.java:119-122 | appends the given cookies after the existing ones |
| `HttpProxy.Options.AddHeader` | src/main/java/com/toien/discover/hc/component/HttpProxy.java:124-127 | a put: the header's value is overwritten (last write wins), and every other header is unchanged |
| `HttpProxy.Options.SetCookies` | src/main/java/com/toien/discover/hc/component/HttpProxy.java:154-157 | replaces the whole cookie list |
| `HttpProxy.Options.SetHeaders` | src/main/java/com/toien/discover/hc/component/HttpProxy.java:159-162 | replaces the whole header map |
| `HttpProxy.Options.SetUri` | src/main/java/com/toien/discover/hc/component/HttpProxy.java:179-182 | sets the URI, possibly to null |
| `HttpProxy.Options.AddParameter` | src/main/java/com/toien/discover/hc/component/HttpProxy.java:184-187 | a put: the parameter's value is overwritten (last write wins), and every other parameter is unchanged |
| `HttpProxy.Options.AddParameters` | src/main/java/com/toien/discover/hc/component/HttpProxy.java:189-192 | putAll: the given entries win over existing ones of the same name, and all other entries are kept |
| `HttpProxy.Options.SetContentType` | src/main/java/com/toien/discover/hc/component/HttpProxy.java:344-347 | sets the content type used for POST bodies |
| `HttpProxy.Options.ParseCookies` | src/main/java/com/toien/discover/hc/component/HttpProxy.java:304-338 | with no cookies, nothing changes. Otherwise the context is created only when it was null (else the same context is kept), and its store is replaced by the normalised store |
| `HttpProxy.Options.ParseBasics` | src/main/java/com/toien/discover/hc/component/HttpProxy.java:294-302 | a null URI fails before the request URI, headers or context are touched. Otherwise the request gets the URI, every header verbatim over its existing ones, and the cookie store |
| `HttpProxy.Options.ParseParametersGet` | src/main/java/com/toien/discover/hc/component/HttpProxy.java:224-252 | with no parameters the URI is unchanged; otherwise the request URI becomes the merged URI |
| `HttpProxy.Options.ParseParametersPost` | src/main/java/com/toien/discover/hc/component/HttpProxy.java:259-286 | with no parameters there is no header and no entity change. Otherwise `Content-Type` is the configured type, and the entity is the one that type selects, or is left as it was for any other type |
| `HttpProxy.Options.ParseGet` | src/main/java/com/toien/discover/hc/component/HttpProxy.java:204-207 | fails exactly on a null URI, with nothing touched; otherwise the request URI is the merged URI, and the headers and cookies are applied |
| `HttpProxy.Options.ParsePost` | src/main/java/com/toien/discover/hc/component/HttpProxy.java:214-217 | fails exactly on a null URI, with nothing touched. Otherwise the body is selected after the headers are applied, so the configured `Content-Type` wins over a header of that name |

## Left out

- The static pooled `CLIENT`, its timeouts, pool sizes and the unused forward proxy
  (HttpProxy.java:353-403): library configuration and no logic.
- `doExecute`, `get` and `post` (HttpProxy.java:407-475): network I/O, stream reading, the
  unchecked callback cast, and catch-and-log with a null result. Their `finally` blocks consume a
  variable that is always null, so no release obligation is modelled.
- `responseType`, `callback`, their getters and setters, `toString` and `getRequestContext`
  (HttpProxy.java:94-112, 129-131, 141-143, 149-152, 164-177, 194-197, 340-342): they are used
  only by execution or logging. The getters `getCookies`, `getHeaders` and `getUri`
  (HttpProxy.java:133-147), which `parseBasics` and `parseCookies` call, are field reads.
- JSON serialisation with `JsonUtil.toJson`: `JsonUtil` is not part of this model. The JSON entity
  carries the parameter map it is built from, with each value reduced to its `toString` text
  (`Value`), so JSON value types are not modelled: the Integer `1` and the String `"1"` are the
  same `Value`, although `toJson` renders them as `1` and `"1"`.
- UTF-8 percent-encoding inside `UrlEncodedFormEntity`, and its `UnsupportedEncodingException`
  branch, which cannot be taken for UTF-8. The form entity carries its pairs and charset.
- `URI.create` and `getRawQuery`: URI parsing and the `IllegalArgumentException` for a malformed
  URI (in `parseBasics` or after the merge) belong to the Java library. The raw query of the request
  URI is an argument of `ParseGet` / `ParseParametersGet`: `None` for null, `Some("")` for empty.
  The URI's `toString()` is taken to be the string it was created from.
- `HashMap` iteration order: it is an argument (`order`), and no particular order is claimed.
- Java nulls in positions the builder never checks are not modelled: a null parameter name, a null
  header name or value, a null content type, a null cookie name or value, and null lists or maps
  passed to the bulk setters. A null parameter value is modelled, rendered as `null`.
- `setCookies` / `setHeaders` keep the caller's collection by reference, and `getCookies` /
  `getHeaders` hand out the live list and map, so changes made through either side show through
  on the other. The model copies the value.
- Header names in `setHeader` are compared case-insensitively by the library. The model keeps
  headers in a map keyed by exact name.
- `BasicCookieStore` replaces an equivalent cookie (same name, domain and path) on `addCookie` and
  returns its cookies sorted. The model's store is the sequence of cookies passed to `addCookie`,
  in input order.
- `Cookies.LowerAscii`: `setDomain` lower-cases with `Locale.ROOT`, which also maps non-ASCII
  letters; the model lower-cases ASCII letters only.
- `HttpGet` and `HttpPost` are one `Request` class. GET never touches its entity.
- `Constants` is not part of this model. `DEFAULT_COOKIE_DOMAIN` is `.toien.com`, as the comment
  at HttpProxy.java:318 says.
- File-upload entry points: the source has none.
