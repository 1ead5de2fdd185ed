/**
 * The cookie normalisation of HttpProxy.Options.parseCookies: every cookie of the options becomes
 * a store cookie with the same name and value, a default domain and a default path.
 */
module Cookies {
  import opened Types

  /** Constants.DEFAULT_COOKIE_DOMAIN, the domain given to a cookie that has none. */
  const DefaultCookieDomain := ".toien.com"
  const DefaultPath := "/"
  /** ClientCookie.DOMAIN_ATTR and ClientCookie.PATH_ATTR, the attribute names the store cookie records. */
  const DomainAttr := "domain"
  const PathAttr := "path"

  /** A cookie as the caller hands it over; a null domain or path is None. */
  datatype Cookie = Cookie(name: string, value: string, domain: Option<string>, path: Option<string>)

  /** A BasicClientCookie placed in the request's cookie store. */
  datatype ClientCookie = ClientCookie(
    name: string, value: string, domain: string, path: string, attributes: map<string, string>)

  /** An ASCII upper-case letter. */
  predicate IsUpper(ch: char) {
    'A' <= ch <= 'Z'
  }

  /**
   * BasicClientCookie.setDomain stores the domain lower-cased; the domain attribute keeps the
   * text as given.
   */
  function LowerAscii(s: string): (r: string)
    ensures |r| == |s|
    ensures forall i :: 0 <= i < |r| ==> !IsUpper(r[i])
    ensures forall i :: 0 <= i < |s| && !IsUpper(s[i]) ==> r[i] == s[i]
    ensures forall i :: 0 <= i < |s| && IsUpper(s[i]) ==> r[i] == (s[i] as int + 32) as char
  {
    seq(|s|, i requires 0 <= i < |s| => if IsUpper(s[i]) then (s[i] as int + 32) as char else s[i])
  }

  /** The store cookie built for one input cookie. */
  function Normalize(c: Cookie): (r: ClientCookie)
    ensures NormalizedFrom(r, c)
  {
    var domain := if c.domain.None? then DefaultCookieDomain else c.domain.value;
    var path := if c.path.None? then DefaultPath else c.path.value;
    ClientCookie(c.name, c.value, LowerAscii(domain), path, map[DomainAttr := domain, PathAttr := path])
  }

  /**
   * The store cookie keeps the name and value and fills a missing domain or path with its
   * default; its domain is the lower-cased one and its attributes record the domain and path as set.
   */
  predicate NormalizedFrom(r: ClientCookie, c: Cookie) {
    && r.name == c.name && r.value == c.value
    && r.domain == LowerAscii(c.domain.GetOr(DefaultCookieDomain))
    && r.path == c.path.GetOr(DefaultPath)
    && DomainAttr in r.attributes && r.attributes[DomainAttr] == c.domain.GetOr(DefaultCookieDomain)
    && PathAttr in r.attributes && r.attributes[PathAttr] == r.path
  }

  /** A cookie without a domain gets the default domain, which lower-casing leaves as it is. */
  lemma DefaultDomainIsLower()
    ensures LowerAscii(DefaultCookieDomain) == DefaultCookieDomain
  {
    var r := LowerAscii(DefaultCookieDomain);
    forall i | 0 <= i < |r|
      ensures r[i] == DefaultCookieDomain[i]
    {
      assert !IsUpper(DefaultCookieDomain[i]);
    }
  }

  /** A mixed-case domain is lower-cased in the cookie and kept verbatim in its domain attribute. */
  lemma MixedCaseDomainExample()
    ensures var r := Normalize(Cookie("sid", "1", Some("Example.COM"), None));
      r.domain == "example.com" && r.attributes[DomainAttr] == "Example.COM" && r.path == "/"
  {
    var r := LowerAscii("Example.COM");
    assert r[0] == 'e' && r[8] == 'c' && r[9] == 'o' && r[10] == 'm';
    assert r == "example.com";
  }

  /** The cookies added to the fresh store, one per input cookie, in input order. */
  function NormalizedStore(cookies: seq<Cookie>): (r: seq<ClientCookie>)
    ensures |r| == |cookies|
    decreases |cookies|
  {
    if cookies == [] then []
    else NormalizedStore(cookies[..|cookies| - 1]) + [Normalize(cookies[|cookies| - 1])]
  }

  /** The i-th store cookie is normalised from the i-th input cookie, and there is one per input. */
  lemma {:induction false} NormalizedStoreAt(cookies: seq<Cookie>, i: int)
    requires 0 <= i < |cookies|
    ensures |NormalizedStore(cookies)| == |cookies|
    ensures NormalizedFrom(NormalizedStore(cookies)[i], cookies[i])
    decreases |cookies|
  {
    var init := cookies[..|cookies| - 1];
    NormalizedStoreLength(init);
    if i < |cookies| - 1 {
      NormalizedStoreAt(init, i);
    }
  }

  /** One store cookie per input cookie. */
  lemma {:induction false} NormalizedStoreLength(cookies: seq<Cookie>)
    ensures |NormalizedStore(cookies)| == |cookies|
    decreases |cookies|
  {
    if cookies != [] {
      NormalizedStoreLength(cookies[..|cookies| - 1]);
    }
  }

  /** The loop of parseCookies: builds a fresh store holding one normalised cookie per input. */
  method NormalizeCookies(cookies: seq<Cookie>) returns (store: seq<ClientCookie>)
    ensures store == NormalizedStore(cookies)
    ensures |store| == |cookies|
    ensures forall i :: 0 <= i < |store| ==> NormalizedFrom(store[i], cookies[i])
  {
    store := [];
    var i := 0;
    while i < |cookies|
      invariant 0 <= i <= |cookies|
      invariant store == NormalizedStore(cookies[..i])
    {
      var cookie := cookies[i];
      var domain, path;
      if cookie.domain.None? {
        domain := DefaultCookieDomain;
      } else {
        domain := cookie.domain.value;
      }
      if cookie.path.None? {
        path := DefaultPath;
      } else {
        path := cookie.path.value;
      }
      var clientCookie := ClientCookie(cookie.name, cookie.value, LowerAscii(domain), path,
                                       map[DomainAttr := domain, PathAttr := path]);
      assert cookies[..i + 1][..i] == cookies[..i];
      store := store + [clientCookie];
      i := i + 1;
    }
    assert cookies[..i] == cookies;
    NormalizedStoreLength(cookies);
    forall j | 0 <= j < |store|
      ensures NormalizedFrom(store[j], cookies[j])
    {
      NormalizedStoreAt(cookies, j);
    }
  }
}
