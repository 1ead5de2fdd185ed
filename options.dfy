/**
 * HttpProxy.Options: the mutable per-request builder and the parse steps that copy its contents
 * onto a request and its client context.
 */
module HttpProxy {
  import opened Types
  import opened QueryMerge
  import opened PostBody
  import opened Cookies

  /** The outcome of parse: Preconditions.checkNotNull on the URI throws before anything is touched. */
  datatype Outcome = Done | NullUri

  /** The parts of an HttpGet / HttpPost request that the builder sets. */
  class Request {
    var uri: Option<string>
    var headers: map<string, string>
    var entity: Option<Entity>

    /** A request as `new HttpGet()` / `new HttpPost()` creates it. */
    constructor ()
      ensures uri == None && headers == map[] && entity == None
    {
      uri, headers, entity := None, map[], None;
    }

    method SetUri(u: string)
      modifies this`uri
      ensures uri == Some(u)
    {
      uri := Some(u);
    }

    /** setHeader overwrites the header of the same name or adds it. */
    method SetHeader(name: string, value: string)
      modifies this`headers
      ensures headers == old(headers)[name := value]
    {
      headers := headers[name := value];
    }

    method SetEntity(e: Entity)
      modifies this`entity
      ensures entity == Some(e)
    {
      entity := Some(e);
    }
  }

  /** An HttpClientContext; only its cookie store is modelled. */
  class HttpClientContext {
    var cookieStore: Option<seq<ClientCookie>>

    constructor ()
      ensures cookieStore == None
    {
      cookieStore := None;
    }
  }

  class Options {
    var uri: Option<string>
    var parameters: map<string, Value>
    var contentType: string
    var headers: map<string, string>
    var cookies: seq<Cookie>
    var requestContext: HttpClientContext?

    /** A fresh builder: no URI, no parameters, headers or cookies, JSON content type, no context. */
    constructor ()
      ensures uri == None && parameters == map[] && contentType == ApplicationJson
      ensures headers == map[] && cookies == [] && requestContext == null
    {
      uri := None;
      parameters := map[];
      contentType := ApplicationJson;
      headers := map[];
      cookies := [];
      requestContext := null;
    }

    method AddCookie(cookie: Cookie)
      modifies this`cookies
      ensures cookies == old(cookies) + [cookie]
    {
      cookies := cookies + [cookie];
    }

    method AddCookies(more: seq<Cookie>)
      modifies this`cookies
      ensures cookies == old(cookies) + more
    {
      cookies := cookies + more;
    }

    /** A put: the value for `name` is replaced, every other header is kept. */
    method AddHeader(name: string, value: string)
      modifies this`headers
      ensures headers == old(headers)[name := value]
      ensures forall n :: n in old(headers) && n != name ==> n in headers && headers[n] == old(headers)[n]
    {
      headers := headers[name := value];
    }

    method SetCookies(replacement: seq<Cookie>)
      modifies this`cookies
      ensures cookies == replacement
    {
      cookies := replacement;
    }

    method SetHeaders(replacement: map<string, string>)
      modifies this`headers
      ensures headers == replacement
    {
      headers := replacement;
    }

    method SetUri(u: Option<string>)
      modifies this`uri
      ensures uri == u
    {
      uri := u;
    }

    /** A put: the value for `name` is replaced, every other parameter is kept. */
    method AddParameter(name: string, value: Value)
      modifies this`parameters
      ensures parameters == old(parameters)[name := value]
      ensures forall n :: n in old(parameters) && n != name ==> n in parameters && parameters[n] == old(parameters)[n]
    {
      parameters := parameters[name := value];
    }

    /** putAll: the given entries win over existing ones for the same names. */
    method AddParameters(more: map<string, Value>)
      modifies this`parameters
      ensures parameters == old(parameters) + more
    {
      parameters := parameters + more;
    }

    method SetContentType(t: string)
      modifies this`contentType
      ensures contentType == t
    {
      contentType := t;
    }

    /**
     * parseCookies: with no cookies nothing happens; otherwise the context is created if it is
     * null, and a fresh store with one normalised cookie per input replaces its cookie store.
     */
    method ParseCookies()
      modifies this`requestContext, requestContext
      ensures cookies == [] ==> requestContext == old(requestContext)
      ensures cookies == [] && requestContext != null ==> requestContext.cookieStore == old(requestContext.cookieStore)
      ensures cookies != [] ==> requestContext != null
      ensures cookies != [] && old(requestContext) != null ==> requestContext == old(requestContext)
      ensures cookies != [] && old(requestContext) == null ==> fresh(requestContext)
      ensures cookies != [] ==> requestContext.cookieStore == Some(NormalizedStore(cookies))
    {
      if cookies == [] {
        return;
      }
      if requestContext == null {
        requestContext := new HttpClientContext();
      }
      var store := NormalizeCookies(cookies);
      requestContext.cookieStore := Some(store);
    }

    /**
     * parseBasics: fails on a null URI before touching anything; otherwise sets the request URI,
     * sets every header verbatim (in whatever order the map yields them) and applies the cookies.
     */
    method ParseBasics(request: Request) returns (outcome: Outcome)
      modifies request`uri, request`headers, this`requestContext, requestContext
      ensures outcome == NullUri <==> uri.None?
      ensures uri.None? ==> request.uri == old(request.uri) && request.headers == old(request.headers)
      ensures uri.None? ==> requestContext == old(requestContext)
      ensures uri.None? && requestContext != null ==> requestContext.cookieStore == old(requestContext.cookieStore)
      ensures uri.Some? ==> request.uri == uri && request.headers == old(request.headers) + headers
      ensures uri.Some? && cookies == [] ==> requestContext == old(requestContext)
      ensures uri.Some? && cookies == [] && requestContext != null ==> requestContext.cookieStore == old(requestContext.cookieStore)
      ensures uri.Some? && cookies != [] ==> requestContext != null
      ensures uri.Some? && cookies != [] && old(requestContext) != null ==> requestContext == old(requestContext)
      ensures uri.Some? && cookies != [] && old(requestContext) == null ==> fresh(requestContext)
      ensures uri.Some? && cookies != [] ==> requestContext.cookieStore == Some(NormalizedStore(cookies))
    {
      if uri.None? {
        return NullUri;
      }
      request.SetUri(uri.value);
      var pending := headers.Keys;
      while pending != {}
        modifies request`headers
        invariant pending <= headers.Keys
        invariant request.uri == uri
        invariant request.headers == old(request.headers) + map n | n in headers.Keys - pending :: headers[n]
        decreases pending
      {
        var name :| name in pending;
        request.SetHeader(name, headers[name]);
        pending := pending - {name};
      }
      assert (map n | n in headers.Keys - {} :: headers[n]) == headers;
      ParseCookies();
      outcome := Done;
    }

    /**
     * parseParameters(HttpGet): with parameters, appends the segments that are not skipped to the
     * request URI, after `?`, directly, or after `&` when the raw query is absent, empty or not.
     */
    method ParseParametersGet(request: Request, order: seq<string>, rawQuery: Option<string>)
      requires IsEnumeration(order, parameters)
      requires parameters != map[] ==> request.uri.Some?
      modifies request`uri
      ensures parameters == map[] ==> request.uri == old(request.uri)
      ensures old(request.uri).Some? ==> request.uri == Some(MergedUri(old(request.uri).value, rawQuery, parameters, order))
    {
      if parameters == map[] {
        EnumerationHead(order, parameters);
        assert order == [];
        return;
      }
      var suffix := BuildParamBuffer(rawQuery, parameters, order);
      if |suffix| > 0 {
        var requestUri := request.uri.value;
        if rawQuery.None? {
          request.SetUri(requestUri + "?" + suffix);
        } else if rawQuery.value == "" {
          request.SetUri(requestUri + suffix);
        } else {
          request.SetUri(requestUri + "&" + suffix);
        }
      }
    }

    /**
     * parseParameters(HttpPost): with parameters, sets Content-Type to the configured type and
     * the entity the type selects; an unknown type sets the header only.
     */
    method ParseParametersPost(request: Request, order: seq<string>)
      requires IsEnumeration(order, parameters)
      modifies request`headers, request`entity
      ensures parameters == map[] ==> request.headers == old(request.headers) && request.entity == old(request.entity)
      ensures parameters != map[] ==> request.headers == old(request.headers)[ContentTypeHeader := contentType]
      ensures parameters != map[] ==>
        request.entity == match PostEntity(contentType, parameters, order)
                          case Some(e) => Some(e)
                          case None => old(request.entity)
    {
      if parameters == map[] {
        return;
      }
      request.SetHeader(ContentTypeHeader, contentType);
      if contentType == ApplicationJson {
        request.SetEntity(JsonEntity(parameters));
      } else if contentType == ApplicationFormUrlencoded {
        var pairs := BuildFormPairs(parameters, order);
        request.SetEntity(FormEntity(pairs, Charset));
      }
    }

    /** parse(HttpGet): parseBasics, then the query merge on the URI it set. */
    method ParseGet(request: Request, order: seq<string>, rawQuery: Option<string>) returns (outcome: Outcome)
      requires IsEnumeration(order, parameters)
      modifies request`uri, request`headers, this`requestContext, requestContext
      ensures outcome == NullUri <==> uri.None?
      ensures uri.None? ==> request.uri == old(request.uri) && request.headers == old(request.headers)
      ensures uri.None? ==> requestContext == old(requestContext)
      ensures uri.None? && requestContext != null ==> requestContext.cookieStore == old(requestContext.cookieStore)
      ensures uri.Some? ==> request.uri == Some(MergedUri(uri.value, rawQuery, parameters, order))
      ensures uri.Some? ==> request.headers == old(request.headers) + headers
      ensures uri.Some? && cookies == [] ==> requestContext == old(requestContext)
      ensures uri.Some? && cookies == [] && requestContext != null ==> requestContext.cookieStore == old(requestContext.cookieStore)
      ensures uri.Some? && cookies != [] ==> requestContext != null
      ensures uri.Some? && cookies != [] && old(requestContext) != null ==> requestContext == old(requestContext)
      ensures uri.Some? && cookies != [] && old(requestContext) == null ==> fresh(requestContext)
      ensures uri.Some? && cookies != [] ==> requestContext.cookieStore == Some(NormalizedStore(cookies))
    {
      outcome := ParseBasics(request);
      if outcome == NullUri {
        return;
      }
      ParseParametersGet(request, order, rawQuery);
    }

    /** parse(HttpPost): parseBasics, then the body selection; Content-Type wins over a header of that name. */
    method ParsePost(request: Request, order: seq<string>) returns (outcome: Outcome)
      requires IsEnumeration(order, parameters)
      modifies request`uri, request`headers, request`entity, this`requestContext, requestContext
      ensures outcome == NullUri <==> uri.None?
      ensures uri.None? ==> request.uri == old(request.uri) && request.headers == old(request.headers)
      ensures uri.None? ==> request.entity == old(request.entity) && requestContext == old(requestContext)
      ensures uri.None? && requestContext != null ==> requestContext.cookieStore == old(requestContext.cookieStore)
      ensures uri.Some? ==> request.uri == uri
      ensures uri.Some? && parameters == map[] ==> request.headers == old(request.headers) + headers
      ensures uri.Some? && parameters == map[] ==> request.entity == old(request.entity)
      ensures uri.Some? && parameters != map[] ==>
        request.headers == (old(request.headers) + headers)[ContentTypeHeader := contentType]
      ensures uri.Some? && parameters != map[] ==>
        request.entity == match PostEntity(contentType, parameters, order)
                          case Some(e) => Some(e)
                          case None => old(request.entity)
      ensures uri.Some? && cookies == [] ==> requestContext == old(requestContext)
      ensures uri.Some? && cookies == [] && requestContext != null ==> requestContext.cookieStore == old(requestContext.cookieStore)
      ensures uri.Some? && cookies != [] ==> requestContext != null
      ensures uri.Some? && cookies != [] && old(requestContext) != null ==> requestContext == old(requestContext)
      ensures uri.Some? && cookies != [] && old(requestContext) == null ==> fresh(requestContext)
      ensures uri.Some? && cookies != [] ==> requestContext.cookieStore == Some(NormalizedStore(cookies))
    {
      outcome := ParseBasics(request);
      if outcome == NullUri {
        return;
      }
      ParseParametersPost(request, order);
    }
  }
}
