/**
 * The POST body selection of HttpProxy.Options.parseParameters(HttpPost): the configured content
 * type decides between a JSON entity, a form-urlencoded entity built from name/value pairs, and
 * no entity at all.
 */
module PostBody {
  import opened Types

  const ApplicationJson := "application/json"
  const ApplicationFormUrlencoded := "application/x-www-form-urlencoded"
  const Charset := "UTF-8"
  const ContentTypeHeader := "Content-Type"

  /**
   * A request body. The JSON text and the percent-encoded form text are produced by library
   * serialisers; the model keeps what they are built from.
   */
  datatype Entity =
    | JsonEntity(fields: map<string, Value>)
    | FormEntity(pairs: seq<(string, string)>, charset: string)

  /** One `(key, String.valueOf(value))` pair per iterated entry, in iteration order. */
  function FormPairs(params: map<string, Value>, order: seq<string>): (r: seq<(string, string)>)
    requires forall k :: k in order ==> k in params
    ensures |r| == |order|
    decreases |order|
  {
    if order == [] then []
    else
      var key := order[|order| - 1];
      FormPairs(params, order[..|order| - 1]) + [(key, ValueOf(params[key]))]
  }

  /** The entity set on the request for non-empty parameters, or None when none is set. */
  function PostEntity(contentType: string, params: map<string, Value>, order: seq<string>): (e: Option<Entity>)
    requires forall k :: k in order ==> k in params
    ensures e.Some? <==> contentType == ApplicationJson || contentType == ApplicationFormUrlencoded
    ensures contentType == ApplicationJson ==> e == Some(JsonEntity(params))
    ensures contentType == ApplicationFormUrlencoded ==> e == Some(FormEntity(FormPairs(params, order), Charset))
  {
    if contentType == ApplicationJson then Some(JsonEntity(params))
    else if contentType == ApplicationFormUrlencoded then Some(FormEntity(FormPairs(params, order), Charset))
    else None
  }

  /** Reading a list of pairs back as a form: each key maps to the value of its last pair. */
  function PairsToMap(pairs: seq<(string, string)>): (r: map<string, string>)
    decreases |pairs|
  {
    if pairs == [] then map[]
    else
      var last := pairs[|pairs| - 1];
      PairsToMap(pairs[..|pairs| - 1])[last.0 := last.1]
  }

  /** Each parameter's value as String.valueOf renders it. */
  function StringValues(params: map<string, Value>): (r: map<string, string>)
    ensures r.Keys == params.Keys
  {
    map k | k in params :: ValueOf(params[k])
  }

  /** The i-th pair is the i-th iterated key with its rendered value; there is one pair per key. */
  lemma {:induction false} FormPairsAt(params: map<string, Value>, order: seq<string>, i: int)
    requires forall k :: k in order ==> k in params
    requires 0 <= i < |order|
    ensures |FormPairs(params, order)| == |order|
    ensures FormPairs(params, order)[i] == (order[i], ValueOf(params[order[i]]))
    decreases |order|
  {
    var init := order[..|order| - 1];
    FormPairsLength(params, init);
    if i < |order| - 1 {
      FormPairsAt(params, init, i);
    }
  }

  /** One pair per iterated key. */
  lemma {:induction false} FormPairsLength(params: map<string, Value>, order: seq<string>)
    requires forall k :: k in order ==> k in params
    ensures |FormPairs(params, order)| == |order|
    decreases |order|
  {
    if order != [] {
      FormPairsLength(params, order[..|order| - 1]);
    }
  }

  /** Reading the pairs of a prefix of the iteration back gives the rendered values of those keys. */
  lemma {:induction false} FormPairsReadBack(params: map<string, Value>, order: seq<string>)
    requires forall k :: k in order ==> k in params
    ensures PairsToMap(FormPairs(params, order)) == map k | k in order :: ValueOf(params[k])
    decreases |order|
  {
    if order != [] {
      var init := order[..|order| - 1];
      var key := order[|order| - 1];
      FormPairsReadBack(params, init);
      var pairs := FormPairs(params, order);
      assert pairs[..|pairs| - 1] == FormPairs(params, init);
      assert forall k :: k in order <==> k in init || k == key;
    }
  }

  /**
   * Round trip of the form body: reading its pairs back reconstructs every parameter with its
   * String.valueOf rendering, whatever the iteration order.
   */
  lemma FormRoundTrip(params: map<string, Value>, order: seq<string>)
    requires IsEnumeration(order, params)
    ensures PairsToMap(FormPairs(params, order)) == StringValues(params)
  {
    FormPairsReadBack(params, order);
  }

  /** The loop of the form branch: one BasicNameValuePair per map entry. */
  method BuildFormPairs(params: map<string, Value>, order: seq<string>) returns (pairs: seq<(string, string)>)
    requires forall k :: k in order ==> k in params
    ensures pairs == FormPairs(params, order)
  {
    pairs := [];
    var i := 0;
    while i < |order|
      invariant 0 <= i <= |order|
      invariant pairs == FormPairs(params, order[..i])
    {
      var key := order[i];
      var value := ValueOf(params[key]);
      assert order[..i + 1][..i] == order[..i];
      pairs := pairs + [(key, value)];
      i := i + 1;
    }
    assert order[..i] == order;
  }
}
