/**
 * The GET query merge of HttpProxy.Options.parseParameters(HttpGet): parameters are appended to
 * the request URI as `name=value` segments, skipping every name whose `name=` already occurs in
 * the URI's raw query.
 */
module QueryMerge {
  import opened Types
  import opened Strings

  /** Every name of `order` is a key of `params`. */
  predicate AllKeys(order: seq<string>, params: map<string, Value>) {
    forall k :: k in order ==> k in params
  }

  /**
   * The parameter `name` is skipped: the raw query is present, non-empty and holds `name=` as a
   * substring anywhere (so an existing `aq=` also skips `q`).
   */
  predicate Blocks(rawQuery: Option<string>, name: string): (r: bool)
    ensures r ==> rawQuery.Some? && |name| < |rawQuery.value|
  {
    rawQuery.Some? && rawQuery.value != "" && Contains(rawQuery.value, name + "=")
  }

  /** The text one parameter contributes to the query. */
  function Segment(name: string, v: Value): (r: string)
    ensures name + "=" <= r
  {
    name + "=" + ValueOf(v)
  }

  /** The names of `order` that are not skipped, in iteration order. */
  function KeptNames(rawQuery: Option<string>, order: seq<string>): (r: seq<string>)
    ensures |r| <= |order|
    decreases |order|
  {
    if order == [] then []
    else
      var name := order[|order| - 1];
      KeptNames(rawQuery, order[..|order| - 1]) + (if Blocks(rawQuery, name) then [] else [name])
  }

  /** The segments of the given names. */
  function SegmentsOf(params: map<string, Value>, names: seq<string>): (r: seq<string>)
    requires AllKeys(names, params)
    ensures |r| == |names|
    decreases |names|
  {
    if names == [] then []
    else
      var name := names[|names| - 1];
      SegmentsOf(params, names[..|names| - 1]) + [Segment(name, params[name])]
  }

  /** The segments appended to the URI. */
  function Segments(rawQuery: Option<string>, params: map<string, Value>, order: seq<string>): (r: seq<string>)
    requires AllKeys(order, params)
    ensures |r| == |KeptNames(rawQuery, order)|
  {
    KeptNamesIn(rawQuery, order);
    SegmentsOf(params, KeptNames(rawQuery, order))
  }

  /** The URI after the merge, given the URI string, its raw query and the parameters. */
  function MergedUri(uri: string, rawQuery: Option<string>, params: map<string, Value>, order: seq<string>): (r: string)
    requires AllKeys(order, params)
    ensures uri <= r
  {
    var segs := Segments(rawQuery, params, order);
    if segs == [] then uri
    else
      var suffix := Join(segs, "&");
      match rawQuery
      case None => uri + "?" + suffix
      case Some(query) => if query == "" then uri + suffix else uri + "&" + suffix
  }

  /** A kept name is one of the iterated names. */
  lemma {:induction false} KeptNamesIn(rawQuery: Option<string>, order: seq<string>)
    ensures forall k :: k in KeptNames(rawQuery, order) ==> k in order
    decreases |order|
  {
    if order != [] {
      KeptNamesIn(rawQuery, order[..|order| - 1]);
    }
  }

  /** A parameter is kept exactly when it is iterated and its `name=` is not already in the query. */
  lemma {:induction false} KeptNamesIff(rawQuery: Option<string>, order: seq<string>, k: string)
    ensures k in KeptNames(rawQuery, order) <==> k in order && !Blocks(rawQuery, k)
    decreases |order|
  {
    if order != [] {
      var init := order[..|order| - 1];
      KeptNamesIff(rawQuery, init, k);
      assert order == init + [order[|order| - 1]];
    }
  }

  /** When every key is iterated once, every kept name occurs once among the kept names. */
  lemma {:induction false} KeptNamesDistinct(rawQuery: Option<string>, order: seq<string>)
    requires forall i, j :: 0 <= i < j < |order| ==> order[i] != order[j]
    ensures var kept := KeptNames(rawQuery, order);
      forall i, j :: 0 <= i < j < |kept| ==> kept[i] != kept[j]
    decreases |order|
  {
    if order != [] {
      var init := order[..|order| - 1];
      var name := order[|order| - 1];
      KeptNamesDistinct(rawQuery, init);
      KeptNamesIff(rawQuery, init, name);
    }
  }

  /** The i-th segment is `name=value` for the i-th name. */
  lemma {:induction false} SegmentsOfAt(params: map<string, Value>, names: seq<string>, i: int)
    requires AllKeys(names, params)
    requires 0 <= i < |names|
    ensures |SegmentsOf(params, names)| == |names|
    ensures SegmentsOf(params, names)[i] == Segment(names[i], params[names[i]])
    decreases |names|
  {
    var init := names[..|names| - 1];
    SegmentsOfLength(params, init);
    if i < |names| - 1 {
      SegmentsOfAt(params, init, i);
    }
  }

  /** One segment per name. */
  lemma {:induction false} SegmentsOfLength(params: map<string, Value>, names: seq<string>)
    requires AllKeys(names, params)
    ensures |SegmentsOf(params, names)| == |names|
    decreases |names|
  {
    if names != [] {
      SegmentsOfLength(params, names[..|names| - 1]);
    }
  }

  /** A joined list of segments is empty exactly when there are no segments. */
  lemma JoinSegmentsEmpty(params: map<string, Value>, names: seq<string>)
    requires AllKeys(names, params)
    ensures Join(SegmentsOf(params, names), "&") == "" <==> names == []
  {
    if names != [] {
      var segs := SegmentsOf(params, names);
      SegmentsOfAt(params, names, 0);
      JoinContainsPart(segs, "&", 0);
      assert |segs[0]| > 0;
    }
  }

  /** The URI is left unchanged exactly when every parameter is skipped. */
  lemma MergedUnchangedIff(uri: string, rawQuery: Option<string>, params: map<string, Value>, order: seq<string>)
    requires AllKeys(order, params)
    ensures MergedUri(uri, rawQuery, params, order) == uri <==> forall k :: k in order ==> Blocks(rawQuery, k)
  {
    var kept := KeptNames(rawQuery, order);
    KeptNamesIn(rawQuery, order);
    SegmentsOfLength(params, kept);
    JoinSegmentsEmpty(params, kept);
    forall k | k in order
      ensures k in kept <==> !Blocks(rawQuery, k)
    {
      KeptNamesIff(rawQuery, order, k);
    }
    if kept != [] {
      assert kept[0] in kept;
      KeptNamesIn(rawQuery, order);
      assert |MergedUri(uri, rawQuery, params, order)| > |uri|;
    }
  }

  /**
   * No parameter is lost: a parameter that is not skipped appears as `name=value` in the merged
   * URI, and a skipped one contributes no segment.
   */
  lemma MergeKeepsParameter(uri: string, rawQuery: Option<string>, params: map<string, Value>, order: seq<string>, k: string)
    requires AllKeys(order, params)
    requires k in order
    ensures !Blocks(rawQuery, k) ==> Contains(MergedUri(uri, rawQuery, params, order), Segment(k, params[k]))
    ensures Blocks(rawQuery, k) ==> k !in KeptNames(rawQuery, order)
  {
    KeptNamesIff(rawQuery, order, k);
    if !Blocks(rawQuery, k) {
      var kept := KeptNames(rawQuery, order);
      KeptNamesIn(rawQuery, order);
      var i :| 0 <= i < |kept| && kept[i] == k;
      SegmentsOfAt(params, kept, i);
      var segs := SegmentsOf(params, kept);
      var suffix := Join(segs, "&");
      JoinContainsPart(segs, "&", i);
      var r := MergedUri(uri, rawQuery, params, order);
      match rawQuery
      case None =>
        ContainsConcatRight(uri + "?", suffix, segs[i]);
        assert r == (uri + "?") + suffix;
      case Some(query) =>
        if query == "" {
          ContainsConcatRight(uri, suffix, segs[i]);
        } else {
          ContainsConcatRight(uri + "&", suffix, segs[i]);
          assert r == (uri + "&") + suffix;
        }
    }
  }

  /** Iterating one more name extends the kept names by that name unless it is skipped. */
  lemma KeptNamesStep(rawQuery: Option<string>, order: seq<string>, i: int)
    requires 0 <= i < |order|
    ensures forall k :: k in KeptNames(rawQuery, order[..i + 1]) ==> k in order
    ensures KeptNames(rawQuery, order[..i + 1])
         == KeptNames(rawQuery, order[..i]) + (if Blocks(rawQuery, order[i]) then [] else [order[i]])
  {
    assert order[..i + 1][..i] == order[..i];
    KeptNamesIn(rawQuery, order[..i + 1]);
  }

  /** Keeping one more name appends its segment and a separator to the buffer. */
  lemma TerminatedSegmentsStep(params: map<string, Value>, names: seq<string>, name: string)
    requires AllKeys(names, params) && name in params
    ensures AllKeys(names + [name], params)
    ensures Terminated(SegmentsOf(params, names + [name]), "&")
         == Terminated(SegmentsOf(params, names), "&") + Segment(name, params[name]) + "&"
  {
    var after := names + [name];
    assert after[..|after| - 1] == names;
    var segs := SegmentsOf(params, after);
    assert segs == SegmentsOf(params, names) + [Segment(name, params[name])];
    assert segs[..|segs| - 1] == SegmentsOf(params, names);
  }

  /** One iteration of the loop: a skipped name leaves the buffer alone, a kept one appends its segment. */
  lemma BufferStep(rawQuery: Option<string>, params: map<string, Value>, order: seq<string>, i: int, kept: seq<string>)
    requires AllKeys(order, params) && 0 <= i < |order|
    requires kept == KeptNames(rawQuery, order[..i]) && AllKeys(kept, params)
    ensures Blocks(rawQuery, order[i]) ==> KeptNames(rawQuery, order[..i + 1]) == kept
    ensures !Blocks(rawQuery, order[i]) ==>
      && KeptNames(rawQuery, order[..i + 1]) == kept + [order[i]]
      && AllKeys(kept + [order[i]], params)
      && Terminated(SegmentsOf(params, kept + [order[i]]), "&")
         == Terminated(SegmentsOf(params, kept), "&") + Segment(order[i], params[order[i]]) + "&"
  {
    KeptNamesStep(rawQuery, order, i);
    if !Blocks(rawQuery, order[i]) {
      TerminatedSegmentsStep(params, kept, order[i]);
    } else {
      assert kept + [] == kept;
    }
  }

  /**
   * The finished buffer holds no segment exactly when no name was kept, and otherwise it is the
   * joined segments followed by one separator.
   */
  lemma BufferFinish(params: map<string, Value>, kept: seq<string>)
    requires AllKeys(kept, params)
    ensures var buf := Terminated(SegmentsOf(params, kept), "&");
      && (SegmentsOf(params, kept) == [] <==> |buf| == 0)
      && (|buf| == 0 ==> Join(SegmentsOf(params, kept), "&") == "")
      && (|buf| > 0 ==> buf[..|buf| - 1] == Join(SegmentsOf(params, kept), "&") != "")
  {
    var segs := SegmentsOf(params, kept);
    JoinSegmentsEmpty(params, kept);
    if segs != [] {
      TerminatedIsJoin(segs, "&");
    }
  }

  /**
   * The loop of parseParameters(HttpGet): appends `name=value&` for every parameter that is not
   * skipped, then deletes the final `&` when the buffer is non-empty.
   */
  method BuildParamBuffer(rawQuery: Option<string>, params: map<string, Value>, order: seq<string>)
    returns (suffix: string)
    requires AllKeys(order, params)
    ensures suffix == Join(Segments(rawQuery, params, order), "&")
    ensures suffix == "" <==> Segments(rawQuery, params, order) == []
  {
    var buf := "";
    ghost var kept: seq<string> := [];
    for i := 0 to |order|
      invariant kept == KeptNames(rawQuery, order[..i])
      invariant AllKeys(kept, params)
      invariant buf == Terminated(SegmentsOf(params, kept), "&")
    {
      var name := order[i];
      BufferStep(rawQuery, params, order, i, kept);
      if !Blocks(rawQuery, name) {
        buf := buf + Segment(name, params[name]) + "&";
        kept := kept + [name];
      }
    }
    assert order[..|order|] == order;
    BufferFinish(params, kept);
    if |buf| > 0 {
      buf := buf[..|buf| - 1];
    }
    suffix := buf;
  }

  /** The query `q=foo` holds `q=` but not `page=`. */
  lemma FooQueryBlocks()
    ensures Blocks(Some("q=foo"), "q") && !Blocks(Some("q=foo"), "page")
  {
    assert Contains("q=foo", "q=");
    assert "q=foo"[..5][0] != "page="[0];
    assert "q=foo"[1..] == "=foo";
  }

  /** Once only `page` is kept, the search URI gets `&page=2`. */
  lemma SearchMerge(order: seq<string>)
    requires AllKeys(order, map["q" := Obj("bar"), "page" := Obj("2")])
    requires KeptNames(Some("q=foo"), order) == ["page"]
    ensures MergedUri("http://example.com/search?q=foo", Some("q=foo"), map["q" := Obj("bar"), "page" := Obj("2")], order)
         == "http://example.com/search?q=foo&page=2"
  {
    var params := map["q" := Obj("bar"), "page" := Obj("2")];
    assert ["page"][..0] == [];
    assert params["page"] == Obj("2");
    assert Segment("page", Obj("2")) == "page=2";
    assert SegmentsOf(params, ["page"]) == SegmentsOf(params, []) + ["page=2"];
    assert Join(["page=2"], "&") == "page=2";
  }

  /** Against the query `q=foo` only `page` is kept, in either iteration order. */
  lemma SearchKept()
    ensures KeptNames(Some("q=foo"), ["q", "page"]) == ["page"]
    ensures KeptNames(Some("q=foo"), ["page", "q"]) == ["page"]
  {
    FooQueryBlocks();
    assert ["q", "page"][..1] == ["q"];
    assert ["page", "q"][..1] == ["page"];
  }

  /** An existing `q=foo` keeps `q` from being added again, whatever the iteration order. */
  lemma SearchExample()
    ensures var params := map["q" := Obj("bar"), "page" := Obj("2")];
      && MergedUri("http://example.com/search?q=foo", Some("q=foo"), params, ["q", "page"])
           == "http://example.com/search?q=foo&page=2"
      && MergedUri("http://example.com/search?q=foo", Some("q=foo"), params, ["page", "q"])
           == "http://example.com/search?q=foo&page=2"
  {
    SearchKept();
    SearchMerge(["q", "page"]);
    SearchMerge(["page", "q"]);
  }

  /** With a null or an empty raw query no parameter is skipped: every name is kept, in iteration order. */
  lemma {:induction false} NoQueryKeepsAll(order: seq<string>)
    ensures KeptNames(None, order) == order
    ensures KeptNames(Some(""), order) == order
    decreases |order|
  {
    if order != [] {
      NoQueryKeepsAll(order[..|order| - 1]);
      assert order[..|order| - 1] + [order[|order| - 1]] == order;
    }
  }

  /**
   * A URI whose raw query is null becomes `uri?k1=v1&k2=v2...`, and one whose raw query is empty
   * becomes `uri` directly followed by the segments, with every parameter in iteration order.
   */
  lemma NoQueryMerge(uri: string, params: map<string, Value>, order: seq<string>)
    requires AllKeys(order, params)
    requires order != []
    ensures MergedUri(uri, None, params, order) == uri + "?" + Join(SegmentsOf(params, order), "&")
    ensures MergedUri(uri, Some(""), params, order) == uri + Join(SegmentsOf(params, order), "&")
  {
    NoQueryKeepsAll(order);
  }

  /** Without a query the first segment follows `?` and the rest are joined with `&`. */
  lemma NoQueryExample()
    ensures MergedUri("http://example.com/api", None, map["a" := Obj("1"), "b" := Obj("2")], ["a", "b"])
         == "http://example.com/api?a=1&b=2"
  {
    var ab := map["a" := Obj("1"), "b" := Obj("2")];
    assert ["a", "b"][..1] == ["a"];
    assert KeptNames(None, ["a", "b"]) == ["a", "b"];
    assert ["a"][..0] == [];
    assert ab["a"] == Obj("1") && ab["b"] == Obj("2");
    assert Segment("a", Obj("1")) == "a=1";
    assert Segment("b", Obj("2")) == "b=2";
    assert SegmentsOf(ab, ["a"]) == SegmentsOf(ab, []) + ["a=1"];
    assert SegmentsOf(ab, ["a", "b"]) == SegmentsOf(ab, ["a"]) + ["b=2"];
    assert ["a=1", "b=2"][..1] == ["a=1"];
  }

  /** The substring test is loose: an existing `aq=` also skips the parameter `q`. */
  lemma LooseMatchExample()
    ensures MergedUri("http://h/p?aq=1", Some("aq=1"), map["q" := Obj("x")], ["q"]) == "http://h/p?aq=1"
  {
    assert "aq=1"[1..] == "q=1";
    assert Contains("q=1", "q=");
    assert Contains("aq=1", "q=");
    assert KeptNames(Some("aq=1"), ["q"]) == [];
  }
}
