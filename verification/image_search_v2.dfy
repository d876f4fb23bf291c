/** `ImageSearchV2.ts`: the product search by picture, a form POST to
    `/sync` whose search settings travel as one JSON text, `param0`. */
module ImageSearchV2 {
  import opened Wrappers
  import opened Record
  import opened KeyOrder
  import opened KeySort
  import opened Canonical
  import opened Signer
  import opened Js
  import opened Request
  import JsonParse

  const Method: string := "aliexpress.ds.image.searchV2"

  /** `config.imageSearchParams.param0`. */
  datatype ImageQuery = ImageQuery(
    searchType: string, imageBase64: string, currency: string, lang: string, sortType: string,
    sortOrder: string, shipTo: string)

  /** The object `param0`, with its properties in declared order. */
  function Param0(q: ImageQuery): Value
  {
    JObject([("search_type", JString(q.searchType)), ("image_base64", JString(q.imageBase64)),
             ("currency", JString(q.currency)), ("lang", JString(q.lang)), ("sort_type", JString(q.sortType)),
             ("sort_order", JString(q.sortOrder)), ("ship_to", JString(q.shipTo))])
  }

  /** `preprocessParams`: the method, `param0` as JSON text, the timestamp.
      The JSON text gives back every setting. */
  function Preprocess(q: ImageQuery, now: nat): (ps: ParamSet)
    ensures Keys(ps) == ["method", "param0", "timestamp"] && DistinctKeys(ps)
    ensures JsonParse.Parse(ps[1].1) == Some(Param0(q))
  {
    JsonParse.StringifyRoundTrip(Param0(q));
    [("method", Method), ("param0", Stringify(Param0(q))), ("timestamp", Timestamp(now))]
  }

  /** `{ ...config.commonParams, ...preprocessParams(...) }`. */
  function BaseParams(c: Common, q: ImageQuery, now: nat): (ps: ParamSet)
    ensures ps == CommonParams(c) + Preprocess(q, now)
    ensures DistinctKeys(ps) && "sign" !in Keys(ps)
  {
    MergeCommon(c, Preprocess(q, now));
    Spread(CommonParams(c), Preprocess(q, now))
  }

  /** `buildRequest`: the `/sync` URL, with no query, and the form of the
      merged parameters followed by their signature. */
  function BuildRequest(mac: Mac, secret: string, c: Common, q: ImageQuery, now: nat): (r: FormPost)
    ensures r.url == SyncUrl
    ensures var base := BaseParams(c, q, now); r.data == base + [("sign", Sign(mac, secret, "", base))]
  {
    SyncPost(mac, secret, BaseParams(c, q, now))
  }

  /** The signed text: `param0` is signed as its JSON text. */
  lemma CanonicalString(c: Common, q: ImageQuery, now: nat)
    ensures Canonicalize(BaseParams(c, q, now)) ==
      Flatten([("access_token", c.accessToken), ("app_key", c.appKey), ("method", Method),
               ("param0", Stringify(Param0(q))), ("sign_method", SignMethod), ("timestamp", Timestamp(now))])
  {
    var sorted := [("access_token", c.accessToken), ("app_key", c.appKey), ("method", Method),
                   ("param0", Stringify(Param0(q))), ("sign_method", SignMethod), ("timestamp", Timestamp(now))];
    var ps := BaseParams(c, q, now);
    assert forall e :: e in ps <==> e in sorted;
    KeysInOrder();
    assert Keys(sorted) == ["access_token", "app_key", "method", "param0", "sign_method",
                            "timestamp"];
    CanonicalOfChain(ps, sorted);
  }

  /** The keys of the signed set, each before the next in code-unit order. */
  lemma KeysInOrder()
    ensures Adjacent(["access_token", "app_key", "method", "param0", "sign_method", "timestamp"])
  {
    KeyPairs();
  }

  lemma KeyPairs()
    ensures KeyLess("access_token", "app_key")
    ensures KeyLess("app_key", "method")
    ensures KeyLess("method", "param0")
    ensures KeyLess("param0", "sign_method")
    ensures KeyLess("sign_method", "timestamp")
  {
    assert KeyLess("access_token", "app_key") by { KeyLessAt("access_token", "app_key", 1); }
    assert KeyLess("app_key", "method") by { KeyLessAt("app_key", "method", 0); }
    assert KeyLess("method", "param0") by { KeyLessAt("method", "param0", 0); }
    assert KeyLess("param0", "sign_method") by { KeyLessAt("param0", "sign_method", 0); }
    assert KeyLess("sign_method", "timestamp") by { KeyLessAt("sign_method", "timestamp", 0); }
  }
}
