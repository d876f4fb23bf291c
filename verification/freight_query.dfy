/** `FreightQuery.ts`: the shipping-cost query, a GET on `/sync` whose
    delivery request travels as one JSON text, `queryDeliveryReq`. */
module FreightQuery {
  import opened Wrappers
  import opened Record
  import opened KeyOrder
  import opened KeySort
  import opened Canonical
  import opened Signer
  import opened FormUrlEncoded
  import opened Js
  import opened Request
  import JsonParse

  const Method: string := "aliexpress.ds.freight.query"

  /** `config.freightParams.queryDeliveryReq`; the product id and the
      quantity are numbers. */
  datatype DeliveryQuery = DeliveryQuery(
    productId: nat, selectedSkuId: string, quantity: nat, shipToCountry: string, provinceCode: string,
    cityCode: string, source: string, currency: string, language: string, locale: string)

  /** The object `queryDeliveryReq`, with its properties in declared order. */
  function DeliveryRequest(q: DeliveryQuery): Value
  {
    JObject([("productId", JNumber(q.productId)), ("selectedSkuId", JString(q.selectedSkuId)),
             ("quantity", JNumber(q.quantity)), ("shipToCountry", JString(q.shipToCountry)),
             ("provinceCode", JString(q.provinceCode)), ("cityCode", JString(q.cityCode)),
             ("source", JString(q.source)), ("currency", JString(q.currency)),
             ("language", JString(q.language)), ("locale", JString(q.locale))])
  }

  /** `preprocessParams`: the method, the delivery request as JSON text, the
      timestamp. The JSON text gives back the request, numbers as numbers. */
  function Preprocess(q: DeliveryQuery, now: nat): (ps: ParamSet)
    ensures Keys(ps) == ["method", "queryDeliveryReq", "timestamp"] && DistinctKeys(ps)
    ensures JsonParse.Parse(ps[1].1) == Some(DeliveryRequest(q))
  {
    JsonParse.StringifyRoundTrip(DeliveryRequest(q));
    [("method", Method), ("queryDeliveryReq", Stringify(DeliveryRequest(q))), ("timestamp", Timestamp(now))]
  }

  /** `{ ...config.commonParams, ...preprocessParams(...) }`. */
  function BaseParams(c: Common, q: DeliveryQuery, now: nat): (ps: ParamSet)
    ensures ps == CommonParams(c) + Preprocess(q, now)
    ensures DistinctKeys(ps) && "sign" !in Keys(ps)
  {
    MergeCommon(c, Preprocess(q, now));
    Spread(CommonParams(c), Preprocess(q, now))
  }

  /** `buildRequest`: the `/sync` URL whose query holds the merged
      parameters in order and then their signature. */
  function BuildRequest(mac: Mac, secret: string, c: Common, q: DeliveryQuery, now: nat): (url: string)
    ensures |url| > |SyncUrl| && url[..|SyncUrl| + 1] == SyncUrl + "?"
    ensures var base := BaseParams(c, q, now);
      Parse(url[|SyncUrl| + 1..]) == Some(base + [("sign", Sign(mac, secret, "", base))])
  {
    SyncGet(mac, secret, BaseParams(c, q, now))
  }

  /** The signed text: the delivery request is signed as its JSON text. */
  lemma CanonicalString(c: Common, q: DeliveryQuery, now: nat)
    ensures Canonicalize(BaseParams(c, q, now)) ==
      Flatten([("access_token", c.accessToken), ("app_key", c.appKey), ("method", Method),
               ("queryDeliveryReq", Stringify(DeliveryRequest(q))), ("sign_method", SignMethod),
               ("timestamp", Timestamp(now))])
  {
    var sorted := [("access_token", c.accessToken), ("app_key", c.appKey), ("method", Method),
                   ("queryDeliveryReq", Stringify(DeliveryRequest(q))), ("sign_method", SignMethod),
                   ("timestamp", Timestamp(now))];
    var ps := BaseParams(c, q, now);
    assert forall e :: e in ps <==> e in sorted;
    KeysInOrder();
    assert Keys(sorted) == ["access_token", "app_key", "method", "queryDeliveryReq", "sign_method",
                            "timestamp"];
    CanonicalOfChain(ps, sorted);
  }

  /** The keys of the signed set, each before the next in code-unit order. */
  lemma KeysInOrder()
    ensures Adjacent(["access_token", "app_key", "method", "queryDeliveryReq", "sign_method", "timestamp"])
  {
    KeyPairs();
  }

  lemma KeyPairs()
    ensures KeyLess("access_token", "app_key")
    ensures KeyLess("app_key", "method")
    ensures KeyLess("method", "queryDeliveryReq")
    ensures KeyLess("queryDeliveryReq", "sign_method")
    ensures KeyLess("sign_method", "timestamp")
  {
    assert KeyLess("access_token", "app_key") by { KeyLessAt("access_token", "app_key", 1); }
    assert KeyLess("app_key", "method") by { KeyLessAt("app_key", "method", 0); }
    assert KeyLess("method", "queryDeliveryReq") by { KeyLessAt("method", "queryDeliveryReq", 0); }
    assert KeyLess("queryDeliveryReq", "sign_method") by {
      KeyLessAt("queryDeliveryReq", "sign_method", 0);
    }
    assert KeyLess("sign_method", "timestamp") by { KeyLessAt("sign_method", "timestamp", 0); }
  }
}
