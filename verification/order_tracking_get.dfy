/** `OrderTrackingGet.ts`: the tracking query for one order, a GET on
    `/sync` whose parameters are merged without conversion. */
module OrderTrackingGet {
  import opened Wrappers
  import opened Record
  import opened KeyOrder
  import opened KeySort
  import opened Canonical
  import opened Signer
  import opened FormUrlEncoded
  import opened Request

  const Method: string := "aliexpress.ds.order.tracking.get"

  /** `config.apiParams`; `method` is fixed by its type. */
  datatype TrackingParams = TrackingParams(aeOrderId: string, language: string)

  function ApiParams(p: TrackingParams): ParamSet
  {
    [("method", Method), ("ae_order_id", p.aeOrderId), ("language", p.language)]
  }

  /** `{ ...config.commonParams, ...config.apiParams, timestamp }`. */
  function BaseParams(c: Common, p: TrackingParams, now: nat): (ps: ParamSet)
    ensures ps == [("app_key", c.appKey), ("access_token", c.accessToken), ("sign_method", SignMethod),
                   ("method", Method), ("ae_order_id", p.aeOrderId), ("language", p.language),
                   ("timestamp", Timestamp(now))]
    ensures DistinctKeys(ps) && "sign" !in Keys(ps)
  {
    MergeCommon(c, ApiParams(p));
    var merged := CommonParams(c) + ApiParams(p);
    SpreadDisjoint(merged, [("timestamp", Timestamp(now))]);
    Spread(Spread(CommonParams(c), ApiParams(p)), [("timestamp", Timestamp(now))])
  }

  /** `buildRequest`: the `/sync` URL whose query holds the merged
      parameters in order and then their signature. */
  function BuildRequest(mac: Mac, secret: string, c: Common, p: TrackingParams, now: nat): (url: string)
    ensures |url| > |SyncUrl| && url[..|SyncUrl| + 1] == SyncUrl + "?"
    ensures var base := BaseParams(c, p, now);
      Parse(url[|SyncUrl| + 1..]) == Some(base + [("sign", Sign(mac, secret, "", base))])
  {
    SyncGet(mac, secret, BaseParams(c, p, now))
  }

  /** The signed text: `ae_order_id` sorts between `access_token` and
      `app_key`. */
  lemma CanonicalString(c: Common, p: TrackingParams, now: nat)
    ensures Canonicalize(BaseParams(c, p, now)) ==
      Flatten([("access_token", c.accessToken), ("ae_order_id", p.aeOrderId), ("app_key", c.appKey),
               ("language", p.language), ("method", Method), ("sign_method", SignMethod),
               ("timestamp", Timestamp(now))])
  {
    var sorted := [("access_token", c.accessToken), ("ae_order_id", p.aeOrderId), ("app_key", c.appKey),
                   ("language", p.language), ("method", Method), ("sign_method", SignMethod),
                   ("timestamp", Timestamp(now))];
    var ps := BaseParams(c, p, now);
    assert forall e :: e in ps <==> e in sorted;
    KeysInOrder();
    assert Keys(sorted) == ["access_token", "ae_order_id", "app_key", "language", "method",
                            "sign_method", "timestamp"];
    CanonicalOfChain(ps, sorted);
  }

  /** The keys of the signed set, each before the next in code-unit order. */
  lemma KeysInOrder()
    ensures Adjacent(["access_token", "ae_order_id", "app_key", "language", "method", "sign_method",
                      "timestamp"])
  {
    KeyPairs();
  }

  lemma KeyPairs()
    ensures KeyLess("access_token", "ae_order_id")
    ensures KeyLess("ae_order_id", "app_key")
    ensures KeyLess("app_key", "language")
    ensures KeyLess("language", "method")
    ensures KeyLess("method", "sign_method")
    ensures KeyLess("sign_method", "timestamp")
  {
    assert KeyLess("access_token", "ae_order_id") by {
      KeyLessAt("access_token", "ae_order_id", 1);
    }
    assert KeyLess("ae_order_id", "app_key") by { KeyLessAt("ae_order_id", "app_key", 1); }
    assert KeyLess("app_key", "language") by { KeyLessAt("app_key", "language", 0); }
    assert KeyLess("language", "method") by { KeyLessAt("language", "method", 0); }
    assert KeyLess("method", "sign_method") by { KeyLessAt("method", "sign_method", 0); }
    assert KeyLess("sign_method", "timestamp") by { KeyLessAt("sign_method", "timestamp", 0); }
  }
}
