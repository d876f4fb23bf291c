/** `Business/FeednameGet.ts`: the list of feed names, a GET on `/sync`
    whose parameters are merged without conversion. */
module FeednameGet {
  import opened Wrappers
  import opened Record
  import opened KeyOrder
  import opened KeySort
  import opened Canonical
  import opened Signer
  import opened FormUrlEncoded
  import opened Request

  const Method: string := "aliexpress.ds.feedname.get"

  /** `config.apiParams`; `method` is fixed by its type. */
  datatype FeednameParams = FeednameParams(appSignature: string)

  function ApiParams(p: FeednameParams): ParamSet
  {
    [("method", Method), ("app_signature", p.appSignature)]
  }

  /** `{ ...config.commonParams, ...config.apiParams, timestamp }`. */
  function BaseParams(c: Common, p: FeednameParams, now: nat): (ps: ParamSet)
    ensures ps == [("app_key", c.appKey), ("access_token", c.accessToken), ("sign_method", SignMethod),
                   ("method", Method), ("app_signature", p.appSignature), ("timestamp", Timestamp(now))]
    ensures DistinctKeys(ps) && "sign" !in Keys(ps)
  {
    MergeCommon(c, ApiParams(p));
    var merged := CommonParams(c) + ApiParams(p);
    SpreadDisjoint(merged, [("timestamp", Timestamp(now))]);
    Spread(Spread(CommonParams(c), ApiParams(p)), [("timestamp", Timestamp(now))])
  }

  /** `buildRequest`: the `/sync` URL whose query holds the merged
      parameters in order and then their signature. */
  function BuildRequest(mac: Mac, secret: string, c: Common, p: FeednameParams, now: nat): (url: string)
    ensures |url| > |SyncUrl| && url[..|SyncUrl| + 1] == SyncUrl + "?"
    ensures var base := BaseParams(c, p, now);
      Parse(url[|SyncUrl| + 1..]) == Some(base + [("sign", Sign(mac, secret, "", base))])
  {
    SyncGet(mac, secret, BaseParams(c, p, now))
  }

  /** The signed text: `app_key` sorts before `app_signature`, as a prefix
      up to their fifth character and `k` before `s` there. */
  lemma CanonicalString(c: Common, p: FeednameParams, now: nat)
    ensures Canonicalize(BaseParams(c, p, now)) ==
      Flatten([("access_token", c.accessToken), ("app_key", c.appKey), ("app_signature", p.appSignature),
               ("method", Method), ("sign_method", SignMethod), ("timestamp", Timestamp(now))])
  {
    var sorted := [("access_token", c.accessToken), ("app_key", c.appKey), ("app_signature", p.appSignature),
                   ("method", Method), ("sign_method", SignMethod), ("timestamp", Timestamp(now))];
    var ps := BaseParams(c, p, now);
    assert forall e :: e in ps <==> e in sorted;
    KeysInOrder();
    assert Keys(sorted) == ["access_token", "app_key", "app_signature", "method", "sign_method",
                            "timestamp"];
    CanonicalOfChain(ps, sorted);
  }

  /** The keys of the signed set, each before the next in code-unit order. */
  lemma KeysInOrder()
    ensures Adjacent(["access_token", "app_key", "app_signature", "method", "sign_method", "timestamp"])
  {
    KeyPairs();
  }

  lemma KeyPairs()
    ensures KeyLess("access_token", "app_key")
    ensures KeyLess("app_key", "app_signature")
    ensures KeyLess("app_signature", "method")
    ensures KeyLess("method", "sign_method")
    ensures KeyLess("sign_method", "timestamp")
  {
    assert KeyLess("access_token", "app_key") by { KeyLessAt("access_token", "app_key", 1); }
    assert KeyLess("app_key", "app_signature") by { KeyLessAt("app_key", "app_signature", 4); }
    assert KeyLess("app_signature", "method") by { KeyLessAt("app_signature", "method", 0); }
    assert KeyLess("method", "sign_method") by { KeyLessAt("method", "sign_method", 0); }
    assert KeyLess("sign_method", "timestamp") by { KeyLessAt("sign_method", "timestamp", 0); }
  }
}
