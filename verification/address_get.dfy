/** `Business/AddressGet.ts`: the delivery-address query, a GET on `/sync`
    whose parameters are merged without conversion. */
module AddressGet {
  import opened Wrappers
  import opened Record
  import opened KeyOrder
  import opened KeySort
  import opened Canonical
  import opened Signer
  import opened FormUrlEncoded
  import opened Request

  const Method: string := "aliexpress.ds.address.get"

  /** `config.addressParams`; `method` is fixed by its type. */
  datatype AddressParams = AddressParams(language: string, countryCode: string, isMultiLanguage: string)

  function ApiParams(p: AddressParams): ParamSet
  {
    [("method", Method), ("language", p.language), ("countryCode", p.countryCode),
     ("isMultiLanguage", p.isMultiLanguage)]
  }

  /** `{ ...config.commonParams, ...config.addressParams, timestamp }`: the
      common parameters, the address parameters and the timestamp, in that
      order, with every value as given. */
  function BaseParams(c: Common, p: AddressParams, now: nat): (ps: ParamSet)
    ensures ps == [("app_key", c.appKey), ("access_token", c.accessToken), ("sign_method", SignMethod),
                   ("method", Method), ("language", p.language), ("countryCode", p.countryCode),
                   ("isMultiLanguage", p.isMultiLanguage), ("timestamp", Timestamp(now))]
    ensures DistinctKeys(ps) && "sign" !in Keys(ps)
  {
    MergeCommon(c, ApiParams(p));
    var merged := CommonParams(c) + ApiParams(p);
    SpreadDisjoint(merged, [("timestamp", Timestamp(now))]);
    Spread(Spread(CommonParams(c), ApiParams(p)), [("timestamp", Timestamp(now))])
  }

  /** `buildRequest`: the `/sync` URL whose query holds the merged
      parameters in order and then `sign`, their signature. */
  function BuildRequest(mac: Mac, secret: string, c: Common, p: AddressParams, now: nat): (url: string)
    ensures |url| > |SyncUrl| && url[..|SyncUrl| + 1] == SyncUrl + "?"
    ensures var base := BaseParams(c, p, now);
      Parse(url[|SyncUrl| + 1..]) == Some(base + [("sign", Sign(mac, secret, "", base))])
  {
    SyncGet(mac, secret, BaseParams(c, p, now))
  }

  /** The signed text: each key in code-unit order followed by its value.
      An empty `isMultiLanguage` contributes just its key. */
  lemma CanonicalString(c: Common, p: AddressParams, now: nat)
    ensures Canonicalize(BaseParams(c, p, now)) ==
      Flatten([("access_token", c.accessToken), ("app_key", c.appKey), ("countryCode", p.countryCode),
               ("isMultiLanguage", p.isMultiLanguage), ("language", p.language), ("method", Method),
               ("sign_method", SignMethod), ("timestamp", Timestamp(now))])
  {
    var sorted := [("access_token", c.accessToken), ("app_key", c.appKey), ("countryCode", p.countryCode),
                   ("isMultiLanguage", p.isMultiLanguage), ("language", p.language), ("method", Method),
                   ("sign_method", SignMethod), ("timestamp", Timestamp(now))];
    var ps := BaseParams(c, p, now);
    assert forall e :: e in ps <==> e in sorted;
    KeysInOrder();
    assert Keys(sorted) == ["access_token", "app_key", "countryCode", "isMultiLanguage", "language",
                            "method", "sign_method", "timestamp"];
    CanonicalOfChain(ps, sorted);
  }

  /** The keys of the signed set, each before the next in code-unit order. */
  lemma KeysInOrder()
    ensures Adjacent(["access_token", "app_key", "countryCode", "isMultiLanguage", "language", "method",
                      "sign_method", "timestamp"])
  {
    KeyPairs();
  }

  lemma KeyPairs()
    ensures KeyLess("access_token", "app_key")
    ensures KeyLess("app_key", "countryCode")
    ensures KeyLess("countryCode", "isMultiLanguage")
    ensures KeyLess("isMultiLanguage", "language")
    ensures KeyLess("language", "method")
    ensures KeyLess("method", "sign_method")
    ensures KeyLess("sign_method", "timestamp")
  {
    assert KeyLess("access_token", "app_key") by { KeyLessAt("access_token", "app_key", 1); }
    assert KeyLess("app_key", "countryCode") by { KeyLessAt("app_key", "countryCode", 0); }
    assert KeyLess("countryCode", "isMultiLanguage") by {
      KeyLessAt("countryCode", "isMultiLanguage", 0);
    }
    assert KeyLess("isMultiLanguage", "language") by {
      KeyLessAt("isMultiLanguage", "language", 0);
    }
    assert KeyLess("language", "method") by { KeyLessAt("language", "method", 0); }
    assert KeyLess("method", "sign_method") by { KeyLessAt("method", "sign_method", 0); }
    assert KeyLess("sign_method", "timestamp") by { KeyLessAt("sign_method", "timestamp", 0); }
  }
}
