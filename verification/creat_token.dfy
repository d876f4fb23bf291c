/** `CreatToken.ts`: the request that trades an authorization code for an
    access token, a POST on `/rest/auth/token/create` signed together with
    its API path. */
module CreatToken {
  import opened Wrappers
  import opened Record
  import opened KeyOrder
  import opened KeySort
  import opened Canonical
  import opened Signer
  import opened FormUrlEncoded
  import opened Request

  const ApiPath: string := "/auth/token/create"

  /** The object literal `params` of `generateAuthTokenRequest`, built from
      the timestamp `now` of `generateCurrentTimestamp`. */
  function Params(appKey: string, code: string, now: nat): (ps: ParamSet)
    ensures Keys(ps) == ["app_key", "timestamp", "sign_method", "code"]
    ensures ps[0].1 == appKey && ps[3].1 == code
    ensures DistinctKeys(ps) && "sign" !in Keys(ps)
  {
    [("app_key", appKey), ("timestamp", Timestamp(now)), ("sign_method", SignMethod), ("code", code)]
  }

  /** `generateAuthTokenRequest`: the URL under the REST prefix and the API
      path whose query holds the parameters in order and then their
      signature, which covers the API path as well. */
  function AuthTokenRequest(mac: Mac, appSecret: string, appKey: string, code: string, now: nat): (url: string)
    ensures |url| > |RestUrl + ApiPath| && url[..|RestUrl + ApiPath| + 1] == RestUrl + ApiPath + "?"
    ensures var ps := Params(appKey, code, now);
      Parse(url[|RestUrl + ApiPath| + 1..]) == Some(ps + [("sign", Sign(mac, appSecret, ApiPath, ps))])
  {
    RestQueryUrl(mac, appSecret, ApiPath, Params(appKey, code, now))
  }

  /** The signed text: the API path, then each key in code-unit order
      followed by its value. */
  lemma SignedText(appKey: string, code: string, now: nat)
    ensures StringToSign(ApiPath, Params(appKey, code, now)) ==
      ApiPath + Flatten([("app_key", appKey), ("code", code), ("sign_method", SignMethod),
                         ("timestamp", Timestamp(now))])
  {
    var sorted := [("app_key", appKey), ("code", code), ("sign_method", SignMethod), ("timestamp", Timestamp(now))];
    var ps := Params(appKey, code, now);
    assert forall e :: e in ps <==> e in sorted;
    KeysInOrder();
    assert Keys(sorted) == ["app_key", "code", "sign_method", "timestamp"];
    CanonicalOfChain(ps, sorted);
  }

  /** The keys of the signed set, each before the next in code-unit order. */
  lemma KeysInOrder()
    ensures Adjacent(["app_key", "code", "sign_method", "timestamp"])
  {
    KeyPairs();
  }

  lemma KeyPairs()
    ensures KeyLess("app_key", "code")
    ensures KeyLess("code", "sign_method")
    ensures KeyLess("sign_method", "timestamp")
  {
    assert KeyLess("app_key", "code") by { KeyLessAt("app_key", "code", 0); }
    assert KeyLess("code", "sign_method") by { KeyLessAt("code", "sign_method", 0); }
    assert KeyLess("sign_method", "timestamp") by { KeyLessAt("sign_method", "timestamp", 0); }
  }
}
