/** `System/RefreshToken.ts`: the request that trades a refresh token for a
    new access token, a POST on `/rest/auth/token/refresh` signed together
    with its API path. */
module RefreshToken {
  import opened Wrappers
  import opened Record
  import opened KeyOrder
  import opened KeySort
  import opened Canonical
  import opened Signer
  import opened FormUrlEncoded
  import opened Request

  const ApiPath: string := "/auth/token/refresh"
  const GrantType: string := "refresh_token"

  /** The object literal `params` of `generateRefreshTokenRequest`, built
      from the timestamp `now` of `generateCurrentTimestamp`. */
  function Params(appKey: string, refreshToken: string, now: nat): (ps: ParamSet)
    ensures Keys(ps) == ["app_key", "timestamp", "sign_method", "refresh_token", "grant_type"]
    ensures ps[0].1 == appKey && ps[3].1 == refreshToken && ps[4].1 == "refresh_token"
    ensures DistinctKeys(ps) && "sign" !in Keys(ps)
  {
    [("app_key", appKey), ("timestamp", Timestamp(now)), ("sign_method", SignMethod),
     ("refresh_token", refreshToken), ("grant_type", GrantType)]
  }

  /** `generateRefreshTokenRequest`: the URL under the REST prefix and the
      API path whose query holds the parameters in order and then their
      signature, which covers the API path as well. */
  function RefreshTokenRequest(mac: Mac, appSecret: string, appKey: string, refreshToken: string, now: nat)
    : (url: string)
    ensures |url| > |RestUrl + ApiPath| && url[..|RestUrl + ApiPath| + 1] == RestUrl + ApiPath + "?"
    ensures var ps := Params(appKey, refreshToken, now);
      Parse(url[|RestUrl + ApiPath| + 1..]) == Some(ps + [("sign", Sign(mac, appSecret, ApiPath, ps))])
  {
    RestQueryUrl(mac, appSecret, ApiPath, Params(appKey, refreshToken, now))
  }

  /** The signed text: the API path, then each key in code-unit order
      followed by its value. */
  lemma SignedText(appKey: string, refreshToken: string, now: nat)
    ensures StringToSign(ApiPath, Params(appKey, refreshToken, now)) ==
      ApiPath + Flatten([("app_key", appKey), ("grant_type", GrantType), ("refresh_token", refreshToken),
                         ("sign_method", SignMethod), ("timestamp", Timestamp(now))])
  {
    var sorted := [("app_key", appKey), ("grant_type", GrantType), ("refresh_token", refreshToken),
                   ("sign_method", SignMethod), ("timestamp", Timestamp(now))];
    var ps := Params(appKey, refreshToken, now);
    assert forall e :: e in ps <==> e in sorted;
    KeysInOrder();
    assert Keys(sorted) == ["app_key", "grant_type", "refresh_token", "sign_method", "timestamp"];
    CanonicalOfChain(ps, sorted);
  }

  /** The keys of the signed set, each before the next in code-unit order. */
  lemma KeysInOrder()
    ensures Adjacent(["app_key", "grant_type", "refresh_token", "sign_method", "timestamp"])
  {
    KeyPairs();
  }

  lemma KeyPairs()
    ensures KeyLess("app_key", "grant_type")
    ensures KeyLess("grant_type", "refresh_token")
    ensures KeyLess("refresh_token", "sign_method")
    ensures KeyLess("sign_method", "timestamp")
  {
    assert KeyLess("app_key", "grant_type") by { KeyLessAt("app_key", "grant_type", 0); }
    assert KeyLess("grant_type", "refresh_token") by {
      KeyLessAt("grant_type", "refresh_token", 0);
    }
    assert KeyLess("refresh_token", "sign_method") by {
      KeyLessAt("refresh_token", "sign_method", 0);
    }
    assert KeyLess("sign_method", "timestamp") by { KeyLessAt("sign_method", "timestamp", 0); }
  }
}
