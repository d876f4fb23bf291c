/**
 * What every script does once its parameters are assembled: the common
 * parameters, the timestamp, signing, appending `sign`, and turning the
 * signed set into a request (a query URL or a form body).
 */
module Request {
  import opened Wrappers
  import opened Record
  import opened Decimal
  import opened Js
  import opened Canonical
  import opened Signer
  import opened FormUrlEncoded

  /** The endpoint of the business calls. */
  const SyncUrl: string := "https://api-sg.aliexpress.com/sync"
  /** The prefix of the token endpoints; the API path follows it. */
  const RestUrl: string := "https://api-sg.aliexpress.com/rest"
  /** `sign_method: "sha256" as const`. */
  const SignMethod: string := "sha256"

  /** `config.commonParams`: the app key and the access token; the signing
      method is fixed by its type. */
  datatype Common = Common(appKey: string, accessToken: string)

  function CommonParams(c: Common): ParamSet
  {
    [("app_key", c.appKey), ("access_token", c.accessToken), ("sign_method", SignMethod)]
  }

  /** `Date.now().toString()` for the clock reading `now`, in milliseconds. */
  function Timestamp(now: nat): (t: string)
    ensures |t| > 0 && forall i :: 0 <= i < |t| ==> IsDigit(t[i])
    ensures DigitsValue(t) == now
  {
    NumberTextRoundTrip(now);
    NumberText(now)
  }

  /** `{ ...params, sign: signature }`. */
  function WithSign(ps: ParamSet, signature: string): ParamSet
  {
    Spread(ps, [("sign", signature)])
  }

  lemma WithSignAppends(ps: ParamSet, signature: string)
    ensures "sign" !in Keys(ps) ==> WithSign(ps, signature) == ps + [("sign", signature)]
    ensures Get(WithSign(ps, signature), "sign") == Some(signature)
  {
    var one := [("sign", signature)];
    assert one[0] == ("sign", signature) && one[1..] == [];
    assert Spread(ps, one) == Spread(Put(ps, "sign", signature), []);
    assert WithSign(ps, signature) == Put(ps, "sign", signature);
    PutGet(ps, "sign", signature, "sign");
    if "sign" !in Keys(ps) {
      PutAbsent(ps, "sign", signature);
    }
  }

  /** The set that is sent: the signed set with `sign` defined on it. When
      the signed set has no `sign` of its own, `sign` is appended as the
      last pair and nothing else moves. */
  function SignedParams(mac: Mac, secret: string, apiPath: string, ps: ParamSet): (r: ParamSet)
    ensures "sign" !in Keys(ps) ==> r == ps + [("sign", Sign(mac, secret, apiPath, ps))]
    ensures Get(r, "sign") == Some(Sign(mac, secret, apiPath, ps))
  {
    var signature := Sign(mac, secret, apiPath, ps);
    WithSignAppends(ps, signature);
    WithSign(ps, signature)
  }

  /** `${endpoint}?${new URLSearchParams(ps)}`: the query reads back as the
      same pairs, in the same order. */
  function QueryUrl(endpoint: string, ps: ParamSet): (url: string)
    ensures |url| > |endpoint| && url[..|endpoint| + 1] == endpoint + "?"
    ensures Parse(url[|endpoint| + 1..]) == Some(ps)
  {
    var url := endpoint + "?" + Serialize(ps);
    assert url[..|endpoint| + 1] == endpoint + "?";
    assert url[|endpoint| + 1..] == Serialize(ps);
    SerializeRoundTrip(ps);
    url
  }

  /** The URL of a business GET call: the set signed with the empty path,
      with `sign` appended, as the query of the `/sync` endpoint. */
  function SyncGet(mac: Mac, secret: string, base: ParamSet): (url: string)
    requires "sign" !in Keys(base)
    ensures |url| > |SyncUrl| && url[..|SyncUrl| + 1] == SyncUrl + "?"
    ensures Parse(url[|SyncUrl| + 1..]) == Some(base + [("sign", Sign(mac, secret, "", base))])
  {
    QueryUrl(SyncUrl, SignedParams(mac, secret, "", base))
  }

  /** The URL of a token call, which is sent as a POST with no body: the
      set signed with the API path, with `sign` appended, as the query of
      `RestUrl + apiPath`. */
  function RestQueryUrl(mac: Mac, secret: string, apiPath: string, ps: ParamSet): (url: string)
    requires "sign" !in Keys(ps)
    ensures |url| > |RestUrl + apiPath| && url[..|RestUrl + apiPath| + 1] == RestUrl + apiPath + "?"
    ensures Parse(url[|RestUrl + apiPath| + 1..]) == Some(ps + [("sign", Sign(mac, secret, apiPath, ps))])
  {
    QueryUrl(RestUrl + apiPath, SignedParams(mac, secret, apiPath, ps))
  }

  /** The text of each property value, as both the template literal of
      `generateSignature` and `new URLSearchParams(...)` take it. */
  function Texts(m: Entries<Value>): (ps: ParamSet)
    ensures Keys(ps) == Keys(m)
    ensures |ps| == |m| && forall i :: 0 <= i < |m| ==> ps[i].1 == ToJsString(m[i].1)
  {
    seq(|m|, i requires 0 <= i < |m| => (m[i].0, ToJsString(m[i].1)))
  }

  /** A POST to `url` whose body is the form `data`. */
  datatype FormPost = FormPost(url: string, data: ParamSet)

  /** The POST of a business call: the `/sync` endpoint with no query, the
      signed set followed by `sign` as the form, whose urlencoded body reads
      back as that form. */
  function SyncPost(mac: Mac, secret: string, base: ParamSet): (r: FormPost)
    requires "sign" !in Keys(base)
    ensures r.url == SyncUrl
    ensures r.data == base + [("sign", Sign(mac, secret, "", base))]
    ensures Parse(Serialize(r.data)) == Some(r.data)
  {
    SerializeRoundTrip(base + [("sign", Sign(mac, secret, "", base))]);
    FormPost(SyncUrl, SignedParams(mac, secret, "", base))
  }

  /** A form POST goes to the endpoint itself: its URL has no query part. */
  lemma SyncPostHasNoQuery(mac: Mac, secret: string, base: ParamSet)
    requires "sign" !in Keys(base)
    ensures forall i :: 0 <= i < |SyncPost(mac, secret, base).url| ==> SyncPost(mac, secret, base).url[i] != '?'
  {
    var u := SyncPost(mac, secret, base).url;
    assert u == SyncUrl;
    forall i | 0 <= i < |u| ensures u[i] != '?' {
      assert u[i] in "https://api-sg.aliexpress.com/sync";
    }
  }

  /** The common parameters come first and keep their order when the call's
      own parameters, none of which repeats a common key, are spread after
      them. */
  lemma MergeCommon(c: Common, api: ParamSet)
    requires DistinctKeys(api)
    requires forall i :: 0 <= i < |api| ==>
      api[i].0 != "app_key" && api[i].0 != "access_token" && api[i].0 != "sign_method"
    ensures Spread(CommonParams(c), api) == CommonParams(c) + api
  {
    CommonDisjoint(c, api);
    SpreadDisjoint(CommonParams(c), api);
  }

  lemma CommonDisjoint(c: Common, api: ParamSet)
    requires forall i :: 0 <= i < |api| ==>
      api[i].0 != "app_key" && api[i].0 != "access_token" && api[i].0 != "sign_method"
    ensures DisjointKeys(CommonParams(c), api)
  {
    var common := CommonParams(c);
    forall i, j | 0 <= i < |common| && 0 <= j < |api|
      ensures common[i].0 != api[j].0
    {
      var k := api[j].0;
      assert k != "app_key" && k != "access_token" && k != "sign_method";
      if i == 0 {
        assert common[i].0 == "app_key";
      } else if i == 1 {
        assert common[i].0 == "access_token";
      } else {
        assert common[i].0 == "sign_method";
      }
    }
  }
}
