/** `Business/ProductGet.ts`: the product detail query, a GET on `/sync`
    whose number and boolean parameters are turned into text by a spread
    that overrides them in place. */
module ProductGet {
  import opened Wrappers
  import opened Record
  import opened KeyOrder
  import opened KeySort
  import opened Decimal
  import opened Canonical
  import opened Signer
  import opened FormUrlEncoded
  import opened Js
  import opened Request

  const Method: string := "aliexpress.ds.product.get"

  /** `config.productParams`; the country, currency, language and method
      are fixed by their types in the source but kept as fields here,
      except `method`. */
  datatype ProductParams = ProductParams(
    shipToCountry: string, productId: nat, targetCurrency: string, removePersonalBenefit: bool,
    targetLanguage: string)

  /** The configured object, `method` last as declared. */
  function Config(p: ProductParams): Entries<Value>
  {
    [("ship_to_country", JString(p.shipToCountry)), ("product_id", JNumber(p.productId)),
     ("target_currency", JString(p.targetCurrency)), ("remove_personal_benefit", JBool(p.removePersonalBenefit)),
     ("target_language", JString(p.targetLanguage)), ("method", JString(Method))]
  }

  /** `{ ...config.productParams, product_id: ....toString(),
      remove_personal_benefit: ....toString() }`: both keys keep their
      places and take their text. */
  function Converted(p: ProductParams): (ps: ParamSet)
    ensures ps == [("ship_to_country", p.shipToCountry), ("product_id", NumberText(p.productId)),
                   ("target_currency", p.targetCurrency),
                   ("remove_personal_benefit", BoolText(p.removePersonalBenefit)),
                   ("target_language", p.targetLanguage), ("method", Method)]
  {
    var overrides := [("product_id", JString(NumberText(p.productId))),
                      ("remove_personal_benefit", JString(BoolText(p.removePersonalBenefit)))];
    var first := Put(Config(p), "product_id", overrides[0].1);
    assert Spread(Config(p), overrides) == Spread(first, overrides[1..]);
    assert overrides[1..][1..] == [];
    PutPresent(Config(p), 1, overrides[0].1);
    PutPresent(first, 3, overrides[1].1);
    Texts(Spread(Config(p), overrides))
  }

  /** The explicit conversions give the text that ToString would have given
      the configured values anyway. */
  lemma ConversionKeepsText(p: ProductParams)
    ensures Converted(p) == Texts(Config(p))
  {
  }

  /** `{ ...config.commonParams, ...{ ... }, timestamp }`. */
  function BaseParams(c: Common, p: ProductParams, now: nat): (ps: ParamSet)
    ensures ps == CommonParams(c) + Converted(p) + [("timestamp", Timestamp(now))]
    ensures DistinctKeys(ps) && "sign" !in Keys(ps)
  {
    MergeCommon(c, Converted(p));
    SpreadDisjoint(CommonParams(c) + Converted(p), [("timestamp", Timestamp(now))]);
    Spread(Spread(CommonParams(c), Converted(p)), [("timestamp", Timestamp(now))])
  }

  /** `buildRequest`: the `/sync` URL whose query holds the merged
      parameters in order and then their signature. */
  function BuildRequest(mac: Mac, secret: string, c: Common, p: ProductParams, now: nat): (url: string)
    ensures |url| > |SyncUrl| && url[..|SyncUrl| + 1] == SyncUrl + "?"
    ensures var base := BaseParams(c, p, now);
      Parse(url[|SyncUrl| + 1..]) == Some(base + [("sign", Sign(mac, secret, "", base))])
  {
    SyncGet(mac, secret, BaseParams(c, p, now))
  }

  /** The signed text: `ship_to_country` sorts before `sign_method`. */
  lemma CanonicalString(c: Common, p: ProductParams, now: nat)
    ensures Canonicalize(BaseParams(c, p, now)) ==
      Flatten([("access_token", c.accessToken), ("app_key", c.appKey), ("method", Method),
               ("product_id", NumberText(p.productId)),
               ("remove_personal_benefit", BoolText(p.removePersonalBenefit)),
               ("ship_to_country", p.shipToCountry), ("sign_method", SignMethod),
               ("target_currency", p.targetCurrency), ("target_language", p.targetLanguage),
               ("timestamp", Timestamp(now))])
  {
    var sorted := [("access_token", c.accessToken), ("app_key", c.appKey), ("method", Method),
                   ("product_id", NumberText(p.productId)),
                   ("remove_personal_benefit", BoolText(p.removePersonalBenefit)),
                   ("ship_to_country", p.shipToCountry), ("sign_method", SignMethod),
                   ("target_currency", p.targetCurrency), ("target_language", p.targetLanguage),
                   ("timestamp", Timestamp(now))];
    var ps := BaseParams(c, p, now);
    assert forall e :: e in ps <==> e in sorted;
    KeysInOrder();
    assert Keys(sorted) == ["access_token", "app_key", "method", "product_id",
                            "remove_personal_benefit", "ship_to_country", "sign_method",
                            "target_currency", "target_language", "timestamp"];
    CanonicalOfChain(ps, sorted);
  }

  /** The keys of the signed set, each before the next in code-unit order. */
  lemma KeysInOrder()
    ensures Adjacent(["access_token", "app_key", "method", "product_id", "remove_personal_benefit",
                      "ship_to_country", "sign_method", "target_currency", "target_language", "timestamp"])
  {
    KeyPairs();
    MoreKeyPairs();
  }

  lemma KeyPairs()
    ensures KeyLess("access_token", "app_key")
    ensures KeyLess("app_key", "method")
    ensures KeyLess("method", "product_id")
    ensures KeyLess("product_id", "remove_personal_benefit")
    ensures KeyLess("remove_personal_benefit", "ship_to_country")
  {
    assert KeyLess("access_token", "app_key") by { KeyLessAt("access_token", "app_key", 1); }
    assert KeyLess("app_key", "method") by { KeyLessAt("app_key", "method", 0); }
    assert KeyLess("method", "product_id") by { KeyLessAt("method", "product_id", 0); }
    assert KeyLess("product_id", "remove_personal_benefit") by {
      KeyLessAt("product_id", "remove_personal_benefit", 0);
    }
    assert KeyLess("remove_personal_benefit", "ship_to_country") by {
      KeyLessAt("remove_personal_benefit", "ship_to_country", 0);
    }
  }

  lemma MoreKeyPairs()
    ensures KeyLess("ship_to_country", "sign_method")
    ensures KeyLess("sign_method", "target_currency")
    ensures KeyLess("target_currency", "target_language")
    ensures KeyLess("target_language", "timestamp")
  {
    assert KeyLess("ship_to_country", "sign_method") by {
      KeyLessAt("ship_to_country", "sign_method", 1);
    }
    assert KeyLess("sign_method", "target_currency") by {
      KeyLessAt("sign_method", "target_currency", 0);
    }
    assert KeyLess("target_currency", "target_language") by {
      KeyLessAt("target_currency", "target_language", 7);
    }
    assert KeyLess("target_language", "timestamp") by {
      KeyLessAt("target_language", "timestamp", 1);
    }
  }
}
