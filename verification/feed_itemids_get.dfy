/** `Business/FeedItemidsGet.ts`: the item ids of one feed, a GET on
    `/sync` whose page size is turned into text by a spread that overrides
    it in place. */
module FeedItemidsGet {
  import opened Wrappers
  import opened Record
  import opened KeyOrder
  import opened KeySort
  import opened Decimal
  import opened Canonical
  import opened Signer
  import opened FormUrlEncoded
  import opened Js
  import opened Request

  const Method: string := "aliexpress.ds.feed.itemids.get"

  /** `config.apiParams`; `method` is fixed by its type. */
  datatype FeedParams = FeedParams(pageSize: nat, feedName: string, searchId: string)

  /** The configured object, the page size a number. */
  function Config(p: FeedParams): Entries<Value>
  {
    [("method", JString(Method)), ("page_size", JNumber(p.pageSize)), ("feed_name", JString(p.feedName)),
     ("search_id", JString(p.searchId))]
  }

  /** `{ ...config.apiParams, page_size: ....toString() }`: `page_size`
      keeps its place and takes its decimal text. */
  function Converted(p: FeedParams): (ps: ParamSet)
    ensures ps == [("method", Method), ("page_size", NumberText(p.pageSize)), ("feed_name", p.feedName),
                   ("search_id", p.searchId)]
  {
    var overrides := [("page_size", JString(NumberText(p.pageSize)))];
    assert overrides[1..] == [];
    assert Spread(Config(p), overrides) == Spread(Put(Config(p), "page_size", overrides[0].1), []);
    PutPresent(Config(p), 1, overrides[0].1);
    Texts(Spread(Config(p), overrides))
  }

  /** The explicit conversion gives the text that ToString would have given
      the configured page size anyway. */
  lemma ConversionKeepsText(p: FeedParams)
    ensures Converted(p) == Texts(Config(p))
  {
  }

  /** `{ ...config.commonParams, ...{ ... }, timestamp }`. */
  function BaseParams(c: Common, p: FeedParams, now: nat): (ps: ParamSet)
    ensures ps == CommonParams(c) + Converted(p) + [("timestamp", Timestamp(now))]
    ensures DistinctKeys(ps) && "sign" !in Keys(ps)
  {
    MergeCommon(c, Converted(p));
    SpreadDisjoint(CommonParams(c) + Converted(p), [("timestamp", Timestamp(now))]);
    Spread(Spread(CommonParams(c), Converted(p)), [("timestamp", Timestamp(now))])
  }

  /** `buildRequest`: the `/sync` URL whose query holds the merged
      parameters in order and then their signature. */
  function BuildRequest(mac: Mac, secret: string, c: Common, p: FeedParams, now: nat): (url: string)
    ensures |url| > |SyncUrl| && url[..|SyncUrl| + 1] == SyncUrl + "?"
    ensures var base := BaseParams(c, p, now);
      Parse(url[|SyncUrl| + 1..]) == Some(base + [("sign", Sign(mac, secret, "", base))])
  {
    SyncGet(mac, secret, BaseParams(c, p, now))
  }

  /** The signed text. */
  lemma CanonicalString(c: Common, p: FeedParams, now: nat)
    ensures Canonicalize(BaseParams(c, p, now)) ==
      Flatten([("access_token", c.accessToken), ("app_key", c.appKey), ("feed_name", p.feedName),
               ("method", Method), ("page_size", NumberText(p.pageSize)), ("search_id", p.searchId),
               ("sign_method", SignMethod), ("timestamp", Timestamp(now))])
  {
    var sorted := [("access_token", c.accessToken), ("app_key", c.appKey), ("feed_name", p.feedName),
                   ("method", Method), ("page_size", NumberText(p.pageSize)), ("search_id", p.searchId),
                   ("sign_method", SignMethod), ("timestamp", Timestamp(now))];
    var ps := BaseParams(c, p, now);
    assert forall e :: e in ps <==> e in sorted;
    KeysInOrder();
    assert Keys(sorted) == ["access_token", "app_key", "feed_name", "method", "page_size",
                            "search_id", "sign_method", "timestamp"];
    CanonicalOfChain(ps, sorted);
  }

  /** The keys of the signed set, each before the next in code-unit order. */
  lemma KeysInOrder()
    ensures Adjacent(["access_token", "app_key", "feed_name", "method", "page_size", "search_id",
                      "sign_method", "timestamp"])
  {
    KeyPairs();
  }

  lemma KeyPairs()
    ensures KeyLess("access_token", "app_key")
    ensures KeyLess("app_key", "feed_name")
    ensures KeyLess("feed_name", "method")
    ensures KeyLess("method", "page_size")
    ensures KeyLess("page_size", "search_id")
    ensures KeyLess("search_id", "sign_method")
    ensures KeyLess("sign_method", "timestamp")
  {
    assert KeyLess("access_token", "app_key") by { KeyLessAt("access_token", "app_key", 1); }
    assert KeyLess("app_key", "feed_name") by { KeyLessAt("app_key", "feed_name", 0); }
    assert KeyLess("feed_name", "method") by { KeyLessAt("feed_name", "method", 0); }
    assert KeyLess("method", "page_size") by { KeyLessAt("method", "page_size", 0); }
    assert KeyLess("page_size", "search_id") by { KeyLessAt("page_size", "search_id", 0); }
    assert KeyLess("search_id", "sign_method") by { KeyLessAt("search_id", "sign_method", 1); }
    assert KeyLess("sign_method", "timestamp") by { KeyLessAt("sign_method", "timestamp", 0); }
  }
}
