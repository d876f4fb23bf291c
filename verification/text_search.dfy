/** `Business/TextSearch.ts`: the product search by keyword, a GET on
    `/sync` whose numeric parameters are turned into their decimal text. */
module TextSearch {
  import opened Wrappers
  import opened Record
  import opened Decimal
  import opened KeyOrder
  import opened KeySort
  import opened Canonical
  import opened Signer
  import opened FormUrlEncoded
  import opened Request

  const Method: string := "aliexpress.ds.text.search"

  /** `config.textSearchParams`; `method` is fixed by its type. */
  datatype TextSearchParams = TextSearchParams(
    keyWord: string, local: string, countryCode: string, categoryId: string, sortBy: string,
    pageSize: nat, pageIndex: nat, currency: string, searchExtend: string, selectionName: string)

  /** `preprocessParams`: the search parameters in their declared order,
      the page size and index as decimal text, then the timestamp. */
  function Preprocess(p: TextSearchParams, now: nat): (ps: ParamSet)
    ensures DistinctKeys(ps)
    ensures Keys(ps) == ["method", "keyWord", "local", "countryCode", "categoryId", "sortBy", "pageSize",
                         "pageIndex", "currency", "searchExtend", "selectionName", "timestamp"]
  {
    [("method", Method), ("keyWord", p.keyWord), ("local", p.local), ("countryCode", p.countryCode),
     ("categoryId", p.categoryId), ("sortBy", p.sortBy), ("pageSize", NumberText(p.pageSize)),
     ("pageIndex", NumberText(p.pageIndex)), ("currency", p.currency), ("searchExtend", p.searchExtend),
     ("selectionName", p.selectionName), ("timestamp", Timestamp(now))]
  }

  /** `{ ...config.commonParams, ...preprocessParams(...) }`: the common
      parameters followed by the preprocessed ones. */
  function BaseParams(c: Common, p: TextSearchParams, now: nat): (ps: ParamSet)
    ensures ps == CommonParams(c) + Preprocess(p, now)
    ensures DistinctKeys(ps) && "sign" !in Keys(ps)
  {
    MergeCommon(c, Preprocess(p, now));
    Spread(CommonParams(c), Preprocess(p, now))
  }

  /** `buildRequest`: the `/sync` URL whose query holds the merged
      parameters in order and then their signature. */
  function BuildRequest(mac: Mac, secret: string, c: Common, p: TextSearchParams, now: nat): (url: string)
    ensures |url| > |SyncUrl| && url[..|SyncUrl| + 1] == SyncUrl + "?"
    ensures var base := BaseParams(c, p, now);
      Parse(url[|SyncUrl| + 1..]) == Some(base + [("sign", Sign(mac, secret, "", base))])
  {
    SyncGet(mac, secret, BaseParams(c, p, now))
  }

  /** The signed text. Upper-case letters come before lower-case ones in
      code-unit order, so `pageIndex` precedes `pageSize`. */
  lemma CanonicalString(c: Common, p: TextSearchParams, now: nat)
    ensures Canonicalize(BaseParams(c, p, now)) ==
      Flatten([("access_token", c.accessToken), ("app_key", c.appKey), ("categoryId", p.categoryId),
               ("countryCode", p.countryCode), ("currency", p.currency), ("keyWord", p.keyWord),
               ("local", p.local), ("method", Method), ("pageIndex", NumberText(p.pageIndex)),
               ("pageSize", NumberText(p.pageSize)), ("searchExtend", p.searchExtend),
               ("selectionName", p.selectionName), ("sign_method", SignMethod), ("sortBy", p.sortBy),
               ("timestamp", Timestamp(now))])
  {
    var sorted := [("access_token", c.accessToken), ("app_key", c.appKey), ("categoryId", p.categoryId),
                   ("countryCode", p.countryCode), ("currency", p.currency), ("keyWord", p.keyWord),
                   ("local", p.local), ("method", Method), ("pageIndex", NumberText(p.pageIndex)),
                   ("pageSize", NumberText(p.pageSize)), ("searchExtend", p.searchExtend),
                   ("selectionName", p.selectionName), ("sign_method", SignMethod), ("sortBy", p.sortBy),
                   ("timestamp", Timestamp(now))];
    var ps := BaseParams(c, p, now);
    assert forall e :: e in ps <==> e in sorted;
    KeysInOrder();
    assert Keys(sorted) == ["access_token", "app_key", "categoryId", "countryCode", "currency",
                            "keyWord", "local", "method", "pageIndex", "pageSize", "searchExtend",
                            "selectionName", "sign_method", "sortBy", "timestamp"];
    CanonicalOfChain(ps, sorted);
  }

  /** The keys of the signed set, each before the next in code-unit order. */
  lemma KeysInOrder()
    ensures Adjacent(["access_token", "app_key", "categoryId", "countryCode", "currency", "keyWord",
                      "local", "method", "pageIndex", "pageSize", "searchExtend", "selectionName",
                      "sign_method", "sortBy", "timestamp"])
  {
    var first := ["access_token", "app_key", "categoryId", "countryCode", "currency", "keyWord", "local", "method"];
    var second := ["pageIndex", "pageSize", "searchExtend", "selectionName", "sign_method", "sortBy", "timestamp"];
    assert Adjacent(first) by { KeyPairs(); }
    assert Adjacent(second) && KeyLess("method", "pageIndex") by { MoreKeyPairs(); }
    AdjacentJoin(first, second);
    assert first + second == ["access_token", "app_key", "categoryId", "countryCode", "currency", "keyWord",
                              "local", "method", "pageIndex", "pageSize", "searchExtend", "selectionName",
                              "sign_method", "sortBy", "timestamp"];
  }

  lemma KeyPairs()
    ensures KeyLess("access_token", "app_key")
    ensures KeyLess("app_key", "categoryId")
    ensures KeyLess("categoryId", "countryCode")
    ensures KeyLess("countryCode", "currency")
    ensures KeyLess("currency", "keyWord")
    ensures KeyLess("keyWord", "local")
    ensures KeyLess("local", "method")
  {
    assert KeyLess("access_token", "app_key") by { KeyLessAt("access_token", "app_key", 1); }
    assert KeyLess("app_key", "categoryId") by { KeyLessAt("app_key", "categoryId", 0); }
    assert KeyLess("categoryId", "countryCode") by { KeyLessAt("categoryId", "countryCode", 1); }
    assert KeyLess("countryCode", "currency") by { KeyLessAt("countryCode", "currency", 1); }
    assert KeyLess("currency", "keyWord") by { KeyLessAt("currency", "keyWord", 0); }
    assert KeyLess("keyWord", "local") by { KeyLessAt("keyWord", "local", 0); }
    assert KeyLess("local", "method") by { KeyLessAt("local", "method", 0); }
  }

  lemma MoreKeyPairs()
    ensures KeyLess("method", "pageIndex")
    ensures KeyLess("pageIndex", "pageSize")
    ensures KeyLess("pageSize", "searchExtend")
    ensures KeyLess("searchExtend", "selectionName")
    ensures KeyLess("selectionName", "sign_method")
    ensures KeyLess("sign_method", "sortBy")
    ensures KeyLess("sortBy", "timestamp")
  {
    assert KeyLess("method", "pageIndex") by { KeyLessAt("method", "pageIndex", 0); }
    assert KeyLess("pageIndex", "pageSize") by { KeyLessAt("pageIndex", "pageSize", 4); }
    assert KeyLess("pageSize", "searchExtend") by { KeyLessAt("pageSize", "searchExtend", 0); }
    assert KeyLess("searchExtend", "selectionName") by {
      KeyLessAt("searchExtend", "selectionName", 2);
    }
    assert KeyLess("selectionName", "sign_method") by {
      KeyLessAt("selectionName", "sign_method", 1);
    }
    assert KeyLess("sign_method", "sortBy") by { KeyLessAt("sign_method", "sortBy", 1); }
    assert KeyLess("sortBy", "timestamp") by { KeyLessAt("sortBy", "timestamp", 0); }
  }
}
