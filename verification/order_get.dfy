/** `OrderGet.ts`: the query for orders, a GET on `/sync` whose list of
    order queries travels as one JSON text, `single_order_query`. */
module OrderGet {
  import opened Wrappers
  import opened Record
  import opened Decimal
  import opened KeyOrder
  import opened KeySort
  import opened Canonical
  import opened Signer
  import opened FormUrlEncoded
  import opened Js
  import opened Request
  import JsonParse

  const Method: string := "aliexpress.trade.ds.order.get"

  /** One element of `single_order_query`: the order id is a number. */
  datatype OrderQuery = OrderQuery(orderId: nat, includeOrderItems: bool)

  function QueryValue(q: OrderQuery): Value
  {
    JObject([("order_id", JNumber(q.orderId)), ("include_order_items", JBool(q.includeOrderItems))])
  }

  /** The array `single_order_query`. */
  function Queries(qs: seq<OrderQuery>): Value
  {
    JArray(seq(|qs|, i requires 0 <= i < |qs| => QueryValue(qs[i])))
  }

  /** A key made of lower-case letters and `_` is quoted without escapes. */
  lemma {:induction false} PlainQuoteBody(s: string)
    requires forall i :: 0 <= i < |s| ==> 'a' <= s[i] <= 'z' || s[i] == '_'
    ensures QuoteBody(s) == s
    decreases |s|
  {
    if s != [] {
      PlainQuoteBody(s[1..]);
      assert EscapeChar(s[0]) == [s[0]];
      assert [s[0]] + s[1..] == s;
    }
  }

  /** A property with such a key is written as the quoted key, a colon and
      the value's text. */
  lemma PlainMember(k: string, v: Value)
    requires forall i :: 0 <= i < |k| ==> 'a' <= k[i] <= 'z' || k[i] == '_'
    ensures StringifyMember((k, v)) == "\"" + k + "\":" + Stringify(v)
  {
    PlainQuoteBody(k);
  }

  /** The same, with the quoted key and its colon given as one text. */
  lemma KeyedMember(k: string, quoted: string, v: Value)
    requires forall i :: 0 <= i < |k| ==> 'a' <= k[i] <= 'z' || k[i] == '_'
    requires "\"" + k + "\":" == quoted
    ensures StringifyMember((k, v)) == quoted + Stringify(v)
  {
    PlainMember(k, v);
  }

  /** Regrouping `[{` k0 v0 `,` k1 v1 `}]`, with no reference to what the
      pieces hold. */
  lemma QueryRegroup(k0: string, v0: string, k1: string, v1: string)
    ensures "[" + ("{" + (k0 + v0 + "," + (k1 + v1)) + "}") + "]" == "[{" + k0 + v0 + ("," + k1) + v1 + "}]"
  {
  }

  /** The two keys of a query, quoted and followed by their colon. */
  lemma QuotedKeys()
    ensures "\"" + "order_id" + "\":" == "\"order_id\":"
    ensures "\"" + "include_order_items" + "\":" == "\"include_order_items\":"
  {
  }

  /** The literal pieces around the keys, joined. */
  lemma QueryLiterals()
    ensures "[{" + "\"order_id\":" == "[{\"order_id\":"
    ensures "," + "\"include_order_items\":" == ",\"include_order_items\":"
  {
  }

  /** Two properties are joined by one comma. */
  lemma TwoMembers(m0: (string, Value), m1: (string, Value))
    ensures StringifyMembers([m0, m1]) == StringifyMember(m0) + "," + StringifyMember(m1)
  {
    assert [m0, m1][1..] == [m1];
  }

  /** `order_id` is written as its quoted key and the unquoted decimal id. */
  lemma OrderIdMember(n: nat)
    ensures StringifyMember(("order_id", JNumber(n))) == "\"order_id\":" + NumberText(n)
  {
    QuotedKeys();
    KeyedMember("order_id", "\"order_id\":", JNumber(n));
  }

  /** `include_order_items` is written as its quoted key and a JSON literal. */
  lemma IncludeItemsMember(b: bool)
    ensures StringifyMember(("include_order_items", JBool(b))) == "\"include_order_items\":" + BoolText(b)
  {
    QuotedKeys();
    KeyedMember("include_order_items", "\"include_order_items\":", JBool(b));
  }

  /** The properties of a query: each quoted key, its colon and its value,
      separated by a comma. */
  lemma QueryMembersText(q: OrderQuery)
    ensures StringifyMembers(QueryValue(q).members) ==
      "\"order_id\":" + NumberText(q.orderId) + "," + ("\"include_order_items\":" + BoolText(q.includeOrderItems))
  {
    TwoMembers(("order_id", JNumber(q.orderId)), ("include_order_items", JBool(q.includeOrderItems)));
    OrderIdMember(q.orderId);
    IncludeItemsMember(q.includeOrderItems);
  }

  /** The text sent for a one-query list: the order id as an unquoted
      decimal integer and the flag as a JSON literal, keys in the order the
      query object declares them. */
  lemma SingleQueryText(q: OrderQuery)
    ensures Stringify(Queries([q])) ==
      "[{\"order_id\":" + NumberText(q.orderId) + ",\"include_order_items\":"
      + (if q.includeOrderItems then "true" else "false") + "}]"
  {
    var v := QueryValue(q);
    assert Queries([q]).items == [v];
    QueryMembersText(q);
    assert StringifyItems([v]) == Stringify(v);
    QueryRegroup("\"order_id\":", NumberText(q.orderId), "\"include_order_items\":", BoolText(q.includeOrderItems));
    QueryLiterals();
  }

  /** `config.orderParams`, the object handed to `preprocessParams`. */
  function OrderParams(qs: seq<OrderQuery>): Value
  {
    JObject([("method", JString(Method)), ("single_order_query", Queries(qs))])
  }

  /** `preprocessParams` as written: `order_id` is `params.toString()`,
      ToString of a plain object, which is `"[object Object]"` whatever the
      queries hold. The query list itself is sent as JSON text that gives it
      back. */
  function Preprocess(qs: seq<OrderQuery>, now: nat): (ps: ParamSet)
    ensures Keys(ps) == ["method", "single_order_query", "order_id", "timestamp"] && DistinctKeys(ps)
    ensures JsonParse.Parse(ps[1].1) == Some(Queries(qs))
    ensures ps[2].1 == "[object Object]"
  {
    JsonParse.StringifyRoundTrip(Queries(qs));
    [("method", Method), ("single_order_query", Stringify(Queries(qs))),
     ("order_id", ToJsString(OrderParams(qs))), ("timestamp", Timestamp(now))]
  }

  /** The configured query: the `order_id` sent is not the decimal text of
      the order being queried. */
  lemma OrderIdNotTheOrder()
    ensures var qs := [OrderQuery(8200267198681315, true)];
      Preprocess(qs, 0)[2].1 != NumberText(qs[0].orderId)
  {
    var qs := [OrderQuery(8200267198681315, true)];
    var t := NumberText(qs[0].orderId);
    assert IsDigit(t[0]);
    assert Preprocess(qs, 0)[2].1[0] == '[';
  }

  /** `order_id` as evidently intended: the decimal text of the queried
      order's id; with no query there is no id to send. */
  function IntendedPreprocess(qs: seq<OrderQuery>, now: nat): (r: Option<ParamSet>)
    ensures r.Some? <==> qs != []
    ensures r.Some? ==> Keys(r.value) == Keys(Preprocess(qs, now)) && DistinctKeys(r.value)
    ensures r.Some? ==> r.value[2].0 == "order_id" && forall i :: 0 <= i < |r.value[2].1| ==> IsDigit(r.value[2].1[i])
    ensures r.Some? ==> DigitsValue(r.value[2].1) == qs[0].orderId
    ensures r.Some? ==> forall i :: 0 <= i < 4 && i != 2 ==> r.value[i] == Preprocess(qs, now)[i]
  {
    if qs == [] then None
    else
      NumberTextRoundTrip(qs[0].orderId);
      var ps := Preprocess(qs, now);
      Some([ps[0], ps[1], ("order_id", NumberText(qs[0].orderId)), ps[3]])
  }

  /** `{ ...config.commonParams, ...preprocessParams(...) }`. */
  function BaseParams(c: Common, qs: seq<OrderQuery>, now: nat): (ps: ParamSet)
    ensures ps == CommonParams(c) + Preprocess(qs, now)
    ensures DistinctKeys(ps) && "sign" !in Keys(ps)
  {
    MergeCommon(c, Preprocess(qs, now));
    Spread(CommonParams(c), Preprocess(qs, now))
  }

  /** `buildRequest`: the `/sync` URL whose query holds the merged
      parameters in order and then their signature. */
  function BuildRequest(mac: Mac, secret: string, c: Common, qs: seq<OrderQuery>, now: nat): (url: string)
    ensures |url| > |SyncUrl| && url[..|SyncUrl| + 1] == SyncUrl + "?"
    ensures var base := BaseParams(c, qs, now);
      Parse(url[|SyncUrl| + 1..]) == Some(base + [("sign", Sign(mac, secret, "", base))])
  {
    SyncGet(mac, secret, BaseParams(c, qs, now))
  }

  /** The request with the intended `order_id`: the query reads back the
      queried order's id. */
  function IntendedBuildRequest(mac: Mac, secret: string, c: Common, qs: seq<OrderQuery>, now: nat)
    : (r: Option<string>)
    ensures r.Some? <==> qs != []
    ensures r.Some? ==>
      var base := CommonParams(c) + IntendedPreprocess(qs, now).value;
      |r.value| > |SyncUrl| && r.value[..|SyncUrl| + 1] == SyncUrl + "?" &&
      Parse(r.value[|SyncUrl| + 1..]) == Some(base + [("sign", Sign(mac, secret, "", base))]) &&
      Get(base, "order_id") == Some(NumberText(qs[0].orderId))
  {
    match IntendedPreprocess(qs, now)
    case None => None
    case Some(api) =>
      MergeCommon(c, api);
      var base := CommonParams(c) + api;
      assert DistinctKeys(base) && "sign" !in Keys(base) by {
        assert Keys(base) == Keys(CommonParams(c)) + Keys(api);
      }
      GetAt(base, 5);
      Some(SyncGet(mac, secret, base))
  }

  /** The signed text, with `order_id` as written. */
  lemma CanonicalString(c: Common, qs: seq<OrderQuery>, now: nat)
    ensures Canonicalize(BaseParams(c, qs, now)) ==
      Flatten([("access_token", c.accessToken), ("app_key", c.appKey), ("method", Method),
               ("order_id", "[object Object]"), ("sign_method", SignMethod),
               ("single_order_query", Stringify(Queries(qs))), ("timestamp", Timestamp(now))])
  {
    var sorted := [("access_token", c.accessToken), ("app_key", c.appKey), ("method", Method),
                   ("order_id", "[object Object]"), ("sign_method", SignMethod),
                   ("single_order_query", Stringify(Queries(qs))), ("timestamp", Timestamp(now))];
    var ps := BaseParams(c, qs, now);
    assert forall e :: e in ps <==> e in sorted;
    KeysInOrder();
    assert Keys(sorted) == ["access_token", "app_key", "method", "order_id", "sign_method",
                            "single_order_query", "timestamp"];
    CanonicalOfChain(ps, sorted);
  }

  /** The keys of the signed set, each before the next in code-unit order. */
  lemma KeysInOrder()
    ensures Adjacent(["access_token", "app_key", "method", "order_id", "sign_method", "single_order_query",
                      "timestamp"])
  {
    KeyPairs();
  }

  lemma KeyPairs()
    ensures KeyLess("access_token", "app_key")
    ensures KeyLess("app_key", "method")
    ensures KeyLess("method", "order_id")
    ensures KeyLess("order_id", "sign_method")
    ensures KeyLess("sign_method", "single_order_query")
    ensures KeyLess("single_order_query", "timestamp")
  {
    assert KeyLess("access_token", "app_key") by { KeyLessAt("access_token", "app_key", 1); }
    assert KeyLess("app_key", "method") by { KeyLessAt("app_key", "method", 0); }
    assert KeyLess("method", "order_id") by { KeyLessAt("method", "order_id", 0); }
    assert KeyLess("order_id", "sign_method") by { KeyLessAt("order_id", "sign_method", 0); }
    assert KeyLess("sign_method", "single_order_query") by {
      KeyLessAt("sign_method", "single_order_query", 2);
    }
    assert KeyLess("single_order_query", "timestamp") by {
      KeyLessAt("single_order_query", "timestamp", 0);
    }
  }
}
