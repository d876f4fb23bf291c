/** `Business/OrderCreate.ts`: placing an order, a form POST to `/sync`
    whose extension request and order request travel as JSON texts. Before
    the order request is serialised, the address's `is_foreigner` flag and
    each item's product id and count are turned into text by spreads that
    override them in place. */
module OrderCreate {
  import opened Wrappers
  import opened Record
  import opened Decimal
  import opened KeyOrder
  import opened KeySort
  import opened Canonical
  import opened Signer
  import opened Js
  import opened Request
  import JsonParse

  const Method: string := "aliexpress.ds.order.create"
  const ExtendKey: string := "ds_extend_request"
  const OrderKey: string := "param_place_order_request4_open_api_d_t_o"

  /** `ds_extend_request`: payment, promotion and trade settings. */
  datatype ExtendRequest = ExtendRequest(
    payCurrency: string, tryToPay: string, promotionCode: string, promotionChannelInfo: string,
    businessModel: string)

  function ExtendValue(e: ExtendRequest): Value
  {
    JObject([("payment", JObject([("pay_currency", JString(e.payCurrency)), ("try_to_pay", JString(e.tryToPay))])),
             ("promotion", JObject([("promotion_code", JString(e.promotionCode)),
                                    ("promotion_channel_info", JString(e.promotionChannelInfo))])),
             ("trade_extra_param", JObject([("business_model", JString(e.businessModel))]))])
  }

  /** One element of `product_items`: the product id and count are numbers. */
  datatype OrderItem = OrderItem(productId: nat, productCount: nat, skuAttr: string, logisticsServiceName: string)

  function ItemEntries(it: OrderItem): Entries<Value>
  {
    [("product_id", JNumber(it.productId)), ("product_count", JNumber(it.productCount)),
     ("sku_attr", JString(it.skuAttr)), ("logistics_service_name", JString(it.logisticsServiceName))]
  }

  /** `{ ...item, product_id: ....toString(), product_count: ....toString() }`:
      both keep their places and take their decimal text. */
  function ProcessItem(it: OrderItem): (m: Entries<Value>)
    ensures m == [("product_id", JString(NumberText(it.productId))),
                  ("product_count", JString(NumberText(it.productCount))),
                  ("sku_attr", JString(it.skuAttr)), ("logistics_service_name", JString(it.logisticsServiceName))]
  {
    var overrides := [("product_id", JString(NumberText(it.productId))),
                      ("product_count", JString(NumberText(it.productCount)))];
    var first := Put(ItemEntries(it), "product_id", overrides[0].1);
    assert Spread(ItemEntries(it), overrides) == Spread(first, overrides[1..]);
    assert overrides[1..][1..] == [];
    PutPresent(ItemEntries(it), 0, overrides[0].1);
    PutPresent(first, 1, overrides[1].1);
    Spread(ItemEntries(it), overrides)
  }

  /** `param_place_order_request4_open_api_d_t_o` as configured: the
      address is an object holding an `is_foreigner` flag among its other
      properties. */
  datatype PlaceOrder = PlaceOrder(outOrderId: string, address: Entries<Value>, items: seq<OrderItem>)

  /** `{ ...address, is_foreigner: address.is_foreigner.toString() }`: the
      flag keeps its place and takes its text; nothing else changes. */
  function ProcessAddress(a: Entries<Value>): (m: Entries<Value>)
    requires Get(a, "is_foreigner").Some?
    ensures Keys(m) == Keys(a)
    ensures Get(m, "is_foreigner") == Some(JString(ToJsString(Get(a, "is_foreigner").value)))
    ensures forall i :: 0 <= i < |a| && a[i].0 != "is_foreigner" ==> m[i] == a[i]
  {
    var flag := JString(ToJsString(Get(a, "is_foreigner").value));
    GetDefined(a, "is_foreigner");
    assert Spread(a, [("is_foreigner", flag)]) == Spread(Put(a, "is_foreigner", flag), []);
    PutKeys(a, "is_foreigner", flag);
    PutGet(a, "is_foreigner", flag, "is_foreigner");
    forall i | 0 <= i < |a| && a[i].0 != "is_foreigner"
      ensures Put(a, "is_foreigner", flag)[i] == a[i]
    {
      PutKeeps(a, "is_foreigner", flag, i);
    }
    Spread(a, [("is_foreigner", flag)])
  }

  function RawOrder(o: PlaceOrder): Entries<Value>
  {
    [("out_order_id", JString(o.outOrderId)), ("logistics_address", JObject(o.address)),
     ("product_items", JArray(seq(|o.items|, i requires 0 <= i < |o.items| => JObject(ItemEntries(o.items[i])))))]
  }

  /** `processedOrderRequest`: the configured order request with the address
      and the items replaced in place by their processed forms. */
  function ProcessedOrder(o: PlaceOrder): (m: Entries<Value>)
    requires Get(o.address, "is_foreigner").Some?
    ensures m == [("out_order_id", JString(o.outOrderId)), ("logistics_address", JObject(ProcessAddress(o.address))),
                  ("product_items",
                   JArray(seq(|o.items|, i requires 0 <= i < |o.items| => JObject(ProcessItem(o.items[i])))))]
  {
    var items := JArray(seq(|o.items|, i requires 0 <= i < |o.items| => JObject(ProcessItem(o.items[i]))));
    var overrides := [("logistics_address", JObject(ProcessAddress(o.address))), ("product_items", items)];
    var first := Put(RawOrder(o), "logistics_address", overrides[0].1);
    assert Spread(RawOrder(o), overrides) == Spread(first, overrides[1..]);
    assert overrides[1..][1..] == [];
    PutPresent(RawOrder(o), 1, overrides[0].1);
    assert first == [RawOrder(o)[0], overrides[0], RawOrder(o)[2]];
    PutPresent(first, 2, overrides[1].1);
    assert Spread(first, overrides[1..]) == Spread(Put(first, "product_items", items), []);
    Spread(RawOrder(o), overrides)
  }

  /** `preprocessParams`: the method, both requests as JSON texts, the
      timestamp. Each JSON text gives back its request, with the processed
      address and items. */
  function Preprocess(e: ExtendRequest, o: PlaceOrder, now: nat): (ps: ParamSet)
    requires Get(o.address, "is_foreigner").Some?
    ensures Keys(ps) == ["method", ExtendKey, OrderKey, "timestamp"] && DistinctKeys(ps)
    ensures JsonParse.Parse(ps[1].1) == Some(ExtendValue(e))
    ensures JsonParse.Parse(ps[2].1) == Some(JObject(ProcessedOrder(o)))
  {
    JsonParse.StringifyRoundTrip(ExtendValue(e));
    JsonParse.StringifyRoundTrip(JObject(ProcessedOrder(o)));
    [("method", Method), (ExtendKey, Stringify(ExtendValue(e))), (OrderKey, Stringify(JObject(ProcessedOrder(o)))),
     ("timestamp", Timestamp(now))]
  }

  /** What the server reads back for the address: the foreigner flag is the
      JSON string `"false"` or `"true"`, not a JSON boolean. */
  lemma ForeignerFlagIsText(e: ExtendRequest, o: PlaceOrder, now: nat, b: bool)
    requires Get(o.address, "is_foreigner") == Some(JBool(b))
    ensures Get(o.address, "is_foreigner").Some?
    ensures var order := ProcessedOrder(o);
      JsonParse.Parse(Preprocess(e, o, now)[2].1) == Some(JObject(order)) &&
      order[1] == ("logistics_address", JObject(ProcessAddress(o.address))) &&
      Get(ProcessAddress(o.address), "is_foreigner") == Some(JString(BoolText(b)))
  {
  }

  /** `{ ...config.commonParams, ...preprocessParams(...) }`. */
  function BaseParams(c: Common, e: ExtendRequest, o: PlaceOrder, now: nat): (ps: ParamSet)
    requires Get(o.address, "is_foreigner").Some?
    ensures ps == CommonParams(c) + Preprocess(e, o, now)
    ensures DistinctKeys(ps) && "sign" !in Keys(ps)
  {
    MergeCommon(c, Preprocess(e, o, now));
    Spread(CommonParams(c), Preprocess(e, o, now))
  }

  /** `buildRequest`: the `/sync` URL and the merged parameters followed by
      their signature, to be posted as a form. */
  function BuildRequest(mac: Mac, secret: string, c: Common, e: ExtendRequest, o: PlaceOrder, now: nat)
    : (r: FormPost)
    requires Get(o.address, "is_foreigner").Some?
    ensures r.url == SyncUrl
    ensures var base := BaseParams(c, e, o, now); r.data == base + [("sign", Sign(mac, secret, "", base))]
  {
    SyncPost(mac, secret, BaseParams(c, e, o, now))
  }

  /** The signed text: both requests are signed as their JSON texts. */
  lemma CanonicalString(c: Common, e: ExtendRequest, o: PlaceOrder, now: nat)
    requires Get(o.address, "is_foreigner").Some?
    ensures Canonicalize(BaseParams(c, e, o, now)) ==
      Flatten([("access_token", c.accessToken), ("app_key", c.appKey), (ExtendKey, Stringify(ExtendValue(e))),
               ("method", Method), (OrderKey, Stringify(JObject(ProcessedOrder(o)))),
               ("sign_method", SignMethod), ("timestamp", Timestamp(now))])
  {
    var sorted := [("access_token", c.accessToken), ("app_key", c.appKey), (ExtendKey, Stringify(ExtendValue(e))),
                   ("method", Method), (OrderKey, Stringify(JObject(ProcessedOrder(o)))),
                   ("sign_method", SignMethod), ("timestamp", Timestamp(now))];
    var ps := BaseParams(c, e, o, now);
    assert forall e :: e in ps <==> e in sorted;
    KeysInOrder();
    assert Keys(sorted) == ["access_token", "app_key", ExtendKey, "method", OrderKey, "sign_method",
                            "timestamp"];
    CanonicalOfChain(ps, sorted);
  }

  /** The keys of the signed set, each before the next in code-unit order. */
  lemma KeysInOrder()
    ensures Adjacent(["access_token", "app_key", ExtendKey, "method", OrderKey, "sign_method", "timestamp"])
  {
    KeyPairs();
  }

  lemma KeyPairs()
    ensures KeyLess("access_token", "app_key")
    ensures KeyLess("app_key", ExtendKey)
    ensures KeyLess(ExtendKey, "method")
    ensures KeyLess("method", OrderKey)
    ensures KeyLess(OrderKey, "sign_method")
    ensures KeyLess("sign_method", "timestamp")
  {
    assert KeyLess("access_token", "app_key") by { KeyLessAt("access_token", "app_key", 1); }
    assert KeyLess("app_key", ExtendKey) by { KeyLessAt("app_key", ExtendKey, 0); }
    assert KeyLess(ExtendKey, "method") by { KeyLessAt(ExtendKey, "method", 0); }
    assert KeyLess("method", OrderKey) by { KeyLessAt("method", OrderKey, 0); }
    assert KeyLess(OrderKey, "sign_method") by { KeyLessAt(OrderKey, "sign_method", 0); }
    assert KeyLess("sign_method", "timestamp") by { KeyLessAt("sign_method", "timestamp", 0); }
  }
}
