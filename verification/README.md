# Signed request builders for the AliExpress dropshipping API

The repository is a set of TypeScript scripts. Each one builds one call
to the AliExpress open platform. The business calls go to
`https://api-sg.aliexpress.com/sync`. The two token calls go to
`https://api-sg.aliexpress.com/rest` followed by their API path.

The ten business scripts run the same routine:

1. Merge the common parameters (`app_key`, `access_token`,
   `sign_method`) with the call's own parameters, using object spread.
2. Turn numbers and booleans into text with `toString()`, and nested
   objects into JSON text with `JSON.stringify`.
3. Add a millisecond timestamp.
4. Sign the set: sort the keys, concatenate `key + value` for each, and
   take the HMAC-SHA256 of that text as upper-case hex.
5. Append `sign` and send the set, either as the query of a GET URL or
   as a form POST body.

The two token scripts, `System/RefreshToken.ts` and `CreatToken.ts`,
differ in three ways:

- They build their set as one object literal, with no spread and no
  `access_token`. The refresh call's set is `app_key`, `timestamp`,
  `sign_method`, `refresh_token` and `grant_type`. The create call's set
  is `app_key`, `timestamp`, `sign_method` and `code`.
- The text they sign puts the API path in front of the sorted
  concatenation.
- They send a POST with no body to `/rest` + API path, with the signed
  set and `sign` in the URL's query.

This project models the routine once, as pure functions and lemmas. It
then instantiates the routine for each of the twelve scripts.

Shared modules:

- `Record`: a JavaScript object as an ordered list of properties. Spread
  replaces a value in place and appends new keys.
- `KeyOrder`, `KeySort`: the default `Array.prototype.sort` order
  (UTF-16 code units). An insertion sort serves as the reference sort.
- `Canonical`: the concatenation of `key + value` over the sorted keys.
- `Hex`, `Signer`: the signature. The HMAC is a parameter `mac` that
  returns a 32-byte digest.
- `Decimal`, `Js`: `toString()` and `JSON.stringify` for the values the
  scripts use.
- `JsonParse`: a parser that serves as the reference inverse of
  `JSON.stringify`.
- `Utf8`, `FormUrlEncoded`: the application/x-www-form-urlencoded
  serializer of section 5.2 of the WHATWG URL Standard, with a reference
  parser.
- `Request`: the common parameters, the timestamp, appending `sign`, and
  the URL or form that is sent.

Endpoint modules:

- One module per script: `AddressGet`, `FeedItemidsGet`, `FeednameGet`,
  `OrderCreate`, `ProductGet`, `TextSearch`, `CreatToken`,
  `FreightQuery`, `ImageSearchV2`, `OrderGet`, `OrderTrackingGet` and
  `RefreshToken`.
- Each module states three things about its script:
  - the exact parameter set that is signed, keys in order;
  - that the query or form reads back as that set followed by `sign`;
  - the exact canonical string.

The clock reading (`now`, milliseconds) and the HMAC (`mac`) are
parameters of every operation.

## Model

| member | source | states |
|---|---|---|
| KeyOrder.KeyLessIsCodeUnitLess | Business/OrderCreate.ts:9 | the key order used to sort is exactly lexicographic order on UTF-16 code units, the order of the default `sort()` |
| KeyOrder.KeyLessStep | Business/OrderCreate.ts:9 | the empty key precedes every other key, and two keys compare by their first differing character |
| KeyOrder.KeyLessIrreflexive | Business/OrderCreate.ts:9 | no key precedes itself |
| KeyOrder.KeyLessTransitive | Business/OrderCreate.ts:9 | the key order is transitive |
| KeyOrder.KeyLessTotal | Business/OrderCreate.ts:9 | of two different keys, one precedes the other |
| KeyOrder.KeyLessAsymmetric | Business/OrderCreate.ts:9 | two keys never precede each other |
| KeyOrder.KeyLessAt | Business/OrderCreate.ts:9 | a key whose first difference from another is a smaller character precedes it |
| KeyOrder.KeyLessPrefix | Business/OrderCreate.ts:9 | a proper prefix precedes the longer key |
| KeySort.InsertPermutes | Business/OrderCreate.ts:9 | inserting a key adds exactly that key to the multiset of keys |
| KeySort.InsertIncreasing | Business/OrderCreate.ts:9 | inserting a new key into an increasing list keeps it increasing |
| KeySort.SortKeys | Business/OrderCreate.ts:9 | `Object.keys(params).sort()`: the result is a permutation of the keys, and it is increasing when the keys are distinct |
| KeySort.IncreasingUnique | Business/OrderCreate.ts:9 | two increasing lists with the same members are equal, so any correct sort of distinct keys gives the same list |
| KeySort.SortIncreasing | Business/OrderCreate.ts:9 | sorting keys that are already increasing leaves them unchanged |
| KeySort.IncreasingFromAdjacent | Business/OrderCreate.ts:9 | a list whose neighbours are in order is increasing |
| KeySort.AdjacentJoin | Business/OrderCreate.ts:9 | two ordered chains, the first ending before the second begins, form one chain |
| Canonical.ConcatenateEntries | Business/OrderCreate.ts:10 | looking up each key of a sub-list of the set gives that sub-list's `key + value` text |
| Canonical.CanonicalIsSortedConcatenation | Business/OrderCreate.ts:9-10 | the canonical string is the concatenation of `key + value` over the pairs taken in increasing key order, with no separators |
| Canonical.CanonicalOfChain | Business/OrderCreate.ts:9-10 | the same result, with the order of the keys given pair by neighbouring pair |
| Canonical.SortedEntriesSame | Business/OrderCreate.ts:9-10 | the pairs rearranged by sorted key are the same pairs, in increasing key order |
| Canonical.CanonicalIgnoresOrder | System/RefreshToken.ts:16-19 | two sets holding the same key/value pairs, in any insertion order, have the same canonical string |
| Canonical.SortExample | Business/OrderCreate.ts:9-10 | `{b: "2", a: "1"}` canonicalises to `a1b2` |
| Hex.HexDigitValue | System/RefreshToken.ts:27 | a hex digit of either case has a value below 16 |
| Hex.UpperDigit | System/RefreshToken.ts:27 | upper-casing a lower-case hex digit gives the upper-case digit of the same value |
| Hex.UpperHexCons | System/RefreshToken.ts:27 | each byte becomes two upper-case digits, high nibble first, followed by the rest |
| Hex.UpperHexShape | Business/OrderCreate.ts:11-14 | `digest('hex').toUpperCase()` has two characters per byte, each in `0-9A-F` |
| Hex.ParsePair | System/RefreshToken.ts:27 | two upper-case digits read back as the byte they render |
| Hex.UpperHexRoundTrip | Business/OrderCreate.ts:11-14 | the upper-case hex text determines the digest bytes: reading it back gives them |
| Signer.Sign | System/RefreshToken.ts:11-28 | the signature is 64 upper-case hex characters, and it reads back as the HMAC of `apiPath + canonical string` |
| Signer.SignIgnoresOrder | System/RefreshToken.ts:16-21 | the signature depends only on the key/value pairs, not on their insertion order |
| Decimal.NumberText | Business/TextSearch.ts:65-66 | `n.toString()` is a non-empty string of decimal digits with no leading zero |
| Decimal.NumberTextRoundTrip | Business/TextSearch.ts:65-66 | the decimal text of a number reads back as that number |
| Request.Timestamp | Business/OrderCreate.ts:5 | the timestamp is the decimal text of the clock reading, and it reads back as that reading |
| Request.WithSignAppends | Business/OrderCreate.ts:141-144 | `{...params, sign}` maps `sign` to the signature, and appends it last when the set had no `sign` |
| Request.SignedParams | Business/TextSearch.ts:81-86 | the set that is sent is the signed set followed by `sign`, which is the signature of the set without `sign` |
| Request.QueryUrl | Business/TextSearch.ts:83-88 | the URL is the endpoint, then `?`, then a query that reads back as the same pairs in the same order |
| Request.SyncGet | Business/TextSearch.ts:81-88 | a business GET is `/sync?` and a query that reads back as the signed set followed by its signature |
| Request.RestQueryUrl | System/RefreshToken.ts:48-54 | the URL a token call POSTs to is `/rest` + API path + `?` and a query that reads back as the set followed by its signature over the path and the set |
| Request.SyncPost | ImageSearchV2.ts:75-85 | a business POST goes to `/sync`, its form is the signed set followed by its signature, and the urlencoded body of that form reads back as the form |
| Request.SyncPostHasNoQuery | Business/OrderCreate.ts:140 | the URL of a form POST has no query part |
| Request.Texts | Business/ProductGet.ts:68-71 | turning each value into its text keeps every key in its place, and each value becomes its ToString text |
| Request.MergeCommon | Business/OrderCreate.ts:131-134 | spreading call parameters that repeat no common key after the common parameters appends them in order |
| Record.PutKeys | Business/ProductGet.ts:56-60 | defining a property keeps the keys in place, and appends the key when it is new |
| Record.PutGet | Business/ProductGet.ts:56-60 | after defining a property, that key reads the new value and every other key reads as before |
| Record.PutKeeps | Business/ProductGet.ts:56-60 | defining a property leaves every other property where it was, with its value |
| Record.PutPresent | Business/ProductGet.ts:57-59 | overriding an existing key replaces its value at its own position |
| Record.PutAbsent | Business/ProductGet.ts:61 | defining a new key appends it last |
| Record.PutDistinct | Business/ProductGet.ts:54-62 | defining a property never duplicates a key |
| Record.SpreadKeys | Business/ProductGet.ts:54-62 | the keys of a spread are the first object's keys followed by the second's new keys, in order |
| Record.SpreadGet | Business/ProductGet.ts:54-62 | in a spread, a key of the second object reads its value there, and any other key reads as in the first |
| Record.SpreadKeepsEntry | Business/ProductGet.ts:54-62 | a property of the first object that the second does not override keeps its place and value |
| Record.SpreadDistinct | Business/ProductGet.ts:54-62 | a spread never duplicates a key |
| Record.SpreadDisjoint | Business/AddressGet.ts:52-56 | spreading objects with disjoint keys concatenates them |
| Record.GetAt | Business/OrderCreate.ts:10 | looking up a property's key finds its value |
| Record.GetPresent | Business/OrderCreate.ts:10 | looking up a present key finds a value that the object holds under that key |
| Record.GetDefined | Business/OrderCreate.ts:112 | a lookup is defined exactly when the key is present |
| Utf8.EncodeCharDecode | System/RefreshToken.ts:24 | the UTF-8 bytes of one character decode back to it, whatever follows |
| Utf8.DecodeEncode | System/RefreshToken.ts:24 | the UTF-8 encoding of a string decodes back to the string |
| Utf8.EncodeAscii | System/RefreshToken.ts:24 | ASCII text encodes one byte per character |
| FormUrlEncoded.IndexOf | Business/TextSearch.ts:83 | the first position of a character, or the length when it is absent |
| FormUrlEncoded.EncodeByteDecode | Business/TextSearch.ts:83 | one percent-encoded byte decodes back to the byte |
| FormUrlEncoded.DecodeEncodeBytes | Business/TextSearch.ts:83 | percent-encoded bytes decode back to the bytes |
| FormUrlEncoded.ComponentRoundTrip | Business/TextSearch.ts:83 | an encoded name or value decodes back to itself and contains no `&` or `=` |
| FormUrlEncoded.PairRoundTrip | Business/TextSearch.ts:83 | an encoded `name=value` pair parses back to the pair |
| FormUrlEncoded.SerializeRoundTrip | Business/TextSearch.ts:83-86 | `new URLSearchParams(params).toString()` parses back to the same pairs in the same order |
| FormUrlEncoded.SerializeInjective | Business/TextSearch.ts:83-86 | different parameter lists give different queries |
| JsonParse.EscapeCharRoundTrip | FreightQuery.ts:62 | an escaped character of a JSON string reads back as that character |
| JsonParse.QuoteBodyRoundTrip | FreightQuery.ts:62 | the escaped body of a JSON string reads back as the string |
| JsonParse.NumberRoundTrip | FreightQuery.ts:62 | an integer's JSON text reads back as the integer |
| JsonParse.ValueRoundTrip | FreightQuery.ts:62 | a value's JSON text, followed by text that cannot continue it, reads back as the value |
| JsonParse.StringifyRoundTrip | FreightQuery.ts:62 | `JSON.parse(JSON.stringify(v))` gives `v` back, keys and their order included |
| JsonParse.StringifyInjective | FreightQuery.ts:62 | different values have different JSON texts |
| AddressGet.BaseParams | Business/AddressGet.ts:52-56 | the signed set is the common parameters, then method, language, countryCode, isMultiLanguage, then timestamp, with no value converted |
| AddressGet.BuildRequest | Business/AddressGet.ts:50-68 | the URL is `/sync?` and a query that reads back as the signed set followed by its signature |
| AddressGet.CanonicalString | Business/AddressGet.ts:59 | the canonical string lists the eight keys in sorted order; the empty isMultiLanguage contributes only its key |
| AddressGet.KeysInOrder | Business/AddressGet.ts:59 | the eight keys are in code-unit order as listed |
| OrderTrackingGet.BaseParams | OrderTrackingGet.ts:51-55 | the signed set is app_key, access_token, sign_method, method, ae_order_id, language, timestamp |
| OrderTrackingGet.BuildRequest | OrderTrackingGet.ts:49-67 | the URL is `/sync?` and a query that reads back as the signed set followed by its signature |
| OrderTrackingGet.CanonicalString | OrderTrackingGet.ts:58 | the canonical string lists the seven keys in sorted order |
| OrderTrackingGet.KeysInOrder | OrderTrackingGet.ts:58 | the seven keys are in code-unit order as listed |
| FeednameGet.BaseParams | Business/FeednameGet.ts:50-54 | the signed set is the common parameters, method, app_signature, timestamp |
| FeednameGet.BuildRequest | Business/FeednameGet.ts:48-66 | the URL is `/sync?` and a query that reads back as the signed set followed by its signature |
| FeednameGet.CanonicalString | Business/FeednameGet.ts:57 | the canonical string lists access_token, app_key, app_signature, method, sign_method, timestamp in that order |
| FeednameGet.KeysInOrder | Business/FeednameGet.ts:57 | those six keys are in code-unit order |
| FeedItemidsGet.Converted | Business/FeedItemidsGet.ts:54-57 | `page_size` becomes its decimal text and keeps its position; method, feed_name and search_id are unchanged |
| FeedItemidsGet.ConversionKeepsText | Business/FeedItemidsGet.ts:54-57 | the converted parameters are the text of every configured value, key by key |
| FeedItemidsGet.BaseParams | Business/FeedItemidsGet.ts:52-59 | the signed set is the common parameters, the converted parameters, then timestamp |
| FeedItemidsGet.BuildRequest | Business/FeedItemidsGet.ts:50-71 | the URL is `/sync?` and a query that reads back as the signed set followed by its signature |
| FeedItemidsGet.CanonicalString | Business/FeedItemidsGet.ts:62 | the canonical string lists the eight keys in sorted order; empty feed_name and search_id contribute only their keys |
| FeedItemidsGet.KeysInOrder | Business/FeedItemidsGet.ts:62 | the eight keys are in code-unit order as listed |
| ProductGet.Converted | Business/ProductGet.ts:56-60 | product_id becomes its decimal text and remove_personal_benefit becomes `"true"` or `"false"`, both at their own positions; every other value is unchanged |
| ProductGet.ConversionKeepsText | Business/ProductGet.ts:56-60 | the converted parameters are the text of every configured value, key by key |
| ProductGet.BaseParams | Business/ProductGet.ts:54-62 | the signed set is the common parameters, the converted parameters, then timestamp last |
| ProductGet.BuildRequest | Business/ProductGet.ts:52-74 | the URL is `/sync?` and a query that reads back as the signed set followed by its signature |
| ProductGet.CanonicalString | Business/ProductGet.ts:65 | the canonical string lists the ten keys in sorted order |
| ProductGet.KeysInOrder | Business/ProductGet.ts:65 | the ten keys are in code-unit order as listed |
| TextSearch.Preprocess | Business/TextSearch.ts:57-72 | preprocessing gives exactly the eleven keys in declaration order, then timestamp, all distinct |
| TextSearch.BaseParams | Business/TextSearch.ts:76-79 | the signed set is the common parameters followed by the preprocessed parameters |
| TextSearch.BuildRequest | Business/TextSearch.ts:75-89 | the URL is `/sync?` and a query that reads back as the signed set followed by its signature |
| TextSearch.CanonicalString | Business/TextSearch.ts:81 | the canonical string lists the fifteen keys in sorted order; pageSize and pageIndex appear as decimal text, and categoryId as given |
| TextSearch.KeysInOrder | Business/TextSearch.ts:81 | the fifteen keys are in code-unit order as listed |
| ImageSearchV2.Preprocess | ImageSearchV2.ts:60-66 | preprocessing gives method, param0, timestamp; param0 is JSON text that reads back as the image query with its keys in declaration order |
| ImageSearchV2.BaseParams | ImageSearchV2.ts:70-73 | the signed set is the common parameters followed by the preprocessed parameters |
| ImageSearchV2.BuildRequest | ImageSearchV2.ts:69-86 | the request goes to `/sync`, and its form is the signed set followed by its signature |
| ImageSearchV2.CanonicalString | ImageSearchV2.ts:75 | the canonical string lists the six keys in sorted order, with param0 as its JSON text |
| ImageSearchV2.KeysInOrder | ImageSearchV2.ts:75 | the six keys are in code-unit order as listed |
| FreightQuery.Preprocess | FreightQuery.ts:59-65 | preprocessing gives method, queryDeliveryReq, timestamp; queryDeliveryReq is JSON text that reads back as the delivery request, with productId and quantity as numbers |
| FreightQuery.BaseParams | FreightQuery.ts:69-72 | the signed set is the common parameters followed by the preprocessed parameters |
| FreightQuery.BuildRequest | FreightQuery.ts:68-82 | the URL is `/sync?` and a query that reads back as the signed set followed by its signature |
| FreightQuery.CanonicalString | FreightQuery.ts:74 | the canonical string lists the six keys in sorted order |
| FreightQuery.KeysInOrder | FreightQuery.ts:74 | the six keys are in code-unit order as listed |
| OrderGet.SingleQueryText | OrderGet.ts:43-56 | a one-query list such as the configured one is sent as `[{"order_id":` + the id's decimal digits + `,"include_order_items":` + `true` or `false` + `}]`: the id is an unquoted integer and the flag a JSON literal |
| OrderGet.Preprocess | OrderGet.ts:54-61 | preprocessing gives method, single_order_query, order_id, timestamp; single_order_query reads back as the query array, and order_id is `"[object Object]"` |
| OrderGet.OrderIdNotTheOrder | OrderGet.ts:58 | for the configured query, the order_id sent is not the decimal text of the queried order |
| OrderGet.IntendedPreprocess | OrderGet.ts:54-61 | corrected: order_id is the decimal text of the first query's id, and the other parameters are as written; with no query there is no request |
| OrderGet.BaseParams | OrderGet.ts:65-68 | the signed set is the common parameters followed by the preprocessed parameters |
| OrderGet.BuildRequest | OrderGet.ts:64-78 | the URL is `/sync?` and a query that reads back as the signed set followed by its signature |
| OrderGet.IntendedBuildRequest | OrderGet.ts:64-78 | corrected: the query reads back as the signed set followed by its signature, and its order_id is the queried order's id |
| OrderGet.CanonicalString | OrderGet.ts:70 | the canonical string lists the seven keys in sorted order, with order_id as `"[object Object]"` |
| OrderGet.KeysInOrder | OrderGet.ts:70 | the seven keys are in code-unit order as listed |
| OrderCreate.ProcessItem | Business/OrderCreate.ts:114-118 | product_id and product_count become decimal text at their own positions; sku_attr and logistics_service_name are unchanged |
| OrderCreate.ProcessAddress | Business/OrderCreate.ts:110-113 | is_foreigner becomes the text of its value; every other address field keeps its position and value, and no key is added |
| OrderCreate.ProcessedOrder | Business/OrderCreate.ts:108-119 | the order request keeps out_order_id, and its address and items are replaced in place by their processed forms, item count and order kept |
| OrderCreate.Preprocess | Business/OrderCreate.ts:106-127 | preprocessing gives method, ds_extend_request, param_place_order_request4_open_api_d_t_o, timestamp; both nested values are JSON text that reads back as the extension request and the processed order request |
| OrderCreate.ForeignerFlagIsText | Business/OrderCreate.ts:110-113 | a boolean is_foreigner reaches the order request's JSON as the string `"true"` or `"false"`, not as a JSON boolean |
| OrderCreate.BaseParams | Business/OrderCreate.ts:131-134 | the signed set is exactly app_key, access_token, sign_method, then the preprocessed parameters, without `sign` |
| OrderCreate.BuildRequest | Business/OrderCreate.ts:130-146 | the request goes to `/sync`, and its params are the signed set followed by its signature |
| OrderCreate.CanonicalString | Business/OrderCreate.ts:137 | the canonical string lists the seven keys in sorted order, with both nested requests as JSON text |
| OrderCreate.KeysInOrder | Business/OrderCreate.ts:137 | the seven keys are in code-unit order as listed |
| RefreshToken.Params | System/RefreshToken.ts:40-46 | the signed set is exactly app_key, timestamp, sign_method, refresh_token, grant_type in that order, with grant_type fixed to `refresh_token` and no `sign` |
| RefreshToken.RefreshTokenRequest | System/RefreshToken.ts:31-55 | the URL is `/rest/auth/token/refresh?` and a query that reads back as app_key, timestamp, sign_method, refresh_token, grant_type, then the signature over the path and that set |
| RefreshToken.SignedText | System/RefreshToken.ts:16-21 | the signed text is `/auth/token/refresh` followed by app_key, grant_type (`refresh_token`), refresh_token, sign_method and timestamp, each key followed by its value |
| RefreshToken.KeysInOrder | System/RefreshToken.ts:16 | the five keys are in code-unit order as listed |
| CreatToken.Params | CreatToken.ts:40-45 | the signed set is exactly app_key, timestamp, sign_method, code in that order, with no `sign` |
| CreatToken.AuthTokenRequest | CreatToken.ts:31-54 | the URL is `/rest/auth/token/create?` and a query that reads back as app_key, timestamp, sign_method, code, then the signature over the path and that set |
| CreatToken.SignedText | CreatToken.ts:16-21 | the signed text is `/auth/token/create` followed by app_key, code, sign_method and timestamp, each key followed by its value |
| CreatToken.KeysInOrder | CreatToken.ts:16 | the four keys are in code-unit order as listed |

## Left out

- The HTTP transport (`fetchData`, `fetchAuthResponse`, `fetchRefreshResponse`) is not modelled. It is axios network I/O and its error re-throwing.
- The script entry points are not modelled: the async IIFE / `.then` blocks and all console output.
- The clock is the parameter `now`. The model does not read `Date.now()`.
- HMAC-SHA256 is the parameter `mac`, which returns 32 bytes. The model states nothing that depends on the hash itself.
- Numbers are non-negative integers (`nat`), rendered in decimal. Fractions, negatives and values above 2^53 are not modelled. Every number in the source is a safe integer.
- Keys that look like array indices would be ordered first by JavaScript objects. Plain insertion order is modelled instead, because no key in the source is an array index.
- OrderCreate.BuildRequest: the form of the POST body is modelled as the signed set followed by `sign`. axios's own encoding of that plain object into the request body is not modelled.
- The scripts' configured constants (the empty app key and secret, the sample order, product and address) are not fixed. They are inputs of each operation.
- OrderCreate.ProcessAddress: the address is any object that has an `is_foreigner` property. The 28 configured address fields are not fixed, and the model keeps whatever fields the address holds.
- Strings are sequences of Unicode scalar values. Lone surrogates, and the replacement characters that UTF-8 encoding would put in their place, are not modelled.
- KeySort.SortKeys is an insertion sort standing in for the engine's sort. KeySort.IncreasingUnique shows that any correct sort gives the same list for distinct keys.
- Token lifecycle is not modelled: no refresh scheduling, token storage or concurrency. The source has none.

## Findings

| source | as written | input that shows it | evidently intended | confidence | as-written member | corrected member |
|---|---|---|---|---|---|---|
| OrderGet.ts:58 | `order_id: params.toString()` calls ToString on the whole parameter object, so `order_id` is always `"[object Object]"` | the configured query list, `[{order_id: 8200267198681315, include_order_items: true}]` | `order_id` carries the decimal text of the queried order's id. The model takes the first query's id; the provider's exact field contract is not known here | not executed | OrderGet.OrderIdNotTheOrder | OrderGet.IntendedPreprocess |
