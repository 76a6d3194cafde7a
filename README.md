# floatdream-backend: order, payment and session rules in Dafny

This project models the core of a top-up backend for a game server. Users
pay through the xorpay gateway. The model covers six pieces:

- **Order placement and payment-callback reconciliation.** `placeOrder` validates the form, draws a 32-character order id and sends a signed payment request. It inserts the unpaid order only if the gateway accepted the request. `storeOrder` handles the gateway's callback: it checks the signature, parses the pay time and the transaction detail, and finds the order by platform order id and owner. It refuses an order that is already paid with 409. Otherwise it writes the paid time and transaction fields once and broadcasts the order.
- **The server-sent-events wait loop** (`pollOrderStatus`). It writes "connected", sends a keep-alive on each tick, and ignores messages for other orders or owners. It stops at the first expiry, cancellation or matching message.
- **The xorpay client.** This covers the session record, the MD5 signature over the outbound fields, the payment form, the status check on the gateway's answer and the verification of callbacks.
- **The session-token middleware** (`needValidation`) and the AuthMe password check (`$SHA$salt$hash`).
- **The latency cache** behind the server-status endpoint.
- **The AuthMe row's post-load conversion** (`AfterFind`).

Files and modules:

- `common.dfy` (`Common`): options, results, strings, nanosecond time, HTTP responses.
- `strings.dfy` (`Strings`): `TrimPrefix`, `Split`/join, concatenation, decimal formatting.
- `xorpay.dfy` (`Xorpay`): xorpay/payment.go.
- `types.dfy` (`Types`): the rows the handlers use, and `AuthMeUser`.
- `authorizer.dfy` (`Authorizer`): authorizer.go.
- `orders.dfy` (`Orders`): validation, order ids, the order table (handler_order.go).
- `order_stream.dfy` (`OrderStream`): the SSE loop (handler_order.go).
- `server_status.dfy` (`ServerStatus`): handle_server.go.

MD5-hex and SHA-256-hex are uninterpreted digests: a function-typed parameter `Digest`. Outside effects are parameters too:

- the gateway's HTTP answer (`Gateway`);
- time parsing and JSON decoding of the callback detail;
- store faults, each lookup's failure included;
- random draws for the order id;
- the success of each SSE write;
- the TCP probe (`Probe`).

Go's `Token` and `Order` in types.go come from an older version of the program and lack `PlatformOrderID`, `PaidAt` and `ExpireAt`. The records here carry the fields the handlers read and write.

The order table is a class. It holds the rows keyed by order id and a unique index from platform order id to order id. The callback's lookup "platform id and owner" is an explicit key predicate (`FindByPlatform`). It does not use the ORM's query-by-struct.

Behaviour of the code that a reader might not expect (the model follows the code):

- The callback parses the pay time before the transaction detail.
- A callback for an order that is not in the table is answered 500 with the database-error message, because the ORM's `Find` reports "record not found" as an error. It is not answered 404.
- The broadcast after a successful callback carries the order as loaded *before* the update, so its `PaidAt` is unset. `Orders.OrderStore.StoreOrder` states this (`broadcast == Some(Broadcast(o.orderID, o))`, where `o` is the unpaid row).
- A duplicate callback is answered 409, a conflict status.
- The callback handler reads the owner from the session token in the request context, so the owner is a parameter of `StoreOrder`.
- The callback signature joins its fields with no separator, so it does not bind field boundaries (`Xorpay.SignDoesNotBindFieldBoundaries`).
- `listOrder` never runs the validator (see Findings).

## Model

| member | source | states |
|---|---|---|
| `Strings.TrimPrefix` | authorizer.go:24 | one leading copy of the prefix is removed when present; otherwise the string is unchanged |
| `Strings.TrimPrefixRemovesOnce` | authorizer.go:24 | only one copy is removed: "Bearer Bearer x" becomes "Bearer x" |
| `Strings.Split` | authorizer.go:63 | the pieces of `strings.Split`: never empty, no piece holds `$`, rejoining gives the input, one more piece than separators |
| `Strings.SplitJoin` | authorizer.go:63-68 | splitting a `$`-join of `$`-free segments gives back exactly those segments |
| `Strings.FormatUint` | xorpay/payment.go:78 | decimal text of the price: non-empty, digits only, no leading zero |
| `Strings.ParseFormatUint` | xorpay/payment.go:93 | reading the decimal price back gives the price |
| `Strings.FormatUintInjective` | xorpay/payment.go:78 | distinct prices have distinct decimal text, so the signed price is unambiguous |
| `Xorpay.New` | xorpay/payment.go:62-72 | notify URL, app id and secret are copied unchanged; the pay URL is "https://xorpay.com/api/pay/" followed by the app id |
| `Xorpay.PayURLNamesApp` | xorpay/payment.go:18 | stripping the gateway prefix from the pay URL gives back the app id |
| `Xorpay.CalculateSign` | xorpay/payment.go:74-85 | the signature is the digest of name ++ pay type ++ decimal price ++ order id ++ notify URL ++ secret, with no separators |
| `Xorpay.PayForm` | xorpay/payment.go:90-96 | the form has exactly the keys name, pay_type, price, order_id, notify_url and sign, holding the transaction fields, the decimal price and `CalculateSign` |
| `Xorpay.PayFormSignVerifiable` | xorpay/payment.go:90-96 | a party holding the secret recomputes the form's sign from the form's own fields |
| `Xorpay.Pay` | xorpay/payment.go:89-113 | the form goes to the session's pay URL; the result is Ok iff the answer decoded with status "ok", and then it is that answer; transport, decode and status failures are errors |
| `Xorpay.CheckSign` | xorpay/payment.go:115-127 | true iff `sign` equals the digest of aoid ++ order_id ++ pay_price ++ pay_time ++ secret |
| `Xorpay.TamperedCallbackRefused` | xorpay/payment.go:115-127 | under an injective digest, an accepted callback with any of aoid, order id, pay price or pay time changed (each keeping its length) and the same sign is refused |
| `Xorpay.CheckSignIgnoresDetail` | xorpay/payment.go:116-122 | changing only `detail` never changes the verdict |
| `Xorpay.SignDoesNotBindFieldBoundaries` | xorpay/payment.go:116-122 | two callbacks that split the same text differently between aoid and order id get the same verdict under every digest |
| `Types.UnixSeconds` | types.go:48 | `time.Unix(s, 0)` is exactly s whole seconds on the nanosecond line |
| `Types.AuthMeUser.TableName` | types.go:36-38 | the table is always "authme" |
| `Types.AuthMeUser.AfterFind` | types.go:40-52 | `loggedIn` iff the raw flag is non-zero; `lastLogin` is set from the raw seconds only when valid, otherwise unchanged; the error is nil; username, password and tokens are untouched |
| `Authorizer.BearerToken` | authorizer.go:23-24 | the token is the header with one leading "Bearer " removed, or the header unchanged |
| `Authorizer.TokenStore.NeedValidation` | authorizer.go:20-51 | unknown token or failed lookup: 401, store unchanged; expiry before now: row deleted (if the delete succeeds), 426; live: expiry set to now+24h; failed save: 401 and store unchanged; only on success does the request proceed with the renewed token, which is the presented token's own row |
| `Authorizer.SessionSlides` | authorizer.go:41-49 | after a successful check, a request within the next 24 hours proceeds too and renews again |
| `Authorizer.ExpiredThenUnknown` | authorizer.go:36-39 | after an expired token is deleted, presenting it again gives 401, not 426 |
| `Authorizer.AuthMeCalculateHash` | authorizer.go:53-60 | hash = sha256hex(sha256hex(password) ++ salt) |
| `Authorizer.CheckUserCredentialsAsWritten` | authorizer.go:62-75 | the code as written: segment 1 must be "SHA"; it indexes past the end (a panic) when there are fewer than 2 segments, or fewer than 4 with "SHA"; otherwise true iff segment 3 is the hash of the attempt salted with segment 2 |
| `Authorizer.TruncatedStoredHashPanics` | authorizer.go:64-68 | the stored value "$SHA$salt" makes the code as written index past the end |
| `Authorizer.CheckUserCredentials` | authorizer.go:62-75 | true iff there are at least 4 segments, segment 1 is "SHA" and segment 3 is the hash of the attempt salted with segment 2 |
| `Authorizer.CheckUserCredentialsAgrees` | authorizer.go:62-75 | the corrected check agrees with the code wherever the code does not panic |
| `Authorizer.StoredHashAccepted` | authorizer.go:53-75 | the right password is accepted against "$SHA$salt$hash" made from it |
| `Authorizer.OnlyStoredPasswordAccepted` | authorizer.go:53-75 | with an injective digest, only the password the stored value was made from is accepted |
| `Orders.PlaceOrderRules` | handler_order.go:42-45 | the place-order tags accept exactly 1 ≤ price ≤ 10000 and payment alipay or native |
| `Orders.ListOrderQueryAsWritten` | handler_order.go:74-98 | as written: unbindable query: 400; failed owner filter: 400 with the database-error message; otherwise the bound query reaches the paginator unchanged, with ORDER BY = sort_key ++ " " ++ sort_order |
| `Orders.ListOrderSkipsValidation` | handler_order.go:34-40 | a limit of 26, or a sort key outside the allow-list, violates the tags yet is passed on as written |
| `Orders.ListOrderQuery` | handler_order.go:34-40 | with the tags enforced: invalid queries get 400 before the store is touched; a failed owner filter gets 400 with the database-error message; an accepted query is passed on exactly as the code as written passes it (its own page ≥ 1, its own limit 1..25, ORDER BY = its sort key ++ " " ++ its sort order), which is then one of four allowed orderings |
| `Orders.AlphabetLayout` | handler_order.go:24 | the id alphabet is a–z then 0–9, 36 characters |
| `Orders.AlphabetIsLowerAlnum` | handler_order.go:24 | every alphabet character is a lower-case letter or digit, and none repeats |
| `Orders.NewOrderID` | handler_order.go:182-183 | a drawn id has length 32 and only alphabet characters |
| `Orders.EveryOrderIDCanBeDrawn` | handler_order.go:182-183 | every well-formed id is produced by some draw |
| `Orders.PaidFrozenTransitive` | handler_order.go:268-273 | "paid rows never change" composes over a sequence of operations, so over sequential callbacks the paid time goes from unset to set at most once |
| `Orders.OrderStore.FindByPlatform` | handler_order.go:251-266 | finds the row whose platform id and owner both match, or reports that none does |
| `Orders.OrderStore.QueryOrderStatus` | handler_order.go:100-112 | the order is returned iff the lookup succeeds and its id and owner both match; otherwise 400 "未找到订单" |
| `Orders.OrderStore.PlaceOrder` | handler_order.go:171-215 | invalid or unbindable form: 400 and no gateway call; a failed `Pay`: 500 with the framework's HTTP-error body and nothing inserted; a refused insert: 500 and nothing inserted; otherwise the unpaid order (request price and payment kind, gateway platform id, caller as owner) is inserted and 201 returns id, QR and expiry hint; paid rows never change |
| `Orders.OrderStore.StoreOrder` | handler_order.go:217-303 | bad signature: 406 before anything else is read, no change; then 500/400/400/424 for time zone, pay time, detail and query; failed lookup or missing order: 500; already paid: 409, no update, no broadcast; failed write: 500; otherwise paid time and transaction fields set on that row only, the order broadcast under its id, 202 |
| `Orders.RedeliveredCallback` | handler_order.go:268-273 | delivering the same signed callback twice: the second answer is 409, the table stays as the first delivery left it, and nothing is broadcast |
| `Orders.PlaceThenPay` | handler_order.go:171-303 | placing an order, then sending a correctly signed callback for its platform id, leaves the order paid at the callback's time and broadcasts it under its id |
| `OrderStream.PollOrderStatus` | handler_order.go:114-169 | the loop writes exactly the frames of `Poll` and ends as it says: 500 after a failed write, 200 after a terminal event |
| `OrderStream.PollBeginsConnected` | handler_order.go:119-121 | the first frame is "event: connected"; if that write fails nothing else happens |
| `OrderStream.LoopIgnoresOtherMessages` | handler_order.go:156-165 | a message for another order or owner, inserted anywhere, changes neither frames nor outcome |
| `OrderStream.LoopStopsAtFirstTerminal` | handler_order.go:148-165 | events after the first expiry, cancellation or matching message are never read |
| `OrderStream.LoopWhenWritesSucceed` | handler_order.go:139-167 | with every write succeeding: one keep-alive per tick before the first terminal event, then "expired", "received" with the id, or nothing on cancellation; it ends Expired, Delivered or ClientClosed, or keeps waiting if no terminal event came |
| `OrderStream.DeliveredOnlyOnMatch` | handler_order.go:159-164 | a delivered stream ends with "received" for the subscriber's own order id, and a message matching both id and owner occurred |
| `ServerStatus.GetFreshStatus` | handle_server.go:33-44 | -1 exactly when the dial or the close failed; otherwise the measured latency |
| `ServerStatus.StatusResponse` | handle_server.go:64-73 | offline: 503 with {false, -1}; online: 200 with {true, latency} |
| `ServerStatus.CachedServerStatus.constructor` | handle_server.go:46-54 | the new cache holds the first probe's latency, the time it ended, the address and the interval |
| `ServerStatus.CachedServerStatus.Get` | handle_server.go:56-62 | re-probes only when lastUpdate + interval is strictly before now, then stores the fresh latency and the time; otherwise the cache is unchanged; online iff the latency is not -1, and then it is non-negative; the returned latency is the cached one |
| `ServerStatus.CachedServerStatus.ProvideServerStatus` | handle_server.go:56-73 | the cache is re-probed iff lastUpdate + interval is strictly before now (then it holds the fresh latency and time), otherwise unchanged; the response is `StatusResponse` of the resulting cache, its latency always the cached latency |
| `ServerStatus.GetWithinInterval` | handle_server.go:56-62 | a second `Get` within one interval of the cache's state after the first (the first's refresh time if it refreshed, otherwise the earlier update) gives the same answer, whatever the second probe would have seen |

## Findings

| source | as written | input that shows it | evidently intended | confidence | as-written member | corrected member |
|---|---|---|---|---|---|---|
| authorizer.go:62-68 | segments 1, 2 and 3 of the stored value are indexed with no length check | stored value "$SHA$salt" (or any value without `$`) | refuse values with fewer than four segments | medium, not executed | `Authorizer.CheckUserCredentialsAsWritten`, `Authorizer.TruncatedStoredHashPanics` | `Authorizer.CheckUserCredentials` |
| handler_order.go:74-98 | the list query is bound but never validated, so the page, limit and sort tags are not enforced and sort_key flows into ORDER BY | limit=26, or sort_key="1; DROP TABLE orders" | validate the query and answer 400 | medium, not executed | `Orders.ListOrderQueryAsWritten`, `Orders.ListOrderSkipsValidation` | `Orders.ListOrderQuery` |

## Left out

- encryption.go: RSA PKCS#1 v1.5 decryption and key loading are foreign cryptography with file I/O. `Decrypt` returns empty bytes and a nil error when base64 decoding fails. That is noted here but not modelled.
- main.go: configuration loading, database connections, migrations and routing are plumbing.
- handler_user.go: the login and logout handlers are unfinished (no return statements), so they have no behaviour to state.
- helpers.go: `NewErrorResponse` appears only as the `Response`/`ErrorMessage` values it builds.
- `DefaultBadRequestResponse` and `ErrorMessageDatabaseError` are defined outside the modelled files. Their status (400 and 500) follows their use; their texts are not part of this model.
- `itemDetails` returns a constant and is not modelled.
- `listOrder`'s pagination (gorm-paginator) is not modelled. Only the query it hands over is.
- The order broker (`RealtimeOrderBroker`), subscription and unsubscription, and the `Attach` error path are not part of this model. `StoreOrder` returns the broadcast it makes. The SSE loop sees broker messages as events.
- The goroutine, channel and timer concurrency of `pollOrderStatus` is replaced by one sequence of events in arrival order. The 10-second and 2-hour timers are events, not clocks. Response headers and `Flush` are not modelled.
- MD5, SHA-256 and hex encoding are uninterpreted digests. Time-zone loading is a flag. `time.ParseInLocation` and JSON decoding of the detail are oracles. `http.PostForm` with decoding is the `Gateway` oracle. `net.DialTimeout` with the clock readings around it is the `Probe`.
- The ORM's query-by-struct semantics are replaced by explicit key predicates. This includes zero-valued fields being skipped in `Where` and `Update`, and `Find`/`First` on the token table. So an empty platform id or empty transaction fields behave here as ordinary values.
- `Orders.OrderStore.StoreOrder`: in the code the lookup, the paid guard and the write are separate, non-atomic store calls, and the write is not conditioned on the paid time being unset. Two concurrent deliveries of one callback can both pass the 409 guard, both write and both broadcast. The model runs callbacks one at a time, so its "at most once" holds only for sequential callbacks.
- The token lookup in `needValidation` is modelled as a lookup by the presented token. The ORM's `First(&Token{Token: t})` may filter only by the struct's primary key, so the code as written may not filter by the token at all. This is an observation about a library that is not part of this model, and it was not executed.
- The store's unique indexes are assumed on order id and platform order id. A clash on insert, or a fault of the insert, the callback's lookup or its update, is answered 500.
- `c.Bind` is an optional form (`None` = binding failed). `c.Validate` on the callback form, which has no tags, is taken to pass.
- Go's fixed-width integers are unbounded here. `uint64` prices above 10000 never pass validation. Time arithmetic on `int64` nanoseconds does not overflow in this model.
- `Authorizer.TokenStore.NeedValidation`: the two clock readings in the code (the expiry check and the renewal) are taken as one instant `now`.
- `Pay` also returns an empty response next to each error. The model returns only the error.
- Debug output (`spew.Dump`, logging) is not modelled.
