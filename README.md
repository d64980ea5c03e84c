# Shopify-Xeno backend core in Dafny

This project models the multi-tenant Shopify insights backend of Shopify-Xeno and the
two frontend helper modules that shape its answers. The model covers these parts:

- the Shopify app configuration: install URL, OAuth callback and webhook HMAC checks,
  the REST client, `Link`-header pagination and webhook registration;
- the tenant, product, customer and order repositories, which upsert into a database
  held as maps in a `Db` class;
- the backfill and webhook services, the OAuth service and the Shopify, webhook,
  insights and auth controllers;
- the tenant, cache and error middleware, the CORS policy and 404 answer of the server;
- the Redis cache wrapper, the Google login strategy and the password helpers;
- the dashboard mappers and number formatters.

Each source file is one Dafny module (`shopify.js` → `ShopifyConfig`, `order.repo.js` →
`OrderRepo`, and so on). Operations that change state in place are methods on the `Db`,
`Cache` and `Paginator` classes. Each such method is proved equal to a pure function of
the old state, and the lemmas about that function state what the source promises. Some
operations lie outside the model: cryptography (HMAC, PBKDF2, random bytes), `Number()`,
`JSON.parse`/`JSON.stringify`, `new URL`, form encoding, date parsing and the replies of
Shopify and the database. They are passed in as function parameters or as data (a reply
per request), so every property holds for whatever they do.

Shared modules: `Base` (Option, Result, the JavaScript undefined/null/value triple),
`Strings` (split, join, trim, decimal and hex text, UTF-8 length), `JsonValue` (JavaScript
values and truthiness), `Sorting` (the string order of `Array.prototype.sort`), `Store`
(the database rows and the `Db` class), `KeyedUpsert` (the upsert-by-Shopify-id loop that
products and customers share) and `Http` (response outcomes).

Facts about the code that shape the model:

- `findByShopOrTenantKey` is a `findFirst` over an `OR` with no ordering. No field takes
  precedence, so any matching tenant may come back.
- `handleWebhook` resolves the tenant before it logs the event. A webhook for an unknown
  or suspended shop is therefore not logged.
- The fetched record falls back to the payload (`res.data.product ?? payload`), so the
  payload is trusted when Shopify's answer lacks the record.
- The `app/uninstalled` branch of `handleWebhook` does nothing. The suspension happens in
  the webhook controller, whose order, customer and product branches only log.
- There are no sync cursors, no delta sync, no rate-limit backoff and no cache
  invalidation after a backfill.
- Product upserts are not idempotent. A create stores the first variant's price as both
  bounds, and a later update recomputes the true minimum and maximum.
- `findByShopOrTenantKey` and `resolveTenant` also accept the internal id as a key.

## Model

| member | source | states |
|---|---|---|
| Base.StrOrKeep | backend/repositories/order.repo.js:12-15 | `x \|\| undefined` on an update writes exactly the truthy strings and leaves the column alone otherwise |
| Base.StrOrNull | backend/repositories/order.repo.js:27-30 | `x \|\| null` on a create stores exactly the truthy strings, null otherwise |
| Base.OptOrKeep | backend/repositories/order.repo.js:17-19 | a parsed optional value is written when present and leaves the column alone when absent |
| Base.UpdateOf | backend/repositories/tenant.repo.js:17-26 | a property passed through to an update: undefined keeps the column, null clears it, a value is written |
| Base.CreateOf | backend/repositories/tenant.repo.js:27-37 | a property passed through to a create: only a present value is stored |
| Sorting.SortStrings | backend/config/shopify.js:46-47 | `keys.sort()` yields a sorted permutation of the keys |
| Strings.BufferEquals | backend/config/shopify.js:58 | the byte comparison throws exactly when the UTF-8 lengths differ, and otherwise answers whether the strings are equal |
| ShopifyConfig.GetEnv | backend/config/shopify.js:5-9 | a variable is read exactly when it is set and non-empty; otherwise the error names it |
| ShopifyConfig.ApiVersion | backend/config/shopify.js:11-13 | the configured version when set, the default `2024-10` otherwise |
| ShopifyConfig.SetParam | backend/config/shopify.js:24-35 | `searchParams.set` leaves exactly one entry of the name, carrying the new value, and keeps every other entry |
| ShopifyConfig.FormEncodeLookup | backend/config/shopify.js:24-35 | a parameter read back from the form-encoded query string is its encoded value |
| ShopifyConfig.BuildInstallUrl | backend/config/shopify.js:16-36 | a shop not ending in `.myshopify.com` is refused before any variable is read; the URL exists exactly when the shop and the three variables are valid; its state is the 32-hex-digit encoding of the random bytes |
| ShopifyConfig.InstallUrlCarriesState | backend/config/shopify.js:24-35 | the install URL carries the returned state, the client id, the scopes and the redirect URI, each read back as written |
| ShopifyConfig.Lookup | backend/config/shopify.js:41 | a query value found is an entry of the query; a missing one has no entry |
| ShopifyConfig.Without | backend/config/shopify.js:45 | the rest after removing `hmac` and `signature` holds exactly the other entries |
| ShopifyConfig.OAuthMessage | backend/config/shopify.js:45-49 | the signed message is empty exactly when every query parameter is `hmac` or `signature` |
| ShopifyConfig.QueryText | backend/controllers/shopify.controller.js:26-27 | `String(req.query.k \|\| '')` renders a truthy value and gives "" otherwise |
| ShopifyConfig.OAuthMessageOrderIndependent | backend/config/shopify.js:45-49 | the signed message depends only on the query's entries, not on their order |
| ShopifyConfig.OAuthMessageIgnoresUnsigned | backend/config/shopify.js:45 | `hmac` and `signature` never reach the signed message |
| ShopifyConfig.VerifyOAuthCallbackHmac | backend/config/shopify.js:39-59 | a falsy `hmac` answers false; a missing secret throws; otherwise the answer is the byte comparison with the digest, and true only when `hmac` is the digest of the message |
| ShopifyConfig.OAuthHmacLengthMismatchThrows | backend/config/shopify.js:58 | a supplied `hmac` whose UTF-8 length is not 64 makes the check throw instead of answering false |
| ShopifyConfig.VerifyWebhookHmac | backend/config/shopify.js:88-101 | an empty header answers false; a non-empty one throws exactly when the secret is missing, and otherwise the answer is true exactly when it equals the base64 digest, a length mismatch being caught as false |
| ShopifyConfig.BuildShopifyClient | backend/config/shopify.js:104-107 | the client is refused exactly when the shop or the token is missing; its base URL is the shop's admin API of the configured version |
| ShopifyConfig.Request | backend/config/shopify.js:109-133 | a 2xx reply gives its body and `link` header (absent for an empty header); a non-2xx reply throws naming method, path and status; a rejected fetch passes its error on |
| ShopifyConfig.ExchangeCodeForToken | backend/config/shopify.js:62-85 | the token body comes back exactly when both credentials are set and the reply is 2xx; a non-2xx reply throws with its status and text |
| ShopifyConfig.AngleTarget | backend/config/shopify.js:143 | `/<([^>]+)>/` captures a non-empty text free of `>` |
| ShopifyConfig.NextOfEntry | backend/config/shopify.js:141-144 | an entry yields a link only when its parameter part names `rel="next"`, and the link is non-empty and has no `>` |
| ShopifyConfig.ParseNextLink | backend/config/shopify.js:136-148 | an empty header has no next link; a link found is non-empty and has no `>` |
| ShopifyConfig.FirstNextEntry | backend/config/shopify.js:139-147 | the link found is that of the first `,`-separated entry naming `rel="next"`, and there is none exactly when no entry names it |
| ShopifyConfig.FirstMatchNone | backend/config/shopify.js:140-147 | the first-match scan finds nothing exactly when no element matches |
| ShopifyConfig.FirstMatchSome | backend/config/shopify.js:140-147 | what the first-match scan finds comes from an element all of whose predecessors do not match |
| ShopifyConfig.FirstNextIsFirstMatch | backend/config/shopify.js:140-147 | the loop over the entries is the first-match scan of `NextOfEntry` |
| ShopifyConfig.NextLinkOfNextEntry | backend/config/shopify.js:136-148 | the URL of a `rel="next"` entry is followed |
| ShopifyConfig.NextLinkAfterPrevious | backend/config/shopify.js:136-148 | on a middle page the `previous` entry is passed over and the `next` one followed |
| ShopifyConfig.NoNextOnLastPage | backend/config/shopify.js:136-148 | a header with only a `previous` entry has no next link |
| ShopifyConfig.WalkAt | backend/config/shopify.js:150-170 | a walk requests one URL per page plus one for the failure, starting with the given URL, and uses no more replies than exist |
| ShopifyConfig.WalkAtFollowsLinks | backend/config/shopify.js:150-170 | from any request on, pages come out in fetch order, each the body of a 2xx reply whose `link` names the next URL requested; a walk without error ends at a reply with no next link |
| ShopifyConfig.ThreePageChain | backend/config/shopify.js:150-170 | three 2xx pages chained by `next` links yield exactly those three bodies |
| ShopifyConfig.Paginator.constructor | backend/config/shopify.js:150-156 | a new generator has yielded nothing and will fetch the first page URL, whose walk is the one from that URL |
| ShopifyConfig.Paginator.Next | backend/config/shopify.js:157-169 | each call yields the next page of the walk, ends when no next link remains, or fails with the walk's error |
| ShopifyConfig.RegistrationOf | backend/config/shopify.js:187-203 | a topic's result is ok exactly after a 2xx reply, carrying the webhook id, and otherwise carries the request's error |
| ShopifyConfig.RegisterWebhooks | backend/config/shopify.js:182-205 | without a client or webhook URI the call throws; otherwise there is one result per topic, in order, for the POST of that topic |
| Store.BigIntOf | backend/repositories/order.repo.js:9 | `BigInt(o.id)` throws exactly for a missing or null id |
| Store.TruthyId | backend/repositories/order.repo.js:11 | `o.customer?.id ? BigInt(...) : …` keeps exactly the present non-zero ids |
| KeyedUpsert.UpsertOne | backend/repositories/product.repo.js:7-24 | one upsert succeeds exactly for a record with an id, adds that key and keeps every other row |
| KeyedUpsert.UpsertAll | backend/repositories/product.repo.js:3-28 | the loop returns the record count exactly when every record has an id; an empty batch changes nothing |
| KeyedUpsert.UpsertAllStopsAtError | backend/repositories/customer.repo.js:7-26 | once a record without an id has thrown, the later records change nothing |
| KeyedUpsert.UpsertAllKeys | backend/repositories/customer.repo.js:3-30 | a successful call leaves the old keys plus one per distinct input id, whichever tenant calls, and rows of other ids as they were |
| KeyedUpsert.UpsertAllNoNewRows | backend/repositories/product.repo.js:8 | a batch of ids already stored adds no row |
| KeyedUpsert.RepeatedUpsertAddsNoRows | backend/repositories/customer.repo.js:8 | repeating a successful call, by the same or another tenant, creates no new row |
| ProductRepo.MinPrice | backend/repositories/product.repo.js:12 | the reduce gives a variant price no greater than any other |
| ProductRepo.MaxPrice | backend/repositories/product.repo.js:13 | the reduce gives a variant price no smaller than any other |
| ProductRepo.UpsertProducts | backend/repositories/product.repo.js:3-28 | the product table and result are those of the keyed upsert loop with the product update and create |
| ProductRepo.UpdateBounds | backend/repositories/product.repo.js:9-15 | an update with variants sets the least and greatest variant prices; without variants the stored bounds stay, as do the status when the new one is falsy and the title when it is undefined; the owner and key never change |
| ProductRepo.CreateUsesFirstVariant | backend/repositories/product.repo.js:16-23 | a create stores the first variant's price as both bounds, so variants [2, 1] give a minimum of 2 where an update gives 1 |
| ProductRepo.UpsertProductsTwiceDiffers | backend/repositories/product.repo.js:8-23 | upserting one product twice moves `priceMin` from the first variant's price to the minimum: the upsert is not idempotent |
| ProductRepo.SecondTenantUpdatesSharedRow | backend/repositories/product.repo.js:8 | the key is global: a second tenant's upsert of a stored id updates that row, which keeps the first tenant |
| CustomerRepo.UpsertCustomers | backend/repositories/customer.repo.js:3-30 | the customer table and result are those of the keyed upsert loop with the customer update and create |
| CustomerRepo.UpdateKeepsFalsyFields | backend/repositories/customer.repo.js:9-16 | an update keeps owner and key, leaves falsy contact fields and an absent total spent as stored, and writes a numeric order count |
| CustomerRepo.CreateDefaults | backend/repositories/customer.repo.js:17-25 | a create records the calling tenant, null for an absent total spent and 0 for a non-numeric order count |
| CustomerRepo.UpsertCustomerIdempotent | backend/repositories/customer.repo.js:8-25 | upserting the same customer twice leaves the table as one upsert does |
| OrderRepo.TotalPrice | backend/repositories/order.repo.js:16 | `parseFloat(o.total_price \|\| '0')`: an absent total is 0 |
| OrderRepo.NewLineItem | backend/repositories/order.repo.js:43-54 | a line item row points at its order, takes a numeric quantity or 0, the prices as given, and the ids, title and SKU exactly when truthy |
| OrderRepo.NewLineItems | backend/repositories/order.repo.js:42-55 | one row per payload item, in order |
| OrderRepo.ItemsOf | backend/repositories/order.repo.js:41 | the stored items of one order, all pointing at it |
| OrderRepo.Others | backend/repositories/order.repo.js:41 | `deleteMany` leaves only stored items of other orders |
| OrderRepo.UpsertOrder | backend/repositories/order.repo.js:8-56 | one loop pass succeeds exactly for an order with an id |
| OrderRepo.UpsertOrders | backend/repositories/order.repo.js:3-60 | the loop returns the order count exactly when every order has an id; an empty batch returns 0 and writes nothing |
| OrderRepo.UpsertOrdersStopsAtError | backend/repositories/order.repo.js:7-58 | once an order without an id has thrown, the later orders change nothing |
| OrderRepo.UpsertOrderWithItems | backend/repositories/order.repo.js:8-57 | one iteration against the database, with the line-item loop, leaves the tables the loop pass describes |
| OrderRepo.UpsertOrdersWithItems | backend/repositories/order.repo.js:3-60 | the database and result are those of the upsert loop |
| OrderRepoFacts.ItemsOfOthers | backend/repositories/order.repo.js:41 | removing one order's items leaves every other order's items as they were |
| OrderRepoFacts.UpdateLeavesAbsentFields | backend/repositories/order.repo.js:10-22 | an update keeps the row's identity, always writes the total (0 when absent) and leaves every absent optional field as stored |
| OrderRepoFacts.CreateNullsAbsentFields | backend/repositories/order.repo.js:23-36 | a create takes the next id and stores exactly the absent optional fields as null |
| OrderRepoFacts.LineItemsReplaced | backend/repositories/order.repo.js:39-56 | an order with line items leaves exactly those items stored for it and every other order's items untouched |
| OrderRepoFacts.NoLineItemsKeepsItems | backend/repositories/order.repo.js:39 | an order without line items leaves the line-item table as it was |
| OrderRepoFacts.UpdateTwice | backend/repositories/order.repo.js:10-22 | applying the same update twice gives the row one update gives |
| OrderRepoFacts.UpdateAfterCreate | backend/repositories/order.repo.js:10-36 | updating a freshly created row with the same payload changes nothing |
| OrderRepoFacts.UpsertOrderIdempotent | backend/repositories/order.repo.js:8-56 | upserting the same order again changes nothing: one row, the same items, no id consumed |
| OrderRepoFacts.UpsertOrderValid | backend/repositories/order.repo.js:8-56 | an upsert keeps rows under their key, ids distinct and below the counter, and line items pointing below it |
| OrderRepoFacts.UpsertOrdersKeys | backend/repositories/order.repo.js:7-58 | a successful call leaves exactly the old keys plus one per input order |
| OrderRepoFacts.UpsertOrdersNoNewRows | backend/repositories/order.repo.js:9 | a batch of stored orders adds no row and consumes no id |
| OrderRepoFacts.RepeatedCallAddsNoRows | backend/repositories/order.repo.js:3-60 | repeating a successful call creates no row and consumes no id |
| OrderRepoFacts.UpsertOrdersValid | backend/repositories/order.repo.js:3-60 | the loop keeps the tables consistent, whether it completes or stops at a bad order |
| TenantRepo.StatusOf | backend/repositories/tenant.repo.js:13 | the status defaults to `active` |
| TenantRepo.CryptoRandomId | backend/repositories/tenant.repo.js:73-75 | the external id is `ten_` plus 16 hex digits that decode to the random bytes |
| TenantRepo.UpsertTenant | backend/repositories/tenant.repo.js:5-39 | an existing shop is updated in place and consumes no id; a new shop is created under the next id; only that shop's row changes |
| TenantRepo.ReinstallKeepsIds | backend/repositories/tenant.repo.js:17-26 | on a reinstall each of the token, scopes, name, email, currency and timezone is written when a string is passed, cleared by null and kept when undefined; the status is written; the internal and external ids, the domain and the uninstall time stay |
| TenantRepo.CreatedTenantShape | backend/repositories/tenant.repo.js:27-37 | a created tenant has the shop's domain, a `ten_` external id, the default status and no uninstall time |
| TenantRepo.UpsertKeepsTenantsValid | backend/repositories/tenant.repo.js:5-39 | every tenant stays under its own shop domain |
| TenantRepo.FindByShopOrTenantKey | backend/repositories/tenant.repo.js:41-52 | a tenant is found exactly when one matches the key on domain, external id or internal id, and the one found matches |
| TenantRepo.FindActiveTenant | backend/repositories/tenant.repo.js:54-61 | a tenant is found exactly when the domain has an active one |
| TenantRepo.MarkTenantSuspended | backend/repositories/tenant.repo.js:63-71 | an unknown domain throws and changes nothing; otherwise the tenant becomes suspended with the uninstall time and nothing else changes |
| TenantRepo.SuspendedIsInactive | backend/repositories/tenant.repo.js:54-71 | a suspended tenant is no longer found as active and keeps its token and external id |
| IngestService.Items | backend/services/ingest.service.js:10 | `page.products \|\| []`: a missing array is empty |
| IngestService.PagesFold | backend/services/ingest.service.js:9-11 | no pages give 0 and no change |
| IngestService.Backfill | backend/services/ingest.service.js:6-13 | a backfill succeeds only for a walk without error, and then its result is the sum over the pages |
| IngestService.PagesFoldStep | backend/services/ingest.service.js:9-11 | one more page continues the sum from where the earlier pages left it |
| IngestService.PagesFoldStopsAtError | backend/services/ingest.service.js:9-11 | once an upsert has failed, later pages change nothing |
| IngestService.BackfillStopsAtError | backend/services/ingest.service.js:6-13 | a failed upsert on the pages fetched so far is the result, whatever the rest of the walk holds |
| IngestService.BackfillFailed | backend/services/ingest.service.js:9 | a walk cut short after good pages fails with the walk's error |
| IngestService.UpsertProductPage | backend/services/ingest.service.js:10 | one page's upsert advances the running fold by that page |
| IngestService.DrainProducts | backend/services/ingest.service.js:9-11 | draining the generator leaves the table and result of the backfill over its walk |
| IngestService.BackfillProducts | backend/services/ingest.service.js:6-13 | `backfillProducts` leaves the product table and result of the backfill over the listing |
| IngestService.UpsertCustomerPage | backend/services/ingest.service.js:19 | one page's upsert advances the running fold by that page |
| IngestService.DrainCustomers | backend/services/ingest.service.js:18-20 | draining the generator leaves the table and result of the backfill over its walk |
| IngestService.BackfillCustomers | backend/services/ingest.service.js:15-22 | `backfillCustomers` leaves the customer table and result of the backfill over the listing |
| IngestService.OrdersQuery | backend/services/ingest.service.js:27-28 | the order query asks for every status and the listed fields, and carries `created_at_min` exactly when `since` is truthy |
| IngestService.UpsertOrderPage | backend/services/ingest.service.js:31 | one page's upsert advances the running fold by that page |
| IngestService.DrainOrders | backend/services/ingest.service.js:30-32 | draining the generator leaves the tables and result of the backfill over its walk |
| IngestService.BackfillOrders | backend/services/ingest.service.js:24-34 | `backfillOrders` leaves the order tables and result of the backfill over the listing |
| IngestService.BackfillAll | backend/services/ingest.service.js:36-43 | all three backfills run on their own tables; the call succeeds with the three counts exactly when each does, and otherwise fails with the first failure in argument order |
| IngestService.ProductPagesCount | backend/services/ingest.service.js:9-12 | a successful product backfill returns the number of products on the pages |
| IngestService.CustomerPagesCount | backend/services/ingest.service.js:18-21 | a successful customer backfill returns the number of customers on the pages |
| IngestService.OrderPagesCount | backend/services/ingest.service.js:30-33 | a successful order backfill returns the number of orders on the pages |
| IngestService.MissingArrayAddsNothing | backend/services/ingest.service.js:10 | a page without its array leaves the tables and the total as they were |
| IngestService.MissingArraysAreEmpty | backend/services/ingest.service.js:19 | each page upsert treats a page without its array as an empty one |
| Http.ErrorJson | backend/middleware/tenant.js:15 | `res.status(s).json({ error })` answers with that status and error |
| WebhookService.Route | backend/services/webhook.service.js:18-47 | exactly the `…/create` and `…/updated` topics of products, customers and orders are routed, each to its own resource |
| WebhookService.Refreshed | backend/services/webhook.service.js:24 | `res.data.product ?? payload` takes the fetched record when present and the payload otherwise; a null body throws |
| WebhookService.UpsertRecord | backend/services/webhook.service.js:24-38 | the upsert writes only the table of its resource |
| WebhookService.Refresh | backend/services/webhook.service.js:22-38 | a routed topic writes only the table of its resource, and succeeds only with a non-nullish payload and a 2xx reply to the GET |
| WebhookService.Dispatch | backend/services/webhook.service.js:16-48 | each table changes only for its own topics; an unrouted topic with a client changes nothing and succeeds; a missing client changes nothing and reports its error |
| WebhookService.DispatchTopic | backend/services/webhook.service.js:18-48 | the switch leaves the tables and result its dispatch function gives |
| WebhookService.UpsertRecordInto | backend/services/webhook.service.js:24-38 | the upsert of the refreshed record changes the tables exactly as the upsert of its resource's repository does |
| WebhookService.RefreshInto | backend/services/webhook.service.js:22-38 | fetching and upserting in place leaves the tables and the result that `Refresh` gives |
| WebhookService.HandleWebhook | backend/services/webhook.service.js:8-49 | with no active matching tenant the call throws and writes nothing; when a tenant matches and every matching tenant is active, one event is logged for a matching tenant and the switch runs for it; in no case is anything else written |
| WebhookService.UnroutedTopicsWriteNothing | backend/services/webhook.service.js:41-47 | `app/uninstalled` and unrouted topics write nothing, failing only when no client can be built |
| WebhookService.RegisteredUpdateTopicsIgnored | backend/services/webhook.service.js:18-47 | `products/update` and `customers/update`, as registered at install, are not routed |
| WebhookService.ProductTopicUpsertsFetched | backend/services/webhook.service.js:19-25 | a product topic upserts exactly one product, the fetched one or else the payload, and touches no other table |
| WebhookService.CustomerTopicUpsertsFetched | backend/services/webhook.service.js:27-33 | a customer topic upserts exactly one customer and touches no other table |
| WebhookService.OrderTopicUpsertsFetched | backend/services/webhook.service.js:34-40 | an order topic upserts exactly one order with its items and touches no other table |
| WebhookService.FailedFetchWritesNothing | backend/services/webhook.service.js:23 | a failing GET leaves every table as it was and reports an error |
| WebhookController.HandlerOf | backend/controllers/webhook.controller.js:12-34 | each branch of the switch is chosen by exactly its topics |
| WebhookController.ResponseOf | backend/controllers/webhook.controller.js:4-41 | the answer is a 200 `OK` unless an order, customer or product handler throws on a nullish payload, which goes to `next` |
| WebhookController.HandleAppUninstalled | backend/controllers/webhook.controller.js:43-50 | a known shop's tenant is suspended; for an unknown shop the error is swallowed and nothing changes |
| WebhookController.HandleShopifyWebhook | backend/controllers/webhook.controller.js:4-41 | only `app/uninstalled` for a known shop changes the tenants, by suspending it; the answer is the one the topic and body give |
| WebhookController.AlwaysOkForObjectBodies | backend/controllers/webhook.controller.js:36-40 | every request with an object body is answered 200; only a logging branch over a missing body calls `next` with an error |
| WebhookController.RegisteredUpdateTopicsUnhandled | backend/controllers/webhook.controller.js:32-34 | the registered `…/update`, fulfilled, cancelled and delete topics reach the default branch |
| WebhookController.UninstallDeactivates | backend/controllers/webhook.controller.js:43-50 | after an uninstall the shop's tenant is no longer active but keeps its token |
| TenantMiddleware.QueryKey | backend/middleware/tenant.js:12 | `req.query.tenant \|\| req.query.shop` gives a truthy value or none |
| TenantMiddleware.TenantKey | backend/middleware/tenant.js:6-14 | the key is trimmed, is empty without header and query keys, and is the trimmed header key when one is given |
| TenantMiddleware.ResolveTenant | backend/middleware/tenant.js:4-33 | an empty key is 400, a lookup error goes to `next`, no active match is 403, and a key whose matching tenants are all active (at least one) reaches `next()`; `next()` is called exactly when `req.tenant` is set, to the fields of an active matching tenant |
| TenantMiddleware.LowerNames | backend/middleware/tenant.js:6-10 | the mixed-case and lower-case header names are the same lookup |
| TenantMiddleware.KeyPrecedence | backend/middleware/tenant.js:6-14 | the key comes from `x-tenant-key`, then `x-shop-domain`, then `?tenant`, then `?shop`, the first non-empty winning, trimmed |
| TenantMiddleware.BlankHeaderHidesQuery | backend/middleware/tenant.js:14-15 | a blank header is truthy, hides a valid `?tenant`, and trims to an empty key |
| ShopifyService.GetInstallUrlIsBuildInstallUrl | backend/services/shopify.service.js:6-11 | the service's check repeats the configuration's, so the two answer alike for every shop |
| ShopifyService.GetInstallUrl | backend/services/shopify.service.js:6-11 | a shop outside `.myshopify.com` is refused with `Invalid shop domain`; a URL is built exactly when the suffix and the three settings are there, on the shop's own authorize path with the hex state |
| ShopifyService.StringArg | backend/services/shopify.service.js:25-30 | Prisma takes undefined, null or a string for a string column and refuses anything else |
| ShopifyService.QueryArg | backend/services/shopify.service.js:26 | a repeated query name, an array, is refused where a string is expected |
| ShopifyService.ChosenScopes | backend/services/shopify.service.js:28 | `grantedScopes \|\| scope \|\| env.SHOPIFY_SCOPES` |
| ShopifyService.HandleOAuthCallback | backend/services/shopify.service.js:13-33 | a refused callback changes nothing and passes its error on; an accepted one upserts the tenant under the shop |
| ShopifyService.GetShopInfo | backend/services/shopify.service.js:35-44 | the body of a 2xx reply, null when the client cannot be built or the request fails |
| ShopifyService.HmacCheckedFirst | backend/services/shopify.service.js:15-16 | a callback failing the HMAC is refused before `code` and `shop` are read and without a token exchange |
| ShopifyService.MissingCodeOrShopRefused | backend/services/shopify.service.js:18-19 | with a valid HMAC, a missing code or shop is refused without a token exchange |
| ShopifyService.CallbackStoresActiveTenant | backend/services/shopify.service.js:22-30 | an accepted callback stores an active tenant under the queried shop, with the granted, else queried, else configured scopes |
| ShopifyController.ShopParam | backend/controllers/shopify.controller.js:7 | the normalised shop has no ASCII capital letter; its value is fixed by NormalisePadded and NormaliseIdempotent |
| ShopifyController.NormaliseShop | backend/controllers/shopify.controller.js:7 | the normalised shop text has no upper-case ASCII letter |
| ShopifyController.NormalisePadded | backend/controllers/shopify.controller.js:7 | a shop name with whitespace on either side normalises to the lower-cased name itself |
| ShopifyController.NormaliseIdempotent | backend/controllers/shopify.controller.js:26 | normalising a shop that is already normalised changes nothing, so the install and the callback agree on the domain |
| ShopifyController.StartShopifyInstall | backend/controllers/shopify.controller.js:5-16 | a bad or missing shop is a 400; the redirect happens exactly when the shop and the settings are valid and goes to that shop's authorize path; otherwise the error goes to `next` |
| ShopifyController.InstallAnswer | backend/controllers/shopify.controller.js:8-15 | the answer for a normalised shop is a 400, the install URL of the service, or its error passed on |
| ShopifyController.ShopifyCallback | backend/controllers/shopify.controller.js:18-86 | a refused callback changes nothing; an accepted one upserts only the shop's tenant and redirects with its id |
| ShopifyController.InstallRedirectsToShop | backend/controllers/shopify.controller.js:5-16 | the install answers 400 exactly for a shop without the Shopify suffix and otherwise redirects to that shop's authorize page |
| ShopifyController.CallbackChecksHmacFirst | backend/controllers/shopify.controller.js:21-24 | a callback failing the HMAC is answered 400 whatever the later replies would be |
| ShopifyController.CallbackStoresActiveTenant | backend/controllers/shopify.controller.js:26-51 | a stored tenant is active under the lower-case shop, with the granted scope, and USD when Shopify names no currency |
| ShopifyController.RedirectCarriesTenant | backend/controllers/shopify.controller.js:81-82 | the redirect's query reads back the shop and the tenant id |
| ShopifyController.SubscribedTopicsRouted | backend/controllers/shopify.controller.js:55-66 | of the ten subscribed topics only four reach a table through the webhook service |
| InsightsController.LimitParam | backend/controllers/insights.controller.js:113-121 | `Number(limit \|\| d)` is refused exactly when it is not a positive number, and defaults to `d` |
| InsightsController.OffsetParam | backend/controllers/insights.controller.js:262-277 | the offset is refused exactly when it is not a non-negative number, and defaults to 0 |
| InsightsController.IntValue | backend/controllers/insights.controller.js:295-296 | a `take`/`skip` Prisma accepts is the number itself |
| InsightsController.SerializeRow | backend/controllers/insights.controller.js:86-92 | the loop over the copied row's keys gives the serialised row |
| InsightsController.SerializeRows | backend/controllers/insights.controller.js:85-93 | `rows.map` gives the serialised rows |
| InsightsController.SerializationMeaning | backend/controllers/insights.controller.js:84-93 | no BigInt remains, columns keep names and order, other values stay, and every BigInt reads back as the same integer |
| InsightsController.SerializationIdempotent | backend/controllers/insights.controller.js:162-170 | serialising twice changes nothing more |
| InsightsController.TenantOrderKeys | backend/controllers/insights.controller.js:18 | the tenant's orders are orders of the table |
| InsightsController.RevenueWithout | backend/controllers/insights.controller.js:19-22 | any order can be taken out of the revenue sum first |
| InsightsController.RevenueFrame | backend/controllers/insights.controller.js:19-22 | the revenue sum reads only the tenant's orders |
| InsightsController.Summary | backend/controllers/insights.controller.js:4-37 | refused with 400 exactly without a tenant; otherwise the totals are the number of the tenant's customers, the number of its orders and the sum of their prices |
| InsightsController.SummaryWithoutOrders | backend/controllers/insights.controller.js:16-30 | a tenant without orders has 0 orders and a revenue of 0, whatever its customers |
| InsightsController.SummaryCountsNewCustomer | backend/controllers/insights.controller.js:16-31 | a new customer of the tenant adds one to the customer count and leaves the order count and revenue |
| InsightsController.SummaryCountsNewOrder | backend/controllers/insights.controller.js:16-31 | a new order of the tenant adds one to the order count and its price to the revenue |
| InsightsController.SummaryIgnoresOtherTenants | backend/controllers/insights.controller.js:16-31 | orders of other tenants do not count |
| InsightsController.DateRange | backend/controllers/insights.controller.js:52-53 | a given `from` or `to` is its parsed date, an absent one is 30 days ago or now; the range fails with `Invalid Date` exactly when a given bound does not parse |
| InsightsController.OrdersByDate | backend/controllers/insights.controller.js:39-100 | refused exactly without a tenant; a bad date throws; with no tenant order in the range the data is empty, otherwise it is the serialised day rows or the aggregation's error is thrown |
| InsightsController.OrdersByDateDefaults | backend/controllers/insights.controller.js:39-100 | without bounds the range is the last 30 days; with no order in range the data is empty and the aggregation is not consulted |
| InsightsController.TopCustomers | backend/controllers/insights.controller.js:102-177 | refused without a tenant or exactly for a bad limit; otherwise a tenant without orders gets the serialised zero-spent rows and one with orders the serialised ranking, or that query's error is thrown |
| InsightsController.TopProducts | backend/controllers/insights.controller.js:179-248 | refused without a tenant or exactly for a bad limit; otherwise no rows when the tenant has no line items, and the serialised ranking or the query's error when it has some |
| InsightsController.TopDefaults | backend/controllers/insights.controller.js:102-248 | the default limits are accepted, an invalid limit is refused before any table is read, and with no orders the zero-spent customer list is served |
| InsightsController.Rows | backend/controllers/insights.controller.js:301-307 | one row per order, in order |
| InsightsController.Window | backend/controllers/insights.controller.js:284-297 | the page holds at most `take` rows, row `i` being the listing's order at `skip + i` |
| InsightsController.ListingPage | backend/controllers/insights.controller.js:279-319 | never refused; throws exactly when there are orders and the limit or offset is not an integer; a served page carries the pagination and the window of the listing |
| InsightsController.RecentOrders | backend/controllers/insights.controller.js:250-323 | refused without a tenant or exactly for a bad limit or offset; a served page counts all the tenant's orders |
| InsightsController.WindowOfListing | backend/controllers/insights.controller.js:284-297 | a slice of the sorted listing holds the tenant's orders, newest first |
| InsightsController.RecentOrdersWindow | backend/controllers/insights.controller.js:250-323 | the page is the `[offset, offset + limit)` window of the listing, at most `limit` orders of the tenant, newest first, and `hasMore` says exactly whether orders follow |
| ErrorHandler.PrismaCodesFirst | backend/middleware/errorHandler.js:14-25 | a unique violation is a 409 naming the fields and a missing record a 404, whatever the name and message |
| ErrorHandler.HandleError | backend/middleware/errorHandler.js:4-57 | the status is a fixed one of the handler or the error's own, and the body always carries a string `message` |
| ErrorHandler.FallbackWhenPlain | backend/middleware/errorHandler.js:45-56 | a plain error that does not mention Shopify gets its own status or 500 |
| ErrorHandler.StatusMeaning | backend/middleware/errorHandler.js:4-57 | the status is a fixed one or the error's own; unless the error carries one of those statuses itself, 409, 404, 401 and 400 each come from exactly one kind of error |
| ErrorHandler.ProductionHidesInternals | backend/middleware/errorHandler.js:37-56 | outside development no message or stack leaks except a validation error's details; in development the fallback shows both |
| ErrorHandler.ShopifyFailuresAreUpstream | backend/middleware/errorHandler.js:45-50 | a failed Shopify REST request becomes a 502 |
| ErrorHandler.WebhookGateIsServerError | backend/middleware/errorHandler.js:53-56 | a tenant failing the webhook gate is reported as a 500 |
| Server.NonEmpty | backend/utils/env.js:18 | `.filter(Boolean)` keeps exactly the non-empty strings |
| Server.NonEmptyKeepsAll | backend/utils/env.js:18 | a list with no empty string passes the filter unchanged |
| Server.CorsOrigins | backend/utils/env.js:18 | the configured origins are non-empty and comma-free |
| Server.CorsOriginsOfList | backend/utils/env.js:18 | a comma-joined list of such origins is read back as written |
| Server.CorsOrigin | backend/index.js:72-92 | the callback either allows or refuses with `Not allowed by CORS` |
| Server.CorsAllows | backend/index.js:74-91 | an origin is allowed exactly when absent, configured, local in development, or when nothing is configured |
| Server.ConfiguredOrigins | backend/index.js:77-91 | every configured origin is allowed; outside development an unlisted one is refused |
| Server.LocalhostInDevelopment | backend/index.js:82-86 | without `NODE_ENV` a localhost front end is allowed even with a list configured |
| Server.NotFound | backend/index.js:143 | an unmatched route is a 404 `not found` |
| AuthController.SuccessUrl | backend/utils/env.js:19 | the success URL defaults to the local dashboard |
| AuthController.FailureUrl | backend/utils/env.js:20 | the failure URL defaults to the local login page |
| AuthController.SafeRedirect | backend/controllers/auth.controller.js:8-15 | the result is the fallback or a parsed URL with an allowed origin |
| AuthController.SafeRedirectDecides | backend/controllers/auth.controller.js:8-15 | a parsed URL with the success or failure origin is followed, and everything else gives the fallback |
| AuthController.GoogleAuthSuccess | backend/controllers/auth.controller.js:17-86 | a login always redirects |
| AuthController.LoginGoesToSuccessUrl | backend/controllers/auth.controller.js:78-80 | a login goes to the normalised success URL when both URLs parse, otherwise to the failure URL |
| AuthController.GoogleAuthFailure | backend/controllers/auth.controller.js:88-91 | a cancelled login always redirects |
| AuthController.CancelGoesToFailurePage | backend/controllers/auth.controller.js:89 | a cancelled login goes to the failure page carrying `error=oauth_cancelled` |
| AuthController.CancelStaysOnFrontend | backend/controllers/auth.controller.js:88-91 | the failure redirect never leaves the front end's origins |
| AuthController.GetCurrentUser | backend/controllers/auth.controller.js:93-129 | the answer is a 200 success |
| AuthController.CurrentUserIgnoresSession | backend/controllers/auth.controller.js:115-124 | whatever the session holds, the same admin user is reported |
| AuthController.Logout | backend/controllers/auth.controller.js:131-156 | logout reports success |
| CryptoUtils.GenerateRandomString | backend/utils/crypto.js:3-5 | the string is hex, two digits per drawn byte |
| CryptoUtils.RandomStringEncodesBytes | backend/utils/crypto.js:4 | the string decodes back to the drawn bytes |
| CryptoUtils.SaltOf | backend/utils/crypto.js:8 | a given salt is kept; a missing one is 32 fresh hex digits |
| CryptoUtils.HashPassword | backend/utils/crypto.js:7-11 | the hash is the salt, a colon and the hex of the derived key |
| CryptoUtils.VerifyPassword | backend/utils/crypto.js:13-17 | only a stored text with a colon can verify |
| CryptoUtils.StoredParts | backend/utils/crypto.js:14 | a stored salt and hash split back into the two |
| CryptoUtils.HashThenVerify | backend/utils/crypto.js:7-17 | a password verifies against its own hash for every colon-free salt |
| CryptoUtils.WrongPasswordRefused | backend/utils/crypto.js:13-17 | a password deriving a different key is refused |
| CryptoUtils.TimingSafeEqual | backend/utils/crypto.js:19-25 | the answer is true exactly for equal strings; a length mismatch answers false |
| RedisCache.Serialized | backend/config/redis.js:61-62 | a string is written as it is |
| RedisCache.Read | backend/config/redis.js:40-47 | an absent key reads null; unparsable text reads as itself |
| RedisCache.ReadAfterSet | backend/config/redis.js:34-73 | a value written is read back when stringify and parse undo each other |
| RedisCache.JsonTextStringComesBackParsed | backend/config/redis.js:40-47 | a cached string that is JSON text comes back parsed |
| RedisCache.ReadOtherKey | backend/config/redis.js:55-73 | a write leaves other keys' reads alone |
| RedisCache.Stored | backend/config/redis.js:96-99 | a key has a stored text exactly when present |
| RedisCache.Cache.constructor | backend/config/redis.js:4-24 | the client can connect exactly when both variables are set and construction does not throw |
| RedisCache.Cache.GetRedis | backend/config/redis.js:26-31 | a client is built only while there is none: at most one ever, then reused |
| RedisCache.Cache.Get | backend/config/redis.js:34-53 | without a client or on error the read is null, otherwise it is the stored value |
| RedisCache.Cache.Set | backend/config/redis.js:55-73 | a successful write stores the serialised value with the given or default 300-second ttl; a failed one changes nothing |
| RedisCache.Cache.Del | backend/config/redis.js:76-87 | a successful delete removes exactly the key |
| RedisCache.Cache.Mget | backend/config/redis.js:90-105 | each requested key maps to its value, deserialised as `get` reads it; without a client or on error the answer is empty |
| RedisCache.Cache.Exists | backend/config/redis.js:108-119 | true exactly when connected, successful and the key is stored |
| RedisCache.TenantKey | backend/config/redis.js:122-124 | tenant keys start with `tenant:` |
| RedisCache.ShopifyKey | backend/config/redis.js:127-129 | Shopify keys start with `shopify:` |
| RedisCache.TenantField | backend/config/redis.js:122-124 | the second field of a tenant key is the tenant id |
| RedisCache.ShopifyField | backend/config/redis.js:127-129 | the second field of a Shopify key is the shop when the shop has no `:` |
| RedisCache.ShopifyKeyShape | backend/config/redis.js:127-129 | a Shopify key begins with `shopify:`, the shop and the endpoint, and its second field is the shop when that has no `:` |
| RedisCache.TenantKeyShape | backend/config/redis.js:122-124 | a tenant key begins with `tenant:`, the tenant and the resource, and its second field is the tenant id when that has no `:` |
| RedisCache.TenantKeysSeparateTenants | backend/config/redis.js:122-124 | tenants with colon-free ids never share a cache key |
| RedisCache.KeyShapes | backend/config/redis.js:122-129 | an empty identifier adds no separator, and tenant and Shopify keys never collide |
| CacheMiddleware.DefaultKey | backend/middleware/cache.js:5-7 | the default key starts with the method and path |
| CacheMiddleware.Decide | backend/middleware/cache.js:12-29 | a truthy cached value is served as it is; anything falsy is a miss wrapped with the given or default ttl |
| CacheMiddleware.CacheResponse | backend/middleware/cache.js:3-34 | the middleware decides on what the cache read gives for the request's key |
| CacheMiddleware.WrappedJson | backend/middleware/cache.js:21-27 | the wrapped `res.json` stores the body when it can and sends it unchanged |
| CacheMiddleware.HitAfterMiss | backend/middleware/cache.js:12-27 | a miss followed by a truthy response makes the next identical request a hit serving the same body |
| CacheMiddleware.FalsyCachedIsMiss | backend/middleware/cache.js:12 | a cached falsy value is never served |
| CacheMiddleware.TenantIdOr | backend/middleware/cache.js:39 | the tenant slot is never empty |
| CacheMiddleware.LastSegment | backend/middleware/cache.js:40 | the last path segment has no slash |
| CacheMiddleware.InsightsKey | backend/middleware/cache.js:38-41 | the insights key begins with the tenant (or `unknown`) and `:insights`, and its second field is that tenant id when the id has no `:` |
| CacheMiddleware.ShopOr | backend/middleware/cache.js:44 | `req.tenant?.shopDomain || 'unknown'`: the tenant's shop when it has one, never empty |
| CacheMiddleware.ShopifyCacheKey | backend/middleware/cache.js:43-47 | the key begins with `shopify:`, the shop (or `unknown`) and the request path, and its second field is the shop when that has no `:` |
| CacheMiddleware.ProductsKey | backend/middleware/cache.js:49-53 | the key begins with `tenant:`, the tenant id (or `unknown`) and `:products`, and its second field is that id when it has no `:` |
| CacheMiddleware.ProductsKeysSeparate | backend/middleware/cache.js:43-53 | two tenants' product listings are cached apart, and never under a Shopify response's key |
| CacheMiddleware.InsightsKeysSeparateTenants | backend/middleware/cache.js:38-41 | two tenants' insights are cached apart; requests without a tenant share one slot per endpoint |
| CacheMiddleware.InvalidateTenant | backend/middleware/cache.js:57-60 | only the pattern is computed; no cache key is deleted |
| CacheMiddleware.InvalidateKey | backend/middleware/cache.js:62-65 | exactly that key is deleted |
| Passport.ByGoogleId | backend/config/passport.js:14-16 | the user found carries that Google id; none is found only when no user does |
| Passport.ByEmail | backend/config/passport.js:24-26 | the user found carries that email; none is found only when no user does |
| Passport.Avatar | backend/config/passport.js:35 | `photos[0]?.value` is present exactly when the first photo has a value |
| Passport.GoogleLogin | backend/config/passport.js:11-57 | a login returns a stored user with the profile's Google id; a failure or a known Google id writes nothing; otherwise one user is updated or one is created under the next id, and no other user's id or email changes |
| Passport.LinkKeepsUsersValid | backend/config/passport.js:24-39 | linking an unused Google id to the email's user keeps ids, emails and Google ids unique |
| Passport.CreateKeepsUsersValid | backend/config/passport.js:42-52 | creating a user under the next id with a new Google id and email keeps the table valid |
| Passport.GoogleVerify | backend/config/passport.js:11-57 | the verify callback against the database leaves the result, users and counter the login function gives |
| Passport.FindByGoogleId | backend/config/passport.js:14-16 | the lookup finds the same user as the Google id query |
| Passport.FindByEmail | backend/config/passport.js:24-26 | the lookup finds the same user as the email query |
| Passport.LoginKeepsUsersValid | backend/config/passport.js:11-57 | a login keeps ids, Google ids and emails unique |
| Passport.KnownGoogleIdReturned | backend/config/passport.js:14-21 | a known Google account is returned as stored and nothing is written |
| Passport.EmailUserLinked | backend/config/passport.js:24-39 | a new Google account with a known email is linked to that user, keeping id, email and role |
| Passport.UnknownUserCreated | backend/config/passport.js:42-52 | an unknown account becomes a new `user` under the next id |
| Passport.AtMostOneWrite | backend/config/passport.js:11-57 | at most one user is written per login and a failed login writes nothing |
| Passport.SerializeUser | backend/config/passport.js:60-62 | the session keeps the user's id |
| Passport.DeserializeUser | backend/config/passport.js:65-74 | the user of that id, or null when there is none |
| Passport.SessionRoundTrip | backend/config/passport.js:60-74 | a user who has just logged in is found again from the session |
| InsightsMappers.ToNum | frontend/src/lib/insights.mappers.ts:4-8 | a finite number from a number or numeric string, the default otherwise |
| InsightsMappers.Wrapped | frontend/src/lib/insights.mappers.ts:13-16 | the array found is under one of the four wrapper names; none is found only when none holds an array |
| InsightsMappers.NormalizeArray | frontend/src/lib/insights.mappers.ts:11-24 | an array is returned as it is, an object gives its first wrapped array or [], unparsable text and any other scalar give [] |
| InsightsMappers.NormalizeArrayShapes | frontend/src/lib/insights.mappers.ts:11-24 | an array, a wrapped array and JSON text of one are accepted; unparsable text and scalars give [] |
| InsightsMappers.NormalizeEncoded | frontend/src/lib/insights.mappers.ts:17-21 | even doubly encoded JSON text of a wrapped array normalises to the array |
| InsightsMappers.Round | frontend/src/lib/insights.mappers.ts:29 | `Math.round` gives the nearest integer, halves up |
| InsightsMappers.Aov | frontend/src/lib/insights.mappers.ts:29 | a reported `aov` passes through; without one and without orders it is 0 |
| InsightsMappers.MapSummaryToKpis | frontend/src/lib/insights.mappers.ts:26-59 | each of the sixteen numeric KPI fields is read through `toNum` from its own section and field of the summary, and `aov` is the reported or derived one |
| InsightsMappers.KpiFieldsThroughToNum | frontend/src/lib/insights.mappers.ts:26-57 | every numeric KPI field goes through `toNum` on its own: an absent, nullish or non-numeric value gives 0 whatever the other fields hold, a finite number is kept, and a string is read with `Number` |
| InsightsMappers.EmptySummaryIsZero | frontend/src/lib/insights.mappers.ts:26-59 | a missing or empty summary maps to all zeros |
| InsightsMappers.AovFromTotals | frontend/src/lib/insights.mappers.ts:29 | without a reported `aov` it is the gross revenue per order, rounded |
| InsightsMappers.DateOf | frontend/src/lib/insights.mappers.ts:65 | `d?.date ?? d?.day ?? ""` |
| InsightsMappers.MapOrdersToTimeSeries | frontend/src/lib/insights.mappers.ts:61-77 | one point per normalised element, in order |
| InsightsMappers.SeriesFollowsBuckets | frontend/src/lib/insights.mappers.ts:63-72 | the series keeps the API's order; a bucket with only `day` is plotted under its day |
| InsightsMappers.NameOf | frontend/src/lib/insights.mappers.ts:82 | a category name is never empty |
| InsightsMappers.CategoryOf | frontend/src/lib/insights.mappers.ts:81-85 | a category has percentage "0" and a name; a truthy non-string title throws |
| InsightsMappers.CategoriesOf | frontend/src/lib/insights.mappers.ts:81-85 | one category per product, in order, failing exactly on a product that throws |
| InsightsMappers.ProductsToPseudoCategories | frontend/src/lib/insights.mappers.ts:79-86 | at most eight categories |
| InsightsMappers.CategoriesAreFirstEight | frontend/src/lib/insights.mappers.ts:80-85 | the categories are those of the first eight products, in order |
| InsightsMappers.NameIsFirstTwoWords | frontend/src/lib/insights.mappers.ts:82 | a name is the title's first one or two words, or `Product` |
| Formatters.CalculateDelta | frontend/src/types/formatters.ts:71-84 | previous plus the delta is current; positive exactly when current is not below previous; the percentage is the delta per hundred of the base, 0 for a zero base |
| Formatters.PercentageSignOnPositiveBase | frontend/src/types/formatters.ts:76-82 | against a positive base the percentage has the reported sign |
| Formatters.PercentageSignOnNegativeBase | frontend/src/types/formatters.ts:76-82 | against a negative base the percentage has the opposite sign |
| Formatters.FormatPercent | frontend/src/types/formatters.ts:25-27 | the fixed-point rendering with one place by default, followed by `%` |
| Formatters.CurrencyNotation | frontend/src/types/formatters.ts:1-23 | compact currency exactly when compact and at least 1000 in size, in the given currency or INR |
| Formatters.NumberNotation | frontend/src/types/formatters.ts:29-40 | compact notation exactly when compact and at least 1000 in size |
| Formatters.CompactThreshold | frontend/src/types/formatters.ts:6-30 | both formatters switch to compact at the same figures, symmetric in sign, never below 1000 in size |

## Left out

- Cryptography: HMAC-SHA256, PBKDF2, `randomBytes` and base64 are function parameters or the drawn bytes. The model proves what the code does with their results, not the primitives.
- `Number()`, `JSON.parse`, `JSON.stringify`, `new URL`, `encodeURIComponent`, `URLSearchParams` encoding, `toFixed`, `Intl.NumberFormat` and `Date` are parameters. The model only fixes which formatter options are chosen, not the text.
- JavaScript numbers are reals or integers, and `parseFloat` is a parsed value in the payload. NaN from malformed money strings is not modelled.
- `Array.prototype.sort` compares UTF-16 code units; the model orders by `char` values, which is the same order below the surrogate range.
- Timestamps the code writes itself (`updatedAt`, `receivedAt` defaults) are parameters or left out.
- Database errors other than Prisma's "record not found" on `markTenantSuspended`, and transactions, are not modelled. Every repository call is taken to succeed or to throw for a missing id.
- `Promise.all` in `backfillAll` and `summary` runs its parts one after another; they share no table.
- BackfillAll: when more than one backfill fails, the model reports the first failure in argument order (products, customers, orders), while `Promise.all` rejects with the first one to fail in time, which depends on the replies' timing.
- The tenant and order id counter stands for Prisma's generated ids.
- The raw SQL aggregations of `ordersByDate`, `topCustomers` and `topProducts` are given as data, because their grouping and ranking happen in PostgreSQL.
- ParseNextLink: the `<…>` capture is returned as text. `new URL(m[1])` throws on a relative or malformed link, which would end the walk with that error; that error path is not modelled.
- InsightsController.Summary: the revenue is a ghost sum over the tenant's orders rather than Prisma's aggregate, and the customer count is over the tenant's customers.
- Webhook payload URLs (`/products/${pid}.json`) are rendered by a parameter, so an id that is not a plain number is not interpreted.
- ShopifyConfig.VerifyOAuthCallbackHmac: an `hmac` query value given more than once (an array) never verifies in the model. It throws when the item count differs from the digest's length and answers false otherwise. Node's `Buffer.from(array)` takes each item as one byte, so an array of numeric items equal to the digest's character codes would verify in the source; that case is not modelled.
- ShopParam: `toLowerCase()` is modelled for ASCII letters only, so a shop with a non-ASCII capital such as `Ä` keeps it in the model where the source lower-cases it.
- `registerWebhooks` address query strings and the request headers sent to Shopify are not modelled.
- The `server_error` branch of `googleAuthSuccess` cannot be reached in the model, because nothing in its `try` can throw without I/O; only the normal redirect is modelled.
- `helmet`, sessions, the rate limiter, body parsers, route wiring and logging are not modelled; they do not change what the core computes.
- Redis ttl expiry is recorded but not simulated over time; the Upstash client's automatic deserialisation is the parser parameter, applied by both `get` and `mget`.
- CacheMiddleware.CacheResponse: a key generator that throws outside the `try`, and the `catch` that calls `next()` after a cache error, are not modelled separately; a failing read counts as a miss.
- Passport.GoogleVerify: of the exceptions the verify callback can catch, only the TypeErrors of a profile without emails or photos are modelled, not database errors.
- Passport.DeserializeUser: a database error passed to `done` is not modelled.
- InsightsMappers.NormalizeArray: termination relies on the assumption `ParseShrinks` that `JSON.parse` of a string that yields a string yields a shorter one, which holds for JSON string literals.
- InsightsMappers.Round: `Math.round` is modelled on reals, not on double-precision floats.
- The display fields of the time series (`dateFormatted`, `revenueInCrores`, `ordersInK`) are not modelled.
- `formatCurrency` and `formatNumber` are modelled down to the formatter they choose; the locale rendering is out of reach.
- `getTenantCursors`, `setTenantCursors`, delta sync, the scheduler and rate-limit backoff are not modelled, as the source has none of them.
