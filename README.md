# legacy-capsule storefront core, in Dafny

This project models the order lifecycle of the legacy-capsule storefront, a shop that sells
printable memory-book templates and bundles of templates. It also models the catalog and pricing
rules around that lifecycle, and how an upload is classified. All of it is proved in Dafny.

- **Order record** (`Orders`). It covers the status, payment-status and currency enumerations, the
  schema's messages, and the transitions `markAsPaid`, `markAsFailed` and `generateDownloadUrl`. It
  also covers the unique sparse indexes on the session id and the payment-intent id, and the
  "completed and paid" revenue aggregate.
- **Order collection** (`OrderLedger`). The class `OrderStore` holds the documents by id, plus the
  ids in insertion order. `findOne` is the first match in insertion order, and a save that would
  break a unique index is refused and changes nothing.
- **Payment endpoints**:
  - the signed notification endpoint (`PaymentWebhook`);
  - the pull confirmation (`PaymentConfirm`);
  - checkout creation (`CheckoutSession`).

  Each one is a method that changes the store as a named function of the old state. Lemmas relate
  the endpoints to one another:
  - replaying a notification changes nothing;
  - the push and pull paths apply the same transition;
  - an order created at checkout is marked paid by its session's completion notification, and
    no failed-payment event or refund that names a payment intent reaches it before that. Two
    paths do reach it without the notification. The confirm endpoint applies the same
    transition. A refund whose charge carries no payment intent looks up
    `{stripePaymentIntentId: null}`, which matches the oldest order without an intent, such as a
    pending checkout order. `PaymentWebhook.RefundWithoutIntentHitsOldestUnpaid` proves this.
- **Orders endpoint** (`OrdersApi`): the listing access rule, and the pending order posted by a
  signed-in user.
- **Catalog** (`Templates`, `Bundles`, `CatalogStore`, `TemplatesApi`, `BundlesApi`):
  - the template and bundle schemas;
  - the active, category and search listings;
  - `incrementDownloadCount`;
  - the savings virtuals;
  - bundle creation with its `originalTotal` sum and its check that every template was found.
- **Upload classification** (`Upload`): the size limit, PDF detection, the public id taken from the
  name by stripping its final extension, the folder and resource type, and the error message.

Modelling conventions:

- **Prices** are integer cents throughout.
- **Time** is a number of milliseconds, passed in as a parameter.
- **External answers are inputs.** These are the JWT claims, the payment provider's answers
  (session created or failed, the retrieved session, the verified event) and the media host's
  upload outcome.
- **"Newest first"** is the reverse of insertion order.
- **The search regex** is a parameter `matches(field, query)`.

Two properties of the payment handlers:

- **No guard for completed orders.** `handlePaymentFailed` overwrites any order that carries the
  payment intent, whatever its status. `PaymentWebhook.FailureAfterCompletionDowngrades` proves
  that a completed, paid order is downgraded to failed.
- **Replay is harmless without a status gate.** Replaying an event is harmless only because each
  transition writes fixed values, not because the handler checks the order's status first.

## Model

| member | source | states |
|---|---|---|
| Orders.ParseStatus | app/models/Order.js:45-49 | a stored status name denotes the one status with that name; a name outside the five values is refused |
| Orders.ParsePaymentStatus | app/models/Order.js:50-54 | a stored payment-status name denotes the one value with that name; a name outside the four values is refused |
| Orders.ParseCurrency | app/models/Order.js:40-44 | a currency name denotes the one currency with that name; a name other than usd/eur/gbp/cad is refused |
| Orders.NamesRoundTrip | app/models/Order.js:40-54 | every status, payment status and currency reads back from its stored name |
| Orders.OrderSchemaErrors | app/models/Order.js:35-44 | validation passes iff the amount is ≥ 0 and the currency is in the enumeration; a negative amount is reported first, an unknown currency last, at most two messages |
| Orders.NewOrder | app/models/Order.js:45-60 | a new order is pending/pending with no download link, every other field as given |
| Orders.Total | app/models/Order.js:86-88 | a schema-valid order's total is never negative |
| Orders.MarkedAsPaid | app/models/Order.js:96-101 | status completed, payment status paid, the payment intent set to the argument, every purchase field unchanged |
| Orders.MarkedAsFailed | app/models/Order.js:104-108 | status and payment status failed; the payment intent and every purchase field unchanged |
| Orders.MarkedAsRefunded | app/api/payment/webhook/route.js:107-109 | only the payment status changes, to refunded |
| Orders.MarkAsPaidIdempotent | app/models/Order.js:96-101 | marking paid twice with the same intent equals marking paid once |
| Orders.MarkAsPaidOverwrites | app/models/Order.js:96-101 | marking paid erases any earlier transition: the last writer wins |
| Orders.FailureDowngradesPaidOrder | app/models/Order.js:104-108 | marking failed is not gated: a completed, paid order becomes failed/failed and keeps its intent |
| Orders.TransitionsKeepPurchase | app/models/Order.js:96-108 | no transition changes purchaser, items, amount, currency or ids, and each keeps the schema valid |
| Orders.DownloadPath | app/models/Order.js:113 | the download path is the prefix followed by the order id |
| Orders.DownloadPathOrder | app/models/Order.js:113 | a path names an order exactly when it starts with the prefix, and it is that order's path |
| Orders.DownloadPathRoundTrip | app/models/Order.js:113 | an order's download path reads back as that order's id |
| Orders.WithDownloadUrl | app/models/Order.js:111-116 | the link names the order, expires 24 hours after `now`, and nothing else changes |
| Orders.AdmissiblePreservesUnique | app/models/Order.js:25-34 | an admissible save keeps both unique indexes unique |
| Orders.SameKeysAdmissible | app/models/Order.js:25-34 | an update keeping a stored order's session and intent ids never breaks an index |
| Orders.SessionIdentifiesOrder | app/models/Order.js:25-29 | under the unique index two stored orders with the same session id are one order |
| Orders.PaymentIntentIdentifiesOrder | app/models/Order.js:30-34 | under the unique index two stored orders with the same payment intent are one order |
| Orders.OrdersOfUser | app/models/Order.js:119-121 | the orders of that user, each as often as stored, in reverse insertion order |
| Orders.OrdersOfUserNewestFirst | app/models/Order.js:119-121 | over orders stored in creation order, the listing is sorted by `createdAt`, newest first |
| Orders.SumAmountsAppend | app/models/Order.js:147 | the summed amount of two runs of orders is the sum of their sums |
| Orders.SumAmountsNonNegative | app/models/Order.js:147 | summing schema-valid orders gives a non-negative total |
| Orders.RevenueOrdersExactly | app/models/Order.js:129-143 | an order is aggregated iff it is completed and paid and, when both dates are given, created within the inclusive range |
| Orders.GetRevenueStats | app/models/Order.js:129-153 | no document when nothing matches; otherwise `totalRevenue` is the sum of the counted orders' amounts and `totalOrders` their number, never more than the collection |
| Orders.RevenueOfAppend | app/models/Order.js:142-148 | adding an order adds its amount to the revenue exactly when it counts |
| Orders.RevenueNonNegative | app/models/Order.js:129-153 | revenue over a valid collection is never negative |
| OrderLedger.FirstMatch | app/api/payment/webhook/route.js:85-87 | the id found holds a matching order; a miss means no listed order matches |
| OrderLedger.FirstMatchMiss | app/api/payment/webhook/route.js:85-89 | under the collection invariant a miss means no stored order matches |
| OrderLedger.FirstMatchIsTheOrder | app/models/Order.js:25-34 | a present session or intent id finds the one order carrying it |
| OrderLedger.AfterUpdateConsistent | app/models/Order.js:100 | saving a changed stored order keeps the collection invariant |
| OrderLedger.PaidEffectConsistent | app/api/payment/webhook/route.js:67-77 | the mark-paid transition for a session keeps the collection invariant |
| OrderLedger.PaidEffectIdempotent | app/api/payment/webhook/route.js:67-77 | applying mark-paid for a session twice equals applying it once |
| OrderLedger.OrderStore.All | app/api/orders/route.js:56-58 | every stored order, in insertion order |
| OrderLedger.OrderStore.FindOne | app/api/payment/confirm/route.js:40 | the order found matches the filter; a miss means no stored order matches |
| OrderLedger.OrderStore.FindByStripeSessionId | app/models/Order.js:124-126 | the order found carries the session id and is the only one that does; a miss means none does |
| OrderLedger.OrderStore.Insert | app/api/payment/create-session/route.js:195 | a new document is refused by the schema, a reused id or an index clash (store unchanged), else appended |
| OrderLedger.OrderStore.Update | app/api/payment/webhook/route.js:71-74 | saving a loaded document: the outcome and the new collection are the save's, the order of ids unchanged |
| OrderLedger.OrderStore.MarkAsPaid | app/models/Order.js:96-101 | the stored order becomes its marked-paid version when the save succeeds |
| OrderLedger.OrderStore.MarkAsFailed | app/models/Order.js:104-108 | the stored order becomes failed/failed; the save always succeeds |
| OrderLedger.OrderStore.GenerateDownloadUrl | app/models/Order.js:111-116 | only the stored order's link fields change; the save always succeeds |
| PaymentWebhook.UpdateTouchesOne | app/api/payment/webhook/route.js:71-74 | saving one changed order keeps the invariant and replaces at most that order |
| PaymentWebhook.EventEffectConsistent | app/api/payment/webhook/route.js:37-55 | every verified event keeps the collection invariant and replaces at most one order, keeping its purchase |
| PaymentWebhook.FailedEffectIdempotent | app/api/payment/webhook/route.js:83-99 | a repeated failed-payment event changes nothing more |
| PaymentWebhook.RefundEffectIdempotent | app/api/payment/webhook/route.js:101-116 | a repeated refund event changes nothing more |
| PaymentWebhook.EventReplayIsHarmless | app/api/payment/webhook/route.js:37-57 | delivering any event twice leaves the store as one delivery does |
| PaymentWebhook.FailureAfterCompletionDowngrades | app/api/payment/webhook/route.js:83-92 | a failure after completion turns the completed, paid order into a failed one |
| PaymentWebhook.RefundChangesOnlyPaymentStatus | app/api/payment/webhook/route.js:101-110 | a refund for a known intent changes only that order's payment status |
| PaymentWebhook.NoIntentNoFailureOrRefund | app/api/payment/webhook/route.js:85-87 | an order without a payment intent is untouched by failure events and by refunds naming an intent |
| PaymentWebhook.RefundWithoutIntentHitsOldestUnpaid | app/api/payment/webhook/route.js:103-105 | a refund naming no intent marks refunded the oldest order that has no intent |
| PaymentWebhook.HandleCheckoutSessionCompleted | app/api/payment/webhook/route.js:67-81 | the store afterwards is the mark-paid effect for the session and its intent |
| PaymentWebhook.HandlePaymentFailed | app/api/payment/webhook/route.js:83-99 | the store afterwards is the failed effect for the intent |
| PaymentWebhook.HandleRefund | app/api/payment/webhook/route.js:101-116 | the store afterwards is the refund effect for the charge's intent |
| PaymentWebhook.Post | app/api/payment/webhook/route.js:8-57 | no signature or a failed verification gives 400 and no change; a verified event gives success and the event's effect |
| PaymentConfirm.DownloadFor | app/api/payment/confirm/route.js:55-67 | success iff the order names an existing template, carrying that template's pdfUrl and title; else 404 |
| PaymentConfirm.Get | app/api/payment/confirm/route.js:9-73 | every early return with its status and no change; a paid session applies mark-paid before the template lookup; any other status gives 400 and no change |
| PaymentConfirm.ConfirmAndNotificationAgree | app/api/payment/confirm/route.js:49-53 | the pull path and the notification apply the same transition, and either after the other changes nothing |
| PaymentConfirm.BundleOrderConfirmsWithoutLink | app/api/payment/confirm/route.js:49-61 | an order without a template is marked paid and still answered 404 |
| CheckoutSession.SuccessUrlWithSession | app/api/payment/create-session/route.js:61-63 | the address followed by `&` if it has a `?`, else `?`, then the session parameter; its count of `?` goes up by one only when it had none |
| CheckoutSession.ShortDescription | app/api/payment/create-session/route.js:95 | present iff the description is non-empty; then at most 500 characters and a prefix of it |
| CheckoutSession.Resolved | app/api/payment/create-session/route.js:124 | never more ids than the bundle lists |
| CheckoutSession.ResolvedExactly | app/api/payment/create-session/route.js:124 | an id is snapshotted iff the bundle lists it and the template exists |
| CheckoutSession.PlanBundle | app/api/payment/create-session/route.js:68-110 | planned iff the bundle exists, is active and costs more than 0; the request's price equals the order's amount, and the cancel address is passed through |
| CheckoutSession.PlanTemplate | app/api/payment/create-session/route.js:131-173 | planned iff the template exists, is active and costs more than 0; the request's price equals the order's amount |
| CheckoutSession.PlanCheckout | app/api/payment/create-session/route.js:68-147 | a bundle id takes precedence over a template id; with a bundle id the plan succeeds iff that bundle exists, is active and costs more than 0, and a refused bundle never falls back to the template; otherwise iff the template exists, is active and costs more than 0; a refusal is 400 or 404 |
| CheckoutSession.CheckoutOrder | app/api/payment/create-session/route.js:121-130 | pending/pending, in usd, with the session id, no payment intent, no link, the planned amount, and the purchase snapshot: template id, bundle id and purchased template ids |
| CheckoutSession.Post | app/api/payment/create-session/route.js:25-213 | a 500, 401, 400 or plan refusal sends nothing and stores nothing; a provider failure stores nothing; a created session stores exactly one order |
| CheckoutSession.CheckoutThenNotificationPays | app/api/payment/create-session/route.js:184-192 | a checkout order is untouched by failure and intent refunds, and is marked paid by its completion notification |
| OrdersApi.OrdersQueryAsWritten | app/api/orders/route.js:38-63 | 401 iff signed out or a non-admin names another user; a non-admin gets their own orders; an admin gets the requested user's orders (the caller by default), and all orders only when that id is empty |
| OrdersApi.AdminNeverListsAll | app/api/orders/route.js:38-59 | as written, an admin with a non-empty id never gets all orders; naming nobody, the endpoint serves only the admin's own orders |
| OrdersApi.OrdersQueryFor | app/api/orders/route.js:40-63 | corrected half of the second Findings row: refused iff signed out or a non-admin names another user; a non-admin gets their own orders; an admin gets the named user's orders, or all of them when nobody is named |
| OrdersApi.Run | app/api/orders/route.js:50-63 | the queried user's listing, or every stored order in reverse insertion order |
| OrdersApi.RunNewestFirst | app/api/orders/route.js:53-58 | over orders stored in creation order, both listings are sorted by `createdAt`, newest first |
| OrdersApi.Get | app/api/orders/route.js:24-68 | as written: 401 iff the written access decision refuses; a non-admin gets their own listing; an admin gets the requested user's listing, defaulting to their own, and every order only when that id is empty |
| OrdersApi.GetAsIntended | app/api/orders/route.js:40-63 | corrected half of the second Findings row: an admin naming nobody gets every order newest first, naming a user gets that user's listing |
| OrdersApi.NonAdminSeesOnlyOwn | app/api/orders/route.js:41-46 | a non-admin is served iff they name themselves or nobody, then sees only their own orders, and the written and corrected endpoints answer alike |
| OrdersApi.AdminSeesAll | app/api/orders/route.js:54-58 | with the corrected access decision, an admin naming nobody sees every stored order |
| OrdersApi.PostedOrderAsWritten | app/api/orders/route.js:100-109 | pending/pending for the token's user with the body's template and amount; both provider ids always present, the body's when given and "" otherwise |
| OrdersApi.SecondPostWithoutSessionCollides | app/api/orders/route.js:103 | as written, a second order posted without a session id is refused as a duplicate key |
| OrdersApi.PostedOrder | app/api/orders/route.js:100-109 | corrected half of the first Findings row: pending/pending for the token's user, with the body's template and amount; each provider id present iff the body gives one |
| OrdersApi.PostWithoutIdsAdmissible | app/models/Order.js:25-34 | an order posted without provider ids never clashes with a stored order |
| OrdersApi.Post | app/api/orders/route.js:78-136 | 401 when signed out, 400 for missing fields or schema errors (joined by ", "), 201 with the order as written stored, 500 when the save is refused (so for a second order without a session id); nothing stored on any refusal |
| OrdersApi.BothValidationMessagesReported | app/api/orders/route.js:125-131 | a negative amount and an unknown currency are both reported, in schema order |
| Templates.FromBody | app/models/Template.js:40-57 | isActive defaults to true, downloadCount to 0, and the title and description are trimmed |
| Templates.TextPathError | app/models/Template.js:4-15 | a text path passes iff it is non-empty and within its maximum |
| Templates.TemplateErrors | app/models/Template.js:4-52 | validation passes iff title ≤ 100 and description ≤ 500 are non-empty, a price ≥ 0 is given, the category is one of the nine, and both addresses are present |
| Templates.TemplateById | app/api/payment/create-session/route.js:133 | the template found has that id; a miss means none has |
| Templates.GetActiveTemplates | app/models/Template.js:63-65 | the active templates, each as often as stored, in reverse insertion order |
| Templates.GetByCategory | app/models/Template.js:68-70 | the active templates of the category, in reverse insertion order |
| Templates.Search | app/models/Template.js:73-86 | the active templates whose title, description or category the query matches, in reverse insertion order |
| Templates.Incremented | app/models/Template.js:89-92 | the download count goes up by exactly one and nothing else changes |
| Templates.IncrementedValid | app/models/Template.js:89-92 | counting a download keeps a template valid |
| Bundles.SavingsAmount | app/models/Bundle.js:41-43 | never negative, and either 0 or the original total minus the price |
| Bundles.RoundHalfUp | app/models/Bundle.js:49 | the nearest integer to the quotient, halves rounded up |
| Bundles.SavingsPercent | app/models/Bundle.js:45-50 | 0 when the original total is 0; otherwise the whole number nearest to 100·saved/original |
| Bundles.RoundedPercentInRange | app/models/Bundle.js:48-49 | rounding 100·saved/original lands in 0..100 when the savings are at most the original |
| Bundles.SavingsPercentBounds | app/models/Bundle.js:41-50 | with a non-negative price the savings lie in 0..original and the percentage in 0..100 |
| Bundles.BundleErrors | app/models/Bundle.js:5-36 | validation passes iff the title is non-empty and ≤ 120, a description is ≤ 500, and the price and original total are ≥ 0 |
| Bundles.GetActiveBundles | app/models/Bundle.js:52-56 | the active bundles, in reverse insertion order |
| Bundles.BundleById | app/api/payment/create-session/route.js:70 | the bundle found has that id; a miss means none has |
| CatalogStore.Catalog.AddTemplate | app/api/templates/route.js:54-55 | schema errors, then a reused id, refuse the save and change nothing; otherwise the template is appended |
| CatalogStore.Catalog.AddBundle | app/api/bundles/route.js:96 | schema errors, then a reused id, refuse the save and change nothing; otherwise the bundle is appended |
| CatalogStore.Catalog.IncrementDownloadCount | app/models/Template.js:89-92 | the named template's count goes up by one, every other template and bundle unchanged, the catalog still valid |
| TemplatesApi.Get | app/api/templates/route.js:5-24 | a search term wins, then a category, then all active templates |
| TemplatesApi.EveryListingIsActive | app/api/templates/route.js:15-24 | every listing shows stored active templates only, and with no parameter every one of them |
| TemplatesApi.SearchWinsOverCategory | app/api/templates/route.js:15-20 | with a search term the category does not affect the listing |
| TemplatesApi.Post | app/api/templates/route.js:40-78 | missing fields give 400; schema errors give 400 joined by ", "; a refused save gives 500; else 201 and the template appended |
| TemplatesApi.BlankTitleRefused | app/api/templates/route.js:46-55 | a title of spaces passes the presence check but the schema reports "Title is required" first |
| TemplatesApi.CreatedDefaults | app/models/Template.js:40-57 | a template created without those fields is active with no downloads |
| BundlesApi.Populate | app/api/bundles/route.js:31-37 | one summary per listed id that names a stored template, in the ids' order: that template's id, title, price, image and PDF address |
| BundlesApi.PopulateComplete | app/api/bundles/route.js:15 | every listed id that names a stored template appears as that template's summary |
| BundlesApi.Listed | app/api/bundles/route.js:10-14 | the active bundles, or every bundle when `all` is "true", in reverse insertion order |
| BundlesApi.Get | app/api/bundles/route.js:6-41 | one view per listed bundle, in listing order, with its stored fields, its savings amount and percentage, and its populated templates; only active ones unless `all` is "true" |
| BundlesApi.ListedSavingsInRange | app/api/bundles/route.js:26-30 | over valid bundles, every listed saving lies in 0..original and every percentage in 0..100 |
| BundlesApi.Matched | app/api/bundles/route.js:75 | never more templates than the catalog holds |
| BundlesApi.MatchedExactly | app/api/bundles/route.js:75 | a template is found iff it is stored and its id is listed |
| BundlesApi.SumPricesNonNegative | app/api/bundles/route.js:83-86 | the sum of non-negative prices is non-negative |
| BundlesApi.OriginalTotal | app/api/bundles/route.js:83-86 | the sum of the found templates' prices; never negative over a valid catalog |
| BundlesApi.NewBundle | app/api/bundles/route.js:87-94 | the body's ids and price, isActive defaulting to true, the computed original total, the title trimmed, the description trimmed when given |
| BundlesApi.Post | app/api/bundles/route.js:51-115 | missing fields or an unfound template give 400; schema errors give 400 joined; a refused save gives 500; else 201 and the bundle appended; templates untouched |
| BundlesApi.CreatedOriginalTotalValid | app/api/bundles/route.js:83-96 | over a valid catalog a new bundle's original total passes its minimum |
| BundlesApi.MatchedCount | app/api/bundles/route.js:75 | with distinct catalog ids, one template is found per distinct listed id that exists |
| BundlesApi.AllTemplatesFoundExactly | app/api/bundles/route.js:75-81 | the count check passes iff the listed ids are distinct and all exist, so a repeated id is refused |
| Upload.TooLargeMessage | app/api/upload/route.js:29 | the limit is reported as "4MB" |
| Upload.NameOf | app/api/upload/route.js:35 | the file's name, or "upload" when it has none |
| Upload.ExtensionStart | app/api/upload/route.js:58 | the position found starts an extension: a dot, then at least one character, none of them a dot or slash; a miss means there is none |
| Upload.StripExtension | app/api/upload/route.js:57-59 | the name cut at its extension when it has one, else the name unchanged |
| Upload.StripExtensionRoundTrip | app/api/upload/route.js:57-59 | stripping `base.ext` gives `base` for any extension without a dot or a slash |
| Upload.StripExtensionRemovesOnlyExtension | app/api/upload/route.js:57-59 | the result is a prefix of the name, and anything removed is an extension |
| Upload.OptionsFor | app/api/upload/route.js:52-61 | a PDF is stored raw in the templates folder; anything else goes to the main folder with automatic detection; the id is the stripped name, with ".pdf" appended for a PDF |
| Upload.PdfPublicIdKeepsStem | app/api/upload/route.js:57-58 | a PDF's public id strips back to the same stem as its name |
| Upload.Prepare | app/api/upload/route.js:16-33 | accepted iff a file is given and is at most 4·1024·1024 bytes; no file and a large file give their 400s |
| Upload.ErrorMessage | app/api/upload/route.js:89-94 | the error's message if non-empty, else "Cloudinary error: " followed by the code if non-zero, else "Upload failed" |
| Upload.ErrorCodeReadable | app/api/upload/route.js:92-93 | the code can be read back from the error text |
| Upload.Post | app/api/upload/route.js:11-99 | refusals before the upload; then the upload's result, or 500 with the error message |
| Upload.SizeLimitBoundary | app/api/upload/route.js:24-25 | exactly 4 MB is accepted, one byte more is refused |
| Upload.PdfSuffixInAnyCase | app/api/upload/route.js:38 | the name test holds iff the name ends in a dot and p, d, f, each in either case |
| Common.Trim | app/models/Template.js:7 | a contiguous slice of the text with only spaces outside it, so nothing inside is dropped; no space is left at either end |
| Common.NewestFirstDescending | app/models/Template.js:64 | over a sequence in creation order, a newest-first listing is sorted by creation time, newest first |
| Common.TrimEmpty | app/api/templates/route.js:46 | trimming leaves nothing iff the text is made of spaces |
| Common.Prefix | app/api/payment/create-session/route.js:95 | at most n characters, a prefix of the text, the whole text when it is short enough |
| Common.JoinLength | app/api/orders/route.js:126-128 | the joined text holds every part and one separator between each pair |

## Left out

- I/O and foreign code are inputs or are not modelled:
  - the database connection, and the catch-all 500 replies for when it fails;
  - JWT verification: the claims are an input;
  - the payment provider's SDK: the verified event, the retrieved session and the session-creation answer are inputs;
  - the media host's upload stream: its outcome is an input.
- Concurrency is not modelled. Each request runs alone against the store.
- Floating point is not modelled:
  - prices are integer cents, so the cents conversion `Math.round(price * 100)` is the identity and a sub-cent price cannot arise;
  - `formattedAmount` and `toFixed` are not modelled;
  - `$avg` in the revenue aggregate is not computed, only the total and the count.
- Bundles.SavingsPercent: rounds the exact rational 100·saved/original half up. It does not model the float division that `Math.round` sees.
- Templates.Search: the case-insensitive regex is the parameter `matches`; user-supplied patterns are not modelled.
- Upload.PdfSuffixInAnyCase: lower-casing is ASCII only. No other character lower-cases to `.`, `p`, `d` or `f`, so the PDF test is unaffected.
- Common.Trim: the set of trimmed spaces is the ASCII white space plus no-break space and the byte-order mark. It is not every Unicode space separator.
- String lengths count characters, not UTF-16 code units.
- ObjectId casting is not modelled. Ids are plain strings, and a malformed id is treated as an id that names no document. In the source a malformed id in a query (`findById` at checkout, `find({userId})` in the orders listing, `$in` in the bundle creation) raises a cast error, which is answered 500.
- OrdersApi.Post: a malformed `templateId` in a posted order is stored and answered 201. In the source, `order.save()` rejects it with a `ValidationError` wrapping the cast error, which is answered 400 with a "Cast to ObjectId failed" message.
- Null versus missing: a field set to null and a missing field are the same, both "absent" (`None`). A `null` query matches both, as in the source.
- PaymentWebhook.HandleCheckoutSessionCompleted: the unique sparse index on the payment-intent id ignores `None`. The database skips only a missing field and indexes an explicit `null`. `handleCheckoutSessionCompleted` stores `session.payment_intent` as given. So when two completed sessions carry no payment intent, the source refuses the second save and the model accepts it.
- Timestamps: `createdAt` is an explicit field. A listing sorted on it newest first is modelled as reverse insertion order. `Common.NewestFirstDescending` and `OrdersApi.RunNewestFirst` show that this is the sort when documents are stored in creation order. The store does not enforce that order, and ties between equal times are not modelled.
- `getTopSellingTemplates` is not modelled. It is an aggregate that no modelled endpoint calls.
- Not every order or upload field is modelled:
  - `customerEmail`, `customerName`, `notes` and `metadata` on orders;
  - the echo fields of the upload reply (`format`, `bytes`, `type`);
  - `createdAt` and `updatedAt` in listings.
- The population of `templateId` in order listings is not modelled.
- Bundle listings populate their member templates. Ids that name no template are dropped.
- Duplicate keys: the database driver's full message is represented by its fixed prefix.
- The download endpoint that serves an order's link is not part of this model.

## Findings

| source | as written | input that shows it | evidently intended | confidence | as-written member | corrected member |
|---|---|---|---|---|---|---|
| app/api/orders/route.js:103-104 | a missing `stripeSessionId`/`stripePaymentIntentId` is stored as `""`, which the unique sparse index treats as a present value | two POSTs whose bodies name a template and an amount but no session id: the second save is refused as a duplicate key and answered 500 "Failed to create order" | the ids are left absent, so that any number of orders without provider ids can be stored | not executed | OrdersApi.SecondPostWithoutSessionCollides | OrdersApi.PostWithoutIdsAdmissible |
| app/api/orders/route.js:38-59 | `userId` defaults to the caller's id before the admin branch tests `if (userId)`, so the "all orders" branch needs a caller whose id is empty | an admin whose token carries a non-empty userId requests `/api/orders` with no parameter and gets only their own orders | an admin naming no user lists every order, as the branch's comment and the admin dashboard's unparameterised request expect | not executed | OrdersApi.AdminNeverListsAll | OrdersApi.AdminSeesAll |
