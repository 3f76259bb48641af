# Webhooks controller model

This project models the webhook endpoint of a Shopify app: the Rails
`WebhooksController`. Each request arrives in one of two shapes:

- a **relayed** envelope, whose `detail` carries the shop domain in `metadata` and the event in `payload`;
- a **direct** webhook, signed with an HMAC (SHA-256, Base64) of the raw body under the app secret.

The `verify_webhook` filter decides which shape arrived. For a direct
webhook it checks the signature and answers 401 `Not Authorized` when the
signature is wrong. Otherwise it records the shop domain and the `low`
queue. The five actions then turn the event into Sidekiq jobs:

| action | jobs |
|---|---|
| `product` | one product job, pushed through `create_job_unless_exists` |
| `collection` | one collection job, pushed through `create_job_unless_exists` |
| `order` | an order job 10 s out and, when the order has a cart token, a sale job 11 s out on `sale_stats` |
| `app_uninstalled` | a cancellation job 10 s out |
| `shop_update` | a shop job 10 s out, carrying the renamed shop attributes |

`create_job_unless_exists` skips the push when duplicate checking is
switched on (`CHECK_DUPLICATE_JOBS=true`) and a pending entry of `low`
has the same job class and args.

Files and modules:

- `json.dfy` (`Json`): JSON values as Ruby sees them. It covers truthiness, ActiveSupport `blank?`/`present?`, and what `v['key']`, `v[:key]` and `v[0]` do on each class of value, including the exceptions they raise. Exceptions are `Result.Raise`.
- `sidekiq.dfy` (`Sidekiq`): job descriptors, the job store (a class whose `entries` only `Push` changes) and the entries pending in a named queue.
- `envelope.dfy` (`Envelope`): the two wire shapes, `verify_webhook`'s decision as a function, and where each action finds its payload and resource id.
- `order_opts.dfy` (`OrderOpts`): `discount_code` and the `order_opts` hash. This includes `compact.sort` of the product ids and the per-line `item_variants`.
- `shop_opts.dfy` (`ShopOpts`): the `shopts` hash and its renamed attributes.
- `webhooks_controller.dfy` (`WebhooksController`):
  - the duplicate rule `DedupPush`;
  - the pure outcome of each action (`ActionOutcome`) and of a whole request (`RequestOutcome`);
  - the `Controller` class, whose methods are proved to reach exactly those outcomes on the shared store: `@myshopify_domain` and `@q` are its fields, `create_job_unless_exists` is its loop over the pending entries, and there is one method per action.

Uncaught exceptions become a 500 response with no further pushes. The
environment, the clock and the HMAC primitive are parameters:

- `env` is a map standing for `ENV`;
- `now` is one clock reading per request;
- `hmac(secret, body)` stands for `Base64.encode64(OpenSSL::HMAC.digest(...)).strip`.

What the controller does not do:

- The controller has no separate 400 answer. A missing field is read as nil, and the job is still pushed with the nil in it: a payload without `id` gives `[domain, nil]` (line 12), and metadata without a shop domain gives a nil `@myshopify_domain` (line 114). A value that cannot be indexed the way the code indexes it raises instead, and the request fails with a 500. Examples are a nil payload, or a string where `[:payload]` or `[:id]` is applied.
- The order job is pushed to `low`. The controller has no orders queue and no theme queue.
- Only the order action schedules a job strictly later than another.
- The controller has no theme actions and no gate on a resource's lifecycle state.

## Model

| member | source | states |
|---|---|---|
| `Sidekiq.Pending` | app/controllers/webhooks_controller.rb:99 | the entries of `Sidekiq::Queue.new(name).entries` are exactly the stored entries whose queue is `name`, never more than the store holds |
| `Sidekiq.SameWork` | app/controllers/webhooks_controller.rb:100 | an entry matches exactly when it is the candidate job up to queue and due time: same class, equal argument array |
| `Sidekiq.HasDuplicate` | app/controllers/webhooks_controller.rb:99-103 | the scan finds a duplicate exactly when some pending entry does the same work |
| `Sidekiq.PendingAppend` | app/controllers/webhooks_controller.rb:99-108 | a push appends to its own queue's pending entries and leaves every queue's earlier entries pending, in order |
| `Sidekiq.Store.Push` | app/controllers/webhooks_controller.rb:108 | `Sidekiq::Client.push` appends the descriptor and changes nothing else |
| `Envelope.TransportOf` | app/controllers/webhooks_controller.rb:112-113 | the request is relayed exactly when `data['detail']` is present, and then carries that detail; indexing a body that cannot be indexed raises |
| `Envelope.Authenticate` | app/controllers/webhooks_controller.rb:111-131 | relayed: accepted with the metadata's shop domain, raising where that lookup raises; direct: raises exactly when the secret is unset, accepts exactly when the signature header equals the HMAC of the raw body, takes the domain from the shop-domain header, and a denial carries the calculated and the received signature |
| `Envelope.MetadataDomain` | app/controllers/webhooks_controller.rb:114 | the shop domain of a relayed envelope is the metadata's `X-Shopify-Shop-Domain` (nil when the metadata lacks it); a detail without metadata raises `NoMethodError`; it raises exactly when one of the two lookups raises |
| `Envelope.RelayedIgnoresSignature` | app/controllers/webhooks_controller.rb:113-114 | a relayed envelope's verdict does not depend on headers, raw body, secret or HMAC function |
| `Envelope.ModifiedBodyDenied` | app/controllers/webhooks_controller.rb:119-125 | a signature valid for one body is refused for a body whose HMAC differs |
| `Json.Blank` | app/controllers/webhooks_controller.rb:113 | ActiveSupport `blank?`: every falsy value is blank, `""`, `[]` and `{}` are blank, and integers, `true` and any string with a non-whitespace character are not |
| `Json.Present` | app/controllers/webhooks_controller.rb:113 | `present?` is exactly not `blank?` and implies truthiness; lines 9, 29, 39, 54, 56 and 73 test it the same way |
| `Json.Index` | app/controllers/webhooks_controller.rb:44-58 | `v['key']` succeeds exactly on a hash or a string: a hash gives the key's value, nil when it is missing; a string gives the key itself when it occurs as a substring, else nil; nil and booleans raise `NoMethodError`; integers and arrays raise `TypeError`; lines 79-88 and 114 index the same way |
| `Json.At0` | app/controllers/webhooks_controller.rb:44 | `v[0]`: an array's first element or nil when empty, a string's first character or nil when empty, an integer's lowest bit, nil for a hash; nil and booleans raise `NoMethodError` and nothing else raises |
| `Json.IndexSym` | app/controllers/webhooks_controller.rb:10 | `v[:key]` succeeds exactly on a hash, where it is the key's lookup; a string, array or integer raises `TypeError`; nil and booleans raise `NoMethodError` |
| `Envelope.Payload` | app/controllers/webhooks_controller.rb:39-43 | the payload is `params[:detail][:payload]` for a relayed envelope, which succeeds exactly when `detail` is a hash and raises `TypeError` for a string, array or integer; it is the whole body for a direct webhook |
| `Envelope.ResourceId` | app/controllers/webhooks_controller.rb:9-13 | the product or collection id is `[:id]` of the selected payload: it succeeds exactly when that payload is a hash and then is its `id` (nil when missing); it raises when the payload selection raises |
| `OrderOpts.DiscountCode` | app/controllers/webhooks_controller.rb:44-48 | nil when `discount_codes` is falsy or its first element is falsy or missing, else the first code's `code`; raises when the payload cannot be indexed |
| `OrderOpts.LineItems` | app/controllers/webhooks_controller.rb:51-52 | the line items default to `[]`: nil gives no line items, an array gives its elements |
| `OrderOpts.Enumerate` | app/controllers/webhooks_controller.rb:51-52 | `map` on `payload['line_items'] or []` enumerates an array's elements and nothing for an empty hash; a non-empty hash raises `TypeError` at the element lookup; every other value has no `map` and raises `NoMethodError` |
| `OrderOpts.ProductIds` | app/controllers/webhooks_controller.rb:51 | the product ids succeed exactly when the line items can be enumerated and each can be indexed, with one id per line item, in order |
| `OrderOpts.MapIndex` | app/controllers/webhooks_controller.rb:51 | mapping `l[key]` over the line items succeeds exactly when every element can be indexed; the result has one entry per element, each that element's lookup |
| `OrderOpts.Compact` | app/controllers/webhooks_controller.rb:51 | `compact` keeps every non-nil element with its multiplicity and no nil |
| `OrderOpts.Insert` | app/controllers/webhooks_controller.rb:51 | inserting an integer into a sorted list keeps it sorted and adds exactly that element |
| `OrderOpts.SortInts` | app/controllers/webhooks_controller.rb:51 | `sort` of integers is ascending and a permutation of its input |
| `OrderOpts.SortIds` | app/controllers/webhooks_controller.rb:51 | `sort` of product ids succeeds exactly for integer lists and lists of at most one element, raises `ArgumentError` otherwise, and returns a sorted permutation |
| `OrderOpts.Items` | app/controllers/webhooks_controller.rb:51 | `items` is the multiset of the line items' product ids without nils, in ascending order; nil line items give `[]`; it fails exactly when a lookup fails or there are two or more ids that are not all integers |
| `OrderOpts.Variant` | app/controllers/webhooks_controller.rb:52 | each `item_variants` entry has exactly the four keys, each the line item's own field, `discount` being `discount_allocations` |
| `OrderOpts.ItemVariants` | app/controllers/webhooks_controller.rb:52 | one variant entry per line item, in order; fails exactly when one of them fails |
| `OrderOpts.ItemVariantsOf` | app/controllers/webhooks_controller.rb:52 | `item_variants` is an array as long as the line items whose entries have the four variant keys |
| `OrderOpts.PresentOrNil` | app/controllers/webhooks_controller.rb:54-56 | `payload[block].present? ? payload[block][key] : nil`, raising when the payload cannot be indexed |
| `OrderOpts.Build` | app/controllers/webhooks_controller.rb:44-59 | `order_opts` succeeds exactly when each piece does, has exactly the nine keys, and each key holds its own piece of the payload |
| `OrderOpts.Summary` | app/controllers/webhooks_controller.rb:49-59 | the hash literal has exactly the nine keys, each holding its argument |
| `OrderOpts.ItemsDropNilsAndSort` | app/controllers/webhooks_controller.rb:51 | product ids 5, 3 and nil give `items == [3, 5]` |
| `OrderOpts.SampleProductIds` | app/controllers/webhooks_controller.rb:51 | the sample order's product ids, in line-item order |
| `OrderOpts.SampleCompact` | app/controllers/webhooks_controller.rb:51 | `compact` drops the sample's nil |
| `OrderOpts.SampleSort` | app/controllers/webhooks_controller.rb:51 | `[5, 3].sort == [3, 5]` |
| `OrderOpts.MissingBlocksAreNil` | app/controllers/webhooks_controller.rb:44-58 | an order without discount codes, billing address, customer and line items still yields all nine keys, with nil discount code, country and order count and empty `items` and `item_variants` |
| `ShopOpts.ShopKeysAreRenamed` | app/controllers/webhooks_controller.rb:78-89 | the ten target attributes are distinct and are exactly the keys of `shopts` |
| `ShopOpts.Build` | app/controllers/webhooks_controller.rb:78-89 | `shopts` succeeds exactly when the payload can be indexed, has exactly the ten keys, and each key holds its source field, including the four renames |
| `WebhooksController.CheckDuplicates` | app/controllers/webhooks_controller.rb:133-136 | `ENV.fetch` raises `KeyError` exactly when the toggle is unset; otherwise the answer is whether it equals `"true"` |
| `WebhooksController.DedupPush` | app/controllers/webhooks_controller.rb:96-109 | the decision of `create_job_unless_exists`: it raises `KeyError` exactly when the toggle is unset, and `NoMethodError` exactly when the toggle is on and `@q` is nil |
| `WebhooksController.DedupPushesCandidate` | app/controllers/webhooks_controller.rb:96-109 | `create_job_unless_exists` pushes at most one job: the candidate, on `low`, due now |
| `WebhooksController.DedupSkipsExactlyDuplicates` | app/controllers/webhooks_controller.rb:98-104 | with the toggle on, the push is skipped exactly when a pending entry of the scanned queue has the same class and args; with it off, the job is always pushed |
| `WebhooksController.DedupIdempotent` | app/controllers/webhooks_controller.rb:96-109 | after one call has pushed, a second call with the same class and args pushes nothing, whatever the clock says, while the first job is among `queue:low`'s entries |
| `WebhooksController.ResourcePushes` | app/controllers/webhooks_controller.rb:8-14 | a product or collection action pushes at most the one `[domain, id]` job on `low`; it raises when the id cannot be read; it pushes exactly that job when the toggle is off, or when the toggle is on, `@q` is set and no equal job is pending |
| `WebhooksController.OrderJobs` | app/controllers/webhooks_controller.rb:60-63 | the order job on `low` at now + 10 always; the sale job with only the summary on `sale_stats` at now + 11 exactly when the cart token is not nil; the sale job comes strictly later and on another queue; every job but the sale job carries the shop domain first |
| `WebhooksController.OrderPushes` | app/controllers/webhooks_controller.rb:38-63 | the order action pushes exactly when its payload and summary can be built, and then pushes the order jobs of that summary |
| `WebhooksController.ShopPushes` | app/controllers/webhooks_controller.rb:72-90 | the shop action pushes exactly when `shopts` can be built, and then pushes one `[domain, shopts]` job on `low` at now + 10 |
| `WebhooksController.Finish` | app/controllers/webhooks_controller.rb:8-93 | an action answers 200 exactly when it did not raise, and then its jobs are the ones pushed; an uncaught exception answers 500 with that exception and nothing pushed |
| `WebhooksController.ActionOutcome` | app/controllers/webhooks_controller.rb:8-93 | a failed action pushes nothing; no action pushes more than two jobs; every job except the sale job carries the shop domain first |
| `WebhooksController.RequestOutcome` | app/controllers/webhooks_controller.rb:5 | the `before_action` chain: a job is pushed only for a request `verify_webhook` accepted; the 401 is answered exactly when it denied; a request that does not succeed pushes nothing |
| `WebhooksController.DeniedRequestPushesNothing` | app/controllers/webhooks_controller.rb:115-126 | with `SHOPIFY_APP_SECRET` set, a direct webhook with a missing or wrong signature gets the 401 `Not Authorized` response and pushes no job |
| `WebhooksController.RelayedJobsCarryMetadataDomain` | app/controllers/webhooks_controller.rb:112-114 | jobs from a relayed envelope carry its metadata's shop domain, and headers, raw body and HMAC function do not change what is pushed |
| `WebhooksController.DirectJobsCarryHeaderDomain` | app/controllers/webhooks_controller.rb:127-128 | jobs from a correctly signed direct webhook carry the shop-domain header |
| `WebhooksController.RedeliveryPushesOnce` | app/controllers/webhooks_controller.rb:96-109 | with duplicate checking on, a product or collection webhook delivered twice pushes at most one job the first time and none the second time, while the first job is among `queue:low`'s entries; the first delivery pushes exactly one job when it is accepted, its id can be read and no equal job is pending on `low` |
| `WebhooksController.NonHashPayloadRaises` | app/controllers/webhooks_controller.rb:10-14 | an accepted product or collection request whose payload is a string, array or integer answers 500 (`TypeError`) and pushes nothing |
| `WebhooksController.StringDetailRaises` | app/controllers/webhooks_controller.rb:40 | a relayed envelope whose `detail` is a string, once accepted, makes every action except `app_uninstalled` answer 500 (`TypeError`) with nothing pushed |
| `WebhooksController.StringDetailAccepted` | app/controllers/webhooks_controller.rb:113-114 | `{"detail": "metadata payload"}` passes `verify_webhook` with a nil shop domain, because line 114 indexes with String keys |
| `WebhooksController.OrderSchedule` | app/controllers/webhooks_controller.rb:60-64 | an accepted order whose payload can be selected and whose summary builds succeeds, and pushes one job without a cart token and two with one, the sale job strictly later |
| `WebhooksController.Controller.constructor` | app/controllers/webhooks_controller.rb:3-5 | a fresh controller over the shared store, environment and HMAC, with neither domain nor queue set |
| `WebhooksController.Controller.VerifyWebhook` | app/controllers/webhooks_controller.rb:111-131 | the filter's result and new `@myshopify_domain`, `@q` and reported denials agree with `Authenticate`: a 500 on an exception, a 401 after reporting a denial, or domain and `low` set on acceptance |
| `WebhooksController.Controller.CreateJobUnlessExists` | app/controllers/webhooks_controller.rb:96-109 | the loop over `@q.entries` leaves the store extended by exactly the jobs `DedupPush` allows, or unchanged when it raises |
| `WebhooksController.Controller.ResourceAction` | app/controllers/webhooks_controller.rb:9-14 | the shared body of `product` and `collection` reaches the response and store that `ResourcePushes` describes |
| `WebhooksController.Controller.Product` | app/controllers/webhooks_controller.rb:8-18 | `product` answers and extends the store as `ActionOutcome` prescribes |
| `WebhooksController.Controller.Collection` | app/controllers/webhooks_controller.rb:28-36 | `collection` answers and extends the store as `ActionOutcome` prescribes |
| `WebhooksController.Controller.Order` | app/controllers/webhooks_controller.rb:38-65 | `order` answers and extends the store as `ActionOutcome` prescribes |
| `WebhooksController.Controller.ScheduleOrder` | app/controllers/webhooks_controller.rb:60-63 | the two pushes extend the store by exactly `OrderJobs` |
| `WebhooksController.Controller.AppUninstalled` | app/controllers/webhooks_controller.rb:67-70 | `app_uninstalled` answers 200 and pushes the one cancellation job on `low` at now + 10 |
| `WebhooksController.Controller.ShopUpdate` | app/controllers/webhooks_controller.rb:72-93 | `shop_update` answers and extends the store as `ActionOutcome` prescribes |
| `WebhooksController.Controller.Process` | app/controllers/webhooks_controller.rb:5 | the filter, then the action unless the filter halted: the response and pushed jobs are `RequestOutcome`'s, and exactly the denials are reported |
| `WebhooksController.DeliverTwice` | app/controllers/webhooks_controller.rb:96-109 | two deliveries of the same product or collection webhook through fresh controllers over one store leave at most one new job, the first delivery's, while the first job is among `queue:low`'s entries; exactly one when the request is accepted, its id can be read and no equal job is pending on `low` in the initial store |

## Left out

- JSON parsing of the body: the model receives the parsed value next to the raw text.
- Floating-point numbers in JSON are not modelled. `Json.Value` has no floats, so prices and totals are carried as integers or strings.
- The HMAC-SHA256 and Base64 internals are the parameter `hmac`. Only equality of its results matters to the controller.
- The body is read twice (`request.body.read`). The model treats both reads as the same text.
- Logging (`logger.info`, `puts`) is not modelled. The Rollbar report is kept only as the controller's ghost `denials` record.
- `ENV` and `Time.now` are parameters. All pushes of one request use a single clock reading, while the source reads the clock once per push.
- Sidekiq's schedule set and its workers are not modelled. Every push in this controller carries `'at'`, including the `'at' => Time.now.to_i` of `create_job_unless_exists`, so Sidekiq puts each job into the schedule set. `Sidekiq::Queue.new('low').entries` sees the job only after the poller moves it into `queue:low`, and stops seeing it once a worker takes it. The model counts every pushed job as an entry of its queue at once and forever. So `DedupIdempotent`, `RedeliveryPushesOnce` and `DeliverTwice` hold only while the first job is among `queue:low`'s entries. In the window before it gets there, or after a worker has taken it, the source pushes a second copy.
- Sidekiq.Store.Push never fails, and reading the pending entries never fails either. In the source, `Sidekiq::Client.push` (lines 60, 62, 68, 90 and 108) and `@q.entries` (line 99) raise when Redis cannot be reached, and the request then gets a 500. In `order`, a second push that fails leaves the first job pushed.
- Concurrency between requests is not modelled. The check-then-push of `create_job_unless_exists` is not atomic in the source, and the model only treats requests one after another.
- Routing, `product_deleted` and the other topics without an action in this controller are not part of this model. That includes product deletion and theme events.
- Rails parameter wrapping is read as `params[:webhook]` being the parsed body, and `params[:detail]` being `data['detail']`.
- `render text:` is taken as writing the 401 `Not Authorized` response, as the code intends.
- OrderOpts.SortIds: any list of two or more product ids that are not all integers is modelled as raising `ArgumentError`. Ruby's `sort` raises only when two elements do not compare. It also sorts lists of strings, lists of arrays that compare element by element, and lists of equal values of any class (`true <=> true` is 0), and the model does not order those.
- OrderOpts.Items: raises `ArgumentError` in the same cases as `SortIds`, that is whenever two or more non-nil product ids are not all integers, while Ruby builds `items` for the comparable lists named above.
- The controller indexes with String keys (`data['detail']`, `payload['id']`) and with Symbol keys (`params[:detail][:payload][:id]`), and both are modelled. Ruby's other `[]` overloads (ranges, two arguments) are not used by the controller and are not modelled.
