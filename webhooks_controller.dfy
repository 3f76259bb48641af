/** The webhooks controller: the routing and scheduling rules of its five
    actions, duplicate suppression for product and collection jobs, and
    the controller object whose `verify_webhook` filter authenticates a
    request before the action runs (webhooks_controller.rb). */
module WebhooksController {
  import opened Json
  import opened Sidekiq
  import opened Envelope
  import OrderOpts
  import ShopOpts

  const ProductJob := "ShopWorker::UpdateProductIfUsedInOfferJob"
  const CollectionJob := "ShopWorker::UpdateCollectionIfUsedInOfferJob"
  const RecordOrderJob := "ShopWorker::RecordOrderJob"
  const SaveOfferSaleJob := "ShopWorker::SaveOfferSaleJob"
  const MarkShopAsCancelledJob := "ShopWorker::MarkShopAsCancelledJob"
  const UpdateShopJob := "ShopWorker::UpdateShopJob"

  const LowQueue := "low"
  const SaleStatsQueue := "sale_stats"

  /** The environment variable that switches duplicate suppression on. */
  const CheckDuplicatesVariable := "CHECK_DUPLICATE_JOBS"
  const NotAuthorizedText := "Not Authorized"

  /** The controller's public actions. */
  datatype Action = Product | Collection | Order | AppUninstalled | ShopUpdate

  /** `head :ok`, the 401 rendered by `verify_webhook`, or the 500 an
      uncaught exception becomes. */
  datatype Response = Success | Unauthorized(text: string) | ServerError(error: RubyError)

  /** What handling a request did: its response and the jobs it pushed,
      in push order. */
  datatype Outcome = Outcome(response: Response, pushed: seq<Job>)

  /** `check_duplicates?`: `ENV.fetch` raises when the variable is unset. */
  function CheckDuplicates(env: map<string, string>): (r: Result<bool>)
    ensures r.Raise? <==> CheckDuplicatesVariable !in env
    ensures r.Raise? ==> r.error == KeyError
    ensures r.Ok? ==> (r.value <==> env[CheckDuplicatesVariable] == "true")
  {
    if CheckDuplicatesVariable in env then Ok(env[CheckDuplicatesVariable] == "true")
    else Raise(KeyError)
  }

  /** The jobs `create_job_unless_exists` pushes, given the entries already
      in the store and the queue `@q` names (nil before `verify_webhook`). */
  function DedupPush(env: map<string, string>, q: Option<string>, entries: seq<Job>,
                     jobClass: string, args: seq<Value>, now: int): (r: Result<seq<Job>>)
    ensures r.Raise? <==> CheckDuplicates(env).Raise? || (CheckDuplicates(env) == Ok(true) && q.None?)
    ensures r.Raise? ==> r.error == (if CheckDuplicates(env).Raise? then KeyError else NoMethodError)
  {
    var check :- CheckDuplicates(env);
    var job := Job(jobClass, args, LowQueue, now);
    if !check then Ok([job])
    else match q
      case None => Raise(NoMethodError)
      case Some(name) => Ok(if HasDuplicate(Pending(entries, name), jobClass, args) then [] else [job])
  }

  /** At most one job is pushed, and it is the candidate, on `low`, due now. */
  lemma DedupPushesCandidate(env: map<string, string>, q: Option<string>, entries: seq<Job>,
                             jobClass: string, args: seq<Value>, now: int)
    ensures var r := DedupPush(env, q, entries, jobClass, args, now);
            r.Ok? ==> |r.value| <= 1
                      && forall j :: j in r.value ==> j == Job(jobClass, args, LowQueue, now)
  {
  }

  /** With the toggle on, the push is skipped exactly when an entry of the
      scanned queue has the same class and args; with it off, the push
      always happens. */
  lemma DedupSkipsExactlyDuplicates(env: map<string, string>, name: string, entries: seq<Job>,
                                    jobClass: string, args: seq<Value>, now: int)
    requires CheckDuplicatesVariable in env
    ensures env[CheckDuplicatesVariable] == "true" ==>
              (DedupPush(env, Some(name), entries, jobClass, args, now) == Ok([])
               <==> exists j :: j in entries && j.queue == name && SameWork(j, jobClass, args))
    ensures env[CheckDuplicatesVariable] != "true" ==>
              DedupPush(env, Some(name), entries, jobClass, args, now)
              == Ok([Job(jobClass, args, LowQueue, now)])
  {
    var pending := Pending(entries, name);
    if exists j :: j in entries && j.queue == name && SameWork(j, jobClass, args) {
      var j :| j in entries && j.queue == name && SameWork(j, jobClass, args);
      assert j in pending;
      var i :| 0 <= i < |pending| && pending[i] == j;
      assert HasDuplicate(pending, jobClass, args);
    }
  }

  /** A redelivered job finds its first copy among the entries of `low`
      and is not pushed again, whatever the clock says the second time.
      Every push counts as an entry of its queue at once (see `Pending`). */
  lemma {:induction false} DedupIdempotent(env: map<string, string>, entries: seq<Job>,
                                           jobClass: string, args: seq<Value>, now: int, later: int)
    requires CheckDuplicates(env) == Ok(true)
    requires DedupPush(env, Some(LowQueue), entries, jobClass, args, now).Ok?
    ensures var first := DedupPush(env, Some(LowQueue), entries, jobClass, args, now).value;
            DedupPush(env, Some(LowQueue), entries + first, jobClass, args, later) == Ok([])
  {
    var first := DedupPush(env, Some(LowQueue), entries, jobClass, args, now).value;
    var job := Job(jobClass, args, LowQueue, now);
    if first == [] {
      assert entries + first == entries;
    } else {
      assert first == [job];
      PendingAppend(entries, job, LowQueue);
      var pending := Pending(entries + first, LowQueue);
      assert pending[|pending| - 1] == job;
      assert HasDuplicate(pending, jobClass, args);
    }
  }

  /** The pushes of a product or collection action: the id, then the
      deduplicated `[domain, id]` job. */
  function ResourcePushes(jobClass: string, data: Value, domain: Value, env: map<string, string>,
                          q: Option<string>, entries: seq<Job>, now: int): (r: Result<seq<Job>>)
    ensures r.Ok? ==> ResourceId(data).Ok? && |r.value| <= 1
    ensures r.Ok? ==> forall j :: j in r.value ==>
              j == Job(jobClass, [domain, ResourceId(data).value], LowQueue, now)
    ensures ResourceId(data).Raise? ==> r.Raise?
    ensures ResourceId(data).Ok?
            && (CheckDuplicates(env) == Ok(false)
                || (CheckDuplicates(env) == Ok(true) && q.Some?
                    && !HasDuplicate(Pending(entries, q.value), jobClass, [domain, ResourceId(data).value])))
            ==> r == Ok([Job(jobClass, [domain, ResourceId(data).value], LowQueue, now)])
  {
    var id :- ResourceId(data);
    DedupPushesCandidate(env, q, entries, jobClass, [domain, id], now);
    DedupPush(env, q, entries, jobClass, [domain, id], now)
  }

  /** Every job except the sale job names the shop first. */
  predicate LeadsWithDomain(jobs: seq<Job>, domain: Value) {
    forall j :: j in jobs && j.jobClass != SaveOfferSaleJob ==> |j.args| > 0 && j.args[0] == domain
  }

  /** The two pushes of the `order` action: the order job on `low` ten
      seconds out, and, when the order has a cart token, the sale job on
      `sale_stats` one second after it. */
  function OrderJobs(domain: Value, opts: Value, cartToken: Value, now: int): (jobs: seq<Job>)
    ensures |jobs| == (if cartToken.Null? then 1 else 2)
    ensures jobs[0].jobClass == RecordOrderJob && jobs[0].args == [domain, opts]
    ensures jobs[0].queue == LowQueue && jobs[0].at == now + 10
    ensures |jobs| == 2 ==> jobs[1].jobClass == SaveOfferSaleJob && jobs[1].args == [opts]
    ensures |jobs| == 2 ==> jobs[1].queue == SaleStatsQueue && jobs[1].at == now + 11
    ensures |jobs| == 2 ==> jobs[0].at < jobs[1].at && jobs[0].queue != jobs[1].queue
    ensures LeadsWithDomain(jobs, domain)
  {
    [Job(RecordOrderJob, [domain, opts], LowQueue, now + 10)]
    + (if cartToken.Null? then [] else [Job(SaveOfferSaleJob, [opts], SaleStatsQueue, now + 11)])
  }

  function OrderPushes(data: Value, domain: Value, now: int): (r: Result<seq<Job>>)
    ensures r.Ok? <==> Payload(data).Ok? && OrderOpts.Build(Payload(data).value).Ok?
    ensures r.Ok? ==>
              var opts := OrderOpts.Build(Payload(data).value).value;
              r.value == OrderJobs(domain, opts, opts.fields["cart_token"], now)
  {
    var payload :- Payload(data);
    var opts :- OrderOpts.Build(payload);
    Ok(OrderJobs(domain, opts, opts.fields["cart_token"], now))
  }

  function ShopPushes(data: Value, domain: Value, now: int): (r: Result<seq<Job>>)
    ensures r.Ok? <==> Payload(data).Ok? && ShopOpts.Build(Payload(data).value).Ok?
    ensures r.Ok? ==>
              r.value == [Job(UpdateShopJob, [domain, ShopOpts.Build(Payload(data).value).value],
                              LowQueue, now + 10)]
  {
    var payload :- Payload(data);
    var shopts :- ShopOpts.Build(payload);
    Ok([Job(UpdateShopJob, [domain, shopts], LowQueue, now + 10)])
  }

  /** An uncaught exception answers 500 and the action pushes nothing;
      otherwise the action answers 200 with its jobs. */
  function Finish(r: Result<seq<Job>>): (o: Outcome)
    ensures o.response == Success <==> r.Ok?
    ensures r.Ok? ==> o.pushed == r.value
    ensures r.Raise? ==> o == Outcome(ServerError(r.error), [])
  {
    match r
    case Ok(jobs) => Outcome(Success, jobs)
    case Raise(e) => Outcome(ServerError(e), [])
  }

  /** What an action does once `verify_webhook` has let the request through
      with shop `domain` and queue `q`. */
  function ActionOutcome(action: Action, data: Value, domain: Value, env: map<string, string>,
                         q: Option<string>, entries: seq<Job>, now: int): (o: Outcome)
    ensures o.response != Success ==> o.pushed == []
    ensures |o.pushed| <= 2
    ensures LeadsWithDomain(o.pushed, domain)
  {
    match action
    case Product =>
      Finish(ResourcePushes(ProductJob, data, domain, env, q, entries, now))
    case Collection =>
      Finish(ResourcePushes(CollectionJob, data, domain, env, q, entries, now))
    case Order => Finish(OrderPushes(data, domain, now))
    case AppUninstalled => Outcome(Success, [Job(MarkShopAsCancelledJob, [domain], LowQueue, now + 10)])
    case ShopUpdate => Finish(ShopPushes(data, domain, now))
  }

  /** A whole request: `verify_webhook`, then the action if it let the
      request through. */
  function RequestOutcome(action: Action, req: Request, env: map<string, string>,
                          hmac: (string, string) -> string, entries: seq<Job>, now: int): (o: Outcome)
    ensures o.pushed != [] ==> Authenticate(req, env, hmac).Ok? && Authenticate(req, env, hmac).value.Accept?
    ensures o.response.Unauthorized? <==>
              Authenticate(req, env, hmac).Ok? && Authenticate(req, env, hmac).value.Deny?
    ensures o.response != Success ==> o.pushed == []
  {
    match Authenticate(req, env, hmac)
    case Raise(e) => Outcome(ServerError(e), [])
    case Ok(Deny(_, _)) => Outcome(Unauthorized(NotAuthorizedText), [])
    case Ok(Accept(domain)) => ActionOutcome(action, req.data, domain, env, Some(LowQueue), entries, now)
  }

  /** A direct webhook whose signature header is missing or wrong gets a
      401, and no job is pushed. */
  lemma DeniedRequestPushesNothing(action: Action, req: Request, env: map<string, string>,
                                   hmac: (string, string) -> string, entries: seq<Job>, now: int)
    requires TransportOf(req.data) == Ok(Direct)
    requires SecretVariable in env
    requires Header(req.headers, HmacHeader) != Some(hmac(env[SecretVariable], req.rawBody))
    ensures RequestOutcome(action, req, env, hmac, entries, now)
         == Outcome(Unauthorized(NotAuthorizedText), [])
  {
  }

  /** Every job a relayed envelope leads to carries the shop domain of its
      metadata (the sale job, which carries only the order summary, aside),
      and nothing in the headers or the signature changes what is pushed. */
  lemma {:induction false} RelayedJobsCarryMetadataDomain(action: Action, req: Request,
                                          env: map<string, string>, hmac: (string, string) -> string,
                                          entries: seq<Job>, now: int,
                                          headers': map<string, string>, rawBody': string,
                                          hmac': (string, string) -> string)
    requires TransportOf(req.data).Ok? && TransportOf(req.data).value.Relayed?
    ensures var o := RequestOutcome(action, req, env, hmac, entries, now);
            forall j :: j in o.pushed && j.jobClass != SaveOfferSaleJob ==>
              j.args[0] == MetadataDomain(TransportOf(req.data).value.detail).value
    ensures RequestOutcome(action, req, env, hmac, entries, now)
         == RequestOutcome(action, Request(rawBody', req.data, headers'), env, hmac', entries, now)
  {
    RelayedIgnoresSignature(req, env, hmac, rawBody', headers', env, hmac');
  }

  /** A direct webhook that passes verification leads to jobs carrying the
      `X-Shopify-Shop-Domain` header (the sale job aside). */
  lemma DirectJobsCarryHeaderDomain(action: Action, req: Request, env: map<string, string>,
                                    hmac: (string, string) -> string, entries: seq<Job>, now: int)
    requires TransportOf(req.data) == Ok(Direct)
    requires SecretVariable in env
    requires Header(req.headers, HmacHeader) == Some(hmac(env[SecretVariable], req.rawBody))
    ensures var o := RequestOutcome(action, req, env, hmac, entries, now);
            forall j :: j in o.pushed && j.jobClass != SaveOfferSaleJob ==>
              j.args[0] == HeaderValue(req.headers, ShopDomainHeader)
  {
  }

  /** A product or collection payload that is a string, an array or a
      number refuses `[:id]`: the request answers 500 and pushes nothing. */
  lemma NonHashPayloadRaises(action: Action, req: Request, env: map<string, string>,
                             hmac: (string, string) -> string, entries: seq<Job>, now: int)
    requires action == Product || action == Collection
    requires Authenticate(req, env, hmac).Ok? && Authenticate(req, env, hmac).value.Accept?
    requires Payload(req.data).Ok?
    requires Payload(req.data).value.Str? || Payload(req.data).value.Arr? || Payload(req.data).value.Int?
    ensures RequestOutcome(action, req, env, hmac, entries, now) == Outcome(ServerError(TypeError), [])
  {
  }

  /** A relayed envelope whose `detail` is a string gets through
      `verify_webhook` (its String-keyed lookups answer substrings or nil),
      but every action that selects a payload then raises on
      `params[:detail][:payload]`. */
  lemma StringDetailRaises(action: Action, req: Request, env: map<string, string>,
                           hmac: (string, string) -> string, entries: seq<Job>, now: int)
    requires action != AppUninstalled
    requires TransportOf(req.data).Ok? && TransportOf(req.data).value.Relayed?
    requires TransportOf(req.data).value.detail.Str?
    ensures Authenticate(req, env, hmac).Ok? ==>
              RequestOutcome(action, req, env, hmac, entries, now) == Outcome(ServerError(TypeError), [])
  {
  }

  /** `{"detail": "metadata payload"}` is accepted with a nil shop domain. */
  lemma StringDetailAccepted(req: Request, env: map<string, string>, hmac: (string, string) -> string)
    requires req.data == Obj(map["detail" := Str("metadata payload")])
    ensures Authenticate(req, env, hmac) == Ok(Accept(Null))
  {
    assert !IsSpace("metadata payload"[0]);
    assert TransportOf(req.data) == Ok(Relayed(Str("metadata payload")));
    assert OccursAt("metadata payload", "metadata", 0);
    assert Index(Str("metadata payload"), "metadata") == Ok(Str("metadata"));
    assert !Contains("metadata", ShopDomainMetadata);
  }

  /** The same product or collection webhook delivered twice, while
      duplicate suppression is on and the first job is still among the
      entries of `low`, pushes at most one job in all: the second delivery
      pushes none. */
  lemma {:induction false} RedeliveryPushesOnce(action: Action, req: Request, env: map<string, string>,
                                                hmac: (string, string) -> string, entries: seq<Job>,
                                                now: int, later: int)
    requires action == Product || action == Collection
    requires CheckDuplicates(env) == Ok(true)
    ensures var first := RequestOutcome(action, req, env, hmac, entries, now);
            var second := RequestOutcome(action, req, env, hmac, entries + first.pushed, later);
            |first.pushed| <= 1 && second.pushed == []
    ensures var v := Authenticate(req, env, hmac);
            var jobClass := if action == Product then ProductJob else CollectionJob;
            v.Ok? && v.value.Accept? && ResourceId(req.data).Ok?
            && !HasDuplicate(Pending(entries, LowQueue), jobClass, [v.value.domain, ResourceId(req.data).value])
            ==> |RequestOutcome(action, req, env, hmac, entries, now).pushed| == 1
  {
    var first := RequestOutcome(action, req, env, hmac, entries, now);
    match Authenticate(req, env, hmac)
    case Raise(e) =>
    case Ok(Deny(_, _)) =>
    case Ok(Accept(domain)) =>
      var jobClass := if action == Product then ProductJob else CollectionJob;
      if ResourceId(req.data).Ok? {
        var args := [domain, ResourceId(req.data).value];
        DedupPushesCandidate(env, Some(LowQueue), entries, jobClass, args, now);
        if DedupPush(env, Some(LowQueue), entries, jobClass, args, now).Ok? {
          DedupIdempotent(env, entries, jobClass, args, now, later);
        }
      }
  }

  /** The order action always schedules the order job and schedules the
      sale job exactly when the order has a cart token, strictly later and
      on another queue; neither push is deduplicated. */
  lemma OrderSchedule(req: Request, env: map<string, string>, hmac: (string, string) -> string,
                      entries: seq<Job>, now: int, domain: Value)
    requires Authenticate(req, env, hmac) == Ok(Accept(domain))
    requires Payload(req.data).Ok? && OrderOpts.Build(Payload(req.data).value).Ok?
    ensures var o := RequestOutcome(Order, req, env, hmac, entries, now);
            var payload := Payload(req.data).value;
            && o.response == Success
            && |o.pushed| == (if Index(payload, "cart_token") == Ok(Null) then 1 else 2)
            && o.pushed[0] == Job(RecordOrderJob, [domain, OrderOpts.Build(payload).value], LowQueue, now + 10)
            && (|o.pushed| == 2 ==>
                  o.pushed[1] == Job(SaveOfferSaleJob, [OrderOpts.Build(payload).value], SaleStatsQueue, now + 11)
                  && o.pushed[0].at < o.pushed[1].at)
  {
  }

  /** The controller handling one request. Rails makes a fresh one per
      request; the job store, the environment and the HMAC primitive are
      shared and outlive it. */
  class Controller {
    /** The Sidekiq job store. */
    const store: Store
    /** `ENV`. */
    const env: map<string, string>
    /** `Base64.encode64(OpenSSL::HMAC.digest('sha256', secret, body)).strip`. */
    const hmac: (string, string) -> string

    /** `@myshopify_domain` */
    var myshopifyDomain: Value
    /** `@q`: the name of the queue `Sidekiq::Queue.new` was given, nil until set. */
    var q: Option<string>
    /** The denials reported to Rollbar, in order. */
    ghost var denials: seq<Verdict>

    constructor (store: Store, env: map<string, string>, hmac: (string, string) -> string)
      ensures this.store == store && this.env == env && this.hmac == hmac
      ensures myshopifyDomain == Null && q == None && denials == []
    {
      this.store := store;
      this.env := env;
      this.hmac := hmac;
      myshopifyDomain := Null;
      q := None;
      denials := [];
    }

    /** The `before_action` filter. It sets the shop domain and `@q` when it
        lets the request through, and otherwise returns the response that
        halts the request: a 401 after reporting the denial, or the 500 of
        an exception. */
    method VerifyWebhook(req: Request) returns (halt: Option<Response>)
      modifies this
      ensures var v := Authenticate(req, env, hmac);
              match v
              case Raise(e) =>
                halt == Some(ServerError(e)) && myshopifyDomain == old(myshopifyDomain)
                && q == old(q) && denials == old(denials)
              case Ok(Deny(_, _)) =>
                halt == Some(Unauthorized(NotAuthorizedText)) && myshopifyDomain == old(myshopifyDomain)
                && q == old(q) && denials == old(denials) + [v.value]
              case Ok(Accept(domain)) =>
                halt == None && myshopifyDomain == domain && q == Some(LowQueue) && denials == old(denials)
    {
      var detail := Index(req.data, "detail");
      if detail.Raise? {
        return Some(ServerError(detail.error));
      }
      if Present(detail.value) {
        var metadata := Index(detail.value, "metadata");
        if metadata.Raise? {
          return Some(ServerError(metadata.error));
        }
        var domain := Index(metadata.value, ShopDomainMetadata);
        if domain.Raise? {
          return Some(ServerError(domain.error));
        }
        myshopifyDomain := domain.value;
      } else {
        var hmacHeader := Header(req.headers, HmacHeader);
        if SecretVariable !in env {
          return Some(ServerError(TypeError));
        }
        var calculated := hmac(env[SecretVariable], req.rawBody);
        if Some(calculated) != hmacHeader {
          denials := denials + [Deny(calculated, hmacHeader)];
          return Some(Unauthorized(NotAuthorizedText));
        }
        myshopifyDomain := HeaderValue(req.headers, ShopDomainHeader);
      }
      q := Some(LowQueue);
      halt := None;
    }

    /** `create_job_unless_exists`: with the toggle on, scan the entries of
        `@q` and return early on one with the same class and args; else push
        the job onto `low`, due now. */
    method CreateJobUnlessExists(jobClass: string, args: seq<Value>, now: int) returns (r: Result<()>)
      modifies store
      ensures var p := DedupPush(env, q, old(store.entries), jobClass, args, now);
              match p
              case Raise(e) => r == Raise(e) && store.entries == old(store.entries)
              case Ok(jobs) => r == Ok(()) && store.entries == old(store.entries) + jobs
    {
      var check := CheckDuplicates(env);
      if check.Raise? {
        return Raise(check.error);
      }
      if check.value {
        if q.None? {
          return Raise(NoMethodError);
        }
        var pending := Pending(store.entries, q.value);
        var i := 0;
        while i < |pending|
          invariant 0 <= i <= |pending|
          invariant forall k :: 0 <= k < i ==> !SameWork(pending[k], jobClass, args)
        {
          if SameWork(pending[i], jobClass, args) {
            return Ok(());
          }
          i := i + 1;
        }
      }
      store.Push(Job(jobClass, args, LowQueue, now));
      r := Ok(());
    }

    /** The shared body of `product` and `collection`. */
    method ResourceAction(jobClass: string, req: Request, now: int) returns (resp: Response)
      modifies store
      ensures var o := Finish(ResourcePushes(jobClass, req.data, myshopifyDomain, env, q,
                                             old(store.entries), now));
              resp == o.response && store.entries == old(store.entries) + o.pushed
    {
      var id := ResourceId(req.data);
      if id.Raise? {
        return ServerError(id.error);
      }
      var r := CreateJobUnlessExists(jobClass, [myshopifyDomain, id.value], now);
      resp := if r.Raise? then ServerError(r.error) else Success;
    }

    /** `product` (products/create, products/update). */
    method Product(req: Request, now: int) returns (resp: Response)
      modifies store
      ensures var o := ActionOutcome(Action.Product, req.data, myshopifyDomain, env, q, old(store.entries), now);
              resp == o.response && store.entries == old(store.entries) + o.pushed
    {
      resp := ResourceAction(ProductJob, req, now);
    }

    /** `collection` (collections/create, collections/update). */
    method Collection(req: Request, now: int) returns (resp: Response)
      modifies store
      ensures var o := ActionOutcome(Action.Collection, req.data, myshopifyDomain, env, q, old(store.entries), now);
              resp == o.response && store.entries == old(store.entries) + o.pushed
    {
      resp := ResourceAction(CollectionJob, req, now);
    }

    /** `order` (orders/create). */
    method Order(req: Request, now: int) returns (resp: Response)
      modifies store
      ensures var o := ActionOutcome(Action.Order, req.data, myshopifyDomain, env, q, old(store.entries), now);
              resp == o.response && store.entries == old(store.entries) + o.pushed
    {
      var payload := Payload(req.data);
      if payload.Raise? {
        return ServerError(payload.error);
      }
      var opts := OrderOpts.Build(payload.value);
      if opts.Raise? {
        return ServerError(opts.error);
      }
      ScheduleOrder(opts.value, Index(payload.value, "cart_token").value, now);
      resp := Success;
    }

    /** The two pushes at the end of `order`. */
    method ScheduleOrder(opts: Value, cartToken: Value, now: int)
      modifies store
      ensures store.entries == old(store.entries) + OrderJobs(myshopifyDomain, opts, cartToken, now)
    {
      store.Push(Job(RecordOrderJob, [myshopifyDomain, opts], LowQueue, now + 10));
      if !cartToken.Null? {
        store.Push(Job(SaveOfferSaleJob, [opts], SaleStatsQueue, now + 11));
      }
    }

    /** `app_uninstalled` (app/uninstalled). */
    method AppUninstalled(now: int) returns (resp: Response)
      modifies store
      ensures store.entries == old(store.entries) + [Job(MarkShopAsCancelledJob, [myshopifyDomain], LowQueue, now + 10)]
      ensures resp == Success
    {
      store.Push(Job(MarkShopAsCancelledJob, [myshopifyDomain], LowQueue, now + 10));
      resp := Success;
    }

    /** `shop_update` (shop/update). */
    method ShopUpdate(req: Request, now: int) returns (resp: Response)
      modifies store
      ensures var o := ActionOutcome(Action.ShopUpdate, req.data, myshopifyDomain, env, q, old(store.entries), now);
              resp == o.response && store.entries == old(store.entries) + o.pushed
    {
      var payload := Payload(req.data);
      if payload.Raise? {
        return ServerError(payload.error);
      }
      var shopts := ShopOpts.Build(payload.value);
      if shopts.Raise? {
        return ServerError(shopts.error);
      }
      store.Push(Job(UpdateShopJob, [myshopifyDomain, shopts.value], LowQueue, now + 10));
      resp := Success;
    }

    /** One request through the filter chain: `verify_webhook`, then the
        action unless the filter halted. */
    method Process(action: Action, req: Request, now: int) returns (resp: Response)
      modifies this, store
      ensures var o := RequestOutcome(action, req, env, hmac, old(store.entries), now);
              resp == o.response && store.entries == old(store.entries) + o.pushed
      ensures var v := Authenticate(req, env, hmac);
              denials == if v.Ok? && v.value.Deny? then old(denials) + [v.value] else old(denials)
      ensures var v := Authenticate(req, env, hmac);
              if v.Ok? && v.value.Accept?
              then myshopifyDomain == v.value.domain && q == Some(LowQueue)
              else myshopifyDomain == old(myshopifyDomain) && q == old(q)
    {
      var halt := VerifyWebhook(req);
      if halt.Some? {
        return halt.value;
      }
      match action
      case Product => resp := this.Product(req, now);
      case Collection => resp := this.Collection(req, now);
      case Order => resp := this.Order(req, now);
      case AppUninstalled => resp := this.AppUninstalled(now);
      case ShopUpdate => resp := this.ShopUpdate(req, now);
    }
  }

  /** The same product or collection webhook delivered twice with duplicate
      suppression on, each delivery handled by a fresh controller over one
      job store in which the first job is still among the entries of `low`:
      at most one job reaches the store. */
  method DeliverTwice(action: Action, req: Request, env: map<string, string>,
                      hmac: (string, string) -> string, initial: seq<Job>, now: int, later: int)
    returns (pushed: seq<Job>)
    requires action == Product || action == Collection
    requires CheckDuplicates(env) == Ok(true)
    ensures |pushed| <= 1
    ensures pushed == RequestOutcome(action, req, env, hmac, initial, now).pushed
    ensures var v := Authenticate(req, env, hmac);
            var jobClass := if action == Product then ProductJob else CollectionJob;
            v.Ok? && v.value.Accept? && ResourceId(req.data).Ok?
            && !HasDuplicate(Pending(initial, LowQueue), jobClass, [v.value.domain, ResourceId(req.data).value])
            ==> |pushed| == 1
  {
    var store := new Store(initial);
    var first := new Controller(store, env, hmac);
    var r1 := first.Process(action, req, now);
    var second := new Controller(store, env, hmac);
    var r2 := second.Process(action, req, later);
    RedeliveryPushesOnce(action, req, env, hmac, initial, now, later);
    pushed := store.entries[|initial|..];
  }
}
