/** How the controller reads a webhook request before any action runs:
    which of the two wire shapes arrived (a relayed `detail` envelope or a
    direct, signed webhook), whether a direct webhook's signature holds,
    which shop domain the jobs will carry, and where each action finds its
    payload (webhooks_controller.rb, `verify_webhook` and the `params`
    selection at the head of the actions). */
module Envelope {
  import opened Json

  /** Rack's names for the two headers of a direct webhook. */
  const HmacHeader := "HTTP_X_SHOPIFY_HMAC_SHA256"
  const ShopDomainHeader := "HTTP_X_SHOPIFY_SHOP_DOMAIN"
  /** The key of the shop domain in a relayed envelope's metadata. */
  const ShopDomainMetadata := "X-Shopify-Shop-Domain"
  /** The environment variable that holds the shared signing secret. */
  const SecretVariable := "SHOPIFY_APP_SECRET"

  /** A request as the controller sees it: the raw body text that the
      signature covers, its parsed JSON (which is also what Rails exposes
      as `params`, and as `params[:webhook]` once wrapped), and the headers. */
  datatype Request = Request(rawBody: string, data: Value, headers: map<string, string>)

  /** The two wire shapes; the presence of `detail` alone decides. */
  datatype Transport = Relayed(detail: Value) | Direct

  /** The result of `verify_webhook`: the shop domain the actions will use,
      or a denial carrying the two signatures it reports. */
  datatype Verdict = Accept(domain: Value) | Deny(calculated: string, actual: Option<string>)

  function Header(headers: map<string, string>, name: string): Option<string> {
    if name in headers then Some(headers[name]) else None
  }

  /** A header as a Ruby value: its text, or nil when it is missing. */
  function HeaderValue(headers: map<string, string>, name: string): Value {
    if name in headers then Str(headers[name]) else Null
  }

  /** `data['detail'].present?` decides the shape. */
  function TransportOf(data: Value): (r: Result<Transport>)
    ensures r.Raise? <==> Index(data, "detail").Raise?
    ensures r.Ok? ==> (r.value.Relayed? <==> Present(Index(data, "detail").value))
    ensures r.Ok? && r.value.Relayed? ==> r.value.detail == Index(data, "detail").value
  {
    var detail :- Index(data, "detail");
    Ok(if Present(detail) then Relayed(detail) else Direct)
  }

  /** `detail['metadata']['X-Shopify-Shop-Domain']`: the domain (nil when
      the metadata lacks it), or NoMethodError when there is no metadata. */
  function MetadataDomain(detail: Value): (r: Result<Value>)
    ensures detail.Obj? && "metadata" !in detail.fields ==> r == Raise(NoMethodError)
    ensures detail.Obj? && "metadata" in detail.fields && detail.fields["metadata"].Obj? ==>
              var m := detail.fields["metadata"].fields;
              r == Ok(if ShopDomainMetadata in m then m[ShopDomainMetadata] else Null)
    ensures r.Raise? <==> Index(detail, "metadata").Raise?
                          || Index(Index(detail, "metadata").value, ShopDomainMetadata).Raise?
  {
    var metadata :- Index(detail, "metadata");
    Index(metadata, ShopDomainMetadata)
  }

  /** `verify_webhook`. A relayed envelope is trusted and names its shop
      in its metadata; a direct webhook is accepted exactly when its
      signature header equals the HMAC of the raw body under the secret,
      and then names its shop in a header. A missing secret makes the
      HMAC call raise. */
  function Authenticate(req: Request, env: map<string, string>,
                        hmac: (string, string) -> string): (r: Result<Verdict>)
    ensures TransportOf(req.data).Raise? ==> r.Raise?
    ensures var t := TransportOf(req.data);
            t.Ok? && t.value.Relayed? ==>
              (r.Ok? <==> MetadataDomain(t.value.detail).Ok?)
              && (r.Ok? ==> r.value == Accept(MetadataDomain(t.value.detail).value))
    ensures TransportOf(req.data) == Ok(Direct) ==>
              (r.Raise? <==> SecretVariable !in env)
              && (r.Ok? && r.value.Accept? <==>
                    SecretVariable in env
                    && Header(req.headers, HmacHeader) == Some(hmac(env[SecretVariable], req.rawBody)))
              && (r.Ok? && r.value.Accept? ==>
                    r.value.domain == HeaderValue(req.headers, ShopDomainHeader))
              && (r.Ok? && r.value.Deny? ==>
                    r.value == Deny(hmac(env[SecretVariable], req.rawBody), Header(req.headers, HmacHeader)))
  {
    var transport :- TransportOf(req.data);
    match transport
    case Relayed(detail) =>
      var domain :- MetadataDomain(detail);
      Ok(Accept(domain))
    case Direct =>
      var hmacHeader := Header(req.headers, HmacHeader);
      if SecretVariable !in env then Raise(TypeError)
      else
        var calculated := hmac(env[SecretVariable], req.rawBody);
        if Some(calculated) != hmacHeader then Ok(Deny(calculated, hmacHeader))
        else Ok(Accept(HeaderValue(req.headers, ShopDomainHeader)))
  }

  /** A relayed envelope is judged on its body alone: no header, raw body
      text, secret or HMAC function changes the verdict. */
  lemma RelayedIgnoresSignature(req: Request, env: map<string, string>, hmac: (string, string) -> string,
                                rawBody': string, headers': map<string, string>,
                                env': map<string, string>, hmac': (string, string) -> string)
    requires TransportOf(req.data).Ok? && TransportOf(req.data).value.Relayed?
    ensures Authenticate(req, env, hmac)
         == Authenticate(Request(rawBody', req.data, headers'), env', hmac')
  {
  }

  /** No false accept: when the HMAC of a changed body differs from the
      HMAC of the body that was signed, the original signature header is
      refused for the changed body. */
  lemma ModifiedBodyDenied(req: Request, env: map<string, string>, hmac: (string, string) -> string,
                           body': string)
    requires TransportOf(req.data) == Ok(Direct)
    requires SecretVariable in env
    requires Header(req.headers, HmacHeader) == Some(hmac(env[SecretVariable], req.rawBody))
    requires hmac(env[SecretVariable], body') != hmac(env[SecretVariable], req.rawBody)
    ensures Authenticate(req, env, hmac).Ok? && Authenticate(req, env, hmac).value.Accept?
    ensures var r := Authenticate(Request(body', req.data, req.headers), env, hmac);
            r.Ok? && r.value.Deny?
  {
  }

  /** `params[:detail].present? ? params[:detail][:payload] : params[:webhook]`:
      the payload of a relayed envelope, or the whole body of a direct
      webhook. A present `detail` that is not a hash refuses the Symbol
      index. */
  function Payload(data: Value): (r: Result<Value>)
    ensures TransportOf(data).Raise? ==> r.Raise?
    ensures TransportOf(data) == Ok(Direct) ==> r == Ok(data)
    ensures var t := TransportOf(data);
            t.Ok? && t.value.Relayed? ==>
              (r.Ok? <==> t.value.detail.Obj?)
              && (t.value.detail.Obj? ==> r == Index(t.value.detail, "payload"))
              && (t.value.detail.Str? || t.value.detail.Arr? || t.value.detail.Int? ==> r == Raise(TypeError))
  {
    var transport :- TransportOf(data);
    match transport
    case Relayed(detail) => IndexSym(detail, "payload")
    case Direct => Ok(data)
  }

  /** The product or collection id: `params[:detail][:payload][:id]` for a
      relayed envelope, `params[:webhook][:id]` for a direct webhook; the
      payload must be a hash, since every other value refuses `[:id]`. */
  function ResourceId(data: Value): (r: Result<Value>)
    ensures TransportOf(data) == Ok(Direct) ==> r == IndexSym(data, "id")
    ensures Payload(data).Raise? ==> r.Raise?
    ensures Payload(data).Ok? ==> (r.Ok? <==> Payload(data).value.Obj?)
    ensures Payload(data).Ok? && Payload(data).value.Obj? ==> r == Index(Payload(data).value, "id")
    ensures var t := TransportOf(data);
            t.Ok? && t.value.Relayed? && t.value.detail.Obj? && Index(t.value.detail, "payload").value.Obj? ==>
              r == Index(Index(t.value.detail, "payload").value, "id")
  {
    var payload :- Payload(data);
    IndexSym(payload, "id")
  }
}
