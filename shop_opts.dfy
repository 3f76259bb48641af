/** The shop attribute hash the `shop_update` action builds
    (webhooks_controller.rb, `shopts`). */
module ShopOpts {
  import opened Json

  /** Each attribute of `shopts` with the payload field it is read from;
      four of them are renamed on the way. */
  const Renames: seq<(string, string)> := [
    ("name", "name"),
    ("shopify_id", "id"),
    ("email", "email"),
    ("timezone", "timezone"),
    ("iana_timezone", "iana_timezone"),
    ("money_format", "money_format"),
    ("shopify_plan_name", "plan_display_name"),
    ("shopify_plan_internal_name", "plan_name"),
    ("custom_domain", "domain"),
    ("opened_at", "created_at")
  ]

  /** The ten keys of `shopts`: the first components of `Renames`. */
  const ShopKeys: set<string> :=
    {"name", "shopify_id", "email", "timezone", "iana_timezone", "money_format",
     "shopify_plan_name", "shopify_plan_internal_name", "custom_domain", "opened_at"}

  lemma ShopKeysAreRenamed()
    ensures forall k :: 0 <= k < |Renames| ==> Renames[k].0 in ShopKeys
    ensures forall i, j :: 0 <= i < j < |Renames| ==> Renames[i].0 != Renames[j].0
    ensures |ShopKeys| == 10
  {
  }

  /** `shopts`: every attribute is the payload field named in `Renames`
      (nil when the payload lacks it), and the hash always has exactly the
      ten keys. It raises when the payload cannot be indexed. */
  function Build(payload: Value): (r: Result<Value>)
    ensures r.Ok? <==> Index(payload, "name").Ok?
    ensures r.Ok? ==> r.value.Obj? && r.value.fields.Keys == ShopKeys
    ensures r.Ok? ==> forall k :: 0 <= k < |Renames| ==>
              Index(payload, Renames[k].1) == Ok(r.value.fields[Renames[k].0])
    ensures r.Ok? ==> Index(payload, "plan_display_name") == Ok(r.value.fields["shopify_plan_name"])
    ensures r.Ok? ==> Index(payload, "plan_name") == Ok(r.value.fields["shopify_plan_internal_name"])
    ensures r.Ok? ==> Index(payload, "domain") == Ok(r.value.fields["custom_domain"])
    ensures r.Ok? ==> Index(payload, "created_at") == Ok(r.value.fields["opened_at"])
  {
    var name :- Index(payload, "name");
    // the other lookups have the same receiver, so they cannot raise
    var shopts := Obj(map[
      "name" := name,
      "shopify_id" := Index(payload, "id").value,
      "email" := Index(payload, "email").value,
      "timezone" := Index(payload, "timezone").value,
      "iana_timezone" := Index(payload, "iana_timezone").value,
      "money_format" := Index(payload, "money_format").value,
      "shopify_plan_name" := Index(payload, "plan_display_name").value,
      "shopify_plan_internal_name" := Index(payload, "plan_name").value,
      "custom_domain" := Index(payload, "domain").value,
      "opened_at" := Index(payload, "created_at").value]);
    Ok(shopts)
  }
}
