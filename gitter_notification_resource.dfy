/** The older gitter notification resource: the same message resolution and
    expansion as the webhook resource, but configured by `webhook`, with no
    delivery and with metadata values reported as given, not stringified. */
module GitterResource {
  import opened Outcomes
  import opened EnvExpansion
  import opened ConcourseEnv
  import opened ResourceData
  import opened MessageResolution

  const WebhookKey := "webhook"
  const DryrunKey := "dryrun"

  datatype GitterNotificationResource = GitterNotificationResource(webhook: Value, dryrun: Value)

  /** initialize(source): `webhook` is required, `dryrun` defaults to false. */
  function New(source: Source): (r: Result<GitterNotificationResource>)
    ensures r.Failure? <==> WebhookKey !in source
    ensures r.Failure? ==> r.error == KeyError("key not found: \"webhook\"")
    ensures r.Success? ==> r.value.webhook == source[WebhookKey]
    ensures r.Success? ==> r.value.dryrun == if DryrunKey in source then source[DryrunKey] else Bool(false)
  {
    match Fetch(source, WebhookKey)
    case Failure(e) => Failure(e)
    case Success(webhook) => Success(GitterNotificationResource(webhook, FetchOr(source, DryrunKey, Bool(false))))
  }

  /** The KeyError raised for a missing `webhook` names the key. */
  lemma MissingWebhookNamed(source: Source)
    requires WebhookKey !in source
    ensures New(source).error.message[16..23] == WebhookKey
  {
    var m := New(source).error.message;
    assert m == "key not found: \"" + WebhookKey + "\"";
    assert m[16..23] == WebhookKey;
  }

  /** metadata_name_value_pair in this variant: the value is kept as it is. */
  function NameValuePair(key: string, value: Value): (p: Pair)
    ensures p.name == key && p.value == value
  {
    Pair(key, value)
  }

  /** The metadata of `out`. */
  function Metadata(res: GitterNotificationResource, message: string): seq<Pair> {
    [NameValuePair("webhook", res.webhook)] + [NameValuePair("dryrun", res.dryrun)]
    + [NameValuePair("message", Str(message))]
  }

  /** The entries are webhook, dryrun and message; the configured values
      keep their JSON type (a boolean dryrun stays a boolean). */
  lemma MetadataShape(res: GitterNotificationResource, message: string)
    ensures var md := Metadata(res, message);
      && Names(md) == ["webhook", "dryrun", "message"]
      && md[0].value == res.webhook && md[1].value == res.dryrun
      && md[2].value == Str(message)
  {
  }

  /** out(params). A resolution error is raised before anything changes.
      Otherwise BUILD_URL is published, even when the message then has no
      `gsub`; a String message is expanded and reported. Nothing is
      delivered. */
  method Out(res: GitterNotificationResource, params: Params, disk: Disk, env: ProcessEnv)
    returns (r: Result<OutResult>)
    modifies env
    ensures ResolveMessage(params, disk).Failure? ==>
      r == Failure(ResolveMessage(params, disk).error) && env.vars == old(env.vars)
    ensures ResolveMessage(params, disk).Success? ==> env.vars == WithBuildUrl(old(env.vars))
    ensures ExpandedMessage(params, disk, old(env.vars)).Failure? ==>
      r == Failure(ExpandedMessage(params, disk, old(env.vars)).error)
    ensures ExpandedMessage(params, disk, old(env.vars)).Success? ==>
      r == Success(OutResult(PlaceholderVersion, Metadata(res, ExpandedMessage(params, disk, old(env.vars)).value)))
  {
    var raw := ResolveMessage(params, disk);
    if raw.Failure? {
      return Failure(raw.error);
    }
    var expanded := env.ExpandConcourse(raw.value);
    if expanded.Failure? {
      return Failure(expanded.error);
    }
    var message := expanded.value;
    var metadata := [NameValuePair("webhook", res.webhook)];
    metadata := metadata + [NameValuePair("dryrun", res.dryrun)];
    metadata := metadata + [NameValuePair("message", Str(message))];
    r := Success(OutResult(PlaceholderVersion, metadata));
  }
}
