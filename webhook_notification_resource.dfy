/** The webhook notification resource: construction from the "source" hash,
    and `out`, which resolves and expands the message, reports it as
    stringified metadata and, unless in dry-run mode, delivers it. */
module WebhookResource {
  import opened Outcomes
  import opened EnvExpansion
  import opened ConcourseEnv
  import opened ResourceData
  import opened MessageResolution

  const Version := "0.1.0"
  const UrlKey := "url"
  const DryrunKey := "dryrun"

  /** The configured resource: `url` and `dryrun` exactly as the source gave them. */
  datatype WebhookNotificationResource = WebhookNotificationResource(url: Value, dryrun: Value)

  /** initialize(source): `url` is required, `dryrun` defaults to false. */
  function New(source: Source): (r: Result<WebhookNotificationResource>)
    ensures r.Failure? <==> UrlKey !in source
    ensures r.Failure? ==> r.error == KeyError("key not found: \"url\"")
    ensures r.Success? ==> r.value.url == source[UrlKey]
    ensures r.Success? ==> r.value.dryrun == if DryrunKey in source then source[DryrunKey] else Bool(false)
  {
    match Fetch(source, UrlKey)
    case Failure(e) => Failure(e)
    case Success(url) => Success(WebhookNotificationResource(url, FetchOr(source, DryrunKey, Bool(false))))
  }

  /** A source without `dryrun` is not in dry-run mode; any string given as
      `dryrun`, even "false" or "", is. */
  lemma DryrunDefault(source: Source)
    requires UrlKey in source
    ensures DryrunKey !in source ==> !Truthy(New(source).value.dryrun)
    ensures DryrunKey in source && source[DryrunKey].Str? ==> Truthy(New(source).value.dryrun)
  {
  }

  /** metadata_name_value_pair: both name and value are stringified. */
  function NameValuePair(key: string, value: Value): (p: Pair)
    ensures p.name == key
    ensures p.value.Str? && p.value.s == ToS(value)
  {
    Pair(key, Str(ToS(value)))
  }

  /** One message handed to the webhook handler. */
  datatype Delivery = Delivery(url: Value, message: string)

  /** The handler's HTTP response: status code and reason phrase. */
  datatype Response = Response(code: string, reason: string)

  /** The text of the "response" entry, "<code> <message>". */
  function ResponseText(r: Response): (t: string)
    ensures |t| == |r.code| + 1 + |r.reason|
    ensures t[..|r.code|] == r.code && t[|r.code|] == ' ' && t[|r.code| + 1..] == r.reason
  {
    r.code + " " + r.reason
  }

  /** The webhook handler `out` posts through. The HTTP exchange is outside
      the model: `respond` is what the endpoint does with a delivery, a
      response or the error the handler raises (a refused connection, a
      timeout), and `posted` records every delivery attempted, in order. */
  class WebhookHandler {
    var posted: seq<Delivery>
    const respond: Delivery -> Result<Response>

    constructor (respond: Delivery -> Result<Response>)
      ensures posted == [] && this.respond == respond
    {
      posted := [];
      this.respond := respond;
    }

    method Post(url: Value, message: string) returns (r: Result<Response>)
      modifies this
      ensures posted == old(posted) + [Delivery(url, message)]
      ensures r == respond(Delivery(url, message))
    {
      posted := posted + [Delivery(url, message)];
      r := respond(Delivery(url, message));
    }
  }

  /** The metadata `out` reports for `message`; `response` is present exactly
      when a delivery was made. */
  function Metadata(res: WebhookNotificationResource, message: string, response: Option<Response>): seq<Pair> {
    var base := [NameValuePair("version", Str(Version))] + [NameValuePair("url", res.url)]
                + [NameValuePair("dryrun", res.dryrun)] + [NameValuePair("message", Str(message))];
    match response
    case None => base
    case Some(resp) => base + [NameValuePair("response", Str(ResponseText(resp)))]
  }

  /** The entries are version, url, dryrun, message and, after a delivery,
      response, in that order; every value is a string. */
  lemma MetadataShape(res: WebhookNotificationResource, message: string, response: Option<Response>)
    ensures var md := Metadata(res, message, response);
      && Names(md) == ["version", "url", "dryrun", "message"] + (if response.Some? then ["response"] else [])
      && (forall i :: 0 <= i < |md| ==> md[i].value.Str?)
      && md[0].value == Str(Version)
      && md[1].value == Str(ToS(res.url)) && md[2].value == Str(ToS(res.dryrun))
      && md[3].value == Str(message)
      && (response.Some? ==> md[4].value == Str(ResponseText(response.value)))
  {
  }

  /** out(params). A resolution error is raised before anything changes.
      Otherwise BUILD_URL is published, even when the message then has no
      `gsub`; a String message is expanded, reported and, unless in dry-run
      mode, handed to the handler exactly once, whose error, if it raises,
      replaces the result. */
  method Out(res: WebhookNotificationResource, params: Params, disk: Disk, env: ProcessEnv, handler: WebhookHandler)
    returns (r: Result<OutResult>)
    modifies env, handler
    ensures ResolveMessage(params, disk).Failure? ==>
      && r == Failure(ResolveMessage(params, disk).error)
      && env.vars == old(env.vars)
      && handler.posted == old(handler.posted)
    ensures ResolveMessage(params, disk).Success? ==> env.vars == WithBuildUrl(old(env.vars))
    ensures ExpandedMessage(params, disk, old(env.vars)).Failure? ==>
      && r == Failure(ExpandedMessage(params, disk, old(env.vars)).error)
      && handler.posted == old(handler.posted)
    ensures ExpandedMessage(params, disk, old(env.vars)).Success? ==>
      var message := ExpandedMessage(params, disk, old(env.vars)).value;
      var delivery := Delivery(res.url, message);
      && handler.posted == old(handler.posted) + (if Truthy(res.dryrun) then [] else [delivery])
      && (Truthy(res.dryrun) ==> r == Success(OutResult(PlaceholderVersion, Metadata(res, message, None))))
      && (!Truthy(res.dryrun) && handler.respond(delivery).Success? ==>
            r == Success(OutResult(PlaceholderVersion, Metadata(res, message, Some(handler.respond(delivery).value)))))
      && (!Truthy(res.dryrun) && handler.respond(delivery).Failure? ==>
            r == Failure(handler.respond(delivery).error))
  {
    var raw := ResolveMessage(params, disk);
    if raw.Failure? {
      return Failure(raw.error);
    }
    var expanded := env.ExpandConcourse(raw.value);
    if expanded.Failure? {
      return Failure(expanded.error);
    }
    var message := expanded.value;
    var metadata := [NameValuePair("version", Str(Version))];
    metadata := metadata + [NameValuePair("url", res.url)];
    metadata := metadata + [NameValuePair("dryrun", res.dryrun)];
    metadata := metadata + [NameValuePair("message", Str(message))];
    if !Truthy(res.dryrun) {
      var response := handler.Post(res.url, message);
      if response.Failure? {
        return Failure(response.error);
      }
      metadata := metadata + [NameValuePair("response", Str(ResponseText(response.value)))];
      assert metadata == Metadata(res, message, Some(response.value));
    } else {
      assert metadata == Metadata(res, message, None);
    }
    r := Success(OutResult(PlaceholderVersion, metadata));
  }
}
