/**
 * What the Terraform schema layer hands to the request builder (a
 * resource's declared attributes and its channel blocks), the diagnostics
 * the builder hands back, and the values of the (foreign) JSON decoder.
 */
module Attributes {

  datatype Option<+T> = None | Some(value: T)

  /** An element of a list attribute, as Go's `interface{}`: the schema layer
      may hand over a string or some other scalar. */
  datatype Value =
    | VNull
    | VBool(b: bool)
    | VInt(i: int)
    | VString(s: string)

  /** Every element of the list is a string (each `.(string)` assertion succeeds). */
  predicate AllStrings(vs: seq<Value>) {
    forall i :: 0 <= i < |vs| ==> vs[i].VString?
  }

  /** Every value of the map is a string. */
  predicate AllStringValues(m: map<string, Value>) {
    forall k :: k in m ==> m[k].VString?
  }

  /** The strings of `ss` as schema values. */
  function AsValues(ss: seq<string>): (r: seq<Value>)
    ensures |r| == |ss|
    ensures forall i :: 0 <= i < |ss| ==> r[i] == VString(ss[i])
  {
    seq(|ss|, i requires 0 <= i < |ss| => VString(ss[i]))
  }

  /** The string map `m` as a map of schema values. */
  function AsValueMap(m: map<string, string>): (r: map<string, Value>)
    ensures r.Keys == m.Keys
    ensures forall k :: k in r ==> r[k] == VString(m[k])
  {
    map k | k in m :: VString(m[k])
  }

  /** One block of `email_channel`, `pagerduty_channel`, `slack_channel` or
      `webhook_channel`, with the attributes that block's schema declares. */
  datatype ChannelBlock =
    | EmailBlock(
        emails: seq<Value>, immediate: string, operator: string, terminal: string,
        triggerInterval: string, triggerLimit: int, timezone: string)
    | PagerDutyBlock(
        immediate: string, key: string, operator: string, terminal: string,
        triggerInterval: string, triggerLimit: int)
    | SlackBlock(
        immediate: string, operator: string, terminal: string,
        triggerInterval: string, triggerLimit: int, url: string)
    | WebhookBlock(
        bodyTemplate: string, headers: map<string, Value>, immediate: string,
        httpMethod: string, operator: string, terminal: string,
        triggerInterval: string, triggerLimit: int, url: string)

  /** The attributes `CreateRequestBody` reads through `schema.ResourceData.Get`. */
  datatype ResourceData = ResourceData(
    name: string,
    query: string,
    apps: seq<Value>,
    categories: seq<Value>,
    hosts: seq<Value>,
    levels: seq<Value>,
    tags: seq<Value>,
    emailChannel: seq<ChannelBlock>,
    pagerdutyChannel: seq<ChannelBlock>,
    slackChannel: seq<ChannelBlock>,
    webhookChannel: seq<ChannelBlock>)

  /** Severity levels of the plugin SDK's diagnostics. */
  datatype Severity = Error | Warning

  /** One entry of the plugin SDK's `diag.Diagnostics`. */
  datatype Diagnostic = Diagnostic(severity: Severity, summary: string, detail: string)

  /** A decoded JSON value (RFC 8259); numbers keep their literal text. */
  datatype Json =
    | JNull
    | JBool(b: bool)
    | JNumber(literal: string)
    | JString(s: string)
    | JArray(elements: seq<Json>)
    | JObject(members: map<string, Json>)

  /** Go's `map[string]interface{}` holding a decoded JSON object. */
  type JsonObject = map<string, Json>

  /** Outcome of decoding a text into a `map[string]interface{}`: a JSON
      object, the literal `null` (the map stays nil: `Decoded(None)`), or an
      error carrying the decoder's message. */
  datatype Unmarshalled = Decoded(obj: Option<JsonObject>) | DecodeError(message: string)

  /** The JSON decoder, a foreign library, supplied by the caller. */
  type Unmarshaler = string -> Unmarshalled
}
