/**
 * The outbound channel record and the four per-integration mappers that
 * turn one channel block of the configuration into that record.
 */
module ChannelMappers {
  import opened Attributes

  // Integration tags (defined beside the resource schemas of the provider).
  const EMAIL: string := "email"
  const PAGERDUTY: string := "pagerduty"
  const SLACK: string := "slack"
  const WEBHOOK: string := "webhook"

  const InvalidTemplateSummary: string := "bodytemplate is not a valid JSON string"

  /** `channelRequest`: the union of every integration's fields; each mapper
      fills its own subset and leaves the rest at Go's zero value. */
  datatype ChannelRequest = ChannelRequest(
    bodyTemplate: Option<JsonObject>,
    emails: seq<string>,
    headers: map<string, string>,
    immediate: string,
    integration: string,
    key: string,
    httpMethod: string,
    operator: string,
    terminal: string,
    triggerInterval: string,
    triggerLimit: int,
    timezone: string,
    url: string)

  /** The fields of a `ChannelRequest`, named as in its JSON encoding. */
  datatype Field =
    | BodyTemplateField | EmailsField | HeadersField | ImmediateField
    | IntegrationField | KeyField | MethodField | OperatorField | TerminalField
    | TriggerIntervalField | TriggerLimitField | TimezoneField | UrlField

  /** Whether field `f` of `c` holds Go's zero value (nil, "", 0, empty). */
  predicate IsZero(c: ChannelRequest, f: Field) {
    match f
    case BodyTemplateField => c.bodyTemplate == None
    case EmailsField => c.emails == []
    case HeadersField => c.headers == map[]
    case ImmediateField => c.immediate == ""
    case IntegrationField => c.integration == ""
    case KeyField => c.key == ""
    case MethodField => c.httpMethod == ""
    case OperatorField => c.operator == ""
    case TerminalField => c.terminal == ""
    case TriggerIntervalField => c.triggerInterval == ""
    case TriggerLimitField => c.triggerLimit == 0
    case TimezoneField => c.timezone == ""
    case UrlField => c.url == ""
  }

  /** Every field of `c` outside `fields` holds its zero value. */
  predicate FillsOnly(c: ChannelRequest, fields: set<Field>) {
    forall f :: f !in fields ==> IsZero(c, f)
  }

  /** The trigger settings every integration carries. */
  const CommonFields: set<Field> :=
    {ImmediateField, OperatorField, TerminalField, TriggerIntervalField, TriggerLimitField}

  const EmailFields: set<Field> := CommonFields + {EmailsField, TimezoneField}
  const PagerDutyFields: set<Field> := CommonFields + {KeyField}
  const SlackFields: set<Field> := CommonFields + {UrlField}
  const WebhookFields: set<Field> := CommonFields + {UrlField, MethodField, HeadersField, BodyTemplateField}

  /** The five trigger settings of `c` are those of the block `b`, verbatim. */
  predicate CopiesCommon(b: ChannelBlock, c: ChannelRequest) {
    && c.immediate == b.immediate
    && c.operator == b.operator
    && c.terminal == b.terminal
    && c.triggerInterval == b.triggerInterval
    && c.triggerLimit == b.triggerLimit
  }

  /** The strings of a list whose elements are all strings, in order. */
  function StringsOf(vs: seq<Value>): (r: seq<string>)
    requires AllStrings(vs)
    ensures |r| == |vs|
    ensures forall i :: 0 <= i < |vs| ==> VString(r[i]) == vs[i]
  {
    if |vs| == 0 then [] else StringsOf(vs[..|vs| - 1]) + [vs[|vs| - 1].s]
  }

  /** The string-valued map `m` as a `map<string, string>`. */
  function StringMapOf(m: map<string, Value>): (r: map<string, string>)
    requires AllStringValues(m)
    ensures r.Keys == m.Keys
    ensures forall k :: k in r ==> VString(r[k]) == m[k]
  {
    map k | k in m :: m[k].s
  }

  /** The record `emailChannelRequest` builds. */
  function EmailChannel(b: ChannelBlock): (c: ChannelRequest)
    requires b.EmailBlock? && AllStrings(b.emails)
    ensures c.integration == EMAIL
    ensures CopiesCommon(b, c) && c.timezone == b.timezone
    ensures |c.emails| == |b.emails|
  {
    ChannelRequest(
      None, StringsOf(b.emails), map[], b.immediate, EMAIL, "", "",
      b.operator, b.terminal, b.triggerInterval, b.triggerLimit, b.timezone, "")
  }

  /** `emailChannelRequest`: collects the addresses one by one, then fills the record. */
  method EmailChannelRequest(b: ChannelBlock) returns (c: ChannelRequest)
    requires b.EmailBlock? && AllStrings(b.emails)
    ensures c == EmailChannel(b)
  {
    var list := b.emails;
    var emails: seq<string> := [];
    var i := 0;
    while i < |list|
      invariant 0 <= i <= |list|
      invariant AllStrings(list[..i])
      invariant emails == StringsOf(list[..i])
    {
      assert list[..i + 1][..i] == list[..i];
      emails := emails + [list[i].s];
      i := i + 1;
    }
    assert list[..|list|] == list;
    c := ChannelRequest(
      None, emails, map[], b.immediate, EMAIL, "", "",
      b.operator, b.terminal, b.triggerInterval, b.triggerLimit, b.timezone, "");
  }

  /** The email record loses nothing of its block: the block is rebuilt
      from the record's fields, addresses in their original order. */
  lemma EmailChannelLossless(b: ChannelBlock)
    requires b.EmailBlock? && AllStrings(b.emails)
    ensures var c := EmailChannel(b);
      EmailBlock(AsValues(c.emails), c.immediate, c.operator, c.terminal,
                 c.triggerInterval, c.triggerLimit, c.timezone) == b
  {
    var c := EmailChannel(b);
    assert AsValues(c.emails) == b.emails;
  }

  /** The email mapper fills the addresses, the timezone, the five trigger
      settings and its tag, and leaves every other field at its zero value. */
  lemma EmailChannelFields(b: ChannelBlock)
    requires b.EmailBlock? && AllStrings(b.emails)
    ensures FillsOnly(EmailChannel(b), EmailFields + {IntegrationField})
  {
  }

  /** `pagerDutyChannelRequest`. */
  function PagerDutyChannelRequest(b: ChannelBlock): (c: ChannelRequest)
    requires b.PagerDutyBlock?
    ensures c.integration == PAGERDUTY
    ensures CopiesCommon(b, c) && c.key == b.key
  {
    ChannelRequest(
      None, [], map[], b.immediate, PAGERDUTY, b.key, "",
      b.operator, b.terminal, b.triggerInterval, b.triggerLimit, "", "")
  }

  /** The PagerDuty mapper fills the key, the five trigger settings and its tag only. */
  lemma PagerDutyChannelFields(b: ChannelBlock)
    requires b.PagerDutyBlock?
    ensures FillsOnly(PagerDutyChannelRequest(b), PagerDutyFields + {IntegrationField})
  {
  }

  /** `slackChannelRequest`. */
  function SlackChannelRequest(b: ChannelBlock): (c: ChannelRequest)
    requires b.SlackBlock?
    ensures c.integration == SLACK
    ensures CopiesCommon(b, c) && c.url == b.url
  {
    ChannelRequest(
      None, [], map[], b.immediate, SLACK, "", "",
      b.operator, b.terminal, b.triggerInterval, b.triggerLimit, "", b.url)
  }

  /** The Slack mapper fills the URL, the five trigger settings and its tag only. */
  lemma SlackChannelFields(b: ChannelBlock)
    requires b.SlackBlock?
    ensures FillsOnly(SlackChannelRequest(b), SlackFields + {IntegrationField})
  {
  }

  /** Whether the block's body template is non-empty and does not decode. */
  predicate BadTemplate(b: ChannelBlock, unmarshal: Unmarshaler)
    requires b.WebhookBlock?
  {
    b.bodyTemplate != "" && unmarshal(b.bodyTemplate).DecodeError?
  }

  /** The record `webHookChannelRequest` builds. */
  function WebhookChannel(b: ChannelBlock, unmarshal: Unmarshaler): (c: ChannelRequest)
    requires b.WebhookBlock? && AllStringValues(b.headers)
    ensures c.integration == WEBHOOK
    ensures CopiesCommon(b, c) && c.url == b.url && c.httpMethod == b.httpMethod
    ensures c.headers.Keys == b.headers.Keys
  {
    ChannelRequest(
      if b.bodyTemplate != "" && unmarshal(b.bodyTemplate).Decoded? then unmarshal(b.bodyTemplate).obj else None,
      [], StringMapOf(b.headers), b.immediate, WEBHOOK, "", b.httpMethod,
      b.operator, b.terminal, b.triggerInterval, b.triggerLimit, "", b.url)
  }

  /** The webhook mapper fills URL, method, headers, body template, the five
      trigger settings and its tag only. */
  lemma WebhookChannelFields(b: ChannelBlock, unmarshal: Unmarshaler)
    requires b.WebhookBlock? && AllStringValues(b.headers)
    ensures FillsOnly(WebhookChannel(b, unmarshal), WebhookFields + {IntegrationField})
  {
  }

  /** The body template: absent when the text is empty; the decoded object
      (absent for the literal `null`) when it decodes; absent when it does not. */
  lemma WebhookChannelTemplate(b: ChannelBlock, unmarshal: Unmarshaler)
    requires b.WebhookBlock? && AllStringValues(b.headers)
    ensures b.bodyTemplate == "" ==> WebhookChannel(b, unmarshal).bodyTemplate == None
    ensures b.bodyTemplate != "" ==>
      match unmarshal(b.bodyTemplate)
      case Decoded(obj) => WebhookChannel(b, unmarshal).bodyTemplate == obj
      case DecodeError(_) => WebhookChannel(b, unmarshal).bodyTemplate == None
  {
  }

  /** The webhook record loses nothing of its block but the template text:
      the block is rebuilt from the record's fields and that text. */
  lemma WebhookChannelLossless(b: ChannelBlock, unmarshal: Unmarshaler)
    requires b.WebhookBlock? && AllStringValues(b.headers)
    ensures var c := WebhookChannel(b, unmarshal);
      WebhookBlock(b.bodyTemplate, AsValueMap(c.headers), c.immediate, c.httpMethod,
                   c.operator, c.terminal, c.triggerInterval, c.triggerLimit, c.url) == b
  {
    var c := WebhookChannel(b, unmarshal);
    assert AsValueMap(c.headers) == b.headers;
  }

  /** The diagnostics `webHookChannelRequest` appends. */
  function TemplateDiagnostics(b: ChannelBlock, unmarshal: Unmarshaler): (r: seq<Diagnostic>)
    requires b.WebhookBlock?
    ensures |r| <= 1
    ensures r == [] <==> !BadTemplate(b, unmarshal)
    ensures forall d :: d in r ==>
      d == Diagnostic(Error, InvalidTemplateSummary, unmarshal(b.bodyTemplate).message)
  {
    if b.bodyTemplate != "" && unmarshal(b.bodyTemplate).DecodeError? then
      [Diagnostic(Error, InvalidTemplateSummary, unmarshal(b.bodyTemplate).message)]
    else
      []
  }

  /** `webHookChannelRequest`: copies the headers entry by entry, fills the
      record, then checks the body template with the JSON decoder. */
  method WebhookChannelRequest(b: ChannelBlock, unmarshal: Unmarshaler, diags: seq<Diagnostic>)
    returns (c: ChannelRequest, diags': seq<Diagnostic>)
    requires b.WebhookBlock? && AllStringValues(b.headers)
    ensures c == WebhookChannel(b, unmarshal)
    ensures diags' == diags + TemplateDiagnostics(b, unmarshal)
  {
    var headersMap: map<string, string> := map[];
    var remaining := b.headers.Keys;
    while remaining != {}
      invariant remaining <= b.headers.Keys
      invariant headersMap.Keys == b.headers.Keys - remaining
      invariant forall k :: k in headersMap ==> VString(headersMap[k]) == b.headers[k]
      decreases remaining
    {
      var k :| k in remaining;
      headersMap := headersMap[k := b.headers[k].s];
      remaining := remaining - {k};
    }
    assert headersMap == StringMapOf(b.headers);

    c := ChannelRequest(
      None, [], headersMap, b.immediate, WEBHOOK, "", b.httpMethod,
      b.operator, b.terminal, b.triggerInterval, b.triggerLimit, "", b.url);
    diags' := diags;

    var bodyTemplate := b.bodyTemplate;
    if bodyTemplate != "" {
      var result := unmarshal(bodyTemplate);
      if result.Decoded? {
        c := c.(bodyTemplate := result.obj);
      } else {
        diags' := diags' + [Diagnostic(Error, InvalidTemplateSummary, result.message)];
      }
    }
  }
}
