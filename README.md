# LogDNA provider: outbound request builder

A Dafny model of the request builder of the LogDNA Terraform provider
(`logdna/request_types.go`). The builder turns a resource's declared
attributes into the body sent to the LogDNA configuration API. It is made
of four parts:

- **Facet filtering** (`listToStrings`). A view's apps, categories, hosts,
  levels and tags keep only their string, non-empty elements, in order.
- **Channel mappers** (`emailChannelRequest`, `pagerDutyChannelRequest`,
  `slackChannelRequest`, `webHookChannelRequest`). Each turns one channel
  block into a `channelRequest`. It fills its own subset of fields and
  stamps the integration tag.
  - The webhook mapper also checks the body template with the JSON decoder.
  - It appends an error diagnostic when the template does not decode.
- **Dispatch and aggregation** (`iterateIntegrationType`,
  `aggregateAllChannelsFromSchema`). Each list of channel blocks is mapped
  according to its tag. The four lists are concatenated in the fixed order
  email, PagerDuty, Slack, webhook.
- **Body builders** (`CreateRequestBody` of `viewRequest`, `alertRequest`
  and `categoryRequest`). These fill the request records in place and
  return the collected diagnostics.

Files:

- `attributes.dfy` (module `Attributes`): the typed inputs.
  - A `ChannelBlock` variant per channel schema, with 7, 6, 6 and 9
    attributes for email, PagerDuty, Slack and webhook.
  - `ResourceData`: the attributes read through `d.Get`.
  - `Value`: an element of an untyped list.
  - Diagnostics and decoded JSON values.
  - The decoder, passed in as a function `Unmarshaler`.
- `facets.dfy` (module `Facets`): `listToStrings` as a loop, proved against
  the reference function `FilterStrings`, with that function's properties.
- `channel_mappers.dfy` (module `ChannelMappers`): the `channelRequest`
  record and the four mappers.
  - The email and webhook mappers loop over addresses and headers. They
    are methods proved equal to the functions `EmailChannel` and
    `WebhookChannel`.
  - PagerDuty and Slack are single record constructors, modelled as
    functions.
- `channel_aggregation.dfy` (module `ChannelAggregation`): the per-entry
  switch, the loop over one list, the four-list aggregation, and their
  ordering, length and diagnostic properties.
- `request_bodies.dfy` (module `RequestBodies`): the three request records
  as classes whose `CreateRequestBody` methods update their fields.

The Go type assertions are preconditions: `AllStrings` and
`AllStringValues`, and `EntryFits` / `ChannelAttributes` on the channel
lists. A failed assertion panics in Go, and that path is not modelled.
The shared `*diag.Diagnostics` accumulator is a sequence that each step returns extended.
Every such contract has the form `diags' == diags + ...`, so earlier
diagnostics are never lost or reordered.

Where the specification and the code disagree, this model follows the
code:

- **Facets.** The specification calls the facets unordered sets with
  duplicates dropped. `listToStrings` keeps duplicates and the input order.
- **Webhook body template.**
  - The specification says the template text is stored verbatim. The code
    stores the decoded object (line 251), despite the comment on line 247.
  - The literal `null` decodes to a nil map, so nothing is stored for it.
- **Malformed template.** The specification says the entry is skipped. The
  code still yields the webhook record, without a template, next to the
  diagnostic.
- **Unknown integration tag.** The specification says exactly one
  diagnostic. `iterateIntegrationType` appends one diagnostic per entry,
  and none for an empty list.
- **Category type.** The specification says the category builder copies
  name and type. It sets only the name, so the type keeps whatever the
  record held before.

## Model

| member | source | states |
|---|---|---|
| Facets.ListToStrings | logdna/request_types.go:264-274 | the loop's result is exactly `FilterStrings(list)`: the string, non-empty elements of the list in their original order |
| Facets.FilterStringsBounds | logdna/request_types.go:264-274 | the filtered list is no longer than the input and contains no empty string |
| Facets.FilterStringsMembership | logdna/request_types.go:266-271 | a string is in the result if and only if it is non-empty and occurs as a string element of the input |
| Facets.FilterStringsPositions | logdna/request_types.go:264-274 | the result is the subsequence of the input at strictly increasing positions, and every kept position is among them |
| Facets.FilterStringsAppend | logdna/request_types.go:264-274 | filtering a concatenation concatenates the filtered parts, so relative order is preserved |
| Facets.FilterStringsIdempotent | logdna/request_types.go:264-274 | filtering an already filtered list changes nothing |
| Facets.FilterStringsOfKept | logdna/request_types.go:264-274 | a list of non-empty strings passes through unchanged |
| ChannelMappers.StringsOf | logdna/request_types.go:179-182 | an all-string list converts to a string list of the same length, element by element |
| ChannelMappers.StringMapOf | logdna/request_types.go:227-231 | a string-valued map converts to a map with the same keys and the same values |
| ChannelMappers.EmailChannel | logdna/request_types.go:178-196 | the email record carries tag `email`, copies the five trigger settings and the timezone, and has as many addresses as the block |
| ChannelMappers.EmailChannelRequest | logdna/request_types.go:178-196 | the address-collecting loop produces exactly `EmailChannel(b)` |
| ChannelMappers.EmailChannelLossless | logdna/request_types.go:179-193 | the block is rebuilt from the record, so the addresses are copied in order with none dropped (unlike `listToStrings`) |
| ChannelMappers.EmailChannelFields | logdna/request_types.go:184-193 | every field outside emails, timezone, the trigger settings and the tag stays at its zero value |
| ChannelMappers.PagerDutyChannelRequest | logdna/request_types.go:198-210 | the record carries tag `pagerduty` and copies the key and the five trigger settings |
| ChannelMappers.PagerDutyChannelFields | logdna/request_types.go:199-207 | every field outside key, the trigger settings and the tag stays at its zero value |
| ChannelMappers.SlackChannelRequest | logdna/request_types.go:212-224 | the record carries tag `slack` and copies the URL and the five trigger settings |
| ChannelMappers.SlackChannelFields | logdna/request_types.go:213-221 | every field outside URL, the trigger settings and the tag stays at its zero value |
| ChannelMappers.WebhookChannel | logdna/request_types.go:226-262 | the record carries tag `webhook`, copies URL, method and the trigger settings, and its headers have exactly the block's keys |
| ChannelMappers.WebhookChannelFields | logdna/request_types.go:233-243 | every field outside URL, method, headers, body template, the trigger settings and the tag stays at its zero value |
| ChannelMappers.WebhookChannelTemplate | logdna/request_types.go:245-259 | the body template is absent for empty text, the decoded object when the text decodes, and absent when it does not decode |
| ChannelMappers.WebhookChannelLossless | logdna/request_types.go:227-243 | the block, minus its template text, is rebuilt from the record: each header keeps its key and value |
| ChannelMappers.TemplateDiagnostics | logdna/request_types.go:245-259 | at most one diagnostic, present if and only if the template is non-empty and fails to decode; it is the Error "bodytemplate is not a valid JSON string" with the decoder's message |
| ChannelMappers.WebhookChannelRequest | logdna/request_types.go:226-262 | the header-copying method yields `WebhookChannel(b)` and appends exactly `TemplateDiagnostics(b)` to the incoming diagnostics |
| ChannelAggregation.Prepare | logdna/request_types.go:154-162 | the record a recognised entry yields carries that entry's tag |
| ChannelAggregation.Dispatch | logdna/request_types.go:152-173 | an entry yields a record if and only if its tag is recognised; the record is that mapper's; the diagnostics are those of the entry alone, appended |
| ChannelAggregation.IterateIntegrationType | logdna/request_types.go:139-176 | the loop yields `PrepareAll` of the list and appends `DiagnoseAll` of it; an empty list yields nothing and adds nothing |
| ChannelAggregation.PrepareAllRecords | logdna/request_types.go:151-174 | an unknown tag yields no record; a known tag yields one record per entry, in list order, each that entry's mapper result |
| ChannelAggregation.PrepareAllStamped | logdna/request_types.go:154-162 | every record of a list carries that list's tag |
| ChannelAggregation.PrepareAllSnoc | logdna/request_types.go:170-173 | one more entry appends that entry's record, if its tag is recognised, after the records before it |
| ChannelAggregation.DiagnoseAllSnoc | logdna/request_types.go:151-174 | one more entry appends that entry's diagnostics after those before it |
| ChannelAggregation.UnrecognizedDiagnostics | logdna/request_types.go:163-168 | an unknown tag adds exactly one "Unrecognized integration: <tag>" Error per entry |
| ChannelAggregation.SilentIntegrations | logdna/request_types.go:155-160 | lists tagged email, PagerDuty or Slack add no diagnostic |
| ChannelAggregation.WebhookDiagnostics | logdna/request_types.go:253-257 | a webhook list adds one diagnostic per block whose non-empty template fails to decode, each an Error with the invalid-template summary |
| ChannelAggregation.NoBadTemplates | logdna/request_types.go:245-259 | no malformed template is counted if and only if every webhook template is empty or decodes |
| ChannelAggregation.AggregateAllChannels | logdna/request_types.go:94-137 | the result is the email records, then the PagerDuty, Slack and webhook records, each in list order; the diagnostics appended are those of the webhook list |
| ChannelAggregation.ChannelDiagnosticsCount | logdna/request_types.go:94-137 | the aggregation adds as many diagnostics as there are malformed webhook templates, all Errors, and none if and only if every webhook template is empty or decodes |
| ChannelAggregation.AllChannelsLength | logdna/request_types.go:98-136 | the aggregated list has one record per block of the four lists |
| ChannelAggregation.AllChannelsTypeMajor | logdna/request_types.go:98-136 | the aggregated list is ordered by integration (email, PagerDuty, Slack, webhook), whatever the blocks contain |
| RequestBodies.ViewRequest.constructor | logdna/request_types.go:15-24 | the zero `viewRequest` has every field empty |
| RequestBodies.ViewRequest.CreateRequestBody | logdna/request_types.go:52-71 | name and query are copied verbatim; each facet is `FilterStrings` of its attribute; the channels are the aggregated list; the diagnostics are exactly the aggregation's |
| RequestBodies.AlertRequest.constructor | logdna/request_types.go:26-29 | the zero `alertRequest` has an empty name and no channels |
| RequestBodies.AlertRequest.CreateRequestBody | logdna/request_types.go:73-83 | the name is copied and the channels are the aggregated list; no facets; the diagnostics are exactly the aggregation's |
| RequestBodies.CategoryRequest.constructor | logdna/request_types.go:47-50 | the zero `categoryRequest` has an empty name and type |
| RequestBodies.CategoryRequest.CreateRequestBody | logdna/request_types.go:85-92 | only the name is set; the type keeps its previous value; no diagnostic is returned |

## Left out

- Terraform Plugin SDK: `schema.ResourceData.Get` is a typed `ResourceData` record, and `diag.Diagnostics` is a sequence of `Diagnostic` values.
- Failed Go type assertions, which panic, are excluded by preconditions rather than modelled.
- `encoding/json`: decoding is the caller-supplied function `Unmarshaler`. It returns a JSON object, `null`, or an error message. The decoder's grammar (RFC 8259) is not modelled.
- Serialisation of the request records (`omitempty` JSON marshalling) is not modelled. `ChannelMappers.IsZero` gives the zero values that `omitempty` drops.
- Go `int` is 64 bits wide, but `triggerLimit` is an unbounded `int`. The value is only copied, so no overflow can occur in this code.
- Attribute validation (the triggerlimit range, enums for operator, triggerinterval and method, URI checks, required fields) lives in schema definitions that are not part of this model.
- The integration tag constants `EMAIL`, `PAGERDUTY`, `SLACK` and `WEBHOOK` are declared outside `request_types.go`. They are modelled as "email", "pagerduty", "slack" and "webhook", which are the channel names the provider's configurations use.
- Go map iteration order in the header copy is not modelled. The header loop picks keys in an arbitrary order, and the result, a map, does not depend on it.
- `ViewRequest.CreateRequestBody` does not mirror the source's statement order: it computes every value into locals and then assigns the fields. Go's order of field writes has no observable effect here.
- The HTTP client, the GET response decoder, import and state handling, and the acceptance tests are not part of this model.
