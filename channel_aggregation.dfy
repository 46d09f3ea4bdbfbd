/**
 * Dispatch of channel blocks to their mapper by integration tag, and the
 * aggregation of a resource's four channel lists into one ordered list.
 */
module ChannelAggregation {
  import opened Attributes
  import opened ChannelMappers

  const UnrecognizedSummary: string := "Cannot format integration channel for outbound request"

  /** The tags `iterateIntegrationType` has a mapper for. */
  predicate Recognized(tag: string) {
    tag == EMAIL || tag == PAGERDUTY || tag == SLACK || tag == WEBHOOK
  }

  /** The diagnostic added for each entry of a list with an unknown tag. */
  function UnrecognizedIntegration(tag: string): Diagnostic {
    Diagnostic(Error, UnrecognizedSummary, "Unrecognized integration: " + tag)
  }

  /** What the type assertions in `iterateIntegrationType` and the mapper for
      `tag` demand of one list entry. */
  predicate EntryFits(tag: string, b: ChannelBlock) {
    && (tag == EMAIL ==> b.EmailBlock? && AllStrings(b.emails))
    && (tag == PAGERDUTY ==> b.PagerDutyBlock?)
    && (tag == SLACK ==> b.SlackBlock?)
    && (tag == WEBHOOK ==> b.WebhookBlock? && AllStringValues(b.headers))
  }

  predicate AllFit(tag: string, entries: seq<ChannelBlock>) {
    forall i :: 0 <= i < |entries| ==> EntryFits(tag, entries[i])
  }

  /** The record one entry yields under a recognised tag. */
  function Prepare(tag: string, e: ChannelBlock, unmarshal: Unmarshaler): (c: ChannelRequest)
    requires Recognized(tag) && EntryFits(tag, e)
    ensures c.integration == tag
  {
    if tag == EMAIL then EmailChannel(e)
    else if tag == PAGERDUTY then PagerDutyChannelRequest(e)
    else if tag == SLACK then SlackChannelRequest(e)
    else WebhookChannel(e, unmarshal)
  }

  /** The records a list of entries yields, in list order. */
  function PrepareAll(tag: string, entries: seq<ChannelBlock>, unmarshal: Unmarshaler): seq<ChannelRequest>
    requires AllFit(tag, entries)
  {
    if !Recognized(tag) then []
    else seq(|entries|, i requires 0 <= i < |entries| => Prepare(tag, entries[i], unmarshal))
  }

  /** An unknown tag yields no record; a known one yields exactly one record
      per entry, in list order. */
  lemma PrepareAllRecords(tag: string, entries: seq<ChannelBlock>, unmarshal: Unmarshaler)
    requires AllFit(tag, entries)
    ensures !Recognized(tag) ==> PrepareAll(tag, entries, unmarshal) == []
    ensures Recognized(tag) ==> |PrepareAll(tag, entries, unmarshal)| == |entries|
    ensures Recognized(tag) ==> forall i :: 0 <= i < |entries| ==>
      PrepareAll(tag, entries, unmarshal)[i] == Prepare(tag, entries[i], unmarshal)
  {
  }

  /** Every record a list yields carries the list's tag. */
  lemma PrepareAllStamped(tag: string, entries: seq<ChannelBlock>, unmarshal: Unmarshaler)
    requires AllFit(tag, entries)
    ensures forall c :: c in PrepareAll(tag, entries, unmarshal) ==> c.integration == tag
  {
    PrepareAllRecords(tag, entries, unmarshal);
  }

  /** The diagnostics one entry adds. */
  function EntryDiagnostics(tag: string, e: ChannelBlock, unmarshal: Unmarshaler): seq<Diagnostic>
    requires EntryFits(tag, e)
  {
    if !Recognized(tag) then [UnrecognizedIntegration(tag)]
    else if tag == WEBHOOK then TemplateDiagnostics(e, unmarshal)
    else []
  }

  /** The diagnostics a list of entries adds, in list order. */
  function DiagnoseAll(tag: string, entries: seq<ChannelBlock>, unmarshal: Unmarshaler): seq<Diagnostic>
    requires AllFit(tag, entries)
  {
    if |entries| == 0 then []
    else
      var n := |entries| - 1;
      DiagnoseAll(tag, entries[..n], unmarshal) + EntryDiagnostics(tag, entries[n], unmarshal)
  }

  /** The `switch` of `iterateIntegrationType` on one entry: the record the
      entry yields, if its tag has a mapper, and the diagnostics it raises. */
  method Dispatch(e: ChannelBlock, integration: string, unmarshal: Unmarshaler, diags: seq<Diagnostic>)
    returns (prepared: Option<ChannelRequest>, diags': seq<Diagnostic>)
    requires EntryFits(integration, e)
    ensures prepared.Some? <==> Recognized(integration)
    ensures prepared.Some? ==> prepared.value == Prepare(integration, e, unmarshal)
    ensures diags' == diags + EntryDiagnostics(integration, e, unmarshal)
  {
    prepared := None;
    diags' := diags;
    if integration == EMAIL {
      var c := EmailChannelRequest(e);
      prepared := Some(c);
    } else if integration == PAGERDUTY {
      prepared := Some(PagerDutyChannelRequest(e));
    } else if integration == SLACK {
      prepared := Some(SlackChannelRequest(e));
    } else if integration == WEBHOOK {
      var c;
      c, diags' := WebhookChannelRequest(e, unmarshal, diags');
      prepared := Some(c);
    } else {
      diags' := diags' + [UnrecognizedIntegration(integration)];
    }
  }

  /** One more entry extends the records of the prefix before it by that
      entry's record, if its tag has a mapper. */
  lemma PrepareAllSnoc(tag: string, entries: seq<ChannelBlock>, i: nat, unmarshal: Unmarshaler)
    requires AllFit(tag, entries) && i < |entries|
    ensures AllFit(tag, entries[..i]) && AllFit(tag, entries[..i + 1])
    ensures PrepareAll(tag, entries[..i + 1], unmarshal) == PrepareAll(tag, entries[..i], unmarshal)
      + (if Recognized(tag) then [Prepare(tag, entries[i], unmarshal)] else [])
  {
  }

  /** One more entry extends the diagnostics of the prefix before it by that
      entry's own. */
  lemma DiagnoseAllSnoc(tag: string, entries: seq<ChannelBlock>, i: nat, unmarshal: Unmarshaler)
    requires AllFit(tag, entries) && i < |entries|
    ensures AllFit(tag, entries[..i]) && AllFit(tag, entries[..i + 1])
    ensures DiagnoseAll(tag, entries[..i + 1], unmarshal)
      == DiagnoseAll(tag, entries[..i], unmarshal) + EntryDiagnostics(tag, entries[i], unmarshal)
  {
    var done := entries[..i + 1];
    assert done[..i] == entries[..i] && done[i] == entries[i];
  }

  /** `iterateIntegrationType`: maps each entry with the mapper for `integration`,
      appending the records it yields and the diagnostics it raises. */
  method IterateIntegrationType(
    listEntries: seq<ChannelBlock>, integration: string, unmarshal: Unmarshaler, diags: seq<Diagnostic>)
    returns (channelRequests: seq<ChannelRequest>, diags': seq<Diagnostic>)
    requires AllFit(integration, listEntries)
    ensures channelRequests == PrepareAll(integration, listEntries, unmarshal)
    ensures diags' == diags + DiagnoseAll(integration, listEntries, unmarshal)
    ensures |listEntries| == 0 ==> channelRequests == [] && diags' == diags
  {
    channelRequests := [];
    diags' := diags;
    if |listEntries| == 0 {
      return;
    }
    var i := 0;
    while i < |listEntries|
      invariant 0 <= i <= |listEntries|
      invariant channelRequests == PrepareAll(integration, listEntries[..i], unmarshal)
      invariant diags' == diags + DiagnoseAll(integration, listEntries[..i], unmarshal)
    {
      PrepareAllSnoc(integration, listEntries, i, unmarshal);
      DiagnoseAllSnoc(integration, listEntries, i, unmarshal);
      var prepared;
      prepared, diags' := Dispatch(listEntries[i], integration, unmarshal, diags');
      if prepared.Some? {
        channelRequests := channelRequests + [prepared.value];
      }
      i := i + 1;
    }
    assert listEntries[..|listEntries|] == listEntries;
  }

  /** An unknown tag adds one diagnostic naming it per entry, and nothing else. */
  lemma {:induction false} UnrecognizedDiagnostics(tag: string, entries: seq<ChannelBlock>, unmarshal: Unmarshaler)
    requires !Recognized(tag) && AllFit(tag, entries)
    ensures |DiagnoseAll(tag, entries, unmarshal)| == |entries|
    ensures forall i :: 0 <= i < |entries| ==> DiagnoseAll(tag, entries, unmarshal)[i] == UnrecognizedIntegration(tag)
  {
    if |entries| > 0 {
      UnrecognizedDiagnostics(tag, entries[..|entries| - 1], unmarshal);
    }
  }

  /** The email, PagerDuty and Slack mappers never add a diagnostic. */
  lemma {:induction false} SilentIntegrations(tag: string, entries: seq<ChannelBlock>, unmarshal: Unmarshaler)
    requires tag == EMAIL || tag == PAGERDUTY || tag == SLACK
    requires AllFit(tag, entries)
    ensures DiagnoseAll(tag, entries, unmarshal) == []
  {
    if |entries| > 0 {
      SilentIntegrations(tag, entries[..|entries| - 1], unmarshal);
    }
  }

  /** The number of webhook entries whose non-empty template does not decode. */
  function CountBadTemplates(entries: seq<ChannelBlock>, unmarshal: Unmarshaler): nat
    requires AllFit(WEBHOOK, entries)
  {
    if |entries| == 0 then 0
    else
      var n := |entries| - 1;
      CountBadTemplates(entries[..n], unmarshal) + (if BadTemplate(entries[n], unmarshal) then 1 else 0)
  }

  /** Webhook entries add exactly one diagnostic per malformed template, each
      the "not a valid JSON string" error. */
  lemma {:induction false} WebhookDiagnostics(entries: seq<ChannelBlock>, unmarshal: Unmarshaler)
    requires AllFit(WEBHOOK, entries)
    ensures |DiagnoseAll(WEBHOOK, entries, unmarshal)| == CountBadTemplates(entries, unmarshal)
    ensures forall d :: d in DiagnoseAll(WEBHOOK, entries, unmarshal) ==>
      d.severity == Error && d.summary == InvalidTemplateSummary
  {
    if |entries| > 0 {
      WebhookDiagnostics(entries[..|entries| - 1], unmarshal);
    }
  }

  /** No webhook template is malformed exactly when none is counted. */
  lemma {:induction false} NoBadTemplates(entries: seq<ChannelBlock>, unmarshal: Unmarshaler)
    requires AllFit(WEBHOOK, entries)
    ensures CountBadTemplates(entries, unmarshal) == 0
        <==> forall i :: 0 <= i < |entries| ==> !BadTemplate(entries[i], unmarshal)
  {
    if |entries| > 0 {
      var n := |entries| - 1;
      var init := entries[..n];
      NoBadTemplates(init, unmarshal);
      assert forall i :: 0 <= i < n ==> init[i] == entries[i];
    }
  }

  /** What `aggregateAllChannelsFromSchema` demands of the resource's attributes. */
  predicate ChannelAttributes(d: ResourceData) {
    && AllFit(EMAIL, d.emailChannel)
    && AllFit(PAGERDUTY, d.pagerdutyChannel)
    && AllFit(SLACK, d.slackChannel)
    && AllFit(WEBHOOK, d.webhookChannel)
  }

  /** The aggregated channel list: email, then PagerDuty, then Slack, then
      webhook records, each group in its list's order. */
  function AllChannels(d: ResourceData, unmarshal: Unmarshaler): seq<ChannelRequest>
    requires ChannelAttributes(d)
  {
    PrepareAll(EMAIL, d.emailChannel, unmarshal)
    + PrepareAll(PAGERDUTY, d.pagerdutyChannel, unmarshal)
    + PrepareAll(SLACK, d.slackChannel, unmarshal)
    + PrepareAll(WEBHOOK, d.webhookChannel, unmarshal)
  }

  /** The diagnostics of the aggregation: those of the webhook list alone. */
  function ChannelDiagnostics(d: ResourceData, unmarshal: Unmarshaler): seq<Diagnostic>
    requires ChannelAttributes(d)
  {
    DiagnoseAll(WEBHOOK, d.webhookChannel, unmarshal)
  }

  /** The aggregation raises one Error per webhook block whose non-empty
      template does not decode, and none at all exactly when every webhook
      template is empty or decodes. */
  lemma ChannelDiagnosticsCount(d: ResourceData, unmarshal: Unmarshaler)
    requires ChannelAttributes(d)
    ensures |ChannelDiagnostics(d, unmarshal)| == CountBadTemplates(d.webhookChannel, unmarshal)
    ensures forall x :: x in ChannelDiagnostics(d, unmarshal) ==> x.severity == Error
    ensures ChannelDiagnostics(d, unmarshal) == []
        <==> forall i :: 0 <= i < |d.webhookChannel| ==> !BadTemplate(d.webhookChannel[i], unmarshal)
  {
    WebhookDiagnostics(d.webhookChannel, unmarshal);
    NoBadTemplates(d.webhookChannel, unmarshal);
  }

  /** `aggregateAllChannelsFromSchema`: appends the four lists' records in the
      fixed order email, PagerDuty, Slack, webhook. */
  method AggregateAllChannels(d: ResourceData, unmarshal: Unmarshaler, diags: seq<Diagnostic>)
    returns (allChannelEntries: seq<ChannelRequest>, diags': seq<Diagnostic>)
    requires ChannelAttributes(d)
    ensures allChannelEntries == AllChannels(d, unmarshal)
    ensures diags' == diags + ChannelDiagnostics(d, unmarshal)
  {
    var emailEntries := d.emailChannel;
    var pagerDutyEntries := d.pagerdutyChannel;
    var slackEntries := d.slackChannel;
    var webhookEntries := d.webhookChannel;
    allChannelEntries := [];
    var prepared;
    diags' := diags;

    prepared, diags' := IterateIntegrationType(emailEntries, EMAIL, unmarshal, diags');
    allChannelEntries := allChannelEntries + prepared;
    assert allChannelEntries == PrepareAll(EMAIL, emailEntries, unmarshal);
    SilentIntegrations(EMAIL, emailEntries, unmarshal);
    assert diags' == diags;

    prepared, diags' := IterateIntegrationType(pagerDutyEntries, PAGERDUTY, unmarshal, diags');
    allChannelEntries := allChannelEntries + prepared;
    SilentIntegrations(PAGERDUTY, pagerDutyEntries, unmarshal);
    assert diags' == diags;

    prepared, diags' := IterateIntegrationType(slackEntries, SLACK, unmarshal, diags');
    allChannelEntries := allChannelEntries + prepared;
    SilentIntegrations(SLACK, slackEntries, unmarshal);
    assert diags' == diags;

    prepared, diags' := IterateIntegrationType(webhookEntries, WEBHOOK, unmarshal, diags');
    allChannelEntries := allChannelEntries + prepared;
    assert allChannelEntries
      == PrepareAll(EMAIL, emailEntries, unmarshal) + PrepareAll(PAGERDUTY, pagerDutyEntries, unmarshal)
         + PrepareAll(SLACK, slackEntries, unmarshal) + PrepareAll(WEBHOOK, webhookEntries, unmarshal);
  }

  /** Every entry of the four lists yields exactly one record. */
  lemma AllChannelsLength(d: ResourceData, unmarshal: Unmarshaler)
    requires ChannelAttributes(d)
    ensures |AllChannels(d, unmarshal)| == |d.emailChannel| + |d.pagerdutyChannel|
                                         + |d.slackChannel| + |d.webhookChannel|
  {
    PrepareAllRecords(EMAIL, d.emailChannel, unmarshal);
    PrepareAllRecords(PAGERDUTY, d.pagerdutyChannel, unmarshal);
    PrepareAllRecords(SLACK, d.slackChannel, unmarshal);
    PrepareAllRecords(WEBHOOK, d.webhookChannel, unmarshal);
  }

  /** Position of an integration in the aggregation order. */
  function TypeRank(tag: string): nat {
    if tag == EMAIL then 0
    else if tag == PAGERDUTY then 1
    else if tag == SLACK then 2
    else if tag == WEBHOOK then 3
    else 4
  }

  /** Records are in non-decreasing integration order. */
  predicate RankSorted(cs: seq<ChannelRequest>) {
    forall i, j :: 0 <= i < j < |cs| ==> TypeRank(cs[i].integration) <= TypeRank(cs[j].integration)
  }

  /** Every record has integration rank at most, resp. at least, `r`. */
  predicate RanksAtMost(cs: seq<ChannelRequest>, r: nat) {
    forall c :: c in cs ==> TypeRank(c.integration) <= r
  }
  predicate RanksAtLeast(cs: seq<ChannelRequest>, r: nat) {
    forall c :: c in cs ==> r <= TypeRank(c.integration)
  }

  /** Appending a block whose ranks are no smaller than every earlier rank keeps the order. */
  lemma AppendRankSorted(a: seq<ChannelRequest>, b: seq<ChannelRequest>, r: nat)
    requires RankSorted(a) && RankSorted(b) && RanksAtMost(a, r) && RanksAtLeast(b, r)
    ensures RankSorted(a + b)
  {
    var ab := a + b;
    forall i, j | 0 <= i < j < |ab|
      ensures TypeRank(ab[i].integration) <= TypeRank(ab[j].integration)
    {
      if j < |a| {
        assert ab[i] == a[i] && ab[j] == a[j];
      } else if i >= |a| {
        assert ab[i] == b[i - |a|] && ab[j] == b[j - |a|];
      } else {
        assert ab[i] in a && ab[j] in b;
      }
    }
  }

  /** The records of one list all carry its tag's rank, so they are sorted. */
  lemma PrepareAllRank(tag: string, entries: seq<ChannelBlock>, unmarshal: Unmarshaler)
    requires AllFit(tag, entries)
    ensures RankSorted(PrepareAll(tag, entries, unmarshal))
    ensures RanksAtMost(PrepareAll(tag, entries, unmarshal), TypeRank(tag))
    ensures RanksAtLeast(PrepareAll(tag, entries, unmarshal), TypeRank(tag))
  {
    var r := PrepareAll(tag, entries, unmarshal);
    PrepareAllStamped(tag, entries, unmarshal);
    assert forall i :: 0 <= i < |r| ==> r[i] in r;
  }

  /** The aggregated list is ordered by integration first: no record of a later
      integration precedes one of an earlier integration, whatever the
      order of the configuration's blocks. */
  lemma AllChannelsTypeMajor(d: ResourceData, unmarshal: Unmarshaler)
    requires ChannelAttributes(d)
    ensures RankSorted(AllChannels(d, unmarshal))
  {
    var e := PrepareAll(EMAIL, d.emailChannel, unmarshal);
    var p := PrepareAll(PAGERDUTY, d.pagerdutyChannel, unmarshal);
    var s := PrepareAll(SLACK, d.slackChannel, unmarshal);
    var w := PrepareAll(WEBHOOK, d.webhookChannel, unmarshal);
    PrepareAllRank(EMAIL, d.emailChannel, unmarshal);
    PrepareAllRank(PAGERDUTY, d.pagerdutyChannel, unmarshal);
    PrepareAllRank(SLACK, d.slackChannel, unmarshal);
    PrepareAllRank(WEBHOOK, d.webhookChannel, unmarshal);
    assert TypeRank(EMAIL) == 0 && TypeRank(PAGERDUTY) == 1 && TypeRank(SLACK) == 2 && TypeRank(WEBHOOK) == 3;
    AppendRankSorted(e, p, 1);
    assert RanksAtMost(e + p, 2);
    AppendRankSorted(e + p, s, 2);
    assert RanksAtMost(e + p + s, 3);
    AppendRankSorted(e + p + s, w, 3);
  }
}
