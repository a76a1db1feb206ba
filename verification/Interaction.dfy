/** The authoritative interaction state of a session and its local revision. */
module Interaction {
  import opened Common

  datatype PendingType = Input | Approval
  datatype PendingKind = Unclassified | Command | FileChange | Tool | Question | Other

  datatype PendingRequest = PendingRequest(id: string, ptype: PendingType, summary: string, kind: PendingKind)

  datatype Capability = Capability(remoteResponse: bool, structuredApproval: bool, interactionState: bool,
                                   approvalState: bool, pendingSummary: bool)

  /** `state` is empty until the first report; times are plain instants. */
  datatype Interaction = Interaction(state: string, revision: nat, updatedAt: int, lastActivityAt: int,
                                     pending: Option<PendingRequest>, source: string, capability: Capability)

  function EffectiveState(i: Interaction): string {
    if i.state == "" then "unknown" else i.state
  }

  predicate SamePendingIdentity(p: Option<PendingRequest>, next: Option<PendingRequest>) {
    if p.None? || next.None? then p.None? && next.None?
    else p.value.id == next.value.id && p.value.ptype == next.value.ptype
  }

  /** Whether a consumer should be told about the difference. */
  predicate Changed(i: Interaction, next: Interaction) {
    || i.capability != next.capability
    || EffectiveState(i) != EffectiveState(next)
    || !SamePendingIdentity(i.pending, next.pending)
    || (i.pending.Some? && next.pending.Some? && i.pending.value.summary != next.pending.value.summary)
  }

  /** Everything about an interaction that goes on the wire, apart from times and the source. */
  datatype Content = Content(state: string, capability: Capability, pending: Option<(string, PendingType, string)>)

  function ContentOf(i: Interaction): Content {
    Content(EffectiveState(i), i.capability,
            if i.pending.None? then None else Some((i.pending.value.id, i.pending.value.ptype, i.pending.value.summary)))
  }

  /** `Changed` compares exactly the content, so its negation is an equivalence relation. */
  lemma UnchangedMeansSameContent(a: Interaction, b: Interaction)
    ensures !Changed(a, b) <==> ContentOf(a) == ContentOf(b)
  {
  }

  /** Before the first report the state counts as unknown, so a report of unknown changes nothing. */
  lemma UnsetIsUnknown(i: Interaction)
    requires i.state == ""
    ensures ContentOf(i).state == "unknown" && !Changed(i, i.(state := "unknown")) && !Changed(i.(state := "unknown"), i)
  {
  }

  /** What a report turns the stored interaction into. */
  function Updated(cur: Interaction, report: Interaction, now: int): Interaction {
    if Changed(cur, report) then
      report.(lastActivityAt := now, revision := cur.revision + 1, updatedAt := now)
    else
      report.(lastActivityAt := now, revision := cur.revision, updatedAt := cur.updatedAt,
              pending := MergeKind(cur.pending, report.pending))
  }

  /** A repeated report may still classify the pending request. */
  function MergeKind(cur: Option<PendingRequest>, incoming: Option<PendingRequest>): Option<PendingRequest> {
    if cur.Some? && incoming.Some? && incoming.value.kind != Unclassified && cur.value.kind != incoming.value.kind
    then Some(cur.value.(kind := incoming.value.kind))
    else cur
  }

  datatype UpdateError = NoSource

  class Holder {
    var interaction: Interaction

    constructor (capability: Capability, now: int)
      ensures interaction == Interaction("unknown", 0, now, now, None, "", capability)
    {
      interaction := Interaction.Interaction("unknown", 0, now, now, None, "", capability);
    }

    /** Records one authoritative report; the revision only moves when something changed. */
    method UpdateInteraction(report: Interaction, now: int) returns (err: Option<UpdateError>)
      modifies this
      ensures err.Some? <==> report.source == ""
      ensures interaction == if report.source == "" then old(interaction) else Updated(old(interaction), report, now)
    {
      if report.source == "" { return Some(NoSource); }
      var cur := interaction;
      var next := report.(lastActivityAt := now);
      if Changed(cur, next) {
        next := next.(revision := cur.revision + 1, updatedAt := now);
      } else {
        var incoming := next.pending;
        next := next.(revision := cur.revision, updatedAt := cur.updatedAt, pending := cur.pending);
        if cur.pending.Some? && incoming.Some? && incoming.value.kind != Unclassified && cur.pending.value.kind != incoming.value.kind {
          next := next.(pending := Some(cur.pending.value.(kind := incoming.value.kind)));
        }
      }
      interaction := next;
      return None;
    }
  }

  /** The stored interactions of a session: each arises from the one before by a report. */
  ghost predicate IsHistory(h: seq<Interaction>) {
    forall i: nat :: i + 1 < |h| ==> Follows(h, i)
  }

  ghost predicate Follows(h: seq<Interaction>, i: nat)
    requires i + 1 < |h|
  {
    exists report, now :: h[i + 1] == Updated(h[i], report, now)
  }

  /** One report: the revision moves by one exactly when the content changes, and the report's content is what is stored. */
  lemma UpdatedMeaning(cur: Interaction, report: Interaction, now: int)
    ensures var next := Updated(cur, report, now);
            && ContentOf(next) == ContentOf(report)
            && next.revision == cur.revision + (if ContentOf(cur) == ContentOf(report) then 0 else 1)
            && next.updatedAt == (if next.revision == cur.revision then cur.updatedAt else now)
            && next.lastActivityAt == now && next.source == report.source
  {
    UnchangedMeansSameContent(cur, report);
  }

  /** The kind of a pending request: a report of the same content can set it but not take it back. */
  lemma KindAfter(cur: Interaction, report: Interaction, now: int)
    requires report.pending.Some?
    ensures var next := Updated(cur, report, now).pending;
            && next.Some?
            && next.value.kind == if ContentOf(cur) != ContentOf(report) || report.pending.value.kind != Unclassified
                                  then report.pending.value.kind else cur.pending.value.kind
  {
    UnchangedMeansSameContent(cur, report);
  }

  /** Two stored interactions of a session with the same revision agree on everything a consumer is told. */
  lemma {:induction false} SameRevisionSameContent(h: seq<Interaction>, i: nat, j: nat)
    requires IsHistory(h) && i <= j < |h|
    ensures h[i].revision <= h[j].revision
    ensures h[i].revision == h[j].revision ==> ContentOf(h[i]) == ContentOf(h[j]) && h[i].updatedAt == h[j].updatedAt
  {
    if i < j {
      SameRevisionSameContent(h, i, j - 1);
      assert Follows(h, j - 1);
      var report, now :| h[j] == Updated(h[j - 1], report, now);
      UpdatedMeaning(h[j - 1], report, now);
    }
  }
}
