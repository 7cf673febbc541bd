/**
 * Published safety advisories (contexts/AdvisoryContext.tsx): newest first;
 * publishing prepends, withdrawing drops every advisory with the given id.
 * The generated id and the wall-clock timestamp are parameters.
 */
module Advisories {
  import opened Common
  import opened Domain
  import Seqs

  /** What a publisher supplies: an advisory without `id` and `timestamp`. */
  datatype AlertDraft = AlertDraft(title: string, severity: Severity, details: string, location: Option<string>)

  /** The stored advisory: the publisher's fields as given, plus the generated id and timestamp. */
  function Stamped(draft: AlertDraft, id: string, timestamp: string): (a: SafetyAlert)
    ensures DraftOf(a) == draft && a.id == id && a.timestamp == timestamp
  {
    SafetyAlert(id, draft.title, draft.severity, timestamp, draft.details, draft.location)
  }

  function DraftOf(a: SafetyAlert): AlertDraft {
    AlertDraft(a.title, a.severity, a.details, a.location)
  }

  function Publish(alerts: seq<SafetyAlert>, draft: AlertDraft, id: string, timestamp: string): (r: seq<SafetyAlert>)
    ensures |r| == |alerts| + 1 && r[0] == Stamped(draft, id, timestamp) && r[1..] == alerts
  {
    [Stamped(draft, id, timestamp)] + alerts
  }

  function AlertId(a: SafetyAlert): string {
    a.id
  }

  /** `alerts.filter(a => a.id !== id)`: no advisory with that id is left, every other one is. */
  function Withdraw(alerts: seq<SafetyAlert>, id: string): (r: seq<SafetyAlert>)
    ensures |r| <= |alerts|
    ensures forall k :: 0 <= k < |r| ==> r[k] in alerts && r[k].id != id
    ensures forall k :: 0 <= k < |alerts| && alerts[k].id != id ==> alerts[k] in r
  {
    Seqs.RemoveByKey(alerts, AlertId, id)
  }

  /** Withdrawing keeps the survivors in their order: it distributes over concatenation. */
  lemma WithdrawKeepsOrder(s: seq<SafetyAlert>, t: seq<SafetyAlert>, id: string)
    ensures Withdraw(s + t, id) == Withdraw(s, id) + Withdraw(t, id)
  {
    Seqs.RemoveByKeyAppend(s, t, AlertId, id);
  }

  lemma WithdrawIdempotent(alerts: seq<SafetyAlert>, id: string)
    ensures Withdraw(Withdraw(alerts, id), id) == Withdraw(alerts, id)
  {
    Seqs.RemoveByKeyIdempotent(alerts, AlertId, id);
  }

  lemma WithdrawAbsentId(alerts: seq<SafetyAlert>, id: string)
    requires forall k :: 0 <= k < |alerts| ==> alerts[k].id != id
    ensures Withdraw(alerts, id) == alerts
  {
    Seqs.RemoveByKeyAbsent(alerts, AlertId, id);
  }

  /** Publishing under an id no advisory has, then withdrawing that id, restores the list. */
  lemma PublishThenWithdraw(alerts: seq<SafetyAlert>, draft: AlertDraft, id: string, timestamp: string)
    requires forall k :: 0 <= k < |alerts| ==> alerts[k].id != id
    ensures Withdraw(Publish(alerts, draft, id, timestamp), id) == alerts
  {
    Seqs.RemoveByKeyFreshHead(Stamped(draft, id, timestamp), alerts, AlertId);
  }

  /** The publish-advisory form both dashboards keep; severity starts at medium. */
  datatype AlertForm = AlertForm(title: string, severity: Severity, location: string, details: string)

  const BlankAlertForm := AlertForm("", Medium, "", "")

  /** What publishing passes to the advisory store: the form's fields, location included. */
  function AlertDraftOf(form: AlertForm): (d: AlertDraft)
    ensures d.title == form.title && d.severity == form.severity && d.details == form.details
    ensures d.location == Some(form.location)
  {
    AlertDraft(form.title, form.severity, form.details, Some(form.location))
  }

  class AdvisoryBoard {
    var alerts: seq<SafetyAlert>

    constructor ()
      ensures alerts == SeedAlerts
    {
      alerts := SeedAlerts;
    }

    /** `addAlert`. */
    method AddAlert(draft: AlertDraft, id: string, timestamp: string)
      modifies this
      ensures alerts == Publish(old(alerts), draft, id, timestamp)
    {
      var alert := SafetyAlert(id, draft.title, draft.severity, timestamp, draft.details, draft.location);
      alerts := [alert] + alerts;
    }

    /** `removeAlert`. */
    method RemoveAlert(id: string)
      modifies this
      ensures alerts == Withdraw(old(alerts), id)
    {
      alerts := Seqs.RemoveByKey(alerts, AlertId, id);
    }
  }
}
