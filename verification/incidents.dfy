/**
 * The incident registry (contexts/IncidentContext.tsx): a list of emergency
 * reports, newest first. Reports are prepended as PENDING, resolve and assign
 * rewrite the status of the entries with a given id, and nothing is ever removed.
 */
module Incidents {
  import opened Common
  import opened Domain
  import Seqs

  /** What a reporter supplies: every field of an incident except `id` and `status`. */
  datatype IncidentReport = IncidentReport(
    kind: string,
    location: string,
    distance: Option<string>,
    timeReported: string,
    caller: string,
    contact: string,
    coordinates: Option<Coordinates>)

  /** The reporter's part of a stored incident. */
  function ReportOf(inc: Incident): IncidentReport {
    IncidentReport(inc.kind, inc.location, inc.distance, inc.timeReported, inc.caller, inc.contact, inc.coordinates)
  }

  /** The stored form of a new report: the reporter's fields as given, a generated id, PENDING. */
  function Filed(report: IncidentReport, id: string): (inc: Incident)
    ensures ReportOf(inc) == report
    ensures inc.id == id && inc.status == Pending
  {
    Incident(id, report.kind, report.location, report.distance, report.timeReported,
             report.caller, report.contact, Pending, report.coordinates)
  }

  function IdOf(inc: Incident): string {
    inc.id
  }

  function Ids(s: seq<Incident>): (r: seq<string>)
    ensures |r| == |s| && forall k :: 0 <= k < |s| ==> r[k] == s[k].id
  {
    Seqs.Map(s, IdOf)
  }

  /** The per-entry rewrite of `resolveIncident` / `assignResponder`. */
  function Restatus(id: string, status: IncidentStatus): Incident -> Incident {
    (inc: Incident) => if inc.id == id then inc.(status := status) else inc
  }

  /**
   * The list after setting `status` on every entry whose id is `id`: same length and
   * order, every entry keeps its id and reported fields, and only the matching
   * entries change status, whatever status they had before.
   */
  function WithStatus(s: seq<Incident>, id: string, status: IncidentStatus): (r: seq<Incident>)
    ensures |r| == |s|
    ensures forall k :: 0 <= k < |s| ==> r[k].id == s[k].id && ReportOf(r[k]) == ReportOf(s[k])
    ensures forall k :: 0 <= k < |s| ==> r[k].status == if s[k].id == id then status else s[k].status
  {
    Seqs.Map(s, Restatus(id, status))
  }

  /** Applying the same status change twice is applying it once. */
  lemma WithStatusIdempotent(s: seq<Incident>, id: string, status: IncidentStatus)
    ensures WithStatus(WithStatus(s, id, status), id, status) == WithStatus(s, id, status)
  {
  }

  /** A status change for an id that no entry carries leaves the list as it was. */
  lemma WithStatusAbsentId(s: seq<Incident>, id: string, status: IncidentStatus)
    requires forall k :: 0 <= k < |s| ==> s[k].id != id
    ensures WithStatus(s, id, status) == s
  {
  }

  /** `assignResponder` has no guard on the prior status: it re-opens a resolved entry. */
  lemma AssignReopensResolved(s: seq<Incident>, k: nat)
    requires k < |s| && s[k].status == Resolved
    ensures WithStatus(s, s[k].id, InProgress)[k].status == InProgress
  {
  }

  /** The three store operations. */
  datatype Op = Report(report: IncidentReport, newId: string) | Resolve(id: string) | Assign(id: string)

  function Apply(s: seq<Incident>, op: Op): seq<Incident> {
    match op
    case Report(report, newId) => [Filed(report, newId)] + s
    case Resolve(id) => WithStatus(s, id, Resolved)
    case Assign(id) => WithStatus(s, id, InProgress)
  }

  /** The registry after a sequence of operations, applied in order. */
  function Run(s: seq<Incident>, ops: seq<Op>): seq<Incident>
    decreases |ops|
  {
    if ops == [] then s else Run(Apply(s, ops[0]), ops[1..])
  }

  function ReportCount(ops: seq<Op>): nat
    decreases |ops|
  {
    if ops == [] then 0 else (if ops[0].Report? then 1 else 0) + ReportCount(ops[1..])
  }

  /**
   * No operation removes or reorders an incident: after any run the list has grown by
   * exactly the number of reports, and below the new entries sit the old ids, in order.
   */
  lemma {:induction false} NothingRemoved(s: seq<Incident>, ops: seq<Op>)
    ensures |Run(s, ops)| == |s| + ReportCount(ops)
    ensures Ids(Run(s, ops))[ReportCount(ops)..] == Ids(s)
    decreases |ops|
  {
    if ops != [] {
      var next := Apply(s, ops[0]);
      NothingRemoved(next, ops[1..]);
      var n := ReportCount(ops[1..]);
      var ids := Ids(Run(s, ops));
      assert Run(s, ops) == Run(next, ops[1..]);
      if ops[0].Report? {
        assert Ids(next)[1..] == Ids(s);
        assert ids[n + 1..] == ids[n..][1..];
      } else {
        assert Ids(next) == Ids(s);
      }
    }
  }

  predicate IsOpen(inc: Incident) {
    inc.status != Resolved
  }

  predicate IsClosed(inc: Incident) {
    inc.status == Resolved
  }

  /** The incidents not yet resolved, in list order (the responders' and admins' active lists). */
  function Unresolved(s: seq<Incident>): (r: seq<Incident>)
    ensures forall k :: 0 <= k < |r| ==> r[k] in s && r[k].status != Resolved
    ensures forall k :: 0 <= k < |s| && s[k].status != Resolved ==> s[k] in r
  {
    Seqs.Filter(s, IsOpen)
  }

  /** The resolved incidents, in list order (the responders' incident log). */
  function ResolvedLog(s: seq<Incident>): (r: seq<Incident>)
    ensures forall k :: 0 <= k < |r| ==> r[k] in s && r[k].status == Resolved
    ensures forall k :: 0 <= k < |s| && s[k].status == Resolved ==> s[k] in r
  {
    Seqs.Filter(s, IsClosed)
  }

  /** The active list and the log split the registry: together they hold every incident once. */
  lemma ActiveAndLogPartition(s: seq<Incident>)
    ensures multiset(Unresolved(s)) + multiset(ResolvedLog(s)) == multiset(s)
    ensures |Unresolved(s)| + |ResolvedLog(s)| == |s|
  {
    Seqs.FilterPartition(s, IsOpen, IsClosed);
  }

  /** The mock incident the registry starts with. */
  const InitialIncidents: seq<Incident> := [
    Incident("INC-MOCK-1", "Medical Emergency", "Kawasan Falls, Badian", Some("2.4 km"), "10:42 AM",
             "Maria Santos", "0917-123-4567", InProgress, None)
  ]

  class IncidentRegistry {
    var incidents: seq<Incident>

    constructor ()
      ensures incidents == InitialIncidents
    {
      incidents := InitialIncidents;
    }

    /** `reportIncident`: the new entry goes on top, the old list follows unchanged. */
    method ReportIncident(report: IncidentReport, newId: string)
      modifies this
      ensures incidents == Apply(old(incidents), Report(report, newId))
      ensures |incidents| == |old(incidents)| + 1 && incidents[1..] == old(incidents)
      ensures incidents[0] == Filed(report, newId)
    {
      incidents := [Filed(report, newId)] + incidents;
    }

    /** `resolveIncident`. */
    method ResolveIncident(id: string)
      modifies this
      ensures incidents == Apply(old(incidents), Resolve(id))
      ensures incidents == WithStatus(old(incidents), id, Resolved)
    {
      incidents := Seqs.Map(incidents, Restatus(id, Resolved));
    }

    /** `assignResponder`. */
    method AssignResponder(id: string)
      modifies this
      ensures incidents == Apply(old(incidents), Assign(id))
      ensures incidents == WithStatus(old(incidents), id, InProgress)
    {
      incidents := Seqs.Map(incidents, Restatus(id, InProgress));
    }
  }
}
