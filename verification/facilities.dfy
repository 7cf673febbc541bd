/**
 * Emergency facilities (contexts/FacilityContext.tsx): seeded with the official
 * contacts; adding prepends, removing drops every facility with the given id.
 */
module Facilities {
  import opened Domain
  import Seqs

  /** What an editor supplies: a facility without its `id`. */
  datatype FacilityDraft = FacilityDraft(name: string, number: string, kind: FacilityType, distance: string)

  function DraftOf(f: EmergencyContact): FacilityDraft {
    FacilityDraft(f.name, f.number, f.kind, f.distance)
  }

  function Listed(draft: FacilityDraft, id: string): (f: EmergencyContact)
    ensures DraftOf(f) == draft && f.id == id
  {
    EmergencyContact(id, draft.name, draft.number, draft.kind, draft.distance)
  }

  function Add(facilities: seq<EmergencyContact>, draft: FacilityDraft, id: string): (r: seq<EmergencyContact>)
    ensures |r| == |facilities| + 1 && r[0] == Listed(draft, id) && r[1..] == facilities
  {
    [Listed(draft, id)] + facilities
  }

  function FacilityId(f: EmergencyContact): string {
    f.id
  }

  /** `facilities.filter(f => f.id !== id)`. */
  function Remove(facilities: seq<EmergencyContact>, id: string): (r: seq<EmergencyContact>)
    ensures |r| <= |facilities|
    ensures forall k :: 0 <= k < |r| ==> r[k] in facilities && r[k].id != id
    ensures forall k :: 0 <= k < |facilities| && facilities[k].id != id ==> facilities[k] in r
  {
    Seqs.RemoveByKey(facilities, FacilityId, id)
  }

  lemma RemoveKeepsOrder(s: seq<EmergencyContact>, t: seq<EmergencyContact>, id: string)
    ensures Remove(s + t, id) == Remove(s, id) + Remove(t, id)
  {
    Seqs.RemoveByKeyAppend(s, t, FacilityId, id);
  }

  lemma RemoveIdempotent(facilities: seq<EmergencyContact>, id: string)
    ensures Remove(Remove(facilities, id), id) == Remove(facilities, id)
  {
    Seqs.RemoveByKeyIdempotent(facilities, FacilityId, id);
  }

  lemma RemoveAbsentId(facilities: seq<EmergencyContact>, id: string)
    requires forall k :: 0 <= k < |facilities| ==> facilities[k].id != id
    ensures Remove(facilities, id) == facilities
  {
    Seqs.RemoveByKeyAbsent(facilities, FacilityId, id);
  }

  /** Adding under a fresh id, then removing that id, restores the list. */
  lemma AddThenRemove(facilities: seq<EmergencyContact>, draft: FacilityDraft, id: string)
    requires forall k :: 0 <= k < |facilities| ==> facilities[k].id != id
    ensures Remove(Add(facilities, draft, id), id) == facilities
  {
    Seqs.RemoveByKeyFreshHead(Listed(draft, id), facilities, FacilityId);
  }

  /** The add-facility form both dashboards use (distance is free text). */
  datatype FacilityForm = FacilityForm(name: string, number: string, kind: FacilityType, distance: string)

  const EmptyFacilityForm := FacilityForm("", "", Police, "")

  /** What submitting the form passes to the store: a blank distance becomes 'Unknown'. */
  function Submission(form: FacilityForm): (d: FacilityDraft)
    ensures d.name == form.name && d.number == form.number && d.kind == form.kind
    ensures d.distance == (if form.distance == "" then "Unknown" else form.distance)
    ensures d.distance != ""
  {
    FacilityDraft(form.name, form.number, form.kind, if form.distance == "" then "Unknown" else form.distance)
  }

  class FacilityDirectory {
    var facilities: seq<EmergencyContact>

    constructor ()
      ensures facilities == SeedFacilities
    {
      facilities := SeedFacilities;
    }

    /** `addFacility`. */
    method AddFacility(draft: FacilityDraft, id: string)
      modifies this
      ensures facilities == Add(old(facilities), draft, id)
    {
      facilities := [EmergencyContact(id, draft.name, draft.number, draft.kind, draft.distance)] + facilities;
    }

    /** `removeFacility`. */
    method RemoveFacility(id: string)
      modifies this
      ensures facilities == Remove(old(facilities), id)
    {
      facilities := Seqs.RemoveByKey(facilities, FacilityId, id);
    }
  }
}
