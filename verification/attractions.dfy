/**
 * The attraction catalogue (contexts/AttractionContext.tsx): adding prepends the
 * given record as it is (no duplicate-id check); updating replaces every entry
 * whose id matches the given record's.
 */
module Attractions {
  import opened Domain
  import Seqs

  function Prepend(attractions: seq<Attraction>, a: Attraction): (r: seq<Attraction>)
    ensures |r| == |attractions| + 1 && r[0] == a && r[1..] == attractions
  {
    [a] + attractions
  }

  function ReplaceById(updated: Attraction): Attraction -> Attraction {
    (a: Attraction) => if a.id == updated.id then updated else a
  }

  /**
   * `attractions.map(a => a.id === updated.id ? updated : a)`: same length and
   * order; matching entries become `updated`, the others stay identical.
   */
  function Update(attractions: seq<Attraction>, updated: Attraction): (r: seq<Attraction>)
    ensures |r| == |attractions|
    ensures forall k :: 0 <= k < |r| && attractions[k].id == updated.id ==> r[k] == updated
    ensures forall k :: 0 <= k < |r| && attractions[k].id != updated.id ==> r[k] == attractions[k]
  {
    Seqs.Map(attractions, ReplaceById(updated))
  }

  lemma UpdateAbsentId(attractions: seq<Attraction>, updated: Attraction)
    requires forall k :: 0 <= k < |attractions| ==> attractions[k].id != updated.id
    ensures Update(attractions, updated) == attractions
  {
  }

  lemma UpdateIdempotent(attractions: seq<Attraction>, updated: Attraction)
    ensures Update(Update(attractions, updated), updated) == Update(attractions, updated)
  {
  }

  /** After an update the record is found under its id, and only it. */
  lemma UpdateThenLookup(attractions: seq<Attraction>, updated: Attraction, k: nat)
    requires k < |attractions|
    ensures Update(attractions, updated)[k].id == updated.id <==> attractions[k].id == updated.id
  {
  }

  class AttractionCatalogue {
    var attractions: seq<Attraction>

    constructor ()
      ensures attractions == SeedAttractions
    {
      attractions := SeedAttractions;
    }

    /** `addAttraction`. */
    method AddAttraction(a: Attraction)
      modifies this
      ensures attractions == Prepend(old(attractions), a)
    {
      attractions := [a] + attractions;
    }

    /** `updateAttraction`. */
    method UpdateAttraction(updated: Attraction)
      modifies this
      ensures attractions == Update(old(attractions), updated)
    {
      attractions := Seqs.Map(attractions, ReplaceById(updated));
    }
  }
}
