/**
 * The responder's dashboard (components/ResponderDashboard.tsx): the active list,
 * which incident the detail card shows, resolving it, the incident log and the
 * map query for navigation. Opening the map is left out; the query is returned.
 */
module ResponderView {
  import opened Common
  import opened Domain
  import Incidents
  import Seqs
  import Sos
  import Text

  /** A selection counts only when it is a non-empty id (`null` and `''` are both falsy). */
  predicate IsSelected(selected: Option<string>) {
    selected.Some? && selected.value != ""
  }

  function HasId(id: string): Incident -> bool {
    (inc: Incident) => inc.id == id
  }

  /**
   * The incident the detail card shows: the first one with the selected id when an
   * id is selected (none if no incident has it), otherwise the first incident that
   * is not resolved, otherwise none.
   */
  function CurrentIncident(incidents: seq<Incident>, selected: Option<string>): (r: Option<Incident>)
    ensures IsSelected(selected) ==>
              && (r.None? <==> forall k :: 0 <= k < |incidents| ==> incidents[k].id != selected.value)
              && (r.Some? ==> exists k :: 0 <= k < |incidents| && incidents[k] == r.value
                                          && r.value.id == selected.value
                                          && forall j :: 0 <= j < k ==> incidents[j].id != selected.value)
    ensures !IsSelected(selected) ==>
              && (r.None? <==> forall k :: 0 <= k < |incidents| ==> incidents[k].status == Resolved)
              && (r.Some? ==> exists k :: 0 <= k < |incidents| && incidents[k] == r.value
                                          && r.value.status != Resolved
                                          && forall j :: 0 <= j < k ==> incidents[j].status == Resolved)
  {
    if IsSelected(selected) then
      Seqs.Find(incidents, HasId(selected.value))
    else
      var active := Incidents.Unresolved(incidents);
      Seqs.FilterHeadIsFind(incidents, Incidents.IsOpen);
      if |active| > 0 then Some(active[0]) else None
  }

  /**
   * The "Incoming Alerts" picker: shown when more than one incident is active and
   * none is selected. Whenever it shows, the detail card shows an active incident.
   */
  function ShowsIncomingAlerts(incidents: seq<Incident>, selected: Option<string>): (r: bool)
    ensures r <==> !IsSelected(selected) && |Incidents.Unresolved(incidents)| > 1
    ensures r ==> var cur := CurrentIncident(incidents, selected);
                  cur.Some? && cur.value in incidents && cur.value.status != Resolved
  {
    |Incidents.Unresolved(incidents)| > 1 && !IsSelected(selected)
  }

  /** What the map search is for: the incident's coordinates, or a place name. */
  datatype MapQuery = ByCoordinates(lat: real, lng: real) | ByPlace(text: string)

  /** The location text with the first "(Simulated)" taken out, trimmed, and placed in Cebu. */
  function PlaceText(location: string): (r: string)
    ensures |r| >= 6 && r[|r| - 6..] == ", Cebu"
    ensures r[..|r| - 6] == Text.Trim(Text.ReplaceFirst(location, "(Simulated)", ""))
  {
    var core := Text.Trim(Text.ReplaceFirst(location, "(Simulated)", ""));
    assert (core + ", Cebu")[..|core|] == core;
    core + ", Cebu"
  }

  function NavigationQuery(inc: Incident): MapQuery {
    if inc.coordinates.Some? then ByCoordinates(inc.coordinates.value.lat, inc.coordinates.value.lng)
    else ByPlace(PlaceText(inc.location))
  }

  /**
   * A place name followed by the overlay's " (Simulated)" marker is searched as that
   * name in Cebu, provided the name holds no '(' (so the marker's first occurrence is
   * the one at the end) and does not start or end with a blank (so trimming keeps it).
   */
  lemma SimulatedPlaceQuery(place: string)
    requires forall k :: 0 <= k < |place| ==> place[k] != '('
    requires place != [] ==> !Text.IsBlank(place[0]) && !Text.IsBlank(place[|place| - 1])
    ensures PlaceText(place + " (Simulated)") == place + ", Cebu"
  {
    var loc := place + " (Simulated)";
    var marker := "(Simulated)";
    assert loc[|place| + 1..] == marker;
    assert Text.OccursAt(loc, marker, |place| + 1);
    forall j | 0 <= j < |place| + 1
      ensures !Text.OccursAt(loc, marker, j)
    {
      assert loc[j] == if j < |place| then place[j] else ' ';
      assert j + |marker| <= |loc| ==> loc[j..j + |marker|][0] == loc[j];
    }
    assert Text.IndexOf(loc, marker) == |place| + 1;
    assert loc[..|place| + 1] == place + " ";
    assert Text.ReplaceFirst(loc, marker, "") == place + " ";
    BlankEndTrimmed(place);
    var r := PlaceText(loc);
    assert r == r[..|r| - 6] + r[|r| - 6..];
  }

  /** Trimming a name with non-blank ends and one trailing blank gives the name back. */
  lemma BlankEndTrimmed(place: string)
    requires place != [] ==> !Text.IsBlank(place[0]) && !Text.IsBlank(place[|place| - 1])
    ensures Text.Trim(place + " ") == place
  {
    var s := place + " ";
    if place == [] {
      assert Text.TrimStart(s) == Text.TrimStart(s[1..]);
      assert s[1..] == [];
    } else {
      assert s[0] == place[0];
      assert Text.TrimStart(s) == s;
      assert s[..|s| - 1] == place;
      assert Text.TrimEnd(s) == Text.TrimEnd(place);
    }
  }

  /** Every SOS report, which carries no coordinates, is searched as "Current GPS Location, Cebu". */
  lemma SosIncidentQuery(user: User, time: string, id: string)
    ensures NavigationQuery(Incidents.Filed(Sos.SosReport(user, time), id)) == ByPlace("Current GPS Location, Cebu")
  {
    var inc := Incidents.Filed(Sos.SosReport(user, time), id);
    GpsPlaceName("Current GPS Location");
    SimulatedPlaceQuery("Current GPS Location");
    assert inc.location == "Current GPS Location" + " (Simulated)";
    assert PlaceText(inc.location) == "Current GPS Location" + ", Cebu";
  }

  /** The overlay's place name has no '(', non-blank ends, and spells the two texts around it. */
  lemma GpsPlaceName(place: string)
    requires place == "Current GPS Location"
    ensures forall k :: 0 <= k < |place| ==> place[k] != '('
    ensures place != [] && !Text.IsBlank(place[0]) && !Text.IsBlank(place[|place| - 1])
    ensures place + " (Simulated)" == "Current GPS Location (Simulated)"
    ensures place + ", Cebu" == "Current GPS Location, Cebu"
  {
  }

  class ResponderDashboard {
    var selectedIncidentId: Option<string>

    constructor ()
      ensures selectedIncidentId.None?
    {
      selectedIncidentId := None;
    }

    /** A tap on an entry of the picker. */
    method SelectIncident(id: string)
      modifies this
      ensures selectedIncidentId == Some(id)
    {
      selectedIncidentId := Some(id);
    }

    /**
     * `handleResolve`: when the card shows an incident, resolve its id and clear the
     * selection; otherwise change nothing.
     */
    method HandleResolve(registry: Incidents.IncidentRegistry)
      modifies this, registry
      ensures var cur := CurrentIncident(old(registry.incidents), old(selectedIncidentId));
              if cur.Some? then
                registry.incidents == Incidents.WithStatus(old(registry.incidents), cur.value.id, Resolved)
                && selectedIncidentId.None?
              else
                registry.incidents == old(registry.incidents) && selectedIncidentId == old(selectedIncidentId)
    {
      var cur := CurrentIncident(registry.incidents, selectedIncidentId);
      if cur.Some? {
        registry.ResolveIncident(cur.value.id);
        selectedIncidentId := None;
      }
    }

    /** `handleNavigate`: nothing without a current incident, otherwise its map query. */
    method HandleNavigate(incidents: seq<Incident>) returns (query: Option<MapQuery>)
      ensures var cur := CurrentIncident(incidents, selectedIncidentId);
              query == if cur.None? then None else Some(NavigationQuery(cur.value))
    {
      var cur := CurrentIncident(incidents, selectedIncidentId);
      if cur.None? {
        return None;
      }
      var url: MapQuery;
      if cur.value.coordinates.Some? {
        url := ByCoordinates(cur.value.coordinates.value.lat, cur.value.coordinates.value.lng);
      } else {
        var locationQuery := Text.Trim(Text.ReplaceFirst(cur.value.location, "(Simulated)", ""));
        url := ByPlace(locationQuery + ", Cebu");
      }
      query := Some(url);
    }
  }

  /** After resolving, the incident the card showed has left the active list. */
  lemma ResolvedLeavesActiveList(incidents: seq<Incident>, id: string)
    ensures forall k :: 0 <= k < |Incidents.Unresolved(Incidents.WithStatus(incidents, id, Resolved))| ==>
              Incidents.Unresolved(Incidents.WithStatus(incidents, id, Resolved))[k].id != id
  {
  }
}
