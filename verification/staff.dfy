/**
 * The staff portal's handlers (components/StaffDashboard.tsx): the attraction
 * form for creating and editing catalogue entries, the add-facility form and the
 * publish-advisory form. Each handler passes the form to its store and resets it.
 * Tabs, the static notification history and the confirmation dialog are left out.
 */
module StaffView {
  import opened Common
  import opened Domain
  import Attractions
  import Facilities
  import Advisories

  /** The attraction form: every field of an attraction except its id. */
  datatype AttractionForm = AttractionForm(
    name: string,
    category: Category,
    imageUrl: string,
    safetyLevel: SafetyLevel,
    description: string,
    rating: real)

  /** What `resetForm` and `handleCreateClick` load into the form. */
  const BlankAttractionForm := AttractionForm("", Nature, "", Safe, "", 4.5)

  function FormOf(a: Attraction): AttractionForm {
    AttractionForm(a.name, a.category, a.imageUrl, a.safetyLevel, a.description, a.rating)
  }

  /** The record an edit saves: the form as it stands, under the id being edited. */
  function Edited(form: AttractionForm, id: string): (a: Attraction)
    ensures FormOf(a) == form && a.id == id
  {
    Attraction(id, form.name, form.category, form.rating, form.imageUrl, form.safetyLevel, form.description)
  }

  /**
   * The record a create saves: the form's fields, with an empty name, image or
   * description replaced by its default, so none of the three is ever empty.
   */
  function Created(form: AttractionForm, id: string): (a: Attraction)
    ensures a.id == id && a.category == form.category && a.safetyLevel == form.safetyLevel
    ensures a.rating == form.rating
    ensures a.name == (if form.name == "" then "New Attraction" else form.name)
    ensures a.imageUrl == (if form.imageUrl == "" then "https://picsum.photos/400/300" else form.imageUrl)
    ensures a.description == (if form.description == "" then "No description provided." else form.description)
    ensures a.name != "" && a.imageUrl != "" && a.description != ""
  {
    Attraction(id, if form.name == "" then "New Attraction" else form.name, form.category, form.rating,
               if form.imageUrl == "" then "https://picsum.photos/400/300" else form.imageUrl,
               form.safetyLevel,
               if form.description == "" then "No description provided." else form.description)
  }

  /** Loading an attraction into the form and saving it unchanged gives the same record back. */
  lemma EditRoundTrip(a: Attraction)
    ensures Edited(FormOf(a), a.id) == a
  {
  }

  /** A form whose fields are all filled in is saved by create exactly as typed. */
  lemma CreateKeepsFilledForm(form: AttractionForm, id: string)
    requires form.name != "" && form.imageUrl != "" && form.description != ""
    ensures FormOf(Created(form, id)) == form
  {
  }

  /**
   * Opening an entry of a catalogue whose ids are distinct and saving it without
   * changes leaves the catalogue exactly as it was.
   */
  lemma UnchangedEditKeepsCatalogue(catalogue: seq<Attraction>, k: nat)
    requires k < |catalogue|
    requires forall i, j :: 0 <= i < j < |catalogue| ==> catalogue[i].id != catalogue[j].id
    ensures Attractions.Update(catalogue, Edited(FormOf(catalogue[k]), catalogue[k].id)) == catalogue
  {
    var updated := Edited(FormOf(catalogue[k]), catalogue[k].id);
    EditRoundTrip(catalogue[k]);
    var r := Attractions.Update(catalogue, updated);
    forall i | 0 <= i < |catalogue|
      ensures r[i] == catalogue[i]
    {
      if i != k {
        assert catalogue[i].id != updated.id;
      }
    }
  }

  /** An edit is under way only for a non-empty id (`editingId` is tested for truthiness). */
  predicate IsEditing(editingId: Option<string>) {
    editingId.Some? && editingId.value != ""
  }

  class StaffPortal {
    var formData: AttractionForm
    var editingId: Option<string>
    var showForm: bool
    var newFacility: Facilities.FacilityForm
    var alertForm: Advisories.AlertForm

    constructor ()
      ensures formData == BlankAttractionForm && editingId.None? && !showForm
      ensures newFacility == Facilities.EmptyFacilityForm && alertForm == Advisories.BlankAlertForm
    {
      formData := BlankAttractionForm;
      editingId := None;
      showForm := false;
      newFacility := Facilities.EmptyFacilityForm;
      alertForm := Advisories.BlankAlertForm;
    }

    /** `resetForm`: blank form, no edit, form hidden; the other forms are untouched. */
    method ResetForm()
      modifies this
      ensures formData == BlankAttractionForm && editingId.None? && !showForm
      ensures newFacility == old(newFacility) && alertForm == old(alertForm)
    {
      formData := AttractionForm("", Nature, "", Safe, "", 4.5);
      editingId := None;
      showForm := false;
    }

    /** `handleCreateClick`: blank form, no edit, form shown. */
    method HandleCreateClick()
      modifies this
      ensures formData == BlankAttractionForm && editingId.None? && showForm
      ensures newFacility == old(newFacility) && alertForm == old(alertForm)
    {
      formData := AttractionForm("", Nature, "", Safe, "", 4.5);
      editingId := None;
      showForm := true;
    }

    /** `handleEditClick`: the attraction's fields in the form, its id under edit, form shown. */
    method HandleEditClick(a: Attraction)
      modifies this
      ensures formData == FormOf(a) && editingId == Some(a.id) && showForm
      ensures newFacility == old(newFacility) && alertForm == old(alertForm)
    {
      formData := AttractionForm(a.name, a.category, a.imageUrl, a.safetyLevel, a.description, a.rating);
      editingId := Some(a.id);
      showForm := true;
    }

    /**
     * `handleSaveAttraction`: during an edit, replace the entries with the edited id
     * by the form (nothing is added); otherwise prepend one new attraction with the
     * defaults filled in. Either way the form is reset afterwards.
     */
    method HandleSaveAttraction(catalogue: Attractions.AttractionCatalogue, newId: string)
      modifies this, catalogue
      ensures IsEditing(old(editingId)) ==>
                catalogue.attractions == Attractions.Update(old(catalogue.attractions),
                                                            Edited(old(formData), old(editingId).value))
      ensures !IsEditing(old(editingId)) ==>
                catalogue.attractions == Attractions.Prepend(old(catalogue.attractions), Created(old(formData), newId))
      ensures formData == BlankAttractionForm && editingId.None? && !showForm
      ensures newFacility == old(newFacility) && alertForm == old(alertForm)
    {
      if editingId.Some? && editingId.value != "" {
        var updated := Attraction(editingId.value, formData.name, formData.category, formData.rating,
                                  formData.imageUrl, formData.safetyLevel, formData.description);
        catalogue.UpdateAttraction(updated);
      } else {
        var name := if formData.name == "" then "New Attraction" else formData.name;
        var imageUrl := if formData.imageUrl == "" then "https://picsum.photos/400/300" else formData.imageUrl;
        var description := if formData.description == "" then "No description provided." else formData.description;
        catalogue.AddAttraction(Attraction(newId, name, formData.category, formData.rating, imageUrl,
                                           formData.safetyLevel, description));
      }
      ResetForm();
    }

    /** `handleAddFacility`: pass the form (blank distance as 'Unknown'), then clear it. */
    method HandleAddFacility(directory: Facilities.FacilityDirectory, id: string)
      modifies this, directory
      ensures directory.facilities == Facilities.Add(old(directory.facilities), Facilities.Submission(old(newFacility)), id)
      ensures newFacility == Facilities.EmptyFacilityForm
      ensures formData == old(formData) && editingId == old(editingId) && showForm == old(showForm)
      ensures alertForm == old(alertForm)
    {
      directory.AddFacility(Facilities.Submission(newFacility), id);
      newFacility := Facilities.FacilityForm("", "", Police, "");
    }

    /** `handlePublishAlert`: publish the form's advisory, then clear it back to medium severity. */
    method HandlePublishAlert(board: Advisories.AdvisoryBoard, id: string, timestamp: string)
      modifies this, board
      ensures board.alerts == Advisories.Publish(old(board.alerts), Advisories.AlertDraftOf(old(alertForm)), id, timestamp)
      ensures alertForm == Advisories.BlankAlertForm
      ensures formData == old(formData) && editingId == old(editingId) && showForm == old(showForm)
      ensures newFacility == old(newFacility)
    {
      board.AddAlert(Advisories.AlertDraft(alertForm.title, alertForm.severity, alertForm.details,
                                           Some(alertForm.location)), id, timestamp);
      alertForm := Advisories.AlertForm("", Medium, "", "");
    }
  }
}
