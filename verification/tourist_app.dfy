/**
 * The tourist-facing shell (App.tsx): which screen a session sees, the saved
 * personal contacts, the favourites list, the explore filter and the settings
 * toggles, together with the tree of store providers the app is mounted in.
 * Browser storage and JSON are reduced to their outcome; rendering is left out.
 */
module MainApp {
  import opened Common
  import opened Domain
  import Seqs
  import Text

  // ---------------------------------------------------------------- screens

  datatype Screen = SignIn | AdminHome | ResponderHome | StaffHome | TouristHome

  /** Signed out: the sign-in screen; otherwise the dashboard of the current role, TOURIST by default. */
  function ScreenFor(user: Option<User>): (r: Screen)
    ensures r == SignIn <==> user.None?
    ensures r == AdminHome <==> user.Some? && user.value.role == Admin
    ensures r == ResponderHome <==> user.Some? && user.value.role == Responder
    ensures r == StaffHome <==> user.Some? && user.value.role == Staff
    ensures r == TouristHome <==> user.Some? && user.value.role == Tourist
  {
    if user.None? then SignIn
    else
      match user.value.role
      case Admin => AdminHome
      case Responder => ResponderHome
      case Staff => StaffHome
      case Tourist => TouristHome
  }

  // -------------------------------------------------------------- providers

  /** The stores a component can ask for; asking outside a matching provider throws. */
  datatype Store = AuthStore | AdvisoryStore | AttractionStore | IncidentStore | FacilityStore | CallStore

  /** The providers `App` mounts, outermost first. */
  const MountedProviders: seq<Store> := [AuthStore, AdvisoryStore, AttractionStore, IncidentStore, FacilityStore]

  /** The same tree with the call provider mounted inside the auth provider it reads from. */
  const CorrectedProviders: seq<Store> := [AuthStore, CallStore, AdvisoryStore, AttractionStore, IncidentStore, FacilityStore]

  /** The stores a provider itself reads: the call provider needs the signed-in user. */
  function ProviderNeeds(p: Store): set<Store> {
    if p == CallStore then {AuthStore} else {}
  }

  /**
   * The stores read while a screen renders: the shell's own four, then the chosen
   * screen's; the tourist home always mounts the SOS overlay, which reads the call store.
   */
  function StoresRead(screen: Screen): set<Store> {
    {AuthStore, AdvisoryStore, AttractionStore, FacilityStore} +
    match screen
    case SignIn => {AuthStore}
    case AdminHome => {AuthStore, AdvisoryStore, IncidentStore, FacilityStore}
    case ResponderHome => {AuthStore, IncidentStore}
    case StaffHome => {AuthStore, AttractionStore, AdvisoryStore, FacilityStore}
    case TouristHome => {IncidentStore, AuthStore, FacilityStore, CallStore}
  }

  /** A screen renders without a missing-provider error under `tree`. */
  predicate Renders(tree: seq<Store>, screen: Screen) {
    && (forall s :: s in StoresRead(screen) ==> s in tree)
    && (forall i :: 0 <= i < |tree| ==> forall s :: s in ProviderNeeds(tree[i]) ==> s in tree[..i])
  }

  /**
   * As mounted, every signed-in TOURIST hits the missing call provider: the tourist
   * home cannot render, while every other screen can.
   */
  lemma TouristHomeThrowsAsMounted(user: User)
    requires user.role == Tourist
    ensures ScreenFor(Some(user)) == TouristHome
    ensures !Renders(MountedProviders, ScreenFor(Some(user)))
    ensures forall screen :: screen != TouristHome ==> Renders(MountedProviders, screen)
  {
    assert CallStore in StoresRead(TouristHome);
    MountedHasAllButCall();
    forall screen | screen != TouristHome
      ensures Renders(MountedProviders, screen)
    {
      assert CallStore !in StoresRead(screen);
    }
  }

  /** The mounted tree holds every store except the call store, and no mounted provider needs another. */
  lemma MountedHasAllButCall()
    ensures forall s :: s in MountedProviders <==> s != CallStore
    ensures forall i :: 0 <= i < |MountedProviders| ==> ProviderNeeds(MountedProviders[i]) == {}
  {
  }

  /** With the call provider mounted under the auth provider, every screen renders. */
  lemma EveryScreenRendersCorrected(screen: Screen)
    ensures Renders(CorrectedProviders, screen)
  {
    forall i | 0 <= i < |CorrectedProviders|
      ensures forall s :: s in ProviderNeeds(CorrectedProviders[i]) ==> s in CorrectedProviders[..i]
    {
      if i == 1 {
        assert CorrectedProviders[..1] == [AuthStore];
      }
    }
  }

  // ---------------------------------------------------------------- contacts

  /** The add-contact form. */
  datatype ContactForm = ContactForm(name: string, number: string, relation: string)

  const BlankContactForm := ContactForm("", "", "")

  /** The contact a filled-in form saves: its fields, with relation 'Friend' when left empty. */
  function Saved(form: ContactForm, id: string): (c: PersonalContact)
    ensures c.id == id && c.name == form.name && c.number == form.number
    ensures c.relation == (if form.relation == "" then "Friend" else form.relation)
  {
    PersonalContact(id, form.name, form.number, if form.relation == "" then "Friend" else form.relation)
  }

  /** Saving a form needs both a name and a number. */
  predicate Complete(form: ContactForm) {
    form.name != "" && form.number != ""
  }

  /** The list after `handleAddContact`: unchanged for an incomplete form, else one contact appended. */
  function AddContact(contacts: seq<PersonalContact>, form: ContactForm, id: string): (r: seq<PersonalContact>)
    ensures !Complete(form) ==> r == contacts
    ensures Complete(form) ==> |r| == |contacts| + 1 && r[..|contacts|] == contacts && r[|contacts|] == Saved(form, id)
  {
    if !Complete(form) then contacts else contacts + [Saved(form, id)]
  }

  function ContactId(c: PersonalContact): string {
    c.id
  }

  /** `handleDeleteContact`: every contact with the id goes, the rest keep their order. */
  function DeleteContact(contacts: seq<PersonalContact>, id: string): (r: seq<PersonalContact>)
    ensures |r| <= |contacts|
    ensures forall k :: 0 <= k < |r| ==> r[k] in contacts && r[k].id != id
    ensures forall k :: 0 <= k < |contacts| && contacts[k].id != id ==> contacts[k] in r
  {
    Seqs.RemoveByKey(contacts, ContactId, id)
  }

  /** Adding a contact under an id no contact has, then deleting that id, restores the list. */
  lemma AddThenDeleteContact(contacts: seq<PersonalContact>, form: ContactForm, id: string)
    requires forall k :: 0 <= k < |contacts| ==> contacts[k].id != id
    ensures DeleteContact(AddContact(contacts, form, id), id) == contacts
  {
    if Complete(form) {
      Seqs.RemoveByKeyFreshLast(contacts, Saved(form, id), ContactId);
    } else {
      Seqs.RemoveByKeyAbsent(contacts, ContactId, id);
    }
  }

  lemma DeleteContactIdempotent(contacts: seq<PersonalContact>, id: string)
    ensures DeleteContact(DeleteContact(contacts, id), id) == DeleteContact(contacts, id)
  {
    Seqs.RemoveByKeyIdempotent(contacts, ContactId, id);
  }

  /**
   * The saved contacts at start-up: `stored` is the storage entry, `parsed` what
   * parsing it gave (`None` when parsing failed). A missing or empty entry and an
   * unreadable one all give the empty list; only a readable entry gives its contents.
   */
  function LoadContacts(stored: Option<string>, parsed: Option<seq<PersonalContact>>): (r: seq<PersonalContact>)
    ensures stored.None? || stored == Some("") || parsed.None? ==> r == []
    ensures stored.Some? && stored.value != "" && parsed.Some? ==> r == parsed.value
  {
    if stored.None? || stored.value == "" then []
    else if parsed.None? then []
    else parsed.value
  }

  /** The contact list the shell keeps, and the profile screen's add-contact form. */
  class ContactBook {
    var personalContacts: seq<PersonalContact>
    var newContact: ContactForm
    var isAddingContact: bool

    constructor (stored: Option<string>, parsed: Option<seq<PersonalContact>>)
      ensures personalContacts == LoadContacts(stored, parsed)
      ensures newContact == BlankContactForm && !isAddingContact
    {
      personalContacts := LoadContacts(stored, parsed);
      newContact := BlankContactForm;
      isAddingContact := false;
    }

    /** `handleAddContact`: with a name and a number, append one contact and close the cleared form. */
    method HandleAddContact(id: string)
      modifies this
      ensures personalContacts == AddContact(old(personalContacts), old(newContact), id)
      ensures !Complete(old(newContact)) ==> newContact == old(newContact) && isAddingContact == old(isAddingContact)
      ensures Complete(old(newContact)) ==> newContact == BlankContactForm && !isAddingContact
    {
      if newContact.name == "" || newContact.number == "" {
        return;
      }
      var contact := PersonalContact(id, newContact.name, newContact.number,
                                     if newContact.relation == "" then "Friend" else newContact.relation);
      personalContacts := personalContacts + [contact];
      newContact := ContactForm("", "", "");
      isAddingContact := false;
    }

    /** `handleDeleteContact`. */
    method HandleDeleteContact(id: string)
      modifies this
      ensures personalContacts == DeleteContact(old(personalContacts), id)
      ensures newContact == old(newContact) && isAddingContact == old(isAddingContact)
    {
      personalContacts := Seqs.RemoveByKey(personalContacts, ContactId, id);
    }
  }

  // --------------------------------------------------------------- favourites

  function NotId(id: string): string -> bool {
    (x: string) => x != id
  }

  /** `toggleFavorite`'s new list: a present id is taken out, an absent one appended. */
  function ToggledFavorite(favorites: seq<string>, id: string): (r: seq<string>)
    ensures id in r <==> id !in favorites
    ensures forall x :: x != id ==> (x in r <==> x in favorites)
  {
    if id in favorites then Seqs.Filter(favorites, NotId(id)) else favorites + [id]
  }

  /**
   * Toggling twice restores membership of every id; when the id was absent it restores
   * the list exactly. Toggling never creates a repeated id.
   */
  lemma ToggleFavoriteTwice(favorites: seq<string>, id: string)
    ensures forall x :: x in ToggledFavorite(ToggledFavorite(favorites, id), id) <==> x in favorites
    ensures id !in favorites ==> ToggledFavorite(ToggledFavorite(favorites, id), id) == favorites
  {
    if id !in favorites {
      Seqs.FilterAppend(favorites, [id], NotId(id));
      Seqs.FilterAllKept(favorites, NotId(id));
      assert Seqs.Filter([id], NotId(id)) == [];
    }
  }

  lemma ToggleFavoriteKeepsDistinct(favorites: seq<string>, id: string)
    requires Seqs.Distinct(favorites)
    ensures Seqs.Distinct(ToggledFavorite(favorites, id))
  {
    if id in favorites {
      Seqs.FilterKeepsDistinct(favorites, NotId(id));
    }
  }

  // ------------------------------------------------------------------ explore

  /** The category chips: 'All', 'Favorites', or one category. */
  datatype ExploreCategory = AllCategories | FavoritesOnly | OfCategory(category: Category)

  predicate InCategory(a: Attraction, choice: ExploreCategory, favorites: seq<string>) {
    match choice
    case AllCategories => true
    case FavoritesOnly => a.id in favorites
    case OfCategory(c) => a.category == c
  }

  predicate MatchesName(a: Attraction, query: string) {
    Text.Contains(Text.ToLower(a.name), Text.ToLower(query))
  }

  function ExploreMatches(query: string, choice: ExploreCategory, favorites: seq<string>): Attraction -> bool {
    (a: Attraction) => MatchesName(a, query) && InCategory(a, choice, favorites)
  }

  /** The explore list: the attractions, in order, whose name contains the query and whose category chip matches. */
  function Explore(attractions: seq<Attraction>, query: string, choice: ExploreCategory, favorites: seq<string>): (r: seq<Attraction>)
    ensures |r| <= |attractions|
    ensures forall k :: 0 <= k < |r| ==>
              r[k] in attractions && MatchesName(r[k], query) && InCategory(r[k], choice, favorites)
    ensures forall k :: 0 <= k < |attractions| ==>
              MatchesName(attractions[k], query) && InCategory(attractions[k], choice, favorites) ==> attractions[k] in r
  {
    Seqs.Filter(attractions, ExploreMatches(query, choice, favorites))
  }

  /** An empty search on 'All' lists the whole catalogue in order. */
  lemma ExploreEverything(attractions: seq<Attraction>, favorites: seq<string>)
    ensures Explore(attractions, "", AllCategories, favorites) == attractions
  {
    forall k | 0 <= k < |attractions|
      ensures ExploreMatches("", AllCategories, favorites)(attractions[k])
    {
      Text.ContainsEmpty(Text.ToLower(attractions[k].name));
    }
    Seqs.FilterAllKept(attractions, ExploreMatches("", AllCategories, favorites));
  }

  /** The explore list keeps catalogue order: filtering a concatenation filters each part. */
  lemma ExploreKeepsOrder(s: seq<Attraction>, t: seq<Attraction>, query: string, choice: ExploreCategory, favorites: seq<string>)
    ensures Explore(s + t, query, choice, favorites) == Explore(s, query, choice, favorites) + Explore(t, query, choice, favorites)
  {
    Seqs.FilterAppend(s, t, ExploreMatches(query, choice, favorites));
  }

  // ----------------------------------------------------------------- settings

  datatype SettingKey = PushNotifications | EmailAlerts | EmergencyAlerts | LocationSharing | DataCollection | PublicProfile

  datatype Settings = Settings(
    pushNotifications: bool,
    emailAlerts: bool,
    emergencyAlerts: bool,
    locationSharing: bool,
    dataCollection: bool,
    publicProfile: bool)
  {
    function Get(key: SettingKey): bool {
      match key
      case PushNotifications => pushNotifications
      case EmailAlerts => emailAlerts
      case EmergencyAlerts => emergencyAlerts
      case LocationSharing => locationSharing
      case DataCollection => dataCollection
      case PublicProfile => publicProfile
    }
  }

  const InitialSettings := Settings(true, false, true, true, false, false)

  /** `toggle(key)`: the named switch flips, the other five keep their value. */
  function Toggled(s: Settings, key: SettingKey): (r: Settings)
    ensures r.Get(key) == !s.Get(key)
    ensures forall other :: other != key ==> r.Get(other) == s.Get(other)
  {
    match key
    case PushNotifications => s.(pushNotifications := !s.pushNotifications)
    case EmailAlerts => s.(emailAlerts := !s.emailAlerts)
    case EmergencyAlerts => s.(emergencyAlerts := !s.emergencyAlerts)
    case LocationSharing => s.(locationSharing := !s.locationSharing)
    case DataCollection => s.(dataCollection := !s.dataCollection)
    case PublicProfile => s.(publicProfile := !s.publicProfile)
  }

  /** Settings are determined by their six switches. */
  lemma SettingsExtensional(s: Settings, t: Settings)
    requires forall key :: s.Get(key) == t.Get(key)
    ensures s == t
  {
    assert s.Get(PushNotifications) == t.Get(PushNotifications);
    assert s.Get(EmailAlerts) == t.Get(EmailAlerts);
    assert s.Get(EmergencyAlerts) == t.Get(EmergencyAlerts);
    assert s.Get(LocationSharing) == t.Get(LocationSharing);
    assert s.Get(DataCollection) == t.Get(DataCollection);
    assert s.Get(PublicProfile) == t.Get(PublicProfile);
  }

  /** Toggling a switch twice restores the settings. */
  lemma ToggleTwiceRestores(s: Settings, key: SettingKey)
    ensures Toggled(Toggled(s, key), key) == s
  {
    var t := Toggled(Toggled(s, key), key);
    forall k
      ensures t.Get(k) == s.Get(k)
    {
      var once := Toggled(s, key);
      if k == key {
        assert once.Get(k) == !s.Get(k);
      } else {
        assert once.Get(k) == s.Get(k);
      }
    }
    SettingsExtensional(t, s);
  }

  class SettingsPanel {
    var settings: Settings

    constructor ()
      ensures settings == InitialSettings
    {
      settings := InitialSettings;
    }

    method Toggle(key: SettingKey)
      modifies this
      ensures settings == Toggled(old(settings), key)
    {
      settings := Toggled(settings, key);
    }
  }

  /** The favourites the shell keeps. */
  class FavoriteList {
    var favorites: seq<string>

    constructor ()
      ensures favorites == []
    {
      favorites := [];
    }

    method ToggleFavorite(id: string)
      modifies this
      ensures favorites == ToggledFavorite(old(favorites), id)
    {
      if id in favorites {
        favorites := Seqs.Filter(favorites, NotId(id));
      } else {
        favorites := favorites + [id];
      }
    }
  }
}
