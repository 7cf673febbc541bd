/**
 * The administrator's console (components/AdminDashboard.tsx): the age worked out
 * when an account is created, the user search with role and status filters, the
 * active-SOS list, and the create-user, add-facility and create-advisory forms.
 * Parsing the birthdate and reading today's date are left out: both dates arrive
 * as (year, month, day) triples.
 */
module AdminView {
  import opened Common
  import opened Domain
  import Auth
  import Facilities
  import Advisories
  import Seqs
  import Text

  /** A calendar date; months may be numbered from 0 or 1, as long as both dates agree. */
  datatype Ymd = Ymd(year: int, month: int, day: int)

  /** Is (y, m, d) on or before `today`, comparing year, then month, then day? */
  predicate OnOrBefore(y: int, m: int, d: int, today: Ymd) {
    y < today.year || (y == today.year && (m < today.month || (m == today.month && d <= today.day)))
  }

  /** Has the `n`-th anniversary of `birth` come by `today`? */
  predicate AnniversaryReached(birth: Ymd, n: int, today: Ymd) {
    OnOrBefore(birth.year + n, birth.month, birth.day, today)
  }

  /**
   * The age `handleCreateUser` stores: none for an empty birthdate; otherwise the
   * difference of the years, less one when today's (month, day) comes before the
   * birthday's. That is the number of the last anniversary reached by today.
   */
  method AgeFor(birthdate: string, birth: Ymd, today: Ymd) returns (age: Option<int>)
    ensures birthdate == "" <==> age.None?
    ensures age.Some? ==> AnniversaryReached(birth, age.value, today)
                          && !AnniversaryReached(birth, age.value + 1, today)
  {
    if birthdate == "" {
      return None;
    }
    var a := today.year - birth.year;
    var m := today.month - birth.month;
    if m < 0 || (m == 0 && today.day < birth.day) {
      a := a - 1;
    }
    age := Some(a);
  }

  /** Anniversaries are reached in order: reaching a later one means every earlier one was reached. */
  lemma AnniversariesInOrder(birth: Ymd, n: int, n': int, today: Ymd)
    requires n <= n' && AnniversaryReached(birth, n', today)
    ensures AnniversaryReached(birth, n, today)
  {
  }

  /** So there is only one age: the last anniversary reached is unique. */
  lemma AgeUnique(birth: Ymd, a: int, b: int, today: Ymd)
    requires AnniversaryReached(birth, a, today) && !AnniversaryReached(birth, a + 1, today)
    requires AnniversaryReached(birth, b, today) && !AnniversaryReached(birth, b + 1, today)
    ensures a == b
  {
    if a < b {
      AnniversariesInOrder(birth, a + 1, b, today);
    } else if b < a {
      AnniversariesInOrder(birth, b + 1, a, today);
    }
  }

  /** The search box: the lowered query occurs in the lowered name or the lowered e-mail. */
  predicate MatchesSearch(u: User, query: string) {
    Text.Contains(Text.ToLower(u.name), Text.ToLower(query)) || Text.Contains(Text.ToLower(u.email), Text.ToLower(query))
  }

  /** A filter that is `None` is the 'ALL' choice and lets everything through. */
  predicate MatchesRole(u: User, roleFilter: Option<Role>) {
    roleFilter.None? || u.role == roleFilter.value
  }

  /** An account without a status matches only 'ALL'. */
  predicate MatchesStatus(u: User, statusFilter: Option<AccountStatus>) {
    statusFilter.None? || u.status == Some(statusFilter.value)
  }

  function UserMatches(query: string, roleFilter: Option<Role>, statusFilter: Option<AccountStatus>): User -> bool {
    (u: User) => MatchesSearch(u, query) && MatchesRole(u, roleFilter) && MatchesStatus(u, statusFilter)
  }

  /** `filteredUsers`: the accounts, in list order, that pass the search and both filters. */
  function FilteredUsers(users: seq<User>, query: string, roleFilter: Option<Role>, statusFilter: Option<AccountStatus>): (r: seq<User>)
    ensures |r| <= |users|
    ensures forall k :: 0 <= k < |r| ==>
              r[k] in users && MatchesSearch(r[k], query) && MatchesRole(r[k], roleFilter) && MatchesStatus(r[k], statusFilter)
    ensures forall k :: 0 <= k < |users| ==>
              MatchesSearch(users[k], query) && MatchesRole(users[k], roleFilter) && MatchesStatus(users[k], statusFilter)
              ==> users[k] in r
  {
    Seqs.Filter(users, UserMatches(query, roleFilter, statusFilter))
  }

  /** With an empty search and both filters on 'ALL', every account is listed, in order. */
  lemma NoFiltersListsEveryone(users: seq<User>)
    ensures FilteredUsers(users, "", None, None) == users
  {
    forall k | 0 <= k < |users|
      ensures UserMatches("", None, None)(users[k])
    {
      Text.ContainsEmpty(Text.ToLower(users[k].name));
    }
    Seqs.FilterAllKept(users, UserMatches("", None, None));
  }

  /** The search keeps list order: filtering a concatenation filters each part. */
  lemma FilteredUsersKeepOrder(s: seq<User>, t: seq<User>, query: string, roleFilter: Option<Role>, statusFilter: Option<AccountStatus>)
    ensures FilteredUsers(s + t, query, roleFilter, statusFilter)
            == FilteredUsers(s, query, roleFilter, statusFilter) + FilteredUsers(t, query, roleFilter, statusFilter)
  {
    Seqs.FilterAppend(s, t, UserMatches(query, roleFilter, statusFilter));
  }

  /** The create-user form; it starts on role STAFF and status Active. */
  datatype NewUserForm = NewUserForm(
    name: string,
    email: string,
    role: Role,
    status: AccountStatus,
    phone: string,
    nationality: string,
    sex: string,
    birthdate: string)

  const BlankUserForm := NewUserForm("", "", Staff, Active, "", "", "", "")

  /** What `handleCreateUser` passes to `addUser`: every field of the form and the computed age. */
  function DraftOf(form: NewUserForm, age: Option<int>): (d: Auth.UserDraft)
    ensures d.name == form.name && d.email == form.email && d.role == form.role
    ensures d.status == Some(form.status) && d.phone == Some(form.phone)
    ensures d.nationality == Some(form.nationality) && d.sex == Some(form.sex)
    ensures d.birthdate == Some(form.birthdate) && d.age == age
  {
    Auth.UserDraft(form.name, form.email, form.role, Some(form.status), Some(form.phone), Some(form.nationality),
                   Some(form.sex), age, Some(form.birthdate))
  }

  class AdminConsole {
    var newUserForm: NewUserForm
    var showAddUser: bool
    var newFacility: Facilities.FacilityForm
    var newAlert: Advisories.AlertForm
    var showAddAlert: bool

    constructor ()
      ensures newUserForm == BlankUserForm && !showAddUser
      ensures newFacility == Facilities.EmptyFacilityForm
      ensures newAlert == Advisories.BlankAlertForm && !showAddAlert
    {
      newUserForm := BlankUserForm;
      showAddUser := false;
      newFacility := Facilities.EmptyFacilityForm;
      newAlert := Advisories.BlankAlertForm;
      showAddAlert := false;
    }

    /**
     * `handleCreateUser`: add one account built from the form, with the age for its
     * birthdate, then hide the dialog and reset the form to STAFF / Active.
     */
    method HandleCreateUser(auth: Auth.AuthSession, birth: Ymd, today: Ymd, newId: string)
      requires auth.Valid()
      modifies this, auth
      ensures auth.Valid()
      ensures exists age: Option<int> ::
                && (age.None? <==> old(newUserForm).birthdate == "")
                && (age.Some? ==> AnniversaryReached(birth, age.value, today) && !AnniversaryReached(birth, age.value + 1, today))
                && auth.allUsers == old(auth.allUsers) + [Auth.Enrolled(DraftOf(old(newUserForm), age), newId)]
      ensures auth.user == old(auth.user)
      ensures newUserForm == BlankUserForm && !showAddUser
      ensures newFacility == old(newFacility) && newAlert == old(newAlert) && showAddAlert == old(showAddAlert)
    {
      var age := AgeFor(newUserForm.birthdate, birth, today);
      auth.AddUser(DraftOf(newUserForm, age), newId);
      showAddUser := false;
      newUserForm := NewUserForm("", "", Staff, Active, "", "", "", "");
    }

    /** `handleAddFacility`: pass the form (blank distance as 'Unknown'), then clear it. */
    method HandleAddFacility(directory: Facilities.FacilityDirectory, id: string)
      modifies this, directory
      ensures directory.facilities == Facilities.Add(old(directory.facilities), Facilities.Submission(old(newFacility)), id)
      ensures newFacility == Facilities.EmptyFacilityForm
      ensures newUserForm == old(newUserForm) && showAddUser == old(showAddUser)
      ensures newAlert == old(newAlert) && showAddAlert == old(showAddAlert)
    {
      directory.AddFacility(Facilities.Submission(newFacility), id);
      newFacility := Facilities.FacilityForm("", "", Police, "");
    }

    /** `handleCreateAlert`: publish the form's advisory, hide the dialog, clear the form. */
    method HandleCreateAlert(board: Advisories.AdvisoryBoard, id: string, timestamp: string)
      modifies this, board
      ensures board.alerts == Advisories.Publish(old(board.alerts), Advisories.AlertDraftOf(old(newAlert)), id, timestamp)
      ensures newAlert == Advisories.BlankAlertForm && !showAddAlert
      ensures newUserForm == old(newUserForm) && showAddUser == old(showAddUser) && newFacility == old(newFacility)
    {
      board.AddAlert(Advisories.AlertDraft(newAlert.title, newAlert.severity, newAlert.details, Some(newAlert.location)),
                     id, timestamp);
      showAddAlert := false;
      newAlert := Advisories.AlertForm("", Medium, "", "");
    }
  }
}
