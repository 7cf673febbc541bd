/**
 * Accounts and sign-in (contexts/AuthContext.tsx): the signed-in user, the list of
 * all accounts, self-registration with a role derived from the e-mail address,
 * accounts created by an administrator, role switching and sign-out. The
 * simulated network delay is left out; generated ids are parameters.
 */
module Auth {
  import opened Common
  import opened Domain
  import Seqs
  import Text

  function Account(id: string, name: string, email: string, role: Role, allowed: seq<Role>, status: AccountStatus): User {
    User(id, name, email, role, allowed, Some(status), None, None, None, None, None)
  }

  const InitialUsers: seq<User> := [
    Account("1", "Maria Santos", "m.santos@email.com", Responder, [Responder], Active),
    Account("2", "John Doe", "tourist1@email.com", Tourist, [Tourist], Active),
    Account("3", "Staff User", "staff@cebusafe.com", Staff, [Staff], Active),
    Account("4", "Jane Smith", "jane.s@email.com", Tourist, [Tourist], Suspended),
    Account("5", "Admin User", "admin@cebu.gov", Admin, [Admin, Staff, Responder, Tourist], Active)
  ]

  function SameEmail(email: string): User -> bool {
    (u: User) => Text.ToLower(u.email) == Text.ToLower(email)
  }

  /** The first account whose e-mail equals `email` ignoring case, if there is one. */
  function LookupByEmail(users: seq<User>, email: string): (r: Option<User>)
    ensures r.None? <==> forall k :: 0 <= k < |users| ==> Text.ToLower(users[k].email) != Text.ToLower(email)
    ensures r.Some? ==> exists k :: 0 <= k < |users| && users[k] == r.value
                                    && Text.ToLower(users[k].email) == Text.ToLower(email)
                                    && forall j :: 0 <= j < k ==> Text.ToLower(users[j].email) != Text.ToLower(email)
  {
    Seqs.Find(users, SameEmail(email))
  }

  predicate MentionsAdmin(email: string) {
    Text.Contains(Text.ToLower(email), "admin@cebu.gov")
  }

  predicate MentionsRescue(email: string) {
    Text.Contains(Text.ToLower(email), "rescue@cebu.gov")
  }

  predicate MentionsStaff(email: string) {
    Text.Contains(Text.ToLower(email), "staff@cebu.gov")
  }

  /**
   * The role a self-registered account gets from its e-mail address: the admin
   * marker wins over the rescue marker, which wins over the staff marker; no
   * marker means TOURIST.
   */
  function SelfSignupRole(email: string): (r: Role)
    ensures r == Admin <==> MentionsAdmin(email)
    ensures r == Responder <==> !MentionsAdmin(email) && MentionsRescue(email)
    ensures r == Staff <==> !MentionsAdmin(email) && !MentionsRescue(email) && MentionsStaff(email)
    ensures r == Tourist <==> !MentionsAdmin(email) && !MentionsRescue(email) && !MentionsStaff(email)
  {
    if MentionsAdmin(email) then Admin
    else if MentionsRescue(email) then Responder
    else if MentionsStaff(email) then Staff
    else Tourist
  }

  /**
   * The roles an account with primary role `role` may switch between: the role
   * itself first, TOURIST always, no role twice, and every role for an ADMIN.
   */
  function GrantedRoles(role: Role): (r: seq<Role>)
    ensures |r| > 0 && r[0] == role && Tourist in r
    ensures forall i, j :: 0 <= i < j < |r| ==> r[i] != r[j]
    ensures role == Admin ==> (set x | x in r) == {Admin, Staff, Responder, Tourist}
    ensures role != Admin ==> (set x | x in r) == {role, Tourist}
  {
    if role == Admin then [Admin, Staff, Responder, Tourist]
    else if role == Tourist then [Tourist]
    else [role, Tourist]
  }

  /** `addUser`'s computation of `allowedRoles`: start from the role, push TOURIST, widen for ADMIN. */
  method BuildAllowedRoles(role: Role) returns (allowed: seq<Role>)
    ensures allowed == GrantedRoles(role)
  {
    allowed := [role];
    if Tourist !in allowed {
      allowed := allowed + [Tourist];
    }
    if role == Admin {
      allowed := [Admin, Staff, Responder, Tourist];
    }
  }

  /** The account `login` creates for an e-mail address no account has. */
  function SelfRegistered(email: string, name: string, id: string): (u: User)
    ensures u.id == id && u.email == email && u.status == Some(Active)
    ensures u.name == if name == "" then "User" else name
    ensures u.role == SelfSignupRole(email) && u.allowedRoles == GrantedRoles(u.role)
  {
    var role := SelfSignupRole(email);
    Account(id, if name == "" then "User" else name, email, role, GrantedRoles(role), Active)
  }

  /** A self-registered account can always act in its own role and as a tourist. */
  lemma SelfRegisteredRoles(email: string, name: string, id: string)
    ensures var u := SelfRegistered(email, name, id);
            u.role in u.allowedRoles && Tourist in u.allowedRoles
  {
  }

  /** The fields an administrator fills in: an account without `id` and `allowedRoles`. */
  datatype UserDraft = UserDraft(
    name: string,
    email: string,
    role: Role,
    status: Option<AccountStatus>,
    phone: Option<string>,
    nationality: Option<string>,
    sex: Option<string>,
    age: Option<int>,
    birthdate: Option<string>)

  /** The account `addUser` stores: the draft as given, a generated id, its granted roles, Active by default. */
  function Enrolled(draft: UserDraft, id: string): (u: User)
    ensures u.id == id && u.name == draft.name && u.email == draft.email && u.role == draft.role
    ensures u.allowedRoles == GrantedRoles(draft.role)
    ensures u.status == Some(draft.status.GetOr(Active))
    ensures u.phone == draft.phone && u.nationality == draft.nationality && u.sex == draft.sex
    ensures u.age == draft.age && u.birthdate == draft.birthdate
  {
    User(id, draft.name, draft.email, draft.role, GrantedRoles(draft.role), Some(draft.status.GetOr(Active)),
         draft.phone, draft.nationality, draft.sex, draft.age, draft.birthdate)
  }

  predicate RoleAllowed(u: User) {
    u.role in u.allowedRoles
  }

  class AuthSession {
    var user: Option<User>
    var allUsers: seq<User>

    /** Every account, and the signed-in user, acts in one of its allowed roles. */
    ghost predicate Valid()
      reads this
    {
      && (forall k :: 0 <= k < |allUsers| ==> RoleAllowed(allUsers[k]))
      && (user.Some? ==> RoleAllowed(user.value))
    }

    constructor ()
      ensures Valid() && user.None? && allUsers == InitialUsers
    {
      user := None;
      allUsers := InitialUsers;
    }

    function IsAuthenticated(): bool
      reads this
    {
      user.Some?
    }

    /**
     * `login`: an existing account (matched ignoring case) becomes the current user
     * and the account list is untouched; an unknown address registers one new
     * account at the end of the list and signs it in.
     */
    method Login(email: string, name: string, newId: string)
      requires Valid()
      modifies this
      ensures Valid()
      ensures var found := LookupByEmail(old(allUsers), email);
              if found.Some? then user == found && allUsers == old(allUsers)
              else user == Some(SelfRegistered(email, name, newId))
                   && allUsers == old(allUsers) + [SelfRegistered(email, name, newId)]
    {
      var existing := LookupByEmail(allUsers, email);
      if existing.Some? {
        ghost var k :| 0 <= k < |allUsers| && allUsers[k] == existing.value;
        user := existing;
        return;
      }
      var role := Tourist;
      var allowed := [Tourist];
      var lowered := Text.ToLower(email);
      if Text.Contains(lowered, "admin@cebu.gov") {
        role := Admin;
        allowed := [Admin, Staff, Responder, Tourist];
      } else if Text.Contains(lowered, "rescue@cebu.gov") {
        role := Responder;
        allowed := [Responder, Tourist];
      } else if Text.Contains(lowered, "staff@cebu.gov") {
        role := Staff;
        allowed := [Staff, Tourist];
      }
      var newUser := Account(newId, if name == "" then "User" else name, email, role, allowed, Active);
      allUsers := allUsers + [newUser];
      user := Some(newUser);
    }

    /** `addUser`: one account appended; who is signed in does not change. */
    method AddUser(draft: UserDraft, newId: string)
      requires Valid()
      modifies this
      ensures Valid()
      ensures allUsers == old(allUsers) + [Enrolled(draft, newId)]
      ensures user == old(user)
    {
      var allowed := BuildAllowedRoles(draft.role);
      var status := if draft.status.Some? then draft.status.value else Active;
      var newUser := User(newId, draft.name, draft.email, draft.role, allowed, Some(status),
                          draft.phone, draft.nationality, draft.sex, draft.age, draft.birthdate);
      allUsers := allUsers + [newUser];
    }

    /** `logout`. */
    method Logout()
      requires Valid()
      modifies this
      ensures Valid() && !IsAuthenticated() && allUsers == old(allUsers)
    {
      user := None;
    }

    /**
     * `switchRole`: only the signed-in user's `role` changes, and only to one of its
     * allowed roles; otherwise nothing happens. The account list is never touched.
     */
    method SwitchRole(newRole: Role)
      requires Valid()
      modifies this
      ensures Valid()
      ensures allUsers == old(allUsers)
      ensures if old(user).Some? && newRole in old(user).value.allowedRoles
              then user == Some(old(user).value.(role := newRole))
              else user == old(user)
    {
      if user.Some? && newRole in user.value.allowedRoles {
        user := Some(user.value.(role := newRole));
      }
    }
  }
}
