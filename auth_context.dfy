/** The browser-local account store: registered users keyed by e-mail,
    persisted under one storage key and read afresh by every operation, and
    the signed-in profile, persisted under another. */
module Auth {
  import opened Wrappers

  /** A registered user as the store keeps it, password included. */
  datatype UserRecord = UserRecord(name: string, email: string, password: string, country: string, photo: Option<string>)

  /** The signed-in user as the application sees it: no password. */
  datatype Profile = Profile(name: string, email: string, country: string, photo: Option<string>)

  /** A partial profile: the fields present override, the others stay. */
  datatype ProfilePatch = ProfilePatch(name: Option<string>, email: Option<string>, country: Option<string>, photo: Option<string>)

  type Users = map<string, UserRecord>

  /** The user map read from storage: a missing key stands for the empty
      object, and text that does not parse is read as the empty map too. */
  function GetUsers(saved: Slot<Users>): (r: Users)
    ensures saved.Parsed? ==> r == saved.value
    ensures !saved.Parsed? ==> r == map[]
  {
    match saved
    case Parsed(m) => m
    case _ => map[]
  }

  /** The session read back at start-up: nothing stored and unreadable text
      both mean nobody is signed in. */
  function LoadSession(saved: Slot<Profile>): (r: Option<Profile>)
    ensures r.Some? <==> saved.Parsed?
    ensures saved.Parsed? ==> r == Some(saved.value)
  {
    match saved
    case Parsed(p) => Some(p)
    case _ => None
  }

  function ProfileOf(u: UserRecord): (p: Profile)
    ensures p.name == u.name && p.email == u.email && p.country == u.country && p.photo == u.photo
  {
    Profile(u.name, u.email, u.country, u.photo)
  }

  /** What signing up stores: the four form fields and no photo. */
  function Registered(name: string, email: string, password: string, country: string): (u: UserRecord)
    ensures u.email == email && u.password == password && u.photo.None?
  {
    UserRecord(name, email, password, country, None)
  }

  /** The profile signing in yields: that of the record stored under the
      e-mail, provided its password is the one given. */
  function SignInResult(users: Users, email: string, password: string): (r: Option<Profile>)
    ensures r.Some? <==> email in users && users[email].password == password
    ensures r.Some? ==> r.value == ProfileOf(users[email])
  {
    if email in users && users[email].password == password then Some(ProfileOf(users[email])) else None
  }

  function Pick(o: Option<string>, current: string): string {
    o.GetOr(current)
  }

  function PatchProfile(p: Profile, u: ProfilePatch): (r: Profile)
    ensures r.name == Pick(u.name, p.name) && r.email == Pick(u.email, p.email)
    ensures r.country == Pick(u.country, p.country)
    ensures r.photo == if u.photo.Some? then u.photo else p.photo
  {
    Profile(Pick(u.name, p.name), Pick(u.email, p.email), Pick(u.country, p.country),
            if u.photo.Some? then u.photo else p.photo)
  }

  /** The same merge applied to a stored record; the password is not part
      of a profile patch and stays. */
  function PatchRecord(r: UserRecord, u: ProfilePatch): (s: UserRecord)
    ensures s.password == r.password
    ensures ProfileOf(s) == PatchProfile(ProfileOf(r), u)
  {
    UserRecord(Pick(u.name, r.name), Pick(u.email, r.email), r.password, Pick(u.country, r.country),
               if u.photo.Some? then u.photo else r.photo)
  }

  /** Every record sits under its own e-mail address. */
  predicate KeyedByEmail(users: Users) {
    forall e :: e in users ==> users[e].email == e
  }

  /** Registering a new address keeps the store keyed by e-mail, and
      signing in straight after with the same password yields exactly the
      profile that signing up set. */
  lemma SignUpThenSignIn(users: Users, name: string, email: string, password: string, country: string)
    requires KeyedByEmail(users) && email !in users
    ensures KeyedByEmail(users[email := Registered(name, email, password, country)])
    ensures SignInResult(users[email := Registered(name, email, password, country)], email, password)
         == Some(Profile(name, email, country, None))
  {
  }

  /** After a password change, the new password signs in, the old one no
      longer does (when they differ), and every other account is untouched. */
  lemma PasswordChangeTakesEffect(users: Users, email: string, oldPw: string, newPw: string, other: string, pw: string)
    requires email in users && users[email].password == oldPw && oldPw != newPw
    requires other != email
    ensures SignInResult(users[email := users[email].(password := newPw)], email, newPw) == Some(ProfileOf(users[email]))
    ensures SignInResult(users[email := users[email].(password := newPw)], email, oldPw).None?
    ensures SignInResult(users[email := users[email].(password := newPw)], other, pw) == SignInResult(users, other, pw)
  {
  }

  /** A profile edit that leaves the address alone keeps the store keyed by
      e-mail and the password valid. */
  lemma ProfileEditKeepsSignIn(users: Users, email: string, u: ProfilePatch, password: string)
    requires KeyedByEmail(users) && email in users
    requires u.email.None? || u.email == Some(email)
    ensures KeyedByEmail(users[email := PatchRecord(users[email], u)])
    ensures SignInResult(users[email := PatchRecord(users[email], u)], email, password).Some?
        <==> SignInResult(users, email, password).Some?
  {
  }

  /** A profile edit that changes the address leaves the record under the
      old key with the new address inside it: the edited profile's address
      is no longer a key of the store. */
  lemma EmailChangeLeavesOldKey(users: Users, email: string, u: ProfilePatch)
    requires KeyedByEmail(users) && email in users
    requires u.email.Some? && u.email.value != email && u.email.value !in users
    ensures !KeyedByEmail(users[email := PatchRecord(users[email], u)])
    ensures PatchProfile(ProfileOf(users[email]), u).email !in users[email := PatchRecord(users[email], u)]
  {
    var after := users[email := PatchRecord(users[email], u)];
    assert after[email].email == u.email.value;
  }

  /** The authentication state: the stored user map (as the storage slot
      holds it) and the signed-in profile. */
  class AuthStore {
    var usersSlot: Slot<Users>
    var user: Option<Profile>

    /** The user map every operation reads. */
    function Accounts(): Users
      reads this
    {
      GetUsers(usersSlot)
    }

    /** `isAuthenticated: !!user`: someone is signed in. */
    function IsAuthenticated(): (r: bool)
      reads this
      ensures r <==> user != None
    {
      user.Some?
    }

    constructor (savedUsers: Slot<Users>, savedSession: Slot<Profile>)
      ensures usersSlot == savedUsers && user == LoadSession(savedSession)
    {
      usersSlot := savedUsers;
      user := LoadSession(savedSession);
    }

    /** `signUp`: refused, changing nothing, when the address is taken;
        otherwise the record is stored and its profile signed in. */
    method SignUp(name: string, email: string, password: string, country: string) returns (ok: bool)
      modifies this
      ensures ok <==> email !in old(Accounts())
      ensures !ok ==> usersSlot == old(usersSlot) && user == old(user)
      ensures ok ==> usersSlot == Parsed(old(Accounts())[email := Registered(name, email, password, country)])
      ensures ok ==> user == Some(Profile(name, email, country, None)) && IsAuthenticated()
    {
      var users := GetUsers(usersSlot);
      if email in users {
        return false;
      }
      usersSlot := Parsed(users[email := Registered(name, email, password, country)]);
      user := Some(Profile(name, email, country, None));
      return true;
    }

    /** `signIn`: succeeds exactly when the address is registered with that
        password; a failure leaves the session as it was. */
    method SignIn(email: string, password: string) returns (ok: bool)
      modifies this`user
      ensures ok <==> SignInResult(Accounts(), email, password).Some?
      ensures ok ==> user == SignInResult(Accounts(), email, password)
      ensures !ok ==> user == old(user)
      ensures ok ==> IsAuthenticated()
    {
      var r := SignInResult(GetUsers(usersSlot), email, password);
      if r.None? {
        return false;
      }
      user := r;
      return true;
    }

    method SignOut()
      modifies this`user
      ensures user.None? && !IsAuthenticated()
    {
      user := None;
    }

    /** `updateProfile`: nothing happens when nobody is signed in; otherwise
        the profile takes the patch, and so does the stored record under the
        profile's address if there is one. */
    method UpdateProfile(u: ProfilePatch)
      modifies this
      ensures old(user).None? ==> user == old(user) && usersSlot == old(usersSlot)
      ensures old(user).Some? ==> user == Some(PatchProfile(old(user).value, u))
      ensures old(user).Some? && old(user).value.email in old(Accounts()) ==>
        usersSlot == Parsed(old(Accounts())[old(user).value.email := PatchRecord(old(Accounts())[old(user).value.email], u)])
      ensures old(user).Some? && old(user).value.email !in old(Accounts()) ==> usersSlot == old(usersSlot)
    {
      if user.None? {
        return;
      }
      var prev := user.value;
      var users := GetUsers(usersSlot);
      if prev.email in users {
        usersSlot := Parsed(users[prev.email := PatchRecord(users[prev.email], u)]);
      }
      user := Some(PatchProfile(prev, u));
    }

    /** `updatePassword`: refused when nobody is signed in, when the signed-in
        address has no record, or when the current password is wrong;
        otherwise only that record's password changes. */
    method UpdatePassword(currentPw: string, newPw: string) returns (ok: bool)
      modifies this`usersSlot
      ensures ok <==> user.Some? && user.value.email in old(Accounts())
                      && old(Accounts())[user.value.email].password == currentPw
      ensures !ok ==> usersSlot == old(usersSlot)
      ensures ok ==> usersSlot == Parsed(old(Accounts())[user.value.email := old(Accounts())[user.value.email].(password := newPw)])
    {
      if user.None? {
        return false;
      }
      var users := GetUsers(usersSlot);
      var e := user.value.email;
      if e !in users || users[e].password != currentPw {
        return false;
      }
      usersSlot := Parsed(users[e := users[e].(password := newPw)]);
      return true;
    }

    /** `resetPassword`: whether the address is registered; nothing is sent
        and nothing changes. */
    method ResetPassword(email: string) returns (registered: bool)
      ensures registered <==> email in Accounts()
    {
      registered := email in GetUsers(usersSlot);
    }
  }
}
