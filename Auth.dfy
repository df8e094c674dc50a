/**
 * The in-memory account store: a list of users and a map from e-mail to
 * plain-text password, with sign-up, sign-in and update. The fresh id
 * (`Date.now().toString()`) and the join date are passed in by the caller.
 */
module Auth {
  import opened Wrappers
  import opened UserRecord
  import opened Seqs

  const UserExists: string := "User already exists with this email"
  const UserNotFound: string := "User not found"
  const InvalidPassword: string := "Invalid password"
  const DemoEmail: string := "demo@aestheticstudy.com"

  /** The one seeded account. No password is stored for it. */
  function DemoUser(): User {
    User("1", DemoEmail, "Demo User", None, "2024-01-01", 4, "Mathematics", 12, 127,
         Preferences("soft-pink", DefaultNotifications()))
  }

  /** The account `signUp` creates. */
  function NewUser(id: string, email: string, name: string, joinDate: string): User {
    User(id, email, name, None, joinDate, 4, "Mathematics", 0, 0,
         Preferences("soft-pink", DefaultNotifications()))
  }

  /** The position `users.find(u => u.email === email)` finds, or -1. */
  function IndexOfEmail(users: seq<User>, email: string): int {
    FindIndex(users, (u: User) => u.email == email)
  }

  /** `users.findIndex(u => u.id === id)`. */
  function IndexOfId(users: seq<User>, id: string): int {
    FindIndex(users, (u: User) => u.id == id)
  }

  predicate UniqueEmails(users: seq<User>) {
    forall i, j :: 0 <= i < j < |users| ==> users[i].email != users[j].email
  }

  /** The contents of the store. */
  datatype Store = Store(users: seq<User>, passwords: map<string, string>)

  /** The store as the module initialises it. */
  function Seeded(): Store {
    Store([DemoUser()], map[])
  }

  /** `signUp`: the new store and the outcome. */
  function SignUpStep(st: Store, email: string, password: string, name: string, id: string, joinDate: string): (Store, Result<User>)
  {
    if IndexOfEmail(st.users, email) >= 0 then (st, Err(UserExists))
    else
      var u := NewUser(id, email, name, joinDate);
      (Store(st.users + [u], st.passwords[email := password]), Ok(u))
  }

  /** `signIn`: the first user with that e-mail, if the stored password equals the given one. */
  function SignInResult(st: Store, email: string, password: string): Result<User> {
    var i := IndexOfEmail(st.users, email);
    if i < 0 then Err(UserNotFound)
    else if email !in st.passwords || st.passwords[email] != password then Err(InvalidPassword)
    else Ok(st.users[i])
  }

  /** `updateUser`: the first user with the same id is replaced. */
  function UpdatedUsers(users: seq<User>, u: User): seq<User> {
    var i := IndexOfId(users, u.id);
    if i < 0 then users else users[i := u]
  }

  /** A sign-up request, for reasoning about several in a row. */
  datatype SignUpRequest = SignUpRequest(email: string, password: string, name: string, id: string, joinDate: string)

  function SignUpAll(st: Store, reqs: seq<SignUpRequest>): Store
    decreases |reqs|
  {
    if reqs == [] then st
    else
      var r := reqs[0];
      SignUpAll(SignUpStep(st, r.email, r.password, r.name, r.id, r.joinDate).0, reqs[1..])
  }

  // ---- Properties ----

  /** A sign-up with a taken e-mail is rejected and changes nothing. */
  lemma SignUpDuplicateRejected(st: Store, email: string, password: string, name: string, id: string, joinDate: string)
    requires exists k :: 0 <= k < |st.users| && st.users[k].email == email
    ensures SignUpStep(st, email, password, name, id, joinDate) == (st, Err(UserExists))
  {
  }

  /**
   * A sign-up with a fresh e-mail appends exactly one user with the given e-mail
   * and name and the default profile, and stores the password under that e-mail.
   */
  lemma SignUpFreshAppends(st: Store, email: string, password: string, name: string, id: string, joinDate: string)
    requires forall k :: 0 <= k < |st.users| ==> st.users[k].email != email
    ensures var (st', r) := SignUpStep(st, email, password, name, id, joinDate);
            && r.Ok? && st'.users == st.users + [r.value]
            && st'.passwords == st.passwords[email := password]
            && r.value.email == email && r.value.name == name
            && r.value.studyGoal == 4 && r.value.studyStreak == 0 && r.value.totalStudyTime == 0
            && r.value.preferences.notifications == DefaultNotifications()
  {
  }

  /** Appending a user leaves the earlier users' positions as they were. */
  lemma IndexOfEmailAppend(users: seq<User>, u: User, email: string)
    ensures IndexOfEmail(users + [u], email) ==
              if IndexOfEmail(users, email) >= 0 then IndexOfEmail(users, email)
              else if u.email == email then |users| else -1
  {
    FindIndexAppend(users, u, (v: User) => v.email == email);
  }

  /** A sign-up keeps e-mails unique. */
  lemma SignUpKeepsUnique(st: Store, email: string, password: string, name: string, id: string, joinDate: string)
    requires UniqueEmails(st.users)
    ensures UniqueEmails(SignUpStep(st, email, password, name, id, joinDate).0.users)
  {
  }

  /** Any sequence of sign-ups keeps e-mails unique. */
  lemma {:induction false} SignUpsKeepUnique(st: Store, reqs: seq<SignUpRequest>)
    requires UniqueEmails(st.users)
    ensures UniqueEmails(SignUpAll(st, reqs).users)
    decreases |reqs|
  {
    if reqs != [] {
      var r := reqs[0];
      SignUpKeepsUnique(st, r.email, r.password, r.name, r.id, r.joinDate);
      SignUpsKeepUnique(SignUpStep(st, r.email, r.password, r.name, r.id, r.joinDate).0, reqs[1..]);
    }
  }

  /** Signing in with an e-mail nobody has fails with "User not found". */
  lemma SignInUnknownEmail(st: Store, email: string, password: string)
    requires forall k :: 0 <= k < |st.users| ==> st.users[k].email != email
    ensures SignInResult(st, email, password) == Err(UserNotFound)
  {
  }

  /** Signing in fails with "Invalid password" when a user exists but the stored password differs or is absent. */
  lemma SignInWrongPassword(st: Store, email: string, password: string)
    requires exists k :: 0 <= k < |st.users| && st.users[k].email == email
    requires email !in st.passwords || st.passwords[email] != password
    ensures SignInResult(st, email, password) == Err(InvalidPassword)
  {
  }

  /** A successful sign-in returns the first user with that e-mail, whose stored password matched. */
  lemma SignInOk(st: Store, email: string, password: string)
    requires SignInResult(st, email, password).Ok?
    ensures var u := SignInResult(st, email, password).value;
            u.email == email && email in st.passwords && st.passwords[email] == password
            && exists k :: 0 <= k < |st.users| && st.users[k] == u
  {
    var i := IndexOfEmail(st.users, email);
    assert st.users[i] == SignInResult(st, email, password).value;
  }

  /** The seeded demo account can never sign in: it has no stored password. */
  lemma DemoUserCannotSignIn(password: string)
    ensures SignInResult(Seeded(), DemoEmail, password) == Err(InvalidPassword)
  {
  }

  /** A successful sign-up followed by a sign-in with the same e-mail and password returns the new user. */
  lemma SignUpThenSignIn(st: Store, email: string, password: string, name: string, id: string, joinDate: string)
    requires SignUpStep(st, email, password, name, id, joinDate).1.Ok?
    ensures var (st', r) := SignUpStep(st, email, password, name, id, joinDate);
            SignInResult(st', email, password) == Ok(r.value)
  {
    IndexOfEmailAppend(st.users, NewUser(id, email, name, joinDate), email);
  }

  /**
   * `updateUser` keeps the length, puts `u` where the first user with its id was
   * and leaves every other entry alone; with no such id it changes nothing.
   */
  lemma UpdateUserReplacesFirst(users: seq<User>, u: User)
    ensures var r := UpdatedUsers(users, u);
            && |r| == |users|
            && ((forall k :: 0 <= k < |users| ==> users[k].id != u.id) ==> r == users)
            && forall k :: 0 <= k < |users| ==>
                 r[k] == if k == IndexOfId(users, u.id) then u else users[k]
  {
  }

  /** An update that keeps the replaced user's e-mail keeps e-mails unique. */
  lemma UpdateUserKeepsUnique(users: seq<User>, u: User)
    requires UniqueEmails(users)
    requires forall k :: 0 <= k < |users| && users[k].id == u.id ==> users[k].email == u.email
    ensures UniqueEmails(UpdatedUsers(users, u))
  {
  }

  /** The store of `utils/auth.ts`. */
  class UserStore {
    var users: seq<User>
    var passwords: map<string, string>

    function Snapshot(): Store
      reads this
    {
      Store(users, passwords)
    }

    constructor ()
      ensures Snapshot() == Seeded()
    {
      users := [DemoUser()];
      passwords := map[];
    }

    method SignUp(email: string, password: string, name: string, id: string, joinDate: string) returns (r: Result<User>)
      modifies this
      ensures (Snapshot(), r) == SignUpStep(old(Snapshot()), email, password, name, id, joinDate)
      ensures UniqueEmails(old(users)) ==> UniqueEmails(users)
    {
      if IndexOfEmail(users, email) >= 0 {
        r := Err(UserExists);
        return;
      }
      var u := NewUser(id, email, name, joinDate);
      users := users + [u];
      passwords := passwords[email := password];
      r := Ok(u);
      if UniqueEmails(old(users)) {
        SignUpKeepsUnique(old(Snapshot()), email, password, name, id, joinDate);
      }
    }

    method SignIn(email: string, password: string) returns (r: Result<User>)
      ensures r == SignInResult(Snapshot(), email, password)
    {
      var i := IndexOfEmail(users, email);
      if i < 0 {
        r := Err(UserNotFound);
      } else if email !in passwords || passwords[email] != password {
        r := Err(InvalidPassword);
      } else {
        r := Ok(users[i]);
      }
    }

    /** `getAllUsers`: the list itself. */
    method GetAllUsers() returns (r: seq<User>)
      ensures r == users
    {
      r := users;
    }

    method UpdateUser(u: User)
      modifies this
      ensures users == UpdatedUsers(old(users), u) && passwords == old(passwords)
    {
      var i := IndexOfId(users, u.id);
      if i != -1 {
        users := users[i := u];
      }
    }
  }

  /** A use of the store: a new account can sign in, a second sign-up with its e-mail is refused. */
  method SignUpSignInScenario()
  {
    var store := new UserStore();
    var r := store.SignUp("a@b.co", "secret1", "Ada", "1700000000000", "2024-05-01");
    assert IndexOfEmail([DemoUser()], "a@b.co") == -1;
    assert r.Ok?;
    var s := store.SignIn("a@b.co", "secret1");
    SignUpThenSignIn(Seeded(), "a@b.co", "secret1", "Ada", "1700000000000", "2024-05-01");
    assert s == r;
    var again := store.SignUp("a@b.co", "other", "Bob", "1700000000001", "2024-05-02");
    assert again == Err(UserExists);
  }
}
