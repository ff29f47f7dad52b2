/**
 * The Hackathon sign-in form. Its submit looks the address up and, when it
 * is unknown, seeds three demo accounts first; the password passes the
 * length rule and is never compared with anything.
 */
module LoginPage {
  import opened Wrappers
  import opened HackathonTypes
  import opened HackathonStore
  import opened HackathonStorage

  datatype LoginForm = LoginForm(email: string, password: string)

  /** `loginSchema`; the validation library's e-mail test is the input `isEmail`. */
  function Validate(f: LoginForm, isEmail: string -> bool): (errors: seq<FieldError>)
    ensures errors == [] <==> isEmail(f.email) && |f.password| >= 6
  {
    Check(isEmail(f.email), "email", "Invalid email address")
    + Check(|f.password| >= 6, "password", "Password must be at least 6 characters")
  }

  /** The demo accounts, stamped with the time of the submit. */
  function DemoUsers(now: string): seq<User> {
    [ User("student-1", "student@demo.com", "Demo Student", Student, None, now, now),
      User("teacher-1", "teacher@demo.com", "Demo Teacher", Teacher, None, now, now),
      User("admin-1", "admin@demo.com", "Demo Admin", Admin, None, now, now) ]
  }

  predicate IsDemoEmail(email: string) {
    email in ["student@demo.com", "teacher@demo.com", "admin@demo.com"]
  }

  /** The store after the demo accounts in `us` are written one after the other. */
  function Seeded(items: map<string, Value>, us: seq<User>): map<string, Value> {
    if us == [] then items
    else Seeded(items, us[..|us| - 1])["user:" + us[|us| - 1].id := UserValue(us[|us| - 1])]
  }

  datatype Outcome =
    | Invalid(errors: seq<FieldError>)
    | Rejected(error: FieldError)
    | LoggedIn(user: User)

  /**
   * The form's submit. A stored account with the address signs in whatever
   * the password; an unknown address seeds the demo accounts and signs in
   * exactly when it is one of theirs.
   */
  method Submit(store: KeyValueStore, auth: AuthStore, f: LoginForm,
                isEmail: string -> bool, now: string) returns (o: Outcome)
    modifies store, auth
    requires store.Valid()
    ensures Validate(f, isEmail) != [] ==>
              o == Invalid(Validate(f, isEmail)) && store.items == old(store.items)
    ensures Validate(f, isEmail) == [] && EmailKnown(old(store.items), f.email) ==>
              o.LoggedIn? && o.user.email == f.email && store.items == old(store.items)
              && exists k :: k in KeysUnder(old(store.items), "user:") && old(store.items)[k] == UserValue(o.user)
    ensures Validate(f, isEmail) == [] && !EmailKnown(old(store.items), f.email) ==>
              store.items == Seeded(old(store.items), DemoUsers(now))
              && (o.LoggedIn? <==> IsDemoEmail(f.email))
              && (o.LoggedIn? ==> o.user in DemoUsers(now) && o.user.email == f.email)
              && (!IsDemoEmail(f.email) ==> o == Rejected(FieldError("email", "Invalid email or password")))
    ensures o.LoggedIn? ==> auth.user == Some(o.user) && auth.isAuthenticated
    ensures !o.LoggedIn? ==> auth.user == old(auth.user) && auth.isAuthenticated == old(auth.isAuthenticated)
    ensures store.Valid()
  {
    var errors := Validate(f, isEmail);
    if errors != [] {
      return Invalid(errors);
    }
    var user := store.GetUserByEmail(f.email);
    if user.None? {
      var demos := DemoUsers(now);
      for i := 0 to |demos|
        invariant store.items == Seeded(old(store.items), demos[..i]) && store.Valid()
        invariant auth.user == old(auth.user) && auth.isAuthenticated == old(auth.isAuthenticated)
      {
        assert demos[..i + 1][..i] == demos[..i];
        store.SetUser(demos[i]);
      }
      assert demos[..|demos|] == demos;
      var found := FindByEmail(demos, f.email);
      if found.Some? {
        auth.Login(found.value);
        o := LoggedIn(found.value);
      } else {
        o := Rejected(FieldError("email", "Invalid email or password"));
      }
    } else {
      auth.Login(user.value);
      o := LoggedIn(user.value);
    }
  }

  /**
   * The password only has to pass the length rule: two forms with the same
   * address are both valid or both not, whatever passwords they carry.
   */
  lemma PasswordNeverCompared(f: LoginForm, g: LoginForm, isEmail: string -> bool)
    requires f.email == g.email && |f.password| >= 6 && |g.password| >= 6
    ensures Validate(f, isEmail) == Validate(g, isEmail)
  {
  }
}
