/**
 * The Hackathon sign-up form: its schema, and the submission that refuses a
 * known address and otherwise stores and signs in the new user. The
 * validation library's e-mail test is an input (`isEmail`); the generated id
 * and the clock are inputs too.
 */
module RegisterPage {
  import opened Wrappers
  import opened HackathonTypes
  import opened HackathonStore
  import opened HackathonStorage

  datatype RegisterForm = RegisterForm(
    name: string, email: string, password: string, confirmPassword: string, role: string)

  /**
   * `registerSchema`: the field rules in order, then the password match,
   * reported on `confirmPassword`. The match is only checked once the role
   * is one of the two offered, as the validation library skips an object's
   * refinement when a field has an invalid enumeration value.
   */
  function Validate(f: RegisterForm, isEmail: string -> bool): (errors: seq<FieldError>)
    ensures errors == [] <==>
              |f.name| >= 2 && isEmail(f.email) && |f.password| >= 6
              && f.role in ["student", "teacher"] && f.password == f.confirmPassword
    ensures f.role in ["student", "teacher"] && f.password != f.confirmPassword ==>
              FieldError("confirmPassword", "Passwords don't match") in errors
  {
    var fields :=
      Check(|f.name| >= 2, "name", "Name must be at least 2 characters")
      + Check(isEmail(f.email), "email", "Invalid email address")
      + Check(|f.password| >= 6, "password", "Password must be at least 6 characters")
      + Check(f.role in ["student", "teacher"], "role", "Invalid enum value");
    if f.role in ["student", "teacher"] then
      fields + Check(f.password == f.confirmPassword, "confirmPassword", "Passwords don't match")
    else fields
  }

  datatype Outcome =
    | Invalid(errors: seq<FieldError>)
    | EmailTaken(error: FieldError)
    | Registered(user: User)

  function RoleOf(r: string): Role {
    if r == "teacher" then Teacher else Student
  }

  /**
   * The form's submit: nothing happens when validation fails or the address
   * is taken; otherwise the new user is stored and signed in.
   */
  method Submit(store: KeyValueStore, auth: AuthStore, f: RegisterForm,
                isEmail: string -> bool, id: string, now: string) returns (o: Outcome)
    modifies store, auth
    requires store.Valid()
    ensures Validate(f, isEmail) != [] ==>
              o == Invalid(Validate(f, isEmail))
    ensures Validate(f, isEmail) == [] ==>
              (o.EmailTaken? <==> EmailKnown(old(store.items), f.email))
    ensures Validate(f, isEmail) == [] && !EmailKnown(old(store.items), f.email) ==> o.Registered?
    ensures o.EmailTaken? ==> o.error == FieldError("email", "User with this email already exists")
    ensures !o.Registered? ==>
              store.items == old(store.items) && auth.user == old(auth.user)
              && auth.isAuthenticated == old(auth.isAuthenticated)
    ensures o.Registered? ==>
              o.user == User(id, f.email, f.name, RoleOf(f.role), None, now, now)
              && store.items == old(store.items)["user:" + id := UserValue(o.user)]
              && auth.user == Some(o.user) && auth.isAuthenticated
    ensures store.Valid()
  {
    var errors := Validate(f, isEmail);
    if errors != [] {
      return Invalid(errors);
    }
    var existing := store.GetUserByEmail(f.email);
    if existing.Some? {
      return EmailTaken(FieldError("email", "User with this email already exists"));
    }
    var user := User(id, f.email, f.name, RoleOf(f.role), None, now, now);
    store.SetUser(user);
    auth.Login(user);
    o := Registered(user);
  }
}
