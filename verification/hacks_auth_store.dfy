/**
 * The `Hacks` auth store: the signed-in user, a loading flag and the last
 * error message, kept in step with the local auth adapter. Each action sets
 * `isLoading` while it waits on the adapter; the model shows the state once
 * the action has finished.
 */
module HacksAuthStore {
  import opened Wrappers
  import opened HacksTypes
  import HacksLocalAdapter

  class AuthStore {
    const adapter: HacksLocalAdapter.LocalAuth
    var user: Option<User>
    var isLoading: bool
    var error: Option<string>

    /**
     * A fresh store: not loading and no error; the user is the one persisted
     * under `auth-storage` (the only field persisted), or none.
     */
    constructor(adapter: HacksLocalAdapter.LocalAuth, persisted: Option<User>)
      ensures this.adapter == adapter && user == persisted && !isLoading && error == None
    {
      this.adapter := adapter;
      user := persisted;
      isLoading := false;
      error := None;
    }

    /**
     * `signIn`: on success the user is the adapter's and the error is cleared;
     * on failure the user stays, the error is the adapter's message, and that
     * message is thrown on to the caller.
     */
    method SignIn(email: string, password: string) returns (thrown: Option<string>)
      modifies this, adapter
      ensures !isLoading
      ensures thrown.None? <==> exists id :: id in adapter.users && adapter.users[id].email == email
      ensures thrown.None? ==> user.Some? && user == adapter.current && user.value.email == email && error == None
      ensures thrown.Some? ==> thrown == Some("User not found") && error == thrown && user == old(user)
      ensures adapter.users == old(adapter.users)
    {
      isLoading, error := true, None;
      var r := adapter.SignIn(email, password);
      match r
      case Ok(u) =>
        user, isLoading := Some(u), false;
        thrown := None;
      case Err(msg) =>
        error, isLoading := Some(msg), false;
        thrown := Some(msg);
    }

    /** `signUp`: the new user is stored, signed in and shown; the error is cleared. */
    method SignUp(email: string, password: string, name: Option<string>, role: Option<Role>, id: string, now: nat)
      modifies this, adapter
      ensures !isLoading && error == None
      ensures user.Some? && user == adapter.current && user.value.id == id && user.value.email == email
      ensures adapter.users == old(adapter.users)[id := user.value]
    {
      isLoading, error := true, None;
      var u := adapter.SignUp(email, password, name, role, id, now);
      user, isLoading := Some(u), false;
    }

    /** `signOut`: no user and no error, here and in the adapter. */
    method SignOut()
      modifies this, adapter
      ensures user == None && error == None && !isLoading
      ensures adapter.current == None && adapter.users == old(adapter.users)
    {
      isLoading := true;
      adapter.SignOut();
      user, isLoading, error := None, false, None;
    }

    /** `resetPassword`: the adapter only logs the request, so the store ends with no error. */
    method ResetPassword(email: string)
      modifies this
      ensures !isLoading && error == None && user == old(user)
    {
      isLoading, error := true, None;
      isLoading := false;
    }

    /** `clearError`: the error goes, and nothing else changes. */
    method ClearError()
      modifies this
      ensures error == None && user == old(user) && isLoading == old(isLoading)
    {
      error := None;
    }

    /** `checkAuth`: the store takes the adapter's current user; the error is left as it was. */
    method CheckAuth()
      modifies this
      ensures user == adapter.current && !isLoading && error == old(error)
    {
      isLoading := true;
      var u := adapter.GetCurrentUser();
      user, isLoading := u, false;
    }
  }
}
