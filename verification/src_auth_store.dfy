/**
 * The `src` auth store: the signed-in user as the page sees it, with a
 * loading flag and an initialised flag, over the local adapter. A thrown
 * error is returned as `Some(message)`.
 */
module SrcAuthStore {
  import opened Wrappers
  import opened SrcTypes
  import opened SrcLocalAdapter

  class AuthStore {
    const adapter: LocalAdapter
    var user: Option<User>
    var isLoading: bool
    var isInitialized: bool

    /** The store with the persisted user, if any. */
    constructor(adapter: LocalAdapter, persisted: Option<User>)
      ensures this.adapter == adapter && user == persisted && !isLoading && !isInitialized
    {
      this.adapter := adapter;
      user := persisted;
      isLoading := false;
      isInitialized := false;
    }

    /**
     * `initialize`: once initialised it does nothing. Otherwise the demo
     * users and sample lessons are seeded, the adapter's current user is
     * taken, and the store ends initialised and not loading.
     */
    method Initialize(now: Instant)
      modifies this, adapter
      ensures old(isInitialized) ==>
                user == old(user) && isLoading == old(isLoading) && isInitialized && adapter.State() == old(adapter.State())
      ensures !old(isInitialized) ==> isInitialized && !isLoading && user == adapter.currentUser
      ensures !old(isInitialized) ==>
                adapter.users == (if |old(adapter.users)| == 0 then DefaultUsers(adapter.timezone, now) else old(adapter.users))
                && adapter.lessons == (if |old(adapter.lessons)| == 0 then SampleLessons(now) else old(adapter.lessons))
                && adapter.State() == old(adapter.State()).(users := adapter.users, lessons := adapter.lessons)
    {
      if isInitialized {
        return;
      }
      isLoading := true;
      adapter.InitializeDefaultUsers(now);
      var u := adapter.GetCurrentUser();
      user, isInitialized := u, true;
      isLoading := false;
    }

    /**
     * `login`: on success the user is the adapter's matching user; on failure
     * the error is thrown on and the user stays. Loading is off either way.
     */
    method Login(email: string, password: string, now: Instant) returns (thrown: Option<string>)
      modifies this, adapter
      ensures !isLoading && isInitialized == old(isInitialized)
      ensures thrown.None? <==> exists i :: 0 <= i < |adapter.users| && Matches(adapter.users[i], email, password)
      ensures thrown.None? ==> user == adapter.currentUser && user == Authenticate(adapter.users, email, password)
      ensures thrown.Some? ==> thrown == Some("Invalid credentials") && user == old(user)
    {
      isLoading := true;
      var r := adapter.Login(email, password, now);
      if r.Ok? {
        user := Some(r.value);
        thrown := None;
      } else {
        thrown := Some(r.msg);
      }
      isLoading := false;
    }

    /**
     * `register`: on success the new user is shown; an email already taken
     * throws 'User already exists' and the user stays. Loading is off either way.
     */
    method Register(email: string, password: string, name: string, role: UserRole,
                    id: string, progressId: string, now: Instant) returns (thrown: Option<string>)
      modifies this, adapter
      ensures !isLoading && isInitialized == old(isInitialized)
      ensures thrown.Some? <==> HasEmail(old(adapter.users), email)
      ensures thrown.Some? ==> thrown == Some("User already exists") && user == old(user)
                               && adapter.State() == old(adapter.State())
      ensures thrown.None? ==> user.Some? && user == adapter.currentUser && user.value.id == id && user.value.email == email
                               && adapter.users == old(adapter.users) + [user.value]
    {
      isLoading := true;
      var r := adapter.Register(email, password, name, role, id, progressId, now);
      if r.Ok? {
        user := Some(r.value);
        thrown := None;
      } else {
        thrown := Some(r.msg);
      }
      isLoading := false;
    }

    /** `logout`: nobody is signed in, here or in the adapter. */
    method Logout()
      modifies this, adapter
      ensures user == None && isLoading == old(isLoading) && isInitialized == old(isInitialized)
      ensures adapter.State() == old(adapter.State()).(currentUser := None)
    {
      adapter.Logout();
      user := None;
    }

    /**
     * `updateProfile`: without a user it throws 'No user to update' and
     * changes nothing. Otherwise the adapter merges the updates into the
     * stored user with that id; on success the merged user is shown, and on
     * failure ('User not found') the error is thrown on. Loading ends off.
     */
    method UpdateProfile(updates: UserPatch) returns (thrown: Option<string>)
      modifies this, adapter
      ensures old(user).None? ==> thrown == Some("No user to update") && user == None
                                  && isLoading == old(isLoading) && adapter.State() == old(adapter.State())
      ensures old(user).Some? ==> !isLoading
      ensures old(user).Some? ==>
                (thrown.Some? <==> forall i :: 0 <= i < |old(adapter.users)| ==> old(adapter.users)[i].id != old(user).value.id)
      ensures old(user).Some? && thrown.Some? ==> thrown == Some("User not found") && user == old(user)
                                                  && adapter.State() == old(adapter.State())
      ensures old(user).Some? && thrown.None? ==>
                user.Some? && user.value in adapter.users
                && exists i :: 0 <= i < |old(adapter.users)| && old(adapter.users)[i].id == old(user).value.id
                               && user.value == MergeUser(old(adapter.users)[i], updates)
      ensures isInitialized == old(isInitialized)
    {
      if user.None? {
        return Some("No user to update");
      }
      isLoading := true;
      var r := adapter.UpdateUser(user.value.id, updates);
      if r.Ok? {
        ghost var i :| 0 <= i < |old(adapter.users)| && old(adapter.users)[i].id == old(user).value.id
                       && r.value == MergeUser(old(adapter.users)[i], updates) && adapter.users == old(adapter.users)[i := r.value];
        assert adapter.users[i] == r.value;
        user := Some(r.value);
        thrown := None;
      } else {
        thrown := Some(r.msg);
      }
      isLoading := false;
    }
  }
}
