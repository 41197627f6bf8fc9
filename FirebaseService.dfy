/** The mock authentication service (services/firebaseService.ts): a
    `currentUser` field and the one browser storage slot `tutorx_user`. */
module FirebaseService {
  import opened Types

  /** The `tutorx_user` storage slot. Reading it back yields the profile
      written, so the JSON encoding is left implicit. */
  class LocalStore {
    var user: Option<UserProfile>

    constructor (initial: Option<UserProfile>)
      ensures user == initial
    {
      user := initial;
    }
  }

  /** The profile a new account starts with. */
  function DefaultProfile(email: string): (u: UserProfile)
    ensures u.email == email && u.tier == Free
    ensures u.learningProgress == 0 && u.streak == 0 && u.lastActiveDate == None
    ensures u.completedTopics == [] && u.quizScores == []
  {
    UserProfile(email, 0, [], [], Free, 0, None)
  }

  datatype AuthError = NoUserLoggedIn

  datatype Result<T> = Ok(value: T) | Err(error: AuthError)

  /** `mockAuth`. The password is never looked at. */
  class MockAuth {
    var currentUser: Option<UserProfile>
    const store: LocalStore

    constructor (store: LocalStore)
      ensures this.store == store && currentUser == None
    {
      this.store := store;
      currentUser := None;
    }

    /** Whatever profile the slot holds, whatever its email; a fresh one otherwise. */
    method Login(email: string, pass: string) returns (u: UserProfile)
      modifies this, store
      ensures old(store.user).Some? ==> u == old(store.user).value
      ensures old(store.user).None? ==> u == DefaultProfile(email)
      ensures currentUser == Some(u) && store.user == Some(u)
    {
      u := if store.user.Some? then store.user.value else DefaultProfile(email);
      currentUser := Some(u);
      store.user := Some(u);
    }

    /** Always a fresh profile, replacing whatever the slot held. */
    method Register(email: string, pass: string) returns (u: UserProfile)
      modifies this, store
      ensures u == DefaultProfile(email)
      ensures currentUser == Some(u) && store.user == Some(u)
    {
      u := DefaultProfile(email);
      currentUser := Some(u);
      store.user := Some(u);
    }

    /** Fails without a signed-in user, even when the slot holds a profile;
        otherwise changes the tier of `currentUser` and nothing else. */
    method UpgradeTier(tier: SubscriptionTier) returns (r: Result<UserProfile>)
      modifies this, store
      ensures old(currentUser).None? ==>
        r == Err(NoUserLoggedIn) && currentUser == None && store.user == old(store.user)
      ensures old(currentUser).Some? ==>
        r == Ok(old(currentUser).value.(tier := tier)) &&
        currentUser == Some(r.value) && store.user == Some(r.value)
    {
      if currentUser.None? {
        return Err(NoUserLoggedIn);
      }
      var updated := currentUser.value.(tier := tier);
      currentUser := Some(updated);
      store.user := Some(updated);
      r := Ok(updated);
    }

    /** Waits and does nothing else. */
    method ResetPassword(email: string)
      ensures unchanged(this, store)
    {
    }

    method Logout()
      modifies this, store
      ensures currentUser == None && store.user == None
    {
      currentUser := None;
      store.user := None;
    }

    method GetStoredUser() returns (u: Option<UserProfile>)
      ensures u == store.user
    {
      u := store.user;
    }
  }

  /** After `logout` the slot reads back empty. */
  method LogoutThenRead(auth: MockAuth) returns (u: Option<UserProfile>)
    modifies auth, auth.store
    ensures u == None && auth.currentUser == None
  {
    auth.Logout();
    u := auth.GetStoredUser();
  }

  /** A profile restored from the slot on start-up is not signed in: paying for
      an upgrade then fails although the slot holds a profile. */
  method UpgradeWithRestoredProfile(saved: UserProfile, tier: SubscriptionTier)
    returns (restored: Option<UserProfile>, r: Result<UserProfile>)
    ensures restored == Some(saved) && r == Err(NoUserLoggedIn)
  {
    var store := new LocalStore(Some(saved));
    var auth := new MockAuth(store);
    restored := auth.GetStoredUser();
    r := auth.UpgradeTier(tier);
  }
}
