/**
 * The authentication provider: the signed-in user, that user's profile record (found
 * in or created in the record store), the loading flag, and profile updates. Store
 * outcomes, fresh ids and the time are arguments; the preferences' JSON encoding is
 * taken as exact (a stored preference object reads back unchanged).
 */
module AuthContext {
  import opened Wrappers
  import opened Text
  import opened UserTypes

  /** The identity provider's user. */
  datatype AuthUser = AuthUser(id: string, email: Option<string>, displayName: Option<string>)

  /** What the auth state callback receives. */
  datatype AuthState = AuthState(user: Option<AuthUser>, isLoading: bool)

  /** `Partial<User>`: `None` is a field the update does not supply. */
  datatype ProfilePatch = ProfilePatch(
    id: Option<string>,
    userId: Option<string>,
    email: Option<string>,
    displayName: Option<Option<string>>,
    avatarUrl: Option<Option<string>>,
    preferences: Option<Option<UserPreferences>>,
    createdAt: Option<Option<string>>,
    updatedAt: Option<Option<string>>)

  /** A request made to the record store's user table. */
  datatype ProfileCall = ListProfiles(userId: string) | CreateProfile(profile: User) | UpdateProfile(id: string, patch: ProfilePatch, updatedAt: string)

  /** Preferences given to a profile that has none stored. */
  const DefaultPreferences := UserPreferences(true, true, [], [], System)

  /** `email.split('@')[0]`: the text before the first '@', or all of it. */
  function LocalPart(email: string): (r: string)
    ensures IsPrefix(r, email) && '@' !in r
    ensures |r| < |email| ==> email[|r|] == '@'
  {
    if email == "" || email[0] == '@' then "" else [email[0]] + LocalPart(email[1..])
  }

  /**
   * A new profile's display name: the user's display name, else the local part of the
   * e-mail address, else `'User'`. It is never empty.
   */
  function DisplayNameFor(u: AuthUser): (r: string)
    ensures r != ""
    ensures Truthy(u.displayName) ==> r == u.displayName.value
    ensures !Truthy(u.displayName) ==> '@' !in r
    ensures !Truthy(u.displayName) && u.email.Some? && u.email.value != "" && u.email.value[0] != '@' ==>
      r == LocalPart(u.email.value)
    ensures !Truthy(u.displayName) && (u.email.None? || u.email.value == "" || u.email.value[0] == '@') ==>
      r == "User"
  {
    if Truthy(u.displayName) then u.displayName.value
    else
      var local := if u.email.Some? then LocalPart(u.email.value) else "";
      if local != "" then local else "User"
  }

  /** The profile created for a user who has none: e-mail `''` when absent, default preferences. */
  function NewProfile(id: string, u: AuthUser): (p: User)
    ensures p.userId == u.id && p.email == u.email.GetOr("")
    ensures p.displayName == Some(DisplayNameFor(u)) && p.preferences == Some(DefaultPreferences)
  {
    User(id, u.id, u.email.GetOr(""), Some(DisplayNameFor(u)), None, Some(DefaultPreferences), None, None)
  }

  /** A stored profile as the provider holds it: the default preferences when none are stored. */
  function WithPreferences(p: User): (r: User)
    ensures r.preferences.Some?
    ensures r == p.(preferences := r.preferences)
    ensures p.preferences.Some? ==> r == p
    ensures p.preferences.None? ==> r.preferences == Some(DefaultPreferences)
  {
    if p.preferences.Some? then p else p.(preferences := Some(DefaultPreferences))
  }

  /** `{ ...prev, ...data, updatedAt }`: supplied fields overwrite, the rest are kept, the time is set. */
  function Merge(p: User, patch: ProfilePatch, updatedAt: string): (r: User)
    ensures r.updatedAt == Some(updatedAt)
    ensures r.id == if patch.id.Some? then patch.id.value else p.id
    ensures r.userId == if patch.userId.Some? then patch.userId.value else p.userId
    ensures r.email == if patch.email.Some? then patch.email.value else p.email
    ensures r.displayName == if patch.displayName.Some? then patch.displayName.value else p.displayName
    ensures r.avatarUrl == if patch.avatarUrl.Some? then patch.avatarUrl.value else p.avatarUrl
    ensures r.preferences == if patch.preferences.Some? then patch.preferences.value else p.preferences
    ensures r.createdAt == if patch.createdAt.Some? then patch.createdAt.value else p.createdAt
  {
    User(patch.id.GetOr(p.id), patch.userId.GetOr(p.userId), patch.email.GetOr(p.email),
         patch.displayName.GetOr(p.displayName), patch.avatarUrl.GetOr(p.avatarUrl),
         patch.preferences.GetOr(p.preferences), patch.createdAt.GetOr(p.createdAt), Some(updatedAt))
  }

  const EmptyPatch := ProfilePatch(None, None, None, None, None, None, None, None)

  /** An update that supplies nothing changes only the update time. */
  lemma MergeEmptyTouchesOnlyTime(p: User, t: string)
    ensures Merge(p, EmptyPatch, t) == p.(updatedAt := Some(t))
  {
  }

  /** Later supplied fields win: two updates in a row are one update with the fields combined. */
  lemma MergeTwice(p: User, a: ProfilePatch, b: ProfilePatch, t1: string, t2: string)
    ensures Merge(Merge(p, a, t1), b, t2) ==
      Merge(p, ProfilePatch(
        if b.id.Some? then b.id else a.id, if b.userId.Some? then b.userId else a.userId,
        if b.email.Some? then b.email else a.email,
        if b.displayName.Some? then b.displayName else a.displayName,
        if b.avatarUrl.Some? then b.avatarUrl else a.avatarUrl,
        if b.preferences.Some? then b.preferences else a.preferences,
        if b.createdAt.Some? then b.createdAt else a.createdAt, None), t2)
  {
  }

  /** Applying the same update again at the same time changes nothing more. */
  lemma MergeIdempotent(p: User, patch: ProfilePatch, t: string)
    ensures Merge(Merge(p, patch, t), patch, t) == Merge(p, patch, t)
  {
  }

  class AuthProvider {
    var user: Option<AuthUser>
    var userProfile: Option<User>
    var isLoading: bool
    var storeCalls: seq<ProfileCall>

    /** A profile is held only while a user is signed in. */
    predicate Valid()
      reads this
    {
      userProfile.Some? ==> user.Some?
    }

    constructor ()
      ensures user.None? && userProfile.None? && isLoading && storeCalls == []
      ensures Valid()
    {
      user := None;
      userProfile := None;
      isLoading := true;
      storeCalls := [];
    }

    /** `isAuthenticated`: a user is present, as it is whenever a profile is held. */
    predicate IsAuthenticated()
      reads this
      ensures Valid() && userProfile.Some? ==> IsAuthenticated()
    {
      user.Some?
    }

    /**
     * The auth state callback. With a user, the first stored profile is taken (with
     * default preferences if it has none); if there is none, a new profile is created
     * and, once that succeeded, used. Failed store calls leave the profile as it was.
     * Without a user the profile is cleared.
     */
    method OnAuthStateChanged(state: AuthState, listed: Result<seq<User>, string>, freshId: string,
                              created: Outcome<string>)
      modifies this
      ensures user == state.user && isLoading == state.isLoading
      ensures IsAuthenticated() <==> state.user.Some?
      ensures Valid()
      ensures state.user.None? ==> userProfile.None? && storeCalls == old(storeCalls)
      ensures state.user.Some? && listed.Err? ==>
        userProfile == old(userProfile) && storeCalls == old(storeCalls) + [ListProfiles(state.user.value.id)]
      ensures state.user.Some? && listed.Ok? && |listed.value| > 0 ==>
        userProfile == Some(WithPreferences(listed.value[0])) &&
        storeCalls == old(storeCalls) + [ListProfiles(state.user.value.id)]
      ensures state.user.Some? && listed.Ok? && |listed.value| == 0 ==>
        var p := NewProfile(freshId, state.user.value);
        storeCalls == old(storeCalls) + [ListProfiles(state.user.value.id), CreateProfile(p)] &&
        userProfile == if created.Pass? then Some(p) else old(userProfile)
    {
      user := state.user;
      isLoading := state.isLoading;
      if state.user.None? {
        userProfile := None;
        return;
      }
      var u := state.user.value;
      storeCalls := storeCalls + [ListProfiles(u.id)];
      if listed.Err? {
        return;
      }
      if |listed.value| > 0 {
        userProfile := Some(WithPreferences(listed.value[0]));
      } else {
        var p := NewProfile(freshId, u);
        storeCalls := storeCalls + [CreateProfile(p)];
        if created.Pass? {
          userProfile := Some(p);
        }
      }
    }

    /**
     * `updateUserProfile`: without a profile nothing happens; otherwise the store is
     * updated and, once that succeeded, the supplied fields and the update time are
     * written into the local profile. A failure leaves it unchanged and is passed on.
     */
    method UpdateUserProfile(patch: ProfilePatch, now: string, updated: Outcome<string>) returns (r: Outcome<string>)
      modifies this
      ensures user == old(user) && isLoading == old(isLoading)
      ensures old(Valid()) ==> Valid()
      ensures old(userProfile).None? ==> r == Pass && userProfile.None? && storeCalls == old(storeCalls)
      ensures old(userProfile).Some? ==>
        r == updated &&
        storeCalls == old(storeCalls) + [UpdateProfile(old(userProfile).value.id, patch, now)] &&
        userProfile == if updated.Pass? then Some(Merge(old(userProfile).value, patch, now)) else old(userProfile)
    {
      if userProfile.None? {
        return Pass;
      }
      storeCalls := storeCalls + [UpdateProfile(userProfile.value.id, patch, now)];
      if updated.Fail? {
        return updated;
      }
      userProfile := Some(Merge(userProfile.value, patch, now));
      r := Pass;
    }
  }
}
