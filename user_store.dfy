/** The user-profile store (src/store/userStore.ts): one mutable `profile`
    replaced by each setter, and the projection of it that is persisted. */
module UserStore {

  import opened Types

  /** The id of the only user the application knows. */
  const CurrentUserId: string := "1"

  function InitialProfile(): (p: UserProfile)
    ensures p.id == CurrentUserId
    ensures p.name == "" && p.email == "" && p.role == "" && p.avatar == Some("")
  {
    UserProfile(CurrentUserId, "", "", "", Some(""))
  }

  /** A `Partial<UserProfile>`: one `Patch` per key. `avatar` is optional, so a
      present key may carry `undefined`. */
  datatype ProfilePatch = ProfilePatch(
    id: Patch<string>,
    name: Patch<string>,
    email: Patch<string>,
    role: Patch<string>,
    avatar: Patch<Option<string>>)

  const NoChanges := ProfilePatch(Keep, Keep, Keep, Keep, Keep)

  /** `{ ...profile, ...updates }` */
  function Spread(p: UserProfile, u: ProfilePatch): UserProfile {
    UserProfile(u.id.Over(p.id), u.name.Over(p.name), u.email.Over(p.email),
                u.role.Over(p.role), u.avatar.Over(p.avatar))
  }

  /** `{ ...profile, avatar }` */
  function WithAvatar(p: UserProfile, avatar: string): UserProfile {
    p.(avatar := Some(avatar))
  }

  /** The persisted state: `{ profile: { avatar } }`. */
  datatype Persisted = Persisted(avatar: Option<string>)

  /** `partialize` */
  function Partialize(p: UserProfile): Persisted {
    Persisted(p.avatar)
  }

  class ProfileStore {
    var profile: UserProfile

    constructor ()
      ensures profile == InitialProfile()
    {
      profile := InitialProfile();
    }

    /** `setProfile`: the whole profile is replaced. */
    method SetProfile(p: UserProfile)
      modifies this
      ensures profile == p
    {
      profile := p;
    }

    method SetAvatar(avatar: string)
      modifies this
      ensures profile == WithAvatar(old(profile), avatar)
    {
      profile := WithAvatar(profile, avatar);
    }

    /** `removeAvatar`: the avatar becomes `''`, not `undefined`. */
    method RemoveAvatar()
      modifies this
      ensures profile == WithAvatar(old(profile), "")
    {
      profile := profile.(avatar := Some(""));
    }

    method UpdateProfile(updates: ProfilePatch)
      modifies this
      ensures profile == Spread(old(profile), updates)
    {
      profile := Spread(profile, updates);
    }

    function Persist(): Persisted
      reads this
    {
      Partialize(profile)
    }
  }

  /** Every key the update carries is overwritten, even with `undefined`; every
      key it leaves out is kept. */
  lemma SpreadOverwritesExactlyGiven(p: UserProfile, u: ProfilePatch)
    ensures var r := Spread(p, u);
      && (u.id.Set? ==> r.id == u.id.v) && (u.id.Keep? ==> r.id == p.id)
      && (u.name.Set? ==> r.name == u.name.v) && (u.name.Keep? ==> r.name == p.name)
      && (u.email.Set? ==> r.email == u.email.v) && (u.email.Keep? ==> r.email == p.email)
      && (u.role.Set? ==> r.role == u.role.v) && (u.role.Keep? ==> r.role == p.role)
      && (u.avatar.Set? ==> r.avatar == u.avatar.v) && (u.avatar.Keep? ==> r.avatar == p.avatar)
  {
  }

  lemma SpreadNothingIsIdentity(p: UserProfile)
    ensures Spread(p, NoChanges) == p
  {
  }

  /** Applying the same update twice is applying it once. */
  lemma SpreadIdempotent(p: UserProfile, u: ProfilePatch)
    ensures Spread(Spread(p, u), u) == Spread(p, u)
  {
  }

  /** Setting the avatar changes the avatar and nothing else, and removing it is
      setting it to the empty string. */
  lemma WithAvatarChangesOnlyAvatar(p: UserProfile, avatar: string)
    ensures WithAvatar(p, avatar).avatar == Some(avatar)
    ensures WithAvatar(p, avatar).(avatar := p.avatar) == p
    ensures WithAvatar(p, avatar) == Spread(p, NoChanges.(avatar := Set(Some(avatar))))
  {
  }

  /** Two profiles persist the same state exactly when their avatars agree, so
      nothing but the avatar survives a reload. */
  lemma PartializeKeepsOnlyAvatar(p: UserProfile, q: UserProfile)
    ensures Partialize(p) == Partialize(q) <==> p.avatar == q.avatar
    ensures Partialize(WithAvatar(p, "")) == Persisted(Some(""))
  {
  }

  /** A store that sets and then removes the avatar persists the empty avatar,
      and keeps the rest of the profile it had. */
  method AvatarSetThenRemoved(avatar: string) returns (store: ProfileStore)
    ensures store.profile == InitialProfile()
    ensures store.Persist() == Persisted(Some(""))
  {
    store := new ProfileStore();
    store.SetAvatar(avatar);
    assert store.Persist() == Persisted(Some(avatar));
    store.RemoveAvatar();
  }
}
