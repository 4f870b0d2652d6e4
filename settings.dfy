/** The settings panel (src/components/Settings.tsx): avatar-file validation,
    the save payload and its status message, the avatar URL with its fallback,
    and the profile load that keeps the stored avatar. */
module Settings {

  import opened Types
  import opened Text
  import opened BoardStore
  import opened UserStore

  /** The picked file's size in bytes and its MIME type. */
  datatype FileInfo = FileInfo(size: nat, mimeType: string)

  datatype FileVerdict = NoFile | TooLarge | WrongType | Accepted

  const MaxAvatarBytes: nat := 2 * 1024 * 1024

  /** `type.match(/image\/(jpeg|jpg|png|gif)/)`: the pattern is not anchored,
      so it is found anywhere in the string. */
  function MatchesImageType(mime: string): bool {
    || Includes(mime, "image/jpeg") || Includes(mime, "image/jpg")
    || Includes(mime, "image/png") || Includes(mime, "image/gif")
  }

  /** `handleFileChange`'s checks, in their order: a missing file, then the
      size, then the type. */
  function CheckFile(file: Option<FileInfo>): (v: FileVerdict)
    ensures v == NoFile <==> file.None?
    ensures v == TooLarge <==> file.Some? && file.value.size > MaxAvatarBytes
    ensures v == WrongType <==> file.Some? && file.value.size <= MaxAvatarBytes && !MatchesImageType(file.value.mimeType)
    ensures v == Accepted <==> file.Some? && file.value.size <= MaxAvatarBytes && MatchesImageType(file.value.mimeType)
  {
    match file
    case None => NoFile
    case Some(f) =>
      if f.size > MaxAvatarBytes then TooLarge
      else if !MatchesImageType(f.mimeType) then WrongType
      else Accepted
  }

  /** The alert each rejection shows. */
  function Alert(v: FileVerdict): (r: Option<string>)
    ensures r.Some? <==> v == TooLarge || v == WrongType
  {
    match v
    case TooLarge => Some("File size must be less than 2MB")
    case WrongType => Some("Only JPG, PNG, or GIF files are allowed")
    case _ => None
  }

  /** A file of exactly 2 MiB passes the size check; one byte more does not. */
  lemma SizeLimitIsInclusive(mime: string)
    ensures MatchesImageType(mime) ==> CheckFile(Some(FileInfo(2097152, mime))) == Accepted
    ensures CheckFile(Some(FileInfo(2097153, mime))) == TooLarge
  {
  }

  /** The four image types pass, and so does anything that merely contains one
      of them. */
  lemma TypeCheckIsUnanchored()
    ensures MatchesImageType("image/png") && MatchesImageType("image/jpeg")
    ensures MatchesImageType("image/jpg") && MatchesImageType("image/gif")
    ensures MatchesImageType("image/pngx")
    ensures MatchesImageType("x-image/gif+zip")
  {
    assert OccursAt("image/png", "image/png", 0);
    assert OccursAt("image/jpeg", "image/jpeg", 0);
    assert OccursAt("image/jpg", "image/jpg", 0);
    assert OccursAt("image/gif", "image/gif", 0);
    assert OccursAt("image/pngx", "image/png", 0);
    assert OccursAt("x-image/gif+zip", "image/gif", 2);
  }

  /** A type that does not contain `image/` (in lower case) is rejected. */
  lemma {:induction false} NoImageSlashRejected(mime: string)
    requires !Contains(mime, "image/")
    ensures !MatchesImageType(mime)
  {
    forall sub, lo | sub in {"image/jpeg", "image/jpg", "image/png", "image/gif"} && OccursAt(mime, sub, lo)
      ensures OccursAt(mime, "image/", lo)
    {
      assert sub[..6] == "image/";
      assert mime[lo..lo + 6] == mime[lo..lo + |sub|][..6];
    }
  }

  /** Other types are rejected, and the check is case-sensitive. */
  lemma OtherTypesRejected()
    ensures CheckFile(Some(FileInfo(1024, "text/plain"))) == WrongType
    ensures CheckFile(Some(FileInfo(1024, "IMAGE/PNG"))) == WrongType
  {
    forall lo | 0 <= lo <= 4 ensures !OccursAt("text/plain", "image/", lo) {
      assert "text/plain"[lo..lo + 6][0] != 'i';
    }
    NoImageSlashRejected("text/plain");
    forall lo | 0 <= lo <= 3 ensures !OccursAt("IMAGE/PNG", "image/", lo) {
      assert "IMAGE/PNG"[lo..lo + 6][0] != 'i';
    }
    NoImageSlashRejected("IMAGE/PNG");
  }

  /** The payload `handleSave` sends: the profile without `avatar`. */
  datatype ProfileData = ProfileData(id: string, name: string, email: string, role: string)

  function SavePayload(p: UserProfile): ProfileData {
    ProfileData(p.id, p.name, p.email, p.role)
  }

  function WithStoredAvatar(d: ProfileData, avatar: Option<string>): UserProfile {
    UserProfile(d.id, d.name, d.email, d.role, avatar)
  }

  /** The payload and the avatar together are the profile, and the avatar never
      reaches the server. */
  lemma SavePayloadSplitsProfile(p: UserProfile, avatar: string)
    ensures WithStoredAvatar(SavePayload(p), p.avatar) == p
    ensures SavePayload(WithAvatar(p, avatar)) == SavePayload(p)
  {
  }

  const SavedMessage := "Settings saved successfully!"
  const FailedMessage := "Failed to save settings. Please try again."

  const FallbackPrefix := "https://ui-avatars.com/api/?name="
  const FallbackSuffix := "&background=6366f1&color=fff&size=128"

  /** `getAvatarUrl`. `encode` stands for `encodeURIComponent`. */
  function AvatarUrl(p: UserProfile, encode: string -> string): (url: string)
    ensures p.avatar.Some? && p.avatar.value != "" ==> url == p.avatar.value
    ensures p.avatar.None? || p.avatar.value == "" ==> url == FallbackPrefix + encode(p.name) + FallbackSuffix
  {
    if p.avatar.Some? && p.avatar.value != "" then p.avatar.value
    else FallbackPrefix + encode(p.name) + FallbackSuffix
  }

  /** The URL is never empty; removing the avatar brings back the fallback, and
      setting a non-empty one shows it. */
  lemma AvatarUrlFollowsStore(p: UserProfile, avatar: string, encode: string -> string)
    ensures AvatarUrl(p, encode) != ""
    ensures AvatarUrl(WithAvatar(p, ""), encode) == FallbackPrefix + encode(p.name) + FallbackSuffix
    ensures avatar != "" ==> AvatarUrl(WithAvatar(p, avatar), encode) == avatar
  {
  }

  /** `{ ...userProfile, avatar: profile.avatar }` */
  function LoadedProfile(fetched: UserProfile, stored: UserProfile): UserProfile {
    fetched.(avatar := stored.avatar)
  }

  /** The loaded profile takes every field from the server but the avatar, and
      what is persisted does not change. */
  lemma LoadKeepsStoredAvatar(fetched: UserProfile, stored: UserProfile)
    ensures SavePayload(LoadedProfile(fetched, stored)) == SavePayload(fetched)
    ensures Partialize(LoadedProfile(fetched, stored)) == Partialize(stored)
  {
  }

  /** The load effect. The profile is fetched only while the name is empty;
      `fetched` is what the gateway answered (a failure is logged and
      ignored). */
  method LoadProfileEffect(store: ProfileStore, fetched: Outcome<UserProfile>)
    modifies store
    ensures old(store.profile.name) == "" && fetched.Ok? ==> store.profile == LoadedProfile(fetched.value, old(store.profile))
    ensures old(store.profile.name) != "" || fetched.Fail? ==> store.profile == old(store.profile)
  {
    if store.profile.name == "" && fetched.Ok? {
      store.SetProfile(LoadedProfile(fetched.value, store.profile));
    }
  }

  /** `handleFileChange`. `dataUrl` is what the file reader produces for the
      file; an accepted file becomes the avatar. */
  method HandleFileChange(store: ProfileStore, file: Option<FileInfo>, dataUrl: string) returns (verdict: FileVerdict)
    modifies store
    ensures verdict == CheckFile(file)
    ensures verdict == Accepted ==> store.profile == WithAvatar(old(store.profile), dataUrl)
    ensures verdict != Accepted ==> store.profile == old(store.profile)
  {
    verdict := CheckFile(file);
    if verdict == Accepted {
      store.SetAvatar(dataUrl);
    }
  }

  class SettingsPanel {
    var isLoading: bool
    var saveMessage: string

    constructor ()
      ensures !isLoading && saveMessage == ""
    {
      isLoading, saveMessage := false, "";
    }

    /** `handleSave` up to its `await`: the panel shows it is busy and clears
        the message, and the payload goes to the server. */
    method BeginSave(store: ProfileStore) returns (payload: ProfileData)
      modifies this
      ensures isLoading && saveMessage == ""
      ensures payload == SavePayload(store.profile)
    {
      isLoading, saveMessage := true, "";
      payload := SavePayload(store.profile);
    }

    /** `handleSave` after its `await`: the message reports the answer and the
        `finally` ends the busy state. `clearLater` says whether the timer that
        clears the message was started. */
    method FinishSave(answer: Outcome<ProfileData>) returns (clearLater: bool)
      modifies this
      ensures !isLoading
      ensures saveMessage == if answer.Ok? then SavedMessage else FailedMessage
      ensures clearLater <==> answer.Ok?
    {
      if answer.Ok? {
        saveMessage := SavedMessage;
        clearLater := true;
      } else {
        saveMessage := FailedMessage;
        clearLater := false;
      }
      isLoading := false;
    }

    /** The timer started after a successful save fires. */
    method ClearMessage()
      modifies this
      ensures saveMessage == "" && isLoading == old(isLoading)
    {
      saveMessage := "";
    }
  }
}
