/**
 * The profile page's edit form: saving checks that neither field is blank
 * and sends the trimmed values; cancelling reloads the fields from the user;
 * removing a track passes its id on.
 */
module ProfilePage {
  import opened Wrappers
  import opened JsText
  import opened UserContext

  /** `user?.name || ""` and `user?.email || ""`. */
  function NameOf(user: Option<ClientUser>): string
  {
    if user.Some? then user.value.name else ""
  }

  function EmailOf(user: Option<ClientUser>): string
  {
    if user.Some? then user.value.email else ""
  }

  /** Non-empty, with no whitespace at either end: what `trim` gives for a non-blank string. */
  predicate Trimmed(s: string)
  {
    s != [] && !IsWhitespace(s[0]) && !IsWhitespace(s[|s| - 1])
  }

  class ProfileState {
    var isEditing: bool
    var editName: string
    var editEmail: string

    /** The form starts from the user's name and email, not editing. */
    constructor (users: UserProvider)
      ensures !isEditing && editName == NameOf(users.user) && editEmail == EmailOf(users.user)
    {
      isEditing := false;
      editName := NameOf(users.user);
      editEmail := EmailOf(users.user);
    }

    /** `handleSaveProfile`: returns whether the update was made. */
    method HandleSaveProfile(users: UserProvider) returns (saved: bool)
      modifies this`isEditing, users`user
      ensures saved <==> !IsBlank(editName) && !IsBlank(editEmail)
      ensures !saved ==> users.user == old(users.user) && isEditing == old(isEditing)
      ensures saved ==>
        && users.user == Merged(old(users.user), ProfileUpdate(Some(Trim(editName)), Some(Trim(editEmail))))
        && !isEditing
      // a saved name and email are never blank and carry no surrounding whitespace
      ensures saved && users.user.Some? ==>
        && Trimmed(users.user.value.name) && Trimmed(users.user.value.email)
    {
      var name, email := Trim(editName), Trim(editEmail);
      if name == "" || email == "" {
        return false;
      }
      assert Trimmed(name) && Trimmed(email);
      users.UpdateProfile(ProfileUpdate(Some(name), Some(email)));
      isEditing := false;
      saved := true;
    }

    /** `handleCancelEdit`: the fields go back to the user's values and editing ends. */
    method HandleCancelEdit(users: UserProvider)
      modifies this
      ensures editName == NameOf(users.user) && editEmail == EmailOf(users.user) && !isEditing
    {
      editName := NameOf(users.user);
      editEmail := EmailOf(users.user);
      isEditing := false;
    }

    /** `handleRemoveTrack`: exactly that id is removed from the saved list. */
    method HandleRemoveTrack(users: UserProvider, trackId: string)
      modifies users`savedTracks
      ensures users.savedTracks == Filtered(old(users.savedTracks), trackId)
    {
      users.RemoveTrack(trackId);
    }
  }
}
