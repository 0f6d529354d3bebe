/**
 * The schema-validated dialogs (`CreateServerModal`, `ProfileEditModal`): the length limits of
 * their schemas, the input or update built from a valid form, and when each dialog resets and
 * closes. Lengths are counted in characters.
 */
module FormModals {
  import opened Common
  import opened Types
  import opened UseServers

  // ---------------------------------------------------------------------------
  // Creating a server

  const MaxServerName := 100
  const MaxServerDescription := 500

  /** The create-server form's values. */
  datatype ServerForm = ServerForm(name: string, description: string, isPublic: bool)

  /** The form's default values: empty fields and a public server. */
  const DefaultServerForm := ServerForm("", "", true)

  /** The schema's message for each field, or None when the field is acceptable. */
  datatype ServerFormErrors = ServerFormErrors(name: Option<string>, description: Option<string>)

  /** `serverSchema`: the name must have 1 to 100 characters, the description at most 500. */
  function ValidateServerForm(form: ServerForm): (errors: ServerFormErrors)
    ensures errors.name.None? <==> 1 <= |form.name| <= MaxServerName
    ensures form.name == "" ==> errors.name == Some("Server name is required")
    ensures |form.name| > MaxServerName ==> errors.name == Some("Server name too long")
    ensures errors.description.None? <==> |form.description| <= MaxServerDescription
    ensures errors.description.Some? ==> errors.description == Some("Description too long")
  {
    ServerFormErrors(
      if |form.name| < 1 then Some("Server name is required")
      else if |form.name| > MaxServerName then Some("Server name too long")
      else None,
      if |form.description| > MaxServerDescription then Some("Description too long") else None)
  }

  predicate ServerFormValid(form: ServerForm) {
    ValidateServerForm(form) == ServerFormErrors(None, None)
  }

  /** `onSubmit`'s input: an empty description and a missing or empty icon are left out. */
  function ServerInputOf(form: ServerForm, iconUrl: Option<string>): (input: CreateServerInput)
    ensures input.name == form.name && input.isPublic == Some(form.isPublic)
    ensures input.description == NonEmpty(form.description)
    ensures input.iconUrl == OrNone(iconUrl)
  {
    CreateServerInput(form.name, NonEmpty(form.description), OrNone(iconUrl), Some(form.isPublic))
  }

  /** A server created from the untouched form is public, and the inserted row carries exactly
      the form's name, description (null when empty) and icon. */
  lemma ServerRowFromForm(form: ServerForm, iconUrl: Option<string>, ownerId: string)
    ensures var row := NewServerRow(ServerInputOf(form, iconUrl), ownerId);
      && row.name == form.name && row.isPublic == form.isPublic && row.ownerId == ownerId
      && row.description == NonEmpty(form.description) && row.iconUrl == OrNone(iconUrl)
    ensures NewServerRow(ServerInputOf(DefaultServerForm, iconUrl), ownerId).isPublic
  {
    var input := ServerInputOf(form, iconUrl);
    assert Truthy(input.description) <==> input.description.Some?;
    assert Truthy(input.iconUrl) <==> input.iconUrl.Some?;
  }

  class ServerDialog {
    var form: ServerForm
    var iconUrl: Option<string>
    var open: bool
    var toast: Option<Toast>

    constructor ()
      ensures form == DefaultServerForm && iconUrl.None? && open && toast.None?
    {
      form := DefaultServerForm;
      iconUrl := None;
      open := true;
      toast := None;
    }

    /** `handleSubmit(onSubmit)` up to the call: the schema's errors are shown and nothing is
        sent, or the input is passed to `onCreate`. */
    method BeginSubmit() returns (errors: ServerFormErrors, input: Option<CreateServerInput>)
      ensures errors == ValidateServerForm(form)
      ensures input.Some? <==> ServerFormValid(form)
      ensures input.Some? ==> input.value == ServerInputOf(form, iconUrl)
    {
      errors := ValidateServerForm(form);
      if errors == ServerFormErrors(None, None) {
        input := Some(ServerInputOf(form, iconUrl));
      } else {
        input := None;
      }
    }

    /** The rest of `onSubmit`: an error keeps the form and icon; success resets both and closes. */
    method FinishSubmit(error: Option<string>)
      modifies this`form, this`iconUrl, this`open, this`toast
      ensures Truthy(error) ==>
        && toast == Some(ErrorToast("Failed to create server", error.value))
        && form == old(form) && iconUrl == old(iconUrl) && open == old(open)
      ensures !Truthy(error) ==>
        && toast == Some(SuccessToast("Server created!", Some("Your server has been successfully created.")))
        && form == DefaultServerForm && iconUrl.None? && !open
    {
      if Truthy(error) {
        toast := Some(ErrorToast("Failed to create server", error.value));
      } else {
        toast := Some(SuccessToast("Server created!", Some("Your server has been successfully created.")));
        form := DefaultServerForm;
        iconUrl := None;
        open := false;
      }
    }

    /** `handleClose`: the form and icon reset and the dialog closes. */
    method Close()
      modifies this`form, this`iconUrl, this`open
      ensures form == DefaultServerForm && iconUrl.None? && !open
    {
      form := DefaultServerForm;
      iconUrl := None;
      open := false;
    }
  }

  // ---------------------------------------------------------------------------
  // Editing one's profile

  const MaxDisplayName := 50
  const MaxStatusMessage := 200

  datatype ProfileForm = ProfileForm(displayName: string, statusMessage: string)

  datatype ProfileFormErrors = ProfileFormErrors(displayName: Option<string>, statusMessage: Option<string>)

  /** `profileSchema`: the display name must have 1 to 50 characters, the status at most 200. */
  function ValidateProfileForm(form: ProfileForm): (errors: ProfileFormErrors)
    ensures errors.displayName.None? <==> 1 <= |form.displayName| <= MaxDisplayName
    ensures form.displayName == "" ==> errors.displayName == Some("Display name is required")
    ensures |form.displayName| > MaxDisplayName ==> errors.displayName == Some("Display name too long")
    ensures errors.statusMessage.None? <==> |form.statusMessage| <= MaxStatusMessage
    ensures errors.statusMessage.Some? ==> errors.statusMessage == Some("Status message too long")
  {
    ProfileFormErrors(
      if |form.displayName| < 1 then Some("Display name is required")
      else if |form.displayName| > MaxDisplayName then Some("Display name too long")
      else None,
      if |form.statusMessage| > MaxStatusMessage then Some("Status message too long") else None)
  }

  predicate ProfileFormValid(form: ProfileForm) {
    ValidateProfileForm(form) == ProfileFormErrors(None, None)
  }

  /** The values shown for a profile: its name and status, '' where they are null or empty. */
  function ProfileFormOf(profile: Profile): (form: ProfileForm)
    ensures Truthy(profile.displayName) ==> form.displayName == profile.displayName.value
    ensures !Truthy(profile.displayName) ==> form.displayName == ""
    ensures Truthy(profile.statusMessage) ==> form.statusMessage == profile.statusMessage.value
    ensures !Truthy(profile.statusMessage) ==> form.statusMessage == ""
  {
    ProfileForm(
      if Truthy(profile.displayName) then profile.displayName.value else "",
      if Truthy(profile.statusMessage) then profile.statusMessage.value else "")
  }

  /** `updates`: the name and the status (null when empty), and the avatar URL only when one
      is set; `avatarUrl` None means the key is left out. */
  datatype ProfileUpdates = ProfileUpdates(displayName: string, statusMessage: Option<string>, avatarUrl: Option<string>)

  function UpdatesOf(form: ProfileForm, avatarUrl: Option<string>): (u: ProfileUpdates)
    ensures u.displayName == form.displayName
    ensures u.statusMessage == NonEmpty(form.statusMessage)
    ensures u.avatarUrl.Some? <==> Truthy(avatarUrl)
    ensures u.avatarUrl.Some? ==> u.avatarUrl == avatarUrl
  {
    ProfileUpdates(form.displayName, NonEmpty(form.statusMessage), if Truthy(avatarUrl) then avatarUrl else None)
  }

  /** The backend applying the partial update to the stored profile. */
  function Updated(p: Profile, u: ProfileUpdates): Profile {
    p.(displayName := Some(u.displayName), statusMessage := u.statusMessage, avatarUrl := if u.avatarUrl.Some? then u.avatarUrl else p.avatarUrl)
  }

  /** Saving a profile sets its name and status as typed (an empty status clears it), changes
      the avatar only when the dialog holds a URL, and keeps the profile's id. Reopening the
      dialog on the result shows what was saved. */
  lemma SavedProfileMatchesForm(p: Profile, form: ProfileForm, avatarUrl: Option<string>)
    requires ProfileFormValid(form)
    ensures var after := Updated(p, UpdatesOf(form, avatarUrl));
      && after.id == p.id
      && after.displayName == Some(form.displayName)
      && after.statusMessage == NonEmpty(form.statusMessage)
      && after.avatarUrl == (if Truthy(avatarUrl) then avatarUrl else p.avatarUrl)
      && ProfileFormOf(after) == form
  {
    var after := Updated(p, UpdatesOf(form, avatarUrl));
    assert form.displayName != "";
    assert Truthy(after.displayName);
  }

  class ProfileDialog {
    var form: ProfileForm
    var avatarUrl: Option<string>
    var open: bool
    var toast: Option<Toast>

    constructor (profile: Option<Profile>)
      ensures profile.Some? ==> form == ProfileFormOf(profile.value)
      ensures profile.None? ==> form == ProfileForm("", "")
      ensures avatarUrl.None? && open && toast.None?
    {
      form := if profile.Some? then ProfileFormOf(profile.value) else ProfileForm("", "");
      avatarUrl := None;
      open := true;
      toast := None;
    }

    /** The effect run when the `profile` prop changes: a profile resets the form to its values
        and takes its avatar URL; null changes nothing. */
    method Sync(profile: Option<Profile>)
      modifies this`form, this`avatarUrl
      ensures profile.Some? ==> form == ProfileFormOf(profile.value) && avatarUrl == profile.value.avatarUrl
      ensures profile.None? ==> form == old(form) && avatarUrl == old(avatarUrl)
    {
      if profile.Some? {
        form := ProfileFormOf(profile.value);
        avatarUrl := profile.value.avatarUrl;
      }
    }

    /** `handleSubmit(onSubmit)` up to the call. */
    method BeginSubmit() returns (errors: ProfileFormErrors, updates: Option<ProfileUpdates>)
      ensures errors == ValidateProfileForm(form)
      ensures updates.Some? <==> ProfileFormValid(form)
      ensures updates.Some? ==> updates.value == UpdatesOf(form, avatarUrl)
    {
      errors := ValidateProfileForm(form);
      if errors == ProfileFormErrors(None, None) {
        updates := Some(UpdatesOf(form, avatarUrl));
      } else {
        updates := None;
      }
    }

    /** The rest of `onSubmit`: the dialog closes only when the update reported no error. */
    method FinishSubmit(error: Option<string>)
      modifies this`open, this`toast
      ensures Truthy(error) ==> toast == Some(ErrorToast("Update failed", error.value)) && open == old(open)
      ensures !Truthy(error) ==>
        toast == Some(SuccessToast("Profile updated", Some("Your profile has been successfully updated."))) && !open
    {
      if Truthy(error) {
        toast := Some(ErrorToast("Update failed", error.value));
      } else {
        toast := Some(SuccessToast("Profile updated", Some("Your profile has been successfully updated.")));
        open := false;
      }
    }
  }
}
