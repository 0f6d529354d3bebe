/**
 * The dialogs that create and edit a channel (`CreateChannelModal`, `EditChannelModal`): the
 * name check, how the typed fields become the hook's input, and what happens to the fields
 * on success, on error and on close.
 */
module ChannelModals {
  import opened Common
  import opened Types
  import opened UseChannels

  /** The toast for a blank channel name. */
  function NameRequiredToast(): Toast {
    ErrorToast("Name required", "Please enter a channel name")
  }

  // ---------------------------------------------------------------------------
  // Creating a channel

  /** The input `handleSubmit` passes to `onCreate`: the trimmed name, the trimmed description
      or nothing when it is blank, and the chosen type. */
  function CreateInputOf(name: string, description: string, kind: ChannelType): (input: CreateChannelInput)
    ensures input.name == Trim(name) && input.kind == Some(kind) && input.position.None?
    ensures input.description == TrimmedOrNone(description)
  {
    CreateChannelInput(Trim(name), TrimmedOrNone(description), Some(kind), None)
  }

  /** The row the hook inserts for the dialog's fields: the typed name and type, the trimmed
      description (null when blank) and the next free position. */
  lemma CreatedRowFromForm(serverId: string, name: string, description: string, kind: ChannelType, next: int)
    ensures var row := NewChannelRow(serverId, CreateInputOf(name, description, kind), next);
      && row.name == Trim(name) && row.kind == kind && row.position == next
      && row.description == TrimmedOrNone(description)
  {
    var input := CreateInputOf(name, description, kind);
    assert Truthy(input.description) <==> input.description.Some?;
  }

  class CreateForm {
    var name: string
    var description: string
    var kind: ChannelType
    var loading: bool
    /** Whether the dialog is shown; `onClose` hides it. */
    var open: bool
    var toast: Option<Toast>

    constructor ()
      ensures name == "" && description == "" && kind == Text && !loading && open && toast.None?
    {
      name := "";
      description := "";
      kind := Text;
      loading := false;
      open := true;
      toast := None;
    }

    /** `handleSubmit` up to the call: a blank name is refused with a toast and no call. */
    method BeginSubmit() returns (input: Option<CreateChannelInput>)
      modifies this`loading, this`toast
      ensures IsBlank(name) ==> input.None? && toast == Some(NameRequiredToast()) && loading == old(loading)
      ensures !IsBlank(name) ==> input == Some(CreateInputOf(name, description, kind)) && loading && toast == old(toast)
    {
      if IsBlank(name) {
        toast := Some(NameRequiredToast());
        return None;
      }
      loading := true;
      return Some(CreateInputOf(name, description, kind));
    }

    /** The rest of `handleSubmit`: an error keeps the fields; success resets them and closes. */
    method FinishSubmit(error: Option<string>)
      modifies this`name, this`description, this`kind, this`loading, this`open, this`toast
      ensures !loading
      ensures Truthy(error) ==>
        && toast == Some(ErrorToast("Error creating channel", error.value))
        && name == old(name) && description == old(description) && kind == old(kind) && open == old(open)
      ensures !Truthy(error) ==>
        && toast == Some(SuccessToast("Channel created", Some("Channel \"" + old(name) + "\" has been created")))
        && name == "" && description == "" && kind == Text && !open
    {
      loading := false;
      if Truthy(error) {
        toast := Some(ErrorToast("Error creating channel", error.value));
      } else {
        toast := Some(SuccessToast("Channel created", Some("Channel \"" + name + "\" has been created")));
        name := "";
        description := "";
        kind := Text;
        open := false;
      }
    }

    /** `handleClose`: ignored while a create is in flight; otherwise the fields reset. */
    method Close()
      modifies this`name, this`description, this`kind, this`open
      ensures old(loading) ==> name == old(name) && description == old(description) && kind == old(kind) && open == old(open)
      ensures !old(loading) ==> name == "" && description == "" && kind == Text && !open
    {
      if !loading {
        name := "";
        description := "";
        kind := Text;
        open := false;
      }
    }
  }

  // ---------------------------------------------------------------------------
  // Editing a channel

  /** The fields shown for a channel: its name, its description or '' when it has none, and its type. */
  function FieldsOf(c: Channel): (fields: (string, string, ChannelType))
    ensures fields.0 == c.name && fields.2 == c.kind
    ensures Truthy(c.description) ==> fields.1 == c.description.value
    ensures !Truthy(c.description) ==> fields.1 == ""
  {
    (c.name, if Truthy(c.description) then c.description.value else "", c.kind)
  }

  /** The input `handleSubmit` passes to `onUpdate`, as written: a blank description is sent
      as undefined, which the hook leaves out of the patch. */
  function UpdateInputAsWritten(name: string, description: string, kind: ChannelType): (input: UpdateChannelInput)
    ensures input.name == Some(Trim(name)) && input.kind == Some(kind) && input.position.None?
    ensures input.description == TrimmedOrNone(description)
  {
    UpdateChannelInput(Some(Trim(name)), TrimmedOrNone(description), Some(kind), None)
  }

  /** As written, emptying the description box and saving keeps the old description. */
  lemma ClearedDescriptionSurvives(c: Channel)
    requires Truthy(c.description)
    ensures Patched(c, UpdatePatch(UpdateInputAsWritten(c.name, "", c.kind))).description == c.description
  {
    assert IsBlank("");
  }

  /** The input the dialog evidently means to send: the trimmed description is always sent, so
      that the hook turns a blank one into null. */
  function UpdateInputOf(name: string, description: string, kind: ChannelType): (input: UpdateChannelInput)
    ensures input.name == Some(Trim(name)) && input.kind == Some(kind) && input.position.None?
    ensures input.description == Some(Trim(description))
  {
    UpdateChannelInput(Some(Trim(name)), Some(Trim(description)), Some(kind), None)
  }

  /** After saving, the channel has the dialog's trimmed name, its type and its trimmed
      description, with a blank description cleared; nothing else changes. */
  lemma SavedChannelMatchesForm(c: Channel, name: string, description: string, kind: ChannelType)
    ensures var after := Patched(c, UpdatePatch(UpdateInputOf(name, description, kind)));
      && after.name == Trim(name) && after.kind == kind
      && after.description == TrimmedOrNone(description)
      && after.id == c.id && after.serverId == c.serverId && after.position == c.position
  {
    var input := UpdateInputOf(name, description, kind);
    UpdateChangesDefinedFields(c, input);
    TrimOfNonBlank(description);
  }

  class EditForm {
    /** The `channel` prop. */
    var channel: Option<Channel>
    var name: string
    var description: string
    var kind: ChannelType
    var loading: bool
    var open: bool
    var toast: Option<Toast>

    constructor ()
      ensures channel.None? && name == "" && description == "" && kind == Text && !loading && open && toast.None?
    {
      channel := None;
      name := "";
      description := "";
      kind := Text;
      loading := false;
      open := true;
      toast := None;
    }

    /** The effect run when the `channel` prop changes: a channel fills the fields, null leaves
        them as they are. */
    method Sync(c: Option<Channel>)
      modifies this`channel, this`name, this`description, this`kind
      ensures channel == c
      ensures c.Some? ==> (name, description, kind) == FieldsOf(c.value)
      ensures c.None? ==> name == old(name) && description == old(description) && kind == old(kind)
    {
      channel := c;
      if c.Some? {
        var fields := FieldsOf(c.value);
        name, description, kind := fields.0, fields.1, fields.2;
      }
    }

    /** `handleSubmit` up to the call: nothing without a channel, a toast for a blank name, and
        otherwise the channel's id with the input (in its corrected form). */
    method BeginSubmit() returns (request: Option<(string, UpdateChannelInput)>)
      modifies this`loading, this`toast
      ensures channel.None? ==> request.None? && loading == old(loading) && toast == old(toast)
      ensures channel.Some? && IsBlank(name) ==> request.None? && loading == old(loading) && toast == Some(NameRequiredToast())
      ensures channel.Some? && !IsBlank(name) ==>
        request == Some((channel.value.id, UpdateInputOf(name, description, kind))) && loading && toast == old(toast)
    {
      if channel.None? {
        return None;
      }
      if IsBlank(name) {
        toast := Some(NameRequiredToast());
        return None;
      }
      loading := true;
      return Some((channel.value.id, UpdateInputOf(name, description, kind)));
    }

    /** The rest of `handleSubmit`: the fields stay as typed; success closes the dialog. */
    method FinishSubmit(error: Option<string>)
      modifies this`loading, this`open, this`toast
      ensures !loading
      ensures Truthy(error) ==> toast == Some(ErrorToast("Error updating channel", error.value)) && open == old(open)
      ensures !Truthy(error) ==>
        toast == Some(SuccessToast("Channel updated", Some("Channel \"" + name + "\" has been updated"))) && !open
    {
      loading := false;
      if Truthy(error) {
        toast := Some(ErrorToast("Error updating channel", error.value));
      } else {
        toast := Some(SuccessToast("Channel updated", Some("Channel \"" + name + "\" has been updated")));
        open := false;
      }
    }

    /** `handleClose`: ignored while saving or without a channel; otherwise the fields return
        to the channel's values and the dialog closes. */
    method Close()
      modifies this`name, this`description, this`kind, this`open
      ensures old(loading) || channel.None? ==>
        name == old(name) && description == old(description) && kind == old(kind) && open == old(open)
      ensures !old(loading) && channel.Some? ==> (name, description, kind) == FieldsOf(channel.value) && !open
    {
      if !loading && channel.Some? {
        var fields := FieldsOf(channel.value);
        name, description, kind := fields.0, fields.1, fields.2;
        open := false;
      }
    }
  }
}
