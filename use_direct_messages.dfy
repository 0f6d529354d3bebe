/**
 * The signed-in user's conversation list (`useDirectMessages`).
 *
 * Loading joins four fetched tables on the client: the conversations, their participation rows,
 * the participants' profiles and the conversations' messages newest first. Creating a
 * conversation first looks for an existing direct conversation with the same person. Every
 * backend reply is a parameter.
 */
module UseDirectMessages {
  import opened Common
  import opened Types

  // ---------------------------------------------------------------------------
  // Latest message per conversation

  predicate InConversation(m: MessageSummary, convId: string) {
    m.conversationId == Some(convId)
  }

  /** The first message of `conversation` in a list ordered newest first. */
  function LatestOf(messages: seq<MessageSummary>, convId: string): (r: Option<MessageSummary>)
    ensures r.None? <==> forall i :: 0 <= i < |messages| ==> !InConversation(messages[i], convId)
    ensures r.Some? ==> exists i :: (0 <= i < |messages| && messages[i] == r.value && InConversation(r.value, convId)
                                     && forall j :: 0 <= j < i ==> !InConversation(messages[j], convId))
  {
    FirstWhere(messages, (m: MessageSummary) => InConversation(m, convId))
  }

  /** The `forEach` that fills `lastMessagesMap`: a message is recorded under its conversation
      id when that id is truthy and nothing is recorded for it yet. */
  method LastMessageByConversation(messages: seq<MessageSummary>) returns (latest: map<string, MessageSummary>)
    ensures "" !in latest
    ensures forall c :: c in latest <==> c != "" && LatestOf(messages, c).Some?
    ensures forall c :: c in latest ==> LatestOf(messages, c) == Some(latest[c])
  {
    latest := map[];
    var i := 0;
    while i < |messages|
      invariant 0 <= i <= |messages|
      invariant "" !in latest
      invariant forall c :: c in latest <==> c != "" && LatestOf(messages[..i], c).Some?
      invariant forall c :: c in latest ==> LatestOf(messages[..i], c) == Some(latest[c])
    {
      var m := messages[i];
      LatestOfExtend(messages, i);
      if m.conversationId.Some? && m.conversationId.value != "" && m.conversationId.value !in latest {
        latest := latest[m.conversationId.value := m];
      }
      i := i + 1;
    }
    assert messages[..i] == messages;
  }

  /** Reading one more message can only settle a conversation that had no latest message yet. */
  lemma LatestOfExtend(messages: seq<MessageSummary>, i: nat)
    requires i < |messages|
    ensures forall c ::
      LatestOf(messages[..i + 1], c) ==
        (if LatestOf(messages[..i], c).Some? then LatestOf(messages[..i], c)
         else if InConversation(messages[i], c) then Some(messages[i])
         else None)
  {
    assert messages[..i + 1][..i] == messages[..i];
  }

  // ---------------------------------------------------------------------------
  // Participants per conversation

  /** `userIds`: each participant's user id once, in order of first appearance. */
  function ParticipantUserIds(rows: seq<ParticipantRow>): (r: seq<string>)
    ensures NoDuplicates(r)
    ensures forall u :: u in r <==> exists i :: 0 <= i < |rows| && rows[i].userId == u
  {
    var ids := seq(|rows|, i requires 0 <= i < |rows| => rows[i].userId);
    assert forall i :: 0 <= i < |rows| ==> ids[i] == rows[i].userId;
    Distinct(ids)
  }

  function RowsOf(rows: seq<ParticipantRow>, convId: string): seq<ParticipantRow> {
    Filter(rows, (p: ParticipantRow) => p.conversationId == convId)
  }

  /** One participant with the snapshot of its profile. */
  function Join(p: ParticipantRow, profiles: seq<ProfileSummary>): Participant {
    Participant(p.id, p.userId, Snapshot(LookupProfile(profiles, p.userId), p.userId))
  }

  /** The participants of one conversation: its participation rows, each joined with its profile. */
  function ConversationParticipants(rows: seq<ParticipantRow>, profiles: seq<ProfileSummary>, convId: string): (r: seq<Participant>)
    ensures |r| == |RowsOf(rows, convId)|
    ensures forall i :: 0 <= i < |r| ==> r[i].id == RowsOf(rows, convId)[i].id && r[i].userId == RowsOf(rows, convId)[i].userId
    ensures forall i :: 0 <= i < |r| ==> r[i].user.id == r[i].userId
    ensures forall i :: 0 <= i < |r| ==> r[i].user == Snapshot(LookupProfile(profiles, r[i].userId), r[i].userId)
  {
    var sel := RowsOf(rows, convId);
    seq(|sel|, i requires 0 <= i < |sel| => Join(sel[i], profiles))
  }

  /** A participant with a profile shows that profile's name and avatar, when they are set;
      `k` is the participant's profile (the last one with that id, as the `Map` keeps). */
  lemma ParticipantShowsProfile(rows: seq<ParticipantRow>, profiles: seq<ProfileSummary>, convId: string, i: nat, k: nat)
    requires i < |ConversationParticipants(rows, profiles, convId)| && k < |profiles|
    requires profiles[k].id == RowsOf(rows, convId)[i].userId
    requires forall j :: k < j < |profiles| ==> profiles[j].id != RowsOf(rows, convId)[i].userId
    ensures ConversationParticipants(rows, profiles, convId)[i].user.displayName == OrNone(profiles[k].displayName)
    ensures ConversationParticipants(rows, profiles, convId)[i].user.avatarUrl == OrNone(profiles[k].avatarUrl)
  {
    LookupFindsLast(profiles, RowsOf(rows, convId)[i].userId, k);
  }

  /** The rows joined into a conversation are exactly its participation rows, in order. */
  lemma RowsOfSelectsExactly(rows: seq<ParticipantRow>, convId: string)
    ensures IsSubsequence(RowsOf(rows, convId), rows)
    ensures forall p :: p in RowsOf(rows, convId) <==> p in rows && p.conversationId == convId
  {
    FilterIsSubsequence(rows, (p: ParticipantRow) => p.conversationId == convId);
  }

  /** `conversationsWithParticipants`: the conversations in the order fetched, each with its
      participants and its latest message (`lastMessagesMap.get(conv.id) || undefined`). */
  function BuildConversations(
    convs: seq<Conversation>, rows: seq<ParticipantRow>, profiles: seq<ProfileSummary>,
    latest: map<string, MessageSummary>): (r: seq<ConversationView>)
    ensures |r| == |convs|
    ensures forall i :: 0 <= i < |r| ==> r[i].conversation == convs[i]
    ensures forall i :: 0 <= i < |r| ==> r[i].participants == ConversationParticipants(rows, profiles, convs[i].id)
    ensures forall i :: 0 <= i < |r| ==> (r[i].lastMessage.Some? <==> convs[i].id in latest)
    ensures forall i :: 0 <= i < |r| ==> convs[i].id in latest ==> r[i].lastMessage == Some(latest[convs[i].id])
  {
    seq(|convs|, i requires 0 <= i < |convs| =>
      ConversationView(
        convs[i],
        ConversationParticipants(rows, profiles, convs[i].id),
        if convs[i].id in latest then Some(latest[convs[i].id]) else None))
  }

  // ---------------------------------------------------------------------------
  // Creating, renaming and leaving

  /** `CreateDirectMessageInput`. */
  datatype CreateInput = CreateInput(participantIds: seq<string>, name: Option<string>, kind: Option<ConversationType>)

  /** `input.type || (input.participant_ids.length === 1 ? 'direct' : 'group')` */
  function ConversationKind(input: CreateInput): (k: ConversationType)
    ensures input.kind.Some? ==> k == input.kind.value
    ensures input.kind.None? ==> (k == Direct <==> |input.participantIds| == 1)
  {
    if input.kind.Some? then input.kind.value
    else if |input.participantIds| == 1 then Direct else Group
  }

  /** The existing-conversation lookup runs only for a direct conversation with one other person. */
  predicate LooksForExisting(input: CreateInput)
    ensures LooksForExisting(input) <==>
      |input.participantIds| == 1 && (input.kind.None? || input.kind == Some(Direct))
  {
    ConversationKind(input) == Direct && |input.participantIds| == 1
  }

  /** A `direct_messages` row of type direct that the signed-in user takes part in. */
  datatype ExistingConversation = ExistingConversation(id: string)

  /** The loop over `existingConvs`: the first conversation in which the other user takes part,
      where `hasOther(id)` is the backend's answer for conversation `id`. */
  method FindExisting(convs: seq<ExistingConversation>, hasOther: string -> bool) returns (found: Option<string>)
    ensures found.None? <==> forall i :: 0 <= i < |convs| ==> !hasOther(convs[i].id)
    ensures found.Some? ==> exists i :: (0 <= i < |convs| && convs[i].id == found.value && hasOther(found.value)
                                         && forall j :: 0 <= j < i ==> !hasOther(convs[j].id))
  {
    var i := 0;
    while i < |convs|
      invariant 0 <= i <= |convs|
      invariant forall j :: 0 <= j < i ==> !hasOther(convs[j].id)
    {
      if hasOther(convs[i].id) {
        return Some(convs[i].id);
      }
      i := i + 1;
    }
    return None;
  }

  /** The `direct_messages` row a new conversation is inserted as. */
  datatype NewConversation = NewConversation(name: Option<string>, kind: ConversationType)

  /** A `direct_message_participants` row to insert. */
  datatype NewParticipant = NewParticipant(conversationId: string, userId: string)

  function NewConversationRow(input: CreateInput): (r: NewConversation)
    ensures r.kind == ConversationKind(input)
    ensures r.name.Some? <==> Truthy(input.name)
    ensures r.name.Some? ==> r.name == input.name
  {
    NewConversation(OrNone(input.name), ConversationKind(input))
  }

  /** The participation rows inserted for a new conversation: the creator first, then each
      requested participant in order. */
  function NewParticipants(convId: string, self: string, others: seq<string>): (r: seq<NewParticipant>)
    ensures |r| == |others| + 1
    ensures r[0] == NewParticipant(convId, self)
    ensures forall i :: 0 <= i < |others| ==> r[i + 1] == NewParticipant(convId, others[i])
    ensures forall i :: 0 <= i < |r| ==> r[i].conversationId == convId
  {
    [NewParticipant(convId, self)] + seq(|others|, i requires 0 <= i < |others| => NewParticipant(convId, others[i]))
  }

  /** What `createConversation` did. */
  datatype CreateOutcome =
    | Rejected(error: string)
    | Reused(id: string)
    | Created(row: NewConversation, id: string, participants: seq<NewParticipant>)
    | Failed(error: string)

  const CreateLoginError := "You must be logged in to create a conversation"
  const UpdateLoginError := "You must be logged in to update a conversation"
  const LeaveLoginError := "You must be logged in to leave a conversation"

  /** `...(input.name !== undefined && { name: input.name || null })`: no field for an absent
      name, and a null name for an empty one. */
  function RenamePatch(name: Option<string>): (patch: Option<Option<string>>)
    ensures patch.Some? <==> name.Some?
    ensures patch.Some? ==> (patch.value.None? <==> name.value == "")
    ensures patch.Some? && patch.value.Some? ==> patch.value == name
  {
    if name.Some? then Some(OrNone(name)) else None
  }

  /** The hook's state: the conversation list, the loading flag and the last error. */
  class ConversationList {
    /** The signed-in user's id, or None when signed out. */
    const user: Option<string>
    var conversations: seq<ConversationView>
    var loading: bool
    var error: Option<string>

    constructor (user: Option<string>)
      ensures this.user == user && conversations == [] && loading && error == None
    {
      this.user := user;
      conversations := [];
      loading := true;
      error := None;
    }

    /** `fetchConversations`, given what each query returned: the ids of the user's
        conversations, the conversations, all their participation rows, the profiles and the
        messages newest first. The profile and message queries' errors are ignored, as in the
        source (a null reply is an empty list). A failure keeps the list shown. */
    method Load(
      ownIds: Result<seq<string>, Thrown>, convs: Result<seq<Conversation>, Thrown>,
      rows: Result<seq<ParticipantRow>, Thrown>, profiles: seq<ProfileSummary>,
      messages: seq<MessageSummary>)
      modifies this`conversations, this`loading, this`error
      ensures !loading
      ensures user.None? ==> conversations == old(conversations) && error == old(error)
      ensures user.Some? && ownIds.Success? && ownIds.value == [] ==> conversations == [] && error == None
      ensures user.Some? && ownIds.Failure? ==>
        conversations == old(conversations) && error == Some(ErrorMessage(ownIds.error, "An error occurred"))
      ensures user.Some? && ownIds.Success? && ownIds.value != [] && convs.Failure? ==>
        conversations == old(conversations) && error == Some(ErrorMessage(convs.error, "An error occurred"))
      ensures user.Some? && ownIds.Success? && ownIds.value != [] && convs.Success? && rows.Failure? ==>
        conversations == old(conversations) && error == Some(ErrorMessage(rows.error, "An error occurred"))
      ensures user.Some? && ownIds.Success? && ownIds.value != [] && convs.Success? && rows.Success? ==>
        error == None && |conversations| == |convs.value|
      ensures user.Some? && ownIds.Success? && ownIds.value != [] && convs.Success? && rows.Success? ==>
        forall i :: 0 <= i < |conversations| ==>
          && conversations[i].conversation == convs.value[i]
          && conversations[i].participants == ConversationParticipants(rows.value, profiles, convs.value[i].id)
          && conversations[i].lastMessage == (if convs.value[i].id == "" then None else LatestOf(messages, convs.value[i].id))
    {
      if user.None? {
        loading := false;
        return;
      }
      loading := true;
      error := None;
      if ownIds.Failure? {
        error := Some(ErrorMessage(ownIds.error, "An error occurred"));
      } else if ownIds.value == [] {
        conversations := [];
      } else if convs.Failure? {
        error := Some(ErrorMessage(convs.error, "An error occurred"));
      } else if rows.Failure? {
        error := Some(ErrorMessage(rows.error, "An error occurred"));
      } else {
        var latest := LastMessageByConversation(messages);
        conversations := BuildConversations(convs.value, rows.value, profiles, latest);
      }
      loading := false;
    }

    /** `createConversation`. `existing` is the list of the user's direct conversations (None when
        a lookup query returned null), `hasOther` the answer to "is the other user in that one?",
        and `created` the insert's reply. On `Reused` and `Created` the hook refetches the list. */
    method Create(
      input: CreateInput, existing: Option<seq<ExistingConversation>>, hasOther: string -> bool,
      created: Result<string, Thrown>) returns (out: CreateOutcome)
      modifies this`error
      ensures user.None? <==> out == Rejected(CreateLoginError)
      ensures user.Some? ==> !out.Rejected?
      ensures user.Some? && !out.Reused? ==> (out.Created? <==> created.Success?)
      ensures out.Reused? ==>
        (LooksForExisting(input) && existing.Some? && hasOther(out.id)
         && exists i :: (0 <= i < |existing.value| && existing.value[i].id == out.id
                         && forall j :: 0 <= j < i ==> !hasOther(existing.value[j].id)))
      ensures LooksForExisting(input) && existing.Some? && (exists i :: 0 <= i < |existing.value| && hasOther(existing.value[i].id))
        ==> out.Reused? || out.Rejected?
      ensures out.Created? ==>
        (created.Success? && out.id == created.value && out.row == NewConversationRow(input)
         && out.participants == NewParticipants(created.value, user.value, input.participantIds))
      ensures out.Failed? ==> created.Failure? && out.error == ErrorMessage(created.error, "Failed to create conversation")
      ensures out.Failed? ==> error == Some(out.error)
      ensures out.Rejected? ==> error == old(error)
      ensures out.Reused? || out.Created? ==> error == None
    {
      if user.None? {
        return Rejected(CreateLoginError);
      }
      error := None;
      if LooksForExisting(input) && existing.Some? {
        var found := FindExisting(existing.value, hasOther);
        if found.Some? {
          return Reused(found.value);
        }
      }
      match created {
        case Failure(thrown) =>
          out := Failed(ErrorMessage(thrown, "Failed to create conversation"));
          error := Some(out.error);
        case Success(id) =>
          out := Created(NewConversationRow(input), id, NewParticipants(id, user.value, input.participantIds));
      }
    }

    /** `updateConversation(conversationId, input)`: `issued` is the conversation id and the
        patch sent (None when signed out), `thrown` the backend's error, if any. */
    method Rename(conversationId: string, name: Option<string>, thrown: Option<Thrown>)
      returns (issued: Option<(string, Option<Option<string>>)>, err: Option<string>)
      modifies this`error
      ensures issued.Some? <==> user.Some?
      ensures issued.Some? ==> issued.value == (conversationId, RenamePatch(name))
      ensures issued.None? ==> err == Some(UpdateLoginError) && error == old(error)
      ensures issued.Some? ==> err == FailureMessage(thrown, "Failed to update conversation") && error == err
    {
      if user.None? {
        return None, Some(UpdateLoginError);
      }
      issued := Some((conversationId, RenamePatch(name)));
      error := None;
      err := FailureMessage(thrown, "Failed to update conversation");
      error := err;
    }

    /** `leaveConversation(conversationId)`: the participation row of the conversation and the
        signed-in user is deleted exactly when someone is signed in; `issued` names that row. */
    method Leave(conversationId: string, thrown: Option<Thrown>) returns (issued: Option<(string, string)>, err: Option<string>)
      modifies this`error
      ensures issued.Some? <==> user.Some?
      ensures issued.Some? ==> issued.value == (conversationId, user.value)
      ensures issued.None? ==> err == Some(LeaveLoginError) && error == old(error)
      ensures issued.Some? ==> err == FailureMessage(thrown, "Failed to leave conversation") && error == err
    {
      if user.None? {
        return None, Some(LeaveLoginError);
      }
      issued := Some((conversationId, user.value));
      error := None;
      err := FailureMessage(thrown, "Failed to leave conversation");
      error := err;
    }
  }
}
