/**
 * The live message feed of one channel or conversation (`useMessages`).
 *
 * The feed is a list of messages with their authors' snapshots. A load replaces it wholesale; the
 * realtime subscription then delivers INSERT, UPDATE and DELETE events, each of which a pure
 * reducer applies to the list. Sending, editing and deleting validate their input and build the
 * row the backend is asked to write; the backend's answer is a parameter.
 */
module UseMessages {
  import opened Common
  import opened Types

  /** The hook's arguments: a channel id or a conversation id (either may be null). */
  datatype Scope = Scope(channelId: Option<string>, conversationId: Option<string>)

  /** `channelId || conversationId`: there is something to load and listen to. */
  predicate Bound(scope: Scope) {
    Truthy(scope.channelId) || Truthy(scope.conversationId)
  }

  function MessageId(m: MessageWithUser): string {
    m.row.id
  }

  /** `prev.some(m => m.id === id)` */
  predicate HasId(s: seq<MessageWithUser>, id: string) {
    exists i :: 0 <= i < |s| && s[i].row.id == id
  }

  /** The feed's invariant: no two entries share an id. */
  predicate UniqueIds(s: seq<MessageWithUser>) {
    UniqueBy(s, MessageId)
  }

  /** The rows of the feed, without the author snapshots. */
  function Rows(s: seq<MessageWithUser>): (r: seq<Message>)
    ensures |r| == |s|
    ensures forall i :: 0 <= i < |s| ==> r[i] == s[i].row
  {
    seq(|s|, i requires 0 <= i < |s| => s[i].row)
  }

  // ---------------------------------------------------------------------------
  // Load (fetchMessages)

  /** The transform of a fetched page: every row gets the snapshot of its author's profile. */
  function Enrich(rows: seq<Message>, profiles: seq<ProfileSummary>): (r: seq<MessageWithUser>)
    ensures Rows(r) == rows
    ensures forall i :: 0 <= i < |r| ==> r[i].user.id == rows[i].userId
    ensures forall i :: 0 <= i < |r| ==> r[i].user == Snapshot(LookupProfile(profiles, rows[i].userId), rows[i].userId)
  {
    var r := seq(|rows|, i requires 0 <= i < |rows| =>
      MessageWithUser(rows[i], Snapshot(LookupProfile(profiles, rows[i].userId), rows[i].userId)));
    assert Rows(r) == rows;
    r
  }

  /** A message whose author has a profile shows that profile's name and avatar, when they are
      set; `k` is the author's profile (the last one with that id, as the `Map` keeps). */
  lemma EnrichShowsAuthorProfile(rows: seq<Message>, profiles: seq<ProfileSummary>, i: nat, k: nat)
    requires i < |rows| && k < |profiles| && profiles[k].id == rows[i].userId
    requires forall j :: k < j < |profiles| ==> profiles[j].id != rows[i].userId
    ensures Enrich(rows, profiles)[i].user.id == rows[i].userId
    ensures Enrich(rows, profiles)[i].user.displayName == OrNone(profiles[k].displayName)
    ensures Enrich(rows, profiles)[i].user.avatarUrl == OrNone(profiles[k].avatarUrl)
  {
    LookupFindsLast(profiles, rows[i].userId, k);
  }

  /** Rows with distinct ids stay distinct once their authors are attached. */
  lemma EnrichKeepsUniqueIds(rows: seq<Message>, profiles: seq<ProfileSummary>)
    requires forall i, j :: 0 <= i < j < |rows| ==> rows[i].id != rows[j].id
    ensures UniqueIds(Enrich(rows, profiles))
  {
    var r := Enrich(rows, profiles);
    assert forall i :: 0 <= i < |r| ==> MessageId(r[i]) == Rows(r)[i].id;
  }

  // ---------------------------------------------------------------------------
  // The realtime reducer

  /** The author snapshot of an INSERT's row, from the profile fetched for it. */
  function Incoming(row: Message, profile: Option<ProfileSummary>): MessageWithUser {
    MessageWithUser(row, Snapshot(profile, row.userId))
  }

  /** INSERT: append, unless an entry with that id is already there. */
  function InsertMessage(prev: seq<MessageWithUser>, m: MessageWithUser): (r: seq<MessageWithUser>)
    ensures HasId(prev, m.row.id) ==> r == prev
    ensures !HasId(prev, m.row.id) ==> |r| == |prev| + 1 && r[..|prev|] == prev && r[|prev|] == m
    ensures HasId(r, m.row.id)
  {
    if HasId(prev, m.row.id) then prev else prev + [m]
  }

  /** UPDATE: every entry with the row's id takes the row's fields and keeps its author snapshot. */
  function UpdateMessage(prev: seq<MessageWithUser>, row: Message): (r: seq<MessageWithUser>)
    ensures |r| == |prev|
    ensures forall i :: 0 <= i < |prev| && prev[i].row.id != row.id ==> r[i] == prev[i]
    ensures forall i :: 0 <= i < |prev| && prev[i].row.id == row.id ==> r[i].row == row && r[i].user == prev[i].user
  {
    seq(|prev|, i requires 0 <= i < |prev| =>
      if prev[i].row.id == row.id then MessageWithUser(row, prev[i].user) else prev[i])
  }

  /** DELETE: drop every entry with that id. */
  function DeleteMessage(prev: seq<MessageWithUser>, id: string): (r: seq<MessageWithUser>)
    ensures !HasId(r, id)
    ensures forall m :: m in r <==> m in prev && m.row.id != id
  {
    var r := Filter(prev, (m: MessageWithUser) => m.row.id != id);
    assert forall i :: 0 <= i < |r| ==> r[i] in r;
    r
  }

  /** One realtime event as the subscription delivers it; an INSERT comes with the profile the
      handler fetched for its author. */
  datatype Event =
    | Insert(row: Message, profile: Option<ProfileSummary>)
    | Update(row: Message)
    | Delete(id: string)

  /** One event applied to the feed: after an INSERT its id is present, after a DELETE it is
      gone, and after an UPDATE every entry with its id carries the new row. */
  function ApplyEvent(prev: seq<MessageWithUser>, e: Event): (r: seq<MessageWithUser>)
    ensures |r| <= |prev| + 1
    ensures e.Insert? ==> HasId(r, e.row.id)
    ensures e.Delete? ==> !HasId(r, e.id) && |r| <= |prev|
    ensures e.Update? ==> |r| == |prev| && forall i :: 0 <= i < |r| && r[i].row.id == e.row.id ==> r[i].row == e.row
  {
    match e
    case Insert(row, profile) => InsertMessage(prev, Incoming(row, profile))
    case Update(row) => UpdateMessage(prev, row)
    case Delete(id) => DeleteMessage(prev, id)
  }

  /** The events in the order the subscription delivers them; each adds at most one entry. */
  function ApplyEvents(prev: seq<MessageWithUser>, events: seq<Event>): (r: seq<MessageWithUser>)
    ensures |r| <= |prev| + |events|
    decreases |events|
  {
    if events == [] then prev else ApplyEvents(ApplyEvent(prev, events[0]), events[1..])
  }

  /** A duplicate INSERT changes nothing: delivering the same row twice is delivering it once. */
  lemma InsertIdempotent(prev: seq<MessageWithUser>, m: MessageWithUser)
    ensures InsertMessage(InsertMessage(prev, m), m) == InsertMessage(prev, m)
  {
  }

  lemma InsertKeepsUniqueIds(prev: seq<MessageWithUser>, m: MessageWithUser)
    requires UniqueIds(prev)
    ensures UniqueIds(InsertMessage(prev, m))
  {
    if !HasId(prev, m.row.id) {
      var r := prev + [m];
      forall i, j | 0 <= i < j < |r| ensures MessageId(r[i]) != MessageId(r[j]) {
        if j == |prev| {
          assert r[i] == prev[i];
        } else {
          assert r[i] == prev[i] && r[j] == prev[j];
        }
      }
    }
  }

  /** An UPDATE never changes the list of ids, so it cannot break their uniqueness. */
  lemma UpdateKeepsIds(prev: seq<MessageWithUser>, row: Message)
    ensures forall i :: 0 <= i < |prev| ==> MessageId(UpdateMessage(prev, row)[i]) == MessageId(prev[i])
    ensures UniqueIds(prev) ==> UniqueIds(UpdateMessage(prev, row))
  {
    var r := UpdateMessage(prev, row);
    assert forall i :: 0 <= i < |prev| ==> MessageId(r[i]) == MessageId(prev[i]);
  }

  /** Delivering the same UPDATE twice is delivering it once. */
  lemma UpdateIdempotent(prev: seq<MessageWithUser>, row: Message)
    ensures UpdateMessage(UpdateMessage(prev, row), row) == UpdateMessage(prev, row)
  {
    var once := UpdateMessage(prev, row);
    var twice := UpdateMessage(once, row);
    assert forall i :: 0 <= i < |prev| ==> twice[i] == once[i];
  }

  /** An UPDATE for an id that is not in the feed is a no-op. */
  lemma UpdateAbsentIsNoop(prev: seq<MessageWithUser>, row: Message)
    requires !HasId(prev, row.id)
    ensures UpdateMessage(prev, row) == prev
  {
    var r := UpdateMessage(prev, row);
    assert forall i :: 0 <= i < |prev| ==> r[i] == prev[i];
  }

  /** A DELETE keeps the surviving entries in their order, and is a no-op for an absent id. */
  lemma DeleteKeepsOrder(prev: seq<MessageWithUser>, id: string)
    ensures IsSubsequence(DeleteMessage(prev, id), prev)
    ensures !HasId(prev, id) ==> DeleteMessage(prev, id) == prev
    ensures UniqueIds(prev) ==> UniqueIds(DeleteMessage(prev, id))
  {
    var p := (m: MessageWithUser) => m.row.id != id;
    FilterIsSubsequence(prev, p);
    if !HasId(prev, id) {
      FilterKeepsAll(prev, p);
    }
    if UniqueIds(prev) {
      FilterKeepsUniqueBy(prev, p, MessageId);
    }
  }

  lemma ApplyEventKeepsUniqueIds(prev: seq<MessageWithUser>, e: Event)
    requires UniqueIds(prev)
    ensures UniqueIds(ApplyEvent(prev, e))
  {
    match e
    case Insert(row, profile) => InsertKeepsUniqueIds(prev, Incoming(row, profile));
    case Update(row) => UpdateKeepsIds(prev, row);
    case Delete(id) => DeleteKeepsOrder(prev, id);
  }

  /** Whatever events arrive, in whatever order, a feed with unique ids keeps unique ids. */
  lemma {:induction false} ApplyEventsKeepsUniqueIds(prev: seq<MessageWithUser>, events: seq<Event>)
    requires UniqueIds(prev)
    ensures UniqueIds(ApplyEvents(prev, events))
    decreases |events|
  {
    if events != [] {
      ApplyEventKeepsUniqueIds(prev, events[0]);
      ApplyEventsKeepsUniqueIds(ApplyEvent(prev, events[0]), events[1..]);
    }
  }

  // ---------------------------------------------------------------------------
  // Send, edit and delete requests

  /** The row `sendMessage` inserts: the author, the trimmed text and exactly one scope column. */
  datatype NewMessage = NewMessage(userId: string, content: string, channelId: Option<string>, conversationId: Option<string>)

  const SendLoginError := "You must be logged in to send a message"
  const EmptyMessageError := "Message cannot be empty"

  /** The validation of `sendMessage` and the row it builds. */
  function SendRequest(scope: Scope, user: Option<string>, content: string): (r: Result<NewMessage, string>)
    ensures !Bound(scope) || user.None? ==> r == Failure(SendLoginError)
    ensures Bound(scope) && user.Some? && IsBlank(content) ==> r == Failure(EmptyMessageError)
    ensures r.Success? <==> Bound(scope) && user.Some? && !IsBlank(content)
    ensures r.Success? ==> r.value.userId == user.value && r.value.content == Trim(content)
    ensures r.Success? ==> (r.value.channelId.Some? != r.value.conversationId.Some?)
    ensures r.Success? && Truthy(scope.channelId) ==> r.value.channelId == scope.channelId
    ensures r.Success? && !Truthy(scope.channelId) ==> r.value.conversationId == scope.conversationId
  {
    if !Bound(scope) || user.None? then Failure(SendLoginError)
    else if IsBlank(content) then Failure(EmptyMessageError)
    else if Truthy(scope.channelId) then Success(NewMessage(user.value, Trim(content), scope.channelId, None))
    else Success(NewMessage(user.value, Trim(content), None, scope.conversationId))
  }

  /** `update({ content }).eq('id', messageId).eq('user_id', userId)` */
  datatype ContentPatch = ContentPatch(messageId: string, userId: string, content: string)

  const UpdateLoginError := "You must be logged in to update a message"
  const DeleteLoginError := "You must be logged in to delete a message"

  /** The validation of `updateMessage` and the patch it sends. */
  function EditRequest(user: Option<string>, messageId: string, content: string): (r: Result<ContentPatch, string>)
    ensures user.None? ==> r == Failure(UpdateLoginError)
    ensures user.Some? && IsBlank(content) ==> r == Failure(EmptyMessageError)
    ensures r.Success? <==> user.Some? && !IsBlank(content)
    ensures r.Success? ==> r.value == ContentPatch(messageId, user.value, Trim(content)) && !IsBlank(r.value.content)
  {
    if user.None? then Failure(UpdateLoginError)
    else if IsBlank(content) then Failure(EmptyMessageError)
    else
      TrimOfNonBlank(content);
      Success(ContentPatch(messageId, user.value, Trim(content)))
  }

  // ---------------------------------------------------------------------------
  // The hook's state

  class MessageFeed {
    const scope: Scope
    /** The signed-in user's id, or None when signed out. */
    const user: Option<string>
    var messages: seq<MessageWithUser>
    var loading: bool
    var error: Option<string>
    var sending: bool

    ghost predicate Valid()
      reads this
    {
      UniqueIds(messages)
    }

    constructor (scope: Scope, user: Option<string>)
      ensures this.scope == scope && this.user == user
      ensures Valid() && messages == [] && loading && error == None && !sending
    {
      this.scope := scope;
      this.user := user;
      messages := [];
      loading := true;
      error := None;
      sending := false;
    }

    /** `fetchMessages` with the page the backend returned (or the error it threw) and the
        author profiles it returned. Page rows come from the primary-keyed `messages` table, so
        their ids are distinct. A failed load keeps the messages already shown. */
    method Load(page: Result<seq<Message>, Thrown>, profiles: seq<ProfileSummary>)
      requires Valid()
      requires page.Success? ==> forall i, j :: 0 <= i < j < |page.value| ==> page.value[i].id != page.value[j].id
      modifies this`messages, this`loading, this`error
      ensures Valid() && !loading
      ensures !Bound(scope) || user.None? ==> messages == [] && error == old(error)
      ensures Bound(scope) && user.Some? && page.Success? ==>
        messages == Enrich(page.value, profiles) && error == None
      ensures Bound(scope) && user.Some? && page.Failure? ==>
        messages == old(messages) && error == Some(ErrorMessage(page.error, "An error occurred"))
    {
      if !Bound(scope) || user.None? {
        loading := false;
        messages := [];
        return;
      }
      loading := true;
      error := None;
      match page {
        case Success(rows) =>
          EnrichKeepsUniqueIds(rows, profiles);
          messages := Enrich(rows, profiles);
        case Failure(thrown) =>
          error := Some(ErrorMessage(thrown, "An error occurred"));
      }
      loading := false;
    }

    method ApplyInsert(row: Message, profile: Option<ProfileSummary>)
      requires Valid()
      modifies this`messages
      ensures Valid()
      ensures messages == InsertMessage(old(messages), Incoming(row, profile))
    {
      InsertKeepsUniqueIds(messages, Incoming(row, profile));
      messages := InsertMessage(messages, Incoming(row, profile));
    }

    method ApplyUpdate(row: Message)
      requires Valid()
      modifies this`messages
      ensures Valid()
      ensures messages == UpdateMessage(old(messages), row)
    {
      UpdateKeepsIds(messages, row);
      messages := UpdateMessage(messages, row);
    }

    method ApplyDelete(id: string)
      requires Valid()
      modifies this`messages
      ensures Valid()
      ensures messages == DeleteMessage(old(messages), id)
    {
      DeleteKeepsOrder(messages, id);
      messages := DeleteMessage(messages, id);
    }

    /** The synchronous part of `sendMessage`, up to the insert: a rejected message changes no
        state; an accepted one raises `sending`, clears the error and yields the row to insert. */
    method BeginSend(content: string) returns (r: Result<NewMessage, string>)
      modifies this`sending, this`error
      ensures r == SendRequest(scope, user, content)
      ensures r.Failure? ==> sending == old(sending) && error == old(error)
      ensures r.Success? ==> sending && error == None
    {
      r := SendRequest(scope, user, content);
      if r.Success? {
        sending := true;
        error := None;
      }
    }

    /** The rest of `sendMessage` once the insert answered: `thrown` is its error, if any. The
        message appears in the feed only through the INSERT event that follows. */
    method FinishSend(thrown: Option<Thrown>) returns (err: Option<string>)
      modifies this`sending, this`error
      ensures !sending
      ensures err == FailureMessage(thrown, "Failed to send message")
      ensures error == if err.Some? then err else old(error)
    {
      err := FailureMessage(thrown, "Failed to send message");
      if err.Some? {
        error := err;
      }
      sending := false;
    }

    /** `updateMessage`: `issued` is the patch sent to the backend (None when validation failed),
        `thrown` the backend's error, if any. */
    method Edit(messageId: string, content: string, thrown: Option<Thrown>) returns (issued: Option<ContentPatch>, err: Option<string>)
      modifies this`error
      ensures issued.Some? <==> EditRequest(user, messageId, content).Success?
      ensures issued.Some? ==> issued.value == EditRequest(user, messageId, content).value
      ensures issued.None? ==> err == Some(EditRequest(user, messageId, content).error) && error == old(error)
      ensures issued.Some? ==> err == FailureMessage(thrown, "Failed to update message") && error == err
    {
      var req := EditRequest(user, messageId, content);
      if req.Failure? {
        return None, Some(req.error);
      }
      issued := Some(req.value);
      error := None;
      err := FailureMessage(thrown, "Failed to update message");
      error := err;
    }

    /** `deleteMessage`: the delete is issued exactly when someone is signed in. */
    method Remove(messageId: string, thrown: Option<Thrown>) returns (issued: bool, err: Option<string>)
      modifies this`error
      ensures issued <==> user.Some?
      ensures !issued ==> err == Some(DeleteLoginError) && error == old(error)
      ensures issued ==> err == FailureMessage(thrown, "Failed to delete message") && error == err
    {
      if user.None? {
        return false, Some(DeleteLoginError);
      }
      issued := true;
      error := None;
      err := FailureMessage(thrown, "Failed to delete message");
      error := err;
    }
  }
}
