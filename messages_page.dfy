/**
 * The direct-messages page (`src/app/messages/page.tsx`): the title of the open conversation,
 * the "new conversation" dialog with its user search and participant selection, and the box
 * for editing one of one's own messages.
 */
module MessagesPage {
  import opened Common
  import opened Types

  // ---------------------------------------------------------------------------
  // The header

  /** `conversations.find(c => c.id === conversationId)`: the first conversation with that id,
      and none exactly when no conversation has it (or there is no id). */
  function SelectedConversation(conversations: seq<ConversationView>, conversationId: Option<string>): (r: Option<ConversationView>)
    ensures r.None? <==> forall i :: 0 <= i < |conversations| ==> Some(conversations[i].conversation.id) != conversationId
    ensures r.Some? ==> exists i :: (0 <= i < |conversations| && conversations[i] == r.value
                                     && Some(r.value.conversation.id) == conversationId
                                     && forall j :: 0 <= j < i ==> Some(conversations[j].conversation.id) != conversationId)
    ensures conversationId.None? ==> r.None?
  {
    FirstWhere(conversations, (c: ConversationView) => Some(c.conversation.id) == conversationId)
  }

  /** `p.user_id !== user?.id`: with nobody signed in every participant qualifies. */
  predicate IsOther(p: Participant, user: Option<string>) {
    user.None? || p.userId != user.value
  }

  /** The participant a direct conversation is named after: the first one who is not the
      viewer, and none exactly when every participant is the viewer. */
  function OtherParticipant(participants: seq<Participant>, user: Option<string>): (r: Option<Participant>)
    ensures r.None? <==> forall i :: 0 <= i < |participants| ==> !IsOther(participants[i], user)
    ensures r.Some? ==> exists k :: (0 <= k < |participants| && participants[k] == r.value && IsOther(r.value, user)
                                     && forall j :: 0 <= j < k ==> !IsOther(participants[j], user))
    ensures user.None? && participants != [] ==> r == Some(participants[0])
  {
    FirstWhere(participants, (p: Participant) => IsOther(p, user))
  }

  /** `getConversationName` */
  function ConversationName(selected: Option<ConversationView>, user: Option<string>): (name: string)
    ensures name != ""
    ensures selected.None? ==> name == "Messages"
    ensures selected.Some? && Truthy(selected.value.conversation.name) ==> name == selected.value.conversation.name.value
    ensures selected.Some? && !Truthy(selected.value.conversation.name) && selected.value.conversation.kind == Direct ==>
      var other := OtherParticipant(selected.value.participants, user);
      name == (if other.Some? && Truthy(other.value.user.displayName) then other.value.user.displayName.value
               else "Direct Message")
    ensures selected.Some? && !Truthy(selected.value.conversation.name) && selected.value.conversation.kind == Group ==>
      name == NatToString(|selected.value.participants|) + " members"
  {
    match selected
    case None => "Messages"
    case Some(c) =>
      if Truthy(c.conversation.name) then c.conversation.name.value
      else if c.conversation.kind == Direct then
        var other := OtherParticipant(c.participants, user);
        if other.Some? && Truthy(other.value.user.displayName) then other.value.user.displayName.value else "Direct Message"
      else NatToString(|c.participants|) + " members"
  }

  /** An unnamed direct conversation seen by a signed-in viewer is named after the first
      participant who is not the viewer, or reads 'Direct Message' when that person has no name
      or the viewer is alone in it. */
  lemma DirectNameIsSomeoneElse(c: ConversationView, me: string)
    requires !Truthy(c.conversation.name) && c.conversation.kind == Direct
    ensures var name := ConversationName(Some(c), Some(me)); var ps := c.participants;
      && ((forall j :: 0 <= j < |ps| ==> ps[j].userId == me) ==> name == "Direct Message")
      && (forall k :: 0 <= k < |ps| && ps[k].userId != me && (forall j :: 0 <= j < k ==> ps[j].userId == me) ==>
            name == (if Truthy(ps[k].user.displayName) then ps[k].user.displayName.value else "Direct Message"))
  {
    var ps := c.participants;
    var other := OtherParticipant(ps, Some(me));
    if other.Some? {
      var k0 :| 0 <= k0 < |ps| && ps[k0] == other.value && IsOther(other.value, Some(me))
                && forall j :: 0 <= j < k0 ==> !IsOther(ps[j], Some(me));
      forall k | 0 <= k < |ps| && ps[k].userId != me && (forall j :: 0 <= j < k ==> ps[j].userId == me)
        ensures k == k0
      {
      }
    }
  }

  // ---------------------------------------------------------------------------
  // Participant selection

  /** Clicking a search result: a selected id is removed, an unselected one is appended. */
  function Toggle(selected: seq<string>, id: string): (r: seq<string>)
    ensures id in r <==> id !in selected
    ensures forall x :: x != id ==> (x in r <==> x in selected)
    ensures id !in selected ==> r == selected + [id]
  {
    if id in selected then Filter(selected, (x: string) => x != id) else selected + [id]
  }

  /** Toggling keeps the selection free of duplicates. */
  lemma ToggleKeepsNoDuplicates(selected: seq<string>, id: string)
    requires NoDuplicates(selected)
    ensures NoDuplicates(Toggle(selected, id))
  {
    if id in selected {
      var p := (x: string) => x != id;
      FilterKeepsUniqueBy(selected, p, (x: string) => x);
      var r := Filter(selected, p);
      assert forall i, j :: 0 <= i < j < |r| ==> r[i] != r[j];
    } else {
      var r := selected + [id];
      forall i, j | 0 <= i < j < |r| ensures r[i] != r[j] {
        if j < |selected| {
          assert r[i] == selected[i] && r[j] == selected[j];
        } else {
          assert r[i] == selected[i];
        }
      }
    }
  }

  /** Toggling an unselected id twice gives the selection back. */
  lemma ToggleTwiceRestores(selected: seq<string>, id: string)
    requires id !in selected
    ensures Toggle(Toggle(selected, id), id) == selected
  {
    var p := (x: string) => x != id;
    FilterConcat(selected, [id], p);
    FilterKeepsAll(selected, p);
    assert Filter([id], p) == [];
  }

  /** The × on a selected user's chip: exactly that id leaves the selection, and the others
      keep their order; an id not selected changes nothing. */
  function RemoveChip(selected: seq<string>, id: string): (r: seq<string>)
    ensures id !in r
    ensures forall x :: x != id ==> (x in r <==> x in selected)
    ensures IsSubsequence(r, selected)
    ensures id !in selected ==> r == selected
  {
    var p := (x: string) => x != id;
    FilterIsSubsequence(selected, p);
    if id in selected then Filter(selected, p)
    else
      FilterKeepsAll(selected, p);
      Filter(selected, p)
  }

  // ---------------------------------------------------------------------------
  // The edit box

  /** The update an edit submits, given the text the handler read (None when it read nothing):
      the trimmed text for the message being edited, and no update for a blank text. */
  function EditUpdate(messageId: string, text: Option<string>): (update: Option<(string, string)>)
    ensures update.Some? <==> text.Some? && !IsBlank(text.value)
    ensures update.Some? ==> update.value == (messageId, Trim(text.value)) && update.value.1 != ""
  {
    if text.Some? && !IsBlank(text.value) then
      BlankIffTrimEmpty(text.value);
      Some((messageId, Trim(text.value)))
    else None
  }

  /** The text the Save button reads, as written: it looks the box up with
      `document.querySelector('textarea[defaultValue]')`. React hands `defaultValue` to a
      textarea as its initial text, not as an attribute, so no element matches and the
      optional chain yields undefined, whatever the box holds. */
  function SaveTextAsWritten(boxText: string): (text: Option<string>)
    ensures text.None?
  {
    None
  }

  /** The text the Save button is evidently meant to read: the box's current text, the same
      text the Enter handler reads. */
  function SaveText(boxText: string): (text: Option<string>)
    ensures text == Some(boxText)
  {
    Some(boxText)
  }

  /** As written, Save never submits an edit, even one that Enter would submit. */
  lemma SaveAsWrittenDropsEdit(messageId: string)
    ensures EditUpdate(messageId, SaveTextAsWritten("fixed typo")).None?
    ensures EditUpdate(messageId, Some("fixed typo")) == Some((messageId, "fixed typo"))
  {
    assert IsJsWhitespace('f') == false && IsJsWhitespace('o') == false;
    assert Trim("fixed typo") == "fixed typo";
  }

  /** With the box's text, Save submits exactly what Enter submits. */
  lemma SaveMatchesEnter(messageId: string, boxText: string)
    ensures EditUpdate(messageId, SaveText(boxText)) == EditUpdate(messageId, Some(boxText))
    ensures !IsBlank(boxText) ==> EditUpdate(messageId, SaveText(boxText)) == Some((messageId, Trim(boxText)))
  {
  }

  // ---------------------------------------------------------------------------
  // The page's state

  /** What `createConversation` answered: an error, or the id of the conversation. */
  datatype CreateReply = CreateReply(error: Option<string>, conversationId: Option<string>)

  class Page {
    /** The signed-in user's id, or None. */
    const user: Option<string>
    var selectedUsers: seq<string>
    var searchQuery: string
    var searchResults: seq<ProfileSummary>
    var createOpen: bool
    var editing: Option<MessageWithUser>
    var toast: Option<Toast>
    var route: Option<string>

    ghost predicate Valid()
      reads this
    {
      NoDuplicates(selectedUsers)
    }

    constructor (user: Option<string>)
      ensures this.user == user && Valid()
      ensures selectedUsers == [] && searchQuery == "" && searchResults == [] && !createOpen
      ensures editing.None? && toast.None? && route.None?
    {
      this.user := user;
      selectedUsers := [];
      searchQuery := "";
      searchResults := [];
      createOpen := false;
      editing := None;
      toast := None;
      route := None;
    }

    /** Typing in the search box (`onChange` and `handleSearchUsers`). `reply` is the profile
        search's rows, None when it failed or returned nothing. A blank query, or nobody signed
        in, clears the results without a search; a failed search keeps the old results. */
    method Search(query: string, reply: Option<seq<ProfileSummary>>) returns (searched: bool)
      modifies this`searchQuery, this`searchResults
      ensures searchQuery == query
      ensures searched <==> !IsBlank(query) && user.Some?
      ensures !searched ==> searchResults == []
      ensures searched && reply.Some? ==> searchResults == reply.value
      ensures searched && reply.None? ==> searchResults == old(searchResults)
    {
      searchQuery := query;
      if IsBlank(query) || user.None? {
        searchResults := [];
        return false;
      }
      if reply.Some? {
        searchResults := reply.value;
      }
      return true;
    }

    method ToggleUser(id: string)
      requires Valid()
      modifies this`selectedUsers
      ensures Valid() && selectedUsers == Toggle(old(selectedUsers), id)
    {
      ToggleKeepsNoDuplicates(selectedUsers, id);
      selectedUsers := Toggle(selectedUsers, id);
    }

    method RemoveUser(id: string)
      requires Valid()
      modifies this`selectedUsers
      ensures Valid() && selectedUsers == RemoveChip(old(selectedUsers), id)
    {
      FilterKeepsUniqueBy(selectedUsers, (x: string) => x != id, (x: string) => x);
      selectedUsers := RemoveChip(selectedUsers, id);
      assert forall i, j :: 0 <= i < j < |selectedUsers| ==> selectedUsers[i] != selectedUsers[j];
    }

    /** `handleCreateConversation` up to the call: with nobody selected it shows an error and
        calls nothing; otherwise it asks to create a conversation with the selected users. */
    method BeginCreate() returns (request: Option<seq<string>>)
      modifies this`toast
      ensures selectedUsers == [] ==> request.None? && toast == Some(ErrorToast("Error", "Please select at least one user"))
      ensures selectedUsers != [] ==> request == Some(selectedUsers) && toast == old(toast)
    {
      if selectedUsers == [] {
        toast := Some(ErrorToast("Error", "Please select at least one user"));
        return None;
      }
      return Some(selectedUsers);
    }

    /** The rest of `handleCreateConversation`: an error (a non-empty message) is shown and the
        dialog kept as it is; otherwise the dialog is cleared and closed, and the page opens the
        conversation when one was returned. */
    method FinishCreate(reply: CreateReply)
      requires Valid()
      modifies this`toast, this`selectedUsers, this`searchQuery, this`searchResults, this`createOpen, this`route
      ensures Valid()
      ensures Truthy(reply.error) ==>
        && toast == Some(ErrorToast("Error", reply.error.value))
        && selectedUsers == old(selectedUsers) && searchQuery == old(searchQuery)
        && searchResults == old(searchResults) && createOpen == old(createOpen) && route == old(route)
      ensures !Truthy(reply.error) ==>
        && toast == Some(SuccessToast("Conversation created", None))
        && selectedUsers == [] && searchQuery == "" && searchResults == [] && !createOpen
        && route == (if reply.conversationId.Some? then Some("/messages?conversation=" + reply.conversationId.value) else old(route))
    {
      if Truthy(reply.error) {
        toast := Some(ErrorToast("Error", reply.error.value));
        return;
      }
      toast := Some(SuccessToast("Conversation created", None));
      selectedUsers := [];
      searchQuery := "";
      searchResults := [];
      createOpen := false;
      if reply.conversationId.Some? {
        route := Some("/messages?conversation=" + reply.conversationId.value);
      }
    }

    method StartEdit(m: MessageWithUser)
      modifies this`editing
      ensures editing == Some(m)
    {
      editing := Some(m);
    }

    /** Enter (without Shift) in the edit box, and Save as intended: `text` is what the box
        holds. `replyError` is the update's error, if any; on success the box closes. */
    method SubmitEdit(text: string, replyError: Option<string>) returns (update: Option<(string, string)>)
      requires editing.Some?
      modifies this`editing, this`toast
      ensures update == EditUpdate(old(editing).value.row.id, Some(text))
      ensures update.None? ==> editing == old(editing) && toast == old(toast)
      ensures update.Some? && Truthy(replyError) ==> editing == old(editing) && toast == Some(ErrorToast("Error", replyError.value))
      ensures update.Some? && !Truthy(replyError) ==> editing.None? && toast == old(toast)
    {
      update := EditUpdate(editing.value.row.id, Some(text));
      if update.None? {
        return;
      }
      if Truthy(replyError) {
        toast := Some(ErrorToast("Error", replyError.value));
      } else {
        editing := None;
      }
    }

    /** Escape or Cancel in the edit box. */
    method CancelEdit()
      modifies this`editing
      ensures editing.None?
    {
      editing := None;
    }
  }
}
