/**
 * The conversation list (`DMList`): for each conversation, who the other participants are, the
 * name shown, the avatars shown and a one-line preview of the latest message.
 */
module DMList {
  import opened Common
  import opened Types

  /** `p.user_id !== currentUserId` */
  predicate NotViewer(p: Participant, currentUserId: string) {
    p.userId != currentUserId
  }

  /** `currentUserId ? participants.filter(p => p.user_id !== currentUserId) : participants.slice(1)`:
      with a viewer, everyone else in their original order, led by the first participant who is
      not the viewer. */
  function OtherParticipants(participants: seq<Participant>, currentUserId: Option<string>): (r: seq<Participant>)
    ensures Truthy(currentUserId) ==> forall p :: p in r <==> p in participants && p.userId != currentUserId.value
    ensures Truthy(currentUserId) ==> IsSubsequence(r, participants)
    ensures Truthy(currentUserId) ==>
      (r != [] <==> exists i :: 0 <= i < |participants| && participants[i].userId != currentUserId.value)
    ensures Truthy(currentUserId) && r != [] ==>
      exists k :: (0 <= k < |participants| && r[0] == participants[k] && participants[k].userId != currentUserId.value
                   && forall j :: 0 <= j < k ==> participants[j].userId == currentUserId.value)
    ensures !Truthy(currentUserId) ==> r == (if participants == [] then [] else participants[1..])
    ensures |r| <= |participants|
  {
    if Truthy(currentUserId) then
      var me := currentUserId.value;
      var p := (q: Participant) => NotViewer(q, me);
      FilterIsSubsequence(participants, p);
      FilterHead(participants, p);
      Filter(participants, p)
    else if participants == [] then []
    else participants[1..]
  }

  /** The others never include the current user, whoever is listed first. */
  lemma OthersExcludeCurrentUser(participants: seq<Participant>, me: string)
    requires me != ""
    ensures forall i :: 0 <= i < |OtherParticipants(participants, Some(me))| ==>
      OtherParticipants(participants, Some(me))[i].userId != me
  {
    var r := OtherParticipants(participants, Some(me));
    assert forall i :: 0 <= i < |r| ==> r[i] in r;
  }

  /** `${n} members` */
  function MembersLabel(n: nat): string {
    NatToString(n) + " members"
  }

  /** The displayed name: the first rule that applies of a set name, the first other person's
      name in a direct conversation (or 'Unknown User'), the member count of a group, and
      'Direct Message'. */
  function DisplayName(conversation: ConversationView, others: seq<Participant>): (name: string)
    ensures name != ""
    ensures Truthy(conversation.conversation.name) ==> name == conversation.conversation.name.value
    ensures !Truthy(conversation.conversation.name) && conversation.conversation.kind == Direct && |others| > 0 ==>
      name == (if Truthy(others[0].user.displayName) then others[0].user.displayName.value else "Unknown User")
    ensures !Truthy(conversation.conversation.name) && conversation.conversation.kind == Direct && others == [] ==>
      name == "Direct Message"
    ensures !Truthy(conversation.conversation.name) && conversation.conversation.kind == Group ==>
      name == MembersLabel(|conversation.participants|)
  {
    var c := conversation.conversation;
    if Truthy(c.name) then c.name.value
    else if c.kind == Direct && |others| > 0 then
      (if Truthy(others[0].user.displayName) then others[0].user.displayName.value else "Unknown User")
    else if c.kind == Group then MembersLabel(|conversation.participants|)
    else "Direct Message"
  }

  /** An unnamed group reads as its member count, which can be read back from the label. */
  lemma {:induction false} GroupNameCountsMembers(conversation: ConversationView, others: seq<Participant>)
    requires !Truthy(conversation.conversation.name) && conversation.conversation.kind == Group
    ensures var name := DisplayName(conversation, others);
      && |name| > |" members"|
      && name[|name| - |" members"|..] == " members"
      && ParseNat(name[..|name| - |" members"|]) == |conversation.participants|
  {
    var digits := NatToString(|conversation.participants|);
    var name := digits + " members";
    assert name[..|name| - |" members"|] == digits;
    assert name[|name| - |" members"|..] == " members";
    NatToStringRoundTrip(|conversation.participants|);
  }

  /** `.filter(Boolean)` on nullable strings: the present, non-empty ones, in order. */
  function TruthyValues(s: seq<Option<string>>): (r: seq<string>)
    ensures |r| <= |s|
    ensures forall i :: 0 <= i < |r| ==> r[i] != ""
    ensures forall x :: x in r <==> Some(x) in s && x != ""
    ensures |s| == 1 ==> r == (if Truthy(s[0]) then [s[0].value] else [])
  {
    if s == [] then []
    else
      assert s == [s[0]] + s[1..];
      (if Truthy(s[0]) then [s[0].value] else []) + TruthyValues(s[1..])
  }

  /** The kept values of two lists in a row are those of the first followed by those of the
      second; with the one-element case this fixes both order and multiplicity. */
  lemma {:induction false} TruthyValuesConcat(a: seq<Option<string>>, b: seq<Option<string>>)
    ensures TruthyValues(a + b) == TruthyValues(a) + TruthyValues(b)
  {
    if a == [] {
      assert a + b == b;
    } else {
      assert (a + b)[0] == a[0];
      assert (a + b)[1..] == a[1..] + b;
      TruthyValuesConcat(a[1..], b);
    }
  }

  /** When every value is set, nothing is dropped and the order is kept. */
  lemma {:induction false} TruthyValuesAllSet(s: seq<Option<string>>)
    requires forall i :: 0 <= i < |s| ==> Truthy(s[i])
    ensures |TruthyValues(s)| == |s|
    ensures forall i :: 0 <= i < |s| ==> Some(TruthyValues(s)[i]) == s[i]
  {
    if s != [] {
      TruthyValuesAllSet(s[1..]);
      assert TruthyValues(s) == [s[0].value] + TruthyValues(s[1..]);
    }
  }

  /** `participants.slice(0, 3).map(p => p.user.avatar_url)` */
  function FirstAvatarUrls(ps: seq<Participant>): (urls: seq<Option<string>>)
    ensures |urls| == if |ps| <= 3 then |ps| else 3
    ensures forall i :: 0 <= i < |urls| ==> urls[i] == ps[i].user.avatarUrl
  {
    var firstThree := if |ps| <= 3 then ps else ps[..3];
    seq(|firstThree|, i requires 0 <= i < |firstThree| => firstThree[i].user.avatarUrl)
  }

  /** The avatar URLs shown: the first other person's in a direct conversation with others,
      otherwise those of the first three participants, in order; null and empty URLs are
      dropped. */
  function Avatars(conversation: ConversationView, others: seq<Participant>): (urls: seq<string>)
    ensures conversation.conversation.kind == Direct && |others| > 0 ==>
      urls == (if Truthy(others[0].user.avatarUrl) then [others[0].user.avatarUrl.value] else [])
    ensures !(conversation.conversation.kind == Direct && |others| > 0) ==>
      urls == TruthyValues(FirstAvatarUrls(conversation.participants))
    ensures |urls| <= 3
    ensures forall i :: 0 <= i < |urls| ==> urls[i] != ""
  {
    if conversation.conversation.kind == Direct && |others| > 0 then TruthyValues([others[0].user.avatarUrl])
    else TruthyValues(FirstAvatarUrls(conversation.participants))
  }

  /** A group whose first three members all have a picture shows exactly those pictures, in order. */
  lemma GroupAvatarsInOrder(conversation: ConversationView, others: seq<Participant>)
    requires conversation.conversation.kind == Group
    requires forall i :: 0 <= i < |conversation.participants| && i < 3 ==> Truthy(conversation.participants[i].user.avatarUrl)
    ensures var urls := Avatars(conversation, others);
      && |urls| == (if |conversation.participants| <= 3 then |conversation.participants| else 3)
      && forall i :: 0 <= i < |urls| ==> Some(urls[i]) == conversation.participants[i].user.avatarUrl
  {
    var u := FirstAvatarUrls(conversation.participants);
    assert forall i :: 0 <= i < |u| ==> u[i] == conversation.participants[i].user.avatarUrl;
    TruthyValuesAllSet(u);
    assert Avatars(conversation, others) == TruthyValues(u);
  }

  const PreviewLimit := 50

  /** `last_message ? (content.length > 50 ? content.substring(0, 50) + '...' : content) : 'No messages yet'` */
  function Preview(last: Option<MessageSummary>): (text: string)
    ensures last.None? ==> text == "No messages yet"
    ensures last.Some? && |last.value.content| <= PreviewLimit ==> text == last.value.content
    ensures last.Some? && |last.value.content| > PreviewLimit ==>
      |text| == PreviewLimit + 3 && text[..PreviewLimit] == last.value.content[..PreviewLimit] && text[PreviewLimit..] == "..."
    ensures last.Some? ==> |text| <= PreviewLimit + 3
  {
    if last.None? then "No messages yet"
    else
      var content := last.value.content;
      if |content| > PreviewLimit then content[..PreviewLimit] + "..." else content
  }

  /** One rendered row. */
  datatype Row = Row(id: string, selected: bool, name: string, avatars: seq<string>, preview: string)

  datatype ListView = Spinner | NoConversationsYet | Rows(rows: seq<Row>)

  /** One conversation's row: its id, whether it is the selected one, and the name, avatars and
      preview computed from it and the viewer's other participants. */
  function RowFor(conversation: ConversationView, selectedId: Option<string>, currentUserId: Option<string>): (row: Row)
    ensures row.id == conversation.conversation.id
    ensures row.selected <==> selectedId == Some(conversation.conversation.id)
    ensures row.name == DisplayName(conversation, OtherParticipants(conversation.participants, currentUserId))
    ensures row.avatars == Avatars(conversation, OtherParticipants(conversation.participants, currentUserId))
    ensures row.preview == Preview(conversation.lastMessage)
  {
    var others := OtherParticipants(conversation.participants, currentUserId);
    Row(conversation.conversation.id, selectedId == Some(conversation.conversation.id),
        DisplayName(conversation, others), Avatars(conversation, others), Preview(conversation.lastMessage))
  }

  /** The component's output: a spinner, the empty-list text, or one row per conversation in order. */
  function Render(conversations: seq<ConversationView>, loading: bool, selectedId: Option<string>, currentUserId: Option<string>): (view: ListView)
    ensures loading ==> view == Spinner
    ensures !loading && conversations == [] ==> view == NoConversationsYet
    ensures !loading && conversations != [] ==> view.Rows? && |view.rows| == |conversations|
    ensures view.Rows? ==> forall i :: 0 <= i < |conversations| ==>
      && view.rows[i].id == conversations[i].conversation.id && view.rows[i].name != ""
      && (view.rows[i].selected <==> selectedId == Some(conversations[i].conversation.id))
      && view.rows[i].name == DisplayName(conversations[i], OtherParticipants(conversations[i].participants, currentUserId))
      && view.rows[i].avatars == Avatars(conversations[i], OtherParticipants(conversations[i].participants, currentUserId))
      && view.rows[i].preview == Preview(conversations[i].lastMessage)
  {
    if loading then Spinner
    else if conversations == [] then NoConversationsYet
    else Rows(seq(|conversations|, i requires 0 <= i < |conversations| => RowFor(conversations[i], selectedId, currentUserId)))
  }

  /** With a viewer signed in, an unnamed direct conversation's row is named after the first
      participant who is not the viewer (or 'Unknown User' when that person has no name), and
      reads 'Direct Message' when the viewer is alone in it. */
  lemma DirectRowNamedAfterFirstOther(conversations: seq<ConversationView>, selectedId: Option<string>, me: string, i: nat)
    requires me != "" && i < |conversations|
    requires !Truthy(conversations[i].conversation.name) && conversations[i].conversation.kind == Direct
    ensures var view := Render(conversations, false, selectedId, Some(me));
      var ps := conversations[i].participants;
      && view.Rows?
      && ((forall j :: 0 <= j < |ps| ==> ps[j].userId == me) ==> view.rows[i].name == "Direct Message")
      && (forall k :: 0 <= k < |ps| && ps[k].userId != me && (forall j :: 0 <= j < k ==> ps[j].userId == me) ==>
            view.rows[i].name == (if Truthy(ps[k].user.displayName) then ps[k].user.displayName.value else "Unknown User"))
  {
    var ps := conversations[i].participants;
    var others := OtherParticipants(ps, Some(me));
    if others != [] {
      var k0 :| 0 <= k0 < |ps| && others[0] == ps[k0] && ps[k0].userId != me
                && forall j :: 0 <= j < k0 ==> ps[j].userId == me;
      forall k | 0 <= k < |ps| && ps[k].userId != me && (forall j :: 0 <= j < k ==> ps[j].userId == me)
        ensures k == k0
      {
      }
    }
  }
}
