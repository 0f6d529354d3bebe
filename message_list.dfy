/**
 * The message list (`MessageList`): a spinner while loading, a placeholder for an empty feed,
 * and otherwise every message in order, with the author's avatar shown only where a run of
 * messages by the same author begins.
 */
module MessageList {
  import opened Common
  import opened Types

  /** One entry of `groupedMessages`. */
  datatype Grouped = Grouped(message: MessageWithUser, showAvatar: bool)

  /** What the component renders. */
  datatype ListView = Spinner | NoMessagesYet | Items(items: seq<Grouped>)

  /** Message `i` starts a run: it is the first message, or its author differs from the
      previous message's author. */
  predicate StartsRun(messages: seq<MessageWithUser>, i: nat)
    requires i < |messages|
  {
    i == 0 || messages[i].row.userId != messages[i - 1].row.userId
  }

  /** The `forEach` over `messages` that pushes `{ message, showAvatar }` and remembers the last
      author id (null before the first message). */
  method GroupMessages(messages: seq<MessageWithUser>) returns (grouped: seq<Grouped>)
    ensures |grouped| == |messages|
    ensures forall i :: 0 <= i < |messages| ==> grouped[i].message == messages[i]
    ensures forall i :: 0 <= i < |messages| ==> (grouped[i].showAvatar <==> StartsRun(messages, i))
  {
    grouped := [];
    var lastUserId: Option<string> := None;
    var i := 0;
    while i < |messages|
      invariant 0 <= i <= |messages|
      invariant |grouped| == i
      invariant forall k :: 0 <= k < i ==> grouped[k].message == messages[k]
      invariant forall k :: 0 <= k < i ==> (grouped[k].showAvatar <==> StartsRun(messages, k))
      invariant i == 0 <==> lastUserId.None?
      invariant i > 0 ==> lastUserId == Some(messages[i - 1].row.userId)
    {
      var message := messages[i];
      var showAvatar := lastUserId != Some(message.row.userId);
      grouped := grouped + [Grouped(message, showAvatar)];
      lastUserId := Some(message.row.userId);
      i := i + 1;
    }
  }

  /** The component's output for a feed and its loading flag. */
  method Render(messages: seq<MessageWithUser>, loading: bool) returns (view: ListView)
    ensures loading ==> view == Spinner
    ensures !loading && messages == [] ==> view == NoMessagesYet
    ensures !loading && messages != [] ==> view.Items? && |view.items| == |messages|
    ensures view.Items? ==> forall i :: 0 <= i < |messages| ==>
      view.items[i].message == messages[i] && (view.items[i].showAvatar <==> StartsRun(messages, i))
    ensures view.Items? ==> view.items[0].showAvatar
  {
    if loading {
      return Spinner;
    }
    if |messages| == 0 {
      return NoMessagesYet;
    }
    var grouped := GroupMessages(messages);
    return Items(grouped);
  }
}
