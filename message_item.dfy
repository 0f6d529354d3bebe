/**
 * One message in the feed (`MessageItem`): whether the viewer may edit or delete it, the name
 * shown and when the options menu appears.
 */
module MessageItem {
  import opened Common
  import opened Types

  /** `user?.id === message.user_id`; nobody signed in owns no message. */
  predicate IsOwnMessage(currentUser: Option<string>, message: MessageWithUser) {
    currentUser == Some(message.row.userId)
  }

  /** What the item offers. `hasOnEdit` and `hasOnDelete` say which handlers were passed. */
  datatype Permissions = Permissions(canEdit: bool, canDelete: bool)

  function PermissionsFor(currentUser: Option<string>, message: MessageWithUser, hasOnEdit: bool, hasOnDelete: bool): (p: Permissions)
    ensures p.canEdit <==> IsOwnMessage(currentUser, message) && hasOnEdit
    ensures p.canDelete <==> IsOwnMessage(currentUser, message) && hasOnDelete
  {
    var own := IsOwnMessage(currentUser, message);
    Permissions(own && hasOnEdit, own && hasOnDelete)
  }

  /** Someone else's message can be neither edited nor deleted, whatever handlers are passed. */
  lemma OthersMessagesLocked(currentUser: Option<string>, message: MessageWithUser, hasOnEdit: bool, hasOnDelete: bool)
    requires currentUser != Some(message.row.userId)
    ensures PermissionsFor(currentUser, message, hasOnEdit, hasOnDelete) == Permissions(false, false)
  {
  }

  /** `message.user.display_name || 'Unknown User'` */
  function DisplayName(message: MessageWithUser): (name: string)
    ensures name != ""
    ensures Truthy(message.user.displayName) ==> name == message.user.displayName.value
    ensures !Truthy(message.user.displayName) ==> name == "Unknown User"
  {
    if Truthy(message.user.displayName) then message.user.displayName.value else "Unknown User"
  }

  /** The options menu shows while the mouse is over the item and some action is allowed. */
  predicate ShowMenu(p: Permissions, hovered: bool) {
    (p.canEdit || p.canDelete) && hovered
  }

  /** The menu never appears on someone else's message, nor when the mouse is elsewhere. */
  lemma MenuOnlyForOwnHovered(currentUser: Option<string>, message: MessageWithUser, hasOnEdit: bool, hasOnDelete: bool, hovered: bool)
    ensures ShowMenu(PermissionsFor(currentUser, message, hasOnEdit, hasOnDelete), hovered) ==>
      hovered && IsOwnMessage(currentUser, message) && (hasOnEdit || hasOnDelete)
  {
  }
}
