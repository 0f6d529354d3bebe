/**
 * The rows and view models of the chat client (the files under `src/types`), plus the profile snapshot that
 * both the message feed and the conversation list attach to a user id.
 *
 * Timestamps are kept as the opaque strings the backend sends; nothing here orders or formats them.
 */
module Types {
  import opened Common

  // ---------------------------------------------------------------------------
  // Channels (src/types/channel.ts)

  datatype ChannelType = Text | Voice | Video

  datatype Channel = Channel(
    id: string,
    serverId: string,
    name: string,
    description: Option<string>,
    kind: ChannelType,
    position: int,
    createdAt: string,
    updatedAt: string)

  // ---------------------------------------------------------------------------
  // Conversations (src/types/direct-message.ts)

  datatype ConversationType = Direct | Group

  /** A `direct_messages` row. */
  datatype Conversation = Conversation(
    id: string,
    name: Option<string>,
    kind: ConversationType,
    createdAt: string,
    updatedAt: string)

  /** A `direct_message_participants` row. */
  datatype ParticipantRow = ParticipantRow(
    id: string,
    conversationId: string,
    userId: string,
    joinedAt: string)

  /** The `{ id, display_name, avatar_url }` object attached to a message or a participant. */
  datatype UserSnapshot = UserSnapshot(id: string, displayName: Option<string>, avatarUrl: Option<string>)

  /** One entry of `DirectMessageWithParticipants.participants`. */
  datatype Participant = Participant(id: string, userId: string, user: UserSnapshot)

  /** The `id, content, created_at, user_id, conversation_id` columns of a `messages` row. */
  datatype MessageSummary = MessageSummary(
    id: string,
    content: string,
    createdAt: string,
    userId: string,
    conversationId: Option<string>)

  /** `DirectMessageWithParticipants`: a conversation with its participants and latest message. */
  datatype ConversationView = ConversationView(
    conversation: Conversation,
    participants: seq<Participant>,
    lastMessage: Option<MessageSummary>)

  // ---------------------------------------------------------------------------
  // Messages (src/types/message.ts)

  /** A `messages` row: it belongs to a channel or to a conversation. */
  datatype Message = Message(
    id: string,
    channelId: Option<string>,
    conversationId: Option<string>,
    userId: string,
    content: string,
    createdAt: string,
    updatedAt: string)

  /** `MessageWithUser`: the row's fields spread next to the author's snapshot. */
  datatype MessageWithUser = MessageWithUser(row: Message, user: UserSnapshot)

  // ---------------------------------------------------------------------------
  // Profiles (src/types/profile.ts)

  datatype Profile = Profile(
    id: string,
    displayName: Option<string>,
    avatarUrl: Option<string>,
    statusMessage: Option<string>,
    createdAt: string,
    updatedAt: string)

  /** The `id, display_name, avatar_url` columns the hooks select from `profiles`. */
  datatype ProfileSummary = ProfileSummary(id: string, displayName: Option<string>, avatarUrl: Option<string>)

  // ---------------------------------------------------------------------------
  // Servers (src/types/server.ts)

  datatype Role = Owner | Admin | Member

  datatype Server = Server(
    id: string,
    name: string,
    description: Option<string>,
    iconUrl: Option<string>,
    ownerId: string,
    isPublic: bool,
    createdAt: string,
    updatedAt: string)

  datatype ServerMember = ServerMember(id: string, serverId: string, userId: string, role: Role, joinedAt: string)

  /** `ServerWithMember`: a server, the current user's membership in it and its member count. */
  datatype ServerWithMember = ServerWithMember(server: Server, member: Option<ServerMember>, memberCount: Option<nat>)

  // ---------------------------------------------------------------------------
  // Attaching a profile to a user id

  /** `profilesMap.get(userId)` for a map built from `profiles.map(p => [p.id, p])`. */
  function LookupProfile(profiles: seq<ProfileSummary>, userId: string): (r: Option<ProfileSummary>)
    ensures r.Some? ==> r.value in profiles && r.value.id == userId
    ensures r.Some? ==> exists k :: (0 <= k < |profiles| && profiles[k] == r.value
                                     && forall j :: k < j < |profiles| ==> profiles[j].id != userId)
    ensures r.None? <==> forall i :: 0 <= i < |profiles| ==> profiles[i].id != userId
  {
    LastWhere(profiles, (p: ProfileSummary) => p.id == userId)
  }

  /** The lookup answers with the last profile that has the id. */
  lemma LookupFindsLast(profiles: seq<ProfileSummary>, userId: string, k: nat)
    requires k < |profiles| && profiles[k].id == userId
    requires forall j :: k < j < |profiles| ==> profiles[j].id != userId
    ensures LookupProfile(profiles, userId) == Some(profiles[k])
  {
    var found := LookupProfile(profiles, userId);
    var k' :| 0 <= k' < |profiles| && profiles[k'] == found.value
              && forall j :: k' < j < |profiles| ==> profiles[j].id != userId;
    assert k' == k;
  }

  /** `{ id: profile?.id || userId, display_name: profile?.display_name || null,
        avatar_url: profile?.avatar_url || null }` */
  function Snapshot(profile: Option<ProfileSummary>, userId: string): (u: UserSnapshot)
    ensures profile.None? ==> u == UserSnapshot(userId, None, None)
    ensures profile.Some? && profile.value.id != "" ==> u.id == profile.value.id
    ensures profile.Some? && profile.value.id == "" ==> u.id == userId
    ensures u.displayName.Some? <==> profile.Some? && Truthy(profile.value.displayName)
    ensures u.displayName.Some? ==> u.displayName == profile.value.displayName
    ensures u.avatarUrl.Some? <==> profile.Some? && Truthy(profile.value.avatarUrl)
    ensures u.avatarUrl.Some? ==> u.avatarUrl == profile.value.avatarUrl
  {
    match profile
    case None => UserSnapshot(userId, None, None)
    case Some(p) =>
      UserSnapshot(if p.id != "" then p.id else userId, OrNone(p.displayName), OrNone(p.avatarUrl))
  }
}
