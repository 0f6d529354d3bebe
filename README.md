# Hustlers client logic, in Dafny

Hustlers is a chat application: servers with text, voice and video channels, direct and group
conversations, and a live message feed, backed by a hosted database with realtime
subscriptions. Almost all of the client is UI around backend calls. This project models the
parts of the client that decide something, and proves what they promise:

- the live message feed of `useMessages` (load, realtime INSERT / UPDATE / DELETE, send, edit,
  delete) as a class whose invariant is that message ids are unique;
- the client-side joins of `useDirectMessages`, `useServers` and `useChannels` (latest message
  per conversation, participants with their profiles, member counts, membership, the next
  channel position, the partial-update patch) and the login guards and defaults of their
  mutations;
- the presentation rules of `MessageList`, `DMList`, `ChannelList`, `ServerCard` and
  `MessageItem` (avatar grouping, conversation names, previews, sections by channel type,
  buttons and badges);
- the validators and form state of `MessageInput`, the channel, server and profile dialogs,
  the signup page, the discover page and the messages page;
- the avatar rules of `storage.ts` (type and size checks, the stored name, the file a URL
  names).

Every backend query, insert, update, delete, storage call and auth call is an input: a method
takes the reply it would have received (a `Result`, an `Option<Thrown>` for "threw or not", or
the rows), and returns or records what the client does with it. An `async` handler that awaits
the backend is split at the await into a `Begin…` method (the checks and the request) and a
`Finish…` method (what the reply does to the state). Toasts and navigation are fields holding
the last toast shown and the last route pushed. Clock readings are parameters.

Each source file is one module (`UseMessages`, `UseDirectMessages`, `UseServers`,
`UseChannels`, `MessageList`, `DMList`, `ChannelList`, `Storage`, `MessagesPage`,
`DiscoverPage`, `SignupPage`, `ServerCard`, `MessageInput`, `MessageItem`, `ChannelModals`
for both channel dialogs, `FormModals` for the server and profile dialogs). `Types` holds the
row types of `src/types/`, and `Common` the JavaScript value rules the code relies on:
truthiness and `||` defaults, `String.prototype.trim` with the exact ECMAScript whitespace
set, `filter`, `find`, a `Map` built from entries, `[...new Set(xs)]`, `${n}` and
`split(sep).pop()`.

Three behaviours of the code that are easy to misread are modelled as the code has them:

- a failed message load leaves the feed's messages as they were and only sets `error`
  (src/hooks/useMessages.ts:73-77);
- `sendMessage` without a channel or conversation reports the login message, the same as a
  missing user (src/hooks/useMessages.ts:156);
- a load has no check that its reply still belongs to the current channel or conversation, so
  the last reply to arrive wins.

## Model

| member | source | states |
|---|---|---|
| Common.FailureMessage | src/hooks/useMessages.ts:183-190 | no error exactly when nothing was thrown; an `Error` reports its message, anything else the fallback text |
| Common.TrimStart | src/hooks/useMessages.ts:158 | dropping leading whitespace never lengthens the text |
| Common.TrimEnd | src/hooks/useMessages.ts:158 | dropping trailing whitespace never lengthens the text |
| Common.TrimStartShape | src/hooks/useMessages.ts:158 | the result is a suffix, everything cut away is whitespace, and it does not start with whitespace |
| Common.TrimEndShape | src/hooks/useMessages.ts:158 | the result is a prefix, everything cut away is whitespace, and it does not end with whitespace |
| Common.Trim | src/hooks/useMessages.ts:158 | `trim()` never lengthens the text and leaves no whitespace at either end |
| Common.TrimShape | src/hooks/useMessages.ts:168 | `trim()` returns a contiguous slice of the text with only whitespace cut on either side |
| Common.BlankIffTrimEmpty | src/hooks/useMessages.ts:158-160 | `!s.trim()` holds exactly when every character is whitespace |
| Common.TrimIdempotent | src/hooks/useMessages.ts:168 | trimming twice is trimming once |
| Common.TrimOfNonBlank | src/hooks/useMessages.ts:158-168 | a blank text trims to '' and a non-blank one stays non-blank after trimming |
| Common.TrimmedOrNone | src/components/channel/CreateChannelModal.tsx:52 | `s.trim() \|\| undefined` is nothing exactly for a blank text, otherwise the non-blank trimmed text |
| Common.Lower | src/app/discover/page.tsx:37 | lowercasing keeps the length and folds each character on its own |
| Common.ContainsEmpty | src/app/discover/page.tsx:37-38 | every string includes the empty string |
| Common.Filter | src/hooks/useMessages.ts:135 | the filter keeps exactly the entries that pass the test, and never more entries than it was given |
| Common.FilterIsSubsequence | src/hooks/useMessages.ts:135 | the filter keeps the surviving entries in their original order |
| Common.FilterHead | src/components/direct-message/DMList.tsx:60-68 | a filter keeps something exactly when some entry passes, and the first entry it keeps is the first entry that passes |
| Common.FilterConcat | src/components/channel/ChannelList.tsx:81-83 | filtering a concatenation is concatenating the filtered parts |
| Common.FilterKeepsAll | src/app/discover/page.tsx:36-39 | a filter whose test passes every entry returns the list unchanged |
| Common.FilterCongruent | src/app/discover/page.tsx:36-39 | filters whose tests agree on every entry return the same list |
| Common.FilterKeepsUniqueBy | src/app/messages/page.tsx:369 | filtering cannot make two entries share a key |
| Common.FirstWhere | src/app/messages/page.tsx:88 | `find` returns nothing exactly when no entry passes, otherwise an entry that passes with none passing before it |
| Common.LastWhere | src/hooks/useMessages.ts:53-60 | a `Map` built from entries answers nothing exactly when no entry has the key, otherwise the last entry with it |
| Common.Distinct | src/hooks/useDirectMessages.ts:63 | `[...new Set(xs)]` has no duplicates and holds exactly the values of `xs` |
| Common.NatToString | src/components/server/ServerCard.tsx:86 | `${n}` is a non-empty string of decimal digits that starts with 0 only for the number 0, so it has no leading zeros |
| Common.NatToStringRoundTrip | src/components/direct-message/DMList.tsx:70 | the rendered number reads back as the same number |
| Common.LastSegment | src/lib/storage.ts:136-137 | the last segment is a suffix without the separator, preceded by the separator when it is not the whole string |
| Common.LastSegmentOfJoin | src/lib/storage.ts:99 | joining a tail without the separator onto any front and splitting gives the tail back |
| Common.LastSegmentNoSeparator | src/lib/storage.ts:99 | a string without the separator is its own last segment |
| Types.LookupProfile | src/hooks/useMessages.ts:53-60 | the profile found has the user's id and no later profile has it, and none is found exactly when no profile has it |
| Types.LookupFindsLast | src/hooks/useMessages.ts:53-55 | when profile k has the id and no later profile does, the lookup finds profile k |
| Types.Snapshot | src/hooks/useMessages.ts:63-67 | without a profile, the user id with null name and avatar; with one, its id unless that is empty, and its name and its avatar exactly when they are non-empty |
| UseMessages.Rows | src/hooks/useMessages.ts:62 | the feed's rows are its entries' rows, one for one |
| UseMessages.Enrich | src/hooks/useMessages.ts:58-69 | the load transform keeps every row in order and gives each the snapshot of the profile found for its author |
| UseMessages.EnrichShowsAuthorProfile | src/hooks/useMessages.ts:53-69 | a message whose author has a profile shows the author's id and that profile's name and avatar, each null when it is empty |
| UseMessages.EnrichKeepsUniqueIds | src/hooks/useMessages.ts:58-71 | rows with distinct ids give a feed with unique ids |
| UseMessages.InsertMessage | src/hooks/useMessages.ts:123-129 | an INSERT with a present id leaves the feed as it is; with a fresh id it appends exactly that entry and keeps the rest |
| UseMessages.UpdateMessage | src/hooks/useMessages.ts:131-133 | an UPDATE keeps the length, leaves other entries alone, and gives matching entries the new row with their old author snapshot |
| UseMessages.DeleteMessage | src/hooks/useMessages.ts:135 | a DELETE removes every entry with the id and exactly those |
| UseMessages.InsertIdempotent | src/hooks/useMessages.ts:125-127 | delivering an INSERT twice is delivering it once |
| UseMessages.InsertKeepsUniqueIds | src/hooks/useMessages.ts:123-129 | an INSERT keeps the ids unique |
| UseMessages.UpdateKeepsIds | src/hooks/useMessages.ts:131-133 | an UPDATE changes no entry's id, so the ids stay unique |
| UseMessages.UpdateIdempotent | src/hooks/useMessages.ts:131-133 | delivering an UPDATE twice is delivering it once |
| UseMessages.UpdateAbsentIsNoop | src/hooks/useMessages.ts:131-133 | an UPDATE for an absent id changes nothing |
| UseMessages.DeleteKeepsOrder | src/hooks/useMessages.ts:135 | a DELETE keeps the rest in order, is a no-op for an absent id and keeps ids unique |
| UseMessages.ApplyEvent | src/hooks/useMessages.ts:105-136 | after an INSERT its id is in the feed, after a DELETE it is not, and after an UPDATE every entry with its id carries the new row; at most one entry is added |
| UseMessages.ApplyEvents | src/hooks/useMessages.ts:105-136 | events applied in delivery order add at most one entry each |
| UseMessages.ApplyEventKeepsUniqueIds | src/hooks/useMessages.ts:105-136 | any one realtime event keeps the ids unique |
| UseMessages.ApplyEventsKeepsUniqueIds | src/hooks/useMessages.ts:105-136 | any sequence of realtime events keeps the ids unique |
| UseMessages.SendRequest | src/hooks/useMessages.ts:155-175 | the login error comes before the empty-message error; a sent row carries the user, the trimmed text and exactly one of channel and conversation |
| UseMessages.EditRequest | src/hooks/useMessages.ts:196-212 | the login error, then the empty-message error; otherwise the patch holds the trimmed text for that message and user |
| UseMessages.MessageFeed.constructor | src/hooks/useMessages.ts:10-13 | a new feed is empty, loading, without error and not sending |
| UseMessages.MessageFeed.Load | src/hooks/useMessages.ts:18-77 | no scope or no user empties the feed; a page replaces it with its enriched rows; an error keeps it and records the message; loading ends |
| UseMessages.MessageFeed.ApplyInsert | src/hooks/useMessages.ts:106-129 | the feed becomes the INSERT applied to it, with unique ids |
| UseMessages.MessageFeed.ApplyUpdate | src/hooks/useMessages.ts:130-133 | the feed becomes the UPDATE applied to it, with unique ids |
| UseMessages.MessageFeed.ApplyDelete | src/hooks/useMessages.ts:134-135 | the feed becomes the DELETE applied to it, with unique ids |
| UseMessages.MessageFeed.BeginSend | src/hooks/useMessages.ts:155-175 | returns the send request; a rejected message changes nothing, an accepted one sets `sending` and clears the error |
| UseMessages.MessageFeed.FinishSend | src/hooks/useMessages.ts:177-193 | `sending` ends; a failure is reported and recorded, success reports nothing |
| UseMessages.MessageFeed.Edit | src/hooks/useMessages.ts:196-225 | the patch is issued exactly when the edit request is valid; the reported error is the validation's or the backend's |
| UseMessages.MessageFeed.Remove | src/hooks/useMessages.ts:227-248 | the delete is issued exactly when someone is signed in; otherwise the login error |
| UseDirectMessages.LatestOf | src/hooks/useDirectMessages.ts:79-84 | nothing exactly when no message belongs to the conversation, otherwise its first message in the newest-first list |
| UseDirectMessages.LastMessageByConversation | src/hooks/useDirectMessages.ts:79-84 | a conversation is recorded exactly when one of its messages occurs, with its first message in the newest-first list; a null conversation id is never recorded |
| UseDirectMessages.LatestOfExtend | src/hooks/useDirectMessages.ts:80-84 | reading one more message settles only conversations that had no message yet |
| UseDirectMessages.ParticipantUserIds | src/hooks/useDirectMessages.ts:63 | `userIds` has no duplicates and holds exactly the participants' user ids |
| UseDirectMessages.ConversationParticipants | src/hooks/useDirectMessages.ts:89-101 | one participant per row of the conversation, in order, with its row id, its user id and the snapshot of the profile found for it |
| UseDirectMessages.ParticipantShowsProfile | src/hooks/useDirectMessages.ts:93-99 | a participant whose user has a profile shows that profile's name and avatar, each null when it is empty |
| UseDirectMessages.RowsOfSelectsExactly | src/hooks/useDirectMessages.ts:89 | the rows joined are exactly the conversation's rows, in order |
| UseDirectMessages.BuildConversations | src/hooks/useDirectMessages.ts:87-104 | one entry per conversation in fetched order, with its participants and its last message exactly when it has one |
| UseDirectMessages.ConversationKind | src/hooks/useDirectMessages.ts:125 | the given type, or else direct exactly when one participant id is given |
| UseDirectMessages.LooksForExisting | src/hooks/useDirectMessages.ts:128 | the lookup for an existing conversation runs exactly for one participant id with the type direct or unset |
| UseDirectMessages.FindExisting | src/hooks/useDirectMessages.ts:147-159 | nothing exactly when the other user is in none of the conversations, otherwise the first one they are in |
| UseDirectMessages.NewConversationRow | src/hooks/useDirectMessages.ts:165-170 | the row has the conversation's type and the name only when it is non-empty |
| UseDirectMessages.NewParticipants | src/hooks/useDirectMessages.ts:176-190 | the creator's row first, then one row per participant id, all for the new conversation |
| UseDirectMessages.RenamePatch | src/hooks/useDirectMessages.ts:210 | no name field for an absent name; an empty name is sent as null, any other as given |
| UseDirectMessages.ConversationList.constructor | src/hooks/useDirectMessages.ts:13-15 | a new list is empty, loading and without error |
| UseDirectMessages.ConversationList.Load | src/hooks/useDirectMessages.ts:19-112 | signed out nothing changes; no participation gives an empty list; each failing query records its message; otherwise the joined conversations; loading ends |
| UseDirectMessages.ConversationList.Create | src/hooks/useDirectMessages.ts:118-199 | signed out is the login error; a signed-in create is never rejected; the first existing direct conversation with the other user is reused; otherwise the row and participants are inserted exactly when the insert succeeds, and the failure is reported when it does not |
| UseDirectMessages.ConversationList.Rename | src/hooks/useDirectMessages.ts:201-225 | the rename patch for the given conversation is issued exactly when someone is signed in; otherwise the login error |
| UseDirectMessages.ConversationList.Leave | src/hooks/useDirectMessages.ts:227-248 | the row of the given conversation and the signed-in user is deleted exactly when someone is signed in; otherwise the login error |
| UseServers.MembershipOf | src/hooks/useServers.ts:43-48 | the membership found is for that server, and none is found exactly when no membership names it |
| UseServers.WithMembers | src/hooks/useServers.ts:46-49 | the same servers in the same order, each with the user's membership in it exactly when there is one |
| UseServers.CountMembers | src/hooks/useServers.ts:59-62 | the tally holds exactly the servers named, each with the number of rows naming it |
| UseServers.CountForIsTally | src/hooks/useServers.ts:65 | `countMap.get(id) \|\| 0` is the number of rows naming the server, 0 exactly when none does |
| UseServers.AssignMemberCounts | src/hooks/useServers.ts:64-66 | each server object gets its tally as `member_count`, in place, and nothing else changes |
| UseServers.NewServerRow | src/hooks/useServers.ts:97-103 | the row is public unless told otherwise, with null for an empty description or icon |
| UseServers.ServerDirectory.constructor | src/hooks/useServers.ts:9-11 | a new directory is empty, loading and without error |
| UseServers.ServerDirectory.Load | src/hooks/useServers.ts:15-81 | signed out nothing changes; an error is recorded; the list has the public servers in order, with membership and counts only when the membership query succeeded |
| UseServers.ServerDirectory.Create | src/hooks/useServers.ts:88-125 | signed out is the login error; otherwise the server row is built from the input and the creator becomes its owner, or the failure is reported |
| UseServers.ServerDirectory.Join | src/hooks/useServers.ts:127-148 | a member row is inserted exactly when someone is signed in |
| UseServers.ServerDirectory.Leave | src/hooks/useServers.ts:150-171 | the membership is deleted exactly when someone is signed in |
| UseChannels.NextPosition | src/hooks/useChannels.ts:60-62 | 0 for an empty reply, otherwise the top position plus one |
| UseChannels.NextPositionAboveAll | src/hooks/useChannels.ts:53-62 | with the positions in descending order the next position lies above all of them |
| UseChannels.NewChannelRow | src/hooks/useChannels.ts:66-72 | an explicit position (0 included) wins over the next one; type defaults to text; an empty description becomes null |
| UseChannels.CreateRequest | src/hooks/useChannels.ts:47-72 | no server or no user is the login error; otherwise the row for the next position |
| UseChannels.UpdatePatch | src/hooks/useChannels.ts:95-100 | the patch holds exactly the defined fields, with a defined empty description sent as null |
| UseChannels.UpdateChangesDefinedFields | src/hooks/useChannels.ts:95-100 | the patched channel changes exactly the fields the input defines |
| UseChannels.UpdateRequest | src/hooks/useChannels.ts:87-100 | signed out is the login error; otherwise the patch |
| UseChannels.DeleteRequest | src/hooks/useChannels.ts:116-125 | signed out is the login error; otherwise the channel's id |
| MessageList.GroupMessages | src/components/message/MessageList.tsx:47-55 | one entry per message in order; the avatar shows exactly for the first message and where the author changes |
| MessageList.Render | src/components/message/MessageList.tsx:24-55 | a spinner while loading, the placeholder for an empty feed, otherwise the grouped messages with the first avatar shown |
| DMList.OtherParticipants | src/components/direct-message/DMList.tsx:60-62 | with a user id, everyone but that user in their original order, led by the first participant who is not that user; without, all but the first participant |
| DMList.OthersExcludeCurrentUser | src/components/direct-message/DMList.tsx:60-61 | the others never include the current user |
| DMList.DisplayName | src/components/direct-message/DMList.tsx:65-74 | the set name; else, for a direct conversation with others, the first other's name or 'Unknown User'; else `${n} members` for a group; else 'Direct Message' |
| DMList.GroupNameCountsMembers | src/components/direct-message/DMList.tsx:69-70 | an unnamed group reads as its member count, which reads back as the number of participants |
| DMList.TruthyValues | src/components/direct-message/DMList.tsx:78-82 | `.filter(Boolean)` keeps exactly the present, non-empty URLs; one value is kept exactly when it is non-empty |
| DMList.TruthyValuesConcat | src/components/direct-message/DMList.tsx:78-82 | the kept values of two lists in a row are the first list's followed by the second's, so order and repeats are kept |
| DMList.TruthyValuesAllSet | src/components/direct-message/DMList.tsx:78-82 | when every value is set nothing is dropped and the order is kept |
| DMList.FirstAvatarUrls | src/components/direct-message/DMList.tsx:79-81 | the avatar URLs of the first three participants, in order |
| DMList.Avatars | src/components/direct-message/DMList.tsx:77-82 | for a direct conversation with others, the first other's URL when it is non-empty; otherwise the non-empty URLs of the first three participants, in order |
| DMList.GroupAvatarsInOrder | src/components/direct-message/DMList.tsx:79-82 | a group whose first three members all have a picture shows exactly those pictures, in order |
| DMList.Preview | src/components/direct-message/DMList.tsx:84-88 | 'No messages yet', the text verbatim up to 50 characters, or its first 50 characters and '...' |
| DMList.RowFor | src/components/direct-message/DMList.tsx:57-88 | a row has the conversation's id, is selected exactly for the selected id, and shows the name, avatars and preview computed from the conversation and the viewer's others |
| DMList.Render | src/components/direct-message/DMList.tsx:36-88 | a spinner, the placeholder for no conversations, or one row per conversation in order with its id, selection, name, avatars and preview |
| DMList.DirectRowNamedAfterFirstOther | src/components/direct-message/DMList.tsx:60-68 | for a signed-in viewer, an unnamed direct row is named after the first participant who is not the viewer, or 'Unknown User' when that person has no name, and reads 'Direct Message' when the viewer is alone in it |
| ChannelList.CanManage | src/components/channel/ChannelList.tsx:79 | owners and admins manage channels, and nobody else |
| ChannelList.RoleState.constructor | src/components/channel/ChannelList.tsx:42 | the role starts unknown |
| ChannelList.RoleState.FetchUserRole | src/components/channel/ChannelList.tsx:51-77 | signed out nothing happens; the server owner is owner with no lookup; anyone else takes the looked-up role or none |
| ChannelList.OfKind | src/components/channel/ChannelList.tsx:81-83 | a section holds exactly the channels of its type |
| ChannelList.SectionsPartition | src/components/channel/ChannelList.tsx:81-83 | the three sections keep the channels' order, are disjoint and together hold every channel |
| ChannelList.SectionsCount | src/components/channel/ChannelList.tsx:81-83 | the text, voice and video sections together are exactly as long as the channel list |
| ChannelList.Icon | src/components/channel/ChannelList.tsx:87 | '#' exactly for text channels; voice and video get the four-character strings the component holds (UTF-8 emoji bytes read back as Windows-1252 text), not the emoji themselves |
| ChannelList.IconsDistinct | src/components/channel/ChannelList.tsx:87 | no two channel types share an icon |
| ChannelList.SectionFor | src/components/channel/ChannelList.tsx:146-167 | an empty section renders nothing; otherwise one section with one item per channel in order, each captioned with its type's icon, a space and its name, selected exactly when its id is the selected one, with the menu exactly for managers |
| ChannelList.SectionItems | src/components/channel/ChannelList.tsx:146-167 | the items a section shows are exactly its channels' items, one for one and in order |
| ChannelList.ChannelInOwnSection | src/components/channel/ChannelList.tsx:81-83 | every channel's item appears in the section of its own type |
| ChannelList.Render | src/components/channel/ChannelList.tsx:170-196 | the placeholder exactly for no channels, with the hint only for managers; otherwise one to three non-empty sections, which are the text, the voice and the video sections of the channels in that order, each under its title |
| ChannelList.SectionTitle | src/components/channel/ChannelList.tsx:182-192 | each type's section has its own heading, 'Text Channels' only for text |
| ChannelList.RenderShowsEveryChannel | src/components/channel/ChannelList.tsx:81-196 | a server with channels shows exactly as many items as it has channels, and every channel's item with its id, icon and name, selection and menu is among them |
| Storage.Validate | src/lib/storage.ts:78-91 | the type check comes first, then the size check; a file passes exactly when its type is allowed and it is at most 5 MiB |
| Storage.Extension | src/lib/storage.ts:99 | the extension is the tail of the name after its last dot, or the whole name when it has no dot |
| Storage.StoredName | src/lib/storage.ts:99-100 | the stored name starts with the user's id and a dash and keeps the file's extension |
| Storage.StoredNameHoldsClock | src/lib/storage.ts:100 | between the dash and the extension's dot the stored name holds the clock reading in decimal, which reads back as that reading (with Common.NatToStringRoundTrip) |
| Storage.StoredNamesDiffer | src/lib/storage.ts:100 | the same user uploading the same file at two different clock readings gets two different stored names |
| Storage.UploadAvatar | src/lib/storage.ts:71-126 | exactly one of url and error; a rejected file is never stored; a stored file gets the generated name and its public URL or the storage error |
| Storage.FileNameOfUrl | src/lib/storage.ts:136-137 | the file name is the URL's tail after its last '/', or the whole URL when it has none |
| Storage.FileNameOfUrlRoundTrip | src/lib/storage.ts:136-137 | a URL ending in `/name` names the file `name` |
| Storage.DeleteAvatar | src/lib/storage.ts:131-150 | removes the URL's file and reports no error exactly when storage did |
| MessagesPage.SelectedConversation | src/app/messages/page.tsx:88 | the first conversation with the selected id; none exactly when no conversation has it or nothing is selected |
| MessagesPage.OtherParticipant | src/app/messages/page.tsx:159 | the first participant who is not the viewer, none exactly when every participant is the viewer, and the first participant when nobody is signed in |
| MessagesPage.ConversationName | src/app/messages/page.tsx:155-163 | 'Messages' with nothing selected; the set name; for an unnamed direct conversation the other participant's name or 'Direct Message'; for an unnamed group `${n} members`; never empty |
| MessagesPage.DirectNameIsSomeoneElse | src/app/messages/page.tsx:158-161 | for a signed-in viewer, an unnamed direct conversation is named after the first participant who is not the viewer, and reads 'Direct Message' when that person has no name or there is nobody else |
| MessagesPage.Toggle | src/app/messages/page.tsx:367-372 | a selected id is removed, an unselected one appended |
| MessagesPage.ToggleKeepsNoDuplicates | src/app/messages/page.tsx:367-372 | toggling keeps the selection duplicate-free |
| MessagesPage.ToggleTwiceRestores | src/app/messages/page.tsx:367-372 | toggling an unselected id twice gives the selection back |
| MessagesPage.RemoveChip | src/app/messages/page.tsx:407 | removing a chip drops exactly that id, keeps the others in order, and changes nothing for an id not selected |
| MessagesPage.EditUpdate | src/app/messages/page.tsx:453-469 | an update is submitted exactly for a non-blank text, with the trimmed text for the message being edited |
| MessagesPage.SaveTextAsWritten | src/app/messages/page.tsx:484-485 | as written, the Save button reads no text, whatever the box holds |
| MessagesPage.SaveText | src/app/messages/page.tsx:483-486 | the corrected Save reads the box's text |
| MessagesPage.SaveAsWrittenDropsEdit | src/app/messages/page.tsx:483-498 | as written, Save submits nothing for a text that Enter submits |
| MessagesPage.SaveMatchesEnter | src/app/messages/page.tsx:453-498 | the corrected Save submits exactly what Enter submits |
| MessagesPage.Page.constructor | src/app/messages/page.tsx:71-80 | nothing selected, searched, open or being edited |
| MessagesPage.Page.Search | src/app/messages/page.tsx:94-114 | a blank query or no user clears the results without a search; a successful search replaces them, a failed one keeps them |
| MessagesPage.Page.ToggleUser | src/app/messages/page.tsx:367-372 | the selection becomes the toggle applied to it and stays duplicate-free |
| MessagesPage.Page.RemoveUser | src/app/messages/page.tsx:406-408 | the selection loses exactly that id and stays duplicate-free |
| MessagesPage.Page.BeginCreate | src/app/messages/page.tsx:116-129 | with nobody selected an error toast and no call; otherwise a create with the selected users |
| MessagesPage.Page.FinishCreate | src/app/messages/page.tsx:131-151 | an error is shown and the dialog kept; success clears and closes it and opens the new conversation |
| MessagesPage.Page.StartEdit | src/app/messages/page.tsx:287 | the message is being edited |
| MessagesPage.Page.SubmitEdit | src/app/messages/page.tsx:453-470 | a blank text changes nothing; an update that fails shows its error; one that succeeds closes the box |
| MessagesPage.Page.CancelEdit | src/app/messages/page.tsx:471-479 | Escape and Cancel close the box |
| DiscoverPage.FilteredServers | src/app/discover/page.tsx:36-39 | a server is listed exactly when its name or description contains the query, ignoring case |
| DiscoverPage.FilteredIsSubsequence | src/app/discover/page.tsx:36-39 | the listing keeps the servers' order |
| DiscoverPage.EmptyQueryKeepsAll | src/app/discover/page.tsx:36-39 | an empty query lists every server |
| DiscoverPage.LowerIdempotent | src/app/discover/page.tsx:37-38 | lowercasing twice is lowercasing once |
| DiscoverPage.QueryCaseIgnored | src/app/discover/page.tsx:37-38 | a query and its lowercased form list the same servers |
| DiscoverPage.Page.constructor | src/app/discover/page.tsx:30-31 | no join or leave in flight |
| DiscoverPage.Page.BeginJoin | src/app/discover/page.tsx:42 | the server is marked as joining |
| DiscoverPage.Page.FinishJoin | src/app/discover/page.tsx:44-47 | the marker is cleared; the server's page opens exactly when the join had no error |
| DiscoverPage.Page.BeginLeave | src/app/discover/page.tsx:51 | the server is marked as leaving |
| DiscoverPage.Page.FinishLeave | src/app/discover/page.tsx:53 | the marker is cleared whatever the outcome |
| DiscoverPage.Page.View | src/app/discover/page.tsx:56-58 | the server's page opens |
| SignupPage.PasswordError | src/app/signup/page.tsx:54-64 | the mismatch is reported before the length; the passwords pass exactly when they match and have at least 6 characters |
| SignupPage.Form.constructor | src/app/signup/page.tsx:31-36 | empty fields, not loading, no error, no success |
| SignupPage.Form.BeginSignup | src/app/signup/page.tsx:49-66 | the error is the passwords' error; sign-up starts exactly when there is none, and only then is `loading` left on |
| SignupPage.Form.FinishSignup | src/app/signup/page.tsx:74-80 | `loading` ends; an error is shown, otherwise success |
| ServerCard.BadgeFor | src/components/server/ServerCard.tsx:65-74 | Owner exactly for the owner, Member exactly for other members, none for non-members |
| ServerCard.MemberCountLabel | src/components/server/ServerCard.tsx:86 | `${n} member` or `${n} members`, with the 's' exactly when the count is not 1 |
| ServerCard.MemberCountLabelReadsBack | src/components/server/ServerCard.tsx:86 | the label starts with the count's digits, which read back as the count, followed by ' member' for one and ' members' otherwise |
| ServerCard.Render | src/components/server/ServerCard.tsx:38-121 | the badge, the description when non-empty, the count when given; Join exactly for non-members, Leave for non-owner members, a View button for members, each with its handler; the card itself opens the server on a click exactly when a view handler is given, for members and non-members alike |
| ServerCard.ButtonsExclusive | src/components/server/ServerCard.tsx:90-121 | Join and Leave never show together; an owner gets neither; a non-member gets no View button and no Leave, while a click on the card still opens the server |
| MessageInput.DisabledIffGuardRefuses | src/components/message/MessageInput.tsx:92 | the send button is disabled exactly when a send would be refused |
| MessageInput.Composer.constructor | src/components/message/MessageInput.tsx:22 | the box starts empty |
| MessageInput.Composer.Type | src/components/message/MessageInput.tsx:73 | typing replaces the box's text |
| MessageInput.Composer.BeginSend | src/components/message/MessageInput.tsx:28-32 | the untrimmed text is sent exactly when it is not blank and no send is in flight |
| MessageInput.Composer.KeyDown | src/components/message/MessageInput.tsx:55-60 | a send starts exactly for Enter without Shift when the guard allows it |
| MessageInput.Composer.FinishSend | src/components/message/MessageInput.tsx:35-52 | an error is shown and the text kept; success clears the box |
| MessageItem.PermissionsFor | src/components/message/MessageItem.tsx:39-41 | edit and delete are offered exactly for one's own message with the handler passed |
| MessageItem.OthersMessagesLocked | src/components/message/MessageItem.tsx:39-41 | someone else's message can be neither edited nor deleted |
| MessageItem.DisplayName | src/components/message/MessageItem.tsx:43 | the author's name when non-empty, otherwise 'Unknown User' |
| MessageItem.MenuOnlyForOwnHovered | src/components/message/MessageItem.tsx:80 | the menu shows only on one's own hovered message with some handler |
| ChannelModals.CreateInputOf | src/components/channel/CreateChannelModal.tsx:50-54 | the trimmed name, the trimmed description or nothing when blank, and the chosen type |
| ChannelModals.CreatedRowFromForm | src/components/channel/CreateChannelModal.tsx:50-54 | the row inserted has the trimmed name, the type and the trimmed description or null |
| ChannelModals.CreateForm.constructor | src/components/channel/CreateChannelModal.tsx:30-33 | empty fields, text type, not loading |
| ChannelModals.CreateForm.BeginSubmit | src/components/channel/CreateChannelModal.tsx:36-54 | a blank name shows the name toast and sends nothing; otherwise the input is sent and loading starts |
| ChannelModals.CreateForm.FinishSubmit | src/components/channel/CreateChannelModal.tsx:55-75 | loading ends; an error keeps the fields; success resets them and closes |
| ChannelModals.CreateForm.Close | src/components/channel/CreateChannelModal.tsx:78-85 | ignored while loading; otherwise the fields reset and the dialog closes |
| ChannelModals.FieldsOf | src/components/channel/EditChannelModal.tsx:37-43 | the channel's name and type, and its description or '' when it has none |
| ChannelModals.UpdateInputAsWritten | src/components/channel/EditChannelModal.tsx:61-65 | as written, a blank description is sent as undefined |
| ChannelModals.ClearedDescriptionSurvives | src/hooks/useChannels.ts:97 | as written, emptying the description and saving keeps the old description |
| ChannelModals.UpdateInputOf | src/components/channel/EditChannelModal.tsx:61-65 | the corrected input always sends the trimmed description |
| ChannelModals.SavedChannelMatchesForm | src/hooks/useChannels.ts:95-100 | after saving, the channel has the trimmed name, the type and the trimmed description, cleared when blank |
| ChannelModals.EditForm.constructor | src/components/channel/EditChannelModal.tsx:31-34 | no channel, empty fields, not loading |
| ChannelModals.EditForm.Sync | src/components/channel/EditChannelModal.tsx:37-43 | a channel fills the fields from it; null leaves them |
| ChannelModals.EditForm.BeginSubmit | src/components/channel/EditChannelModal.tsx:45-65 | nothing without a channel; a blank name shows the name toast; otherwise the channel's id and the corrected input, and loading starts |
| ChannelModals.EditForm.FinishSubmit | src/components/channel/EditChannelModal.tsx:66-83 | loading ends; an error is shown; success closes |
| ChannelModals.EditForm.Close | src/components/channel/EditChannelModal.tsx:86-93 | ignored while loading or without a channel; otherwise the fields return to the channel's and the dialog closes |
| FormModals.ValidateServerForm | src/components/server/CreateServerModal.tsx:31-35 | the name needs 1 to 100 characters and the description at most 500, with the schema's messages |
| FormModals.ServerInputOf | src/components/server/CreateServerModal.tsx:68-73 | the name, the public flag, and the description and icon only when non-empty |
| FormModals.ServerRowFromForm | src/components/server/CreateServerModal.tsx:58-73 | the server row carries the form's values with null for empty ones; the default form creates a public server |
| FormModals.ServerDialog.constructor | src/components/server/CreateServerModal.tsx:46-63 | the default form and no icon |
| FormModals.ServerDialog.BeginSubmit | src/components/server/CreateServerModal.tsx:67-75 | the schema's errors; the input is sent exactly when the form is valid |
| FormModals.ServerDialog.FinishSubmit | src/components/server/CreateServerModal.tsx:77-96 | an error keeps the form and icon; success resets both and closes |
| FormModals.ServerDialog.Close | src/components/server/CreateServerModal.tsx:99-103 | the form and icon reset and the dialog closes |
| FormModals.ValidateProfileForm | src/components/profile/ProfileEditModal.tsx:27-30 | the display name needs 1 to 50 characters and the status at most 200, with the schema's messages |
| FormModals.ProfileFormOf | src/components/profile/ProfileEditModal.tsx:59-70 | the profile's name and status, '' where null or empty |
| FormModals.UpdatesOf | src/components/profile/ProfileEditModal.tsx:76-83 | the name, the status or null when empty, and the avatar exactly when it is non-empty |
| FormModals.SavedProfileMatchesForm | src/components/profile/ProfileEditModal.tsx:75-85 | the saved profile has the form's name and status, changes the avatar only when one is set, and reopening shows the form again |
| FormModals.ProfileDialog.constructor | src/components/profile/ProfileEditModal.tsx:49-63 | the form shows the profile's values, or empty ones without a profile |
| FormModals.ProfileDialog.Sync | src/components/profile/ProfileEditModal.tsx:65-73 | a profile resets the form and takes its avatar; null changes nothing |
| FormModals.ProfileDialog.BeginSubmit | src/components/profile/ProfileEditModal.tsx:75-85 | the schema's errors; the updates are sent exactly when the form is valid |
| FormModals.ProfileDialog.FinishSubmit | src/components/profile/ProfileEditModal.tsx:87-104 | the dialog closes only when the update reported no error |

## Left out

- Backend calls (queries, inserts, updates, deletes, storage, auth) are not modelled as code: their replies are parameters. The row-level ownership checks and the `order`/`limit` clauses belong to the backend and are not modelled.
- The realtime subscription's lifecycle and the interleaving of async handlers are not modelled; the reducer is modelled on an arbitrary sequence of events.
- `resizeImage` is not modelled: it uses the canvas and floating-point arithmetic.
- `Date.now()` is a parameter, and date formatting (`formatDistanceToNow`, `format`) is not modelled.
- Common.Lower: folds ASCII letters only, not the full Unicode `toLowerCase`.
- String lengths are counted in characters, not in UTF-16 code units.
- The refetch after each mutation is not modelled: it is the load operation called again.
- Console logging and toast durations, colours and other layout are not modelled.
- The confirm dialogs before leaving a conversation or deleting a message on the messages page are not modelled.
- OAuth sign-up is not modelled: it is a redirect to the provider.
- Two searches in flight at once, and a stale search reply landing after a newer one, are not modelled.
- The discover page's `onCreate` wrapper, which opens the created server's page, is not modelled.
- ChannelModals.EditForm.BeginSubmit: returns the corrected input `UpdateInputOf`, not the input lines 61-65 of src/components/channel/EditChannelModal.tsx send; the input as written, with a blank description sent as undefined, is `UpdateInputAsWritten` (see Findings).
- The profile, user-server, auth, theme and layout files are not part of this model: they fetch and set data or lay out the page.

## Findings

| source | as written | input that shows it | evidently intended | confidence | as-written member | corrected member |
|---|---|---|---|---|---|---|
| src/app/messages/page.tsx:483-498 | Save reads the text box through `document.querySelector('textarea[defaultValue]')`. React passes `defaultValue` as the box's initial text, not as an attribute, so the lookup finds nothing. The content is then undefined and no update is sent. | Edit a message to "fixed typo" and press Save: Enter would submit the edit, Save submits nothing. | Save submits the box's current text, the same text Enter submits. | not executed | MessagesPage.SaveTextAsWritten (MessagesPage.SaveAsWrittenDropsEdit) | MessagesPage.SaveText (MessagesPage.SaveMatchesEnter) |
| src/components/channel/EditChannelModal.tsx:61-65 | A blank description is sent as `undefined`. `updateChannel` (src/hooks/useChannels.ts:97) leaves an undefined field out of the patch, so the old description stays. | Open the edit dialog on a channel with a description, clear the description box and save: the channel keeps its description. | Clearing the box clears the description: the trimmed text is always sent, and the hook turns an empty one into null. | not executed | ChannelModals.UpdateInputAsWritten (ChannelModals.ClearedDescriptionSurvives) | ChannelModals.UpdateInputOf (ChannelModals.SavedChannelMatchesForm) |
