/**
 * The channel operations of one server (`useChannels`): the row a new channel is inserted as,
 * its default position, and the partial patch an update sends.
 */
module UseChannels {
  import opened Common
  import opened Types

  /** `CreateChannelInput` */
  datatype CreateChannelInput = CreateChannelInput(name: string, description: Option<string>, kind: Option<ChannelType>, position: Option<int>)

  /** `UpdateChannelInput`: every field may be left undefined. */
  datatype UpdateChannelInput = UpdateChannelInput(name: Option<string>, description: Option<string>, kind: Option<ChannelType>, position: Option<int>)

  /** The `channels` row `createChannel` inserts. */
  datatype NewChannel = NewChannel(serverId: string, name: string, description: Option<string>, kind: ChannelType, position: int)

  /** The object handed to `update`: a field that is None is absent from it; a description
      field that is present may itself be null. */
  datatype ChannelPatch = ChannelPatch(name: Option<string>, description: Option<Option<string>>, kind: Option<ChannelType>, position: Option<int>)

  const CreateLoginError := "You must be logged in to create a channel"
  const UpdateLoginError := "You must be logged in to update a channel"
  const DeleteLoginError := "You must be logged in to delete a channel"

  /** `nextPosition`, from the reply to "positions of this server, highest first, at most one":
      one past that position, or 0 when the query returned nothing. */
  function NextPosition(top: Option<seq<int>>): (next: int)
    ensures top.None? || top.value == [] ==> next == 0
    ensures top.Some? && top.value != [] ==> next == top.value[0] + 1
  {
    if top.Some? && |top.value| > 0 then top.value[0] + 1 else 0
  }

  /** When the reply heads the server's positions in descending order, the next position lies
      above every existing channel, and it is 0 for a server with no channels. */
  lemma NextPositionAboveAll(positions: seq<int>)
    requires forall i :: 0 <= i < |positions| ==> positions[i] <= positions[0]
    ensures forall i :: 0 <= i < |positions| ==> positions[i] < NextPosition(Some(positions[..1]))
    ensures positions == [] ==> NextPosition(Some(positions)) == 0
  {
    if positions != [] {
      assert positions[..1][0] == positions[0];
    }
  }

  /** The row inserted for a new channel; `input.position ?? nextPosition`, so an explicit 0
      is kept. */
  function NewChannelRow(serverId: string, input: CreateChannelInput, next: int): (r: NewChannel)
    ensures r.serverId == serverId && r.name == input.name
    ensures r.description.Some? <==> Truthy(input.description)
    ensures r.description.Some? ==> r.description == input.description
    ensures r.kind == if input.kind.Some? then input.kind.value else Text
    ensures input.position.Some? ==> r.position == input.position.value
    ensures input.position.None? ==> r.position == next
  {
    NewChannel(serverId, input.name, OrNone(input.description), input.kind.GetOr(Text), input.position.GetOr(next))
  }

  /** `createChannel` up to the insert: the login guard, then the row built with `top`, the
      reply to the highest-position query. */
  function CreateRequest(serverId: Option<string>, user: Option<string>, input: CreateChannelInput, top: Option<seq<int>>): (r: Result<NewChannel, string>)
    ensures r.Failure? <==> !Truthy(serverId) || user.None?
    ensures r.Failure? ==> r.error == CreateLoginError
    ensures r.Success? ==> r.value == NewChannelRow(serverId.value, input, NextPosition(top))
  {
    if !Truthy(serverId) || user.None? then Failure(CreateLoginError)
    else Success(NewChannelRow(serverId.value, input, NextPosition(top)))
  }

  /** The update object: exactly the defined fields, with an empty description sent as null. */
  function UpdatePatch(input: UpdateChannelInput): (p: ChannelPatch)
    ensures p.name == input.name && p.kind == input.kind && p.position == input.position
    ensures p.description.Some? <==> input.description.Some?
    ensures p.description.Some? ==> (p.description.value.None? <==> input.description.value == "")
    ensures p.description.Some? && p.description.value.Some? ==> p.description.value == input.description
  {
    ChannelPatch(input.name, if input.description.Some? then Some(OrNone(input.description)) else None, input.kind, input.position)
  }

  /** The row after the backend applied a patch: a field absent from the patch keeps its value. */
  function Patched(c: Channel, p: ChannelPatch): Channel {
    c.(name := p.name.GetOr(c.name),
       description := p.description.GetOr(c.description),
       kind := p.kind.GetOr(c.kind),
       position := p.position.GetOr(c.position))
  }

  /** An update touches exactly the fields its input defines: undefined ones keep the stored
      value, defined ones take the input's (an empty description clears it). */
  lemma UpdateChangesDefinedFields(c: Channel, input: UpdateChannelInput)
    ensures var after := Patched(c, UpdatePatch(input));
      && after.id == c.id && after.serverId == c.serverId
      && after.name == (if input.name.Some? then input.name.value else c.name)
      && after.kind == (if input.kind.Some? then input.kind.value else c.kind)
      && after.position == (if input.position.Some? then input.position.value else c.position)
      && (input.description.None? ==> after.description == c.description)
      && (input.description == Some("") ==> after.description.None?)
      && (Truthy(input.description) ==> after.description == input.description)
  {
    var p := UpdatePatch(input);
    if input.description.Some? {
      assert p.description == Some(OrNone(input.description));
    }
  }

  /** `updateChannel` up to the request. */
  function UpdateRequest(user: Option<string>, input: UpdateChannelInput): (r: Result<ChannelPatch, string>)
    ensures r.Failure? <==> user.None?
    ensures r.Failure? ==> r.error == UpdateLoginError
    ensures r.Success? ==> r.value == UpdatePatch(input)
  {
    if user.None? then Failure(UpdateLoginError) else Success(UpdatePatch(input))
  }

  /** `deleteChannel` up to the request: the id to delete, or the login error. */
  function DeleteRequest(user: Option<string>, channelId: string): (r: Result<string, string>)
    ensures r.Failure? <==> user.None?
    ensures r.Failure? ==> r.error == DeleteLoginError
    ensures r.Success? ==> r.value == channelId
  {
    if user.None? then Failure(DeleteLoginError) else Success(channelId)
  }
}
