/**
 * The public server directory (`useServers`).
 *
 * Loading joins the public servers with the signed-in user's memberships and tallies every
 * server's members on the client. Creating a server also makes its creator the owner; joining
 * makes the user a plain member. Every backend reply is a parameter.
 */
module UseServers {
  import opened Common
  import opened Types

  // ---------------------------------------------------------------------------
  // Membership join

  /** `membershipMap.get(serverId)` for `new Map(memberships.map(m => [m.server_id, m]))`. */
  function MembershipOf(memberships: seq<ServerMember>, serverId: string): (r: Option<ServerMember>)
    ensures r.None? <==> forall i :: 0 <= i < |memberships| ==> memberships[i].serverId != serverId
    ensures r.Some? ==> r.value in memberships && r.value.serverId == serverId
  {
    LastWhere(memberships, (m: ServerMember) => m.serverId == serverId)
  }

  /** `serversWithMembers`: every public server, in order, with the user's membership in it. */
  function WithMembers(servers: seq<Server>, memberships: seq<ServerMember>): (r: seq<ServerWithMember>)
    ensures |r| == |servers|
    ensures forall i :: 0 <= i < |r| ==> r[i].server == servers[i] && r[i].memberCount.None?
    ensures forall i :: 0 <= i < |r| ==>
      (r[i].member.Some? <==> exists j :: 0 <= j < |memberships| && memberships[j].serverId == servers[i].id)
    ensures forall i :: 0 <= i < |r| ==> r[i].member.Some? ==> r[i].member.value.serverId == servers[i].id
  {
    seq(|servers|, i requires 0 <= i < |servers| =>
      ServerWithMember(servers[i], MembershipOf(memberships, servers[i].id), None))
  }

  // ---------------------------------------------------------------------------
  // Member counts

  /** The `forEach` that fills `countMap` from the `server_id` of every membership row. */
  method CountMembers(rows: seq<string>) returns (counts: map<string, nat>)
    ensures forall s :: s in counts <==> s in rows
    ensures forall s :: s in counts ==> counts[s] == multiset(rows)[s]
  {
    counts := map[];
    var i := 0;
    while i < |rows|
      invariant 0 <= i <= |rows|
      invariant forall s :: s in counts <==> s in rows[..i]
      invariant forall s :: s in counts ==> counts[s] == multiset(rows[..i])[s]
    {
      assert rows[..i + 1] == rows[..i] + [rows[i]];
      var before := if rows[i] in counts then counts[rows[i]] else 0;
      counts := counts[rows[i] := before + 1];
      i := i + 1;
    }
    assert rows[..i] == rows;
  }

  /** `countMap.get(id) || 0` */
  function CountFor(counts: map<string, nat>, id: string): nat {
    if id in counts then counts[id] else 0
  }

  /** A server's count is the number of membership rows that name it, and 0 when none do. */
  lemma CountForIsTally(rows: seq<string>, counts: map<string, nat>, id: string)
    requires forall s :: s in counts <==> s in rows
    requires forall s :: s in counts ==> counts[s] == multiset(rows)[s]
    ensures CountFor(counts, id) == multiset(rows)[id]
    ensures CountFor(counts, id) == 0 <==> id !in rows
  {
  }

  /** The second `forEach`, which sets `member_count` on each server object in place. */
  method AssignMemberCounts(servers: array<ServerWithMember>, counts: map<string, nat>)
    modifies servers
    ensures forall i :: 0 <= i < servers.Length ==>
      servers[i] == old(servers[i]).(memberCount := Some(CountFor(counts, old(servers[i]).server.id)))
  {
    var i := 0;
    while i < servers.Length
      invariant 0 <= i <= servers.Length
      invariant forall k :: 0 <= k < i ==>
        servers[k] == old(servers[k]).(memberCount := Some(CountFor(counts, old(servers[k]).server.id)))
      invariant forall k :: i <= k < servers.Length ==> servers[k] == old(servers[k])
    {
      servers[i] := servers[i].(memberCount := Some(CountFor(counts, servers[i].server.id)));
      i := i + 1;
    }
  }

  // ---------------------------------------------------------------------------
  // Creating, joining and leaving

  datatype CreateServerInput = CreateServerInput(name: string, description: Option<string>, iconUrl: Option<string>, isPublic: Option<bool>)

  /** The `servers` row `createServer` inserts. */
  datatype NewServer = NewServer(name: string, description: Option<string>, iconUrl: Option<string>, ownerId: string, isPublic: bool)

  /** A `server_members` row to insert. */
  datatype NewMembership = NewMembership(serverId: string, userId: string, role: Role)

  function NewServerRow(input: CreateServerInput, ownerId: string): (r: NewServer)
    ensures r.name == input.name && r.ownerId == ownerId
    ensures r.isPublic == (input.isPublic != Some(false))
    ensures r.description.Some? <==> Truthy(input.description)
    ensures r.description.Some? ==> r.description == input.description
    ensures r.iconUrl.Some? <==> Truthy(input.iconUrl)
    ensures r.iconUrl.Some? ==> r.iconUrl == input.iconUrl
  {
    NewServer(input.name, OrNone(input.description), OrNone(input.iconUrl), ownerId, input.isPublic.GetOr(true))
  }

  const CreateLoginError := "You must be logged in to create a server"
  const JoinLoginError := "You must be logged in to join a server"
  const LeaveLoginError := "You must be logged in to leave a server"

  /** What `createServer` did. */
  datatype CreateOutcome =
    | Rejected(error: string)
    | Created(row: NewServer, owner: NewMembership)
    | Failed(row: NewServer, ownerRow: Option<NewMembership>, error: string)

  class ServerDirectory {
    /** The signed-in user's id, or None when signed out. */
    const user: Option<string>
    var servers: seq<ServerWithMember>
    var loading: bool
    var error: Option<string>

    constructor (user: Option<string>)
      ensures this.user == user && servers == [] && loading && error == None
    {
      this.user := user;
      servers := [];
      loading := true;
      error := None;
    }

    /** `fetchServers`, given the public servers (or the error), the user's memberships (None
        when that query failed or returned null) and the `server_id` of every membership row
        of those servers. */
    method Load(publicServers: Result<seq<Server>, Thrown>, memberships: Option<seq<ServerMember>>, countRows: seq<string>)
      modifies this`servers, this`loading, this`error
      ensures !loading
      ensures user.None? ==> servers == old(servers) && error == old(error)
      ensures user.Some? && publicServers.Failure? ==>
        servers == old(servers) && error == Some(ErrorMessage(publicServers.error, "An error occurred"))
      ensures user.Some? && publicServers.Success? ==> error == None && |servers| == |publicServers.value|
      ensures user.Some? && publicServers.Success? && memberships.None? ==>
        forall i :: 0 <= i < |servers| ==> servers[i] == ServerWithMember(publicServers.value[i], None, None)
      ensures user.Some? && publicServers.Success? && memberships.Some? ==>
        forall i :: 0 <= i < |servers| ==>
          && servers[i].server == publicServers.value[i]
          && servers[i].member == MembershipOf(memberships.value, publicServers.value[i].id)
          && servers[i].memberCount == Some(multiset(countRows)[publicServers.value[i].id])
    {
      if user.None? {
        loading := false;
        return;
      }
      loading := true;
      error := None;
      match publicServers {
        case Failure(thrown) =>
          error := Some(ErrorMessage(thrown, "An error occurred"));
        case Success(rows) =>
          if memberships.Some? {
            var joined := WithMembers(rows, memberships.value);
            if |joined| > 0 {
              var counts := CountMembers(countRows);
              var a := new ServerWithMember[|joined|](i requires 0 <= i < |joined| => joined[i]);
              AssignMemberCounts(a, counts);
              forall i | 0 <= i < a.Length ensures a[i].memberCount == Some(multiset(countRows)[rows[i].id]) {
                CountForIsTally(countRows, counts, rows[i].id);
              }
              joined := a[..];
            }
            servers := joined;
          } else {
            servers := seq(|rows|, i requires 0 <= i < |rows| => ServerWithMember(rows[i], None, None));
          }
      }
      loading := false;
    }

    /** `createServer`: `created` is the insert's reply (the new server's id, or the error) and
        `ownerThrown` the error of the owner-membership insert, if any. */
    method Create(input: CreateServerInput, created: Result<string, Thrown>, ownerThrown: Option<Thrown>) returns (out: CreateOutcome)
      modifies this`error
      ensures user.None? <==> out == Rejected(CreateLoginError)
      ensures user.Some? ==> !out.Rejected? && out.row == NewServerRow(input, user.value)
      ensures out.Created? <==> user.Some? && created.Success? && ownerThrown.None?
      ensures out.Created? ==> out.owner == NewMembership(created.value, user.value, Owner) && error == None
      ensures out.Failed? && created.Failure? ==>
        out.ownerRow.None? && out.error == ErrorMessage(created.error, "Failed to create server")
      ensures out.Failed? && created.Success? ==>
        out.ownerRow == Some(NewMembership(created.value, user.value, Owner))
        && Some(out.error) == FailureMessage(ownerThrown, "Failed to create server")
      ensures out.Failed? ==> error == Some(out.error)
      ensures out.Rejected? ==> error == old(error)
    {
      if user.None? {
        return Rejected(CreateLoginError);
      }
      error := None;
      var row := NewServerRow(input, user.value);
      match created {
        case Failure(thrown) =>
          out := Failed(row, None, ErrorMessage(thrown, "Failed to create server"));
        case Success(id) =>
          var owner := NewMembership(id, user.value, Owner);
          var err := FailureMessage(ownerThrown, "Failed to create server");
          out := if err.Some? then Failed(row, Some(owner), err.value) else Created(row, owner);
      }
      if out.Failed? {
        error := Some(out.error);
      }
    }

    /** `joinServer`: `issued` is the membership row inserted (None when signed out). */
    method Join(serverId: string, thrown: Option<Thrown>) returns (issued: Option<NewMembership>, err: Option<string>)
      modifies this`error
      ensures issued.Some? <==> user.Some?
      ensures issued.Some? ==> issued.value == NewMembership(serverId, user.value, Member)
      ensures issued.None? ==> err == Some(JoinLoginError) && error == old(error)
      ensures issued.Some? ==> err == FailureMessage(thrown, "Failed to join server") && error == err
    {
      if user.None? {
        return None, Some(JoinLoginError);
      }
      issued := Some(NewMembership(serverId, user.value, Member));
      err := FailureMessage(thrown, "Failed to join server");
      error := err;
    }

    /** `leaveServer`: the user's membership is deleted exactly when someone is signed in. */
    method Leave(serverId: string, thrown: Option<Thrown>) returns (issued: bool, err: Option<string>)
      modifies this`error
      ensures issued <==> user.Some?
      ensures !issued ==> err == Some(LeaveLoginError) && error == old(error)
      ensures issued ==> err == FailureMessage(thrown, "Failed to leave server") && error == err
    {
      if user.None? {
        return false, Some(LeaveLoginError);
      }
      issued := true;
      err := FailureMessage(thrown, "Failed to leave server");
      error := err;
    }
  }
}
