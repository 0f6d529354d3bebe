/**
 * The server directory page (`src/app/discover/page.tsx`): the search filter over the listed
 * servers and the join and leave handlers with their "in progress" markers.
 */
module DiscoverPage {
  import opened Common
  import opened Types

  /** The filter's test: the lowercased name contains the lowercased query, or the description
      is present and its lowercased text does. */
  predicate Matches(server: Server, query: string) {
    Contains(Lower(server.name), Lower(query))
    || (server.description.Some? && Contains(Lower(server.description.value), Lower(query)))
  }

  /** `filteredServers` */
  function FilteredServers(servers: seq<ServerWithMember>, query: string): (r: seq<ServerWithMember>)
    ensures |r| <= |servers|
    ensures forall s :: s in r <==> s in servers && Matches(s.server, query)
  {
    Filter(servers, (s: ServerWithMember) => Matches(s.server, query))
  }

  /** The filter keeps the listing's order and only leaves servers out. */
  lemma FilteredIsSubsequence(servers: seq<ServerWithMember>, query: string)
    ensures IsSubsequence(FilteredServers(servers, query), servers)
  {
    FilterIsSubsequence(servers, (s: ServerWithMember) => Matches(s.server, query));
  }

  /** With an empty search box every server is listed. */
  lemma EmptyQueryKeepsAll(servers: seq<ServerWithMember>)
    ensures FilteredServers(servers, "") == servers
  {
    forall i | 0 <= i < |servers| ensures Matches(servers[i].server, "") {
      ContainsEmpty(Lower(servers[i].server.name));
    }
    FilterKeepsAll(servers, (s: ServerWithMember) => Matches(s.server, ""));
  }

  /** Lowercasing twice is lowercasing once. */
  lemma LowerIdempotent(s: string)
    ensures Lower(Lower(s)) == Lower(s)
  {
    assert forall i :: 0 <= i < |s| ==> LowerChar(LowerChar(s[i])) == LowerChar(s[i]);
  }

  /** The search ignores the case of the query: typing it in upper or lower case gives the
      same servers. */
  lemma QueryCaseIgnored(servers: seq<ServerWithMember>, query: string)
    ensures FilteredServers(servers, Lower(query)) == FilteredServers(servers, query)
  {
    LowerIdempotent(query);
    FilterCongruent(servers, (s: ServerWithMember) => Matches(s.server, Lower(query)), (s: ServerWithMember) => Matches(s.server, query));
  }

  class Page {
    var joiningServerId: Option<string>
    var leavingServerId: Option<string>
    /** The last route the page navigated to. */
    var route: Option<string>

    constructor ()
      ensures joiningServerId.None? && leavingServerId.None? && route.None?
    {
      joiningServerId := None;
      leavingServerId := None;
      route := None;
    }

    /** `handleJoin` up to the call: the server's card shows that it is joining. */
    method BeginJoin(serverId: string)
      modifies this`joiningServerId
      ensures joiningServerId == Some(serverId)
    {
      joiningServerId := Some(serverId);
    }

    /** The rest of `handleJoin`: the marker is cleared, and the server's page is opened only
        when the join reported no error (no message, or an empty one). */
    method FinishJoin(serverId: string, error: Option<string>)
      modifies this`joiningServerId, this`route
      ensures joiningServerId.None?
      ensures !Truthy(error) ==> route == Some("/servers/" + serverId)
      ensures Truthy(error) ==> route == old(route)
    {
      joiningServerId := None;
      if !Truthy(error) {
        route := Some("/servers/" + serverId);
      }
    }

    /** `handleLeave` up to the call. */
    method BeginLeave(serverId: string)
      modifies this`leavingServerId
      ensures leavingServerId == Some(serverId)
    {
      leavingServerId := Some(serverId);
    }

    /** The rest of `handleLeave`: the marker is cleared whatever the outcome, and the page stays. */
    method FinishLeave()
      modifies this`leavingServerId
      ensures leavingServerId.None?
    {
      leavingServerId := None;
    }

    /** `handleView` */
    method View(serverId: string)
      modifies this`route
      ensures route == Some("/servers/" + serverId)
    {
      route := Some("/servers/" + serverId);
    }
  }
}
