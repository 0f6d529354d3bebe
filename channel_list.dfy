/**
 * The channel sidebar of a server (`ChannelList`): the viewer's role, whether it may manage
 * channels, and the channels split into text, voice and video sections.
 */
module ChannelList {
  import opened Common
  import opened Types

  /** `userRole === 'owner' || userRole === 'admin'` */
  predicate CanManage(role: Option<Role>)
    ensures CanManage(role) <==> role.Some? && !role.value.Member?
  {
    role == Some(Owner) || role == Some(Admin)
  }

  /** The part of the component that holds state: the viewer's role in the server. */
  class RoleState {
    var userRole: Option<Role>

    constructor ()
      ensures userRole == None
    {
      userRole := None;
    }

    /** `fetchUserRole` for the signed-in user (None when signed out). The owner is recognised
        from `serverOwnerId` without a lookup; anyone else takes the role of their membership
        row (`membership`, the lookup's reply), or no role. `queried` says whether the lookup
        was issued. */
    method FetchUserRole(user: Option<string>, serverOwnerId: string, membership: Option<Role>) returns (queried: bool)
      modifies this`userRole
      ensures user.None? ==> !queried && userRole == old(userRole)
      ensures user.Some? && user.value == serverOwnerId ==> !queried && userRole == Some(Owner)
      ensures user.Some? && user.value != serverOwnerId ==> queried && userRole == membership
    {
      if user.None? {
        return false;
      }
      if user.value == serverOwnerId {
        userRole := Some(Owner);
        return false;
      }
      userRole := membership;
      return true;
    }
  }

  /** `channels.filter(c => c.type === kind)` */
  function OfKind(channels: seq<Channel>, kind: ChannelType): (r: seq<Channel>)
    ensures forall c :: c in r <==> c in channels && c.kind == kind
  {
    Filter(channels, (c: Channel) => c.kind == kind)
  }

  /** Every channel lands in exactly one of the three sections, each section keeps the channels'
      order, and together the sections hold as many channels as the server has. */
  lemma SectionsPartition(channels: seq<Channel>)
    ensures |OfKind(channels, Text)| + |OfKind(channels, Voice)| + |OfKind(channels, Video)| == |channels|
    ensures forall k :: IsSubsequence(OfKind(channels, k), channels)
    ensures forall c, k1, k2 :: c in OfKind(channels, k1) && c in OfKind(channels, k2) ==> k1 == k2
  {
    forall k {
      FilterIsSubsequence(channels, (c: Channel) => c.kind == k);
    }
    SectionsCount(channels);
  }

  /** The three sections together are as long as the channel list. */
  lemma {:induction false} SectionsCount(channels: seq<Channel>)
    ensures |OfKind(channels, Text)| + |OfKind(channels, Voice)| + |OfKind(channels, Video)| == |channels|
  {
    if channels != [] {
      SectionsCount(channels[1..]);
      assert forall k ::
        OfKind(channels, k) == (if channels[0].kind == k then [channels[0]] else []) + OfKind(channels[1..], k);
    }
  }

  /** The icon in front of a channel's name: '#' for text, and for voice and video the
      four-character strings the component holds, which are the UTF-8 bytes of a speaker and a
      camera emoji read back as Windows-1252 text. */
  function Icon(kind: ChannelType): (icon: string)
    ensures icon == "#" <==> kind == Text
    ensures kind != Text ==> |icon| == 4 && icon[0] == '\U{F0}' && icon[1] == '\U{178}'
  {
    match kind
    case Text => "#"
    case Voice => "\U{F0}\U{178}\U{201D}\U{160}"
    case Video => "\U{F0}\U{178}\U{201C}\U{B9}"
  }

  /** No two channel types share an icon. */
  lemma IconsDistinct(k1: ChannelType, k2: ChannelType)
    ensures Icon(k1) == Icon(k2) ==> k1 == k2
  {
  }

  /** One rendered channel: its caption, whether it is selected and whether its menu is shown. */
  datatype Item = Item(id: string, caption: string, selected: bool, hasMenu: bool)

  datatype Section = Section(title: string, items: seq<Item>)

  /** An empty server shows a placeholder, with the hint to create a channel for managers. */
  datatype ListView = NoChannelsYet(showCreateHint: bool) | Sections(sections: seq<Section>)

  function ItemFor(c: Channel, selectedId: Option<string>, canManage: bool): Item {
    Item(c.id, Icon(c.kind) + " " + c.name, selectedId == Some(c.id), canManage)
  }

  /** `ChannelSection`: nothing for an empty section. */
  function SectionFor(title: string, channels: seq<Channel>, selectedId: Option<string>, canManage: bool): (r: seq<Section>)
    ensures channels == [] <==> r == []
    ensures r != [] ==> |r| == 1 && r[0].title == title && |r[0].items| == |channels|
    ensures r != [] ==> forall i :: 0 <= i < |channels| ==> r[0].items[i].id == channels[i].id && r[0].items[i].hasMenu == canManage
    ensures r != [] ==> forall i :: 0 <= i < |channels| ==>
      r[0].items[i].caption == Icon(channels[i].kind) + " " + channels[i].name
      && (r[0].items[i].selected <==> selectedId == Some(channels[i].id))
  {
    if channels == [] then []
    else [Section(title, seq(|channels|, i requires 0 <= i < |channels| => ItemFor(channels[i], selectedId, canManage)))]
  }

  /** Sections with items, joined, still all have items. */
  lemma ConcatKeepsItems(a: seq<Section>, b: seq<Section>, c: seq<Section>)
    requires |a| <= 1 && |b| <= 1 && |c| <= 1
    requires forall i :: 0 <= i < |a| ==> a[i].items != []
    requires forall i :: 0 <= i < |b| ==> b[i].items != []
    requires forall i :: 0 <= i < |c| ==> c[i].items != []
    ensures |a + b + c| <= 3
    ensures forall i :: 0 <= i < |a + b + c| ==> (a + b + c)[i].items != []
  {
    var s := a + b + c;
    forall i | 0 <= i < |s| ensures s[i].items != [] {
      if i < |a| { assert s[i] == a[i]; }
      else if i < |a| + |b| { assert s[i] == b[i - |a|]; }
      else { assert s[i] == c[i - |a| - |b|]; }
    }
  }

  function Render(channels: seq<Channel>, role: Option<Role>, selectedId: Option<string>): (view: ListView)
    ensures channels == [] <==> view.NoChannelsYet?
    ensures view.NoChannelsYet? ==> (view.showCreateHint <==> CanManage(role))
    ensures view.Sections? ==> 1 <= |view.sections| <= 3 && forall i :: 0 <= i < |view.sections| ==> view.sections[i].items != []
    ensures view.Sections? ==>
      view.sections == (SectionFor(SectionTitle(Text), OfKind(channels, Text), selectedId, CanManage(role))
        + SectionFor(SectionTitle(Voice), OfKind(channels, Voice), selectedId, CanManage(role))
        + SectionFor(SectionTitle(Video), OfKind(channels, Video), selectedId, CanManage(role)))
  {
    if channels == [] then NoChannelsYet(CanManage(role))
    else
      var m := CanManage(role);
      SectionsPartition(channels);
      var text := SectionFor(SectionTitle(Text), OfKind(channels, Text), selectedId, m);
      var voice := SectionFor(SectionTitle(Voice), OfKind(channels, Voice), selectedId, m);
      var video := SectionFor(SectionTitle(Video), OfKind(channels, Video), selectedId, m);
      ConcatKeepsItems(text, voice, video);
      Sections(text + voice + video)
  }

  /** Every item the list shows, section after section. */
  function AllItems(sections: seq<Section>): seq<Item> {
    if sections == [] then [] else sections[0].items + AllItems(sections[1..])
  }

  lemma {:induction false} AllItemsConcat(a: seq<Section>, b: seq<Section>)
    ensures AllItems(a + b) == AllItems(a) + AllItems(b)
  {
    if a == [] {
      assert a + b == b;
    } else {
      assert (a + b)[0] == a[0];
      assert (a + b)[1..] == a[1..] + b;
      AllItemsConcat(a[1..], b);
    }
  }

  /** The items of one `ChannelSection`. */
  lemma SectionItems(title: string, channels: seq<Channel>, selectedId: Option<string>, canManage: bool)
    ensures |AllItems(SectionFor(title, channels, selectedId, canManage))| == |channels|
    ensures forall i :: 0 <= i < |channels| ==>
      AllItems(SectionFor(title, channels, selectedId, canManage))[i] == ItemFor(channels[i], selectedId, canManage)
  {
    var r := SectionFor(title, channels, selectedId, canManage);
    if r != [] {
      assert AllItems(r) == r[0].items + AllItems(r[1..]);
    }
  }

  /** A channel's item is among the items of its own type's section. */
  lemma ChannelInOwnSection(channels: seq<Channel>, c: Channel, selectedId: Option<string>, canManage: bool)
    requires c in channels
    ensures ItemFor(c, selectedId, canManage) in AllItems(SectionFor(SectionTitle(c.kind), OfKind(channels, c.kind), selectedId, canManage))
  {
    var own := OfKind(channels, c.kind);
    var k :| 0 <= k < |own| && own[k] == c;
    SectionItems(SectionTitle(c.kind), own, selectedId, canManage);
  }

  /** A server with channels shows one item per channel, and each channel's item carries its id,
      its icon and name, its selection and the managers' menu. */
  lemma RenderShowsEveryChannel(channels: seq<Channel>, role: Option<Role>, selectedId: Option<string>)
    requires channels != []
    ensures Render(channels, role, selectedId).Sections?
    ensures |AllItems(Render(channels, role, selectedId).sections)| == |channels|
    ensures forall c :: c in channels ==> ItemFor(c, selectedId, CanManage(role)) in AllItems(Render(channels, role, selectedId).sections)
  {
    var m := CanManage(role);
    var text := SectionFor(SectionTitle(Text), OfKind(channels, Text), selectedId, m);
    var voice := SectionFor(SectionTitle(Voice), OfKind(channels, Voice), selectedId, m);
    var video := SectionFor(SectionTitle(Video), OfKind(channels, Video), selectedId, m);
    AllItemsConcat(text + voice, video);
    AllItemsConcat(text, voice);
    var items := AllItems(text) + AllItems(voice) + AllItems(video);
    assert AllItems(Render(channels, role, selectedId).sections) == items;
    SectionItems(SectionTitle(Text), OfKind(channels, Text), selectedId, m);
    SectionItems(SectionTitle(Voice), OfKind(channels, Voice), selectedId, m);
    SectionItems(SectionTitle(Video), OfKind(channels, Video), selectedId, m);
    SectionsCount(channels);
    forall c | c in channels
      ensures ItemFor(c, selectedId, m) in items
    {
      ChannelInOwnSection(channels, c, selectedId, m);
    }
  }

  /** The heading of each type's section. */
  function SectionTitle(kind: ChannelType): (title: string)
    ensures title == "Text Channels" <==> kind == Text
  {
    match kind
    case Text => "Text Channels"
    case Voice => "Voice Channels"
    case Video => "Video Channels"
  }
}
