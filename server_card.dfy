/**
 * One server in the directory (`ServerCard`): the badge, the member count and which of the
 * Join, Leave and View buttons are offered.
 */
module ServerCard {
  import opened Common
  import opened Types

  /** `!!server.member` */
  predicate IsMember(s: ServerWithMember) {
    s.member.Some?
  }

  /** `server.member?.role === 'owner'` */
  predicate IsOwner(s: ServerWithMember) {
    s.member.Some? && s.member.value.role == Owner
  }

  datatype Badge = OwnerBadge | MemberBadge

  /** The badge next to the name: Owner for the owner, Member for any other member. */
  function BadgeFor(s: ServerWithMember): (b: Option<Badge>)
    ensures b == Some(OwnerBadge) <==> IsOwner(s)
    ensures b == Some(MemberBadge) <==> IsMember(s) && !IsOwner(s)
    ensures b.None? <==> !IsMember(s)
  {
    if IsOwner(s) then Some(OwnerBadge)
    else if IsMember(s) then Some(MemberBadge)
    else None
  }

  /** `${count} member${count !== 1 ? 's' : ''}` */
  function MemberCountLabel(count: nat): (text: string)
    ensures text == NatToString(count) + " member" || text == NatToString(count) + " members"
    ensures text[|text| - 1] == 's' <==> count != 1
  {
    NatToString(count) + (if count != 1 then " members" else " member")
  }

  /** The label starts with the count, which reads back as the number of members, and uses
      the singular exactly for one member. */
  lemma {:induction false} MemberCountLabelReadsBack(count: nat)
    ensures var text := MemberCountLabel(count); var digits := |NatToString(count)|;
      && digits < |text|
      && (forall i :: 0 <= i < digits ==> '0' <= text[i] <= '9')
      && ParseNat(text[..digits]) == count
      && text[digits..] == (if count == 1 then " member" else " members")
  {
    var digits := NatToString(count);
    var text := MemberCountLabel(count);
    assert text[..|digits|] == digits;
    NatToStringRoundTrip(count);
  }

  /** What the card shows. `onJoin`, `onLeave` and `onView` say which handlers the page passed;
      `opensOnClick` is the click on the card itself, which calls `onView` for any server. */
  datatype Card = Card(
    name: string,
    badge: Option<Badge>,
    description: Option<string>,
    memberLabel: Option<string>,
    showJoin: bool,
    showLeave: bool,
    showView: bool,
    opensOnClick: bool)

  function Render(s: ServerWithMember, onJoin: bool, onLeave: bool, onView: bool): (card: Card)
    ensures card.name == s.server.name && card.badge == BadgeFor(s)
    ensures card.description.Some? <==> Truthy(s.server.description)
    ensures card.description.Some? ==> card.description == s.server.description
    ensures card.memberLabel.Some? <==> s.memberCount.Some?
    ensures card.memberLabel.Some? ==> card.memberLabel.value == MemberCountLabel(s.memberCount.value)
    ensures card.showJoin <==> !IsMember(s) && onJoin
    ensures card.showLeave <==> IsMember(s) && !IsOwner(s) && onLeave
    ensures card.showView <==> IsMember(s) && onView
    ensures card.opensOnClick <==> onView
  {
    Card(
      s.server.name,
      BadgeFor(s),
      if Truthy(s.server.description) then s.server.description else None,
      if s.memberCount.Some? then Some(MemberCountLabel(s.memberCount.value)) else None,
      !IsMember(s) && onJoin,
      IsMember(s) && !IsOwner(s) && onLeave,
      IsMember(s) && onView,
      onView)
  }

  /** The Join and Leave buttons are never offered together; an owner is offered neither, and a
      non-member gets no View button, although clicking the card still opens the server. */
  lemma ButtonsExclusive(s: ServerWithMember, onJoin: bool, onLeave: bool, onView: bool)
    ensures var card := Render(s, onJoin, onLeave, onView);
      && !(card.showJoin && card.showLeave)
      && (IsOwner(s) ==> !card.showJoin && !card.showLeave)
      && (!IsMember(s) ==> !card.showView && !card.showLeave && card.opensOnClick == onView)
  {
  }
}
