/** The home page's list of upcoming festivals: what it renders, the per-festival notification bells,
    and the calendar link of each card. */
module UpcomingFestivalsCard {
  import opened Wrappers
  import opened Text
  import opened Schema
  import opened Seqs
  import opened MembershipToggle

  /** The three shapes the component renders. */
  datatype FestivalListView =
    | LoadingSkeleton(placeholders: nat)
    | NoUpcomingFestivals
    | FestivalCards(cards: seq<Festival>)

  /** While loading, three placeholders; a missing or empty list, the empty state; otherwise one card
      per festival, in order. */
  function ViewOf(festivals: Option<seq<Festival>>, loading: bool): (v: FestivalListView)
    ensures loading ==> v == LoadingSkeleton(3)
    ensures !loading && (festivals.None? || festivals.value == []) ==> v == NoUpcomingFestivals
    ensures v.FestivalCards? <==> !loading && festivals.Some? && festivals.value != []
    ensures v.FestivalCards? ==> v.cards == festivals.value
  {
    if loading then LoadingSkeleton(3)
    else if festivals.None? || festivals.value == [] then NoUpcomingFestivals
    else FestivalCards(festivals.value)
  }

  /** The bell icon of one festival. */
  function BellIcon(notified: seq<int>, festivalId: int): (icon: string)
    ensures icon == "notifications_active" <==> festivalId in notified
    ensures icon == "notifications_none" <==> festivalId !in notified
  {
    if festivalId in notified then "notifications_active" else "notifications_none"
  }

  /** The bell button's classes: highlighted exactly when notifications are on. */
  function BellClass(notified: seq<int>, festivalId: int): (cls: string)
    ensures cls == "text-primary" <==> festivalId in notified
    ensures cls == "text-neutral-darker hover:text-primary" <==> festivalId !in notified
  {
    if festivalId in notified then "text-primary" else "text-neutral-darker hover:text-primary"
  }

  /** A bell click flips that festival's icon and leaves every other festival's icon as it was. */
  lemma ToggleFlipsOnlyThatBell(notified: seq<int>, festivalId: int, other: int)
    ensures BellIcon(Toggle(notified, festivalId), festivalId) != BellIcon(notified, festivalId)
    ensures other != festivalId ==> BellIcon(Toggle(notified, festivalId), other) == BellIcon(notified, other)
  {
    ToggleFlips(notified, festivalId);
  }

  /** Where a card click leads: the calendar, with the festival's id in the query. */
  function CardLink(festivalId: int): (url: string)
    ensures url == "/calendar?festivalId=" + IntToString(festivalId)
    ensures "/calendar?festivalId=" <= url
  {
    "/calendar?festivalId=" + IntToString(festivalId)
  }

  /** The component's state: the ids of the festivals whose bell is on. */
  class NotificationBells {
    var notifiedFestivals: seq<int>

    constructor()
      ensures notifiedFestivals == []
    {
      notifiedFestivals := [];
    }

    /** A bell click: an id not in the list is appended; an id in it is removed, with the others kept
        in order. */
    method ToggleNotification(festivalId: int)
      modifies this
      ensures notifiedFestivals == Toggle(old(notifiedFestivals), festivalId)
      ensures festivalId in notifiedFestivals <==> festivalId !in old(notifiedFestivals)
      ensures forall id :: id != festivalId ==> (id in notifiedFestivals <==> id in old(notifiedFestivals))
      ensures festivalId in old(notifiedFestivals) ==> IsSubsequence(notifiedFestivals, old(notifiedFestivals))
      ensures festivalId !in old(notifiedFestivals) ==> notifiedFestivals == old(notifiedFestivals) + [festivalId]
    {
      ToggleFlips(notifiedFestivals, festivalId);
      if festivalId in notifiedFestivals {
        ToggleRemovesInOrder(notifiedFestivals, festivalId);
      }
      notifiedFestivals := Toggle(notifiedFestivals, festivalId);
    }
  }
}
