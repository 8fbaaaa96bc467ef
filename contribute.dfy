/** The contributions tab: the kind filter, the status badge and the share text. */
module ContributePage {
  import opened Wrappers
  import opened Seqs
  import opened Text
  import opened Schema
  import Routes

  datatype ContributionKind = AllKinds | Rituals | Calendars

  /** A contribution counts as a calendar when its title mentions "Calendar" (case matters). */
  predicate IsCalendar(c: Contribution)
  {
    Contains(c.title, "Calendar")
  }

  function OfKind(kind: ContributionKind): Contribution -> bool
  {
    (c: Contribution) => match kind
      case AllKinds => true
      case Calendars => IsCalendar(c)
      case Rituals => !IsCalendar(c)
  }

  /** `filteredContributions`. */
  function FilterContributions(cs: seq<Contribution>, kind: ContributionKind): (r: seq<Contribution>)
    ensures IsSubsequence(r, cs)
    ensures forall c :: c in r <==> c in cs && OfKind(kind)(c)
  {
    Filter(cs, OfKind(kind))
  }

  /** "All" keeps the whole list. */
  lemma AllKeepsEverything(cs: seq<Contribution>)
    ensures FilterContributions(cs, AllKinds) == cs
  {
    FilterAll(cs, OfKind(AllKinds));
  }

  /** The calendars and the rituals split the list: no contribution is in both, each is in one, and
      together they hold as many entries as the list. */
  lemma {:induction false} KindsPartition(cs: seq<Contribution>)
    ensures forall c :: c in cs <==> c in FilterContributions(cs, Calendars) || c in FilterContributions(cs, Rituals)
    ensures forall c :: !(c in FilterContributions(cs, Calendars) && c in FilterContributions(cs, Rituals))
    ensures |FilterContributions(cs, Calendars)| + |FilterContributions(cs, Rituals)| == |cs|
  {
    if cs != [] {
      KindsPartition(cs[1..]);
    }
  }

  /** The row icon marks exactly the contributions the calendars filter keeps. */
  function RowIcon(c: Contribution): (icon: string)
    ensures icon == "calendar_month" <==> FilterContributions([c], Calendars) == [c]
    ensures icon == "description" <==> FilterContributions([c], Rituals) == [c]
  {
    if Contains(c.title, "Calendar") then "calendar_month" else "description"
  }

  /** The badge text of a status; a missing status or any status but the three known ones is
      "Unknown". */
  function StatusText(status: Option<string>): (text: string)
    ensures status == Some("verified") <==> text == "Verified"
    ensures status == Some("pending") <==> text == "Pending Review"
    ensures status == Some("rejected") <==> text == "Rejected"
    ensures text == "Unknown" <==> status !in {Some("verified"), Some("pending"), Some("rejected")}
  {
    match status
    case Some("verified") => "Verified"
    case Some("pending") => "Pending Review"
    case Some("rejected") => "Rejected"
    case _ => "Unknown"
  }

  const NeutralBadge := "bg-neutral-light text-neutral-darker"

  /** The badge classes of a status; anything unrecognised gets the neutral classes. */
  function StatusColor(status: Option<string>): (cls: string)
    ensures status == Some("verified") <==> cls == "bg-success/10 text-success"
    ensures status == Some("pending") <==> cls == "bg-info/10 text-info"
    ensures status == Some("rejected") <==> cls == "bg-destructive/10 text-destructive"
    ensures cls == NeutralBadge <==> status !in {Some("verified"), Some("pending"), Some("rejected")}
  {
    match status
    case Some("verified") => "bg-success/10 text-success"
    case Some("pending") => "bg-info/10 text-info"
    case Some("rejected") => "bg-destructive/10 text-destructive"
    case _ => NeutralBadge
  }

  /** The badge text and its colour agree: the neutral colour goes with "Unknown" and only with it. */
  lemma BadgeAgrees(status: Option<string>)
    ensures StatusText(status) == "Unknown" <==> StatusColor(status) == NeutralBadge
  {
  }

  /** Every contribution created through the server's route shows as pending review. */
  lemma NewContributionsShowPending(userId: int, body: Routes.ContributionBody, id: int, now: Timestamp)
    ensures StatusText(NewContribution(Routes.ContributionInsert(userId, body), id, now).status) == "Pending Review"
  {
  }

  const SharePrefix := "Check out my contribution to Spiritual Connect: "

  /** The text copied to the clipboard: a fixed sentence ending in the title. */
  function ShareText(title: string): (text: string)
    ensures |text| == |SharePrefix| + |title|
    ensures text[..|SharePrefix|] == SharePrefix && text[|SharePrefix|..] == title
  {
    SharePrefix + title
  }
}
