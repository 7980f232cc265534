/** The kitchen display (src/pages/KDS.tsx): a list of tickets that the
    cooks bump or put on hold, a once-a-second refresh of each ticket's age,
    and per-station views that hide bumped tickets. Times are milliseconds. */
module Kds {
  import opened Types
  import opened Seqs
  import opened MockData

  const MillisPerMinute := 60000

  /** `Math.floor((now - createdAt) / 60000)`: whole minutes since creation,
      rounded down also when the clock reads earlier than the creation time. */
  function ElapsedMinutes(now: int, createdAt: int): (m: int)
    ensures m * MillisPerMinute <= now - createdAt < (m + 1) * MillisPerMinute
  {
    (now - createdAt) / MillisPerMinute
  }

  /** A later reading of the clock never shows a younger ticket. */
  lemma ElapsedMonotonic(now: int, later: int, createdAt: int)
    requires now <= later
    ensures ElapsedMinutes(now, createdAt) <= ElapsedMinutes(later, createdAt)
  {
  }

  // Ticket transitions

  /** `handleBump`: the ticket with the id becomes bumped, stamped with `now`. */
  function BumpTicket(tickets: seq<KDSTicket>, ticketId: string, now: int): (r: seq<KDSTicket>)
    ensures |r| == |tickets|
    ensures forall k :: 0 <= k < |r| && tickets[k].id == ticketId ==>
      r[k] == tickets[k].(status := Bumped, bumpedAt := Some(now))
    ensures forall k :: 0 <= k < |r| && tickets[k].id != ticketId ==> r[k] == tickets[k]
  {
    seq(|tickets|, k requires 0 <= k < |tickets| =>
      if tickets[k].id == ticketId then tickets[k].(status := Bumped, bumpedAt := Some(now)) else tickets[k])
  }

  /** The hold button: a held ticket resumes as preparing, any other is held. */
  function HoldToggle(s: TicketStatus): (t: TicketStatus)
    ensures t != TicketPending
    ensures t == Hold <==> s != Hold
    ensures s == Hold ==> t == TicketPreparing
  {
    if s == Hold then TicketPreparing else Hold
  }

  /** Pressing hold twice leaves a ticket preparing; a pending ticket never returns to pending. */
  lemma HoldTwice(s: TicketStatus)
    requires s != Hold
    ensures HoldToggle(HoldToggle(s)) == TicketPreparing
  {
  }

  /** `handleHold`: the ticket with the id has its status toggled and nothing else. */
  function Held(tickets: seq<KDSTicket>, ticketId: string): (r: seq<KDSTicket>)
    ensures |r| == |tickets|
    ensures forall k :: 0 <= k < |r| && tickets[k].id == ticketId ==>
      r[k] == tickets[k].(status := HoldToggle(tickets[k].status))
    ensures forall k :: 0 <= k < |r| && tickets[k].id != ticketId ==> r[k] == tickets[k]
  {
    seq(|tickets|, k requires 0 <= k < |tickets| =>
      if tickets[k].id == ticketId then tickets[k].(status := HoldToggle(tickets[k].status)) else tickets[k])
  }

  /** The timer tick: every ticket's age is recomputed from `now`, nothing else changes. */
  function Refreshed(tickets: seq<KDSTicket>, now: int): (r: seq<KDSTicket>)
    ensures |r| == |tickets|
    ensures forall k :: 0 <= k < |r| ==>
      r[k] == tickets[k].(elapsedMinutes := ElapsedMinutes(now, tickets[k].createdAt))
  {
    seq(|tickets|, k requires 0 <= k < |tickets| =>
      tickets[k].(elapsedMinutes := ElapsedMinutes(now, tickets[k].createdAt)))
  }

  // Station views

  /** A ticket is listed under a station when it belongs there and is not bumped. */
  predicate ShownAt(t: KDSTicket, station: KitchenStation)
  {
    t.station == station && t.status != Bumped
  }

  function ShownAtTest(station: KitchenStation): KDSTicket -> bool
  {
    (t: KDSTicket) => ShownAt(t, station)
  }

  /** `filteredTickets`: the station's unbumped tickets, in list order. */
  function Visible(tickets: seq<KDSTicket>, station: KitchenStation): (r: seq<KDSTicket>)
    ensures |r| <= |tickets|
    ensures forall t :: t in r <==> t in tickets && t.station == station && t.status != Bumped
  {
    Filter(tickets, ShownAtTest(station))
  }

  /** The number in the station tab's badge, counted ticket by ticket; the
      badge is drawn only when it is not zero, that is when some ticket of the
      station is not bumped. */
  function StationCount(tickets: seq<KDSTicket>, station: KitchenStation): (n: nat)
    ensures n <= |tickets|
    ensures n == 0 <==> forall k :: 0 <= k < |tickets| ==> !ShownAt(tickets[k], station)
  {
    if tickets == [] then 0
    else
      var rest := StationCount(tickets[1..], station);
      assert forall k :: 1 <= k < |tickets| ==> tickets[k] == tickets[1..][k - 1];
      (if ShownAt(tickets[0], station) then 1 else 0) + rest
  }

  /** The badge counts exactly the tickets the station's view lists. */
  lemma {:induction false} BadgeMatchesView(tickets: seq<KDSTicket>, station: KitchenStation)
    ensures StationCount(tickets, station) == |Visible(tickets, station)|
  {
    if tickets != [] {
      BadgeMatchesView(tickets[1..], station);
      VisibleCons(tickets, station);
    }
  }

  function OtherTicket(ticketId: string): KDSTicket -> bool
  {
    (t: KDSTicket) => t.id != ticketId
  }

  /** After a bump, every station lists what it listed before except the bumped ticket. */
  lemma {:induction false} BumpHidesTicket(tickets: seq<KDSTicket>, ticketId: string, now: int, station: KitchenStation)
    ensures Visible(BumpTicket(tickets, ticketId, now), station) == Filter(Visible(tickets, station), OtherTicket(ticketId))
  {
    if tickets != [] {
      var b := BumpTicket(tickets, ticketId, now);
      assert b[1..] == BumpTicket(tickets[1..], ticketId, now);
      BumpHidesTicket(tickets[1..], ticketId, now, station);
      var p := ShownAtTest(station);
      if p(tickets[0]) {
        assert Visible(tickets, station) == [tickets[0]] + Visible(tickets[1..], station);
        FilterConcat([tickets[0]], Visible(tickets[1..], station), OtherTicket(ticketId));
        FilterSingleton(tickets[0], OtherTicket(ticketId));
      } else {
        assert Visible(tickets, station) == Visible(tickets[1..], station);
      }
    }
  }

  /** A bump can only shorten a station's list. */
  lemma BumpNeverAddsTickets(tickets: seq<KDSTicket>, ticketId: string, now: int, station: KitchenStation)
    ensures StationCount(BumpTicket(tickets, ticketId, now), station) <= StationCount(tickets, station)
  {
    BumpHidesTicket(tickets, ticketId, now, station);
    BadgeMatchesView(tickets, station);
    BadgeMatchesView(BumpTicket(tickets, ticketId, now), station);
  }

  /** Refreshing the ages does not change which tickets a station lists. */
  lemma {:induction false} RefreshKeepsViews(tickets: seq<KDSTicket>, now: int, station: KitchenStation)
    ensures Visible(Refreshed(tickets, now), station) == Refreshed(Visible(tickets, station), now)
  {
    if tickets != [] {
      var r := Refreshed(tickets, now);
      RefreshedTail(tickets, now);
      RefreshKeepsViews(tickets[1..], now, station);
      VisibleCons(tickets, station);
      VisibleCons(r, station);
      RefreshedCons(tickets[0], Visible(tickets[1..], station), now);
    }
  }

  /** The tail of a refreshed list is the refreshed tail. */
  lemma RefreshedTail(tickets: seq<KDSTicket>, now: int)
    requires tickets != []
    ensures Refreshed(tickets, now)[1..] == Refreshed(tickets[1..], now)
  {
  }

  /** A station's view of a non-empty list: its head if shown, then the view of the rest. */
  lemma VisibleCons(tickets: seq<KDSTicket>, station: KitchenStation)
    requires tickets != []
    ensures Visible(tickets, station) ==
      (if ShownAt(tickets[0], station) then [tickets[0]] else []) + Visible(tickets[1..], station)
  {
    assert tickets[0..] == tickets;
    FilterFrom(tickets, 0, ShownAtTest(station));
  }

  /** Refreshing a list refreshes its head and then its tail. */
  lemma RefreshedCons(t: KDSTicket, v: seq<KDSTicket>, now: int)
    ensures Refreshed([t] + v, now) == [t.(elapsedMinutes := ElapsedMinutes(now, t.createdAt))] + Refreshed(v, now)
  {
  }

  /** The Bump button is disabled for a held ticket, but only on screen:
      `handleBump` itself bumps a held ticket like any other. */
  predicate BumpEnabled(t: KDSTicket)
    ensures BumpEnabled(t) <==> HoldToggle(t.status) == Hold
  {
    t.status != Hold
  }

  lemma BumpIgnoresHold(tickets: seq<KDSTicket>, k: nat, now: int)
    requires k < |tickets| && tickets[k].status == Hold
    ensures !BumpEnabled(tickets[k])
    ensures BumpTicket(tickets, tickets[k].id, now)[k].status == Bumped
  {
  }

  // Age colours

  datatype Urgency = Fresh | Waiting | Late

  /** Under 5 minutes is fresh, under 10 waiting, from 10 on late. */
  function UrgencyOf(minutes: int): (u: Urgency)
    ensures u == Fresh <==> minutes < 5
    ensures u == Waiting <==> 5 <= minutes < 10
    ensures u == Late <==> minutes >= 10
  {
    if minutes < 5 then Fresh else if minutes < 10 then Waiting else Late
  }

  function Rank(u: Urgency): nat
  {
    match u
    case Fresh => 0
    case Waiting => 1
    case Late => 2
  }

  /** An older ticket is never shown as less urgent. */
  lemma UrgencyMonotonic(m: int, n: int)
    requires m <= n
    ensures Rank(UrgencyOf(m)) <= Rank(UrgencyOf(n))
  {
  }

  /** `getTimeColor`: the classes of the age badge. */
  function TimeColor(minutes: int): (c: string)
    ensures minutes < 5 ==> c == "text-green-600 bg-green-100"
    ensures 5 <= minutes < 10 ==> c == "text-amber-600 bg-amber-100"
    ensures minutes >= 10 ==> c == "text-red-600 bg-red-100"
  {
    if minutes < 5 then "text-green-600 bg-green-100"
    else if minutes < 10 then "text-amber-600 bg-amber-100"
    else "text-red-600 bg-red-100"
  }

  /** `getTicketBorderColor`: the classes of the ticket's border. */
  function BorderColor(minutes: int): (c: string)
    ensures minutes < 5 ==> c == "border-green-300"
    ensures 5 <= minutes < 10 ==> c == "border-amber-300"
    ensures minutes >= 10 ==> c == "border-red-300 border-2"
  {
    if minutes < 5 then "border-green-300"
    else if minutes < 10 then "border-amber-300"
    else "border-red-300 border-2"
  }

  /** Badge and border change colour at the same ages: each is determined by the urgency. */
  lemma ColoursFollowUrgency(m: int, n: int)
    ensures TimeColor(m) == TimeColor(n) <==> UrgencyOf(m) == UrgencyOf(n)
    ensures BorderColor(m) == BorderColor(n) <==> UrgencyOf(m) == UrgencyOf(n)
  {
  }

  /** The demo tickets, refreshed at the moment they are described, are eight and
      three minutes old, both still fresh or waiting. */
  lemma MockTicketAges(now: int)
    ensures Refreshed(MockKDSTickets(now), now)[0].elapsedMinutes == 8
    ensures Refreshed(MockKDSTickets(now), now)[1].elapsedMinutes == 3
    ensures UrgencyOf(8) == Waiting && UrgencyOf(3) == Fresh
  {
    assert ElapsedMinutes(now, now - 8 * 60 * 1000) == 8;
    assert ElapsedMinutes(now, now - 3 * 60 * 1000) == 3;
  }

  /** The screen: the chosen station tab and the ticket list. */
  class KdsBoard {
    var selectedStation: KitchenStation
    var tickets: seq<KDSTicket>

    constructor (initial: seq<KDSTicket>)
      ensures selectedStation == HOT && tickets == initial
    {
      selectedStation := HOT;
      tickets := initial;
    }

    method SelectStation(station: KitchenStation)
      modifies this
      ensures selectedStation == station && tickets == old(tickets)
    {
      selectedStation := station;
    }

    method HandleBump(ticketId: string, now: int)
      modifies this
      ensures tickets == BumpTicket(old(tickets), ticketId, now) && selectedStation == old(selectedStation)
    {
      tickets := BumpTicket(tickets, ticketId, now);
    }

    method HandleHold(ticketId: string)
      modifies this
      ensures tickets == Held(old(tickets), ticketId) && selectedStation == old(selectedStation)
    {
      tickets := Held(tickets, ticketId);
    }

    /** One tick of the once-a-second timer, with the clock reading `now`. */
    method Tick(now: int)
      modifies this
      ensures tickets == Refreshed(old(tickets), now) && selectedStation == old(selectedStation)
    {
      var i := 0;
      var updated := tickets;
      while i < |updated|
        invariant 0 <= i <= |updated| == |tickets|
        invariant forall k :: 0 <= k < i ==>
          updated[k] == tickets[k].(elapsedMinutes := ElapsedMinutes(now, tickets[k].createdAt))
        invariant forall k :: i <= k < |updated| ==> updated[k] == tickets[k]
      {
        updated := updated[i := updated[i].(elapsedMinutes := (now - updated[i].createdAt) / MillisPerMinute)];
        i := i + 1;
      }
      tickets := updated;
    }
  }
}
