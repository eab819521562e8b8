/**
 * The slots on the wire: how they are sent (serialization/reservation.py), what the client makes of
 * them, and that a chosen slot comes back as the instant it stood for.
 */
module SlotWire {
  import opened Basics
  import opened Calendar
  import opened Strings
  import opened DateTexts
  import opened Availability
  import FormTypes
  import ReservationWorkflow

  datatype WireSlot = WireSlot(
    startsAtLocal: string, utcOffsetMinutes: int, startsAt: string, endsAtLocal: string, endsAt: string, available: bool)

  ghost function LocalText(at: int, zone: Zone): string
    requires HasWall(zone, at) && -1440 < zone(at) < 1440
  {
    PrintStart(WallOf(at + 60 * zone(at)), zone(at))
  }

  predicate Sendable(slot: AvailabilitySlot, zone: Zone) {
    HasWall(zone, slot.startsAt) && HasWall(zone, slot.endsAt)
  }

  ghost function WireOf(slot: AvailabilitySlot, zone: Zone): WireSlot
    requires Sendable(slot, zone) && -840 <= zone(slot.startsAt) <= 840 && -840 <= zone(slot.endsAt) <= 840
  {
    WireSlot(LocalText(slot.startsAt, zone), zone(slot.startsAt), InstantText(slot.startsAt),
             LocalText(slot.endsAt, zone), InstantText(slot.endsAt), slot.available)
  }

  ghost predicate SentAs(slot: AvailabilitySlot, zone: Zone, wire: WireSlot)
    requires ZoneOk(zone)
  {
    Sendable(slot, zone) && wire == WireOf(slot, zone)
  }

  ghost predicate Sent(slots: seq<AvailabilitySlot>, zone: Zone, wire: seq<WireSlot>)
    requires ZoneOk(zone)
  {
    |wire| == |slots| && forall i | 0 <= i < |slots| :: SentAs(slots[i], zone, wire[i])
  }

  method Local(at: int, zone: Zone) returns (text: string)
    requires HasWall(zone, at) && -1440 < zone(at) < 1440
    ensures text == LocalText(at, zone)
  {
    var offset := zone(at);
    var wall := ToWall(at + 60 * offset);
    assert wall == WallOf(at + 60 * zone(at));
    text := PrintStart(wall, offset);
  }

  method InstantToText(at: Instant) returns (text: string)
    ensures text == InstantText(at)
  {
    var wall := ToWall(at);
    text := PrintWall(wall) + "Z";
  }

  method ToWire(slot: AvailabilitySlot, zone: Zone) returns (wire: WireSlot)
    requires ZoneOk(zone) && Sendable(slot, zone)
    ensures SentAs(slot, zone, wire)
  {
    var startLocal := Local(slot.startsAt, zone);
    var start := InstantToText(slot.startsAt);
    var endLocal := Local(slot.endsAt, zone);
    var end := InstantToText(slot.endsAt);
    wire := WireSlot(startLocal, zone(slot.startsAt), start, endLocal, end, slot.available);
  }

  // `None` is an exception: some wall time is outside the calendar.
  method Serialize(slots: seq<AvailabilitySlot>, zone: Zone) returns (wire: Option<seq<WireSlot>>)
    requires ZoneOk(zone)
    ensures wire.Some? <==> forall i | 0 <= i < |slots| :: Sendable(slots[i], zone)
    ensures wire.Some? ==> Sent(slots, zone, wire.value)
  {
    var sent: seq<WireSlot> := [];
    for i := 0 to |slots|
      invariant Sent(slots[..i], zone, sent)
    {
      if !Sendable(slots[i], zone) {
        return None;
      }
      var next := ToWire(slots[i], zone);
      SentMore(slots, zone, sent, i, next);
      sent := sent + [next];
    }
    assert slots[..|slots|] == slots;
    return Some(sent);
  }

  lemma SentMore(slots: seq<AvailabilitySlot>, zone: Zone, sent: seq<WireSlot>, i: nat, next: WireSlot)
    requires ZoneOk(zone) && i < |slots| && Sent(slots[..i], zone, sent) && SentAs(slots[i], zone, next)
    ensures Sent(slots[..i + 1], zone, sent + [next])
  {
    forall j | 0 <= j <= i ensures SentAs(slots[..i + 1][j], zone, (sent + [next])[j]) {
      if j < i {
        assert slots[..i + 1][j] == slots[..i][j] && (sent + [next])[j] == sent[j];
      }
    }
  }

  // ----- what a chosen slot comes back as -----

  lemma LocalRoundTrip(at: int, zone: Zone, reading: Reading)
    requires HasWall(zone, at) && -840 <= zone(at) <= 840
    ensures ParseStart(LocalText(at, zone), reading) == Parsed(WallOf(at + 60 * zone(at)), zone(at))
  {
    StartRoundTrip(WallOf(at + 60 * zone(at)), zone(at), reading);
  }

  // The texts of a sent slot are valid input again. The start is the wall time the database gave, and
  // wall time and offset name the very instants of the slot, whatever the zone does around them.
  lemma SlotRoundTrip(slot: AvailabilitySlot, date: Date, zone: Zone, reading: Reading)
    requires ZoneOk(zone) && Honest(slot, date, zone) && Sendable(slot, zone)
    ensures var w := WireOf(slot, zone);
      && ParseStart(w.startsAtLocal, reading) == Parsed(slot.localStart, w.utcOffsetMinutes)
      && -840 <= w.utcOffsetMinutes <= 840
      && Seconds(slot.localStart) - 60 * w.utcOffsetMinutes == slot.startsAt
      && exists end: WallTime, offset ::
          ParseStart(w.endsAtLocal, reading) == Parsed(end, offset) && Seconds(end) - 60 * offset == slot.endsAt
  {
    LocalRoundTrip(slot.startsAt, zone, reading);
    LocalRoundTrip(slot.endsAt, zone, reading);
    OneWallTime(slot.localStart, WallOf(slot.startsAt + 60 * zone(slot.startsAt)));
  }

  // Different instants never share a local text, even in an hour that the clocks repeat.
  lemma LocalTextsDiffer(m: int, n: int, zone: Zone, reading: Reading)
    requires ZoneOk(zone) && HasWall(zone, m) && HasWall(zone, n) && m != n
    ensures LocalText(m, zone) != LocalText(n, zone)
  {
    LocalRoundTrip(m, zone, reading);
    LocalRoundTrip(n, zone, reading);
  }

  // Sent slots have pairwise different local starts, and their UTC texts ascend as strings.
  lemma SentSlotsDiffer(slots: seq<AvailabilitySlot>, zone: Zone, wire: seq<WireSlot>, i: nat, j: nat)
    requires ZoneOk(zone) && Sent(slots, zone, wire) && Ascending(slots) && i < j < |wire|
    ensures wire[i].startsAtLocal != wire[j].startsAtLocal && Less(wire[i].startsAt, wire[j].startsAt)
  {
    LocalTextsDiffer(slots[i].startsAt, slots[j].startsAt, zone, Reading(false, false));
    InstantsCompareAsTexts(slots[i].startsAt, slots[j].startsAt);
  }

  // What the client keeps of a sent slot.
  function Received(wire: seq<WireSlot>): (slots: seq<FormTypes.Slot>)
    ensures |slots| == |wire|
  {
    if wire == [] then []
    else [FormTypes.Slot(wire[0].startsAtLocal, wire[0].utcOffsetMinutes, wire[0].available)] + Received(wire[1..])
  }

  lemma {:induction false} ReceivedAt(wire: seq<WireSlot>, i: nat)
    requires i < |wire|
    ensures Received(wire)[i] == FormTypes.Slot(wire[i].startsAtLocal, wire[i].utcOffsetMinutes, wire[i].available)
  {
    if i > 0 { ReceivedAt(wire[1..], i - 1); }
  }

  // The client finds a slot by its local text: the slot that the user chose, and no other.
  lemma {:induction false} ChoiceIsUnique(slots: seq<AvailabilitySlot>, zone: Zone, wire: seq<WireSlot>, i: nat)
    requires ZoneOk(zone) && Sent(slots, zone, wire) && Ascending(slots) && i < |wire|
    ensures ReservationWorkflow.FindSlot(Received(wire), wire[i].startsAtLocal) ==
            if wire[i].available then Some(Received(wire)[i]) else None
  {
    forall k | 0 <= k < |wire| && k != i ensures wire[k].startsAtLocal != wire[i].startsAtLocal {
      if k < i { SentSlotsDiffer(slots, zone, wire, k, i); } else { SentSlotsDiffer(slots, zone, wire, i, k); }
    }
    FoundByText(wire, i);
  }

  lemma FoundByText(wire: seq<WireSlot>, i: nat)
    requires i < |wire| && forall k | 0 <= k < |wire| && k != i :: wire[k].startsAtLocal != wire[i].startsAtLocal
    ensures ReservationWorkflow.FindSlot(Received(wire), wire[i].startsAtLocal) ==
            if wire[i].available then Some(Received(wire)[i]) else None
  {
    ReservationWorkflow.FoundSlot(Received(wire), wire[i].startsAtLocal);
    forall k | 0 <= k < |wire|
      ensures Received(wire)[k] == FormTypes.Slot(wire[k].startsAtLocal, wire[k].utcOffsetMinutes, wire[k].available)
    {
      ReceivedAt(wire, k);
    }
  }

  // A schedule of this server for a date, as accepted from the database and as sent.
  ghost predicate Offered(slots: seq<AvailabilitySlot>, date: Date, zone: Zone, wire: seq<WireSlot>) {
    && ZoneOk(zone) && Sent(slots, zone, wire) && Ascending(slots)
    && forall i | 0 <= i < |slots| :: Honest(slots[i], date, zone)
  }

  // Read by the server, what the client chose is this available slot, its date and its instant.
  ghost predicate Names(chosen: FormTypes.Slot, slot: AvailabilitySlot, date: Date, reading: Reading) {
    && slot.available && DateOf(slot.localStart) == date
    && ParseStart(chosen.startsAtLocal, reading) == Parsed(slot.localStart, chosen.utcOffsetMinutes)
    && Seconds(slot.localStart) - 60 * chosen.utcOffsetMinutes == slot.startsAt
  }

  // Whatever slot the client sends back is one that the server offered as available.
  lemma ChosenSlotIsOffered(slots: seq<AvailabilitySlot>, date: Date, zone: Zone, wire: seq<WireSlot>, start: string, reading: Reading)
    requires Offered(slots, date, zone, wire) && ReservationWorkflow.FindSlot(Received(wire), start).Some?
    ensures exists i | 0 <= i < |slots| ::
      Names(ReservationWorkflow.FindSlot(Received(wire), start).value, slots[i], date, reading)
  {
    var chosen := ReservationWorkflow.FindSlot(Received(wire), start).value;
    ReservationWorkflow.FoundSlot(Received(wire), start);
    var i :| 0 <= i < |wire| && Received(wire)[i] == chosen;
    ReceivedAt(wire, i);
    SlotRoundTrip(slots[i], date, zone, reading);
    assert Names(chosen, slots[i], date, reading);
  }
}
