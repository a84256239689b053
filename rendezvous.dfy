/** Two parties, a host and a joiner, each running its own session, linked by a
    relay that hands every one-peer envelope to the callbacks of the channels
    announced under the target peer id. The host creates the session, the joiner
    pastes its code and submits its grid, which sends the calendar offer; the host
    submits its own grid and receives the offer in either order, computes, and the
    joiner reads the announced slot back. */
module Rendezvous {
  import opened Wrappers
  import opened Text
  import opened Protocol
  import opened Navigation
  import opened Grid
  import opened Codes
  import opened SessionModel

  /** The relay handing `e` to every channel in `chs` announced under `e`'s target, in order. */
  function DeliverVia(s: SessionState, chs: seq<Channel>, e: Envelope): (r: SessionState)
    decreases |chs|
    ensures r.channels == s.channels && r.partyBit == s.partyBit && r.meetingId == s.meetingId
  {
    if chs == [] then s
    else
      var t := if e.target == Peer(chs[0].peerId) then Dispatch(s, chs[0], e) else s;
      DeliverVia(t, chs[1..], e)
  }

  /** One step of the relay: the first channel's callback runs if it is the target. */
  lemma DeliverViaStep(s: SessionState, chs: seq<Channel>, e: Envelope)
    requires chs != []
    ensures DeliverVia(s, chs, e) ==
      DeliverVia(if e.target == Peer(chs[0].peerId) then Dispatch(s, chs[0], e) else s, chs[1..], e)
  {
  }

  /** The relay delivering `e` to the party whose state is `s`. */
  function Deliver(s: SessionState, e: Envelope): SessionState {
    DeliverVia(s, s.channels, e)
  }

  /** Delivering to a party that has exactly one channel runs that channel's callback
      when the target is its peer id, and nothing otherwise. */
  lemma DeliverSingle(s: SessionState, e: Envelope)
    requires |s.channels| == 1
    ensures Deliver(s, e) ==
      if e.target == Peer(s.channels[0].peerId) then Dispatch(s, s.channels[0], e) else s
  {
    var chs := s.channels;
    var t := if e.target == Peer(chs[0].peerId) then Dispatch(s, chs[0], e) else s;
    assert chs[1..] == [];
    assert DeliverVia(s, chs, e) == DeliverVia(t, chs[1..], e);
  }

  /** A party that has connected the account at `address`, filled in `grid` and reached
      the create/join page. */
  function Prepared(address: string, grid: Levels): SessionState {
    InitialState().(account := Some(Account(address)), calendar := grid, page := 2)
  }

  /** Everything outside the two sessions that the exchange depends on: the two
      accounts, the host's random field, the address check, the two grids, the
      random calendar ids, record creation, the engine, and whether the host submits
      its grid before the joiner's offer reaches it. */
  datatype Scenario = Scenario(
    hostAddress: string,
    joinAddress: string,
    field: string,
    isValidAddress: string -> bool,
    hostGrid: Levels,
    joinGrid: Levels,
    hostCalendarId: string,
    joinCalendarId: string,
    createCalendar: (Account, seq<int>, string) -> Option<string>,
    engine: (Account, string, seq<int>, string) -> Option<MeetingResult>,
    hostFirst: bool)

  /** The code the host shares. */
  function Code(sc: Scenario): string {
    MeetingCode(sc.hostAddress, sc.field)
  }

  /** The record the host's submission creates. */
  function HostRecord(sc: Scenario): Option<string> {
    sc.createCalendar(Account(sc.hostAddress), Flatten(sc.hostGrid), sc.hostCalendarId)
  }

  /** What both parties need for the rendezvous: a host code the joiner accepts, record
      creation that succeeds for both (the host's record non-empty, as
      `computeIntersection` demands one), and an engine that answers. */
  predicate Cooperative(sc: Scenario) {
    ':' !in sc.hostAddress && ':' !in sc.field &&
    NoLeadingSpace(sc.hostAddress) && NoTrailingSpace(sc.field) && sc.isValidAddress(sc.hostAddress) &&
    Present(HostRecord(sc)) &&
    sc.createCalendar(Account(sc.joinAddress), Flatten(sc.joinGrid), sc.joinCalendarId).Some? &&
    var r := sc.engine(Account(sc.hostAddress), HostRecord(sc).value, Flatten(sc.joinGrid), EngineField(Code(sc)));
    r.Some? && r.value.bestSlot.Some?
  }

  /** The host after creating the session. */
  function HostOpened(sc: Scenario): SessionState {
    CreateEventStep(Prepared(sc.hostAddress, sc.hostGrid), Some(sc.field)).0
  }

  /** The joiner after pasting the host's code. */
  function JoinerJoined(sc: Scenario): SessionState {
    JoinEventStep(Prepared(sc.joinAddress, sc.joinGrid), CheckJoinCode(Code(sc), sc.isValidAddress)).0
  }

  /** The joiner after submitting its grid. */
  function JoinerOffered(sc: Scenario): SessionState {
    SubmitStep(JoinerJoined(sc), Some(sc.joinCalendarId), sc.createCalendar).0
  }

  /** The joiner's calendar offer, as its submission sends it. */
  function Offer(sc: Scenario): Envelope {
    Envelope(OtherPeer(Code(sc)), Peer(Code(sc)), CalendarOffer(Flatten(sc.joinGrid), sc.joinAddress))
  }

  /** The host once it has submitted its grid and been handed the offer, in the order
      `hostFirst` says. */
  function HostGathered(sc: Scenario): SessionState {
    var h1 := HostOpened(sc);
    if sc.hostFirst then Deliver(SubmitStep(h1, Some(sc.hostCalendarId), sc.createCalendar).0, Offer(sc))
    else SubmitStep(Deliver(h1, Offer(sc)), Some(sc.hostCalendarId), sc.createCalendar).0
  }

  /** The host creating the session: it is host of the code and listens under it. */
  lemma HostCreates(sc: Scenario)
    ensures var (h, o) := CreateEventStep(Prepared(sc.hostAddress, sc.hostGrid), Some(sc.field));
      o == Done && h == Prepared(sc.hostAddress, sc.hostGrid).(meetingId := Some(Code(sc)), partyBit := Some(Host),
        channels := [Channel(Code(sc), HostListener)], signalingChannel := Some(Channel(Code(sc), HostListener)),
        page := 3)
  {
  }

  /** The joiner after pasting the host's code and submitting its grid: it plays the
      joiner of the host's session, knows the host's address, listens under
      `<code>-other` and has sent exactly the calendar offer, addressed to the host. */
  lemma JoinerJoinsAndOffers(sc: Scenario)
    requires Cooperative(sc)
    ensures JoinEventStep(Prepared(sc.joinAddress, sc.joinGrid), CheckJoinCode(Code(sc), sc.isValidAddress)).1 == Done
    ensures SubmitStep(JoinerJoined(sc), Some(sc.joinCalendarId), sc.createCalendar).1 == Done
    ensures var j := JoinerOffered(sc);
      j.partyBit == Some(Joiner) && j.meetingId == Some(Code(sc)) && j.otherPartyAddress == Some(sc.hostAddress) &&
      j.channels == [Channel(OtherPeer(Code(sc)), JoinerListener(Code(sc)))] &&
      j.outbox == [Offer(sc)] && j.result.None? && j.page == 4
  {
    MeetingCodeRoundTrip(sc.hostAddress, sc.field, sc.isValidAddress);
  }

  /** The host once it has both submitted its own grid and received the offer, in either
      order: the compute control is enabled, with the joiner's slots and address. */
  lemma HostGathers(sc: Scenario)
    requires Present(HostRecord(sc))
    ensures var h := HostGathered(sc);
      CanCompute(h) && h.otherCalendarSlots == Some(Flatten(sc.joinGrid)) &&
      h.otherPartyAddress == (if sc.joinAddress != "" then Some(sc.joinAddress) else None) &&
      h.myCalendarRecord == HostRecord(sc) && h.account == Some(Account(sc.hostAddress)) &&
      h.meetingId == Some(Code(sc)) && h.signalingChannel == Some(Channel(Code(sc), HostListener)) &&
      h.outbox == [] && h.page == 4
  {
    HostCreates(sc);
    var h1 := HostOpened(sc);
    if sc.hostFirst {
      DeliverSingle(SubmitStep(h1, Some(sc.hostCalendarId), sc.createCalendar).0, Offer(sc));
    } else {
      DeliverSingle(h1, Offer(sc));
    }
  }

  /** A joiner listening for the host of session `code` that is handed `fin` and then
      the announced slot moves on one page and holds that slot with score 1. */
  lemma JoinerResolves(j: SessionState, code: string, bestSlot: Num)
    requires j.channels == [Channel(OtherPeer(code), JoinerListener(code))]
    ensures var fin := Envelope(code, Peer(OtherPeer(code)), Fin());
      var announce := Envelope(code, Peer(OtherPeer(code)), ResultAnnounce(bestSlot));
      Deliver(Deliver(j, fin), announce) ==
        j.(page := NextPage(j.page), result := Some(MeetingResult(Some(bestSlot), 1, true)))
  {
    var fin := Envelope(code, Peer(OtherPeer(code)), Fin());
    var announce := Envelope(code, Peer(OtherPeer(code)), ResultAnnounce(bestSlot));
    DeliverSingle(j, fin);
    var j1 := Deliver(j, fin);
    assert j1 == j.(page := NextPage(j.page));
    DeliverSingle(j1, announce);
    JoinerReadsResult(j1, code, code, bestSlot);
  }

  /** What the engine answers the host. */
  function EngineResult(sc: Scenario): Option<MeetingResult>
    requires HostRecord(sc).Some?
  {
    sc.engine(Account(sc.hostAddress), HostRecord(sc).value, Flatten(sc.joinGrid), EngineField(Code(sc)))
  }

  /** The host's `fin` marker and its announcement of `bestSlot`, both addressed to the joiner. */
  function FinEnvelope(sc: Scenario): Envelope {
    Envelope(Code(sc), Peer(OtherPeer(Code(sc))), Fin())
  }

  function AnnounceEnvelope(sc: Scenario, bestSlot: Num): Envelope {
    Envelope(Code(sc), Peer(OtherPeer(Code(sc))), ResultAnnounce(bestSlot))
  }

  /** The host's computation once it has gathered both calendars: the engine's result is
      stored, `fin` and then the best slot go out to the joiner's peer id, and the host
      moves on to the last page. */
  lemma HostComputes(sc: Scenario)
    requires Cooperative(sc) && sc.joinAddress != ""
    ensures var (h, o) := ComputeStep(HostGathered(sc), sc.engine);
      var res := EngineResult(sc).value;
      o == Done && h.result == Some(res) &&
      h.outbox == [FinEnvelope(sc), AnnounceEnvelope(sc, res.bestSlot.value)] &&
      h.otherPartyAddress == Some(sc.joinAddress) && h.meetingId == Some(Code(sc)) && h.page == NumPages - 1
  {
    HostGathers(sc);
    ComputeOrder(HostGathered(sc), sc.engine);
  }

  /** The whole exchange. Both parties end in the same session on the last page, each
      knowing the other's address; the host holds the engine's result and has sent `fin`
      then the best slot, both to the joiner's peer id; once the relay hands those two
      envelopes to the joiner, the joiner holds the very same best slot (with
      placeholder score 1). */
  lemma Rendezvous(sc: Scenario)
    requires Cooperative(sc) && sc.joinAddress != ""
    ensures JoinerOffered(sc).outbox == [Offer(sc)]
    ensures CanCompute(HostGathered(sc))
    ensures var (h, o) := ComputeStep(HostGathered(sc), sc.engine);
      var res := EngineResult(sc).value;
      o == Done && h.result == Some(res) &&
      h.outbox == [FinEnvelope(sc), AnnounceEnvelope(sc, res.bestSlot.value)] &&
      h.otherPartyAddress == Some(sc.joinAddress) && h.meetingId == Some(Code(sc)) && h.page == NumPages - 1
    ensures var j := Deliver(Deliver(JoinerOffered(sc), FinEnvelope(sc)), AnnounceEnvelope(sc, EngineResult(sc).value.bestSlot.value));
      j.result == Some(MeetingResult(EngineResult(sc).value.bestSlot, 1, true)) &&
      j.otherPartyAddress == Some(sc.hostAddress) && j.meetingId == Some(Code(sc)) && j.page == NumPages - 1
  {
    JoinerJoinsAndOffers(sc);
    HostGathers(sc);
    HostComputes(sc);
    JoinerResolves(JoinerOffered(sc), Code(sc), EngineResult(sc).value.bestSlot.value);
  }

  // ---------------------------------------------------------------------------
  // The same exchange run on two session objects

  /** The relay handing `e` to every channel `party` has opened under `e`'s target. */
  method Relay(party: Session, e: Envelope)
    requires party.Valid()
    modifies party
    ensures party.Valid()
    ensures party.State() == Deliver(old(party.State()), e)
  {
    ghost var s0 := party.State();
    var chs := party.channels;
    var k := 0;
    while k < |chs|
      invariant 0 <= k <= |chs| && party.Valid() && party.channels == chs
      invariant DeliverVia(party.State(), chs[k..], e) == Deliver(s0, e)
    {
      ghost var before := party.State();
      DeliverViaStep(before, chs[k..], e);
      assert chs[k..][1..] == chs[k + 1..];
      if e.target == Peer(chs[k].peerId) {
        party.Receive(k, e);
      }
      assert party.State() == if e.target == Peer(chs[k].peerId) then Dispatch(before, chs[k], e) else before;
      k := k + 1;
    }
    assert chs[k..] == [];
  }

  /** A new session whose user connects the account at `address`, clicks the cells in
      `clicks` and moves on to the create/join page. */
  method Prepare(address: string, clicks: seq<(int, int)>) returns (p: Session)
    requires AllCells(clicks)
    ensures fresh(p) && p.Valid()
    ensures p.State() == Prepared(address, Clicked(InitialCalendar(), clicks))
  {
    p := new Session();
    p.SetAccount(Account(address));
    for i := 0 to |clicks|
      invariant p.Valid()
      invariant p.State() == InitialState().(account := Some(Account(address)),
                                              calendar := Clicked(InitialCalendar(), clicks[..i]))
    {
      assert clicks[..i + 1][..i] == clicks[..i];
      p.IncreaseLevel(clicks[i].0, clicks[i].1);
    }
    assert clicks[..|clicks|] == clicks;
    p.PressForward();
    p.PressForward();
  }

  /** The joiner's side up to its offer: a new session that joins the host's session
      and submits its grid. */
  method JoinerSide(sc: Scenario, joinClicks: seq<(int, int)>) returns (joiner: Session)
    requires Cooperative(sc)
    requires AllCells(joinClicks) && sc.joinGrid == Clicked(InitialCalendar(), joinClicks)
    ensures fresh(joiner) && joiner.Valid() && joiner.State() == JoinerOffered(sc)
  {
    joiner := Prepare(sc.joinAddress, joinClicks);
    var outcome := joiner.JoinEvent(Code(sc), sc.isValidAddress);
    outcome := joiner.SubmitCalendar(Some(sc.joinCalendarId), sc.createCalendar);
  }

  /** The host's side up to the compute control: a new session that creates the
      session, then submits its grid and is handed `offer`, in the order `hostFirst` says. */
  method HostSide(sc: Scenario, hostClicks: seq<(int, int)>, offer: Envelope) returns (host: Session)
    requires AllCells(hostClicks) && sc.hostGrid == Clicked(InitialCalendar(), hostClicks)
    requires offer == Offer(sc)
    ensures fresh(host) && host.Valid() && host.State() == HostGathered(sc)
  {
    host := Prepare(sc.hostAddress, hostClicks);
    var outcome := host.CreateEvent(Some(sc.field));
    if sc.hostFirst {
      outcome := host.SubmitCalendar(Some(sc.hostCalendarId), sc.createCalendar);
      Relay(host, offer);
    } else {
      Relay(host, offer);
      outcome := host.SubmitCalendar(Some(sc.hostCalendarId), sc.createCalendar);
    }
  }

  /** The end of the exchange: the host computes and the relay hands the joiner the
      two envelopes the computation sent, in order. */
  method Conclude(sc: Scenario, host: Session, joiner: Session)
    requires Cooperative(sc) && sc.joinAddress != "" && host != joiner
    requires host.Valid() && host.State() == HostGathered(sc)
    requires joiner.Valid() && joiner.State() == JoinerOffered(sc)
    modifies host, joiner
    ensures host.Valid() && host.State() == ComputeStep(HostGathered(sc), sc.engine).0
    ensures joiner.Valid() && joiner.State() ==
      Deliver(Deliver(JoinerOffered(sc), FinEnvelope(sc)), AnnounceEnvelope(sc, EngineResult(sc).value.bestSlot.value))
    ensures host.result == EngineResult(sc)
    ensures joiner.result == Some(MeetingResult(EngineResult(sc).value.bestSlot, 1, true))
    ensures host.meetingId == joiner.meetingId == Some(Code(sc))
    ensures host.otherPartyAddress == Some(sc.joinAddress) && joiner.otherPartyAddress == Some(sc.hostAddress)
    ensures host.page == joiner.page == NumPages - 1
  {
    Rendezvous(sc);
    var outcome := host.ComputeIntersection(sc.engine);
    Relay(joiner, host.outbox[0]);
    Relay(joiner, host.outbox[1]);
  }

  /** Two parties, each with its own session object, negotiate a meeting: they end on
      the last page in the same session, each knowing the other's address, the host
      holding the engine's result and the joiner the same best slot. */
  method Negotiate(sc: Scenario, hostClicks: seq<(int, int)>, joinClicks: seq<(int, int)>)
    returns (host: Session, joiner: Session)
    requires Cooperative(sc) && sc.joinAddress != ""
    requires AllCells(hostClicks) && sc.hostGrid == Clicked(InitialCalendar(), hostClicks)
    requires AllCells(joinClicks) && sc.joinGrid == Clicked(InitialCalendar(), joinClicks)
    ensures EngineResult(sc).Some?
    ensures host.result == EngineResult(sc)
    ensures joiner.result == Some(MeetingResult(EngineResult(sc).value.bestSlot, 1, true))
    ensures host.meetingId == joiner.meetingId == Some(Code(sc))
    ensures host.otherPartyAddress == Some(sc.joinAddress) && joiner.otherPartyAddress == Some(sc.hostAddress)
    ensures host.page == joiner.page == NumPages - 1
  {
    JoinerJoinsAndOffers(sc);
    joiner := JoinerSide(sc, joinClicks);
    host := HostSide(sc, hostClicks, joiner.outbox[0]);
    Conclude(sc, host, joiner);
  }
}
