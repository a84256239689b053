/** One party's negotiation session: the shared session record of the
    application shell, the page index, the party's availability grid, the
    signalling channels the party has opened and the envelopes it has sent.

    Each user action and each inbound message is one atomic step. Every step is
    given twice: as a pure function from the old `SessionState` to the new one
    and the step's outcome (what the properties below are proved about), and as
    a method of the `Session` class that updates the fields in place the way the
    handler does, proved to agree with that function. */
module SessionModel {
  import opened Wrappers
  import opened Text
  import opened Protocol
  import opened Navigation
  import opened Grid
  import opened Codes

  /** An account as the session uses it: its address. */
  datatype Account = Account(address: string)

  /** What the intersection engine reports: the best slot (`None` when the engine's
      answer carries none), its score, and whether any slot suits both parties. */
  datatype MeetingResult = MeetingResult(bestSlot: Option<Num>, bestScore: int, valid: bool)

  /** The `onMessage` callback a channel was given: the host's, which reads messages
      from the joiner's peer id, or the joiner's, which reads messages from `hostId`. */
  datatype Listener = HostListener | JoinerListener(hostId: string)

  /** An opened signalling channel: the peer id it announced and its callback. */
  datatype Channel = Channel(peerId: string, listener: Listener)

  datatype SessionError =
    | MissingAccount
    | CodeRejected(reason: CodeError)
    | GenerationFailed
    | SubmissionFailed
    | MissingData
    | ComputationFailed

  /** What a handler reports to the user: success, or the error it shows. */
  datatype Outcome = Done | Failed(error: SessionError)

  const Host: int := 0
  const Joiner: int := 1

  datatype SessionState = SessionState(
    account: Option<Account>,
    meetingId: Option<string>,
    partyBit: Option<int>,
    otherPartyAddress: Option<string>,
    myCalendarRecord: Option<string>,
    myCalendarSlots: Option<seq<int>>,
    otherCalendarSlots: Option<seq<int>>,
    myCommitment: Option<string>,
    otherCommitment: Option<string>,
    myReady: bool,
    otherReady: bool,
    signalingChannel: Option<Channel>,
    result: Option<MeetingResult>,
    salt: Option<string>,
    page: int,
    calendar: Levels,
    channels: seq<Channel>,
    outbox: seq<Envelope>)

  /** A text field that is set and, as JavaScript reads it, truthy (not empty). */
  predicate Present(o: Option<string>) {
    o.Some? && o.value != ""
  }

  /** What every reachable state satisfies: the page is on the strip, the grid is a
      well-formed day of levels, a role is host or joiner and comes with a non-empty
      session code, and the current channel is one of the opened ones. */
  ghost predicate ValidState(s: SessionState) {
    IsPage(s.page) &&
    Shaped(s.calendar) && InRange(s.calendar) &&
    (s.partyBit.None? || s.partyBit == Some(Host) || s.partyBit == Some(Joiner)) &&
    (s.partyBit.Some? ==> Present(s.meetingId)) &&
    (s.signalingChannel.Some? ==> s.signalingChannel.value in s.channels)
  }

  /** The state the application starts in. */
  function InitialState(): SessionState {
    SessionState(None, None, None, None, None, None, None, None, None, false, false,
                 None, None, None, 0, InitialCalendar(), [], [])
  }

  /** The application starts valid, on the first page, with no account, no session code,
      no role, no counterparty, no calendar record or slots, no result, neither party
      ready, no channel opened and nothing sent. */
  lemma InitialStateValid()
    ensures var s := InitialState();
      ValidState(s) && s.page == 0 && !s.myReady && !s.otherReady &&
      s.account.None? && s.meetingId.None? && s.partyBit.None? && s.otherPartyAddress.None? &&
      s.myCalendarRecord.None? && s.myCalendarSlots.None? && s.otherCalendarSlots.None? &&
      s.myCommitment.None? && s.otherCommitment.None? && s.salt.None? &&
      s.signalingChannel.None? && s.result.None? &&
      s.calendar == InitialCalendar() && s.channels == [] && s.outbox == []
  {
  }

  /** Whether the shell's forward control is disabled for the session record. */
  function ForwardDisabledFrom(s: SessionState): bool {
    ForwardDisabled(s.page, s.account, s.meetingId)
  }

  // ---------------------------------------------------------------------------
  // Create or join (the create/join page)

  /** Creating a session as host. The account is checked first; `field` is the random
      field value, `None` when generating it failed. */
  function CreateEventStep(s: SessionState, field: Option<string>): (SessionState, Outcome) {
    if s.account.None? then (s, Failed(MissingAccount))
    else if field.None? then (s, Failed(GenerationFailed))
    else
      var code := MeetingCode(s.account.value.address, field.value);
      var ch := Channel(code, HostListener);
      (s.(meetingId := Some(code), partyBit := Some(Host),
          channels := s.channels + [ch], signalingChannel := Some(ch),
          page := NextPage(s.page)),
       Done)
  }

  /** Joining a session, given the outcome of the checks on the pasted code
      (`CheckJoinCode`), which only matters once an account is connected. */
  function JoinEventStep(s: SessionState, check: CodeCheck): (SessionState, Outcome) {
    if s.account.None? then (s, Failed(MissingAccount))
    else
      if check.Rejected? then (s, Failed(CodeRejected(check.error)))
      else
        (s.(meetingId := Some(check.code), partyBit := Some(Joiner),
            otherPartyAddress := Some(check.hostAddress), page := NextPage(s.page)),
         Done)
  }

  // ---------------------------------------------------------------------------
  // Calendar submission (the calendar page)

  /** Submitting the grid. `calendarId` is the random calendar id (`None` when generating
      it failed); `createCalendar` stands for the proving engine's record creation and
      gives the record, or `None` when it fails. A joiner then opens its channel under
      `<code>-other` and sends its slots and address to the host. */
  function SubmitStep(s: SessionState, calendarId: Option<string>,
                      createCalendar: (Account, seq<int>, string) -> Option<string>): (SessionState, Outcome)
    requires s.partyBit == Some(Joiner) ==> s.meetingId.Some?
  {
    if s.account.None? then (s, Failed(MissingAccount))
    else
      var slots := Flatten(s.calendar);
      if calendarId.None? then (s, Failed(SubmissionFailed))
      else
        var record := createCalendar(s.account.value, slots, calendarId.value);
        if record.None? then (s, Failed(SubmissionFailed))
        else
          var stored := s.(myCalendarRecord := record, myCalendarSlots := Some(slots), myReady := true);
          var sent :=
            if s.partyBit == Some(Joiner) then
              var code := s.meetingId.value;
              var ch := Channel(OtherPeer(code), JoinerListener(code));
              stored.(channels := s.channels + [ch],
                      outbox := s.outbox + [SendTo(ch.peerId, code, CalendarOffer(slots, s.account.value.address))],
                      signalingChannel := Some(ch))
            else stored;
          (sent.(page := NextPage(s.page)), Done)
  }

  // ---------------------------------------------------------------------------
  // Host computation (the results page)

  /** `canCompute`: the host may compute once it has submitted its own calendar and
      received the joiner's slots. */
  predicate CanCompute(s: SessionState) {
    s.partyBit == Some(Host) && s.myReady && s.otherReady &&
    Present(s.myCalendarRecord) && s.otherCalendarSlots.Some?
  }

  /** The data `computeIntersection` refuses to start without. */
  predicate ComputeBlocked(s: SessionState) {
    s.account.None? || !Present(s.myCalendarRecord) || s.otherCalendarSlots.None? || !Present(s.meetingId)
  }

  /** `s` with `message` sent to the joiner's peer id on the current channel, if there is one. */
  function SentToJoiner(s: SessionState, message: Payload): SessionState
    requires s.meetingId.Some?
  {
    if s.signalingChannel.Some? then
      s.(outbox := s.outbox + [SendTo(s.signalingChannel.value.peerId, OtherPeer(s.meetingId.value), message)])
    else s
  }

  /** The host's computation. `fin` goes out before the engine is called; `engine` stands
      for the proving engine's intersection and gives its result, or `None` when it fails.
      The result is stored before it is announced: announcing a result without a slot
      throws (`best_slot.toString()`), so the result stays stored, nothing more is sent
      and the page stays. Without a current channel nothing is announced and nothing throws. */
  function ComputeStep(s: SessionState,
                       engine: (Account, string, seq<int>, string) -> Option<MeetingResult>): (SessionState, Outcome)
  {
    if ComputeBlocked(s) then (s, Failed(MissingData))
    else
      var announced := SentToJoiner(s, Fin());
      var r := engine(s.account.value, s.myCalendarRecord.value, s.otherCalendarSlots.value,
                      EngineField(s.meetingId.value));
      if r.None? then (announced, Failed(ComputationFailed))
      else
        var resolved := announced.(result := r);
        if resolved.signalingChannel.Some? && r.value.bestSlot.None? then (resolved, Failed(ComputationFailed))
        else
          var told := if r.value.bestSlot.Some? then SentToJoiner(resolved, ResultAnnounce(r.value.bestSlot.value)) else resolved;
          (told.(page := NextPage(s.page)), Done)
  }

  // ---------------------------------------------------------------------------
  // Inbound messages

  /** The host's callback on its channel `peerId`: only messages from `<peerId>-other` count;
      slots latch the joiner's calendar and mark it ready, a non-empty address records it. */
  function HostReceive(s: SessionState, peerId: string, e: Envelope): SessionState {
    if e.from != OtherPeer(peerId) then s
    else
      var m := e.message;
      var withSlots := if m.calendarSlots.Some? then s.(otherCalendarSlots := m.calendarSlots, otherReady := true) else s;
      if Present(m.address) then withSlots.(otherPartyAddress := m.address) else withSlots
  }

  /** The joiner's callback: only messages from the host's id count; a result is read as
      the best slot with placeholder score 1, a `fin` marker only moves the page on. */
  function JoinerReceive(s: SessionState, hostId: string, e: Envelope): SessionState {
    if e.from != hostId then s
    else
      var m := e.message;
      var withResult :=
        if m.result.Some? then s.(result := Some(MeetingResult(Some(ParseInt(m.result.value)), 1, true))) else s;
      if m.fin == Some(true) then withResult.(page := NextPage(s.page)) else withResult
  }

  /** Envelope `e` handed to the callback of channel `ch`. */
  function Dispatch(s: SessionState, ch: Channel, e: Envelope): SessionState {
    match ch.listener
    case HostListener => HostReceive(s, ch.peerId, e)
    case JoinerListener(hostId) => JoinerReceive(s, hostId, e)
  }

  /** Envelope `e` handed by the relay to the callback of channel `k`. */
  function ReceiveStep(s: SessionState, k: nat, e: Envelope): SessionState
    requires k < |s.channels|
  {
    Dispatch(s, s.channels[k], e)
  }

  // ---------------------------------------------------------------------------
  // Every step keeps the state valid

  lemma CreateEventValid(s: SessionState, field: Option<string>)
    requires ValidState(s)
    ensures ValidState(CreateEventStep(s, field).0)
  {
  }

  lemma JoinEventValid(s: SessionState, joinCode: string, isValidAddress: string -> bool)
    requires ValidState(s)
    ensures ValidState(JoinEventStep(s, CheckJoinCode(joinCode, isValidAddress)).0)
  {
  }

  lemma SubmitValid(s: SessionState, calendarId: Option<string>,
                    createCalendar: (Account, seq<int>, string) -> Option<string>)
    requires ValidState(s)
    ensures ValidState(SubmitStep(s, calendarId, createCalendar).0)
  {
  }

  lemma ComputeValid(s: SessionState, engine: (Account, string, seq<int>, string) -> Option<MeetingResult>)
    requires ValidState(s)
    ensures ValidState(ComputeStep(s, engine).0)
  {
  }

  lemma ReceiveValid(s: SessionState, k: nat, e: Envelope)
    requires ValidState(s) && k < |s.channels|
    ensures ValidState(ReceiveStep(s, k, e))
  {
  }

  // ---------------------------------------------------------------------------
  // Properties of the create/join steps

  /** Without an account, creating a session changes nothing and opens no channel. */
  lemma CreateEventNeedsAccount(s: SessionState, field: Option<string>)
    requires s.account.None?
    ensures CreateEventStep(s, field) == (s, Failed(MissingAccount))
  {
  }

  /** A created session is named `<address>:<field>`, this party is host, and the one new
      channel listens under exactly that code; nothing else in the record changes. */
  lemma CreateEventEstablishes(s: SessionState, field: string)
    requires s.account.Some?
    ensures var (t, o) := CreateEventStep(s, Some(field));
      var code := MeetingCode(s.account.value.address, field);
      o == Done && t.meetingId == Some(code) && t.partyBit == Some(Host) &&
      t.channels == s.channels + [Channel(code, HostListener)] &&
      t.signalingChannel == Some(Channel(code, HostListener)) &&
      t.page == NextPage(s.page) &&
      t == s.(meetingId := t.meetingId, partyBit := t.partyBit, channels := t.channels,
              signalingChannel := t.signalingChannel, page := t.page)
  {
  }

  /** A refused join leaves the session exactly as it was; the reason is the first check
      that failed. */
  lemma JoinEventRefusal(s: SessionState, joinCode: string, isValidAddress: string -> bool)
    requires s.account.Some?
    requires CheckJoinCode(joinCode, isValidAddress).Rejected?
    ensures JoinEventStep(s, CheckJoinCode(joinCode, isValidAddress)) ==
      (s, Failed(CodeRejected(CheckJoinCode(joinCode, isValidAddress).error)))
  {
  }

  /** A blank code, a code with other than one colon, or one with a bad address part:
      each is refused and leaves code, role and counterparty untouched. */
  lemma JoinEventRejectsMalformed(s: SessionState, joinCode: string, isValidAddress: string -> bool)
    requires s.account.Some?
    requires (forall i :: 0 <= i < |joinCode| ==> IsJsSpace(joinCode[i])) ||
             Occurrences(Trim(joinCode), ':') != 1 ||
             (Occurrences(Trim(joinCode), ':') == 1 && !isValidAddress(Split(Trim(joinCode), ':')[0]))
    ensures JoinEventStep(s, CheckJoinCode(joinCode, isValidAddress)).1.Failed?
    ensures JoinEventStep(s, CheckJoinCode(joinCode, isValidAddress)).0 == s
  {
    if forall i :: 0 <= i < |joinCode| ==> IsJsSpace(joinCode[i]) {
      BlankCodeRejected(joinCode, isValidAddress);
    }
  }

  /** A joined session takes the trimmed code as its name, this party as joiner and the
      address before the colon as the counterparty; nothing else changes but the page. */
  lemma JoinEventEstablishes(s: SessionState, joinCode: string, isValidAddress: string -> bool,
                             address: string, field: string)
    requires s.account.Some?
    requires ':' !in address && ':' !in field && isValidAddress(address)
    requires Trim(joinCode) == MeetingCode(address, field)
    ensures JoinEventStep(s, CheckJoinCode(joinCode, isValidAddress)) ==
      (s.(meetingId := Some(Trim(joinCode)), partyBit := Some(Joiner),
          otherPartyAddress := Some(address), page := NextPage(s.page)), Done)
  {
    WellFormedAccepted(joinCode, isValidAddress, address, field);
  }

  // ---------------------------------------------------------------------------
  // Properties of calendar submission

  /** Without an account, submitting changes nothing and sends nothing. */
  lemma SubmitNeedsAccount(s: SessionState, calendarId: Option<string>,
                           createCalendar: (Account, seq<int>, string) -> Option<string>)
    requires s.partyBit == Some(Joiner) ==> s.meetingId.Some?
    requires s.account.None?
    ensures SubmitStep(s, calendarId, createCalendar) == (s, Failed(MissingAccount))
  {
  }

  /** Record, slots and readiness are set together or not at all: a failed creation
      leaves the whole session as it was. */
  lemma SubmitAllOrNothing(s: SessionState, calendarId: Option<string>,
                           createCalendar: (Account, seq<int>, string) -> Option<string>)
    requires ValidState(s)
    ensures var (t, o) := SubmitStep(s, calendarId, createCalendar);
      (o == Done <==> s.account.Some? && calendarId.Some? &&
                      createCalendar(s.account.value, Flatten(s.calendar), calendarId.value).Some?) &&
      (o.Failed? ==> t == s) &&
      (o == Done ==> t.myReady && t.myCalendarSlots == Some(Flatten(s.calendar)) &&
                     t.myCalendarRecord == createCalendar(s.account.value, Flatten(s.calendar), calendarId.value))
  {
  }

  /** A successful submission stores exactly the record that `createCalendar` returned,
      the flattened grid and readiness, and moves the page on. A host changes nothing
      else; a joiner in addition opens `<code>-other`, makes it current and sends its
      offer to `<code>`. */
  lemma SubmitStoresRecord(s: SessionState, calendarId: Option<string>,
                           createCalendar: (Account, seq<int>, string) -> Option<string>)
    requires ValidState(s)
    requires SubmitStep(s, calendarId, createCalendar).1 == Done
    ensures var t := SubmitStep(s, calendarId, createCalendar).0;
      var slots := Flatten(s.calendar);
      var stored := s.(myCalendarRecord := createCalendar(s.account.value, slots, calendarId.value),
                       myCalendarSlots := Some(slots), myReady := true, page := NextPage(s.page));
      if s.partyBit == Some(Joiner) then
        var code := s.meetingId.value;
        var ch := Channel(OtherPeer(code), JoinerListener(code));
        t == stored.(channels := s.channels + [ch], signalingChannel := Some(ch),
                     outbox := s.outbox + [Envelope(OtherPeer(code), Peer(code), CalendarOffer(slots, s.account.value.address))])
      else
        t == stored
  {
  }

  /** The submitted slots are the grid laid out row by row: 8 levels, each in `[0, 5)`. */
  lemma SubmittedSlotsAreGrid(s: SessionState, calendarId: Option<string>,
                              createCalendar: (Account, seq<int>, string) -> Option<string>)
    requires ValidState(s)
    requires SubmitStep(s, calendarId, createCalendar).1 == Done
    ensures var slots := SubmitStep(s, calendarId, createCalendar).0.myCalendarSlots.value;
      |slots| == Days * Hours &&
      (forall d, h :: IsCell(d, h) ==> slots[d * Hours + h] == s.calendar[d][h]) &&
      (forall i :: 0 <= i < |slots| ==> 0 <= slots[i] < MaxLevel)
  {
    SubmittedSlots(s.calendar);
  }

  /** A successful submission by a joiner appends exactly one envelope: its slots and
      address, from `<code>-other` to `<code>`. A host, or a failed submission, sends
      nothing. Envelopes already sent stay as they were. */
  lemma SubmitSends(s: SessionState, calendarId: Option<string>,
                    createCalendar: (Account, seq<int>, string) -> Option<string>)
    requires ValidState(s)
    ensures var (t, o) := SubmitStep(s, calendarId, createCalendar);
      if o == Done && s.partyBit == Some(Joiner) then
        t.outbox == s.outbox + [Envelope(OtherPeer(s.meetingId.value), Peer(s.meetingId.value),
                                         CalendarOffer(Flatten(s.calendar), s.account.value.address))]
      else
        t.outbox == s.outbox
  {
  }

  // ---------------------------------------------------------------------------
  // Properties of the host computation

  /** Whenever the compute control is enabled (and an account is connected), the
      computation gets past its missing-data check. */
  lemma CanComputeNotBlocked(s: SessionState)
    requires ValidState(s) && CanCompute(s) && s.account.Some?
    ensures !ComputeBlocked(s)
  {
  }

  /** With data missing the computation changes nothing and sends nothing. */
  lemma ComputeNeedsData(s: SessionState, engine: (Account, string, seq<int>, string) -> Option<MeetingResult>)
    requires ComputeBlocked(s)
    ensures ComputeStep(s, engine) == (s, Failed(MissingData))
  {
  }

  /** Once started, the computation has sent `fin` to the joiner before the engine's
      outcome matters: on success the outbox gains `fin` then the result slot as text,
      on failure it gains `fin` alone. An engine failure leaves the stored result
      untouched; an answer without a slot is stored but not announced, and the page stays. */
  lemma ComputeOrder(s: SessionState, engine: (Account, string, seq<int>, string) -> Option<MeetingResult>)
    requires !ComputeBlocked(s) && s.signalingChannel.Some?
    ensures var (t, o) := ComputeStep(s, engine);
      var from := s.signalingChannel.value.peerId;
      var to := OtherPeer(s.meetingId.value);
      var r := engine(s.account.value, s.myCalendarRecord.value, s.otherCalendarSlots.value,
                      EngineField(s.meetingId.value));
      |t.outbox| > |s.outbox| && t.outbox[|s.outbox|] == Envelope(from, Peer(to), Fin()) &&
      (r.Some? && r.value.bestSlot.Some? ==>
         o == Done &&
         t == s.(result := r, page := NextPage(s.page),
                 outbox := s.outbox + [Envelope(from, Peer(to), Fin()),
                                       Envelope(from, Peer(to), ResultAnnounce(r.value.bestSlot.value))])) &&
      (r.Some? && r.value.bestSlot.None? ==>
         o == Failed(ComputationFailed) &&
         t == s.(outbox := s.outbox + [Envelope(from, Peer(to), Fin())], result := r)) &&
      (r.None? ==> o == Failed(ComputationFailed) &&
                   t == s.(outbox := s.outbox + [Envelope(from, Peer(to), Fin())]))
  {
  }

  /** For a host that built its code from `address` and `field`, the engine is asked about
      `field`, or about `0field` when the field is empty. */
  lemma ComputeUsesField(s: SessionState, engine: (Account, string, seq<int>, string) -> Option<MeetingResult>,
                         address: string, field: string)
    requires !ComputeBlocked(s) && s.meetingId == Some(MeetingCode(address, field))
    requires ':' !in address && ':' !in field
    ensures var f := if field == [] then "0field" else field;
      ComputeStep(s, engine).0.result ==
        (match engine(s.account.value, s.myCalendarRecord.value, s.otherCalendarSlots.value, f)
         case Some(r) => Some(r)
         case None => s.result)
  {
    EngineFieldOfCode(address, field);
  }

  // ---------------------------------------------------------------------------
  // Properties of the inbound handlers

  /** The host's callback ignores every message not from the joiner's peer id. */
  lemma HostIgnoresStrangers(s: SessionState, peerId: string, e: Envelope)
    requires e.from != OtherPeer(peerId)
    ensures HostReceive(s, peerId, e) == s
  {
  }

  /** From the joiner, slots latch `otherCalendarSlots` and `otherReady`, a non-empty
      address sets the counterparty; no other field changes. */
  lemma HostLatchesOffer(s: SessionState, peerId: string, e: Envelope)
    requires e.from == OtherPeer(peerId)
    ensures var t := HostReceive(s, peerId, e);
      t == s.(otherCalendarSlots := t.otherCalendarSlots, otherReady := t.otherReady,
              otherPartyAddress := t.otherPartyAddress) &&
      (e.message.calendarSlots.Some? ==> t.otherCalendarSlots == e.message.calendarSlots && t.otherReady) &&
      (e.message.calendarSlots.None? ==> t.otherCalendarSlots == s.otherCalendarSlots && t.otherReady == s.otherReady) &&
      t.otherPartyAddress == (if Present(e.message.address) then e.message.address else s.otherPartyAddress)
  {
  }

  /** The joiner's callback ignores every message not from the host. */
  lemma JoinerIgnoresStrangers(s: SessionState, hostId: string, e: Envelope)
    requires e.from != hostId
    ensures JoinerReceive(s, hostId, e) == s
  {
  }

  /** A result message from the host resolves the joiner with the announced slot and
      placeholder score 1; for every slot the host announces, the joiner reads back the
      very same slot. */
  lemma JoinerReadsResult(s: SessionState, hostId: string, from: string, bestSlot: Num)
    requires from == hostId
    ensures JoinerReceive(s, hostId, Envelope(from, Peer(OtherPeer(hostId)), ResultAnnounce(bestSlot))) ==
      s.(result := Some(MeetingResult(Some(bestSlot), 1, true)))
  {
    ParseIntNumberText(bestSlot);
  }

  /** `fin` only moves the joiner's page on: it never sets a result. */
  lemma FinOnlyAdvances(s: SessionState, hostId: string, e: Envelope)
    requires e.from == hostId && e.message.result.None?
    ensures JoinerReceive(s, hostId, e) ==
      if e.message.fin == Some(true) then s.(page := NextPage(s.page)) else s
  {
  }

  // ---------------------------------------------------------------------------
  // The session record as the application holds it: one object whose fields the
  // handlers update in place.

  class Session {
    var account: Option<Account>
    var meetingId: Option<string>
    var partyBit: Option<int>
    var otherPartyAddress: Option<string>
    var myCalendarRecord: Option<string>
    var myCalendarSlots: Option<seq<int>>
    var otherCalendarSlots: Option<seq<int>>
    var myCommitment: Option<string>
    var otherCommitment: Option<string>
    var myReady: bool
    var otherReady: bool
    var signalingChannel: Option<Channel>
    var result: Option<MeetingResult>
    var salt: Option<string>
    var page: int
    /** The availability grid the calendar page edits. */
    var calendar: Levels
    /** Every channel opened so far; the source never disconnects one. */
    var channels: seq<Channel>
    /** Every envelope handed to the relay, oldest first. */
    var outbox: seq<Envelope>

    function State(): SessionState
      reads this
    {
      SessionState(account, meetingId, partyBit, otherPartyAddress, myCalendarRecord,
                   myCalendarSlots, otherCalendarSlots, myCommitment, otherCommitment,
                   myReady, otherReady, signalingChannel, result, salt, page, calendar,
                   channels, outbox)
    }

    ghost predicate Valid()
      reads this
    {
      ValidState(State())
    }

    constructor ()
      ensures State() == InitialState() && Valid()
    {
      account, meetingId, partyBit, otherPartyAddress := None, None, None, None;
      myCalendarRecord, myCalendarSlots, otherCalendarSlots := None, None, None;
      myCommitment, otherCommitment, salt := None, None, None;
      myReady, otherReady := false, false;
      signalingChannel, result := None, None;
      page := 0;
      calendar := InitialCalendar();
      channels, outbox := [], [];
    }

    /** The wallet page connecting an account; connecting the same account twice
        changes nothing the second time. */
    method SetAccount(a: Account)
      requires Valid()
      modifies this
      ensures Valid()
      ensures State() == old(State()).(account := Some(a))
      ensures old(account) == Some(a) ==> State() == old(State())
    {
      account := Some(a);
    }

    /** `nextPage`, as the pages and the handlers call it. */
    method GoForward()
      requires Valid()
      modifies this
      ensures Valid()
      ensures State() == old(State()).(page := NextPage(old(page)))
    {
      if page != NumPages - 1 {
        page := page + 1;
      }
    }

    /** A press on the forward control: a disabled control does nothing, an enabled one
        applies `nextPage`, which then moves exactly one page on. */
    method PressForward()
      requires Valid()
      modifies this
      ensures Valid()
      ensures ForwardDisabledFrom(old(State())) ==> State() == old(State())
      ensures !ForwardDisabledFrom(old(State())) ==> State() == old(State()).(page := old(page) + 1)
    {
      if !ForwardDisabled(page, account, meetingId) {
        EnabledControlsMove(page, account, meetingId);
        GoForward();
      }
    }

    /** The back control. */
    method GoBack()
      requires Valid()
      modifies this
      ensures Valid()
      ensures State() == old(State()).(page := PrevPage(old(page)))
    {
      if page != 0 {
        page := page - 1;
      }
    }

    /** `createEvent`. */
    method CreateEvent(field: Option<string>) returns (outcome: Outcome)
      requires Valid()
      modifies this
      ensures Valid()
      ensures State() == CreateEventStep(old(State()), field).0
      ensures outcome == CreateEventStep(old(State()), field).1
    {
      if account.None? {
        return Failed(MissingAccount);
      }
      if field.None? {
        return Failed(GenerationFailed);
      }
      var code := MeetingCode(account.value.address, field.value);
      TakeRole(code, Host);
      OpenChannel(Channel(code, HostListener));
      page := NextPage(page);
      outcome := Done;
    }

    /** Both handlers that establish a session record its code and this party's role. */
    method TakeRole(code: string, role: int)
      requires Valid() && code != [] && (role == Host || role == Joiner)
      modifies this
      ensures Valid()
      ensures State() == old(State()).(meetingId := Some(code), partyBit := Some(role))
    {
      meetingId := Some(code);
      partyBit := Some(role);
    }

    /** A new signalling channel, connected with its callback and made the current one. */
    method OpenChannel(ch: Channel)
      requires Valid()
      modifies this
      ensures Valid()
      ensures State() == old(State()).(channels := old(channels) + [ch], signalingChannel := Some(ch))
    {
      channels := channels + [ch];
      signalingChannel := Some(ch);
    }

    /** `joinEvent`. */
    method JoinEvent(joinCode: string, isValidAddress: string -> bool) returns (outcome: Outcome)
      requires Valid()
      modifies this
      ensures Valid()
      ensures State() == JoinEventStep(old(State()), CheckJoinCode(joinCode, isValidAddress)).0
      ensures outcome == JoinEventStep(old(State()), CheckJoinCode(joinCode, isValidAddress)).1
    {
      var check := CheckJoinCode(joinCode, isValidAddress);
      outcome := AdoptCode(check);
    }

    /** The part of `joinEvent` after the code checks: with an account connected,
        an accepted code makes this party the joiner of that session. */
    method AdoptCode(check: CodeCheck) returns (outcome: Outcome)
      requires Valid() && (check.Accepted? ==> check.code != [])
      modifies this
      ensures Valid()
      ensures State() == JoinEventStep(old(State()), check).0
      ensures outcome == JoinEventStep(old(State()), check).1
    {
      if account.None? {
        return Failed(MissingAccount);
      }
      if check.Rejected? {
        return Failed(CodeRejected(check.error));
      }
      TakeRole(check.code, Joiner);
      otherPartyAddress := Some(check.hostAddress);
      page := NextPage(page);
      outcome := Done;
    }

    /** `increaseLevel` on cell `(day, hr)` of the grid. */
    method IncreaseLevel(day: int, hr: int)
      requires Valid() && IsCell(day, hr)
      modifies this
      ensures Valid()
      ensures State() == old(State()).(calendar := Bump(old(calendar), day, hr))
    {
      BumpKeepsRange(calendar, day, hr);
      calendar := Bumped(calendar, day, hr);
    }

    /** The Reset control of the calendar page. */
    method ResetCalendar()
      requires Valid()
      modifies this
      ensures Valid()
      ensures State() == old(State()).(calendar := InitialCalendar())
    {
      calendar := InitialCalendar();
    }

    /** `submitCalendar`. */
    method SubmitCalendar(calendarId: Option<string>,
                          createCalendar: (Account, seq<int>, string) -> Option<string>)
      returns (outcome: Outcome)
      requires Valid()
      modifies this
      ensures Valid()
      ensures State() == SubmitStep(old(State()), calendarId, createCalendar).0
      ensures outcome == SubmitStep(old(State()), calendarId, createCalendar).1
    {
      if account.None? {
        return Failed(MissingAccount);
      }
      var slots := Flatten(calendar);
      if calendarId.None? {
        return Failed(SubmissionFailed);
      }
      var record := createCalendar(account.value, slots, calendarId.value);
      if record.None? {
        return Failed(SubmissionFailed);
      }
      StoreSubmission(record.value, slots);
      if partyBit == Some(Joiner) {
        OfferToHost(slots);
      }
      page := NextPage(page);
      outcome := Done;
    }

    /** The part of `submitCalendar` every party runs once the record exists: the record,
        the slots and the ready flag are set together. */
    method StoreSubmission(record: string, slots: seq<int>)
      requires Valid()
      modifies this
      ensures Valid()
      ensures State() == old(State()).(myCalendarRecord := Some(record), myCalendarSlots := Some(slots), myReady := true)
    {
      myCalendarRecord := Some(record);
      myCalendarSlots := Some(slots);
      myReady := true;
    }

    /** The joiner's part of `submitCalendar`: open a channel towards the host
        and send it the submitted slots with the joiner's address. */
    method OfferToHost(slots: seq<int>)
      requires Valid() && partyBit == Some(Joiner) && account.Some?
      modifies this
      ensures Valid()
      ensures var code := old(meetingId).value;
              var ch := Channel(OtherPeer(code), JoinerListener(code));
              State() == old(State()).(channels := old(channels) + [ch],
                                       outbox := old(outbox) + [SendTo(ch.peerId, code, CalendarOffer(slots, old(account).value.address))],
                                       signalingChannel := Some(ch))
    {
      var code := meetingId.value;
      var ch := Channel(OtherPeer(code), JoinerListener(code));
      OpenChannel(ch);
      outbox := outbox + [SendTo(ch.peerId, code, CalendarOffer(slots, account.value.address))];
    }

    /** `computeIntersection`. */
    method ComputeIntersection(engine: (Account, string, seq<int>, string) -> Option<MeetingResult>)
      returns (outcome: Outcome)
      requires Valid()
      modifies this
      ensures Valid()
      ensures State() == ComputeStep(old(State()), engine).0
      ensures outcome == ComputeStep(old(State()), engine).1
    {
      if account.None? || !Present(myCalendarRecord) || otherCalendarSlots.None? || !Present(meetingId) {
        return Failed(MissingData);
      }
      SendToJoiner(Fin());
      var r := engine(account.value, myCalendarRecord.value, otherCalendarSlots.value, EngineField(meetingId.value));
      if r.None? {
        return Failed(ComputationFailed);
      }
      SetResult(r.value);
      if r.value.bestSlot.Some? {
        SendToJoiner(ResultAnnounce(r.value.bestSlot.value));
      } else if signalingChannel.Some? {
        return Failed(ComputationFailed);
      }
      page := NextPage(page);
      outcome := Done;
    }

    /** `setResult`: the engine's answer becomes the session's result. */
    method SetResult(r: MeetingResult)
      requires Valid()
      modifies this
      ensures Valid()
      ensures State() == old(State()).(result := Some(r))
    {
      result := Some(r);
    }

    /** `message` sent on the current channel, if there is one, to the joiner's peer id. */
    method SendToJoiner(message: Payload)
      requires Valid() && meetingId.Some?
      modifies this
      ensures Valid()
      ensures State() == SentToJoiner(old(State()), message)
    {
      if signalingChannel.Some? {
        outbox := outbox + [SendTo(signalingChannel.value.peerId, OtherPeer(meetingId.value), message)];
      }
    }

    /** The relay handing envelope `e` to the callback of channel `k`. */
    method Receive(k: nat, e: Envelope)
      requires Valid() && k < |channels|
      modifies this
      ensures Valid()
      ensures State() == ReceiveStep(old(State()), k, e)
    {
      var ch := channels[k];
      match ch.listener
      case HostListener => HostOnMessage(ch.peerId, e);
      case JoinerListener(hostId) => JoinerOnMessage(hostId, e);
    }

    /** The callback `createEvent` installs on the host's channel `peerId`. */
    method HostOnMessage(peerId: string, e: Envelope)
      requires Valid()
      modifies this
      ensures Valid()
      ensures State() == HostReceive(old(State()), peerId, e)
    {
      if e.from == OtherPeer(peerId) {
        if e.message.calendarSlots.Some? {
          otherCalendarSlots := e.message.calendarSlots;
          otherReady := true;
        }
        if Present(e.message.address) {
          otherPartyAddress := e.message.address;
        }
      }
    }

    /** The callback `submitCalendar` installs on the joiner's channel, listening for `hostId`. */
    method JoinerOnMessage(hostId: string, e: Envelope)
      requires Valid()
      modifies this
      ensures Valid()
      ensures State() == JoinerReceive(old(State()), hostId, e)
    {
      if e.from == hostId {
        if e.message.result.Some? {
          var slot := ParseInt(e.message.result.value);
          result := Some(MeetingResult(Some(slot), 1, true));
        }
        if e.message.fin == Some(true) {
          page := NextPage(page);
        }
      }
    }
  }
}
