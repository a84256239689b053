# aleocal negotiation core, modelled in Dafny

aleocal lets two parties agree on a meeting time without showing each other their
whole availability. Each party marks a one-day grid of eight one-hour cells with a
preference level from 0 (unavailable) to 4. The host creates a session and shares a
code of the form `<host address>:<random field>`. The joiner pastes that code, and
both parties submit their grids. The joiner's submission opens a signalling channel
under `<code>-other` and sends its slots and address to the host. Once the host has
its own record and the joiner's slots, it sends a `fin` marker, hands both calendars
to the proving engine, and announces the winning slot as text. The joiner reads that
slot back.

The model follows the application's own structure:

- `wrappers.dfy` (`Wrappers`) is the `Option` type.
- `text.dfy` (`Text`) covers the JavaScript built-ins the handlers depend on:
  - `trim`;
  - `split` on one character;
  - `toString` of an integer-valued number;
  - `parseInt` with no radix, including NaN.
- `protocol.dfy` (`Protocol`) holds the envelope a channel emits and the four payload
  fields the handlers read. These are the calendar slots, the address, the result and `fin`.
- `navigation.dfy` (`Navigation`) is the page strip of the shell:
  - the six pages;
  - `nextPage` and the back control;
  - the per-page `canProceed` gate and the disabled state of both controls.
- `grid.dfy` (`Grid`) holds the availability grid:
  - its constants and initial value;
  - `increaseLevel`, a method with the source's copy loops, proved against the
    one-click function `Bump`;
  - `flat`.
- `codes.dfy` (`Codes`) covers the session code:
  - how the host builds it;
  - the joiner's checks on it;
  - the field the host hands the engine.
- `session.dfy` (`SessionModel`) holds the session record of the shell with its page
  and grid, the channels opened and the envelopes sent. It gives every handler twice:
  - as a pure step function from the old state to the new state and outcome, which the
    lemmas are proved about;
  - as a method of the `Session` class that updates the fields in place and is proved to
    agree with that function.
- `rendezvous.dfy` (`Rendezvous`) covers both parties together:
  - a relay that hands each envelope to the callbacks of the channels open under its
    target;
  - the whole exchange, proved on the step functions (`Rendezvous`) and run on two
    `Session` objects (`Negotiate`).

Randomness and the proving engine are parameters:

- the random field and calendar id are an `Option<string>`, where `None` means
  generating it failed;
- `createCalendar` and `computeIntersectionDirect` are functions that return `None`
  when they throw;
- `isValidAleoAddress` is a predicate.

Three points where the code may not do what a reader expects:

- Payloads are a record of four optional fields, which the handlers test one by one.
  They are not a closed union, and a malformed payload is not an error. A missing field
  is ignored. An empty `address` and a false `fin` are ignored too, because the handlers
  test them for truthiness. A present `calendar_slots` is always taken, even when empty,
  since an array is truthy. A present `result` is always parsed, even when empty: `parseInt`
  then gives NaN, and the joiner stores NaN as its best slot.
- The joiner always records `valid: true` with score 1, whatever the host's result was.
- The session holds no commitment, salt or commitment exchange. The record has those
  fields, but no handler in the core writes them.

## Model

| member | source | states |
|---|---|---|
| Text.Trim | src/components/AddParticipants.tsx:128 | `trim` removes white space at both ends: the result is no longer than the input, and it is empty or starts and ends with a character that is not white space |
| Text.TrimIsSlice | src/components/AddParticipants.tsx:128 | what `trim` keeps is a middle slice of the input with only white space before and after it; with `Trim`'s own contract (no white space at either end of the slice) this fixes the result |
| Text.TrimEmptyIffAllSpace | src/components/AddParticipants.tsx:128-137 | a trimmed code is empty exactly when the pasted code is empty or made only of white space, which is the case the first join check refuses |
| Text.TrimKeepsTrimmed | src/components/AddParticipants.tsx:142 | trimming text that has no white space at either end gives that text back unchanged |
| Text.Split | src/components/AddParticipants.tsx:142 | `split(":")` gives one more part than there are colons, no part holds a colon, and joining the parts with colons gives back the input |
| Text.SplitAround | src/components/AddParticipants.tsx:142-147 | splitting `a:b`, where neither side holds a colon, gives exactly `[a, b]` |
| Text.DecimalText | src/components/Results.tsx:102 | `toString` of a non-negative integer is a non-empty run of decimal digits |
| Text.ParseIntNumberText | src/components/Calender.tsx:181 | `parseInt` of the text that `toString` writes for the host's best slot gives back that same number, for every integer and for NaN |
| Navigation.NextPage | src/App.tsx:178-181 | `nextPage` moves one page forward and stays put only on the last page; it never leaves the strip |
| Navigation.PrevPage | src/App.tsx:252 | the back control moves one page back and stays put only on the first page; it never leaves the strip |
| Navigation.NavigateStaysOnPages | src/App.tsx:167-181 | however the forward and back controls are pressed, the page index stays within the six pages |
| Navigation.ForwardSaturates | src/App.tsx:179 | `k` forward presses from page `p` reach `p + k`, or the last page if that comes first |
| Navigation.BackSaturates | src/App.tsx:252 | `k` back presses from page `p` reach `p - k`, or the first page if that comes first |
| Navigation.CanProceedGates | src/App.tsx:230-238 | `canProceed` holds exactly when the wallet page has an account and the create/join page has a session code; every other page lets the user go on |
| Navigation.EnabledControlsMove | src/App.tsx:252-256 | forward is disabled exactly on the last page, on the wallet page without an account, and on the create/join page without a code; an enabled control always moves the page by one |
| Grid.InitialCalendar | src/components/Calender.tsx:29-33 | the starting grid (and the one Reset restores) is one day of eight cells, all at level 0 |
| Grid.JsRem | src/components/Calender.tsx:55 | JavaScript's `%` agrees with the mathematical remainder for a non-negative dividend and stays strictly between `-b` and `b` |
| Grid.Bump | src/components/Calender.tsx:55 | a click sets the clicked cell to its level plus one modulo `maxLevel`, keeps the grid's shape and leaves every other cell alone |
| Grid.Bumped | src/components/Calender.tsx:47-58 | `increaseLevel` copies every cell into a fresh zero grid and then raises the clicked cell; the result is exactly the one-click grid `Bump` |
| Grid.BumpKeepsRange | src/components/Calender.tsx:31-55 | a click keeps every level of a well-formed grid within `[0, maxLevel)` |
| Grid.BumpTimesCell | src/components/Calender.tsx:55 | `k` clicks on a cell raise it by `k` modulo `maxLevel`, keep every level in range and touch no other cell |
| Grid.BumpCycle | src/components/Calender.tsx:31-58 | five clicks on one cell give back the grid the user started from |
| Grid.FlattenRowMajor | src/components/Calender.tsx:147 | `flat` on rows of eight puts cell `(d, h)` at index `d * 8 + h` and keeps every cell |
| Grid.SubmittedSlots | src/components/Calender.tsx:29-31 | a submitted grid is eight slots in row-major order, each a level in `[0, 5)` when the grid is in range |
| Codes.CheckJoinCode | src/components/AddParticipants.tsx:128-154 | an accepted pasted code is the trimmed code, non-empty; its address part passes the address check; and the code is that address and a field joined by the only colon |
| Codes.BlankCodeRejected | src/components/AddParticipants.tsx:128-137 | an empty or white-space-only code is refused as empty before any other check |
| Codes.ColonCountRejected | src/components/AddParticipants.tsx:142-145 | a non-blank code without exactly one colon is refused as malformed |
| Codes.BadAddressRejected | src/components/AddParticipants.tsx:147-150 | a one-colon code whose address part fails validation is refused for its address |
| Codes.WellFormedAccepted | src/components/AddParticipants.tsx:142-154 | once trimmed, any valid address and field joined by a single colon is accepted, and the address becomes the host address |
| Codes.MeetingCodeRoundTrip | src/components/AddParticipants.tsx:59-154 | a code the host builds from a valid colon-free address and field is accepted by the joiner as it stands and yields the host's address |
| Codes.EngineFieldOfCode | src/components/Results.tsx:85 | for a code the host built, the engine gets the host's field, or `0field` when the field is empty |
| Codes.EngineFieldWithoutColon | src/components/Results.tsx:85 | a session code without a colon hands the engine the fallback `0field` |
| SessionModel.InitialState | src/App.tsx:184-211 | the initial session record; `InitialStateValid` states its contents |
| SessionModel.CreateEventStep | src/components/AddParticipants.tsx:43-113 | the host's `createEvent` as a step; `CreateEventNeedsAccount` and `CreateEventEstablishes` state its behaviour |
| SessionModel.JoinEventStep | src/components/AddParticipants.tsx:116-176 | the joiner's `joinEvent` as a step; `JoinEventRefusal`, `JoinEventRejectsMalformed` and `JoinEventEstablishes` state its behaviour |
| SessionModel.HostReceive | src/components/AddParticipants.tsx:73-88 | the host's `onMessage` callback; `HostIgnoresStrangers` and `HostLatchesOffer` state its behaviour |
| SessionModel.SubmitStep | src/components/Calender.tsx:133-236 | `submitCalendar` as a step; `SubmitNeedsAccount`, `SubmitAllOrNothing`, `SubmittedSlotsAreGrid` and `SubmitSends` state its behaviour |
| SessionModel.JoinerReceive | src/components/Calender.tsx:176-193 | the joiner's `onMessage` callback; `JoinerIgnoresStrangers`, `JoinerReadsResult` and `FinOnlyAdvances` state its behaviour |
| SessionModel.CanCompute | src/components/Results.tsx:131-132 | the `canCompute` gate: host role, both ready flags, a non-empty record and the other party's slots; `CanComputeNotBlocked` and `Rendezvous.HostGathers` state its use |
| SessionModel.ComputeStep | src/components/Results.tsx:61-129 | `computeIntersection` as a step; `ComputeNeedsData`, `ComputeOrder` and `ComputeUsesField` state its behaviour |
| Text.ParseInt | src/components/Calender.tsx:181 | `parseInt` with no radix; `ParseIntNumberText` states that it undoes `NumberText` |
| Text.NumberText | src/components/Results.tsx:102 | `toString` of an integer or NaN; `DecimalText` and `ParseIntNumberText` state its form and its inverse |
| Navigation.CanProceed | src/App.tsx:230-238 | the per-page `canProceed` switch; `CanProceedGates` states it as an if-and-only-if |
| Navigation.ForwardDisabled | src/App.tsx:256 | when the forward control is disabled; `EnabledControlsMove` states its meaning |
| Navigation.BackDisabled | src/App.tsx:252 | when the back control is disabled; `EnabledControlsMove` states its meaning |
| Grid.Flatten | src/components/Calender.tsx:147 | `flat` on the grid; `FlattenRowMajor` and `SubmittedSlots` state its layout |
| Codes.MeetingCode | src/components/AddParticipants.tsx:59 | the host's code `address:field`; `MeetingCodeRoundTrip` states that the joiner accepts it |
| Codes.EngineField | src/components/Results.tsx:85 | the field the engine is handed; `EngineFieldOfCode` and `EngineFieldWithoutColon` state its value |
| Rendezvous.Deliver | src/signalling/signaling.js:32-33 | the relay handing an envelope to every channel under its target; `DeliverVia` and `DeliverSingle` state its effect |
| SessionModel.ComputeBlocked | src/components/Results.tsx:62 | the missing-data guard of `computeIntersection`; `ComputeNeedsData` states that it stops the computation with nothing changed, and `CanComputeNotBlocked` that `canCompute` clears it |
| SessionModel.SentToJoiner | src/components/Results.tsx:80-82 | `sendTo(meetingId + "-other", …)` on the current channel; `ComputeOrder` states the envelopes it appends, and `Session.SendToJoiner` the update in place |
| Protocol.CalendarOffer | src/components/Calender.tsx:197-200 | the joiner's offer of its slots and address; `SubmitSends` states that it is what a joiner sends |
| Protocol.Fin | src/components/Results.tsx:81 | the `{ fin: true }` marker; `ComputeOrder` states that it goes out first and `FinOnlyAdvances` what the joiner does with it |
| Protocol.ResultAnnounce | src/components/Results.tsx:101-103 | the best slot as `toString` writes it; `ComputeOrder` states when it is sent and `JoinerReadsResult` that the joiner reads the same slot back |
| Protocol.OtherPeer | src/components/Calender.tsx:168 | the joiner's peer id `meetingId + "-other"`; `HostIgnoresStrangers`, `SubmitSends` and `ComputeOrder` state how it addresses both directions |
| SessionModel.InitialStateValid | src/App.tsx:168-211 | the shell starts valid: on page 0, with every record field null, neither party ready, the all-zero grid, no channel and nothing sent |
| SessionModel.CreateEventValid | src/components/AddParticipants.tsx:43-113 | creating a session keeps the state valid: the host role comes with a non-empty code, and the current channel is one that was opened |
| SessionModel.JoinEventValid | src/components/AddParticipants.tsx:116-176 | joining keeps the state valid |
| SessionModel.SubmitValid | src/components/Calender.tsx:133-236 | submitting a calendar keeps the state valid |
| SessionModel.ComputeValid | src/components/Results.tsx:61-129 | the host's computation keeps the state valid |
| SessionModel.ReceiveValid | src/components/AddParticipants.tsx:73-88 | every inbound message, on either party's callback, keeps the state valid |
| SessionModel.CreateEventNeedsAccount | src/components/AddParticipants.tsx:44-53 | without an account, creating a session fails and changes nothing |
| SessionModel.CreateEventEstablishes | src/components/AddParticipants.tsx:58-102 | a created session is named `<address>:<field>`, this party becomes host, one channel under that code is opened and made current, and the page moves on; nothing else changes |
| SessionModel.JoinEventRefusal | src/components/AddParticipants.tsx:128-150 | a refused code leaves the session exactly as it was and reports the first check that failed |
| SessionModel.JoinEventRejectsMalformed | src/components/AddParticipants.tsx:128-150 | a blank code, a code without exactly one colon, or one with an invalid address part fails and leaves the session untouched |
| SessionModel.JoinEventEstablishes | src/components/AddParticipants.tsx:152-165 | a well-formed code is adopted trimmed, this party becomes joiner, and the address before the colon becomes the counterparty; only the page changes besides |
| SessionModel.SubmitNeedsAccount | src/components/Calender.tsx:134-143 | without an account, submitting fails and changes and sends nothing |
| SessionModel.SubmitAllOrNothing | src/components/Calender.tsx:146-163 | a submission succeeds exactly when there is an account, a calendar id and a created record; the record `createCalendar` returned, the slots and readiness are then set together, and a failure leaves the whole session as it was |
| SessionModel.SubmitStoresRecord | src/components/Calender.tsx:154-224 | a successful submission's whole new state: the record `createCalendar` returned, the flattened grid, readiness and the next page; for a joiner also the channel under `<code>-other`, made current, and the offer sent to `<code>`; nothing else changes |
| SessionModel.SubmittedSlotsAreGrid | src/components/Calender.tsx:147-162 | the stored slots are the grid in row-major order: eight levels, each in `[0, 5)` |
| SessionModel.SubmitSends | src/components/Calender.tsx:166-203 | a joiner's successful submission appends exactly one envelope, its slots and address sent from `<code>-other` to `<code>`; a host or a failed submission sends nothing |
| SessionModel.CanComputeNotBlocked | src/components/Results.tsx:131-132 | whenever `canCompute` holds and an account is connected, the computation gets past its missing-data check |
| SessionModel.ComputeNeedsData | src/components/Results.tsx:62-71 | with the account, the record, the other slots or the code missing, the computation fails and changes and sends nothing |
| SessionModel.ComputeOrder | src/components/Results.tsx:80-128 | `fin` goes to `<code>-other` before the engine's outcome matters. With a slot in the answer, the result is stored and announced and the page moves on, and nothing else changes. With no slot, announcing throws: the result stays stored, only `fin` has gone out and the page stays. If the engine fails, only `fin` has gone out and nothing else changes |
| SessionModel.ComputeUsesField | src/components/Results.tsx:85-97 | for a host-built code, the engine is asked about the host's field (or `0field` when it is empty), and its answer becomes the result |
| SessionModel.HostIgnoresStrangers | src/components/AddParticipants.tsx:75 | the host's callback ignores every message that is not from `<code>-other` |
| SessionModel.HostLatchesOffer | src/components/AddParticipants.tsx:75-86 | from the joiner, slots latch the other calendar and readiness, and a non-empty address sets the counterparty; no other field changes |
| SessionModel.JoinerIgnoresStrangers | src/components/Calender.tsx:177 | the joiner's callback ignores every message that is not from the host's code |
| SessionModel.JoinerReadsResult | src/components/Calender.tsx:179-187 | the host's result message resolves the joiner with exactly the slot the host announced, score 1 and `valid` true |
| SessionModel.FinOnlyAdvances | src/components/Calender.tsx:188-190 | `fin` only moves the joiner's page on and never sets a result |
| SessionModel.Session.constructor | src/App.tsx:168-211 | a new session object holds the initial state |
| SessionModel.Session.SetAccount | src/App.tsx:184 | connecting an account sets it and nothing else; connecting the same account again changes nothing |
| SessionModel.Session.GoForward | src/App.tsx:178-181 | `nextPage` moves the page as the clamped updater says and changes nothing else |
| SessionModel.Session.PressForward | src/App.tsx:256 | a press on the forward control does nothing while it is disabled (last page, or `canProceed` false) and otherwise moves exactly one page on, changing nothing else |
| SessionModel.Session.GoBack | src/App.tsx:252 | the back control applies the back updater and changes nothing else |
| SessionModel.Session.CreateEvent | src/components/AddParticipants.tsx:43-113 | the handler's new state and outcome are the creation step's, and it keeps the session valid |
| SessionModel.Session.TakeRole | src/components/AddParticipants.tsx:61-62 | establishing a session records its non-empty code and this party's role, host or joiner, and changes nothing else |
| SessionModel.Session.OpenChannel | src/components/AddParticipants.tsx:67-91 | opening a channel appends it to the channels and makes it current; nothing else changes |
| SessionModel.Session.JoinEvent | src/components/AddParticipants.tsx:116-176 | the handler's new state and outcome are the join step's on the outcome of the code checks |
| SessionModel.Session.AdoptCode | src/components/AddParticipants.tsx:152-165 | after the checks, the new state and outcome are the join step's for that check |
| SessionModel.Session.IncreaseLevel | src/components/Calender.tsx:47-58 | a click replaces the grid by its one-click successor, keeps it in range and changes nothing else |
| SessionModel.Session.ResetCalendar | src/components/Calender.tsx:257 | Reset restores the all-zero grid and changes nothing else |
| SessionModel.Session.SubmitCalendar | src/components/Calender.tsx:133-236 | the handler's new state and outcome are the submission step's |
| SessionModel.Session.StoreSubmission | src/components/Calender.tsx:160-162 | once the record exists, the record, the submitted slots and the ready flag are set together, and nothing else changes |
| SessionModel.Session.OfferToHost | src/components/Calender.tsx:166-203 | the joiner opens `<code>-other`, listening for `<code>`, makes it current and sends its slots and address to `<code>`; nothing else changes |
| SessionModel.Session.ComputeIntersection | src/components/Results.tsx:61-129 | the handler's new state and outcome are the computation step's |
| SessionModel.Session.SetResult | src/components/Results.tsx:97 | `setResult` makes the engine's answer the session's result and changes nothing else |
| SessionModel.Session.SendToJoiner | src/components/Results.tsx:80-82 | with a current channel, the message is appended to the outbox, addressed to `<code>-other`; without one nothing is sent |
| SessionModel.Session.Receive | src/signalling/signaling.js:23 | a message delivered on channel `k` runs that channel's own callback |
| SessionModel.Session.HostOnMessage | src/components/AddParticipants.tsx:73-88 | the host's callback updates the state as the host's receive step does |
| SessionModel.Session.JoinerOnMessage | src/components/Calender.tsx:176-193 | the joiner's callback updates the state as the joiner's receive step does |
| Rendezvous.DeliverVia | src/signalling/signaling.js:32-33 | relaying an envelope to a party runs only callbacks; it never changes the party's channels, role or code |
| Rendezvous.DeliverSingle | src/signalling/signaling.js:32-33 | for a party with one channel, delivery runs that channel's callback exactly when the envelope targets its peer id |
| Rendezvous.HostCreates | src/components/AddParticipants.tsx:58-102 | from the create/join page, the host becomes host of `<address>:<field>`, listens under it and moves to the calendar page |
| Rendezvous.JoinerJoinsAndOffers | src/components/Calender.tsx:166-203 | the joiner accepts the host's code and becomes joiner of it, knowing the host's address; it then listens under `<code>-other` and has sent exactly the calendar offer |
| Rendezvous.HostGathers | src/components/Results.tsx:131-132 | whether the host submits before or after the offer arrives, `canCompute` holds, with the joiner's slots and address and nothing sent yet |
| Rendezvous.JoinerResolves | src/components/Calender.tsx:176-193 | handed `fin` and then the announcement, the joiner moves on one page and holds the announced slot |
| Rendezvous.HostComputes | src/components/Results.tsx:80-117 | the host stores the engine's result, sends `fin` and then the best slot to `<code>-other`, and reaches the last page |
| Rendezvous.Rendezvous | src/components/Results.tsx:61-132 | the whole exchange: both parties end on the last page in the same session, each knowing the other's address; the joiner holds the very slot the engine chose for the host |
| Rendezvous.Relay | src/signalling/signaling.js:23-33 | the relay's loop over a party's channels gives the state that delivery prescribes and keeps the party valid |
| Rendezvous.Prepare | src/App.tsx:178-184 | a new session with an account, a grid after the given clicks, on the create/join page |
| Rendezvous.JoinerSide | src/components/AddParticipants.tsx:116-176 | running `joinEvent` and then `submitCalendar` on a new session gives the state the joiner's step functions predict |
| Rendezvous.HostSide | src/components/AddParticipants.tsx:43-113 | running `createEvent`, `submitCalendar` and the offer's delivery, in either order, on a new session gives the state the host's step functions predict |
| Rendezvous.Conclude | src/components/Results.tsx:61-129 | after `computeIntersection` and the relay of its two envelopes, the host's whole state is the computation step's and the joiner's is the delivery of `fin` and then the announcement; the two agree on the code and the best slot and both reach the last page |
| Rendezvous.Negotiate | src/components/Results.tsx:61-132 | two session objects run the handlers in the application's order and end on the last page: they share the session code, know each other's address, the host holds the engine's result and the joiner the same best slot |

## Left out

- Toasts, the loading flag, scrolling, clipboard copying, console logging and all rendering are left out. They do not change the session record.
- The signalling server is not part of this model. Delivery is an explicit step that routes an envelope to the channels announced under its target peer id. It assumes no ordering, loss or uniqueness guarantees beyond the order in which the steps are applied.
- Each handler is one atomic step. The interleavings that React's asynchronous state updates and awaited calls allow inside one handler are not modelled.
- `generateRandomField`, `createCalendar`, `computeIntersectionDirect` and `isValidAleoAddress` are parameters. The proving engine, the wallet provider and the testnet client are not part of this model.
- The commitment and salt fields of the record are carried but never written, because no handler in the core writes them.
- An account is reduced to its address, the only part the handlers read besides passing it to the engine.
- Payload fields hold only the types the handlers send: slots, text and a boolean. Other JavaScript values a peer might put in a field are not modelled.
- The relay's broadcast target `all` (`send`) is represented in `Target` but never used, because no handler in the core broadcasts.
- The socket's `ready` announcement and its connection errors, as well as `disconnect`, are left out. A channel is live as soon as it is opened.
- Text.ParseIntNumberText: covers integer-valued numbers and NaN only. The engine's slot is an integer, and the JavaScript rendering of fractions and exponents is not modelled.
- SessionModel.JoinerReadsResult: the joiner records `valid: true` with score 1, as the code does, even when the host's result had `valid` false. The joiner therefore cannot tell "no common slot" from a real slot.
- Rendezvous.Rendezvous: the exchange assumes an engine whose answer carries a slot. The single-party step covers an answer without one (`SessionModel.ComputeOrder`), but the two-party exchange does not follow it further.
