/** Session codes: the host builds `<address>:<field>` from its account address
    and a random field value; the joiner pastes it, and it is checked before the
    joiner takes on the session. The host later hands the field part to the
    intersection engine as the meeting identifier. */
module Codes {
  import opened Text

  /** The session code the host shares. */
  function MeetingCode(address: string, field: string): string {
    address + ":" + field
  }

  datatype CodeError = EmptyCode | InvalidCodeFormat | InvalidAddress

  /** Outcome of the joiner's checks: the trimmed code and the host address it names, or why not. */
  datatype CodeCheck = Accepted(code: string, hostAddress: string) | Rejected(error: CodeError)

  predicate NoLeadingSpace(s: string) {
    s == [] || !IsJsSpace(s[0])
  }

  predicate NoTrailingSpace(s: string) {
    s == [] || !IsJsSpace(s[|s| - 1])
  }

  /** The checks `joinEvent` makes on the pasted code, in its order: the trimmed code
      must not be empty, splitting it on `:` must give exactly two parts, and the first
      part must pass address validation. An accepted code is the host address and a
      field joined by its only colon. */
  function CheckJoinCode(joinCode: string, isValidAddress: string -> bool): (r: CodeCheck)
    ensures r.Accepted? ==> r.code == Trim(joinCode) && r.code != []
    ensures r.Accepted? ==> isValidAddress(r.hostAddress)
    ensures r.Accepted? ==>
      exists field :: r.code == MeetingCode(r.hostAddress, field) && ':' !in r.hostAddress && ':' !in field
  {
    var code := Trim(joinCode);
    if code == [] then Rejected(EmptyCode)
    else
      var parts := Split(code, ':');
      if |parts| != 2 then Rejected(InvalidCodeFormat)
      else if !isValidAddress(parts[0]) then Rejected(InvalidAddress)
      else
        assert JoinWith(parts[1..], ':') == parts[1];
        assert code == MeetingCode(parts[0], parts[1]);
        Accepted(code, parts[0])
  }

  /** An empty or all-white-space code is refused before anything else is looked at. */
  lemma BlankCodeRejected(joinCode: string, isValidAddress: string -> bool)
    requires forall i :: 0 <= i < |joinCode| ==> IsJsSpace(joinCode[i])
    ensures CheckJoinCode(joinCode, isValidAddress) == Rejected(EmptyCode)
  {
    TrimEmptyIffAllSpace(joinCode);
  }

  /** A code that is not blank and does not hold exactly one colon is refused as malformed. */
  lemma ColonCountRejected(joinCode: string, isValidAddress: string -> bool)
    requires Trim(joinCode) != [] && Occurrences(Trim(joinCode), ':') != 1
    ensures CheckJoinCode(joinCode, isValidAddress) == Rejected(InvalidCodeFormat)
  {
  }

  /** A code with one colon whose address part fails validation is refused for its address. */
  lemma BadAddressRejected(joinCode: string, isValidAddress: string -> bool, address: string, field: string)
    requires Trim(joinCode) == MeetingCode(address, field) && ':' !in address && ':' !in field
    requires !isValidAddress(address)
    ensures CheckJoinCode(joinCode, isValidAddress) == Rejected(InvalidAddress)
  {
    SplitAround(address, field, ':');
  }

  /** Conversely to what `CheckJoinCode` promises of an accepted code: once trimmed, a
      valid address and a field joined by a single colon is accepted, and the host
      address recorded is that address. */
  lemma WellFormedAccepted(joinCode: string, isValidAddress: string -> bool, address: string, field: string)
    requires ':' !in address && ':' !in field
    requires Trim(joinCode) == MeetingCode(address, field) && isValidAddress(address)
    ensures CheckJoinCode(joinCode, isValidAddress) == Accepted(Trim(joinCode), address)
  {
    SplitAround(address, field, ':');
  }

  /** Round trip: a code built from a valid address and a field, neither holding a colon
      nor white space at the outer ends, is accepted as it stands and yields that address. */
  lemma MeetingCodeRoundTrip(address: string, field: string, isValidAddress: string -> bool)
    requires ':' !in address && ':' !in field
    requires NoLeadingSpace(address) && NoTrailingSpace(field)
    requires isValidAddress(address)
    ensures CheckJoinCode(MeetingCode(address, field), isValidAddress) ==
      Accepted(MeetingCode(address, field), address)
  {
    var code := MeetingCode(address, field);
    assert code[0] == (if address == [] then ':' else address[0]);
    assert code[|code| - 1] == (if field == [] then ':' else field[|field| - 1]);
    TrimKeepsTrimmed(code);
    SplitAround(address, field, ':');
  }

  /** The field the engine receives: the part of the session code after its first colon,
      or the fallback `0field` when there is no such part or it is empty. */
  function EngineField(meetingId: string): string {
    var parts := Split(meetingId, ':');
    if |parts| >= 2 && parts[1] != [] then parts[1] else "0field"
  }

  /** For a code the host built, the engine receives the host's field, or `0field` when it is empty. */
  lemma EngineFieldOfCode(address: string, field: string)
    requires ':' !in address && ':' !in field
    ensures EngineField(MeetingCode(address, field)) == if field == [] then "0field" else field
  {
    SplitAround(address, field, ':');
  }

  /** A meeting id without a colon hands the engine the fallback field. */
  lemma EngineFieldWithoutColon(meetingId: string)
    requires ':' !in meetingId
    ensures EngineField(meetingId) == "0field"
  {
    NoOccurrences(meetingId, ':');
  }
}
