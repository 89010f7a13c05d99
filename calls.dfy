/** The call registry: the dictionary calls_data from call SID to call
    record, the record make_call inserts, and the three provider
    callbacks that each overwrite one field of a known record. */
module Calls {
  import opened Base

  /** One entry of calls_data. The name is the contact's name cell, which
      is None for a short CSV row; status, transcript and recording URL
      are whatever the latest callback posted, None included. */
  datatype CallRecord = CallRecord(
    phoneNumber: string,
    name: Option<string>,
    status: Option<string>,
    transcript: Option<string>,
    recordingUrl: Option<string>)

  type CallTable = map<string, CallRecord>

  /** The fields a callback may overwrite. */
  datatype Field = Status | RecordingUrl | Transcript

  function FieldOf(r: CallRecord, f: Field): Option<string>
  {
    match f
    case Status => r.status
    case RecordingUrl => r.recordingUrl
    case Transcript => r.transcript
  }

  /** The record with field f replaced by v; every other field, phone and
      name included, is kept. */
  function WithField(r: CallRecord, f: Field, v: Option<string>): (r': CallRecord)
    ensures FieldOf(r', f) == v
    ensures forall g :: g != f ==> FieldOf(r', g) == FieldOf(r, g)
    ensures r'.phoneNumber == r.phoneNumber && r'.name == r.name
  {
    match f
    case Status => r.(status := v)
    case RecordingUrl => r.(recordingUrl := v)
    case Transcript => r.(transcript := v)
  }

  /** A callback: `if call_sid in calls_data: calls_data[call_sid][f] = v`.
      A missing CallSid form field (None) is never a key. An unknown SID
      leaves the table as it is; a known one has field f overwritten,
      whatever it held before (a final status included), and nothing
      else in the table changes. */
  function Apply(calls: CallTable, sid: Option<string>, f: Field, v: Option<string>): (r: CallTable)
    ensures r.Keys == calls.Keys
    ensures sid.None? || sid.value !in calls ==> r == calls
    ensures sid.Some? && sid.value in calls ==>
      r[sid.value] == WithField(calls[sid.value], f, v)
    ensures forall k :: k in calls && Some(k) != sid ==> r[k] == calls[k]
  {
    if sid.Some? && sid.value in calls then calls[sid.value := WithField(calls[sid.value], f, v)] else calls
  }

  /** The number make_call dials: the contact's phone_number cell when it
      is present and truthy (neither None nor empty). It is not stripped. */
  function DialledNumber(c: Contact): Option<string>
  {
    var p := Get(c, PhoneKey, None);
    if p.Some? && p.value != "" then p else None
  }

  /** The numbers handed to the provider for a contact: none when the
      number is missing, so that no placement is attempted. */
  function Attempt(c: Contact): seq<string>
  {
    if DialledNumber(c).Some? then [DialledNumber(c).value] else []
  }

  /** The record make_call stores for a placed call. */
  function InitialRecord(phone: string, c: Contact): CallRecord
  {
    CallRecord(phone, Get(c, NameKey, Some("")), Some("initiated"), None, None)
  }

  /** make_call's return value. outcome is the provider's answer to the
      placement request: Some(sid), or None when client.calls.create
      raises. */
  function CallResult(c: Contact, outcome: Option<string>): (r: Option<string>)
    ensures r.Some? <==> DialledNumber(c).Some? && outcome.Some?
    ensures r.Some? ==> r == outcome
  {
    if DialledNumber(c).Some? then outcome else None
  }

  /** calls_data after make_call. */
  function AfterCall(calls: CallTable, c: Contact, outcome: Option<string>): CallTable
  {
    match CallResult(c, outcome)
    case None => calls
    case Some(sid) => calls[sid := InitialRecord(DialledNumber(c).value, c)]
  }

  /** Without a number, or when placement fails, make_call leaves
      calls_data as it is. Otherwise the new SID maps to a fresh record
      (the raw phone cell, the name or '', status 'initiated', no
      transcript, no recording) and every other entry is kept. */
  lemma AfterCallSpec(calls: CallTable, c: Contact, outcome: Option<string>)
    ensures var r := AfterCall(calls, c, outcome);
      && (CallResult(c, outcome).None? ==> r == calls)
      && (CallResult(c, outcome).Some? ==>
           var sid := outcome.value;
           && r.Keys == calls.Keys + {sid}
           && Some(r[sid].phoneNumber) == Get(c, PhoneKey, None) && r[sid].phoneNumber != ""
           && r[sid].name == (if NameKey in c then c[NameKey] else Some(""))
           && r[sid].status == Some("initiated")
           && r[sid].transcript.None? && r[sid].recordingUrl.None?
           && forall k :: k in calls && k != sid ==> r[k] == calls[k])
  {
  }

  /** Every record in the table has a non-empty phone number: make_call
      refuses the others and callbacks never touch the number. */
  ghost predicate WellFormed(calls: CallTable)
  {
    forall k :: k in calls ==> calls[k].phoneNumber != ""
  }

  lemma AfterCallWellFormed(calls: CallTable, c: Contact, outcome: Option<string>)
    requires WellFormed(calls)
    ensures WellFormed(AfterCall(calls, c, outcome))
  {
    AfterCallSpec(calls, c, outcome);
  }

  lemma ApplyWellFormed(calls: CallTable, sid: Option<string>, f: Field, v: Option<string>)
    requires WellFormed(calls)
    ensures WellFormed(Apply(calls, sid, f, v))
  {
  }

  /** A callback event as the provider posts it. */
  datatype Event = Event(sid: Option<string>, field: Field, value: Option<string>)

  /** The table after a sequence of callbacks, applied in arrival order. */
  function ApplyAll(calls: CallTable, events: seq<Event>): CallTable
    decreases |events|
  {
    if events == [] then calls
    else
      var e := events[|events| - 1];
      Apply(ApplyAll(calls, events[..|events| - 1]), e.sid, e.field, e.value)
  }

  /** The value of field f of record sid after the events: that of the
      last event for (sid, f), or the original one if there is none. */
  function LastValue(events: seq<Event>, sid: string, f: Field, original: Option<string>): Option<string>
    decreases |events|
  {
    if events == [] then original
    else
      var e := events[|events| - 1];
      if e.sid == Some(sid) && e.field == f then e.value
      else LastValue(events[..|events| - 1], sid, f, original)
  }

  /** Last write wins, per field and per call, whatever the order in
      which callbacks for different fields or calls arrive; callbacks
      never add or remove an entry, and never change its phone or name. */
  lemma {:induction false} ApplyAllLastWriteWins(calls: CallTable, events: seq<Event>, sid: string, f: Field)
    requires sid in calls
    ensures ApplyAll(calls, events).Keys == calls.Keys
    ensures FieldOf(ApplyAll(calls, events)[sid], f) == LastValue(events, sid, f, FieldOf(calls[sid], f))
    ensures ApplyAll(calls, events)[sid].phoneNumber == calls[sid].phoneNumber
    ensures ApplyAll(calls, events)[sid].name == calls[sid].name
    decreases |events|
  {
    if events != [] {
      ApplyAllLastWriteWins(calls, events[..|events| - 1], sid, f);
    }
  }

  /** Callbacks for an SID that is not in the table change nothing and
      create no record. */
  lemma {:induction false} UnknownCallbacksIgnored(calls: CallTable, events: seq<Event>)
    requires forall i :: 0 <= i < |events| ==> events[i].sid.None? || events[i].sid.value !in calls
    ensures ApplyAll(calls, events) == calls
    decreases |events|
  {
    if events != [] {
      UnknownCallbacksIgnored(calls, events[..|events| - 1]);
    }
  }

  /** Status callbacks 'ringing', 'completed', 'failed' in that order
      leave 'failed': a final status is overwritten by a later one. */
  lemma FinalStatusOverwritten(calls: CallTable, sid: string)
    requires sid in calls
    ensures var events := [Event(Some(sid), Status, Some("ringing")),
                           Event(Some(sid), Status, Some("completed")),
                           Event(Some(sid), Status, Some("failed"))];
      sid in ApplyAll(calls, events) && ApplyAll(calls, events)[sid].status == Some("failed")
  {
    var events := [Event(Some(sid), Status, Some("ringing")),
                   Event(Some(sid), Status, Some("completed")),
                   Event(Some(sid), Status, Some("failed"))];
    ApplyAllLastWriteWins(calls, events, sid, Status);
  }

  /** calls_data together with the provider requests made so far. */
  class CallRegistry {
    var calls: CallTable
    /** The numbers handed to client.calls.create, in order. */
    ghost var dialled: seq<string>

    ghost predicate Valid()
      reads this
    {
      WellFormed(calls)
    }

    constructor ()
      ensures Valid()
      ensures calls == map[] && dialled == []
    {
      calls := map[];
      dialled := [];
    }

    /** make_call(phone_data): place a call to the contact's number and
        record it under the SID the provider returns. */
    method MakeCall(contact: Contact, outcome: Option<string>) returns (sid: Option<string>)
      requires Valid()
      modifies this
      ensures Valid()
      ensures sid == CallResult(contact, outcome)
      ensures calls == AfterCall(old(calls), contact, outcome)
      ensures dialled == old(dialled) + Attempt(contact)
    {
      var phone := Get(contact, PhoneKey, None);
      if phone.None? || phone.value == "" {
        return None;
      }
      dialled := dialled + [phone.value];
      if outcome.None? {
        return None;
      }
      AfterCallWellFormed(calls, contact, outcome);
      calls := calls[outcome.value := InitialRecord(phone.value, contact)];
      sid := outcome;
    }

    /** call_status_callback: overwrite the status of a known call. */
    method CallStatusCallback(sid: Option<string>, status: Option<string>)
      requires Valid()
      modifies this`calls
      ensures Valid()
      ensures calls == Apply(old(calls), sid, Status, status)
    {
      if sid.Some? && sid.value in calls {
        calls := calls[sid.value := calls[sid.value].(status := status)];
      }
    }

    /** recording_callback: overwrite the recording URL of a known call. */
    method RecordingCallback(sid: Option<string>, recordingUrl: Option<string>)
      requires Valid()
      modifies this`calls
      ensures Valid()
      ensures calls == Apply(old(calls), sid, RecordingUrl, recordingUrl)
    {
      if sid.Some? && sid.value in calls {
        calls := calls[sid.value := calls[sid.value].(recordingUrl := recordingUrl)];
      }
    }

    /** transcription_callback: overwrite the transcript of a known call. */
    method TranscriptionCallback(sid: Option<string>, text: Option<string>)
      requires Valid()
      modifies this`calls
      ensures Valid()
      ensures calls == Apply(old(calls), sid, Transcript, text)
    {
      if sid.Some? && sid.value in calls {
        calls := calls[sid.value := calls[sid.value].(transcript := text)];
      }
    }
  }
}
