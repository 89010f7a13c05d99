/** The pure parts of the HTTP handlers: the greeting spoken by the
    voice-script endpoint, and the request checks of POST /make-calls
    in front of the batch dispatcher. */
module Routes {
  import opened Base
  import opened Text
  import opened CsvLoader
  import opened Calls
  import opened Dispatcher

  /** handle_call's greeting for the name query argument. */
  function Greeting(name: string): string
  {
    if name == "" then "Hello" else "Hello " + name
  }

  /** request.args.get('name', ''): an absent argument greets without a name. */
  function GreetingFor(nameArg: Option<string>): string
  {
    Greeting(if nameArg.Some? then nameArg.value else "")
  }

  /** The name a greeting addresses: what follows "Hello ". */
  function GreetedName(greeting: string): string
  {
    if |greeting| > 6 then greeting[6..] else ""
  }

  /** Every greeting opens with "Hello", and the name it addresses is
      exactly the one passed in, so distinct names are greeted
      differently and an empty name is greeted with "Hello" alone. */
  lemma GreetingAddressesName(name: string)
    ensures |Greeting(name)| >= 5 && Greeting(name)[..5] == "Hello"
    ensures GreetedName(Greeting(name)) == name
    ensures Greeting(name) == "Hello" <==> name == ""
    ensures GreetingFor(None) == "Hello" && GreetingFor(Some(name)) == Greeting(name)
  {
  }

  /** An uploaded file, already parsed by csv.DictReader. */
  datatype Upload = Upload(filename: string, header: seq<string>, rows: seq<Contact>)

  /** The fields of a POST /make-calls request the handler reads. None
      marks a field that is absent from the form. */
  datatype MakeCallsForm = MakeCallsForm(
    dataSource: Option<string>,
    file: Option<Upload>,
    sheetId: Option<string>,
    batchSize: Option<string>)

  /** What the handler decides before any call is placed: a 400 reply with
      its error text, a 500 reply because int(batch_size) raised, or the
      contact list and batch size to dispatch. */
  datatype Plan = Rejected(error: string) | Crashed | Dispatch(contacts: seq<Contact>, batchSize: int)

  const NoFileUploaded: string := "No file uploaded"
  const NoFileSelected: string := "No file selected"
  const NoValidNumbers: string :=
    "No valid phone numbers found in CSV. Please ensure it includes a \"phone_number\" column with numeric values."
  const SheetIdRequired: string := "Google Sheet ID is required"
  const InvalidSource: string := "Invalid data source"
  const NoNumbersFound: string := "No phone numbers found"
  const DefaultBatchSize: int := 100

  /** request.form.get('data_source', 'csv') */
  function DataSource(form: MakeCallsForm): string
  {
    if form.dataSource.Some? then form.dataSource.value else "csv"
  }

  /** int(request.form.get('batch_size', 100)) */
  function BatchSizeOf(contacts: seq<Contact>, field: Option<string>): Plan
  {
    match field
    case None => Dispatch(contacts, DefaultBatchSize)
    case Some(text) =>
      match ParseInt(text)
      case None => Crashed
      case Some(n) => Dispatch(contacts, n)
  }

  /** The contacts the request's data source yields: the filtered rows
      of the upload, or the worksheet's records. */
  function SourceContacts(form: MakeCallsForm, sheetRecords: seq<Contact>): seq<Contact>
  {
    if DataSource(form) == "csv" && form.file.Some? then LoadedRows(form.file.value.header, form.file.value.rows)
    else sheetRecords
  }

  /** The branching of initiate_calls. sheetRecords is what the
      spreadsheet service returns for the sheet and worksheet named in the
      form ([] when loading fails). A CSV upload is loaded by
      load_numbers_from_csv as written (CsvLoader.LoadedRows). */
  function PlanCalls(form: MakeCallsForm, sheetRecords: seq<Contact>): (p: Plan)
    ensures !p.Rejected? ==> SourceContacts(form, sheetRecords) != []
    ensures !p.Rejected? ==> p == BatchSizeOf(SourceContacts(form, sheetRecords), form.batchSize)
    ensures !p.Rejected? && DataSource(form) == "csv" ==> form.file.Some? && form.file.value.filename != ""
    ensures !p.Rejected? && DataSource(form) != "csv" ==> form.sheetId.Some? && form.sheetId.value != ""
    ensures DataSource(form) != "csv" && DataSource(form) != "google_sheet" ==> p == Rejected(InvalidSource)
  {
    var source := DataSource(form);
    if source == "csv" then
      if form.file.None? then Rejected(NoFileUploaded)
      else if form.file.value.filename == "" then Rejected(NoFileSelected)
      else
        var contacts := LoadedRows(form.file.value.header, form.file.value.rows);
        if contacts == [] then Rejected(NoValidNumbers)
        else BatchSizeOf(contacts, form.batchSize)
    else if source == "google_sheet" then
      if form.sheetId.None? || form.sheetId.value == "" then Rejected(SheetIdRequired)
      else if sheetRecords == [] then Rejected(NoNumbersFound)
      else BatchSizeOf(sheetRecords, form.batchSize)
    else Rejected(InvalidSource)
  }

  /** A well-formed request is dispatched with the batch size written in
      the form, or with 100 when the form has none; a batch size that is
      not an integer ends in a 500 reply. */
  lemma BatchSizeHonoured(form: MakeCallsForm, sheetRecords: seq<Contact>, n: int)
    requires !PlanCalls(form, sheetRecords).Rejected?
    ensures form.batchSize.None? ==>
      PlanCalls(form, sheetRecords) == Dispatch(SourceContacts(form, sheetRecords), DefaultBatchSize)
    ensures form.batchSize == Some(IntToString(n)) ==>
      PlanCalls(form, sheetRecords) == Dispatch(SourceContacts(form, sheetRecords), n)
    ensures PlanCalls(form, sheetRecords).Crashed? <==>
      form.batchSize.Some? && ParseInt(form.batchSize.value).None?
  {
    ParseIntRoundTrip(n);
  }

  /** A batch_size field with an information separator before the digits
      is refused by int(), so the request ends in a 500 and no call is
      placed. */
  lemma SeparatorBatchSizeCrashes(records: seq<Contact>)
    requires records != []
    ensures PlanCalls(MakeCallsForm(Some("google_sheet"), None, Some("sheet1"), Some("\U{1C}5")), records) == Crashed
  {
    SeparatorRefusedByInt();
  }

  /** A request is refused with 400 exactly when its source is unknown,
      the CSV upload is missing, unnamed or holds no valid row, or the
      sheet id is missing or the sheet yields no record. */
  lemma RejectedExactly(form: MakeCallsForm, sheetRecords: seq<Contact>)
    ensures PlanCalls(form, sheetRecords).Rejected? <==>
      || (DataSource(form) != "csv" && DataSource(form) != "google_sheet")
      || (DataSource(form) == "csv" &&
           (form.file.None? || form.file.value.filename == ""
            || LoadedRows(form.file.value.header, form.file.value.rows) == []))
      || (DataSource(form) == "google_sheet" &&
           (form.sheetId.None? || form.sheetId.value == "" || sheetRecords == []))
  {
  }

  /** Every contact a CSV upload dispatches has a number that make_call
      dials: the row filter is stricter than make_call's own check. */
  lemma CsvContactsAreDialled(form: MakeCallsForm, sheetRecords: seq<Contact>)
    requires DataSource(form) == "csv"
    ensures var p := PlanCalls(form, sheetRecords);
      p.Dispatch? ==>
        forall c: Contact :: c in p.contacts ==>
          DialledNumber(c).Some? && PhoneKey in c && Attempt(c) == [c[PhoneKey].value]
  {
    var p := PlanCalls(form, sheetRecords);
    if p.Dispatch? {
      var up := form.file.value;
      var loaded := up.rows[..FirstShortRow(up.rows)];
      forall c: Contact | c in p.contacts
        ensures DialledNumber(c).Some? && PhoneKey in c && Attempt(c) == [c[PhoneKey].value]
      {
        assert c in ValidRows(loaded);
        ValidRowsMembers(loaded, c);
        ValidRowHasPhone(c);
      }
    }
  }

  /** The upload of CsvLoader.ShortRowTruncatesLoad: its only valid row
      follows a row without a phone cell, so the load returns nothing and
      the request is refused with 400. */
  lemma ShortRowRejectsUpload()
    ensures var short := map[NameKey := Some("Ann"), PhoneKey := None];
      var good := map[NameKey := Some("Bob"), PhoneKey := Some("15551230001")];
      var up := Upload("contacts.csv", [NameKey, PhoneKey], [short, good]);
      PlanCalls(MakeCallsForm(None, Some(up), None, None), []) == Rejected(NoValidNumbers)
  {
    ShortRowTruncatesLoad();
  }

  /** The reply of POST /make-calls. */
  datatype Reply = BadRequest(error: string) | ServerError | Initiated(message: string, callSids: seq<string>)

  /** initiate_calls: check the request, dispatch the contacts in
      batches, and report the SIDs of the calls placed. provider(i) is
      the telephony provider's answer for the i-th contact of the plan;
      it is not consulted for a contact without a number. */
  method InitiateCalls(registry: CallRegistry, form: MakeCallsForm, sheetRecords: seq<Contact>,
                       provider: nat -> Option<string>)
    returns (reply: Reply)
    requires registry.Valid()
    modifies registry
    ensures registry.Valid()
    ensures var plan := PlanCalls(form, sheetRecords);
      match plan
      case Rejected(e) =>
        reply == BadRequest(e) && registry.calls == old(registry.calls) && registry.dialled == old(registry.dialled)
      case Crashed =>
        reply == ServerError && registry.calls == old(registry.calls) && registry.dialled == old(registry.dialled)
      case Dispatch(contacts, n) =>
        var outcomes := seq(|contacts|, i requires 0 <= i < |contacts| => provider(i));
        && (n == 0 ==> reply == ServerError)
        && (n <= 0 ==> registry.calls == old(registry.calls) && registry.dialled == old(registry.dialled))
        && (n != 0 ==>
             reply.Initiated? && reply.message == "Initiated " + IntToString(|reply.callSids|) + " calls")
        && (n < 0 ==> reply.callSids == [])
        && (n > 0 ==>
             && reply.callSids == Successes(contacts, outcomes)
             && registry.calls == AfterCalls(old(registry.calls), contacts, outcomes)
             && registry.dialled == old(registry.dialled) + DialledAll(contacts))
  {
    var plan := PlanCalls(form, sheetRecords);
    match plan {
      case Rejected(e) =>
        reply := BadRequest(e);
      case Crashed =>
        reply := ServerError;
      case Dispatch(contacts, n) =>
        var outcomes := seq(|contacts|, i requires 0 <= i < |contacts| => provider(i));
        var sids;
        ghost var batches, sleeps;
        sids, batches, sleeps := ProcessCallsInBatches(registry, contacts, outcomes, n);
        if sids.None? {
          reply := ServerError;
        } else {
          reply := Initiated("Initiated " + IntToString(|sids.value|) + " calls", sids.value);
        }
    }
  }
}
