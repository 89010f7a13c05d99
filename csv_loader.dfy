/** load_numbers_from_csv: keep the rows of a parsed CSV file whose
    phone_number field is a plausible phone number. */
module CsvLoader {
  import opened Base
  import opened Text

  /** The validation applied to a phone field: non-empty once stripped,
      and made of digits only. */
  predicate ValidPhone(field: string)
  {
    var p := Strip(field);
    p != [] && AllDigits(p)
  }

  /** What the loop does with one row. row.get('phone_number', '') is
      '' when the key is absent; a None cell (a short row) makes .strip()
      raise, which the surrounding except turns into the end of the load. */
  datatype Verdict = Keep | Skip | Abort

  /** A row whose phone cell is None. */
  predicate IsShort(row: Contact)
  {
    Get(row, PhoneKey, Some("")).None?
  }

  function RowVerdict(row: Contact): (v: Verdict)
    ensures v == Abort <==> IsShort(row)
  {
    match Get(row, PhoneKey, Some(""))
    case None => Abort
    case Some(field) => if ValidPhone(field) then Keep else Skip
  }

  /** A row the intended validation accepts. */
  predicate ValidRow(row: Contact)
  {
    RowVerdict(row) == Keep
  }

  /** A row that passes the validation has a phone cell, and it is not
      empty. */
  lemma ValidRowHasPhone(row: Contact)
    requires ValidRow(row)
    ensures PhoneKey in row && row[PhoneKey].Some? && row[PhoneKey].value != ""
  {
    var field := Get(row, PhoneKey, Some(""));
    assert field.Some? && ValidPhone(field.value);
    StripSpec(field.value);
  }

  /** The rows of rows that pass the validation, in input order. */
  function ValidRows(rows: seq<Contact>): (r: seq<Contact>)
    ensures |r| <= |rows|
    ensures forall i :: 0 <= i < |r| ==> ValidRow(r[i])
  {
    if rows == [] then []
    else ValidRows(rows[..|rows| - 1]) + (if ValidRow(rows[|rows| - 1]) then [rows[|rows| - 1]] else [])
  }

  /** The index of the first row whose phone cell is None, or |rows|. */
  function FirstShortRow(rows: seq<Contact>): (k: nat)
    ensures k <= |rows|
    ensures forall i :: 0 <= i < k ==> !IsShort(rows[i])
    ensures k < |rows| ==> IsShort(rows[k])
  {
    if rows == [] then 0
    else if IsShort(rows[0]) then 0
    else 1 + FirstShortRow(rows[1..])
  }

  /** What load_numbers_from_csv returns, as written: nothing when the
      header has no phone_number column, and otherwise the valid rows
      that come before the first short row. An empty file has no header
      (fieldnames is None, the membership test raises) and also yields []. */
  function LoadedRows(header: seq<string>, rows: seq<Contact>): seq<Contact>
  {
    if PhoneKey !in header then [] else ValidRows(rows[..FirstShortRow(rows)])
  }

  /** What load_numbers_from_csv evidently means to return: every valid
      row, a short row being skipped like any other invalid one. */
  function IntendedRows(header: seq<string>, rows: seq<Contact>): seq<Contact>
  {
    if PhoneKey !in header then [] else ValidRows(rows)
  }

  /** The filtering loop of load_numbers_from_csv, as written. */
  method LoadNumbersFromCsv(header: seq<string>, rows: seq<Contact>) returns (numbers: seq<Contact>)
    ensures PhoneKey !in header ==> numbers == []
    ensures numbers == LoadedRows(header, rows)
  {
    numbers := [];
    if PhoneKey !in header {
      return;
    }
    var i := 0;
    while i < |rows|
      invariant 0 <= i <= FirstShortRow(rows)
      invariant numbers == ValidRows(rows[..i])
    {
      var row := rows[i];
      var verdict := RowVerdict(row);
      if verdict == Abort {
        break;
      }
      ValidRowsStep(rows, i);
      if verdict == Keep {
        numbers := numbers + [row];
      }
      i := i + 1;
    }
  }

  /** Extending the rows looked at by one. */
  lemma ValidRowsStep(rows: seq<Contact>, i: nat)
    requires i < |rows|
    ensures ValidRows(rows[..i + 1]) == ValidRows(rows[..i]) + (if ValidRow(rows[i]) then [rows[i]] else [])
  {
    assert rows[..i + 1][..i] == rows[..i];
  }

  /** Filtering commutes with concatenation: the kept rows keep their
      relative order. */
  lemma {:induction false} ValidRowsAppend(a: seq<Contact>, b: seq<Contact>)
    ensures ValidRows(a + b) == ValidRows(a) + ValidRows(b)
    decreases |b|
  {
    if b == [] {
      assert a + b == a;
    } else {
      var b' := b[..|b| - 1];
      assert (a + b)[..|a + b| - 1] == a + b';
      ValidRowsAppend(a, b');
    }
  }

  /** A row is kept exactly when it is in the input and passes the
      validation; every kept row is returned unmodified. */
  lemma {:induction false} ValidRowsMembers(rows: seq<Contact>, row: Contact)
    ensures row in ValidRows(rows) <==> row in rows && ValidRow(row)
    decreases |rows|
  {
    if rows != [] {
      var p := rows[..|rows| - 1];
      ValidRowsMembers(p, row);
      assert rows == p + [rows[|rows| - 1]];
    }
  }

  /** With a phone_number column, the intended load returns exactly the
      valid rows of the file. */
  lemma IntendedRowsExact(header: seq<string>, rows: seq<Contact>, row: Contact)
    ensures row in IntendedRows(header, rows) <==> PhoneKey in header && row in rows && ValidRow(row)
  {
    ValidRowsMembers(rows, row);
  }

  /** The as-written load returns exactly the valid rows when no row is
      short, so the two agree on well-formed files. */
  lemma LoadedRowsWithoutShortRows(header: seq<string>, rows: seq<Contact>)
    requires forall i :: 0 <= i < |rows| ==> !IsShort(rows[i])
    ensures LoadedRows(header, rows) == IntendedRows(header, rows)
  {
    assert rows[..FirstShortRow(rows)] == rows;
  }

  lemma SampleNumberIsValid()
    ensures ValidPhone("15551230001")
  {
    StripKeepsTrimmed("15551230001");
  }

  /** A file with columns name,phone_number whose first data row holds
      only a name, followed by a valid row: the short row ends the load
      and the valid row after it is lost. */
  lemma ShortRowTruncatesLoad()
    ensures var header := [NameKey, PhoneKey];
      var short := map[NameKey := Some("Ann"), PhoneKey := None];
      var good := map[NameKey := Some("Bob"), PhoneKey := Some("15551230001")];
      && LoadedRows(header, [short, good]) == []
      && IntendedRows(header, [short, good]) == [good]
  {
    var header := [NameKey, PhoneKey];
    var short := map[NameKey := Some("Ann"), PhoneKey := None];
    var good := map[NameKey := Some("Bob"), PhoneKey := Some("15551230001")];
    assert PhoneKey in header;
    assert IsShort(short);
    SampleNumberIsValid();
    assert ValidRow(good);
    assert FirstShortRow([short, good]) == 0;
    assert [short, good][..0] == [];
    assert !ValidRow(short);
    assert [short, good][..1] == [short] && [short][..0] == [];
    assert ValidRows([short]) == [];
  }
}
