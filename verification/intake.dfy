/** Reading the guest list from the uploaded spreadsheet: fixed columns
    C (reservation), G (name) and I (email), data from the fifth row on.
    Cells are given as the text the spreadsheet library renders for them,
    or `None` for an empty cell. */
module Intake {
  import opened Common

  /** A sheet as read without headers: its column count and its rows.
      A row shorter than the sheet is padded with empty cells. */
  datatype Sheet = Sheet(width: nat, rows: seq<seq<Option<string>>>)

  /** One guest to enroll; `line` is the 1-based spreadsheet row. */
  datatype Record = Record(reservation: string, name: string, email: string, line: nat)

  const ReservationColumn: nat := 2
  const NameColumn: nat := 6
  const EmailColumn: nat := 8

  /** Index of the first data row, and the end of the first pass. */
  const FirstDataRow: nat := 4
  const FirstPassEnd: nat := 10

  const ErrorPrefix: string := "Error leyendo archivo Excel: "
  const TooFewRows: string := "El archivo Excel debe tener al menos 5 filas (incluyendo headers en fila 4)"
  const TooFewColumns: string := "El archivo Excel debe tener al menos 9 columnas (hasta columna I)"
  const NoRecords: string := "No se encontraron registros v\U{E1}lidos"

  function CellAt(sheet: Sheet, i: nat, col: nat): Option<string>
    requires i < |sheet.rows|
  {
    if col < |sheet.rows[i]| then sheet.rows[i][col] else None
  }

  /** The three cleaned values of a row: reservation (default `N/A`),
      name, and lower-cased email (both default empty), all stripped. */
  function Reservation(sheet: Sheet, i: nat): string
    requires i < |sheet.rows|
  {
    match CellAt(sheet, i, ReservationColumn) case Some(t) => Strip(t) case None => "N/A"
  }

  function NameAt(sheet: Sheet, i: nat): string
    requires i < |sheet.rows|
  {
    match CellAt(sheet, i, NameColumn) case Some(t) => Strip(t) case None => ""
  }

  function EmailAt(sheet: Sheet, i: nat): string
    requires i < |sheet.rows|
  {
    match CellAt(sheet, i, EmailColumn) case Some(t) => Lower(Strip(t)) case None => ""
  }

  /** Text that stands for a missing value: `nan`, `none` or nothing, in
      any case; written character by character, which is what comparing
      `Lower(s)` with those words amounts to. */
  predicate Placeholder(s: string) {
    s == []
    || (|s| == 3 && LowerChar(s[0]) == 'n' && LowerChar(s[1]) == 'a' && LowerChar(s[2]) == 'n')
    || (|s| == 4 && LowerChar(s[0]) == 'n' && LowerChar(s[1]) == 'o' && LowerChar(s[2]) == 'n'
        && LowerChar(s[3]) == 'e')
  }

  lemma PlaceholderIsLowerWord(s: string)
    ensures Placeholder(s) <==> Lower(s) in ["nan", "none", ""]
  {
    var l := Lower(s);
    if |s| == 3 && l == "nan" {
      assert l[0] == 'n' && l[1] == 'a' && l[2] == 'n';
    }
    if |s| == 4 && l == "none" {
      assert l[0] == 'n' && l[1] == 'o' && l[2] == 'n' && l[3] == 'e';
    }
    if Placeholder(s) && |s| == 3 {
      assert l == "nan";
    }
    if Placeholder(s) && |s| == 4 {
      assert l == "none";
    }
  }

  /** The record of row `i`: an empty reservation cell reads `N/A`, an
      empty name or email cell reads as empty text, a present cell is
      stripped, and the email is lower-cased. */
  function RecordAt(sheet: Sheet, i: nat): (r: Record)
    requires i < |sheet.rows|
    ensures r.line == i + 1
    ensures CellAt(sheet, i, ReservationColumn).None? ==> r.reservation == "N/A"
    ensures CellAt(sheet, i, ReservationColumn).Some? ==> r.reservation == Strip(CellAt(sheet, i, ReservationColumn).value)
    ensures CellAt(sheet, i, NameColumn).None? ==> r.name == []
    ensures CellAt(sheet, i, NameColumn).Some? ==> r.name == Strip(CellAt(sheet, i, NameColumn).value)
    ensures CellAt(sheet, i, EmailColumn).None? ==> r.email == []
    ensures CellAt(sheet, i, EmailColumn).Some? ==>
              |r.email| == |Strip(CellAt(sheet, i, EmailColumn).value)|
              && forall k :: 0 <= k < |r.email| ==> r.email[k] == LowerChar(Strip(CellAt(sheet, i, EmailColumn).value)[k])
    ensures r.name != [] ==> !IsSpace(r.name[0]) && !IsSpace(r.name[|r.name| - 1])
    ensures forall k :: 0 <= k < |r.email| ==> !IsUpper(r.email[k])
  {
    Record(Reservation(sheet, i), NameAt(sheet, i), EmailAt(sheet, i), i + 1)
  }

  /** The filter of the first pass (rows 5 to 10), on the cleaned values. */
  predicate KeepFirstPass(r: Record) {
    r.name != [] && !Placeholder(r.name) && r.email != [] && !Placeholder(r.email) && '@' in r.email
  }

  /** The filter of the second pass (rows after the tenth), which does not
      test the email against the placeholders. */
  predicate KeepLaterPass(r: Record) {
    r.name != [] && !Placeholder(r.name) && r.email != [] && '@' in r.email
  }

  /** The two filters accept the same rows: an email holding `@` is never
      a placeholder. */
  lemma FiltersAgree(r: Record)
    ensures KeepFirstPass(r) <==> KeepLaterPass(r)
  {
    if '@' in r.email {
      var k :| 0 <= k < |r.email| && r.email[k] == '@';
      assert LowerChar(r.email[k]) == '@';
    }
  }

  /** What a record kept by either pass satisfies. */
  predicate WellFormed(r: Record) {
    r.name != [] && !Placeholder(r.name) && '@' in r.email
  }

  /** The filter of the pass a row belongs to. */
  predicate Keep(r: Record, later: bool)
    ensures Keep(r, later) ==> WellFormed(r)
  {
    if later then KeepLaterPass(r) else KeepFirstPass(r)
  }

  /** Records numbered by their 1-based row. */
  predicate Numbered(cs: seq<Record>) {
    forall i :: 0 <= i < |cs| ==> cs[i].line == i + 1
  }

  /** Every row of the sheet, cleaned; each row is cleaned on its own. */
  function Cleaned(sheet: Sheet): (cs: seq<Record>)
    ensures |cs| == |sheet.rows| && Numbered(cs)
  {
    seq(|sheet.rows|, i requires 0 <= i < |sheet.rows| => RecordAt(sheet, i))
  }

  /** The cleaned rows `lo` up to (not including) `hi` that pass the
      filter, in row order. */
  function Kept(cs: seq<Record>, lo: nat, hi: nat, later: bool): (rs: seq<Record>)
    requires lo <= hi <= |cs| && Numbered(cs)
    ensures |rs| <= hi - lo && Span(rs, lo, hi)
    ensures forall k :: 0 <= k < |rs| ==> Keep(rs[k], later)
    ensures forall k :: 0 <= k < |rs| ==> 1 <= rs[k].line <= |cs| && rs[k] == cs[rs[k].line - 1]
    decreases hi - lo
  {
    if hi == lo then []
    else
      var rest := Kept(cs, lo, hi - 1, later);
      if Keep(cs[hi - 1], later) then
        KeptPush(cs, lo, hi, later, rest);
        rest + [cs[hi - 1]]
      else
        SpanWiden(rest, lo, hi - 1, hi);
        rest
  }

  /** Appending the next kept row keeps the records of a pass in order
      and drawn from their rows. */
  lemma KeptPush(cs: seq<Record>, lo: nat, hi: nat, later: bool, rest: seq<Record>)
    requires lo < hi <= |cs| && Numbered(cs) && Keep(cs[hi - 1], later)
    requires |rest| <= hi - 1 - lo && Span(rest, lo, hi - 1)
    requires forall k :: 0 <= k < |rest| ==> Keep(rest[k], later)
    requires forall k :: 0 <= k < |rest| ==> 1 <= rest[k].line <= |cs| && rest[k] == cs[rest[k].line - 1]
    ensures var rs := rest + [cs[hi - 1]];
            && |rs| <= hi - lo && Span(rs, lo, hi)
            && (forall k :: 0 <= k < |rs| ==> Keep(rs[k], later))
            && (forall k :: 0 <= k < |rs| ==> 1 <= rs[k].line <= |cs| && rs[k] == cs[rs[k].line - 1])
  {
    var rs := rest + [cs[hi - 1]];
    assert forall k :: 0 <= k < |rest| ==> rs[k] == rest[k];
    assert rs[|rest|] == cs[hi - 1] && cs[hi - 1].line == hi;
  }

  function Min(a: nat, b: nat): nat {
    if a <= b then a else b
  }

  /** Records with lines in `lo + 1 .. hi`, well-formed and in row order. */
  predicate Span(rs: seq<Record>, lo: nat, hi: nat) {
    (forall k :: 0 <= k < |rs| ==> WellFormed(rs[k]) && lo + 1 <= rs[k].line <= hi)
    && (forall k :: 0 < k < |rs| ==> rs[k - 1].line < rs[k].line)
  }

  lemma SpanWiden(rs: seq<Record>, lo: nat, hi: nat, hi': nat)
    requires Span(rs, lo, hi) && hi <= hi'
    ensures Span(rs, lo, hi')
  {
  }

  /** The records of two consecutive passes, one after the other, are
      still in row order. */
  lemma ChainSpan(a: seq<Record>, b: seq<Record>, lo: nat, mid: nat, hi: nat)
    requires lo <= mid <= hi && Span(a, lo, mid) && Span(b, mid, hi)
    ensures Span(a + b, lo, hi)
  {
    assert forall k :: 0 <= k < |a| ==> (a + b)[k] == a[k];
    assert forall k :: |a| <= k < |a + b| ==> (a + b)[k] == b[k - |a|];
  }

  /** The records the reader returns for a sheet of the right shape: the
      kept rows 5 to 10, followed by the kept later rows when the first
      pass kept any. */
  function Gathered(sheet: Sheet): (rs: seq<Record>)
    requires |sheet.rows| > FirstDataRow
    ensures Span(rs, FirstDataRow, |sheet.rows|)
  {
    var n := |sheet.rows|;
    var cs := Cleaned(sheet);
    var first := Kept(cs, FirstDataRow, Min(n, FirstPassEnd), false);
    if |first| > 0 && n > FirstPassEnd then
      var rest := Kept(cs, FirstPassEnd, n, true);
      ChainSpan(first, rest, FirstDataRow, FirstPassEnd, n);
      first + rest
    else
      SpanWiden(first, FirstDataRow, Min(n, FirstPassEnd), n);
      first
  }

  /** The whole reader. Rows after the tenth are read only when the first
      pass kept at least one record. */
  function ReadSheet(sheet: Sheet): (r: Result<seq<Record>, string>)
    ensures r.Ok? ==> r.value != [] && Span(r.value, FirstDataRow, |sheet.rows|)
    ensures |sheet.rows| <= FirstDataRow ==> r == Err(ErrorPrefix + TooFewRows)
    ensures |sheet.rows| > FirstDataRow && sheet.width < 9 ==> r == Err(ErrorPrefix + TooFewColumns)
    ensures |sheet.rows| > FirstDataRow && sheet.width >= 9 ==>
              var n := |sheet.rows|;
              var first := Kept(Cleaned(sheet), FirstDataRow, Min(n, FirstPassEnd), false);
              var all := if first != [] && n > FirstPassEnd
                         then first + Kept(Cleaned(sheet), FirstPassEnd, n, true) else first;
              r == if all == [] then Err(ErrorPrefix + NoRecords) else Ok(all)
  {
    if |sheet.rows| <= FirstDataRow then Err(ErrorPrefix + TooFewRows)
    else if sheet.width < 9 then Err(ErrorPrefix + TooFewColumns)
    else if Gathered(sheet) == [] then Err(ErrorPrefix + NoRecords)
    else Ok(Gathered(sheet))
  }

  /** One pass as the reader's loop runs it, counting the kept rows. */
  method ScanRows(cs: seq<Record>, lo: nat, hi: nat, later: bool) returns (records: seq<Record>, valid: nat)
    requires lo <= hi <= |cs| && Numbered(cs)
    ensures records == Kept(cs, lo, hi, later) && valid == |records|
  {
    records, valid := [], 0;
    var index := lo;
    while index < hi
      invariant lo <= index <= hi
      invariant records == Kept(cs, lo, index, later) && valid == |records|
    {
      if Keep(cs[index], later) {
        records := records + [cs[index]];
        valid := valid + 1;
      }
      index := index + 1;
    }
  }

  method ReadRecords(sheet: Sheet) returns (r: Result<seq<Record>, string>)
    ensures r == ReadSheet(sheet)
  {
    var n := |sheet.rows|;
    if n <= FirstDataRow {
      return Err(ErrorPrefix + TooFewRows);
    }
    if sheet.width < 9 {
      return Err(ErrorPrefix + TooFewColumns);
    }
    var cs := Cleaned(sheet);
    var records, valid := ScanRows(cs, FirstDataRow, Min(n, FirstPassEnd), false);
    if valid > 0 && n > FirstPassEnd {
      var more, _ := ScanRows(cs, FirstPassEnd, n, true);
      records := records + more;
    }
    if records == [] {
      return Err(ErrorPrefix + NoRecords);
    }
    return Ok(records);
  }

  /** Every row that passes the filter is kept. */
  lemma {:induction false} KeptComplete(cs: seq<Record>, lo: nat, hi: nat, later: bool, i: nat)
    requires lo <= i < hi <= |cs| && Numbered(cs)
    requires Keep(cs[i], later)
    ensures cs[i] in Kept(cs, lo, hi, later)
    decreases hi - lo
  {
    if i < hi - 1 {
      KeptComplete(cs, lo, hi - 1, later, i);
    }
  }

  /** A pass keeps exactly the rows of its range that pass its filter,
      each one unchanged. */
  lemma KeptExactly(cs: seq<Record>, lo: nat, hi: nat, later: bool)
    requires lo <= hi <= |cs| && Numbered(cs)
    ensures forall i :: lo <= i < hi ==> (cs[i] in Kept(cs, lo, hi, later) <==> Keep(cs[i], later))
    ensures forall r :: r in Kept(cs, lo, hi, later) ==> lo < r.line <= hi && r == cs[r.line - 1]
  {
    forall i | lo <= i < hi
      ensures cs[i] in Kept(cs, lo, hi, later) <==> Keep(cs[i], later)
    {
      KeptMember(cs, lo, hi, later, i);
    }
    forall r | r in Kept(cs, lo, hi, later)
      ensures lo < r.line <= hi && r == cs[r.line - 1]
    {
      KeptFromRow(cs, lo, hi, later, r);
    }
  }

  lemma KeptMember(cs: seq<Record>, lo: nat, hi: nat, later: bool, i: nat)
    requires lo <= i < hi <= |cs| && Numbered(cs)
    ensures cs[i] in Kept(cs, lo, hi, later) <==> Keep(cs[i], later)
  {
    var rs := Kept(cs, lo, hi, later);
    if Keep(cs[i], later) {
      KeptComplete(cs, lo, hi, later, i);
    }
    if cs[i] in rs {
      var k :| 0 <= k < |rs| && rs[k] == cs[i];
    }
  }

  lemma KeptFromRow(cs: seq<Record>, lo: nat, hi: nat, later: bool, r: Record)
    requires lo <= hi <= |cs| && Numbered(cs) && r in Kept(cs, lo, hi, later)
    ensures lo < r.line <= hi && r == cs[r.line - 1]
  {
    var rs := Kept(cs, lo, hi, later);
    var k :| 0 <= k < |rs| && rs[k] == r;
  }

  /** A pass over rows that all fail the filter keeps nothing. */
  lemma {:induction false} KeptNone(cs: seq<Record>, lo: nat, hi: nat, later: bool)
    requires lo <= hi <= |cs| && Numbered(cs)
    requires forall i :: lo <= i < hi ==> !Keep(cs[i], later)
    ensures Kept(cs, lo, hi, later) == []
    decreases hi - lo
  {
    if lo < hi {
      KeptNone(cs, lo, hi - 1, later);
    }
  }

  /** When none of rows 5 to 10 is valid, the rest of the sheet is not
      read and the upload is refused, whatever the later rows hold. */
  lemma LaterRowsNeedAnEarlyOne(sheet: Sheet)
    requires |sheet.rows| > FirstPassEnd && sheet.width >= 9
    requires forall i :: FirstDataRow <= i < FirstPassEnd ==> !KeepFirstPass(RecordAt(sheet, i))
    ensures ReadSheet(sheet) == Err(ErrorPrefix + NoRecords)
  {
    var cs := Cleaned(sheet);
    KeptNone(cs, FirstDataRow, FirstPassEnd, false);
  }

  /** A valid row in the first pass is always read. */
  lemma EarlyValidRowRead(sheet: Sheet, i: nat)
    requires sheet.width >= 9 && FirstDataRow <= i < Min(|sheet.rows|, FirstPassEnd)
    requires KeepFirstPass(RecordAt(sheet, i))
    ensures ReadSheet(sheet).Ok?
    ensures RecordAt(sheet, i) in ReadSheet(sheet).value
  {
    var cs := Cleaned(sheet);
    var first := Kept(cs, FirstDataRow, Min(|sheet.rows|, FirstPassEnd), false);
    KeptComplete(cs, FirstDataRow, Min(|sheet.rows|, FirstPassEnd), false, i);
    assert cs[i] == RecordAt(sheet, i);
    assert first <= ReadSheet(sheet).value;
  }

  /** Once a row among rows 5 to 10 is valid, every valid later row is
      read too. */
  lemma LaterValidRowRead(sheet: Sheet, early: nat, i: nat)
    requires sheet.width >= 9 && FirstDataRow <= early < FirstPassEnd <= i < |sheet.rows|
    requires KeepFirstPass(RecordAt(sheet, early)) && KeepLaterPass(RecordAt(sheet, i))
    ensures ReadSheet(sheet).Ok?
    ensures RecordAt(sheet, i) in ReadSheet(sheet).value
  {
    var n := |sheet.rows|;
    var cs := Cleaned(sheet);
    KeptComplete(cs, FirstDataRow, FirstPassEnd, false, early);
    KeptComplete(cs, FirstPassEnd, n, true, i);
    var first := Kept(cs, FirstDataRow, FirstPassEnd, false);
    var rest := Kept(cs, FirstPassEnd, n, true);
    assert cs[i] == RecordAt(sheet, i);
    assert ReadSheet(sheet).value == first + rest;
  }
}
