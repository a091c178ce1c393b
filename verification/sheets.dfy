/** The pure part of reading a column of a Google Sheet
    (services/sheets_handler.py): spreadsheet IDs, column letters, the choice
    of the sheet and of the column, and the cleaning of the cells read. The
    Sheets service itself is a parameter. */
module Sheets {
  import opened Wrappers
  import opened Text

  // ---------------------------------------------------------------------------
  // Column letters

  predicate IsLetter(c: char) {
    'A' <= c <= 'Z'
  }

  predicate AllLetters(s: string) {
    forall i :: 0 <= i < |s| ==> IsLetter(s[i])
  }

  function Letter(digit: nat): char
    requires digit < 26
  {
    (65 + digit) as char
  }

  function Digit(c: char): nat
    requires IsLetter(c)
  {
    c as nat - 65
  }

  /** `_index_to_column_letter`: the column name of a zero-based index in
      bijective base 26 (`A` to `Z`, then `AA`); a negative index has none. */
  function ColumnLetter(index: int): (r: string)
    ensures r == [] <==> index < 0
    ensures AllLetters(r)
    decreases index + 1
  {
    if index < 0 then ""
    else ColumnLetter(index / 26 - 1) + [Letter(index % 26)]
  }

  /** The loop of `_index_to_column_letter`, which prepends one letter per
      round. */
  method ColumnLetterLoop(index: int) returns (result: string)
    ensures result == ColumnLetter(index)
  {
    result := "";
    var rest := index;
    while rest >= 0
      invariant rest >= -1 || rest == index
      invariant ColumnLetter(index) == ColumnLetter(rest) + result
      decreases rest + 1
    {
      result := [Letter(rest % 26)] + result;
      rest := rest / 26 - 1;
    }
  }

  /** The index a column name stands for: the inverse of `ColumnLetter`, with
      -1 for the empty name. */
  function ColumnIndex(letters: string): (r: int)
    requires AllLetters(letters)
    ensures r >= -1
    ensures letters != [] ==> r >= 0
  {
    if letters == [] then -1
    else (ColumnIndex(letters[..|letters| - 1]) + 1) * 26 + Digit(letters[|letters| - 1])
  }

  /** Reading a column name back gives the index it was made from. */
  lemma {:induction false} LetterIndexRoundTrip(index: int)
    requires index >= -1
    ensures ColumnIndex(ColumnLetter(index)) == index
    decreases index + 1
  {
    if index >= 0 {
      var rest := index / 26 - 1;
      var letters := ColumnLetter(index);
      assert letters[..|letters| - 1] == ColumnLetter(rest);
      LetterIndexRoundTrip(rest);
    }
  }

  /** Every name made of capital letters is the name of the index it stands
      for. */
  lemma {:induction false} IndexLetterRoundTrip(letters: string)
    requires AllLetters(letters)
    ensures ColumnLetter(ColumnIndex(letters)) == letters
    decreases |letters|
  {
    if letters != [] {
      var init := letters[..|letters| - 1];
      var last := letters[|letters| - 1];
      var n := ColumnIndex(letters);
      assert n == (ColumnIndex(init) + 1) * 26 + Digit(last);
      assert n / 26 - 1 == ColumnIndex(init) && n % 26 == Digit(last);
      IndexLetterRoundTrip(init);
      assert letters == init + [last];
    }
  }

  /** Different indexes get different names. */
  lemma ColumnLetterInjective(i: int, j: int)
    requires i >= 0 && j >= 0 && ColumnLetter(i) == ColumnLetter(j)
    ensures i == j
  {
    LetterIndexRoundTrip(i);
    LetterIndexRoundTrip(j);
  }

  /** The first names, and the first two-letter one. */
  lemma ColumnLetterExamples()
    ensures ColumnLetter(0) == "A" && ColumnLetter(1) == "B"
    ensures ColumnLetter(25) == "Z" && ColumnLetter(26) == "AA"
  {
  }

  // ---------------------------------------------------------------------------
  // Spreadsheet IDs

  const IdMarker: string := "/spreadsheets/d/"

  /** `_extract_spreadsheet_id`: text not starting with `http` is taken to be
      an ID already; a URL must contain `/spreadsheets/d/`, and the ID runs
      from there to the next `/`, or else the next `#`, or else the end. */
  function ExtractSpreadsheetId(urlOrId: string): (r: Result<string, string>)
    ensures !StartsWith(urlOrId, "http") ==> r == Success(urlOrId)
    ensures r.Failure? <==> StartsWith(urlOrId, "http") && !Contains(urlOrId, IdMarker)
    ensures r.Failure? ==> r.error == "Invalid Google Sheets URL format"
  {
    if StartsWith(urlOrId, "http") then
      if Contains(urlOrId, IdMarker) then
        var start := Find(urlOrId, IdMarker) + |IdMarker|;
        Success(urlOrId[start..IdEnd(urlOrId, start)])
      else Failure("Invalid Google Sheets URL format")
    else Success(urlOrId)
  }

  /** Where an ID starting at `start` ends: the next `/`, or else the next
      `#`, or else the end of the text. */
  function IdEnd(url: string, start: nat): (end: nat)
    requires start <= |url|
    ensures start <= end <= |url|
  {
    var slash := FindFrom(url, "/", start);
    if slash != -1 then slash
    else
      var hash := FindFrom(url, "#", start);
      if hash != -1 then hash else |url|
  }

  /** No `/` lies between `start` and the end `IdEnd` finds, which is the end
      of the text or a `/` or `#`. */
  lemma IdEndSpec(url: string, start: nat)
    requires start <= |url|
    ensures forall k :: start <= k < IdEnd(url, start) ==> url[k] != '/'
    ensures IdEnd(url, start) == |url| || url[IdEnd(url, start)] in {'/', '#'}
    ensures (exists k :: start <= k < |url| && url[k] == '/') ==> IdEnd(url, start) < |url| && url[IdEnd(url, start)] == '/'
    ensures (forall k :: start <= k < |url| ==> url[k] != '/') ==> forall k :: start <= k < IdEnd(url, start) ==> url[k] != '#'
  {
    var end := IdEnd(url, start);
    forall k | start <= k < end
      ensures url[k] != '/'
    {
      FindFromFirst(url, "/", start, k);
      OccursAtChar(url, '/', k);
    }
    if FindFrom(url, "/", start) != -1 {
      OccursAtChar(url, '/', end);
    } else {
      forall k | start <= k < |url|
        ensures url[k] != '/'
      {
        OccursAtChar(url, '/', k);
        if url[k] == '/' {
          FindFromFinds(url, "/", start, k);
        }
      }
      forall k | start <= k < end
        ensures url[k] != '#'
      {
        FindFromFirst(url, "#", start, k);
        OccursAtChar(url, '#', k);
      }
      if end < |url| {
        OccursAtChar(url, '#', end);
      }
    }
  }

  /** The ID taken from a URL is the text right after the first
      `/spreadsheets/d/`, up to a `/`, a `#` or the end, and holds no `/`. */
  lemma ExtractFromUrl(url: string)
    requires StartsWith(url, "http") && Contains(url, IdMarker)
    ensures var start := Find(url, IdMarker) + |IdMarker|;
            exists end :: start <= end <= |url|
                          && ExtractSpreadsheetId(url) == Success(url[start..end])
                          && (end == |url| || url[end] in {'/', '#'})
    ensures '/' !in ExtractSpreadsheetId(url).value
    ensures var start := Find(url, IdMarker) + |IdMarker|;
            var end := start + |ExtractSpreadsheetId(url).value|;
            && ((exists k :: start <= k < |url| && url[k] == '/') ==> end < |url| && url[end] == '/')
            && ((forall k :: start <= k < |url| ==> url[k] != '/') ==> '#' !in ExtractSpreadsheetId(url).value)
  {
    var start := Find(url, IdMarker) + |IdMarker|;
    var end := IdEnd(url, start);
    IdEndSpec(url, start);
    var id := url[start..end];
    forall k | 0 <= k < |id|
      ensures id[k] != '/'
      ensures (forall j :: start <= j < |url| ==> url[j] != '/') ==> id[k] != '#'
    {
      assert id[k] == url[start + k];
    }
  }

  /** A `#` before the next `/` stays in the ID. */
  lemma HashBeforeSlash()
    ensures ExtractSpreadsheetId("https://x" + IdMarker + "A#B" + "/C") == Success("A#B")
  {
    UrlIdRoundTrip("https://x", "A#B", "/C");
  }

  /** A link made of a prefix, the marker, an ID and a tail gives the ID back,
      provided the prefix holds no `/s` that could start an earlier marker and
      the tail is empty, starts with `/`, or starts with `#` and holds no
      `/`; an ID may hold `#` when the tail starts with `/`. */
  lemma UrlIdRoundTrip(prefix: string, id: string, tail: string)
    requires StartsWith(prefix, "http")
    requires forall i :: 0 <= i < |prefix| - 1 ==> !(prefix[i] == '/' && prefix[i + 1] == 's')
    requires '/' !in id && ('#' !in id || (tail != [] && tail[0] == '/'))
    requires tail == [] || tail[0] == '/' || (tail[0] == '#' && '/' !in tail)
    ensures ExtractSpreadsheetId(prefix + IdMarker + id + tail) == Success(id)
  {
    var url := prefix + IdMarker + id + tail;
    assert url == prefix + (IdMarker + id + tail);
    assert url[..4] == prefix[..4];
    FirstMarker(prefix, id + tail);
    assert url == prefix + IdMarker + (id + tail);
    ContainsMiddle(prefix, IdMarker, id + tail);
    var start := |prefix| + |IdMarker|;
    assert url[start..] == id + tail;
    assert url[start..start + |id|] == id;
    IdAtEnd(url, start, id, tail);
    assert StartsWith(url, "http");
    ExtractAt(url, start, id);
  }

  /** A link whose first marker is followed by an ID that ends where
      `IdEnd` says gives that ID. */
  lemma ExtractAt(url: string, start: nat, id: string)
    requires StartsWith(url, "http") && Contains(url, IdMarker)
    requires Find(url, IdMarker) + |IdMarker| == start && start + |id| <= |url|
    requires IdEnd(url, start) == start + |id| && url[start..start + |id|] == id
    ensures ExtractSpreadsheetId(url) == Success(id)
  {
  }

  /** The marker cannot start where the text does not read `/s`. */
  lemma NoMarkerAt(url: string, i: nat)
    requires i + 1 < |url| && !(url[i] == '/' && url[i + 1] == 's')
    ensures !OccursAt(url, IdMarker, i)
  {
    assert IdMarker[0] == '/' && IdMarker[1] == 's';
    if OccursAt(url, IdMarker, i) {
      OccursAtIndex(url, IdMarker, i, i);
      OccursAtIndex(url, IdMarker, i, i + 1);
    }
  }

  /** The marker after a prefix without `/s` is the first one. */
  lemma FirstMarker(prefix: string, rest: string)
    requires forall i :: 0 <= i < |prefix| - 1 ==> !(prefix[i] == '/' && prefix[i + 1] == 's')
    ensures Find(prefix + IdMarker + rest, IdMarker) == |prefix|
  {
    var url := prefix + IdMarker + rest;
    ContainsMiddle(prefix, IdMarker, rest);
    forall i | 0 <= i < |prefix|
      ensures !OccursAt(url, IdMarker, i)
    {
      assert url[i] == prefix[i];
      if i + 1 < |prefix| {
        assert url[i + 1] == prefix[i + 1];
      } else {
        assert url[i + 1] == IdMarker[0] == '/';
      }
      NoMarkerAt(url, i);
    }
    FindFromFinds(url, IdMarker, 0, |prefix|);
  }

  /** Past an ID free of `/` and `#`, the end is where the tail starts. */
  lemma IdAtEnd(url: string, start: nat, id: string, tail: string)
    requires start <= |url| && url[start..] == id + tail
    requires '/' !in id && ('#' !in id || (tail != [] && tail[0] == '/'))
    requires tail == [] || tail[0] == '/' || (tail[0] == '#' && '/' !in tail)
    ensures IdEnd(url, start) == start + |id|
  {
    var end := start + |id|;
    forall k | start <= k < |url|
      ensures url[k] == (id + tail)[k - start]
    {
      assert url[k] == url[start..][k - start];
    }
    var slash := FindFrom(url, "/", start);
    if slash != -1 {
      OccursAtChar(url, '/', slash);
    }
    if tail != [] && tail[0] == '/' {
      OccursAtChar(url, '/', end);
      FindFromFinds(url, "/", start, end);
    } else {
      var hash := FindFrom(url, "#", start);
      if hash != -1 {
        OccursAtChar(url, '#', hash);
      }
      if tail != [] {
        OccursAtChar(url, '#', end);
        FindFromFinds(url, "#", start, end);
      }
    }
  }

  /** The ID of a link as the browser shows it. */
  lemma DocsLinkId(id: string)
    requires '/' !in id && '#' !in id
    ensures ExtractSpreadsheetId("https://docs.google.com" + IdMarker + id + "/edit") == Success(id)
  {
    UrlIdRoundTrip("https://docs.google.com", id, "/edit");
  }

  // ---------------------------------------------------------------------------
  // Choosing the sheet and the column

  /** The sheet a read uses, given the titles of the spreadsheet's sheets in
      order: the first one titled `sheetName` when a non-empty name is given,
      else the first sheet. */
  function SelectSheet(titles: seq<string>, sheetName: Option<string>): (r: Result<nat, string>)
    ensures titles == [] ==> r == Failure("No sheets found in the spreadsheet")
    ensures r.Success? ==> r.value < |titles|
    ensures titles != [] && (sheetName == None || sheetName == Some("")) ==> r == Success(0)
    ensures titles != [] && sheetName.Some? && sheetName.value != "" ==>
              && (r.Success? <==> sheetName.value in titles)
              && (r.Success? ==> titles[r.value] == sheetName.value
                                 && forall j :: 0 <= j < r.value ==> titles[j] != sheetName.value)
              && (r.Failure? ==> r.error == "Sheet '" + sheetName.value + "' not found. Available sheets: " + QuotedList(titles))
  {
    if titles == [] then Failure("No sheets found in the spreadsheet")
    else if sheetName.Some? && sheetName.value != "" then
      var name := sheetName.value;
      if name in titles then Success(IndexOf(titles, name) as nat)
      else Failure("Sheet '" + name + "' not found. Available sheets: " + QuotedList(titles))
    else Success(0)
  }

  /** The column to read: a name found among the headers stands for the
      column of its first occurrence; anything else is taken to be a column
      name already, upper-cased. */
  function ResolveColumn(headers: seq<string>, columnName: string): (letters: string)
    ensures columnName in headers ==>
              && letters != []
              && AllLetters(letters)
              && ColumnIndex(letters) < |headers|
              && headers[ColumnIndex(letters)] == columnName
              && forall j :: 0 <= j < ColumnIndex(letters) ==> headers[j] != columnName
    ensures columnName !in headers ==> letters == Upper(columnName)
  {
    if columnName in headers then
      var i := IndexOf(headers, columnName);
      LetterIndexRoundTrip(i);
      ColumnLetter(i)
    else Upper(columnName)
  }

  // ---------------------------------------------------------------------------
  // Cleaning the cells read

  /** What one row contributes: its first cell, trimmed, unless the row is
      empty or the trimmed cell is. */
  function RowValue(row: seq<string>): seq<string> {
    if row == [] || Strip(row[0]) == "" then [] else [Strip(row[0])]
  }

  /** The values of a column, in row order. */
  function Cells(rows: seq<seq<string>>): seq<string>
    decreases |rows|
  {
    if rows == [] then [] else RowValue(rows[0]) + Cells(rows[1..])
  }

  /** The cells of consecutive rows are the cells of each, in order. */
  lemma {:induction false} CellsAppend(a: seq<seq<string>>, b: seq<seq<string>>)
    ensures Cells(a + b) == Cells(a) + Cells(b)
    decreases |a|
  {
    if a == [] {
      assert a + b == b;
    } else {
      assert (a + b)[0] == a[0] && (a + b)[1..] == a[1..] + b;
      CellsAppend(a[1..], b);
    }
  }

  /** Every value kept is non-empty and trimmed, and is the first cell of some
      row. */
  lemma {:induction false} CellsClean(rows: seq<seq<string>>)
    ensures forall k :: 0 <= k < |Cells(rows)| ==>
              Cells(rows)[k] != "" && Strip(Cells(rows)[k]) == Cells(rows)[k]
              && exists i :: 0 <= i < |rows| && rows[i] != [] && Cells(rows)[k] == Strip(rows[i][0])
    decreases |rows|
  {
    if rows != [] {
      CellsClean(rows[1..]);
      var head, tail := RowValue(rows[0]), Cells(rows[1..]);
      forall k | 0 <= k < |Cells(rows)|
        ensures Cells(rows)[k] != "" && Strip(Cells(rows)[k]) == Cells(rows)[k]
        ensures exists i :: 0 <= i < |rows| && rows[i] != [] && Cells(rows)[k] == Strip(rows[i][0])
      {
        if k < |head| {
          StripCharsKeepsClean(Strip(rows[0][0]), Whitespace);
          assert Cells(rows)[k] == Strip(rows[0][0]);
        } else {
          assert Cells(rows)[k] == tail[k - |head|];
          var i :| 0 <= i < |rows[1..]| && rows[1..][i] != [] && tail[k - |head|] == Strip(rows[1..][i][0]);
          assert rows[1..][i] == rows[i + 1];
        }
      }
    }
  }

  /** The filtering loop of `read_sheet_column`: the first row is skipped
      when the sheet has a header row. */
  method ColumnValues(rows: seq<seq<string>>, skipHeader: bool) returns (values: seq<string>)
    ensures values == Cells(if skipHeader && rows != [] then rows[1..] else rows)
  {
    var body := if skipHeader && rows != [] then rows[1..] else rows;
    values := [];
    var i := 0;
    while i < |body|
      invariant 0 <= i <= |body|
      invariant values == Cells(body[..i])
    {
      CellsAppend(body[..i], [body[i]]);
      assert body[..i + 1] == body[..i] + [body[i]];
      assert Cells([body[i]]) == RowValue(body[i]) + Cells([]);
      var row := body[i];
      if row != [] {
        var value := Strip(row[0]);
        if value != "" {
          values := values + [value];
        }
      }
      i := i + 1;
    }
    assert body[..i] == body;
  }

  // ---------------------------------------------------------------------------
  // Reading a column

  /** What the Sheets service answers: the titles of the sheets of a
      spreadsheet, in order, and the rows of a range of one of them. */
  datatype SheetsService = SheetsService(
    sheetTitles: string -> seq<string>,
    values: (string, string) -> seq<seq<string>>)

  const ReadErrorPrefix: string := "Unexpected error reading sheet: "

  /** `read_sheet_column` once authenticated: the ID, the sheet, the header
      row, the column, and the cleaned values of that column; every error
      raised on the way is reported under one prefix. */
  function ReadSheetColumn(service: SheetsService, urlOrId: string, columnName: string, sheetName: Option<string>)
    : (r: Result<seq<string>, string>)
    ensures r.Failure? ==> StartsWith(r.error, ReadErrorPrefix)
    ensures ExtractSpreadsheetId(urlOrId).Failure? ==> r == Failure(ReadErrorPrefix + ExtractSpreadsheetId(urlOrId).error)
    ensures ExtractSpreadsheetId(urlOrId).Success? ==>
              (r.Success? <==> SelectSheet(service.sheetTitles(ExtractSpreadsheetId(urlOrId).value), sheetName).Success?)
  {
    match ExtractSpreadsheetId(urlOrId)
    case Failure(e) => StartsWithAppend(ReadErrorPrefix, e); Failure(ReadErrorPrefix + e)
    case Success(id) =>
      var titles := service.sheetTitles(id);
      match SelectSheet(titles, sheetName)
      case Failure(e) => StartsWithAppend(ReadErrorPrefix, e); Failure(ReadErrorPrefix + e)
      case Success(index) =>
        var title := titles[index];
        var headerRows := service.values(id, "'" + title + "'!1:1");
        var headers := if headerRows != [] then headerRows[0] else [];
        var letters := ResolveColumn(headers, columnName);
        var rows := service.values(id, "'" + title + "'!" + letters + ":" + letters);
        Success(Cells(if headers != [] && rows != [] then rows[1..] else rows))
  }

  /** Every value read is non-empty and trimmed. */
  lemma ReadValuesClean(service: SheetsService, urlOrId: string, columnName: string, sheetName: Option<string>)
    requires ReadSheetColumn(service, urlOrId, columnName, sheetName).Success?
    ensures forall k :: 0 <= k < |ReadSheetColumn(service, urlOrId, columnName, sheetName).value| ==>
              var v := ReadSheetColumn(service, urlOrId, columnName, sheetName).value[k];
              v != "" && Strip(v) == v
  {
    var id := ExtractSpreadsheetId(urlOrId).value;
    var titles := service.sheetTitles(id);
    var title := titles[SelectSheet(titles, sheetName).value];
    var headerRows := service.values(id, "'" + title + "'!1:1");
    var headers := if headerRows != [] then headerRows[0] else [];
    var letters := ResolveColumn(headers, columnName);
    var rows := service.values(id, "'" + title + "'!" + letters + ":" + letters);
    CellsClean(if headers != [] && rows != [] then rows[1..] else rows);
  }
}
