/** The input validators of utils/validators.py that do not touch the file
    system. Each returns `Success(true)` or fails with the message of the
    `ValueError` it raises; none returns false. */
module Validators {
  import opened Wrappers
  import opened Text
  import opened Prompts
  import opened Sheets

  // ---------------------------------------------------------------------------
  // Column names and prompt types

  /** `validate_column_name`: an empty name, then a name of whitespace only,
      is refused. */
  function ValidateColumnName(columnName: string): (r: Result<bool, string>)
    ensures r.Success? <==> Strip(columnName) != ""
    ensures r.Success? ==> r.value
    ensures columnName == "" ==> r == Failure("Column name cannot be empty")
    ensures columnName != "" && Strip(columnName) == "" ==> r == Failure("Column name cannot be only whitespace")
  {
    if columnName == "" then Failure("Column name cannot be empty")
    else if Strip(columnName) == "" then Failure("Column name cannot be only whitespace")
    else Success(true)
  }

  /** A name of whitespace only is refused, and so is the empty name. */
  lemma BlankColumnNames(pad: string)
    requires forall i :: 0 <= i < |pad| ==> pad[i] in Whitespace
    ensures ValidateColumnName(pad).Failure?
  {
    var i, j := StripCharsSlice(pad, Whitespace);
  }

  /** `validate_prompt_type`: the type must be one of those offered. */
  function ValidatePromptType(promptType: string, availableTypes: seq<string>): (r: Result<bool, string>)
    ensures r.Success? <==> promptType in availableTypes
    ensures r.Success? ==> r.value
    ensures r.Failure? ==> StartsWith(r.error, "Invalid prompt type: " + promptType + ". Available types: ")
    ensures r.Failure? ==> r.error == "Invalid prompt type: " + promptType + ". Available types: " + Join(", ", availableTypes)
  {
    var lead := "Invalid prompt type: " + promptType + ". Available types: ";
    if promptType in availableTypes then Success(true)
    else
      StartsWithAppend(lead, Join(", ", availableTypes));
      Failure(lead + Join(", ", availableTypes))
  }

  /** Checked against the built-in types, a prompt type passes exactly when
      the template registry can build its prompt. */
  lemma PromptTypeAgreesWithRegistry(promptType: string, keyword: string)
    ensures ValidatePromptType(promptType, GetAvailableTypes()).Success?
            <==> GetPrompt(BuiltinTemplates(), promptType, keyword).Success?
  {
    BuiltinTypes(promptType, keyword);
  }

  // ---------------------------------------------------------------------------
  // Spreadsheet links and IDs

  predicate IdChar(c: char) {
    'a' <= c <= 'z' || 'A' <= c <= 'Z' || '0' <= c <= '9' || c == '_' || c == '-'
  }

  /** Non-empty and made of letters, digits, `_` and `-` only. */
  predicate IsIdText(s: string) {
    s != [] && forall i :: 0 <= i < |s| ==> IdChar(s[i])
  }

  /** What `re.match(r'^[a-zA-Z0-9_-]+$', s)` accepts: Python's `$` also
      matches just before a final newline, so an ID followed by one `\n`
      passes too. */
  predicate IdPatternMatches(s: string) {
    IsIdText(s) || (|s| >= 2 && s[|s| - 1] == '\n' && IsIdText(s[..|s| - 1]))
  }

  /** The domains a link may point at. */
  const SheetsDomains: set<string> := {"docs.google.com", "sheets.google.com"}

  /** The link checks, once the text is known to start with `http`: the
      domain (`netloc`, the authority of the link as in section 3.2 of
      RFC 3986, given here rather than parsed), then the path marker. */
  function ValidateSheetsLink(url: string, netloc: string): (r: Result<bool, string>)
    ensures r.Success? <==> netloc in SheetsDomains && Contains(url, "/spreadsheets/")
    ensures r.Success? ==> r.value
    ensures netloc !in SheetsDomains ==> r == Failure("Invalid Google Sheets domain: " + netloc)
    ensures netloc in SheetsDomains && !Contains(url, "/spreadsheets/") ==>
              r == Failure("URL does not appear to be a Google Sheets URL")
  {
    if netloc !in SheetsDomains then Failure("Invalid Google Sheets domain: " + netloc)
    else if !Contains(url, "/spreadsheets/") then Failure("URL does not appear to be a Google Sheets URL")
    else Success(true)
  }

  /** `validate_google_sheets_url` as written: the ID check is the regular
      expression above. */
  function ValidateSheetsUrlAsWritten(url: string, netloc: string): (r: Result<bool, string>)
    ensures !StartsWith(url, "http") ==> (r.Success? <==> IdPatternMatches(url))
    ensures StartsWith(url, "http") ==> r == ValidateSheetsLink(url, netloc)
  {
    if !StartsWith(url, "http") then
      if IdPatternMatches(url) then Success(true) else Failure("Invalid spreadsheet ID format: " + url)
    else ValidateSheetsLink(url, netloc)
  }

  /** The regular expression lets an ID with a trailing newline through, and
      the ID is then used with the newline in it. */
  lemma TrailingNewlineAccepted(netloc: string)
    ensures ValidateSheetsUrlAsWritten("abc\n", netloc).Success?
    ensures !IsIdText("abc\n")
    ensures ExtractSpreadsheetId("abc\n") == Success("abc\n")
  {
    assert "abc\n"[..3] == "abc";
    assert "abc\n"[3] == '\n';
    FirstCharMismatch("abc\n", "http");
  }

  /** `validate_google_sheets_url` with the ID check its comment describes:
      the whole text must be letters, digits, `_` and `-`. */
  function ValidateSheetsUrl(url: string, netloc: string): (r: Result<bool, string>)
    ensures !StartsWith(url, "http") ==> (r.Success? <==> IsIdText(url))
    ensures !StartsWith(url, "http") && r.Failure? ==> r.error == "Invalid spreadsheet ID format: " + url
    ensures StartsWith(url, "http") ==> r == ValidateSheetsLink(url, netloc)
    ensures r.Success? ==> r.value
  {
    if !StartsWith(url, "http") then
      if IsIdText(url) then Success(true) else Failure("Invalid spreadsheet ID format: " + url)
    else ValidateSheetsLink(url, netloc)
  }

  /** Every ID the check accepts is read as an ID, unchanged, and holds no
      `/` or `#`. */
  lemma AcceptedIdUnchanged(url: string, netloc: string)
    requires ValidateSheetsUrl(url, netloc).Success? && !StartsWith(url, "http")
    ensures ExtractSpreadsheetId(url) == Success(url)
    ensures '/' !in url && '#' !in url
  {
  }

  /** The corrected check accepts no more than the regular expression, and
      differs from it only on texts ending in a newline. */
  lemma CorrectedIdCheck(url: string, netloc: string)
    ensures ValidateSheetsUrl(url, netloc).Success? ==> ValidateSheetsUrlAsWritten(url, netloc).Success?
    ensures ValidateSheetsUrlAsWritten(url, netloc).Success? && !ValidateSheetsUrl(url, netloc).Success? ==>
              url != [] && url[|url| - 1] == '\n'
  {
  }

  /** An accepted link whose path has `/spreadsheets/d/` yields an ID with no
      `/`. */
  lemma AcceptedLinkId(url: string, netloc: string)
    requires ValidateSheetsUrl(url, netloc).Success? && StartsWith(url, "http") && Contains(url, IdMarker)
    ensures ExtractSpreadsheetId(url).Success? && '/' !in ExtractSpreadsheetId(url).value
  {
    ExtractFromUrl(url);
  }

  // ---------------------------------------------------------------------------
  // Credentials

  /** `validate_credentials_file`: no path, or an empty one, is accepted at
      once; otherwise the file-system checks decide, given here as
      `fileCheck` (the message of the first check that fails, if any). */
  function ValidateCredentialsFile(path: Option<string>, fileCheck: string -> Option<string>): (r: Result<bool, string>)
    ensures path == None || path == Some("") ==> r == Success(true)
    ensures path.Some? && path.value != "" ==> (r.Success? <==> fileCheck(path.value).None?)
    ensures r.Success? ==> r.value
  {
    match path
    case None => Success(true)
    case Some(p) =>
      if p == "" then Success(true)
      else match fileCheck(p)
        case None => Success(true)
        case Some(message) => Failure(message)
  }
}
