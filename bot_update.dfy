/**
 * `BotUpdate.onUploadLeads` (src/bot/bot.update.ts): which upload handler a received
 * document goes to, by the suffix of its file name.
 *
 * The condition of the spreadsheet branch reads `fileName && A || B`, which JavaScript groups
 * as `(fileName && A) || B`: when the document has no file name, `B` calls `toLowerCase` on
 * `undefined` and the handler throws. `RouteAsWritten` keeps that grouping; `Route` is the
 * evidently intended `fileName && (A || B)`.
 */
module BotUpdate {
  import opened Wrappers
  import opened Strings

  datatype Document = Document(fileName: Option<string>)

  datatype Message = Message(document: Option<Document>)

  datatype Handler = UploadLeads | UploadLeadsTxt

  /** The handlers called, in order, or a thrown TypeError. */
  datatype Dispatch = Handled(calls: seq<Handler>) | Threw

  predicate IsSpreadsheetName(name: string) {
    EndsWith(ToLower(name), ".xml") || EndsWith(ToLower(name), ".xlsx")
  }

  predicate IsTextName(name: string) { EndsWith(ToLower(name), ".txt") }

  /** `onUploadLeads` as written. */
  function RouteAsWritten(message: Option<Message>): (d: Dispatch)
    ensures d == Threw <==> message.Some? && message.value.document == Some(Document(None))
  {
    if message.None? || message.value.document.None? then Handled([])
    else
      match message.value.document.value.fileName
      case None => Threw   // `(undefined && ...) || undefined.toLowerCase()`
      case Some(fileName) =>
        var first := if (fileName != [] && EndsWith(ToLower(fileName), ".xml")) || EndsWith(ToLower(fileName), ".xlsx")
                     then [UploadLeads] else [];
        var second := if fileName != [] && EndsWith(ToLower(fileName), ".txt") then [UploadLeadsTxt] else [];
        Handled(first + second)
  }

  /** A document without a file name makes the handler throw instead of being ignored. */
  lemma MissingFileNameThrows()
    ensures RouteAsWritten(Some(Message(Some(Document(None))))) == Threw
    ensures Route(Some(Message(Some(Document(None))))) == Handled([])
  {
  }

  /** The corrected handler: the file-name test guards both suffix tests. */
  function Route(message: Option<Message>): (d: Dispatch)
    ensures d.Handled? && |d.calls| <= 1
    ensures UploadLeads in d.calls <==>
              message.Some? && message.value.document.Some? && message.value.document.value.fileName.Some?
              && IsSpreadsheetName(message.value.document.value.fileName.value)
    ensures UploadLeadsTxt in d.calls <==>
              message.Some? && message.value.document.Some? && message.value.document.value.fileName.Some?
              && IsTextName(message.value.document.value.fileName.value)
  {
    if message.None? || message.value.document.None? then Handled([])
    else
      match message.value.document.value.fileName
      case None => Handled([])
      case Some(fileName) =>
        SuffixesDisjoint(fileName);
        EmptyNameMatchesNothing(fileName);
        var first := if fileName != [] && IsSpreadsheetName(fileName) then [UploadLeads] else [];
        var second := if fileName != [] && IsTextName(fileName) then [UploadLeadsTxt] else [];
        Handled(first + second)
  }

  /** A string that ends with a non-empty suffix ends with its last character. */
  lemma EndsWithLast(s: string, p: string)
    ensures EndsWith(s, p) && p != [] ==> s[|s| - 1] == p[|p| - 1]
  {
    if EndsWith(s, p) && p != [] {
      assert s[|s| - |p|..][|p| - 1] == s[|s| - 1];
    }
  }

  /** No name is both a spreadsheet and a text file: the suffixes end in different letters. */
  lemma SuffixesDisjoint(name: string)
    ensures !(IsSpreadsheetName(name) && IsTextName(name))
  {
    var lower := ToLower(name);
    EndsWithLast(lower, ".txt");
    EndsWithLast(lower, ".xml");
    EndsWithLast(lower, ".xlsx");
  }

  /** The empty name, which JavaScript treats as false, has none of the suffixes anyway. */
  lemma EmptyNameMatchesNothing(name: string)
    ensures name == [] ==> !IsSpreadsheetName(name) && !IsTextName(name)
  {
  }

  /** Whenever the document has a file name, the handler as written and the corrected one
      call the same handlers. */
  lemma AsWrittenAgreesWhenNamed(message: Option<Message>)
    requires message.Some? && message.value.document.Some? ==> message.value.document.value.fileName.Some?
    ensures RouteAsWritten(message) == Route(message)
  {
    if message.Some? && message.value.document.Some? {
      var fileName := message.value.document.value.fileName.value;
      EmptyNameMatchesNothing(fileName);
    }
  }

  /** The suffix test ignores case. */
  lemma UpperCaseSpreadsheetRoutes()
    ensures Route(Some(Message(Some(Document(Some("LEADS.XLSX")))))) == Handled([UploadLeads])
  {
    UpperCaseSpreadsheetLowered();
    var lower := ToLower("LEADS.XLSX");
    assert lower[|lower| - 5..] == ".xlsx";
    SuffixesDisjoint("LEADS.XLSX");
  }

  /** The lowering step of that example, on its own. */
  lemma UpperCaseSpreadsheetLowered()
    ensures ToLower("LEADS.XLSX") == "leads.xlsx"
  {
  }

  /** Messages without a document are ignored by both versions. */
  lemma NoDocumentIgnored(message: Option<Message>)
    requires message.None? || message.value.document.None?
    ensures RouteAsWritten(message) == Handled([]) && Route(message) == Handled([])
  {
  }
}
