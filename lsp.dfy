/** The language-server protocol values the code-action providers read and build: ranges,
    diagnostics, text edits, commands and code actions, plus the open document as its
    lines. */
module Lsp {
  import opened Common

  /** A zero-based line and character offset. */
  datatype Position = Position(line: nat, character: nat)

  datatype Range = Range(start: Position, end: Position)

  /** A diagnostic's `code`: absent, a number or a string. */
  datatype Code = NoCode | NumCode(n: int) | StrCode(s: string)

  /** JavaScript truthiness of a code: `undefined`, `0` and `""` are falsy. */
  predicate CodeTruthy(c: Code) {
    match c
    case NoCode => false
    case NumCode(n) => n != 0
    case StrCode(s) => s != ""
  }

  /** `${code}` in a template literal. */
  function CodeText(c: Code): (r: string)
    ensures CodeTruthy(c) ==> r != ""
  {
    match c
    case NoCode => "undefined"
    case NumCode(n) => IntToString(n)
    case StrCode(s) => s
  }

  /** The fields of a diagnostic the providers look at. An absent `source` is `""`;
      `href` is `codeDescription.href`, `None` when either level is absent. */
  datatype Diagnostic = Diagnostic(source: string, message: string, code: Code, href: Option<string>)

  /** `TextEdit.replace(range, newText)`. */
  datatype TextEdit = TextEdit(range: Range, newText: string)

  /** A workspace edit: the text edits to apply, per document uri. */
  datatype WorkspaceEdit = WorkspaceEdit(changes: map<string, seq<TextEdit>>)

  datatype Command = Command(title: string, command: string, arguments: seq<string>)

  datatype CodeAction = CodeAction(title: string, edit: Option<WorkspaceEdit>, command: Option<Command>)

  /** An open document: its uri and its lines. */
  datatype Document = Document(uri: string, lines: seq<string>)

  /** `doc.getline(n)`: the text of line `n`, empty past the end of the document. */
  function GetLine(doc: Document, n: nat): (r: string)
    ensures n < |doc.lines| ==> r == doc.lines[n]
    ensures n >= |doc.lines| ==> r == ""
  {
    if n < |doc.lines| then doc.lines[n] else ""
  }

  /** `lineRange`: the range selects one whole line including its line break, or starts at
      the beginning of a line and ends on that line. */
  predicate LineRange(r: Range) {
    (r.start.line + 1 == r.end.line && r.start.character == 0 && r.end.character == 0) ||
    (r.start.line == r.end.line && r.start.character == 0)
  }

  /** A line range starts at column 0 and ends on its own line or at the start of the next;
      every range that ends at the start of the next line is one. */
  lemma LineRangeShape(r: Range)
    ensures LineRange(r) ==> r.start.character == 0 && (r.end.line == r.start.line || r.end.line == r.start.line + 1)
    ensures LineRange(r) && r.end.line == r.start.line + 1 ==> r.end.character == 0
    ensures r.start == Position(r.start.line, 0) && r.end == Position(r.start.line + 1, 0) ==> LineRange(r)
    ensures r.start.character != 0 ==> !LineRange(r)
  {
  }

  /** The condition every provider checks before it looks at diagnostics: a line range, at
      least one diagnostic, and a non-empty current line. */
  predicate ProvidesOnLine(doc: Document, range: Range, diagnostics: seq<Diagnostic>) {
    LineRange(range) && |diagnostics| > 0 && GetLine(doc, range.start.line) != ""
  }
}
