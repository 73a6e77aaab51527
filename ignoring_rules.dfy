/** The "ignore this rule on this line" code actions for `ansible-lint` diagnostics
    (src/actions/ignoringRules.ts): one action per rule id, each appending the id to a
    `# noqa` comment on the current line. The `# noqa` text and the action are shared with
    the older provider of src/action.ts. */
module IgnoringRules {
  import opened Common
  import opened Lsp

  /** A diagnostic `ansible-lint` reported. */
  predicate FromAnsibleLint(d: Diagnostic) {
    d.source == "ansible-lint"
  }

  /** A diagnostic whose rule id is collected: from `ansible-lint`, with a truthy code. */
  predicate HasRuleId(d: Diagnostic) {
    FromAnsibleLint(d) && CodeTruthy(d.code)
  }

  /** The rule ids of `ds`, in diagnostic order. */
  function RuleIds(ds: seq<Diagnostic>): seq<Code>
    decreases |ds|
  {
    if ds == [] then []
    else
      var last := ds[|ds| - 1];
      RuleIds(ds[..|ds| - 1]) + (if HasRuleId(last) then [last.code] else [])
  }

  /** An id is collected exactly when some `ansible-lint` diagnostic carries it as a truthy
      code; so no other source ever contributes one. */
  lemma {:induction false} RuleIdsMembers(ds: seq<Diagnostic>, id: Code)
    ensures id in RuleIds(ds) <==> exists i :: 0 <= i < |ds| && HasRuleId(ds[i]) && ds[i].code == id
    decreases |ds|
  {
    if ds != [] {
      var init := ds[..|ds| - 1];
      RuleIdsMembers(init, id);
      if exists i :: 0 <= i < |init| && HasRuleId(init[i]) && init[i].code == id {
        var i :| 0 <= i < |init| && HasRuleId(init[i]) && init[i].code == id;
        assert ds[i] == init[i];
      }
      if exists i :: 0 <= i < |ds| && HasRuleId(ds[i]) && ds[i].code == id {
        var i :| 0 <= i < |ds| && HasRuleId(ds[i]) && ds[i].code == id;
        if i < |init| {
          assert init[i] == ds[i];
        }
      }
    }
  }

  /** Collection keeps diagnostic order: the ids of a concatenation are the ids of the first
      part followed by those of the second. */
  lemma {:induction false} RuleIdsAppend(a: seq<Diagnostic>, b: seq<Diagnostic>)
    ensures RuleIds(a + b) == RuleIds(a) + RuleIds(b)
    decreases |b|
  {
    if b == [] {
      assert a + b == a;
    } else {
      var init := b[..|b| - 1];
      assert (a + b)[..|a + b| - 1] == a + init;
      RuleIdsAppend(a, init);
    }
  }

  /** What a concatenation keeps of its two parts. */
  lemma ConcatParts(x: string, y: string)
    ensures IsPrefix(x, x + y) && (x + y)[|x + y| - |y|..] == y
    ensures '\n' in x + y <==> '\n' in x || '\n' in y
  {
    assert (x + y)[..|x|] == x;
    assert (x + y)[|x + y| - |y|..] == y;
    assert forall c :: c in x + y <==> c in x || c in y;
  }

  /** The line after the edit: the id joins an existing `# noqa` comment, or a new
      `# noqa` comment is appended; a line break follows when the range ends on the next
      line. */
  function NoqaText(line: string, id: string, toNextLine: bool): string {
    var eol := if toNextLine then "\n" else "";
    if Contains(line, "# noqa") then line + " " + id + eol
    else line + " # noqa " + id + eol
  }

  /** The edited line keeps the current line as its start, always holds a `# noqa`
      comment, ends with the id, and ends with a line break exactly when the range reaches
      into the next line; when the line already had a `# noqa` comment, only a space and
      the id (and the line break) are added, so no second comment appears. */
  lemma NoqaTextShape(line: string, id: string, toNextLine: bool)
    ensures var r := NoqaText(line, id, toNextLine);
      IsPrefix(line, r) && Contains(r, "# noqa")
    ensures var r := NoqaText(line, id, toNextLine);
      toNextLine ==> |r| >= |id| + 2 && r[|r| - |id| - 2..] == " " + id + "\n"
    ensures var r := NoqaText(line, id, toNextLine);
      !toNextLine ==> |r| >= |id| + 1 && r[|r| - |id| - 1..] == " " + id
    ensures '\n' !in line && '\n' !in id ==> ('\n' in NoqaText(line, id, toNextLine) <==> toNextLine)
    ensures Contains(line, "# noqa") ==>
      |NoqaText(line, id, toNextLine)| == |line| + 1 + |id| + (if toNextLine then 1 else 0)
    ensures !Contains(line, "# noqa") ==> NoqaText(line, id, toNextLine)[|line|..|line| + 8] == " # noqa "
  {
    var eol := if toNextLine then "\n" else "";
    if Contains(line, "# noqa") {
      JoinedComment(line, id, eol);
    } else {
      AppendedComment(line, id, eol);
    }
  }

  /** Adding ` id` and `eol` to a line that holds a `# noqa` comment. */
  lemma JoinedComment(line: string, id: string, eol: string)
    requires Contains(line, "# noqa")
    ensures var r := line + " " + id + eol;
      IsPrefix(line, r) && Contains(r, "# noqa") && |r| == |line| + 1 + |id| + |eol|
    ensures var r := line + " " + id + eol;
      r[|r| - |id| - |eol| - 1..] == " " + id + eol
    ensures var r := line + " " + id + eol;
      '\n' in r <==> '\n' in line || '\n' in id || '\n' in eol
  {
    var tail := " " + id + eol;
    assert line + " " + id + eol == line + tail;
    ConcatParts(line, tail);
    ConcatParts(" " + id, eol);
    ContainsExtend(line, tail, "# noqa");
  }

  /** Adding ` # noqa id` and `eol` to a line. */
  lemma AppendedComment(line: string, id: string, eol: string)
    ensures var r := line + " # noqa " + id + eol;
      IsPrefix(line, r) && Contains(r, "# noqa") && r[|line|..|line| + 8] == " # noqa "
    ensures var r := line + " # noqa " + id + eol;
      r[|r| - |id| - |eol| - 1..] == " " + id + eol
    ensures var r := line + " # noqa " + id + eol;
      '\n' in r <==> '\n' in line || '\n' in id || '\n' in eol
  {
    var r := line + " # noqa " + id + eol;
    var tail := " " + id + eol;
    assert r == line + " # noqa" + tail;
    assert r == line + (" # noqa " + (id + eol));
    ConcatParts(line, " # noqa");
    ConcatParts(line + " # noqa", tail);
    ConcatParts(" " + id, eol);
    assert r[..|line|] == line;
    assert r[|line|..|line| + 8] == " # noqa ";
    var k := |line| + 1;
    assert r[k..][..|"# noqa"|] == "# noqa";
  }

  /** The title of the action for rule `id`. */
  function NoqaTitle(id: string): (r: string)
    ensures IsPrefix("Ignoring rules for current line (# noqa ", r) && r[|r| - 1] == ')'
    ensures r[|"Ignoring rules for current line (# noqa "|..|r| - 1] == id
  {
    var head := "Ignoring rules for current line (# noqa ";
    assert (head + id + ")")[|head|..|head| + |id|] == id;
    head + id + ")"
  }

  /** The action for rule `id`: one edit that replaces exactly `range` in the document, and
      no command. */
  function IgnoreAction(uri: string, range: Range, line: string, id: string): (r: CodeAction)
    ensures r.title == NoqaTitle(id) && r.command.None? && r.edit.Some?
    ensures r.edit.value.changes.Keys == {uri} && |r.edit.value.changes[uri]| == 1
    ensures r.edit.value.changes[uri][0].range == range
    ensures r.edit.value.changes[uri][0].newText == NoqaText(line, id, range.start.line + 1 == range.end.line)
  {
    var edit := TextEdit(range, NoqaText(line, id, range.start.line + 1 == range.end.line));
    CodeAction(NoqaTitle(id), Some(WorkspaceEdit(map[uri := [edit]])), None)
  }

  /** `IgnoringRulesCodeActionProvider.provideCodeActions`: on a line range with a non-empty
      line, one action per rule id of an `ansible-lint` diagnostic, in diagnostic order. */
  method ProvideCodeActions(doc: Document, range: Range, diagnostics: seq<Diagnostic>)
    returns (codeActions: seq<CodeAction>)
    ensures !ProvidesOnLine(doc, range, diagnostics) ==> codeActions == []
    ensures ProvidesOnLine(doc, range, diagnostics) ==>
      var ids := RuleIds(diagnostics);
      |codeActions| == |ids| &&
      forall k :: 0 <= k < |ids| ==>
        codeActions[k] == IgnoreAction(doc.uri, range, GetLine(doc, range.start.line), CodeText(ids[k]))
  {
    codeActions := [];
    if LineRange(range) && |diagnostics| > 0 {
      var line := GetLine(doc, range.start.line);
      if line != "" {
        var existsAnsibleDiagnostics := false;
        var ruleIds: seq<Code> := [];
        var i := 0;
        while i < |diagnostics|
          invariant 0 <= i <= |diagnostics|
          invariant ruleIds == RuleIds(diagnostics[..i])
          invariant !existsAnsibleDiagnostics ==> ruleIds == []
        {
          var d := diagnostics[i];
          assert diagnostics[..i + 1][..i] == diagnostics[..i];
          if d.source == "ansible-lint" {
            existsAnsibleDiagnostics := true;
            if CodeTruthy(d.code) {
              ruleIds := ruleIds + [d.code];
            }
          }
          i := i + 1;
        }
        assert diagnostics[..i] == diagnostics;

        if existsAnsibleDiagnostics {
          codeActions := IgnoreActions(doc.uri, range, line, ruleIds);
        }
      }
    }
  }

  /** One action per rule id, in the order of the ids. */
  method IgnoreActions(uri: string, range: Range, line: string, ruleIds: seq<Code>)
    returns (codeActions: seq<CodeAction>)
    ensures |codeActions| == |ruleIds|
    ensures forall k :: 0 <= k < |ruleIds| ==> codeActions[k] == IgnoreAction(uri, range, line, CodeText(ruleIds[k]))
  {
    codeActions := [];
    var j := 0;
    while j < |ruleIds|
      invariant 0 <= j <= |ruleIds|
      invariant |codeActions| == j
      invariant forall k :: 0 <= k < j ==> codeActions[k] == IgnoreAction(uri, range, line, CodeText(ruleIds[k]))
    {
      codeActions := codeActions + [IgnoreAction(uri, range, line, CodeText(ruleIds[j]))];
      j := j + 1;
    }
  }
}
