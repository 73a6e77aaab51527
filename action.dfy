/** The older "ignore this rule on this line" provider (src/action.ts), which the extension
    does not register: it reads the rule id from the first line of the message of each
    diagnostic whose source is `Ansible`, and builds the same `# noqa` action. */
module Action {
  import opened Common
  import opened Lsp
  import opened IgnoringRules

  /** `d.message.split('\n')[0]`: the rule id this provider reads from a diagnostic. */
  function MessageRuleId(d: Diagnostic): (r: string)
    ensures IsPrefix(r, d.message) && '\n' !in r
    ensures |r| < |d.message| ==> d.message[|r|] == '\n'
  {
    BeforeFirst(d.message, '\n')
  }

  /** A diagnostic whose rule id is collected: source `Ansible` and a non-empty first
      message line. */
  predicate HasMessageRuleId(d: Diagnostic) {
    d.source == "Ansible" && MessageRuleId(d) != ""
  }

  /** The rule ids of `ds`, in diagnostic order. */
  function MessageRuleIds(ds: seq<Diagnostic>): seq<string>
    decreases |ds|
  {
    if ds == [] then []
    else
      var last := ds[|ds| - 1];
      MessageRuleIds(ds[..|ds| - 1]) + (if HasMessageRuleId(last) then [MessageRuleId(last)] else [])
  }

  /** Every collected id is the non-empty first message line of an `Ansible` diagnostic, and
      every such line is collected. */
  lemma {:induction false} MessageRuleIdsMembers(ds: seq<Diagnostic>, id: string)
    ensures id in MessageRuleIds(ds) <==>
            exists i :: 0 <= i < |ds| && HasMessageRuleId(ds[i]) && MessageRuleId(ds[i]) == id
    decreases |ds|
  {
    if ds != [] {
      var init := ds[..|ds| - 1];
      MessageRuleIdsMembers(init, id);
      if exists i :: 0 <= i < |init| && HasMessageRuleId(init[i]) && MessageRuleId(init[i]) == id {
        var i :| 0 <= i < |init| && HasMessageRuleId(init[i]) && MessageRuleId(init[i]) == id;
        assert ds[i] == init[i];
      }
      if exists i :: 0 <= i < |ds| && HasMessageRuleId(ds[i]) && MessageRuleId(ds[i]) == id {
        var i :| 0 <= i < |ds| && HasMessageRuleId(ds[i]) && MessageRuleId(ds[i]) == id;
        if i < |init| {
          assert init[i] == ds[i];
        }
      }
    }
  }

  /** A message id never holds a line break, so the edited line ends in a line break
      exactly when the range ends on the next line (for a current line without one). */
  lemma MessageRuleIdEdit(d: Diagnostic, uri: string, range: Range, line: string)
    requires '\n' !in line
    ensures var edit := IgnoreAction(uri, range, line, MessageRuleId(d)).edit.value.changes[uri][0];
            '\n' in edit.newText <==> range.start.line + 1 == range.end.line
  {
    NoqaTextShape(line, MessageRuleId(d), range.start.line + 1 == range.end.line);
  }

  /** `AnsibleCodeActionProvider.provideCodeActions`: on a line range with a non-empty line,
      one action per rule id of an `Ansible` diagnostic, in diagnostic order. */
  method ProvideCodeActions(doc: Document, range: Range, diagnostics: seq<Diagnostic>)
    returns (codeActions: seq<CodeAction>)
    ensures !ProvidesOnLine(doc, range, diagnostics) ==> codeActions == []
    ensures ProvidesOnLine(doc, range, diagnostics) ==>
      var ids := MessageRuleIds(diagnostics);
      |codeActions| == |ids| &&
      forall k :: 0 <= k < |ids| ==>
        codeActions[k] == IgnoreAction(doc.uri, range, GetLine(doc, range.start.line), ids[k])
  {
    codeActions := [];
    if LineRange(range) && |diagnostics| > 0 {
      var line := GetLine(doc, range.start.line);
      if line != "" {
        var existsAnsibleDiagnostics := false;
        var ruleIds: seq<string> := [];
        var i := 0;
        while i < |diagnostics|
          invariant 0 <= i <= |diagnostics|
          invariant ruleIds == MessageRuleIds(diagnostics[..i])
          invariant !existsAnsibleDiagnostics ==> ruleIds == []
        {
          var d := diagnostics[i];
          assert diagnostics[..i + 1][..i] == diagnostics[..i];
          if d.source == "Ansible" {
            existsAnsibleDiagnostics := true;
            var ruleId := MessageRuleId(d);
            if ruleId != "" {
              ruleIds := ruleIds + [ruleId];
            }
          }
          i := i + 1;
        }
        assert diagnostics[..i] == diagnostics;

        if existsAnsibleDiagnostics {
          var j := 0;
          while j < |ruleIds|
            invariant 0 <= j <= |ruleIds|
            invariant |codeActions| == j
            invariant forall k :: 0 <= k < j ==> codeActions[k] == IgnoreAction(doc.uri, range, line, ruleIds[k])
          {
            codeActions := codeActions + [IgnoreAction(doc.uri, range, line, ruleIds[j])];
            j := j + 1;
          }
        }
      }
    }
  }
}
