/** The "show web documentation" code actions (src/actions/showWebDocumentation.ts): one
    action per `ansible-lint` diagnostic that links its rule's documentation, opening that
    page through the `vscode.open` command. */
module ShowWebDocumentation {
  import opened Common
  import opened Lsp
  import opened IgnoringRules

  /** A rule id and the address of its documentation. */
  datatype LintRule = LintRule(id: Code, href: string)

  /** A diagnostic that yields a rule: from `ansible-lint`, with a non-empty
      `codeDescription.href` and a truthy code. */
  predicate HasDocumentation(d: Diagnostic) {
    FromAnsibleLint(d) && d.href.Some? && d.href.value != "" && CodeTruthy(d.code)
  }

  /** The rules of `ds`, in diagnostic order. */
  function LintRules(ds: seq<Diagnostic>): seq<LintRule>
    decreases |ds|
  {
    if ds == [] then []
    else
      var last := ds[|ds| - 1];
      LintRules(ds[..|ds| - 1]) + (if HasDocumentation(last) then [LintRule(last.code, last.href.value)] else [])
  }

  /** A rule is collected exactly when some documented `ansible-lint` diagnostic carries its
      id and address; diagnostics of any other source never yield one. */
  lemma {:induction false} LintRulesMembers(ds: seq<Diagnostic>, rule: LintRule)
    ensures rule in LintRules(ds) <==>
            exists i :: 0 <= i < |ds| && HasDocumentation(ds[i]) && rule == LintRule(ds[i].code, ds[i].href.value)
    decreases |ds|
  {
    if ds != [] {
      var init := ds[..|ds| - 1];
      LintRulesMembers(init, rule);
      if exists i :: 0 <= i < |init| && HasDocumentation(init[i]) && rule == LintRule(init[i].code, init[i].href.value) {
        var i :| 0 <= i < |init| && HasDocumentation(init[i]) && rule == LintRule(init[i].code, init[i].href.value);
        assert ds[i] == init[i];
      }
      if exists i :: 0 <= i < |ds| && HasDocumentation(ds[i]) && rule == LintRule(ds[i].code, ds[i].href.value) {
        var i :| 0 <= i < |ds| && HasDocumentation(ds[i]) && rule == LintRule(ds[i].code, ds[i].href.value);
        if i < |init| {
          assert init[i] == ds[i];
        }
      }
    }
  }

  /** The action for one rule: a titled `vscode.open` of its address, and no edit. */
  function WebDocAction(rule: LintRule): (r: CodeAction)
    ensures r.edit.None? && r.command.Some?
    ensures r.command.value.command == "vscode.open" && r.command.value.arguments == [rule.href]
    ensures r.title == "Show web documentation for " + CodeText(rule.id)
  {
    CodeAction("Show web documentation for " + CodeText(rule.id), None, Some(Command("", "vscode.open", [rule.href])))
  }

  /** `ShowWebDocumentationCodeActionProvider.provideCodeActions`: on a line range with a
      non-empty line, one action per documented `ansible-lint` diagnostic, in order. */
  method ProvideCodeActions(doc: Document, range: Range, diagnostics: seq<Diagnostic>)
    returns (codeActions: seq<CodeAction>)
    ensures !ProvidesOnLine(doc, range, diagnostics) ==> codeActions == []
    ensures ProvidesOnLine(doc, range, diagnostics) ==>
      var rules := LintRules(diagnostics);
      |codeActions| == |rules| && forall k :: 0 <= k < |rules| ==> codeActions[k] == WebDocAction(rules[k])
  {
    codeActions := [];
    if LineRange(range) && |diagnostics| > 0 {
      var line := GetLine(doc, range.start.line);
      if line != "" {
        var existsAnsibleDiagnostics := false;
        var ansibleLintRules: seq<LintRule> := [];
        var i := 0;
        while i < |diagnostics|
          invariant 0 <= i <= |diagnostics|
          invariant ansibleLintRules == LintRules(diagnostics[..i])
          invariant !existsAnsibleDiagnostics ==> ansibleLintRules == []
        {
          var d := diagnostics[i];
          assert diagnostics[..i + 1][..i] == diagnostics[..i];
          if d.source == "ansible-lint" {
            existsAnsibleDiagnostics := true;
            if d.href.Some? && d.href.value != "" {
              if CodeTruthy(d.code) {
                ansibleLintRules := ansibleLintRules + [LintRule(d.code, d.href.value)];
              }
            }
          }
          i := i + 1;
        }
        assert diagnostics[..i] == diagnostics;

        if existsAnsibleDiagnostics {
          var j := 0;
          while j < |ansibleLintRules|
            invariant 0 <= j <= |ansibleLintRules|
            invariant |codeActions| == j
            invariant forall k :: 0 <= k < j ==> codeActions[k] == WebDocAction(ansibleLintRules[k])
          {
            codeActions := codeActions + [WebDocAction(ansibleLintRules[j])];
            j := j + 1;
          }
        }
      }
    }
  }
}
