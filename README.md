# coc-ansible core, modelled in Dafny

coc-ansible is a coc.nvim extension that starts the Ansible language server. The project
models the parts of it that decide and build things:

- **Activation** (`src/index.ts`). Activation probes for system `ansible`, `ansible-lint` and
  `ansible-doc`. Without a configured interpreter it may consult the extension's own
  virtual environment (the "venv"). When no `ansible` exists anywhere and a Python was found,
  it asks to install one into the venv. It then starts the client, or gives up with one of
  three error notifications. `activate` is a method of the class `Extension.Extension`, whose
  fields are the module-level variables of `src/index.ts`. The method is proved against the
  function `ExpectedActivation`, which is built on the decision function `Decide` over the
  probe answers.
- **The configuration middleware** (`src/index.ts`). It copies the `ansible` section and
  rewrites its tool paths, the interpreter and the lint switch. The copy is `ToJSONObject`;
  the rewrite is `Patch` over the JSON tree of `Json`.
- **Tool resolution** (`src/tool.ts`). This covers the interpreter fallback order, the venv
  layout per platform, and the fail-soft probes.
- **The installer** (`src/installer.ts`). This covers the pinned package specs, the exact
  command line, removal of the venv before the install, and the prompt and failure flow.
  `Host.Workbench` models the editor window and the file system that the installer changes.
- **The code-action providers** (`src/actions/ignoringRules.ts`, `src/action.ts`,
  `src/actions/showWebDocumentation.ts`). These are `# noqa` edits and web-documentation
  links built from the diagnostics on the current line.
- **The two `ansible-doc` lists** (`src/commands/ansibleDocShowInfo.ts`,
  `src/commands/ansibleDocShowSnippets.ts`). These cover the plugin-type picker, the plugin
  list and its labels, and the command line sent to the terminal.

The outside world is given as fixed answers (`Host.World`):
- `exec` runs a shell command line and returns its stdout or its error.
- `which` and `realpath` return `None` where the library call throws.
- `promptAnswer` is the user's reply to the install prompt.
- `installCreates` is the set of files the install command leaves behind.

The file system is a set of file paths plus a set of directories. The JSON parsing of
`ansible-doc -l -j` output is an oracle from text to key/value pairs.

The source text of each notification is given once, by `Host.Text`. Everything else works
with the `Host.Notice` value it stands for. `Host.TextInjective` shows that no two notices
share a text.

Behaviour of the code worth knowing:
- `getCurrentPythonPath2` can return the unresolved `which` answer. When `which` succeeds
  and `realpath` throws, the variable already holds the `which` answer, and the last
  `return` hands it back. `Tool.GetCurrentPythonPath2` keeps this.
- The yamllint spec never reaches the install command. `concat` returns a new string that
  is discarded (`Installer.InstallCommandIgnoresYamllint`).
- `ansibleLint.enabled` is forced off in exactly two cases. With the venv's interpreter it is
  left as configured (`Extension.PatchValues`).
- Writing a tool path into a section that is an array does not throw. The array takes a
  named property that the JSON answer does not carry, so the section comes back unchanged
  (`Json.SetIn`).

## Model

| member | source | states |
|---|---|---|
| Host.TextInjective | src/index.ts:118-139 | the notification texts of the installer and of activation are pairwise different, so a shown text identifies its notice |
| Host.TextLength | src/installer.ts:41-47 | the length of each notification text; only a failure report is 53 characters or longer |
| Host.Workbench.constructor | src/index.ts:44 | a window that has shown nothing yet, over the given files and directories |
| Host.Workbench.Show | src/installer.ts:41-47 | a notification is appended to what the window has shown, and nothing else changes |
| Host.Workbench.EnsureDir | src/index.ts:49-52 | afterwards the storage directory exists, whether or not it existed before |
| Tool.VenvFileUnderVenv | src/tool.ts:91-131 | every file that `getBuiltinToolPath` looks at lies below the venv directory |
| Tool.ExecutableLayout | src/tool.ts:99-103 | the path of a venv executable under the current platform's layout is never empty |
| Tool.ExecutableLayoutUnderVenv | src/installer.ts:39 | every venv executable lies below the venv directory, so removing the venv removes it |
| Tool.GetCurrentPythonPath | src/tool.ts:13-48 | a configured interpreter wins, and a `realpath` failure on it propagates; otherwise `python3`, then `python`, each only when both `which` and `realpath` succeed; otherwise `undefined` |
| Tool.ConfiguredIgnoresWhich | src/tool.ts:16-23 | with a configured interpreter the answer does not depend on `which` at all |
| Tool.GetCurrentPythonPath2 | src/tool.ts:50-77 | a configured path comes back verbatim, even with `isRealpath`; otherwise `python3` before `python`, resolved only with `isRealpath`; `""` when neither is found; with `isRealpath`, an unresolvable `python3` leaks through when `python` is missing, and an unresolvable `python` comes back as `which` gave it |
| Tool.GetBuiltinPythonPath | src/tool.ts:79-89 | `Scripts/python.exe` on win32 and `bin/python` elsewhere, below the venv, with no existence check |
| Tool.GetBuiltinToolPath | src/tool.ts:91-134 | `""` for any tool other than the three; for those, non-empty exactly when either layout holds the tool; a non-empty answer follows the current platform's layout |
| Tool.HelpCheckCommand | src/tool.ts:147 | the probe line is the command followed by ` -h` |
| Tool.ExistsCmdWithHelpOpt | src/tool.ts:146-154 | true exactly when `<command> -h` completes without error; a failure is `false`, never an exception |
| Tool.ImportCheckCommand | src/tool.ts:137 | the probe line is the interpreter path followed by ` -c "import <module>"` |
| Tool.ExistsPythonImportModule | src/tool.ts:136-144 | true exactly when the import one-liner completes without error; a failure is `false` |
| Installer.InstallToolVersionStr | src/installer.ts:52-62 | `name==version` when a version is set, else `name` |
| Installer.VersionStrRoundTrip | src/installer.ts:52-62 | the package name and the pinned version can be read back from the spec |
| Installer.VenvPython | src/installer.ts:13-16 | `venv/bin/python`, or `venv/Scripts/python` on win32 |
| Installer.VenvPythonAndBuiltinPython | src/installer.ts:13-16 | the installer's interpreter is the one the configuration later points at, except for the `.exe` suffix on win32 |
| Installer.InstallCommand | src/installer.ts:31-33 | the line starts with `"<python>" -m venv <venv> && ` and ends with `<venvPython> -m pip install -U pip <ansible spec> <ansible-lint spec>`, and holds nothing else |
| Installer.InstallCommandIgnoresYamllint | src/installer.ts:35-37 | the yamllint settings never change the command line |
| Installer.RemoveTree | src/installer.ts:39 | exactly the files at or below the venv are removed |
| Installer.InstallLsRequirementsTools | src/installer.ts:10-50 | the venv is removed, then the command runs once; both outcomes hide the status item; success shows the installing and installed notices; failure shows the failure notice with the error and reports failure |
| Installer.RunInstallCommand | src/installer.ts:40-49 | one run of the command; its outcome decides the notices, and the status item ends hidden |
| Installer.BuiltinToolAfterInstall | src/installer.ts:39-42 | after the install step, the venv holds a tool exactly when the install created it; a stale venv tool never counts |
| Installer.InstallWrapper | src/installer.ts:64-99 | the prompt is shown once; on a no, nothing else happens: no command, no notice, the status item stays; on a yes, the install command runs once, the installing notice is followed by the installed notice or by the failure notice, the status item ends hidden, and a failed install is swallowed |
| Json.Lookup | src/index.ts:236-251 | a property is found exactly when the object has that key, and the value found is that of the first property with the key |
| Json.SetMember | src/index.ts:236-251 | after `obj[key] = value`, the key reads back `value` and every other key reads as before |
| Json.SetMemberAppends | src/index.ts:216-219 | a new property goes to the end of the object |
| Json.SetMemberUnique | src/index.ts:236-251 | setting a property never duplicates a key |
| Json.SetIn | src/index.ts:236-251 | `obj[section][key] = value` succeeds exactly when `obj` is an object and `obj[section]` an object or an array; into an object the key reads back the value, into an array the value stays as it was; only that one place changes |
| Json.SetMemberMembers | src/index.ts:236-251 | every property after an assignment is the assigned one or one that was there before |
| Json.SetInGet | src/index.ts:236-251 | the write succeeds exactly when `obj` is an object and `obj[section]` an object or an array; other sections keep their values; the written section still takes assignments, and is an object exactly when it was one |
| Json.SetInGet2 | src/index.ts:236-251 | after the write, `obj[section][key]` reads back the value when the section is an object; every other place, and every place of an array section, reads as before |
| Json.LookupWellFormed | src/index.ts:233 | a property of a well-formed object is well formed |
| Json.SetMemberWellFormed | src/index.ts:236-251 | assigning a well-formed value keeps the object well formed and its keys unique |
| Json.SetInWellFormed | src/index.ts:236-251 | writing into a well-formed tree keeps it well formed |
| Extension.DecideCharacterization | src/index.ts:83-141 | the venv is consulted exactly when no interpreter is configured and a system tool is missing or `builtin.force` is set; the install runs exactly when no interpreter is configured, no system or venv `ansible` exists and a Python was found; each fatal verdict is characterized both ways; readiness holds exactly when a configured interpreter has the `ansible` module, or, without one, system `ansible` exists, the venv holds it, or a Python was found and the install left it |
| Extension.DisabledFeatures | src/index.ts:262-266 | `progress` is disabled exactly when progress notifications are turned off, and nothing is disabled otherwise |
| Extension.ActivationOutcomes | src/index.ts:44-181 | activation is disabled exactly when `enable` is off; it throws exactly when the configured interpreter cannot be resolved; it starts a client exactly when some `ansible` is usable; otherwise it ends with the notification of the first missing piece |
| Extension.StartedDocPath | src/index.ts:190-196 | the documentation commands use the configured `ansible-doc` when system `ansible` exists, else the venv's when it holds one, else none; they never use the venv's with a configured interpreter |
| Extension.FindSection | src/index.ts:229 | the first item whose section matches, or none when no item matches |
| Extension.ToJSONObject | src/index.ts:210-225 | the copy equals the original: arrays elementwise, objects over their own properties in order, other values as they are |
| Extension.Extension.constructor | src/index.ts:33-39 | the module-level variables start falsy |
| Extension.Extension.Activate | src/index.ts:44-201 | the outcome is `ExpectedActivation`; the storage directory exists; a thrown resolution changes nothing else, neither in the window nor in the module-level variables, and consults no venv; the probe flags are recorded; the install prompt and the install happen only when `Decide` says so; the commands run, the notices shown and the status item are those of the install and of the fatal verdict `Decide` gives; the venv is looked up once, or twice around an install; an abort's notification is the last one shown |
| Extension.Extension.ResolveAndStart | src/index.ts:56-201 | after the probes, the outcome is `Resolved`; prompts, files, lookups, commands run, notices shown and the status item follow the decision `Decide` |
| Extension.Extension.StartWithInterpreter | src/index.ts:130-141 | with a configured interpreter, a missing `ansible` module aborts with its notice, which is the only notice shown; a missing `ansiblelint` module is only recorded |
| Extension.Extension.StartWithoutInterpreter | src/index.ts:83-127 | without a configured interpreter, the venv consult, the install and the two fatal checks happen in the order `Decide` describes, with exactly the commands, notices and status item that order gives |
| Extension.Extension.ConsultVenv | src/index.ts:84-96 | the venv is looked up exactly when a system tool is missing or `builtin.force` is set; the venv `ansible` counts exactly when it is found |
| Extension.Extension.StartWithAnsible | src/index.ts:123-196 | with neither system nor venv `ansible`, the not-found notice aborts; otherwise the client starts with no new notice, and the documentation commands use system `ansible-doc`, else the venv's, else none |
| Extension.Extension.InstallAndLookAgain | src/index.ts:101-106 | after `installWrapper`, the venv's `ansible` and `ansible-doc` are what the install left, or what was there when the prompt was declined; the commands, notices and status item are those of `installWrapper` |
| Extension.Extension.BuiltinPython | src/index.ts:239-241 | the interpreter is replaced by the venv's exactly when no interpreter is configured and there is no system `ansible` |
| Extension.Extension.Configuration | src/index.ts:228-260 | a request without an `ansible` item is passed on unchanged; otherwise exactly one rewritten copy of the section is answered, or the rewrite's `TypeError` is thrown |
| Extension.PatchSucceeds | src/index.ts:236-251 | the rewrite succeeds exactly when `ansible`, `ansibleLint` and, when the interpreter is replaced, `python` are objects or arrays |
| Extension.PatchValues | src/index.ts:236-251 | on an answer whose sections take the writes, `ansible.path` becomes `ansible` and `ansibleLint.path` becomes `ansible-lint` in object sections; the interpreter is replaced exactly when a venv interpreter is given and `python` is an object; `ansibleLint.enabled` becomes false exactly when it is not replaced, linting is forced off and `ansibleLint` is an object |
| Extension.PatchFrame | src/index.ts:236-251 | on an answer whose sections take the writes, every other section and key keeps its value |
| Extension.PatchWellFormed | src/index.ts:233-254 | on a well-formed answer whose sections take the writes, the rewrite succeeds and the answer is a well-formed value again |
| Lsp.CodeText | src/actions/ignoringRules.ts:82 | a truthy code prints as non-empty text |
| Lsp.GetLine | src/actions/ignoringRules.ts:56 | the text of the line, empty past the end of the document |
| Lsp.LineRangeShape | src/actions/ignoringRules.ts:97-102 | a line range starts at column 0 and ends on its line or at the start of the next; a whole line with its break is one |
| IgnoringRules.RuleIdsMembers | src/actions/ignoringRules.ts:59-68 | an id is collected exactly when an `ansible-lint` diagnostic carries it as a truthy code |
| IgnoringRules.RuleIdsAppend | src/actions/ignoringRules.ts:60-68 | ids are collected in diagnostic order |
| IgnoringRules.NoqaTextShape | src/actions/ignoringRules.ts:72-77 | the line is kept as a prefix; the result always holds `# noqa`; it ends with ` <id>`, then a line break exactly when the range ends on the next line; a line that already has `# noqa` only gains a space, the id and the break, so no second `# noqa` is added; any other line gains ` # noqa ` right after its text |
| IgnoringRules.NoqaTitle | src/actions/ignoringRules.ts:82 | `Ignoring rules for current line (# noqa <id>)`, with exactly the id between the prefix and the closing parenthesis |
| IgnoringRules.JoinedComment | src/actions/ignoringRules.ts:72-74 | a line with a `# noqa` comment gains exactly a space, the id and the line ending, keeps its text and its comment |
| IgnoringRules.AppendedComment | src/actions/ignoringRules.ts:75-77 | a line without the comment gains ` # noqa `, the id and the line ending right after its text |
| IgnoringRules.IgnoreAction | src/actions/ignoringRules.ts:79-88 | one edit, in the document's uri only, replacing exactly the given range with the `# noqa` text; no command |
| IgnoringRules.ProvideCodeActions | src/actions/ignoringRules.ts:39-95 | no actions off a line range, without diagnostics or on an empty line; otherwise one action per collected id, in order |
| IgnoringRules.IgnoreActions | src/actions/ignoringRules.ts:79-88 | one `# noqa` action per rule id, in the order of the ids |
| Action.MessageRuleId | src/action.ts:46 | the text of the message before its first line break |
| Action.MessageRuleIdsMembers | src/action.ts:43-49 | an id is collected exactly when an `Ansible` diagnostic's first message line is non-empty and equal to it |
| Action.MessageRuleIdEdit | src/action.ts:54-58 | the edited line holds a line break exactly when the range ends on the next line |
| Action.ProvideCodeActions | src/action.ts:22-76 | no actions off a line range, without diagnostics or on an empty line; otherwise one `# noqa` action per collected id, in order |
| ShowWebDocumentation.LintRulesMembers | src/actions/showWebDocumentation.ts:74-90 | a rule is collected exactly when an `ansible-lint` diagnostic has a non-empty documentation address and a truthy code; no other source yields one |
| ShowWebDocumentation.WebDocAction | src/actions/showWebDocumentation.ts:94-105 | titled `Show web documentation for <id>`; it only runs `vscode.open` on the address and carries no edit |
| ShowWebDocumentation.ProvideCodeActions | src/actions/showWebDocumentation.ts:52-114 | no actions off a line range, without diagnostics or on an empty line; otherwise one action per documented rule, in order |
| AnsibleDocShowInfo.PluginTypesAreWords | src/commands/ansibleDocShowInfo.ts:30-46 | fifteen plugin types with `module` first, none empty and none with a space |
| AnsibleDocShowInfo.Label | src/commands/ansibleDocShowInfo.ts:82 | the label is `<name>: [`, then exactly the description, then `]` |
| AnsibleDocShowInfo.PluginName | src/commands/ansibleDocShowInfo.ts:73 | the part of the label before its first `:` |
| AnsibleDocShowInfo.PluginNameOfLabel | src/commands/ansibleDocShowInfo.ts:73-82 | the name read back from a label is the plugin's name whenever that name has no `:` |
| AnsibleDocShowInfo.PluginNameOfLabelCut | src/commands/ansibleDocShowInfo.ts:73-82 | a name with a `:` comes back cut at its first `:` |
| AnsibleDocShowInfo.ListCommand | src/commands/ansibleDocShowInfo.ts:89 | `<path> -l -j -t <type>` |
| AnsibleDocShowInfo.GetAnsibleDocListItems | src/commands/ansibleDocShowInfo.ts:87-111 | one entry per parsed key, in order, described by its value; empty on an exec error, empty output or a parse error |
| AnsibleDocShowInfo.LoadItems | src/commands/ansibleDocShowInfo.ts:79-84 | one list entry per listed plugin, in order, with its label and its name as filter text |
| AnsibleDocShowInfo.TerminalTextWords | src/commands/ansibleDocShowInfo.ts:126 | the terminal text splits back into the path and the arguments, in order |
| AnsibleDocShowInfo.ShowInfoOfListedPlugin | src/commands/ansibleDocShowInfo.ts:113-126 | executing a listed plugin's entry runs `<path> -t <type> <name>` on exactly that plugin |
| AnsibleDocShowInfo.AnsibleDocShowInfoList.constructor | src/commands/ansibleDocShowInfo.ts:64-70 | the plugin type starts as `module` |
| AnsibleDocShowInfo.AnsibleDocShowInfoList.Pick | src/commands/ansibleDocShowInfo.ts:48-53 | a dismissed picker keeps the type; a pick sets it to that menu entry; the type stays one the menu offers |
| AnsibleDocShowInfo.AnsibleDocShowInfoList.Execute | src/commands/ansibleDocShowInfo.ts:72-75 | the terminal receives `<path> -t <type> <name>`, and the shell sees exactly these four words |
| AnsibleDocShowSnippets.SnippetPluginTypesAreInfoTypes | src/commands/ansibleDocShowSnippets.ts:30-32 | the three snippet types are information types too, and hold no space |
| AnsibleDocShowSnippets.ShowSnippetsOfListedPlugin | src/commands/ansibleDocShowSnippets.ts:99-117 | executing a listed plugin's entry runs `<path> -t <type> -s <name>` on exactly that plugin |
| AnsibleDocShowSnippets.AnsibleDocShowSnippetsList.constructor | src/commands/ansibleDocShowSnippets.ts:50-56 | the plugin type starts as `module` |
| AnsibleDocShowSnippets.AnsibleDocShowSnippetsList.Pick | src/commands/ansibleDocShowSnippets.ts:34-39 | a dismissed picker keeps the type; a pick sets it to one of `module`, `inventory`, `lookup` |
| AnsibleDocShowSnippets.AnsibleDocShowSnippetsList.Execute | src/commands/ansibleDocShowSnippets.ts:58-61 | the terminal receives `<path> -t <type> -s <name>`, five words in this order |

## Left out

- Subprocesses, `which`, `realpath`, file existence, the prompt: these are the oracles of `Host.World`, not reproduced.
- `path.join` normalisation (`.`, `..`, repeated separators): paths are concatenated with the platform separator.
- `rimrafSync`: it is the set difference `Installer.RemoveTree`. The venv directory itself stays in the directory set; the model reads that set only through `EnsureDir`. `mkdirSync`: it is `Host.Workbench.EnsureDir`.
- The progress timer of `installWrapper` (the interval, its elapsed-time warnings and the `isFinished` flag): this is timer and concurrency behaviour.
- The language client's lifecycle, the server module path including `dev.serverPath`, `deactivate`, and the server commands: these are host plumbing. A started client is the `Started` outcome, which records the disabled features, whether the install command was registered, and which `ansible-doc` path the documentation commands received.
- Output-channel logging, including the `ansible-lint` venv path, which is only logged: this is UI.
- Terminal handling in the two `run*InTerminal` functions (disposal, splits, `stopinsert`): this is UI. `Execute` returns the text sent to the terminal.
- The menu picker itself: this is UI. `Pick` takes the index it returned.
- Json.SetIn: a write into a section holding a string, number, boolean, `null` or `undefined` is a `TypeError`. For the primitives this is the behaviour of strict mode, which compiled TypeScript modules run in; sloppy-mode silent ignoring is not modelled.
- `JSON.parse` and `Object.keys`: these are the oracle `parse`, which gives the key/value pairs in key order.
- AnsibleDocShowInfo.GetAnsibleDocListItems: plugin descriptions are taken as strings, as `ansible-doc -l -j` prints them. The model does not capture template-literal formatting of non-string JSON values.
- Lsp.CodeText: numeric codes are integers. Non-integer numbers are not modelled.
- The unused `whole` computation and the `diagnosticCollection` fields of the code-action providers: these are dead code.
- The registration of providers, commands and lists with the editor (`registerCodeActionProvider`, `registerCommand`, `registerList`): this is host plumbing.
