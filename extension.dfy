/** The extension's entry point (src/index.ts): the activation decision procedure that picks
    system tools, the managed venv, or a configured interpreter and installs into the venv
    when nothing usable exists; the copy of configuration values; the configuration
    middleware that rewrites what the language server is told; and the client's disabled
    features. The language client itself, the server module path and the output channel
    are not modelled. */
module Extension {
  import opened Common
  import opened Host
  import opened Tool
  import opened Installer
  import opened Json

  /** The facts activation decides on. `builtinBefore` / `builtinAfter`: the venv holds
      `ansible` before / after the install step (`installWrapper`). */
  datatype Probes = Probes(
    custom: bool,
    pythonFound: bool,
    sysAnsible: bool,
    sysLint: bool,
    force: bool,
    builtinBefore: bool,
    builtinAfter: bool,
    ansibleModule: bool)

  /** How activation ends: with a client, or with the error notification it gives up with
      (`NoPython`, `AnsibleNotFound` or `AnsibleModuleMissing`). */
  datatype Verdict = Ready | Fatal(notice: Notice)

  /** Whether the venv is looked at before any install, whether `installWrapper` runs,
      and the verdict. */
  datatype Decision = Decision(consultBuiltin: bool, install: bool, verdict: Verdict)

  /** The decision procedure of `activate`. */
  function Decide(pr: Probes): Decision {
    if !pr.custom then
      var consult := !pr.sysAnsible || !pr.sysLint || pr.force;
      var existsExtAnsibleCmd := consult && pr.builtinBefore;
      if !pr.sysAnsible && !existsExtAnsibleCmd then
        if pr.pythonFound then
          Decision(consult, true, if pr.builtinAfter then Ready else Fatal(AnsibleNotFound))
        else
          Decision(consult, false, Fatal(NoPython))
      else
        Decision(consult, false, Ready)
    else
      Decision(false, false, if pr.ansibleModule then Ready else Fatal(AnsibleModuleMissing))
  }

  /** When activation looks into the venv, when it installs, and why it gives up: the
      install runs only when neither system nor venv `ansible` exists and an interpreter was
      found, and a client starts only when some `ansible` is there to serve it. */
  lemma DecideCharacterization(pr: Probes)
    ensures Decide(pr).consultBuiltin <==> !pr.custom && (!pr.sysAnsible || !pr.sysLint || pr.force)
    ensures Decide(pr).install <==> !pr.custom && !pr.sysAnsible && !pr.builtinBefore && pr.pythonFound
    ensures Decide(pr).verdict == Fatal(NoPython) <==> !pr.custom && !pr.sysAnsible && !pr.builtinBefore && !pr.pythonFound
    ensures Decide(pr).verdict == Fatal(AnsibleNotFound) <==>
      !pr.custom && !pr.sysAnsible && !pr.builtinBefore && pr.pythonFound && !pr.builtinAfter
    ensures Decide(pr).verdict == Fatal(AnsibleModuleMissing) <==> pr.custom && !pr.ansibleModule
    ensures Decide(pr).verdict == Ready <==>
      if pr.custom then pr.ansibleModule else pr.sysAnsible || pr.builtinBefore || (pr.pythonFound && pr.builtinAfter)
  {
  }

  /** The probe answers activation obtains from the world, the venv being inspected in
      `files` before the install step and in what the install step leaves afterwards. */
  function ProbesOf(p: Platform, s: Settings, w: World, storage: string, files: set<string>): Probes {
    var lookup := GetCurrentPythonPath(s.interpreterPath, w.which, w.realpath);
    Probes(
      s.interpreterPath != "",
      lookup.Success? && lookup.value.Some?,
      ExistsCmdWithHelpOpt(w.exec, s.ansiblePath),
      ExistsCmdWithHelpOpt(w.exec, s.ansibleLintPath),
      s.force,
      GetBuiltinToolPath(p, files, storage, "ansible") != "",
      GetBuiltinToolPath(p, VenvEvidence(true, w, files), storage, "ansible") != "",
      ExistsPythonImportModule(w.exec, s.interpreterPath, "ansible"))
  }

  /** The files that decide what the venv holds once activation is over: what the install
      created when it ran (the venv is removed first, see `BuiltinToolAfterInstall`), else
      the files as they were. */
  function VenvEvidence(install: bool, w: World, files: set<string>): set<string> {
    if install && w.promptAnswer then w.installCreates else files
  }

  /** `getLanguageClientDisabledFeatures`. */
  function DisabledFeatures(disableProgressNotifications: bool): (r: seq<string>)
    ensures |r| <= 1
    ensures "progress" in r <==> disableProgressNotifications
    ensures !disableProgressNotifications ==> r == []
  {
    if disableProgressNotifications then ["progress"] else []
  }

  /** How activation ended. `Threw` is an exception escaping `activate`; `Started` records
      the client's disabled features, whether the install command was registered, and the
      `ansible-doc` path the two documentation commands were registered with, if any. */
  datatype Activation =
    | Disabled
    | Threw(error: string)
    | Aborted(notice: Notice)
    | Started(disabledFeatures: seq<string>, installCommandRegistered: bool, docCommandsPath: Option<string>)

  /** The `ansible-doc` path the documentation commands are registered with: the
      configured one when system `ansible` exists, else, with no interpreter configured,
      the venv's as the venv is once the install step is over, when it has one. */
  function DocCommandsPath(p: Platform, s: Settings, w: World, storage: string, files: set<string>): Option<string> {
    var pr := ProbesOf(p, s, w, storage, files);
    if pr.sysAnsible then Some(s.ansibleDocPath)
    else if pr.custom then None
    else
      var doc := GetBuiltinToolPath(p, VenvEvidence(Decide(pr).install, w, files), storage, "ansible-doc");
      if doc != "" then Some(doc) else None
  }

  /** How `activate` ends once the interpreter lookup has returned normally. */
  function Resolved(p: Platform, s: Settings, w: World, storage: string, files: set<string>): Activation {
    var pr := ProbesOf(p, s, w, storage, files);
    match Decide(pr).verdict
    case Fatal(n) => Aborted(n)
    case Ready => Started(DisabledFeatures(s.disableProgressNotifications), pr.pythonFound, DocCommandsPath(p, s, w, storage, files))
  }

  /** How `activate` ends, given the settings, the world and the files present when it
      starts. */
  function ExpectedActivation(p: Platform, s: Settings, w: World, storage: string, files: set<string>): Activation {
    if !s.enable then Disabled
    else match GetCurrentPythonPath(s.interpreterPath, w.which, w.realpath)
      case Failure(e) => Activation.Threw(e)
      case Success(_) => Resolved(p, s, w, storage, files)
  }

  /** The interpreter `installWrapper` is given: the resolved path of the one found. */
  function InstallPython(s: Settings, w: World): string {
    match GetCurrentPythonPath(s.interpreterPath, w.which, w.realpath)
    case Success(Some(paths)) => paths.resolved
    case _ => ""
  }

  /** The command lines activation runs once decided: the install command `installCmd`,
      when the decision calls for the install step and the user agrees. */
  function StepCommands(d: Decision, w: World, installCmd: string): seq<string> {
    if d.install then InstallWrapperCommands(w, installCmd) else []
  }

  /** The notices activation shows once decided: those of the install step, when it runs,
      then the error notice it gives up with, if any. */
  function StepNotices(d: Decision, w: World, installCmd: string): seq<Message> {
    (if d.install then InstallWrapperNotices(w, installCmd) else [])
    + (match d.verdict case Fatal(n) => [Error(n)] case Ready => [])
  }

  /** The command lines activation runs once the interpreter lookup has returned. */
  function ActivationCommands(p: Platform, s: Settings, w: World, storage: string, files: set<string>): seq<string> {
    StepCommands(Decide(ProbesOf(p, s, w, storage, files)), w, InstallCommand(InstallPython(s, w), p, storage, s))
  }

  /** The notices activation shows once the interpreter lookup has returned. */
  function ActivationNotices(p: Platform, s: Settings, w: World, storage: string, files: set<string>): seq<Message> {
    StepNotices(Decide(ProbesOf(p, s, w, storage, files)), w, InstallCommand(InstallPython(s, w), p, storage, s))
  }

  /** How activation can end: disabled exactly when `enable` is off, an exception exactly when
      the configured interpreter cannot be resolved, a client exactly when some `ansible` is
      usable, and otherwise the error notification of the first missing piece. */
  lemma ActivationOutcomes(p: Platform, s: Settings, w: World, storage: string, files: set<string>)
    ensures var a := ExpectedActivation(p, s, w, storage, files);
            var pr := ProbesOf(p, s, w, storage, files);
            var ok := s.enable && GetCurrentPythonPath(s.interpreterPath, w.which, w.realpath).Success?;
      && (a.Disabled? <==> !s.enable)
      && (a.Threw? <==> s.enable && !ok)
      && (a.Started? <==> ok && if pr.custom then pr.ansibleModule
                               else pr.sysAnsible || pr.builtinBefore || (pr.pythonFound && pr.builtinAfter))
      && (a == Aborted(AnsibleModuleMissing) <==> ok && pr.custom && !pr.ansibleModule)
      && (a == Aborted(NoPython) <==> ok && !pr.custom && !pr.sysAnsible && !pr.builtinBefore && !pr.pythonFound)
      && (a == Aborted(AnsibleNotFound) <==>
            ok && !pr.custom && !pr.sysAnsible && !pr.builtinBefore && pr.pythonFound && !pr.builtinAfter)
  {
    DecideCharacterization(ProbesOf(p, s, w, storage, files));
  }

  /** A client that starts without system `ansible` and without a configured interpreter
      registers the documentation commands with the venv's `ansible-doc`, as the venv is once
      the install step is over, or not at all. */
  lemma StartedDocPath(p: Platform, s: Settings, w: World, storage: string, files: set<string>)
    requires ExpectedActivation(p, s, w, storage, files).Started?
    ensures var a := ExpectedActivation(p, s, w, storage, files);
            var pr := ProbesOf(p, s, w, storage, files);
            var doc := GetBuiltinToolPath(p, VenvEvidence(Decide(pr).install, w, files), storage, "ansible-doc");
      && (pr.sysAnsible ==> a.docCommandsPath == Some(s.ansibleDocPath))
      && (!pr.sysAnsible && pr.custom ==> a.docCommandsPath.None?)
      && (!pr.sysAnsible && !pr.custom ==> (a.docCommandsPath.Some? <==> doc != ""))
      && (a.docCommandsPath.Some? && !pr.sysAnsible ==> a.docCommandsPath.value == ExecutableLayout(p, storage, "ansible-doc"))
  {
  }

  /** One item of a `workspace/configuration` request. */
  datatype ConfigurationItem = ConfigurationItem(section: string, scopeUri: string)

  /** What the middleware does with a request: hands it to `next` unchanged, answers it,
      or throws. */
  datatype MiddlewareResult = Forwarded(items: seq<ConfigurationItem>) | Answered(configs: seq<Json>) | Threw(error: string)

  /** `items.find(x => x.section === section)`. */
  function FindSection(items: seq<ConfigurationItem>, section: string): (r: Option<ConfigurationItem>)
    ensures r.None? <==> forall i :: 0 <= i < |items| ==> items[i].section != section
    ensures r.Some? ==> exists i :: 0 <= i < |items| && items[i] == r.value && r.value.section == section &&
                                   forall j :: 0 <= j < i ==> items[j].section != section
    decreases |items|
  {
    if items == [] then None
    else if items[0].section == section then Some(items[0])
    else
      var r := FindSection(items[1..], section);
      if r.Some? then
        assert exists i :: 0 <= i < |items| && items[i] == r.value && r.value.section == section &&
                           forall j :: 0 <= j < i ==> items[j].section != section by {
          var i :| 0 <= i < |items[1..]| && items[1..][i] == r.value &&
                   forall j :: 0 <= j < i ==> items[1..][j].section != section;
          assert items[i + 1] == r.value;
          forall j | 0 <= j < i + 1 ensures items[j].section != section {
            if j > 0 { assert items[j] == items[1..][j - 1]; }
          }
        }
        r
      else
        assert forall i :: 1 <= i < |items| ==> items[i] == items[1..][i - 1];
        r
  }

  /** `toJSONObject`: a copy that maps arrays element by element, copies an object's own
      properties one by one into a fresh object, and returns every other value as it is. */
  method ToJSONObject(v: JsonValue) returns (r: JsonValue)
    ensures r == v
    decreases v
  {
    if Truthy(v) {
      match v {
        case Arr(items) =>
          var copied: seq<Json> := [];
          var i := 0;
          while i < |items|
            invariant 0 <= i <= |items|
            invariant copied == items[..i]
          {
            var c := ToJSONObject(items[i]);
            copied := copied + [c];
            i := i + 1;
          }
          assert items[..|items|] == items;
          return Arr(copied);
        case Obj(ms) =>
          var res: seq<Member> := [];
          var i := 0;
          while i < |ms|
            invariant 0 <= i <= |ms|
            invariant res == ms[..i]
          {
            var c := ToJSONObject(ms[i].value);
            assert !HasKey(res, ms[i].key) by {
              forall j | 0 <= j < |res| ensures res[j].key != ms[i].key {
                assert res[j] == ms[j];
              }
            }
            SetMemberAppends(res, ms[i].key, c);
            res := SetMember(res, ms[i].key, c);
            assert res == ms[..i + 1];
            i := i + 1;
          }
          assert ms[..|ms|] == ms;
          return Obj(res);
        case _ =>
      }
    }
    return v;
  }

  /** The module-level state of src/index.ts, as `activate` leaves it for the
      configuration middleware. Fields the source declares without a value start falsy. */
  class Extension {
    /** `process.platform`. */
    const platform: Platform
    var extensionStoragePath: string
    var pythonInterpreterPath: string
    var existsAnsibleCmd: bool
    var existsAnsibleLintCmd: bool
    var existsAnsibleDocCmd: bool
    var existsAnsibleLintModule: bool
    /** A language client was created and started. */
    var clientStarted: bool
    /** How many times the three venv tool paths were looked up. */
    ghost var builtinLookups: nat

    constructor (platform: Platform)
      ensures this.platform == platform
      ensures extensionStoragePath == "" && pythonInterpreterPath == ""
      ensures !existsAnsibleCmd && !existsAnsibleLintCmd && !existsAnsibleDocCmd && !existsAnsibleLintModule
      ensures !clientStarted && builtinLookups == 0
    {
      this.platform := platform;
      extensionStoragePath := "";
      pythonInterpreterPath := "";
      existsAnsibleCmd := false;
      existsAnsibleLintCmd := false;
      existsAnsibleDocCmd := false;
      existsAnsibleLintModule := false;
      clientStarted := false;
      builtinLookups := 0;
    }

    /** `activate`: resolves the tools, installs into the venv at most once, and starts the
        client only when `ansible` is usable. */
    method Activate(wb: Workbench, w: World, s: Settings, storage: string) returns (outcome: Activation)
      modifies this, wb
      ensures outcome == ExpectedActivation(platform, s, w, storage, old(wb.files))
      ensures !s.enable ==> unchanged(this) && unchanged(wb)
      ensures s.enable ==> wb.dirs == old(wb.dirs) + {storage} && extensionStoragePath == storage
      ensures s.enable && GetCurrentPythonPath(s.interpreterPath, w.which, w.realpath).Failure? ==>
        && wb.files == old(wb.files) && wb.prompts == old(wb.prompts) && wb.messages == old(wb.messages)
        && wb.executed == old(wb.executed) && wb.statusVisible == old(wb.statusVisible)
      ensures s.enable && GetCurrentPythonPath(s.interpreterPath, w.which, w.realpath).Failure? ==>
        && pythonInterpreterPath == old(pythonInterpreterPath)
        && existsAnsibleCmd == old(existsAnsibleCmd) && existsAnsibleLintCmd == old(existsAnsibleLintCmd)
        && existsAnsibleDocCmd == old(existsAnsibleDocCmd) && existsAnsibleLintModule == old(existsAnsibleLintModule)
        && builtinLookups == old(builtinLookups)
      ensures s.enable && GetCurrentPythonPath(s.interpreterPath, w.which, w.realpath).Success? ==>
        && pythonInterpreterPath == s.interpreterPath
        && existsAnsibleCmd == ExistsCmdWithHelpOpt(w.exec, s.ansiblePath)
        && existsAnsibleLintCmd == ExistsCmdWithHelpOpt(w.exec, s.ansibleLintPath)
        && existsAnsibleDocCmd == ExistsCmdWithHelpOpt(w.exec, s.ansibleDocPath)
        && existsAnsibleLintModule ==
             if s.interpreterPath != "" then ExistsPythonImportModule(w.exec, s.interpreterPath, "ansiblelint")
             else old(existsAnsibleLintModule)
      ensures s.enable && GetCurrentPythonPath(s.interpreterPath, w.which, w.realpath).Success? ==>
        var d := Decide(ProbesOf(platform, s, w, storage, old(wb.files)));
        && wb.prompts == old(wb.prompts) + (if d.install then [InstallPrompt] else [])
        && wb.files == (if d.install then FilesAfterInstallWrapper(platform, old(wb.files), storage, w) else old(wb.files))
        && builtinLookups == old(builtinLookups) + (if d.consultBuiltin then 1 else 0) + (if d.install then 1 else 0)
      ensures s.enable && GetCurrentPythonPath(s.interpreterPath, w.which, w.realpath).Success? ==>
        var commands := ActivationCommands(platform, s, w, storage, old(wb.files));
        && wb.executed == old(wb.executed) + commands
        && wb.messages == old(wb.messages) + ActivationNotices(platform, s, w, storage, old(wb.files))
        && wb.statusVisible == (old(wb.statusVisible) && commands == [])
      ensures outcome.Aborted? ==> |wb.messages| > 0 && wb.messages[|wb.messages| - 1] == Error(outcome.notice)
      ensures clientStarted == (outcome.Started? || old(clientStarted))
    {
      if !s.enable {
        return Disabled;
      }

      extensionStoragePath := storage;
      wb.EnsureDir(storage);

      var lookup := GetCurrentPythonPath(s.interpreterPath, w.which, w.realpath);
      if lookup.Failure? {
        return Activation.Threw(lookup.error);
      }
      var pythonCommandPaths := lookup.value;

      outcome := ResolveAndStart(wb, w, s, storage, pythonCommandPaths,
                                 Decide(ProbesOf(platform, s, w, storage, wb.files)),
                                 InstallCommand(InstallPython(s, w), platform, storage, s));
    }

    /** The part of `activate` after the interpreter lookup: probe the system tools, then
        resolve through the venv or through the configured interpreter. */
    method ResolveAndStart(wb: Workbench, w: World, s: Settings, storage: string, pythonCommandPaths: Option<PythonPaths>,
                           ghost d: Decision, ghost installCmd: string)
      returns (outcome: Activation)
      requires GetCurrentPythonPath(s.interpreterPath, w.which, w.realpath) == Success(pythonCommandPaths)
      requires d == Decide(ProbesOf(platform, s, w, storage, wb.files))
      requires installCmd == InstallCommand(InstallPython(s, w), platform, storage, s)
      modifies this`pythonInterpreterPath, this`existsAnsibleCmd, this`existsAnsibleLintCmd, this`existsAnsibleDocCmd,
               this`existsAnsibleLintModule, this`builtinLookups, this`clientStarted,
               wb`files, wb`messages, wb`prompts, wb`statusVisible, wb`executed
      ensures outcome == Resolved(platform, s, w, storage, old(wb.files))
      ensures pythonInterpreterPath == s.interpreterPath
        && existsAnsibleCmd == ExistsCmdWithHelpOpt(w.exec, s.ansiblePath)
        && existsAnsibleLintCmd == ExistsCmdWithHelpOpt(w.exec, s.ansibleLintPath)
        && existsAnsibleDocCmd == ExistsCmdWithHelpOpt(w.exec, s.ansibleDocPath)
        && existsAnsibleLintModule ==
             if s.interpreterPath != "" then ExistsPythonImportModule(w.exec, s.interpreterPath, "ansiblelint")
             else old(existsAnsibleLintModule)
      ensures wb.prompts == old(wb.prompts) + (if d.install then [InstallPrompt] else [])
      ensures wb.files == (if d.install then FilesAfterInstallWrapper(platform, old(wb.files), storage, w) else old(wb.files))
      ensures builtinLookups == old(builtinLookups) + (if d.consultBuiltin then 1 else 0) + (if d.install then 1 else 0)
      ensures wb.executed == old(wb.executed) + StepCommands(d, w, installCmd)
      ensures wb.messages == old(wb.messages) + StepNotices(d, w, installCmd)
      ensures wb.statusVisible == (old(wb.statusVisible) && StepCommands(d, w, installCmd) == [])
      ensures clientStarted == (outcome.Started? || old(clientStarted))
    {
      pythonInterpreterPath := s.interpreterPath;
      existsAnsibleCmd := ExistsCmdWithHelpOpt(w.exec, s.ansiblePath);
      existsAnsibleLintCmd := ExistsCmdWithHelpOpt(w.exec, s.ansibleLintPath);
      existsAnsibleDocCmd := ExistsCmdWithHelpOpt(w.exec, s.ansibleDocPath);

      if pythonInterpreterPath == "" {
        outcome := StartWithoutInterpreter(wb, w, s, storage, pythonCommandPaths, d, installCmd);
      } else {
        outcome := StartWithInterpreter(wb, w, s, storage, pythonCommandPaths);
      }
    }

    /** The part of `activate` that runs when an interpreter is configured: it must import
        `ansible`; whether it imports `ansiblelint` is kept for the middleware. */
    method StartWithInterpreter(wb: Workbench, w: World, s: Settings, storage: string,
                                pythonCommandPaths: Option<PythonPaths>)
      returns (outcome: Activation)
      requires pythonInterpreterPath == s.interpreterPath != ""
      requires GetCurrentPythonPath(s.interpreterPath, w.which, w.realpath) == Success(pythonCommandPaths)
      requires existsAnsibleCmd == ExistsCmdWithHelpOpt(w.exec, s.ansiblePath)
      modifies this`existsAnsibleLintModule, this`clientStarted, wb`messages
      ensures outcome == Resolved(platform, s, w, storage, wb.files)
      ensures existsAnsibleLintModule == ExistsPythonImportModule(w.exec, s.interpreterPath, "ansiblelint")
      ensures wb.messages == old(wb.messages) + (if outcome.Aborted? then [Error(outcome.notice)] else [])
      ensures clientStarted == (outcome.Started? || old(clientStarted))
    {
      ghost var pr := ProbesOf(platform, s, w, storage, wb.files);
      assert pr.custom && pr.pythonFound == pythonCommandPaths.Some? && pr.sysAnsible == existsAnsibleCmd;
      var ansibleModule := ExistsPythonImportModule(w.exec, pythonInterpreterPath, "ansible");
      existsAnsibleLintModule := ExistsPythonImportModule(w.exec, pythonInterpreterPath, "ansiblelint");
      if !ansibleModule {
        wb.Show(Error(AnsibleModuleMissing));
        return Aborted(AnsibleModuleMissing);
      }
      clientStarted := true;
      var docCommandsPath := if existsAnsibleCmd then Some(s.ansibleDocPath) else None;
      outcome := Started(DisabledFeatures(s.disableProgressNotifications), pythonCommandPaths.Some?, docCommandsPath);
    }

    /** The part of `activate` that runs when no interpreter is configured: consult the venv
        when a system tool is missing or `builtin.force` is set, install (after asking) when
        neither system nor venv `ansible` exists and an interpreter was found, look again,
        and start the client with whichever `ansible` was found. */
    method StartWithoutInterpreter(wb: Workbench, w: World, s: Settings, storage: string,
                                   pythonCommandPaths: Option<PythonPaths>, ghost d: Decision, ghost installCmd: string)
      returns (outcome: Activation)
      requires pythonInterpreterPath == s.interpreterPath == ""
      requires pythonCommandPaths == GetCurrentPythonPath(s.interpreterPath, w.which, w.realpath).value
      requires existsAnsibleCmd == ExistsCmdWithHelpOpt(w.exec, s.ansiblePath)
      requires existsAnsibleLintCmd == ExistsCmdWithHelpOpt(w.exec, s.ansibleLintPath)
      requires d == Decide(ProbesOf(platform, s, w, storage, wb.files))
      requires installCmd == InstallCommand(InstallPython(s, w), platform, storage, s)
      modifies this`builtinLookups, this`clientStarted, wb`files, wb`messages, wb`prompts, wb`statusVisible, wb`executed
      ensures outcome == Resolved(platform, s, w, storage, old(wb.files))
      ensures wb.prompts == old(wb.prompts) + (if d.install then [InstallPrompt] else [])
      ensures wb.files == (if d.install then FilesAfterInstallWrapper(platform, old(wb.files), storage, w) else old(wb.files))
      ensures builtinLookups == old(builtinLookups) + (if d.consultBuiltin then 1 else 0) + (if d.install then 1 else 0)
      ensures wb.executed == old(wb.executed) + StepCommands(d, w, installCmd)
      ensures wb.messages == old(wb.messages) + StepNotices(d, w, installCmd)
      ensures wb.statusVisible == (old(wb.statusVisible) && StepCommands(d, w, installCmd) == [])
      ensures clientStarted == (outcome.Started? || old(clientStarted))
    {
      ghost var files := wb.files;
      ghost var pr := ProbesOf(platform, s, w, storage, files);
      assert !pr.custom && pr.sysAnsible == existsAnsibleCmd && pr.sysLint == existsAnsibleLintCmd;
      assert pr.pythonFound == pythonCommandPaths.Some?;

      var existsExtAnsibleCmd, ansibleBuiltinPath, ansibleDocBuiltinPath := ConsultVenv(wb, s, storage);

      if !existsAnsibleCmd && !existsExtAnsibleCmd {
        if pythonCommandPaths.Some? {
          assert d.install && pythonCommandPaths.value.resolved == InstallPython(s, w);
          ansibleBuiltinPath, ansibleDocBuiltinPath := InstallAndLookAgain(wb, w, pythonCommandPaths.value.resolved, s, storage);
          if ansibleBuiltinPath != "" {
            existsExtAnsibleCmd := true;
          }
        } else {
          assert !d.install && d.verdict == Fatal(NoPython);
          wb.Show(Error(NoPython));
          return Aborted(NoPython);
        }
      }

      outcome := StartWithAnsible(wb, s, pythonCommandPaths.Some?, existsExtAnsibleCmd, ansibleDocBuiltinPath);
      assert outcome.Started? ==> outcome.docCommandsPath == DocCommandsPath(platform, s, w, storage, files);
    }

    /** The end of `activate` without a configured interpreter: give up when neither system
        nor venv `ansible` exists, otherwise start the client, registering the documentation
        commands with the system `ansible-doc` or else the venv's, when there is one. */
    method StartWithAnsible(wb: Workbench, s: Settings, pythonFound: bool, existsExtAnsibleCmd: bool,
                            ansibleDocBuiltinPath: string)
      returns (outcome: Activation)
      modifies this`clientStarted, wb`messages
      ensures !existsAnsibleCmd && !existsExtAnsibleCmd ==>
        outcome == Aborted(AnsibleNotFound) && wb.messages == old(wb.messages) + [Error(AnsibleNotFound)]
      ensures existsAnsibleCmd || existsExtAnsibleCmd ==>
        && wb.messages == old(wb.messages)
        && outcome == Started(DisabledFeatures(s.disableProgressNotifications), pythonFound,
                              if existsAnsibleCmd then Some(s.ansibleDocPath)
                              else if ansibleDocBuiltinPath != "" then Some(ansibleDocBuiltinPath)
                              else None)
      ensures clientStarted == (outcome.Started? || old(clientStarted))
    {
      if !existsAnsibleCmd && !existsExtAnsibleCmd {
        wb.Show(Error(AnsibleNotFound));
        return Aborted(AnsibleNotFound);
      }

      clientStarted := true;
      var docCommandsPath :=
        if existsAnsibleCmd then Some(s.ansibleDocPath)
        else if ansibleDocBuiltinPath != "" then Some(ansibleDocBuiltinPath)
        else None;
      outcome := Started(DisabledFeatures(s.disableProgressNotifications), pythonFound, docCommandsPath);
    }

    /** The first look into the venv, taken when a system tool is missing or `builtin.force`
        is set; returns whether the venv holds `ansible`, and the venv's `ansible` and
        `ansible-doc` paths (`""` when not looked up). */
    method ConsultVenv(wb: Workbench, s: Settings, storage: string)
      returns (existsExtAnsibleCmd: bool, ansibleBuiltinPath: string, ansibleDocBuiltinPath: string)
      modifies this`builtinLookups
      ensures var consult := !existsAnsibleCmd || !existsAnsibleLintCmd || s.force;
        && ansibleBuiltinPath == (if consult then GetBuiltinToolPath(platform, wb.files, storage, "ansible") else "")
        && ansibleDocBuiltinPath == (if consult then GetBuiltinToolPath(platform, wb.files, storage, "ansible-doc") else "")
        && existsExtAnsibleCmd == (ansibleBuiltinPath != "")
        && builtinLookups == old(builtinLookups) + (if consult then 1 else 0)
    {
      existsExtAnsibleCmd, ansibleBuiltinPath, ansibleDocBuiltinPath := false, "", "";
      if !existsAnsibleCmd || !existsAnsibleLintCmd || s.force {
        ansibleBuiltinPath := GetBuiltinToolPath(platform, wb.files, storage, "ansible");
        ansibleDocBuiltinPath := GetBuiltinToolPath(platform, wb.files, storage, "ansible-doc");
        builtinLookups := builtinLookups + 1;
        if ansibleBuiltinPath != "" {
          existsExtAnsibleCmd := true;
        }
      }
    }

    /** `installWrapper` followed by a second look into the venv; returns the venv's
        `ansible` and `ansible-doc` paths as they are after the install step. */
    method InstallAndLookAgain(wb: Workbench, w: World, python: string, s: Settings, storage: string)
      returns (ansibleBuiltinPath: string, ansibleDocBuiltinPath: string)
      modifies this`builtinLookups, wb`files, wb`messages, wb`prompts, wb`statusVisible, wb`executed
      ensures wb.prompts == old(wb.prompts) + [InstallPrompt]
      ensures wb.files == FilesAfterInstallWrapper(platform, old(wb.files), storage, w)
      ensures builtinLookups == old(builtinLookups) + 1
      ensures wb.executed == old(wb.executed) + InstallWrapperCommands(w, InstallCommand(python, platform, storage, s))
      ensures wb.messages == old(wb.messages) + InstallWrapperNotices(w, InstallCommand(python, platform, storage, s))
      ensures wb.statusVisible == (old(wb.statusVisible) && !w.promptAnswer)
      ensures ansibleBuiltinPath == GetBuiltinToolPath(platform, VenvEvidence(true, w, old(wb.files)), storage, "ansible")
      ensures ansibleDocBuiltinPath == GetBuiltinToolPath(platform, VenvEvidence(true, w, old(wb.files)), storage, "ansible-doc")
    {
      BuiltinToolAfterInstall(platform, wb.files, storage, w.installCreates, "ansible");
      BuiltinToolAfterInstall(platform, wb.files, storage, w.installCreates, "ansible-doc");
      InstallWrapper(wb, w, python, platform, storage, s);
      ansibleBuiltinPath := GetBuiltinToolPath(platform, wb.files, storage, "ansible");
      ansibleDocBuiltinPath := GetBuiltinToolPath(platform, wb.files, storage, "ansible-doc");
      builtinLookups := builtinLookups + 1;
    }

    /** The interpreter the server is pointed at instead of `python.interpreterPath`: the
        venv's, when no interpreter is configured and there is no system `ansible`. */
    function BuiltinPython(): (r: Option<string>)
      reads this
      ensures r.Some? <==> pythonInterpreterPath == "" && !existsAnsibleCmd
      ensures r.Some? ==> r.value == GetBuiltinPythonPath(platform, extensionStoragePath)
    {
      if pythonInterpreterPath == "" && !existsAnsibleCmd then Some(GetBuiltinPythonPath(platform, extensionStoragePath))
      else None
    }

    /** `ansibleLint.enabled` is forced off: the configured interpreter lacks `ansiblelint`,
        or, with system `ansible` and no configured interpreter, `ansible-lint` is missing. */
    predicate LintForcedOff()
      reads this
    {
      (pythonInterpreterPath != "" && !existsAnsibleLintModule) ||
      (pythonInterpreterPath == "" && existsAnsibleCmd && !existsAnsibleLintCmd)
    }

    /** The `configuration` middleware: a request that asks for the `ansible` section is
        answered with one rewritten copy of it; any other request goes to `next` unchanged. */
    method Configuration(items: seq<ConfigurationItem>, getConfiguration: (string, string) -> JsonValue)
      returns (res: MiddlewareResult)
      ensures res.Forwarded? <==> FindSection(items, "ansible").None?
      ensures res.Forwarded? ==> res.items == items
      ensures !res.Forwarded? ==>
        var r := Patch(getConfiguration("ansible", FindSection(items, "ansible").value.scopeUri), BuiltinPython(), LintForcedOff());
        && (res.Answered? <==> r.Success?)
        && (res.Answered? ==> res.configs == [r.value])
        && (res.Threw? ==> res.error == r.error)
    {
      var ansibleItem := FindSection(items, "ansible");
      if ansibleItem.None? {
        return Forwarded(items);
      }
      var extensionConfig := ToJSONObject(getConfiguration(ansibleItem.value.section, ansibleItem.value.scopeUri));
      var patched := Patch(extensionConfig, BuiltinPython(), LintForcedOff());
      if patched.Failure? {
        return MiddlewareResult.Threw(patched.error);
      }
      return Answered([patched.value]);
    }
  }

  /** The rewrite the middleware applies to a copy of the `ansible` section: both tool paths
      become the bare command names, then either the interpreter is replaced by
      `builtinPython` or, when `lintOff`, linting is switched off. Each write is a
      `TypeError` when the section written into is not an object. */
  function Patch(c: Json, builtinPython: Option<string>, lintOff: bool): Result<Json> {
    match SetIn(c, "ansible", "path", Str("ansible"))
    case Failure(e) => Failure(e)
    case Success(c1) =>
      match SetIn(c1, "ansibleLint", "path", Str("ansible-lint"))
      case Failure(e) => Failure(e)
      case Success(c2) =>
        if builtinPython.Some? then SetIn(c2, "python", "interpreterPath", Str(builtinPython.value))
        else if lintOff then SetIn(c2, "ansibleLint", "enabled", Bool(false))
        else Success(c2)
  }

  /** The names the rewrite writes are pairwise different. */
  lemma SectionNamesDistinct()
    ensures "ansible" != "ansibleLint" && "ansible" != "python" && "ansibleLint" != "python"
    ensures "path" != "enabled" && "path" != "interpreterPath"
  {
    assert |"ansible"| == 7 && |"ansibleLint"| == 11 && |"python"| == 6;
    assert |"path"| == 4 && |"enabled"| == 7 && |"interpreterPath"| == 15;
  }

  /** Every section the rewrite writes into takes the assignment. */
  predicate Patchable(c: Json, builtinPython: Option<string>) {
    && c.Obj?
    && AssignableAt(c, "ansible")
    && AssignableAt(c, "ansibleLint")
    && (builtinPython.Some? ==> AssignableAt(c, "python"))
  }

  /** The rewrite succeeds exactly when every section it writes into is an object or an
      array. */
  lemma PatchSucceeds(c: Json, builtinPython: Option<string>, lintOff: bool)
    ensures Patch(c, builtinPython, lintOff).Success? <==>
      && c.Obj?
      && AssignableAt(c, "ansible")
      && AssignableAt(c, "ansibleLint")
      && (builtinPython.Some? ==> AssignableAt(c, "python"))
  {
    SectionNamesDistinct();
    SetInGet(c, "ansible", "path", Str("ansible"), "ansibleLint");
    SetInGet(c, "ansible", "path", Str("ansible"), "python");
    var s1 := SetIn(c, "ansible", "path", Str("ansible"));
    if s1.Success? {
      var c1 := s1.value;
      SetInGet(c1, "ansibleLint", "path", Str("ansible-lint"), "python");
      var s2 := SetIn(c1, "ansibleLint", "path", Str("ansible-lint"));
      if s2.Success? {
        var c2 := s2.value;
        SetInGet(c2, "python", "interpreterPath", Str(if builtinPython.Some? then builtinPython.value else ""), "python");
        SetInGet(c2, "ansibleLint", "enabled", Bool(false), "ansibleLint");
      }
    }
  }

  /** The values the rewrite writes; a section that is an array keeps no property. */
  lemma PatchValues(c: Json, builtinPython: Option<string>, lintOff: bool)
    requires Patchable(c, builtinPython)
    ensures Patch(c, builtinPython, lintOff).Success?
    ensures var r := Patch(c, builtinPython, lintOff).value;
      && Get2(r, "ansible", "path") == (if ObjectAt(c, "ansible") then Some(Str("ansible")) else None)
      && Get2(r, "ansibleLint", "path") == (if ObjectAt(c, "ansibleLint") then Some(Str("ansible-lint")) else None)
      && Get2(r, "python", "interpreterPath") ==
         (if builtinPython.Some? && ObjectAt(c, "python") then Some(Str(builtinPython.value))
          else Get2(c, "python", "interpreterPath"))
      && Get2(r, "ansibleLint", "enabled") ==
         (if builtinPython.None? && lintOff && ObjectAt(c, "ansibleLint") then Some(Bool(false))
          else Get2(c, "ansibleLint", "enabled"))
  {
    SectionNamesDistinct();
    PatchSucceeds(c, builtinPython, lintOff);
    var c1 := SetIn(c, "ansible", "path", Str("ansible")).value;
    var c2 := SetIn(c1, "ansibleLint", "path", Str("ansible-lint")).value;
    var r := Patch(c, builtinPython, lintOff).value;
    SetInGet2(c, "ansible", "path", Str("ansible"), "ansible", "path");
    SetInGet2(c, "ansible", "path", Str("ansible"), "python", "interpreterPath");
    SetInGet2(c, "ansible", "path", Str("ansible"), "ansibleLint", "enabled");
    SetInGet2(c1, "ansibleLint", "path", Str("ansible-lint"), "ansible", "path");
    SetInGet2(c1, "ansibleLint", "path", Str("ansible-lint"), "ansibleLint", "path");
    SetInGet2(c1, "ansibleLint", "path", Str("ansible-lint"), "python", "interpreterPath");
    SetInGet2(c1, "ansibleLint", "path", Str("ansible-lint"), "ansibleLint", "enabled");
    if builtinPython.Some? {
      var v := Str(builtinPython.value);
      SetInGet2(c2, "python", "interpreterPath", v, "ansible", "path");
      SetInGet2(c2, "python", "interpreterPath", v, "ansibleLint", "path");
      SetInGet2(c2, "python", "interpreterPath", v, "python", "interpreterPath");
      SetInGet2(c2, "python", "interpreterPath", v, "ansibleLint", "enabled");
    } else if lintOff {
      SetInGet2(c2, "ansibleLint", "enabled", Bool(false), "ansible", "path");
      SetInGet2(c2, "ansibleLint", "enabled", Bool(false), "ansibleLint", "path");
      SetInGet2(c2, "ansibleLint", "enabled", Bool(false), "python", "interpreterPath");
      SetInGet2(c2, "ansibleLint", "enabled", Bool(false), "ansibleLint", "enabled");
    }
  }

  /** Nothing the rewrite does not name changes. */
  lemma PatchFrame(c: Json, builtinPython: Option<string>, lintOff: bool)
    requires Patchable(c, builtinPython)
    ensures Patch(c, builtinPython, lintOff).Success?
    ensures var r := Patch(c, builtinPython, lintOff).value;
      && (forall sec :: sec != "ansible" && sec != "ansibleLint" && sec != "python" ==> Get(r, sec) == Get(c, sec))
      && (forall k :: k != "path" ==> Get2(r, "ansible", k) == Get2(c, "ansible", k))
      && (forall k :: k != "path" && k != "enabled" ==> Get2(r, "ansibleLint", k) == Get2(c, "ansibleLint", k))
      && (forall k :: k != "interpreterPath" ==> Get2(r, "python", k) == Get2(c, "python", k))
  {
    SectionNamesDistinct();
    PatchSucceeds(c, builtinPython, lintOff);
    var a := Str("ansible");
    var l := Str("ansible-lint");
    var c1 := SetIn(c, "ansible", "path", a).value;
    var c2 := SetIn(c1, "ansibleLint", "path", l).value;
    var r := Patch(c, builtinPython, lintOff).value;
    var py := Str(if builtinPython.Some? then builtinPython.value else "");
    forall sec | sec != "ansible" && sec != "ansibleLint" && sec != "python" ensures Get(r, sec) == Get(c, sec) {
      SetInGet(c, "ansible", "path", a, sec);
      SetInGet(c1, "ansibleLint", "path", l, sec);
      SetInGet(c2, "python", "interpreterPath", py, sec);
      SetInGet(c2, "ansibleLint", "enabled", Bool(false), sec);
    }
    forall sec, k | (sec == "ansible" && k != "path") || (sec == "ansibleLint" && k != "path" && k != "enabled") ||
                    (sec == "python" && k != "interpreterPath")
      ensures Get2(r, sec, k) == Get2(c, sec, k)
    {
      SetInGet2(c, "ansible", "path", a, sec, k);
      SetInGet2(c1, "ansibleLint", "path", l, sec, k);
      if builtinPython.Some? {
        SetInGet2(c2, "python", "interpreterPath", py, sec, k);
      } else if lintOff {
        SetInGet2(c2, "ansibleLint", "enabled", Bool(false), sec, k);
      }
    }
  }

  /** The answer is a well-formed value again. */
  lemma PatchWellFormed(c: Json, builtinPython: Option<string>, lintOff: bool)
    requires WellFormed(c) && Patchable(c, builtinPython)
    ensures Patch(c, builtinPython, lintOff).Success?
    ensures WellFormed(Patch(c, builtinPython, lintOff).value)
  {
    PatchSucceeds(c, builtinPython, lintOff);
    var c1 := SetIn(c, "ansible", "path", Str("ansible")).value;
    SetInWellFormed(c, "ansible", "path", Str("ansible"));
    var c2 := SetIn(c1, "ansibleLint", "path", Str("ansible-lint")).value;
    SetInWellFormed(c1, "ansibleLint", "path", Str("ansible-lint"));
    if builtinPython.Some? {
      SetInWellFormed(c2, "python", "interpreterPath", Str(builtinPython.value));
    } else if lintOff {
      SetInWellFormed(c2, "ansibleLint", "enabled", Bool(false));
    }
  }
}
