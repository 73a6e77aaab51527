/** Installation of the language server's requirements into the managed virtual environment
    (src/installer.ts): the pinned package specs, the exact shell command line, and the
    prompt / failure flow around it. The elapsed-time progress timer is not modelled. */
module Installer {
  import opened Common
  import opened Host
  import opened Tool

  /** `_installToolVersionStr`: `name==version` when a version is configured, else `name`. */
  function InstallToolVersionStr(name: string, version: string): (r: string)
    ensures IsPrefix(name, r)
    ensures version == "" ==> r == name
    ensures version != "" ==> r[|name|..] == "==" + version
  {
    if version != "" then name + "==" + version else name
  }

  /** The package name and the pinned version can be read back from a spec whose name has
      no `=` (all three package names qualify). */
  lemma {:induction false} VersionStrRoundTrip(name: string, version: string)
    requires '=' !in name
    ensures BeforeFirst(InstallToolVersionStr(name, version), '=') == name
    ensures version != "" ==> InstallToolVersionStr(name, version)[|name| + 2..] == version
  {
    var r := InstallToolVersionStr(name, version);
    if version != "" {
      assert r == name + ("==" + version);
      BeforeFirstOfJoin(name, "==" + version, '=');
    } else {
      assert r == name + [];
      BeforeFirstOfJoin(name, [], '=');
    }
  }

  /** The interpreter inside the venv that runs pip: `venv/bin/python`, or on win32
      `venv\Scripts\python` with no `.exe` suffix. */
  function VenvPython(p: Platform, storage: string): (r: string)
    ensures p == Posix ==> r == VenvFile(p, storage, "bin", "python")
    ensures p == Win32 ==> r == VenvFile(p, storage, "Scripts", "python")
  {
    var pathVenvPython := VenvFile(p, storage, "bin", "python");
    if p == Win32 then VenvFile(p, storage, "Scripts", "python") else pathVenvPython
  }

  /** The installer's interpreter is the one the configuration later points the server at,
      except that on win32 the latter carries the `.exe` suffix. */
  lemma VenvPythonAndBuiltinPython(p: Platform, storage: string)
    ensures p == Posix ==> GetBuiltinPythonPath(p, storage) == VenvPython(p, storage)
    ensures p == Win32 ==> GetBuiltinPythonPath(p, storage) == VenvPython(p, storage) + ".exe"
  {
    if p == Win32 {
      var d := VenvDir(p, storage) + Sep(p) + "Scripts" + Sep(p);
      assert GetBuiltinPythonPath(p, storage) == d + ("python" + ".exe");
      assert VenvPython(p, storage) == d + "python";
    }
  }

  /** The `ansible` and `ansible-lint` specs, as the configuration pins them. */
  function AnsibleSpec(s: Settings): string {
    InstallToolVersionStr("ansible", s.ansibleVersion)
  }

  function AnsibleLintSpec(s: Settings): string {
    InstallToolVersionStr("ansible-lint", s.ansibleLintVersion)
  }

  /** The shell command line: create the venv with the given interpreter, then upgrade pip
      and install `ansible` and `ansible-lint` with the venv's own interpreter. */
  function InstallCommand(python: string, p: Platform, storage: string, s: Settings): (r: string)
    ensures IsPrefix("\"" + python + "\" -m venv " + VenvDir(p, storage) + " && ", r)
    ensures var tail := VenvPython(p, storage) + " -m pip install -U pip " + AnsibleSpec(s) + " " + AnsibleLintSpec(s);
            |tail| <= |r| && r[|r| - |tail|..] == tail
    ensures |r| == |"\"" + python + "\" -m venv " + VenvDir(p, storage) + " && "| +
                   |VenvPython(p, storage) + " -m pip install -U pip " + AnsibleSpec(s) + " " + AnsibleLintSpec(s)|
  {
    var head := "\"" + python + "\" -m venv " + VenvDir(p, storage) + " && ";
    var tail := VenvPython(p, storage) + " -m pip install -U pip " + AnsibleSpec(s) + " " + AnsibleLintSpec(s);
    assert (head + tail)[..|head|] == head;
    assert (head + tail)[|head + tail| - |tail|..] == tail;
    head + tail
  }

  /** `builtin.isWithYamllint` and `builtin.yamllintVersion` never reach the command line:
      the source appends the yamllint spec with `concat` and drops the result. */
  lemma InstallCommandIgnoresYamllint(python: string, p: Platform, storage: string, s: Settings,
                                      isWithYamllint: bool, yamllintVersion: string)
    ensures InstallCommand(python, p, storage, s) ==
            InstallCommand(python, p, storage, s.(isWithYamllint := isWithYamllint, yamllintVersion := yamllintVersion))
  {
  }

  /** The file system after `rimrafSync(venv)`: nothing at or below the venv remains. */
  function RemoveTree(p: Platform, files: set<string>, dir: string): (r: set<string>)
    ensures r <= files
    ensures forall f :: f in files ==> (f in r <==> !UnderDir(p, f, dir))
  {
    set f | f in files && !UnderDir(p, f, dir)
  }

  /** The file system after the install command ran (whatever its exit status). */
  function FilesAfterInstall(p: Platform, files: set<string>, storage: string, created: set<string>): set<string> {
    RemoveTree(p, files, VenvDir(p, storage)) + created
  }

  /** `installLsRequirementsTools`: removes the venv, runs the install command once and
      reports the outcome; `ok == false` stands for the `Error` it throws on failure. */
  method InstallLsRequirementsTools(wb: Workbench, w: World, python: string, p: Platform,
                                    storage: string, s: Settings) returns (ok: bool)
    modifies wb`files, wb`messages, wb`prompts, wb`statusVisible, wb`executed
    ensures ok <==> w.exec(InstallCommand(python, p, storage, s)).Done?
    ensures wb.executed == old(wb.executed) + [InstallCommand(python, p, storage, s)]
    ensures wb.files == FilesAfterInstall(p, old(wb.files), storage, w.installCreates)
    ensures !wb.statusVisible
    ensures ok ==> wb.messages == old(wb.messages) + [Info(Installing), Info(Installed)]
    ensures !ok ==>
      wb.messages == old(wb.messages) + [Info(Installing), Error(InstallFailed(w.exec(InstallCommand(python, p, storage, s)).error))]
    ensures wb.prompts == old(wb.prompts)
  {
    var pathVenv := VenvDir(p, storage);
    wb.statusVisible := true;

    var installCmd := InstallCommand(python, p, storage, s);
    if s.isWithYamllint {
      var discarded := installCmd + " " + InstallToolVersionStr("yamllint", s.yamllintVersion);
    }

    wb.files := RemoveTree(p, wb.files, pathVenv);
    ok := RunInstallCommand(wb, w, installCmd);
  }

  /** The part of `installLsRequirementsTools` after the venv is removed: announce, run the
      command line once, hide the progress item and report. */
  method RunInstallCommand(wb: Workbench, w: World, installCmd: string) returns (ok: bool)
    modifies wb`files, wb`messages, wb`prompts, wb`statusVisible, wb`executed
    ensures ok <==> w.exec(installCmd).Done?
    ensures wb.executed == old(wb.executed) + [installCmd]
    ensures wb.files == old(wb.files) + w.installCreates
    ensures !wb.statusVisible
    ensures ok ==> wb.messages == old(wb.messages) + [Info(Installing), Info(Installed)]
    ensures !ok ==> wb.messages == old(wb.messages) + [Info(Installing), Error(InstallFailed(w.exec(installCmd).error))]
    ensures wb.prompts == old(wb.prompts)
  {
    wb.Show(Info(Installing));
    ghost var shown := wb.messages;
    wb.executed := wb.executed + [installCmd];
    wb.files := wb.files + w.installCreates;
    match w.exec(installCmd)
    case Done(_) =>
      wb.statusVisible := false;
      wb.Show(Info(Installed));
      assert wb.messages == shown + [Info(Installed)];
      ok := true;
    case Failed(e) =>
      wb.statusVisible := false;
      wb.Show(Error(InstallFailed(e)));
      assert wb.messages == shown + [Error(InstallFailed(e))];
      ok := false;
  }

  /** The notices one run of `installCmd` shows: the announcement, then the success or the
      failure report with the command's error. */
  function InstallNotices(w: World, installCmd: string): seq<Message> {
    match w.exec(installCmd)
    case Done(_) => [Info(Installing), Info(Installed)]
    case Failed(e) => [Info(Installing), Error(InstallFailed(e))]
  }

  /** The notices `installWrapper` shows after its prompt: none when the user declines. */
  function InstallWrapperNotices(w: World, installCmd: string): seq<Message> {
    if w.promptAnswer then InstallNotices(w, installCmd) else []
  }

  /** The command lines `installWrapper` runs: the install command once, on a yes only. */
  function InstallWrapperCommands(w: World, installCmd: string): seq<string> {
    if w.promptAnswer then [installCmd] else []
  }

  /** What `installWrapper` leaves on disk: unchanged when the prompt is declined. */
  function FilesAfterInstallWrapper(p: Platform, files: set<string>, storage: string, w: World): set<string> {
    if w.promptAnswer then FilesAfterInstall(p, files, storage, w.installCreates) else files
  }

  /** The venv is removed before the install command runs, so what the venv holds afterwards
      is exactly what the install created: a stale venv tool never counts. */
  lemma {:induction false} BuiltinToolAfterInstall(p: Platform, files: set<string>, storage: string,
                                                   created: set<string>, toolName: string)
    ensures GetBuiltinToolPath(p, FilesAfterInstall(p, files, storage, created), storage, toolName) ==
            GetBuiltinToolPath(p, created, storage, toolName)
  {
    var after := FilesAfterInstall(p, files, storage, created);
    var removed := RemoveTree(p, files, VenvDir(p, storage));
    VenvFileUnderVenv(p, storage, "Scripts", toolName + ".exe");
    VenvFileUnderVenv(p, storage, "bin", toolName);
    assert VenvFile(p, storage, "Scripts", toolName + ".exe") !in removed;
    assert VenvFile(p, storage, "bin", toolName) !in removed;
    assert BuiltinToolInstalled(p, after, storage, toolName) <==> BuiltinToolInstalled(p, created, storage, toolName);
  }

  /** `installWrapper`: asks first; installs only on a yes; swallows an install failure, so
      it always returns normally. */
  method InstallWrapper(wb: Workbench, w: World, python: string, p: Platform, storage: string, s: Settings)
    modifies wb`files, wb`messages, wb`prompts, wb`statusVisible, wb`executed
    ensures wb.prompts == old(wb.prompts) + [InstallPrompt]
    ensures wb.files == FilesAfterInstallWrapper(p, old(wb.files), storage, w)
    ensures wb.executed == old(wb.executed) + InstallWrapperCommands(w, InstallCommand(python, p, storage, s))
    ensures wb.messages == old(wb.messages) + InstallWrapperNotices(w, InstallCommand(python, p, storage, s))
    ensures wb.statusVisible == (old(wb.statusVisible) && !w.promptAnswer)
  {
    wb.prompts := wb.prompts + [InstallPrompt];
    if w.promptAnswer {
      var ok := InstallLsRequirementsTools(wb, w, python, p, storage, s);
      if !ok {
        return;
      }
    } else {
      return;
    }
  }
}
