/** Tool path resolution (src/tool.ts): which Python interpreter to use, where the managed
    virtual environment keeps its executables, and the fail-soft probes for commands and
    importable Python modules. Every function here only reads; the file system is a set of
    paths and the subprocess and lookup calls are the oracles of `Host.World`. */
module Tool {
  import opened Common
  import opened Host

  /** The path separator `path.join` uses on the platform. */
  function Sep(p: Platform): (r: string)
    ensures |r| == 1
  {
    if p == Win32 then "\\" else "/"
  }

  /** `path.join(storage, 'ansible', 'venv')`, the managed virtual environment. The
      normalisation `path.join` performs on `.`, `..` and repeated separators is not
      modelled. */
  function VenvDir(p: Platform, storage: string): string {
    storage + Sep(p) + "ansible" + Sep(p) + "venv"
  }

  /** `path.join(storage, 'ansible', 'venv', sub, name)`. */
  function VenvFile(p: Platform, storage: string, sub: string, name: string): string {
    VenvDir(p, storage) + Sep(p) + sub + Sep(p) + name
  }

  /** `f` is `dir` itself or lies somewhere below it. */
  predicate UnderDir(p: Platform, f: string, dir: string) {
    f == dir || IsPrefix(dir + Sep(p), f)
  }

  /** Every file of the venv's executable directories lies below the venv directory. */
  lemma VenvFileUnderVenv(p: Platform, storage: string, sub: string, name: string)
    ensures UnderDir(p, VenvFile(p, storage, sub, name), VenvDir(p, storage))
  {
    var d := VenvDir(p, storage) + Sep(p);
    var f := VenvFile(p, storage, sub, name);
    assert f == d + (sub + Sep(p) + name);
    assert f[..|d|] == d;
  }

  /** Where the current platform's layout puts executable `name` inside the venv:
      `Scripts/<name>.exe` on win32 and `bin/<name>` elsewhere. */
  function ExecutableLayout(p: Platform, storage: string, name: string): (r: string)
    ensures r != ""
  {
    if p == Win32 then VenvFile(p, storage, "Scripts", name + ".exe") else VenvFile(p, storage, "bin", name)
  }

  /** Every executable of the layout lies below the venv directory, so removing the venv
      removes it. */
  lemma ExecutableLayoutUnderVenv(p: Platform, storage: string, name: string)
    ensures UnderDir(p, ExecutableLayout(p, storage, name), VenvDir(p, storage))
  {
    if p == Win32 {
      VenvFileUnderVenv(p, storage, "Scripts", name + ".exe");
    } else {
      VenvFileUnderVenv(p, storage, "bin", name);
    }
  }

  /** The interpreter that was found, as reached through `PATH` or configuration (`env`)
      and with symbolic links resolved (`resolved`). */
  datatype PythonPaths = PythonPaths(env: string, resolved: string)

  /** Both `which.sync(name)` and `fs.realpathSync` of its answer succeed. */
  predicate Resolves(which: string -> Option<string>, realpath: string -> Option<string>, name: string) {
    which(name).Some? && realpath(which(name).value).Some?
  }

  /** One `try` block of `getCurrentPythonPath`: a failure of either call is swallowed. */
  function TryResolve(which: string -> Option<string>, realpath: string -> Option<string>, name: string): Option<PythonPaths> {
    match which(name)
    case None => None
    case Some(w) =>
      match realpath(w)
      case None => None
      case Some(rp) => Some(PythonPaths(w, rp))
  }

  /** `getCurrentPythonPath`: the configured interpreter wins (and a `realpath` failure on it
      propagates as `Failure`); otherwise `python3`, then `python`, then nothing. */
  function GetCurrentPythonPath(configured: string, which: string -> Option<string>,
                                realpath: string -> Option<string>): (r: Result<Option<PythonPaths>>)
    ensures configured != "" ==> (r.Success? <==> realpath(configured).Some?)
    ensures configured != "" && r.Success? ==>
      r.value == Some(PythonPaths(configured, realpath(configured).value))
    ensures configured == "" ==> r.Success?
    ensures configured == "" && Resolves(which, realpath, "python3") ==>
      r.value == Some(PythonPaths(which("python3").value, realpath(which("python3").value).value))
    ensures configured == "" && !Resolves(which, realpath, "python3") && Resolves(which, realpath, "python") ==>
      r.value == Some(PythonPaths(which("python").value, realpath(which("python").value).value))
    ensures configured == "" ==>
      (r.value.None? <==> !Resolves(which, realpath, "python3") && !Resolves(which, realpath, "python"))
  {
    if configured != "" then
      match realpath(configured)
      case None => Failure("realpathSync: " + configured)
      case Some(rp) => Success(Some(PythonPaths(configured, rp)))
    else
      match TryResolve(which, realpath, "python3")
      case Some(paths) => Success(Some(paths))
      case None => Success(TryResolve(which, realpath, "python"))
  }

  /** A configured interpreter is used without ever asking `which`. */
  lemma ConfiguredIgnoresWhich(configured: string, which1: string -> Option<string>,
                               which2: string -> Option<string>, realpath: string -> Option<string>)
    requires configured != ""
    ensures GetCurrentPythonPath(configured, which1, realpath) == GetCurrentPythonPath(configured, which2, realpath)
  {
  }

  /** One `try` block of `getCurrentPythonPath2`: `pythonPath` already holds the `which`
      answer when `realpath` throws, so that answer survives the swallowed exception.
      Returns the new value of `pythonPath` and whether the function returned. */
  function TryPath(current: string, name: string, isRealpath: bool,
                   which: string -> Option<string>, realpath: string -> Option<string>): (string, bool)
  {
    match which(name)
    case None => (current, false)
    case Some(w) =>
      if !isRealpath then (w, true)
      else match realpath(w)
        case None => (w, false)
        case Some(rp) => (rp, true)
  }

  /** `getCurrentPythonPath2`: the configured path verbatim, else `python3`, else `python`,
      resolved with `realpath` only when `isRealpath` is set, else `""`. */
  function GetCurrentPythonPath2(configured: string, isRealpath: bool,
                                 which: string -> Option<string>, realpath: string -> Option<string>): (r: string)
    ensures configured != "" ==> r == configured
    ensures configured == "" && which("python3").Some? && !isRealpath ==> r == which("python3").value
    ensures configured == "" && Resolves(which, realpath, "python3") && isRealpath ==>
      r == realpath(which("python3").value).value
    ensures configured == "" && which("python3").None? && which("python").Some? && !isRealpath ==>
      r == which("python").value
    ensures configured == "" && !Resolves(which, realpath, "python3") && Resolves(which, realpath, "python") && isRealpath ==>
      r == realpath(which("python").value).value
    ensures configured == "" && which("python3").None? && which("python").None? ==> r == ""
    ensures (configured == "" && isRealpath && which("python3").Some? && which("python").None? &&
             !Resolves(which, realpath, "python3")) ==> r == which("python3").value
    ensures (configured == "" && isRealpath && !Resolves(which, realpath, "python3") &&
             which("python").Some? && realpath(which("python").value).None?) ==> r == which("python").value
  {
    if configured != "" then configured
    else
      var (p3, done3) := TryPath(configured, "python3", isRealpath, which, realpath);
      if done3 then p3
      else TryPath(p3, "python", isRealpath, which, realpath).0
  }

  /** `getBuiltinPythonPath`: the venv's interpreter for the current platform, with no check
      that it exists. */
  function GetBuiltinPythonPath(p: Platform, storage: string): (r: string)
    ensures r == ExecutableLayout(p, storage, "python")
  {
    assert "python" + ".exe" == "python.exe";
    if p == Win32 then VenvFile(p, storage, "Scripts", "python.exe") else VenvFile(p, storage, "bin", "python")
  }

  /** The tools the managed venv can provide. */
  predicate IsBuiltinTool(toolName: string) {
    toolName == "ansible" || toolName == "ansible-lint" || toolName == "ansible-doc"
  }

  /** The tool is installed in the venv under either layout, whatever the platform. */
  predicate BuiltinToolInstalled(p: Platform, files: set<string>, storage: string, toolName: string) {
    VenvFile(p, storage, "Scripts", toolName + ".exe") in files || VenvFile(p, storage, "bin", toolName) in files
  }

  /** `getBuiltinToolPath`: the path of a supported tool inside the venv if it is installed
      there, else `""`. The source tests the three tool names one after the other; at most
      one of them matches, so one test stands for the three. */
  function GetBuiltinToolPath(p: Platform, files: set<string>, storage: string, toolName: string): (r: string)
    ensures !IsBuiltinTool(toolName) ==> r == ""
    ensures IsBuiltinTool(toolName) ==> (r != "" <==> BuiltinToolInstalled(p, files, storage, toolName))
    ensures r != "" ==> r == ExecutableLayout(p, storage, toolName)
  {
    if IsBuiltinTool(toolName) && BuiltinToolInstalled(p, files, storage, toolName)
    then ExecutableLayout(p, storage, toolName)
    else ""
  }

  /** `<command> -h`, the line `existsCmdWithHelpOpt` runs. */
  function HelpCheckCommand(command: string): (r: string)
    ensures IsPrefix(command, r) && r[|command|..] == " -h"
  {
    command + " -h"
  }

  /** `existsCmdWithHelpOpt`: the command exists iff `<command> -h` completes without
      error; a failure of any kind is the answer `false`, never an exception. */
  function ExistsCmdWithHelpOpt(exec: string -> ExecResult, command: string): (r: bool)
    ensures r <==> exec(HelpCheckCommand(command)).Done?
  {
    match exec(HelpCheckCommand(command))
    case Done(_) => true
    case Failed(_) => false
  }

  /** `<python> -c "import <module>"`, the line `existsPythonImportModule` runs. */
  function ImportCheckCommand(python: string, moduleName: string): (r: string)
    ensures IsPrefix(python, r)
    ensures r[|python|..] == " -c \"import " + moduleName + "\""
  {
    var tail := " -c \"import " + moduleName + "\"";
    assert (python + tail)[|python|..] == tail;
    python + tail
  }

  /** `existsPythonImportModule`: the module is importable iff the import one-liner
      completes without error; a failure is the answer `false`, never an exception. */
  function ExistsPythonImportModule(exec: string -> ExecResult, python: string, moduleName: string): (r: bool)
    ensures r <==> exec(ImportCheckCommand(python, moduleName)).Done?
  {
    match exec(ImportCheckCommand(python, moduleName))
    case Done(_) => true
    case Failed(_) => false
  }
}
