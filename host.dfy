/** What the extension sees of its host: the platform, the `ansible` configuration section,
    the outside world as oracles (subprocesses, `which`, `realpath`, the user's answer to the
    install prompt), and the editor window together with the file system as mutable state. */
module Host {
  import opened Common

  /** `process.platform === 'win32'` or any other platform. */
  datatype Platform = Win32 | Posix

  /** The keys of the `ansible` configuration section that the core reads. A version string
      that is unset or empty is `""`, which the source treats alike (both are falsy). */
  datatype Settings = Settings(
    enable: bool,
    ansiblePath: string,
    ansibleLintPath: string,
    ansibleDocPath: string,
    interpreterPath: string,
    force: bool,
    isWithYamllint: bool,
    ansibleVersion: string,
    ansibleLintVersion: string,
    yamllintVersion: string,
    disableProgressNotifications: bool)

  /** The outcome of `child_process.exec` on one command line. */
  datatype ExecResult = Done(stdout: string) | Failed(error: string)

  /** Everything outside the extension, as fixed answers:
      `exec` runs a shell command line; `which` and `realpath` return `None` where the
      library call throws; `promptAnswer` is the user's reply to the install prompt;
      `installCreates` are the files the install command leaves behind. */
  datatype World = World(
    exec: string -> ExecResult,
    which: string -> Option<string>,
    realpath: string -> Option<string>,
    promptAnswer: bool,
    installCreates: set<string>)

  /** What the extension puts in front of the user: the install prompt and its
      notifications. `Text` gives the exact wording. */
  datatype Notice =
    | InstallPrompt
    | Installing
    | Installed
    | InstallFailed(error: string)
    | NoPython
    | AnsibleNotFound
    | AnsibleModuleMissing

  function Text(n: Notice): string {
    match n
    case InstallPrompt => "Install Ansible Server requirements tools?"
    case Installing => "Install Ansible Server requirements tools..."
    case Installed => "Ansible Server requirements tools: installed!"
    case InstallFailed(error) => "Ansible Server requirements tools: install failed. | " + error
    case NoPython => "python3/python command not found"
    case AnsibleNotFound => "\"ansible\" is not found. Please install \"ansible\"."
    case AnsibleModuleMissing => "Exit because \"ansible\" does not exist."
  }

  /** Different notices read differently, so a shown text identifies its notice. */
  lemma TextInjective(m: Notice, n: Notice)
    requires Text(m) == Text(n)
    ensures m == n
  {
    var pre := "Ansible Server requirements tools: install failed. | ";
    TextLength(m);
    TextLength(n);
    if m.InstallFailed? && n.InstallFailed? {
      assert Text(m)[|pre|..] == m.error;
      assert Text(n)[|pre|..] == n.error;
    }
  }

  /** The length of each wording; only a failure report is 53 characters or longer. */
  lemma TextLength(n: Notice)
    ensures |Text(n)| == match n
      case InstallPrompt => 42
      case Installing => 44
      case Installed => 45
      case InstallFailed(error) => 53 + |error|
      case NoPython => 32
      case AnsibleNotFound => 49
      case AnsibleModuleMissing => 38
  {
  }

  /** A notification shown in the editor window (`showInformationMessage` or
      `showErrorMessage`). */
  datatype Message = Info(notice: Notice) | Error(notice: Notice)

  /** The editor window and the file system, as the extension changes them. */
  class Workbench {
    /** Paths of the regular files that exist. */
    var files: set<string>
    /** Paths of the directories that exist. */
    var dirs: set<string>
    /** Every notification shown so far, oldest first. */
    var messages: seq<Message>
    /** Every yes/no prompt shown so far. */
    var prompts: seq<Notice>
    /** Whether the install progress item is shown in the status bar. */
    var statusVisible: bool
    /** Every shell command line run by the installer, oldest first. */
    var executed: seq<string>

    constructor (files: set<string>, dirs: set<string>)
      ensures this.files == files && this.dirs == dirs
      ensures messages == [] && prompts == [] && executed == [] && !statusVisible
    {
      this.files := files;
      this.dirs := dirs;
      messages := [];
      prompts := [];
      statusVisible := false;
      executed := [];
    }

    /** `window.showInformationMessage` and friends. */
    method Show(m: Message)
      modifies this`messages
      ensures messages == old(messages) + [m]
    {
      messages := messages + [m];
    }

    /** `fs.mkdirSync(dir, { recursive: true })` when `dir` does not exist yet. */
    method EnsureDir(dir: string)
      modifies this`dirs
      ensures dirs == old(dirs) + {dir}
    {
      if dir !in dirs {
        dirs := dirs + {dir};
      }
    }
  }
}
