/** The `ansible-doc` information list (src/commands/ansibleDocShowInfo.ts): the plugin-type
    picker, the list of plugins `ansible-doc -l -j` reports, the labels shown for them, and
    the `ansible-doc` command line run for the chosen plugin. The list helpers are shared
    with the snippets list. */
module AnsibleDocShowInfo {
  import opened Common
  import opened Host

  /** The plugin types the picker offers, in menu order. */
  const PluginTypes: seq<string> := [
    "module", "become", "cache", "callback", "cliconf", "connection", "httpapi", "inventory",
    "lookup", "netconf", "shell", "vars", "strategy", "role", "keyword"]

  /** No plugin type holds a space, so each stays one word of a command line. */
  lemma PluginTypesAreWords()
    ensures |PluginTypes| == 15 && PluginTypes[0] == "module"
    ensures forall i :: 0 <= i < |PluginTypes| ==> ' ' !in PluginTypes[i] && PluginTypes[i] != ""
  {
  }

  /** One plugin as `ansible-doc -l -j` reports it. */
  datatype FeatureListItem = FeatureListItem(name: string, description: string)

  /** One entry of the list window: its `label` and its `filterText`. */
  datatype ListItem = ListItem(labelText: string, filterText: string)

  /** `<name>: [<description>]`, the label of a plugin. */
  function Label(p: FeatureListItem): (r: string)
    ensures IsPrefix(p.name + ": [", r) && r[|r| - 1] == ']'
    ensures r[|p.name| + 3..|r| - 1] == p.description
  {
    var r := p.name + ": [" + p.description + "]";
    assert r == (p.name + ": [") + (p.description + "]");
    assert r[|p.name| + 3..|r| - 1] == p.description;
    r
  }

  /** `label.split(':')[0]`, the plugin name the `execute` action reads back from a label. */
  function PluginName(itemLabel: string): (r: string)
    ensures IsPrefix(r, itemLabel) && ':' !in r
  {
    BeforeFirst(itemLabel, ':')
  }

  /** A label gives back the plugin's name whenever the name holds no `:`. */
  lemma {:induction false} PluginNameOfLabel(p: FeatureListItem)
    requires ':' !in p.name
    ensures PluginName(Label(p)) == p.name
  {
    assert Label(p) == p.name + (": [" + p.description + "]");
    BeforeFirstOfJoin(p.name, ": [" + p.description + "]", ':');
  }

  /** A name that holds a `:` is cut at it: the label gives back only its first part. */
  lemma {:induction false} PluginNameOfLabelCut(p: FeatureListItem, k: nat)
    requires k < |p.name| && p.name[k] == ':' && ':' !in p.name[..k]
    ensures PluginName(Label(p)) == p.name[..k]
  {
    var rest := p.name[k..] + ": [" + p.description + "]";
    assert Label(p) == p.name[..k] + rest;
    BeforeFirstOfJoin(p.name[..k], rest, ':');
  }

  /** The command line that lists the plugins of a type as JSON. */
  function ListCommand(ansibleDocPath: string, pluginType: string): (r: string)
    ensures IsPrefix(ansibleDocPath + " -l -j -t ", r) && r[|ansibleDocPath + " -l -j -t "|..] == pluginType
  {
    var head := ansibleDocPath + " -l -j -t ";
    assert (head + pluginType)[|head|..] == pluginType;
    head + pluginType
  }

  /** `getAnsibleDocListItems`: one entry per key of the parsed output, in key order, named
      by the key and described by its value; an empty list when the command fails, prints
      nothing, or prints something `parse` rejects. `parse` stands for `JSON.parse` followed
      by `Object.keys`, as the key/value pairs of the object in key order. A failure resolves
      the promise with `[]` first, so what follows it cannot change the answer. */
  method GetAnsibleDocListItems(exec: string -> ExecResult, parse: string -> Option<seq<(string, string)>>,
                                ansibleDocPath: string, pluginType: string)
    returns (featureResults: seq<FeatureListItem>)
    ensures var out := exec(ListCommand(ansibleDocPath, pluginType));
      featureResults != [] ==> out.Done? && out.stdout != "" && parse(out.stdout).Some?
    ensures var out := exec(ListCommand(ansibleDocPath, pluginType));
      out.Done? && out.stdout != "" && parse(out.stdout).Some? ==>
        var entries := parse(out.stdout).value;
        |featureResults| == |entries| &&
        forall i :: 0 <= i < |entries| ==> featureResults[i] == FeatureListItem(entries[i].0, entries[i].1)
  {
    featureResults := [];
    match exec(ListCommand(ansibleDocPath, pluginType))
    case Failed(_) =>
    case Done(stdout) =>
      if |stdout| > 0 {
        match parse(stdout)
        case None =>
        case Some(entries) =>
          var i := 0;
          while i < |entries|
            invariant 0 <= i <= |entries|
            invariant |featureResults| == i
            invariant forall j :: 0 <= j < i ==> featureResults[j] == FeatureListItem(entries[j].0, entries[j].1)
          {
            featureResults := featureResults + [FeatureListItem(entries[i].0, entries[i].1)];
            i := i + 1;
          }
      }
  }

  /** `loadItems`: one list entry per listed plugin, in order, labelled with `Label` and
      filtered by the plugin's name. */
  method LoadItems(exec: string -> ExecResult, parse: string -> Option<seq<(string, string)>>,
                   ansibleDocPath: string, pluginType: string)
    returns (listItems: seq<ListItem>)
    ensures var out := exec(ListCommand(ansibleDocPath, pluginType));
      out.Done? && out.stdout != "" && parse(out.stdout).Some? ==>
        var entries := parse(out.stdout).value;
        |listItems| == |entries| &&
        forall i :: 0 <= i < |entries| ==>
          listItems[i] == ListItem(Label(FeatureListItem(entries[i].0, entries[i].1)), entries[i].0)
    ensures var out := exec(ListCommand(ansibleDocPath, pluginType));
      !(out.Done? && out.stdout != "" && parse(out.stdout).Some?) ==> listItems == []
  {
    var plugins := GetAnsibleDocListItems(exec, parse, ansibleDocPath, pluginType);
    listItems := [];
    var i := 0;
    while i < |plugins|
      invariant 0 <= i <= |plugins|
      invariant |listItems| == i
      invariant forall j :: 0 <= j < i ==> listItems[j] == ListItem(Label(plugins[j]), plugins[j].name)
    {
      listItems := listItems + [ListItem(Label(plugins[i]), plugins[i].name)];
      i := i + 1;
    }
  }

  /** `${ansibleDocPath} ${args.join(' ')}`, the text sent to the terminal. */
  function TerminalText(ansibleDocPath: string, args: seq<string>): string {
    ansibleDocPath + " " + Join(args, " ")
  }

  /** When no word holds a space, the shell splits the terminal text back into the path
      followed by the arguments, in order. */
  lemma {:induction false} TerminalTextWords(ansibleDocPath: string, args: seq<string>)
    requires |args| >= 1
    requires ' ' !in ansibleDocPath && forall i :: 0 <= i < |args| ==> ' ' !in args[i]
    ensures Split(TerminalText(ansibleDocPath, args), ' ') == [ansibleDocPath] + args
  {
    var words := [ansibleDocPath] + args;
    assert words[1..] == args;
    assert Join(words, " ") == ansibleDocPath + " " + Join(args, " ");
    assert forall i :: 0 <= i < |words| ==> ' ' !in words[i] by {
      forall i | 0 <= i < |words| ensures ' ' !in words[i] {
        if i > 0 {
          assert words[i] == args[i - 1];
        }
      }
    }
    SplitJoin(words, ' ');
  }

  /** The arguments of `runAnsibleDocShowInfoInTerminal`: the plugin type, then the name. */
  function ShowInfoArgs(pluginType: string, pluginName: string): seq<string> {
    ["-t", pluginType, pluginName]
  }

  /** Executing the entry of a listed plugin whose name holds neither `:` nor a space runs
      `ansible-doc` on exactly that plugin: the words are the path, `-t`, the type and the
      name, in this order. */
  lemma {:induction false} ShowInfoOfListedPlugin(ansibleDocPath: string, pluginType: string, p: FeatureListItem)
    requires ' ' !in ansibleDocPath && pluginType in PluginTypes
    requires ':' !in p.name && ' ' !in p.name
    ensures Split(TerminalText(ansibleDocPath, ShowInfoArgs(pluginType, PluginName(Label(p)))), ' ') ==
            [ansibleDocPath, "-t", pluginType, p.name]
  {
    PluginNameOfLabel(p);
    PluginTypesAreWords();
    TerminalTextWords(ansibleDocPath, ShowInfoArgs(pluginType, p.name));
  }

  /** The list of src/commands/ansibleDocShowInfo.ts with the state the command changes:
      the plugin type the next listing and the next `execute` use. */
  class AnsibleDocShowInfoList {
    const ansibleDocPath: string
    var choosedPluginType: string

    /** The plugin type is always one the picker offers. */
    predicate Valid()
      reads this
    {
      choosedPluginType in PluginTypes
    }

    constructor (ansibleDocPath: string)
      ensures this.ansibleDocPath == ansibleDocPath && choosedPluginType == "module"
      ensures Valid()
    {
      this.ansibleDocPath := ansibleDocPath;
      choosedPluginType := "module";
    }

    /** The `ansible.ansbileDoc.showInfo` command after the picker returned `picked`, which
        is `-1` when the picker was dismissed and an index into the menu otherwise. */
    method Pick(picked: int)
      requires picked == -1 || 0 <= picked < |PluginTypes|
      requires Valid()
      modifies this`choosedPluginType
      ensures Valid()
      ensures picked == -1 ==> choosedPluginType == old(choosedPluginType)
      ensures picked != -1 ==> choosedPluginType == PluginTypes[picked]
    {
      if picked != -1 {
        choosedPluginType := PluginTypes[picked];
      }
    }

    /** The `execute` action on a list entry: the text sent to a new terminal. */
    method Execute(item: ListItem) returns (sent: string)
      requires Valid()
      ensures sent == TerminalText(ansibleDocPath, ShowInfoArgs(choosedPluginType, PluginName(item.labelText)))
      ensures ' ' !in ansibleDocPath && ' ' !in PluginName(item.labelText) ==>
        Split(sent, ' ') == [ansibleDocPath, "-t", choosedPluginType, PluginName(item.labelText)]
    {
      var pluginName := PluginName(item.labelText);
      var args := ShowInfoArgs(choosedPluginType, pluginName);
      PluginTypesAreWords();
      if ' ' !in ansibleDocPath && ' ' !in pluginName {
        TerminalTextWords(ansibleDocPath, args);
      }
      sent := TerminalText(ansibleDocPath, args);
    }
  }
}
