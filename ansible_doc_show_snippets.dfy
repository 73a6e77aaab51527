/** The `ansible-doc` snippets list (src/commands/ansibleDocShowSnippets.ts): the same list
    as the information list, over the three plugin types `ansible-doc -s` supports, and a
    command line that asks for a snippet with `-s`. */
module AnsibleDocShowSnippets {
  import opened Common
  import opened AnsibleDocShowInfo

  /** The plugin types the picker offers, in menu order. */
  const SnippetPluginTypes: seq<string> := ["module", "inventory", "lookup"]

  /** Every snippet plugin type is one the information list offers too, and none holds a
      space. */
  lemma SnippetPluginTypesAreInfoTypes()
    ensures forall t :: t in SnippetPluginTypes ==> t in PluginTypes && ' ' !in t
  {
    assert SnippetPluginTypes == [PluginTypes[0], PluginTypes[7], PluginTypes[8]];
  }

  /** The arguments of `runAnsibleDocShowSnippetsInTerminal`: the plugin type, `-s`, then
      the name. */
  function ShowSnippetsArgs(pluginType: string, pluginName: string): seq<string> {
    ["-t", pluginType, "-s", pluginName]
  }

  /** Executing the entry of a listed plugin whose name holds neither `:` nor a space runs
      `ansible-doc` on exactly that plugin, asking for its snippet. */
  lemma {:induction false} ShowSnippetsOfListedPlugin(ansibleDocPath: string, pluginType: string, p: FeatureListItem)
    requires ' ' !in ansibleDocPath && pluginType in SnippetPluginTypes
    requires ':' !in p.name && ' ' !in p.name
    ensures Split(TerminalText(ansibleDocPath, ShowSnippetsArgs(pluginType, PluginName(Label(p)))), ' ') ==
            [ansibleDocPath, "-t", pluginType, "-s", p.name]
  {
    PluginNameOfLabel(p);
    SnippetPluginTypesAreInfoTypes();
    TerminalTextWords(ansibleDocPath, ShowSnippetsArgs(pluginType, p.name));
  }

  /** The list of src/commands/ansibleDocShowSnippets.ts with the plugin type the command
      chooses. */
  class AnsibleDocShowSnippetsList {
    const ansibleDocPath: string
    var choosedPluginType: string

    /** The plugin type is always one the picker offers. */
    predicate Valid()
      reads this
    {
      choosedPluginType in SnippetPluginTypes
    }

    constructor (ansibleDocPath: string)
      ensures this.ansibleDocPath == ansibleDocPath && choosedPluginType == "module"
      ensures Valid()
    {
      this.ansibleDocPath := ansibleDocPath;
      choosedPluginType := "module";
    }

    /** The `ansible.ansbileDoc.showSnippets` command after the picker returned `picked`:
        `-1` when it was dismissed, an index into the menu otherwise. */
    method Pick(picked: int)
      requires picked == -1 || 0 <= picked < |SnippetPluginTypes|
      requires Valid()
      modifies this`choosedPluginType
      ensures Valid()
      ensures picked == -1 ==> choosedPluginType == old(choosedPluginType)
      ensures picked != -1 ==> choosedPluginType == SnippetPluginTypes[picked]
    {
      if picked != -1 {
        choosedPluginType := SnippetPluginTypes[picked];
      }
    }

    /** The `execute` action on a list entry: the text sent to a new terminal. */
    method Execute(item: ListItem) returns (sent: string)
      requires Valid()
      ensures sent == TerminalText(ansibleDocPath, ShowSnippetsArgs(choosedPluginType, PluginName(item.labelText)))
      ensures ' ' !in ansibleDocPath && ' ' !in PluginName(item.labelText) ==>
        Split(sent, ' ') == [ansibleDocPath, "-t", choosedPluginType, "-s", PluginName(item.labelText)]
    {
      var pluginName := PluginName(item.labelText);
      var args := ShowSnippetsArgs(choosedPluginType, pluginName);
      SnippetPluginTypesAreInfoTypes();
      if ' ' !in ansibleDocPath && ' ' !in pluginName {
        TerminalTextWords(ansibleDocPath, args);
      }
      sent := TerminalText(ansibleDocPath, args);
    }
  }
}
