/** The settings schema: tabs hold groups, groups hold an ordered list of settings.  Every
    component that walks the schema visits the settings tab by tab, group by group, in order. */
module Schemas {
  import opened Outcomes
  import opened Dicts
  import opened JsonValues

  /** One setting of the schema (`labelText` is its `label` member).  `default` is JNull when the schema has none
      (`setting.get('default', None)`), `complex` is false when absent
      (`setting.get('complex', False)`), `criteria` is None when absent. */
  datatype Setting = Setting(
    labelText: string,
    description: string,
    file: string,
    keyPath: string,
    valueType: string,
    default: Json,
    criteria: Option<Json>,
    complex: bool,
    uiElement: Json)

  datatype Group = Group(column: int, settings: seq<Setting>)

  datatype Tab = Tab(groups: Dict<Group>)

  /** The schema document's `tabs` member. */
  datatype Schema = Schema(tabs: Dict<Tab>)

  /** The settings of some groups, in the order `for group in groups.values(): for setting in
      group['settings']` visits them. */
  function GroupsTraversal(groups: Dict<Group>): seq<Setting> {
    if groups == [] then [] else groups[0].1.settings + GroupsTraversal(groups[1..])
  }

  function TabsTraversal(tabs: Dict<Tab>): seq<Setting> {
    if tabs == [] then [] else GroupsTraversal(tabs[0].1.groups) + TabsTraversal(tabs[1..])
  }

  /** Every setting of the schema in traversal order. */
  function Traversal(schema: Schema): seq<Setting> {
    TabsTraversal(schema.tabs)
  }

  /** The tabs from `i` on are tab `i`'s settings followed by those of the later tabs. */
  lemma TabsTraversalAt(tabs: Dict<Tab>, i: nat)
    requires i < |tabs|
    ensures TabsTraversal(tabs[i..]) == GroupsTraversal(tabs[i].1.groups) + TabsTraversal(tabs[i + 1..])
  {
    assert tabs[i..][1..] == tabs[i + 1..];
  }

  lemma GroupsTraversalAt(groups: Dict<Group>, j: nat)
    requires j < |groups|
    ensures GroupsTraversal(groups[j..]) == groups[j].1.settings + GroupsTraversal(groups[j + 1..])
  {
    assert groups[j..][1..] == groups[j + 1..];
  }
}
