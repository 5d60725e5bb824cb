/**
 * template_manager.py: the registry a manager is built on, the lookup of
 * a template by name and the listing of every registered template.
 */
module TemplateManager {
  import opened Wrappers
  import opened Text
  import opened Errors
  import opened Templates
  import SimpleService

  /** What `list_templates` reports for one template. */
  datatype TemplateInfo = TemplateInfo(name: string, description: string, version: Option<string>)

  /** A manager holds its registry and never changes it. */
  datatype Manager = Manager(registry: Registry)

  /** `registry or dict(TEMPLATE_REGISTRY)`: no registry, or an empty one, means the default one. */
  function NewManager(registry: Option<Registry>): (m: Manager)
    ensures registry.Some? && registry.value != [] ==> m.registry == registry.value
    ensures registry.None? || registry.value == [] ==> m.registry == DefaultRegistry
  {
    if registry.Some? && registry.value != [] then Manager(registry.value) else Manager(DefaultRegistry)
  }

  /** The registered names, in insertion order. */
  function Keys(registry: Registry): (keys: seq<string>)
    ensures |keys| == |registry|
    ensures forall i :: 0 <= i < |keys| ==> keys[i] == registry[i].0
  {
    seq(|registry|, i requires 0 <= i < |registry| => registry[i].0)
  }

  /** `registry[name]` as an option. */
  function Lookup(entries: seq<(string, TemplateClass)>, name: string): (r: Option<TemplateClass>)
    ensures r.Some? <==> exists i :: 0 <= i < |entries| && entries[i].0 == name
    ensures r.Some? ==> exists i :: 0 <= i < |entries| && entries[i] == (name, r.value)
  {
    if entries == [] then None
    else if entries[0].0 == name then
      assert entries[0] == (name, entries[0].1);
      Some(entries[0].1)
    else
      var r := Lookup(entries[1..], name);
      assert forall i :: 0 < i < |entries| ==> entries[i] == entries[1..][i - 1];
      r
  }

  /** With distinct keys the lookup finds the class registered under the name. */
  lemma {:induction false} LookupAt(entries: seq<(string, TemplateClass)>, i: nat)
    requires DistinctKeys(entries) && i < |entries|
    ensures Lookup(entries, entries[i].0) == Some(entries[i].1)
  {
    if i > 0 {
      assert entries[0].0 != entries[i].0;
      assert DistinctKeys(entries[1..]) by {
        forall a, b | 0 <= a < b < |entries| - 1 ensures entries[1..][a].0 != entries[1..][b].0 {
          assert entries[1..][a] == entries[a + 1] && entries[1..][b] == entries[b + 1];
        }
      }
      LookupAt(entries[1..], i - 1);
    }
  }

  /**
   * `get_template(name)`: a new instance of the class registered under the
   * name, or a KeyError listing every registered name in sorted order.
   */
  function GetTemplate(m: Manager, name: string): (r: Result<TemplateClass, Error>)
    ensures r.Success? <==> name in Keys(m.registry)
    ensures r.Success? ==> (name, r.value) in m.registry
    ensures r.Failure? ==> r.error == UnknownTemplate(name, Sort(Keys(m.registry)))
  {
    match Lookup(m.registry, name)
    case Some(template) => Success(template)
    case None =>
      assert name !in Keys(m.registry);
      Failure(UnknownTemplate(name, Sort(Keys(m.registry))))
  }

  /** Every registered name yields its own class. */
  lemma GetTemplateAt(m: Manager, i: nat)
    requires i < |m.registry|
    ensures GetTemplate(m, m.registry[i].0) == Success(m.registry[i].1)
  {
    LookupAt(m.registry, i);
  }

  /** The KeyError message quotes the name and lists the registered names, sorted. */
  lemma UnknownTemplateMessage(m: Manager, name: string)
    requires name !in Keys(m.registry)
    ensures var available := Sort(Keys(m.registry));
      && GetTemplate(m, name) == Failure(UnknownTemplate(name, available))
      && Sorted(available)
      && multiset(available) == multiset(Keys(m.registry))
      && Message(GetTemplate(m, name).error) ==
         "Unknown template '" + name + "'. Available: [" + Join(QuoteAll(available), ", ") + "]"
  {
  }

  /** The description of a fresh instance: its own attributes, whatever key it is registered under. */
  function Info(template: TemplateClass): TemplateInfo {
    TemplateInfo(template.Name(), template.Description(), template.Version())
  }

  /** `list_templates`: one description per registry entry, in insertion order. */
  function ListTemplates(m: Manager): (infos: seq<TemplateInfo>)
    ensures |infos| == |m.registry|
    ensures forall i :: 0 <= i < |infos| ==> infos[i] == Info(m.registry[i].1)
  {
    seq(|m.registry|, i requires 0 <= i < |m.registry| => Info(m.registry[i].1))
  }

  /** Listing and lookup agree: the i-th listed template is what its key looks up. */
  lemma ListedTemplatesResolve(m: Manager, i: nat)
    requires i < |m.registry|
    ensures GetTemplate(m, m.registry[i].0).Success?
    ensures ListTemplates(m)[i] == Info(GetTemplate(m, m.registry[i].0).value)
  {
    GetTemplateAt(m, i);
  }

  /** A template registered under an alias is still listed under its own name. */
  lemma ListedUnderOwnName()
    ensures ListTemplates(Manager([("alias", SimplePythonService)])) ==
      [TemplateInfo(SimpleService.Name, SimpleService.Description, Some(SimpleService.Version))]
  {
    var m := Manager([("alias", SimplePythonService)]);
    assert ListTemplates(m)[0] == Info(SimplePythonService);
  }

  /** A template class whose `version` is None is listed with version None. */
  lemma UnversionedListed(key: string, name: string, description: string)
    ensures ListTemplates(Manager([(key, Custom(name, description, None, false))])) ==
      [TemplateInfo(name, description, None)]
  {
    var m := Manager([(key, Custom(name, description, None, false))]);
    assert ListTemplates(m)[0] == Info(Custom(name, description, None, false));
  }

  /**
   * A manager built with no registry, or an empty one, lists exactly the
   * service template and hands it out under "simple-python-service".
   */
  lemma DefaultManager(registry: Option<Registry>)
    requires registry.None? || registry.value == []
    ensures var m := NewManager(registry);
      && ListTemplates(m) == [TemplateInfo("simple-python-service", SimpleService.Description, Some("1.0.0"))]
      && GetTemplate(m, "simple-python-service") == Success(SimplePythonService)
  {
    var m := NewManager(registry);
    assert ListTemplates(m)[0] == Info(SimplePythonService);
    GetTemplateAt(m, 0);
  }
}
