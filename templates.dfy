/**
 * The template classes a registry can hold (templates/__init__.py and
 * templates/base.py): the bundled service template, or another
 * BaseTemplate subclass known only by its class attributes.
 */
module Templates {
  import opened Wrappers
  import opened Values
  import opened Errors
  import opened Utils
  import BaseTemplate
  import SimpleService

  /** The class attributes a subclass inherits when it sets none of its own. */
  const BaseName := "base-template"
  const BaseDescription := "Abstract base template"
  const BaseVersion := "0.0.0"

  datatype TemplateClass =
    | SimplePythonService
      /**
       * Another subclass: its class attributes (a `version` set to None is
       * `None`), and whether it overrides the base `validate_requirements`.
       */
    | Custom(className: string, classDescription: string, classVersion: Option<string>, ownValidation: bool)
  {
    /** The `name` attribute of an instance. */
    function Name(): string {
      if SimplePythonService? then SimpleService.Name else className
    }

    /** The `description` attribute of an instance. */
    function Description(): string {
      if SimplePythonService? then SimpleService.Description else classDescription
    }

    /** The `version` attribute of an instance. */
    function Version(): Option<string> {
      if SimplePythonService? then Some(SimpleService.Version) else classVersion
    }
  }

  /** A subclass that overrides none of the attributes reports the base ones. */
  const Inherited := Custom(BaseName, BaseDescription, Some(BaseVersion), false)

  /**
   * `template.validate_requirements(requirements)`: the service template
   * validates and normalises; another template that overrides the method
   * answers through the oracle `custom`, and one that does not inherits
   * the base method, which returns the mapping as given.
   */
  function ValidateRequirements(template: TemplateClass, requirements: Mapping,
                                custom: (TemplateClass, Mapping) -> Result<Mapping, Error>): (r: Result<Mapping, Error>)
    ensures template.SimplePythonService? ==> r == SimpleService.Validate(requirements)
    ensures template.Custom? && !template.ownValidation ==> r == Success(requirements)
    ensures template.Custom? && template.ownValidation ==> r == custom(template, requirements)
  {
    match template
    case SimplePythonService => SimpleService.Validate(requirements)
    case Custom(_, _, _, ownValidation) =>
      if ownValidation then custom(template, requirements) else BaseTemplate.ValidateRequirements(requirements)
  }

  /**
   * `template.generate_project(spec, destination)` on a file system holding
   * `existing`. Another template's generator is the oracle `custom`, which
   * gives its outcome; the paths it creates are not followed.
   */
  function GenerateFor(template: TemplateClass, spec: Mapping, destination: string, existing: set<string>,
                       custom: (TemplateClass, Mapping, string) -> Result<string, Error>): (g: SimpleService.Generated)
    ensures existing <= g.paths
    ensures template.SimplePythonService? ==> g == SimpleService.Generate(spec, destination, existing)
    ensures template.Custom? ==> g == SimpleService.Generated(custom(template, spec, destination), existing)
  {
    match template
    case SimplePythonService => SimpleService.Generate(spec, destination, existing)
    case Custom(_, _, _, _) => SimpleService.Generated(custom(template, spec, destination), existing)
  }

  /** The generation step as it runs against the file system. */
  method GenerateProject(template: TemplateClass, spec: Mapping, destination: string, fs: FileSystem,
                         custom: (TemplateClass, Mapping, string) -> Result<string, Error>)
    returns (r: Result<string, Error>)
    modifies fs
    ensures r == GenerateFor(template, spec, destination, old(fs.paths), custom).outcome
    ensures fs.paths == GenerateFor(template, spec, destination, old(fs.paths), custom).paths
    ensures fs.texts == if template.SimplePythonService? && r.Success? then old(fs.texts) - SimpleService.ProjectFiles(r.value)
                        else old(fs.texts)
  {
    if template.SimplePythonService? {
      r := SimpleService.GenerateProject(spec, destination, fs);
    } else {
      r := custom(template, spec, destination);
    }
  }

  /** A registry maps each name to one class: as in a dict, no key appears twice. */
  predicate DistinctKeys(entries: seq<(string, TemplateClass)>) {
    forall i, j :: 0 <= i < j < |entries| ==> entries[i].0 != entries[j].0
  }

  /** A `Dict[str, Type[BaseTemplate]]`, in insertion order. */
  type Registry = entries: seq<(string, TemplateClass)> | DistinctKeys(entries) witness []

  /** `TEMPLATE_REGISTRY`: the service template under its own name. */
  const DefaultRegistry: Registry := [(SimpleService.Name, SimplePythonService)]
}
