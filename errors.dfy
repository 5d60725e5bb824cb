/** The exceptions the core raises, and the text each one carries. */
module Errors {
  import opened Text
  import opened Values

  datatype Error =
    /** ValueError from BaseTemplate._ensure_fields */
    | MissingFields(template: string, missing: seq<string>)
    /** ValueError: a route entry that is not a mapping */
    | RouteNotMapping
    /** ValueError: an HTTP method outside the allowed set */
    | UnsupportedMethod(httpMethod: string)
    /** ValueError: a route path that is missing or not rooted at '/' */
    | InvalidRoutePath
    /** ValueError or TypeError raised by `int()` */
    | NotAnInteger(value: Value)
    /** TypeError raised by `list()` on a scalar */
    | NotIterable(value: Value)
    /** KeyError from TemplateManager.get_template */
    | UnknownTemplate(name: string, available: seq<string>)
    /** FileExistsError from generate_project */
    | ProjectExists(path: string)
    /** KeyError or TypeError while rendering a mapping that skipped validation */
    | MalformedSpec

  /** The allowed HTTP methods as `", ".join(sorted(_ALLOWED_METHODS))` lists them. */
  const AllowedMethodsText := "DELETE, GET, POST, PUT"

  /** The message the raised exception carries. */
  function Message(e: Error): (text: string)
    ensures text != ""
    ensures e.MissingFields? ==> EndsWith(text, Join(e.missing, ", "))
    ensures e.UnsupportedMethod? ==> EndsWith(text, AllowedMethodsText)
    ensures e.ProjectExists? ==> EndsWith(text, e.path)
  {
    match e
    case MissingFields(template, missing) =>
      var prefix := "Missing required fields for template '" + template + "': ";
      EndsWithAppend(prefix, Join(missing, ", "));
      prefix + Join(missing, ", ")
    case RouteNotMapping => "Each route must be described by a mapping/dictionary."
    case UnsupportedMethod(httpMethod) =>
      var prefix := "Unsupported HTTP method '" + httpMethod + "'. Allowed: ";
      EndsWithAppend(prefix, AllowedMethodsText);
      prefix + AllowedMethodsText
    case InvalidRoutePath => "Each route must define a path starting with '/'."
    case NotAnInteger(v) => "int() cannot convert " + ToText(v)
    case NotIterable(v) => "object is not iterable: " + ToText(v)
    case UnknownTemplate(name, available) =>
      "Unknown template '" + name + "'. Available: [" + Join(QuoteAll(available), ", ") + "]"
    case ProjectExists(path) =>
      var prefix := "Target project directory already exists: ";
      EndsWithAppend(prefix, path);
      prefix + path
    case MalformedSpec => "requirements mapping lacks a field the generator reads"
  }

  function QuoteAll(names: seq<string>): seq<string> {
    seq(|names|, i requires 0 <= i < |names| => Quote(names[i]))
  }
}
