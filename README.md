# k8s auto-dev platform — a Dafny model of its core

The platform turns a requirements mapping (service name, description,
version, container image, port, HTTP routes) into a small Python HTTP
service project. It runs that project's unit tests and then applies the
project's Kubernetes manifests with `kubectl`. When `kubectl` is missing it
writes a dry-run deployment plan instead.

This project models the core of that pipeline and proves what it promises:

- `Utils`: `slugify` and the file system the generators write into. The
  file system is a class whose `paths` and `texts` fields the write
  operations update.
- `BaseTemplate` and `Templates`: the base template's required-field
  check, its identity validation, and the registry of template classes.
- `SimpleService`: the bundled `simple-python-service` template. This
  covers requirement validation and route normalisation, the generation
  decision and the files it writes, and the exported metadata. It also
  covers the route table and request dispatch of the generated server,
  and whether its generated routes module imports at all.
- `TemplateManager`: registry lookup and listing.
- `Deployer`: `KubernetesDeployer.deploy` as a class. It stops at the
  first failing `kubectl apply`, and it writes the plan file when
  `kubectl` is not available.
- `Orchestrator`: `K8sAutoDevPlatform.run_pipeline` as a class method,
  specified by the function `Pipeline`. It includes the test gate in
  front of deployment.

`Text`, `Values`, `Errors` and `Wrappers` are supporting modules: Python's
string operations, JSON-like values, the exceptions the code raises, and
`Option`/`Result`.

The outside world is passed in as parameters (`Oracles`):

- the outcome of running `kubectl`;
- the outcome of running `python -m unittest discover`;
- the validation of a template class that overrides `validate_requirements`;
- the generator of any template other than the bundled one.

`shutil.which("kubectl")` and `sys.executable` are constructor parameters.

Every raised exception is a `Failure` carrying an `Error` value. A
pipeline run that raises leaves behind the paths it had already created.

## Model

| member | source | states |
|---|---|---|
| Utils.Slugify | src/k8s_auto_dev_platform/utils.py:13-18 | the result is always a slug: non-empty, only `a-z`, `0-9` and `-`, at least one letter or digit, no leading, trailing or doubled `-` |
| Utils.SlugifyFallback | src/k8s_auto_dev_platform/utils.py:15-18 | the fallback `"project"` is returned exactly when the lower-cased input has no ASCII letter or digit; otherwise the result is the dash-trimmed, dash-collapsed core |
| Utils.StripLowerKeepsAlnum | src/k8s_auto_dev_platform/utils.py:15 | stripping whitespace and lower-casing keeps a letter or digit exactly when the input had one |
| Utils.TrimDashesEmpty | src/k8s_auto_dev_platform/utils.py:17 | `strip("-")` of the substituted text is empty exactly when it has no letter or digit |
| Utils.CollapseChars | src/k8s_auto_dev_platform/utils.py:10-16 | replacing each run of non-`[a-z0-9]` characters by one `-` leaves only slug characters and no doubled dash |
| Utils.CollapseAlnum | src/k8s_auto_dev_platform/utils.py:10-16 | the substitution keeps a letter or digit exactly when the text had one |
| Utils.CollapseFixes | src/k8s_auto_dev_platform/utils.py:16 | the substitution leaves text that already has slug shape unchanged |
| Utils.TrimDashesShape | src/k8s_auto_dev_platform/utils.py:17 | trimming dashes off slug-shaped text leaves either nothing or a slug |
| Utils.SlugifyFixesSlug | src/k8s_auto_dev_platform/utils.py:13-18 | a slug is its own slug |
| Utils.SlugifyIdempotent | src/k8s_auto_dev_platform/utils.py:13-18 | slugifying twice equals slugifying once |
| Utils.StripLower | src/k8s_auto_dev_platform/utils.py:15 | stripping and lower-casing commute |
| Utils.SlugifyFoldsCase | src/k8s_auto_dev_platform/utils.py:15 | an input and its lower-cased form have the same slug |
| Utils.SlugifyInventory | tests/test_platform.py:24 | `"Inventory"` slugifies to `"inventory"` |
| Utils.SlugifySymbolsOnly | src/k8s_auto_dev_platform/utils.py:18 | `"!!!"` slugifies to the fallback `"project"` |
| Utils.FileSystem.WriteText | src/k8s_auto_dev_platform/utils.py:21-24 | the path exists afterwards and holds exactly the given text; no other file changes |
| Utils.FileSystem.WriteRendered | src/k8s_auto_dev_platform/utils.py:21-29 | the path exists afterwards, holding a rendered text the model does not follow; no other file changes |
| Utils.FileSystem.MakeDirs | src/k8s_auto_dev_platform/templates/simple_service.py:97-99 | the directories exist afterwards; file contents are untouched |
| BaseTemplate.MissingFrom | src/k8s_auto_dev_platform/templates/base.py:25 | a field is reported missing exactly when it is required and absent; when every field is absent all are reported |
| BaseTemplate.MissingKeepsOrder | src/k8s_auto_dev_platform/templates/base.py:25 | the missing fields keep the order of the required list |
| BaseTemplate.MissingCounts | src/k8s_auto_dev_platform/templates/base.py:25 | an absent field is reported as often as it is required, a present one never |
| BaseTemplate.MissingInOrder | src/k8s_auto_dev_platform/templates/base.py:25 | with `b` present, the fields `a`, `b`, `c` report `a` then `c` |
| BaseTemplate.EnsureFields | src/k8s_auto_dev_platform/templates/base.py:24-28 | fails exactly when some required field is absent (so an empty field list never fails), naming the template and the missing fields |
| BaseTemplate.MissingFieldsMessage | src/k8s_auto_dev_platform/templates/base.py:26-28 | the error message is `Missing required fields for template '<name>': ` followed by the missing fields joined by `, ` |
| BaseTemplate.PresenceIsMembership | src/k8s_auto_dev_platform/templates/base.py:25 | a required field that is present but falsy (empty, zero, null) still passes |
| BaseTemplate.ValidateRequirements | src/k8s_auto_dev_platform/templates/base.py:16-18 | the base validation accepts every mapping and returns it unchanged |
| SimpleService.Validate | src/k8s_auto_dev_platform/templates/simple_service.py:22-82 | a mapping without `service_name` or `description` fails with those fields missing; a success has every normalised key and keeps every other input key's value |
| SimpleService.ValidateRequirements | src/k8s_auto_dev_platform/templates/simple_service.py:22-82 | the method normalises the routes in a loop and returns exactly what `Validate` specifies |
| SimpleService.NormalizeEach | src/k8s_auto_dev_platform/templates/simple_service.py:45-68 | the enumerate loop returns the normalised routes in order, or the error of the first rejected route |
| SimpleService.ValidateSucceeds | src/k8s_auto_dev_platform/templates/simple_service.py:24-79 | validation succeeds exactly when both required fields are present, every route normalises, and the port converts to an integer |
| SimpleService.ValidateDerives | src/k8s_auto_dev_platform/templates/simple_service.py:26-81 | the normalised fields: the slug of the service name, version defaulting to `0.1.0`, image defaulting to `registry.example.com/<slug>:<version>`, port defaulting to 8000, and the normalised routes |
| SimpleService.ValidateDefaultRoute | src/k8s_auto_dev_platform/templates/simple_service.py:31-43 | no or falsy `routes` gives exactly the one default route |
| SimpleService.ValidateDeclaredRoutes | src/k8s_auto_dev_platform/templates/simple_service.py:44-68 | declared routes are kept one-for-one and in order, each as its normalised form with all six route keys |
| SimpleService.ValidateRejectsRoute | src/k8s_auto_dev_platform/templates/simple_service.py:45-68 | the first route that fails normalisation decides the error |
| SimpleService.ValidateIdempotent | src/k8s_auto_dev_platform/templates/simple_service.py:22-82 | validating an already validated mapping gives it back unchanged |
| SimpleService.NormalizeRoute | src/k8s_auto_dev_platform/templates/simple_service.py:46-67 | a non-mapping entry is refused as such; every failure is one of the four route errors; an accepted route is normalised and carries the status `int()` gives |
| SimpleService.NormalizeRouteAccepts | src/k8s_auto_dev_platform/templates/simple_service.py:46-57 | a route entry is accepted exactly when it is a mapping, its upper-cased method is allowed, its path is truthy and starts with `/`, and its status is an integer; a non-mapping gets the mapping error |
| SimpleService.NormalizeRouteDefaults | src/k8s_auto_dev_platform/templates/simple_service.py:48-58 | the defaults: name `route_<n>` counting from 1, method `GET`, status 200, response `{"message": "Response from <name>"}` |
| SimpleService.NormalizeRouteCanonical | src/k8s_auto_dev_platform/templates/simple_service.py:48-67 | an accepted route has a non-empty name and identifier, an allowed method, a path starting with `/` and a truthy response |
| SimpleService.RenormalizeRoute | src/k8s_auto_dev_platform/templates/simple_service.py:48-67 | normalising an already normalised route gives it back |
| SimpleService.RenormalizeRoutes | src/k8s_auto_dev_platform/templates/simple_service.py:31-68 | normalising a list of normalised routes gives the list back |
| SimpleService.PatchRejected | src/k8s_auto_dev_platform/templates/simple_service.py:50-53 | method `patch` is upper-cased and rejected as `PATCH` |
| SimpleService.AllowedMethodsListed | src/k8s_auto_dev_platform/templates/simple_service.py:52-53 | the allowed methods in the error message are the sorted set of allowed methods joined by `, ` |
| SimpleService.DefaultRouteCanonical | src/k8s_auto_dev_platform/templates/simple_service.py:34-43 | the default route `GET /` named `root` passes the same checks as a declared route |
| SimpleService.RoutesForCanonical | src/k8s_auto_dev_platform/templates/simple_service.py:31-68 | a successful route list is never empty and every route in it is normalised |
| SimpleService.Identifier | src/k8s_auto_dev_platform/templates/simple_service.py:49 | the identifier is the route name's slug with `-` replaced by `_`, and is never empty, so the `route_<n>` fallback is never taken |
| SimpleService.Traverse | src/k8s_auto_dev_platform/templates/simple_service.py:45-68 | succeeds exactly when every step succeeds, returning the step results in order; otherwise returns the first failing step's error |
| SimpleService.TraverseStops | src/k8s_auto_dev_platform/templates/simple_service.py:45-47 | the loop stops with the first failing route's error |
| SimpleService.DerivedShape | src/k8s_auto_dev_platform/templates/simple_service.py:70-81 | `update` adds the seven normalised keys and keeps every other key of the input |
| SimpleService.DerivedFixes | src/k8s_auto_dev_platform/templates/simple_service.py:70-81 | updating a normalised mapping with its own derived fields changes nothing |
| SimpleService.GenerationSpec | src/k8s_auto_dev_platform/templates/simple_service.py:85-86 | a mapping that already carries `slug` is used as given; any success carries `slug` |
| SimpleService.Generate | src/k8s_auto_dev_platform/templates/simple_service.py:84-108 | generation only adds paths; any failure other than an unreadable specification adds none |
| SimpleService.GenerateProject | src/k8s_auto_dev_platform/templates/simple_service.py:84-108 | the method returns what `Generate` specifies and creates exactly its paths; on success the project files hold freshly rendered texts |
| SimpleService.MakeProjectDirs | src/k8s_auto_dev_platform/templates/simple_service.py:93-99 | creates the project, `app`, `tests` and `k8s` directories |
| SimpleService.WriteProjectFiles | src/k8s_auto_dev_platform/templates/simple_service.py:101-106 | writes the eleven project files and nothing else |
| SimpleService.WriteSources | src/k8s_auto_dev_platform/templates/simple_service.py:101-102 | writes the application package and the tests |
| SimpleService.WriteAppPackage | src/k8s_auto_dev_platform/templates/simple_service.py:110-123 | writes `app/__init__.py`, `app/routes.py` and `app/server.py` |
| SimpleService.WriteTests | src/k8s_auto_dev_platform/templates/simple_service.py:125-127 | writes `tests/__init__.py` and `tests/test_routes.py` |
| SimpleService.WriteDeployables | src/k8s_auto_dev_platform/templates/simple_service.py:103-106 | writes the README, the Dockerfile, the manifests and `project-metadata.json` |
| SimpleService.WriteK8sManifests | src/k8s_auto_dev_platform/templates/simple_service.py:178-222 | writes `k8s/deployment.yaml` and `k8s/service.yaml` |
| SimpleService.GenerateRejectsInvalid | src/k8s_auto_dev_platform/templates/simple_service.py:85-86 | a mapping without `slug` that fails validation fails with that error and creates nothing |
| SimpleService.GenerateTarget | src/k8s_auto_dev_platform/templates/simple_service.py:85-108 | a success returns `<destination>/<slug>-service`, which did not exist before; all its directories and files exist afterwards |
| SimpleService.GenerateSkipsValidation | src/k8s_auto_dev_platform/templates/simple_service.py:85-88 | a mapping that already carries `slug` is not validated again |
| SimpleService.GenerateRefusesExisting | src/k8s_auto_dev_platform/templates/simple_service.py:89-91 | an existing project directory fails with that directory named and creates nothing |
| SimpleService.GenerateRoutesAsText | src/k8s_auto_dev_platform/templates/simple_service.py:130-133 | a slugged mapping whose routes are an empty string or mapping generates a project with no routes; a non-empty string as routes fails after the directories exist |
| SimpleService.GenerateTwice | src/k8s_auto_dev_platform/templates/simple_service.py:89-91 | generating the same project a second time fails because the directory exists |
| SimpleService.ExportMetadata | src/k8s_auto_dev_platform/templates/simple_service.py:389-405 | the metadata has exactly the six metadata keys, names the template, and lists one summary per route |
| SimpleService.MetadataShape | src/k8s_auto_dev_platform/templates/simple_service.py:389-405 | the metadata has exactly six keys and names the template; four fields are copied from the specification, and there is one summary per route, in order |
| SimpleService.SummaryShape | src/k8s_auto_dev_platform/templates/simple_service.py:396-404 | a route summary keeps name, method, path and status, and drops the response |
| SimpleService.MetadataOfValidated | src/k8s_auto_dev_platform/templates/simple_service.py:389-405 | after validation, the metadata summarises each normalised route by its name, method, path and status |
| SimpleService.RouteMap | src/k8s_auto_dev_platform/templates/simple_service.py:250-251 | the route table's keys are exactly the `(method, path)` pairs of the routes |
| SimpleService.RouteMapLastWins | src/k8s_auto_dev_platform/templates/simple_service.py:250-251 | a pair maps to the last route that declares it |
| SimpleService.Handle | src/k8s_auto_dev_platform/templates/simple_service.py:273-286 | a request gets 404 exactly when the table has no route for its method and path; otherwise it gets that route's status and response |
| SimpleService.HandleNotFound | src/k8s_auto_dev_platform/templates/simple_service.py:273-278 | with the route table built from the routes, a request gets 404 exactly when no route has its method and path |
| SimpleService.HandleDeclared | src/k8s_auto_dev_platform/templates/simple_service.py:273-286 | with the route table built from the routes, a request for a route's method and path gets that route's status and response, unless a later route declares the same pair |
| SimpleService.DuplicateKeepsLast | src/k8s_auto_dev_platform/templates/simple_service.py:250-251 | of two routes with the same method and path, the second one is in the table and answers |
| SimpleService.DefaultServer | src/k8s_auto_dev_platform/templates/simple_service.py:373-381 | the default project answers `GET /` with 200 and the greeting, and `GET /__unknown__` with 404 |
| SimpleService.ImportRoutes | src/k8s_auto_dev_platform/templates/simple_service.py:224-247 | the route blocks of the generated routes module evaluate, giving back the routes, exactly when no route's response holds a boolean or null |
| SimpleService.Served | src/k8s_auto_dev_platform/templates/simple_service.py:265-286 | as far as the route blocks decide it: the generated server answers as its route table says when every response is a Python literal, and does not start otherwise |
| SimpleService.DeclaredButNotServed | src/k8s_auto_dev_platform/templates/simple_service.py:224-286 | an accepted route whose response holds a boolean or null is in the route table, yet its server never answers |
| SimpleService.TrueResponseBreaksImport | src/k8s_auto_dev_platform/templates/simple_service.py:224-247 | the route with path `/ok` and response `{"ok": true}` is accepted as `GET /ok` with status 200, yet its routes module does not import |
| Templates.ValidateRequirements | src/k8s_auto_dev_platform/templates/base.py:16-18 | the bundled template validates as the service template does; a class that overrides validation answers through the validation oracle; any other class returns the mapping unchanged |
| Templates.GenerateFor | src/k8s_auto_dev_platform/templates/simple_service.py:84-108 | the bundled template generates as specified; another template's outcome comes from its generator, and paths are only ever added |
| Templates.GenerateProject | src/k8s_auto_dev_platform/orchestrator.py:54 | dispatching generation gives the outcome and paths of `GenerateFor`; only a successful service generation changes file texts |
| TemplateManager.NewManager | src/k8s_auto_dev_platform/template_manager.py:22-23 | a missing or empty registry falls back to the default registry; otherwise the given one is used |
| TemplateManager.GetTemplate | src/k8s_auto_dev_platform/template_manager.py:34-39 | succeeds exactly when the name is registered, returning the class registered under it; otherwise the error lists the names in sorted order |
| TemplateManager.UnknownTemplateMessage | src/k8s_auto_dev_platform/template_manager.py:38 | the error message is `Unknown template '<name>'. Available: [...]`, where the available list is the registered names sorted, as a permutation |
| TemplateManager.GetTemplateAt | src/k8s_auto_dev_platform/template_manager.py:34-39 | each registered name resolves to its own class |
| TemplateManager.ListTemplates | src/k8s_auto_dev_platform/template_manager.py:25-32 | one entry per registered class, in registry order, with the instance's name, description and version, the version possibly absent |
| TemplateManager.ListedTemplatesResolve | src/k8s_auto_dev_platform/template_manager.py:25-39 | every listed entry describes the template `get_template` returns for its key |
| TemplateManager.ListedUnderOwnName | src/k8s_auto_dev_platform/template_manager.py:28-31 | listing reports the class's own `name` attribute, not the key it is registered under |
| TemplateManager.UnversionedListed | src/k8s_auto_dev_platform/template_manager.py:31 | a class that sets `version = None` is listed with version None; the base class itself declares `"0.0.0"` |
| TemplateManager.DefaultManager | tests/test_platform.py:14-18 | the default manager lists `simple-python-service` and returns the service template for it |
| Deployer.Manifests | src/k8s_auto_dev_platform/deployer.py:28-30 | the manifests are exactly the `*.yaml` files directly in `<project>/k8s`, sorted |
| Deployer.PlanIsNotManifest | src/k8s_auto_dev_platform/deployer.py:41-46 | writing the plan file does not change the manifest list |
| Deployer.ApplyCommand | src/k8s_auto_dev_platform/deployer.py:56-58 | the command is `<kubectl> apply -f <manifest>`, followed by `-n <namespace>` exactly when a non-empty namespace is given |
| Deployer.FirstFailure | src/k8s_auto_dev_platform/deployer.py:55-68 | every manifest before the returned index applied successfully, and the one at the index failed |
| Deployer.Deployment | src/k8s_auto_dev_platform/deployer.py:27-75 | reports every manifest; the commands run are a prefix of the apply commands in order, and none run without kubectl |
| Deployer.AppliedIff | src/k8s_auto_dev_platform/deployer.py:27-75 | `applied` holds exactly when there are manifests, kubectl is available and every apply exits 0 |
| Deployer.DeploymentStopsAt | src/k8s_auto_dev_platform/deployer.py:54-68 | the first failing apply ends the run, reporting that manifest's failure and the commands up to and including it |
| Deployer.DeploymentAppliesAll | src/k8s_auto_dev_platform/deployer.py:54-75 | when every apply succeeds, all commands are recorded and the success message is given |
| Deployer.DeploymentWithoutKubectl | src/k8s_auto_dev_platform/deployer.py:32-52 | no manifests, or no kubectl, runs nothing; the message is the no-manifests one or names the plan path |
| Deployer.FailureTextChoice | src/k8s_auto_dev_platform/deployer.py:62 | the failure text is stripped stderr, else stripped stdout, else `Unknown kubectl error` |
| Deployer.PlanLines | src/k8s_auto_dev_platform/deployer.py:42-46 | the plan is the two header lines followed by one line per manifest |
| Deployer.KubernetesDeployer.constructor | src/k8s_auto_dev_platform/deployer.py:24-25 | an explicit kubectl path wins over the one found on the search path |
| Deployer.KubernetesDeployer.Deploy | src/k8s_auto_dev_platform/deployer.py:27-75 | returns what `Deployment` specifies for the sorted manifests; writes the plan file exactly when there are manifests but no kubectl, and changes nothing else |
| Deployer.KubernetesDeployer.ApplyAll | src/k8s_auto_dev_platform/deployer.py:54-75 | the apply loop yields exactly the result `Deployment` specifies |
| Orchestrator.NewTestRunner | src/k8s_auto_dev_platform/test_runner.py:24-25 | a given non-empty interpreter is used; an absent or empty one falls back to the running interpreter |
| Orchestrator.TestRunner.Run | src/k8s_auto_dev_platform/test_runner.py:27-42 | runs `python -m unittest discover` and passes exactly when the return code is 0 |
| Orchestrator.AfterGeneration | src/k8s_auto_dev_platform/orchestrator.py:56-71 | tests run exactly when asked; deployment happens exactly when asked and the tests did not run or passed |
| Orchestrator.Pipeline | src/k8s_auto_dev_platform/orchestrator.py:37-71 | the output directory exists afterwards and no path is removed |
| Orchestrator.PipelineStepOrder | src/k8s_auto_dev_platform/orchestrator.py:49-71 | lookup, validation and generation run in that order, and the first failure is the result; a success reports the generated path, the template's name and the validated mapping |
| Orchestrator.PipelineGate | src/k8s_auto_dev_platform/orchestrator.py:56-63 | the test result is the test runner's; deployment happens exactly when asked and the tests did not run or exited 0 |
| Orchestrator.FailedTestsBlockDeployment | src/k8s_auto_dev_platform/orchestrator.py:60-63 | failing tests mean no deployment |
| Orchestrator.NoDeployFlag | src/k8s_auto_dev_platform/orchestrator.py:60-63 | without the deploy flag nothing is deployed and only the generated paths are added |
| Orchestrator.DeploymentForwarded | src/k8s_auto_dev_platform/orchestrator.py:61-63 | the deployment result is the deployer's for the generated project and the namespace given |
| Orchestrator.InventoryValidates | tests/test_platform.py:23-48 | the test's inventory requirements validate, with slug `inventory` and two routes |
| Orchestrator.ProjectHasManifest | src/k8s_auto_dev_platform/templates/simple_service.py:221 | a generated service project always has a manifest to deploy |
| Orchestrator.PlanWithoutKubectl | src/k8s_auto_dev_platform/deployer.py:40-52 | after passing tests without kubectl, the deployment is not applied and exactly the plan file is added |
| Orchestrator.ServiceGenerates | src/k8s_auto_dev_platform/orchestrator.py:49-54 | with the default manager, valid requirements generate `<output>/<slug>-service` with all its directories and files |
| Orchestrator.ServiceRunWithoutKubectl | src/k8s_auto_dev_platform/orchestrator.py:37-71 | a valid service run with passing tests and no kubectl has `app/server.py`, an unapplied deployment and a plan file |
| Orchestrator.InventoryRun | tests/test_platform.py:50-82 | the test's pipeline produces `inventory-service` with slug `inventory`, two routes, passing tests, an unapplied deployment and the plan file |
| Orchestrator.K8sAutoDevPlatform.constructor | src/k8s_auto_dev_platform/orchestrator.py:27-35 | a missing manager, test runner or deployer is replaced by a default one |
| Orchestrator.K8sAutoDevPlatform.RunPipeline | src/k8s_auto_dev_platform/orchestrator.py:37-71 | returns what `Pipeline` specifies and creates exactly its paths; a failure leaves file texts as they were, and a success changes only the generated files and the plan |
| Orchestrator.K8sAutoDevPlatform.TestAndDeploy | src/k8s_auto_dev_platform/orchestrator.py:56-71 | the test and deploy steps return what `AfterGeneration` specifies; the only text written is the plan |
| Text.ParseIntOfIntToText | src/k8s_auto_dev_platform/templates/simple_service.py:57 | the model's `int()` on text reads back every integer the model's `str()` writes |
| Text.Sort | src/k8s_auto_dev_platform/template_manager.py:38 | `sorted` returns a sorted permutation of its input |
| Text.SortedSet | src/k8s_auto_dev_platform/deployer.py:29 | sorting the globbed paths returns each path once, in order |
| Text.SortedSetUnique | src/k8s_auto_dev_platform/deployer.py:29 | `sorted` of a set is the one sorted listing of its members without repeats |
| Values.ToIntOfRenderedInt | src/k8s_auto_dev_platform/templates/simple_service.py:79 | the model's `int()` of the model's `str()` of an integer value gives the integer back |
| Errors.Message | src/k8s_auto_dev_platform/templates/simple_service.py:52-53 | every message is non-empty; the unsupported-method message ends with the allowed methods, the existing-directory message with the path, and the missing-fields message with the missing fields |

## Left out

- Paths are plain strings. `Path.resolve()`, `..`, symbolic links and the parent directories that `mkdir(parents=True)` creates are not modelled, so the output directory and the project directory are the only directories above the project that the model records.
- The rendered texts of the generated files (README, Dockerfile, manifests, routes, server, tests, metadata JSON) are not modelled. `Utils.FileSystem.WriteRendered` records only that the path exists and that its text is new; the plan file's text is modelled.
- Utils.FileSystem.WriteText: does not create the parent directory as `write_text` does, because every caller in the core writes into a directory it created first.
- SimpleService.Generate: a mapping that carries `slug` and that the renderers cannot read stops with `MalformedSpec` once the directories exist, and the model then writes no files. In the source this is a `KeyError` (a missing field or route key) or a `TypeError` (routes that are not iterable, or a route that is not a mapping, as in a non-empty string or mapping as routes), raised after the directories exist and possibly after some files were written.
- Python's `int()` is modelled on integers, booleans and ASCII decimal text with optional surrounding whitespace and sign. Underscores and Unicode digits in the text are not modelled. The `ValueError` and `TypeError` messages of `int()` and `list()` are not Python's exact wording.
- `str()` of a list or a dictionary is a fixed placeholder rather than Python's `repr`. Floats are not part of the value model.
- `lower()` and `upper()` map ASCII letters only; other Unicode case mappings are not modelled. `isspace()` uses Python's set of whitespace code points.
- Mappings are values. The copy `dict(requirements)` and the aliasing between the caller's mapping and the returned one are therefore not observable, and neither is the identity of the fresh template instance `get_template` returns.
- The generated server answers GET, POST, PUT and DELETE; any other method gets the standard library's 501, which is not modelled. `urlparse` is not modelled, so the handler looks up the request path as given, without splitting off a query string.
- Templates.ValidateRequirements: a template class other than the bundled one either keeps the base validation or overrides it; an override is an oracle that gives only its result.
- Templates.GenerateFor: a template other than the bundled one generates through an oracle that gives only its outcome; the paths it creates and the texts it writes are not followed.
- The `KeyError` message of `get_template` uses single-quoted names as Python's list `repr` does for ordinary names; quotes inside a name are not escaped as `repr` would escape them.
- `cli.py` is not part of this model. The test subprocess and `kubectl` are oracles that give a return code, stdout and stderr; their effects on the file system are not modelled. `subprocess.run` raising `OSError` because the program cannot be started (a missing interpreter, or an explicit kubectl path that is not executable) is not modelled: every oracle call completes with some return code.
- The file system records paths only and never tells a file from a directory. `mkdir(exist_ok=True)` over an existing regular file, which raises `FileExistsError` in the source (for instance the output path of `run_pipeline` at orchestrator.py line 50), is therefore not an error in the model, which goes on to generate into that path. `glob("*.yaml")` likewise does not tell files from directories, and hidden names are not excluded. `sorted` on paths is modelled as string order within one directory.
- SimpleService.ImportRoutes: only the route blocks of the routes module are modelled. The generator also pastes `service_name` unescaped into the module's docstring, so a name holding `"` or a backslash escape can make the import fail with `SyntaxError` as well.
- SimpleService.Served: only the route blocks decide whether the server starts. `python -m app.server` also imports `app/__init__.py` and the server module, into whose string literals `description`, `service_name` and `version` are pasted unescaped (simple_service.py lines 114-117 and 257). A description such as `Files under C:\Users` or a service name such as `Shop "A"` stops the server there, which the model does not capture.
- SimpleService.HandleNotFound: states the answers of the route table built from the routes; the generated server only has that table when its routes module imports, which `SimpleService.Served` and the finding below cover.
- SimpleService.HandleDeclared: as for `SimpleService.HandleNotFound`, a route whose response holds a boolean or null is in the table but is never served, since the module defining the table does not import.
- SimpleService.DuplicateKeepsLast: as for `SimpleService.HandleNotFound`, the later route answers only when every response is a Python literal.
- Orchestrator.TestRunner.Run: the test output is modelled as stdout followed by stderr, with an absent stream as the empty string; the working-directory argument is passed to the oracle.

## Findings

| source | as written | input that shows it | evidently intended | confidence | as-written member | corrected member |
|---|---|---|---|---|---|---|
| src/k8s_auto_dev_platform/templates/simple_service.py:224-247 | the routes module is written as `ROUTES = [` followed by each route's `json.dumps` text, so a response holding a boolean or null becomes the Python names `true`, `false` or `null`, and importing the module raises `NameError`; the server and the generated tests import it | `routes=[{"path": "/ok", "response": {"ok": True}}]`, which validates | the generated server answers every declared route with its status and response | not executed | SimpleService.TrueResponseBreaksImport | SimpleService.HandleDeclared |
