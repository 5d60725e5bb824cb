/**
 * orchestrator.py: one pipeline run, which looks the template up,
 * validates the requirements, generates the project, optionally runs its
 * tests and, when the gate allows, deploys it. The test command, kubectl
 * and the generators of templates other than the bundled one are oracles.
 */
module Orchestrator {
  import opened Wrappers
  import opened Values
  import opened Errors
  import opened Utils
  import opened Templates
  import opened TemplateManager
  import opened Deployer
  import SimpleService

  /** test_runner.py's `TestResult`. */
  datatype TestResult = TestResult(passed: bool, command: seq<string>, output: string, returnCode: int)

  /** A `TestRunner`: the Python interpreter it runs the tests with. */
  datatype TestRunner = TestRunner(python: string)
  {
    /** `python -m unittest discover`, run in the project directory. */
    function Command(): seq<string> {
      [python, "-m", "unittest", "discover"]
    }

    /** `run(project_path)`: passed exactly when the test command exits 0. */
    function Run(project: string, unittest: (seq<string>, string) -> Completed): (t: TestResult)
      ensures t.passed <==> t.returnCode == 0
      ensures t.command == [python, "-m", "unittest", "discover"]
      ensures t.returnCode == unittest(Command(), project).returnCode
    {
      var completed := unittest(Command(), project);
      TestResult(completed.returnCode == 0, Command(), completed.stdout + completed.stderr, completed.returnCode)
    }
  }

  /** `python_executable or sys.executable`, where `current` is the running interpreter. */
  function NewTestRunner(pythonExecutable: Option<string>, current: string): (runner: TestRunner)
    ensures pythonExecutable.Some? && pythonExecutable.value != "" ==> runner.python == pythonExecutable.value
    ensures pythonExecutable.None? || pythonExecutable.value == "" ==> runner.python == current
  {
    if pythonExecutable.Some? && pythonExecutable.value != "" then TestRunner(pythonExecutable.value)
    else TestRunner(current)
  }

  /**
   * What the world answers: another template's own validation and its
   * generator, the test command and kubectl.
   */
  datatype Oracles = Oracles(
    validate: (TemplateClass, Mapping) -> Result<Mapping, Error>,
    generate: (TemplateClass, Mapping, string) -> Result<string, Error>,
    unittest: (seq<string>, string) -> Completed,
    kubectl: seq<string> -> Completed)

  /** The outcome of `run_pipeline`. */
  datatype PipelineResult = PipelineResult(
    projectPath: string,
    templateName: string,
    requirements: Mapping,
    testResult: Option<TestResult>,
    deploymentResult: Option<DeploymentResult>)

  /** A pipeline run: its result or the error it raised, and the paths that exist afterwards. */
  datatype Run = Run(result: Result<PipelineResult, Error>, paths: set<string>)

  /** The deploy gate: asked to deploy, and the tests either did not run or passed. */
  predicate ShouldDeploy(deploy: bool, testResult: Option<TestResult>) {
    deploy && (testResult.None? || testResult.value.passed)
  }

  /** The steps after a successful generation: the tests if asked for, then the gated deployment. */
  function AfterGeneration(runner: TestRunner, kubectl: Option<string>, project: string, templateName: string,
                           validated: Mapping, runTests: bool, deploy: bool, namespace: Option<string>,
                           paths: set<string>, oracles: Oracles): (run: Run)
    ensures run.result.Success?
    ensures run.result.value.projectPath == project && run.result.value.requirements == validated
    ensures run.result.value.testResult.Some? <==> runTests
    ensures run.result.value.deploymentResult.Some? <==> ShouldDeploy(deploy, run.result.value.testResult)
  {
    var testResult := if runTests then Some(runner.Run(project, oracles.unittest)) else None;
    var manifests := Manifests(project, paths);
    var deployment :=
      if ShouldDeploy(deploy, testResult) then Some(Deployment(project, manifests, kubectl, namespace, oracles.kubectl))
      else None;
    var after := if deployment.Some? && WritesPlan(manifests, kubectl) then paths + {PlanPath(project)} else paths;
    Run(Success(PipelineResult(project, templateName, validated, testResult, deployment)), after)
  }

  /**
   * `run_pipeline` with the given manager, test runner and kubectl, on a
   * file system holding `existing`: the output directory is created, and
   * the first step that raises ends the run with its error.
   */
  function Pipeline(manager: Manager, runner: TestRunner, kubectl: Option<string>, requirements: Mapping,
                    templateName: string, output: string, runTests: bool, deploy: bool,
                    namespace: Option<string>, existing: set<string>, oracles: Oracles): (run: Run)
    ensures existing + {output} <= run.paths
  {
    var created := existing + {output};
    match GetTemplate(manager, templateName)
    case Failure(e) => Run(Failure(e), created)
    case Success(template) =>
      match Templates.ValidateRequirements(template, requirements, oracles.validate)
      case Failure(e) => Run(Failure(e), created)
      case Success(validated) =>
        var g := GenerateFor(template, validated, output, created, oracles.generate);
        match g.outcome
        case Failure(e) => Run(Failure(e), g.paths)
        case Success(project) =>
          AfterGeneration(runner, kubectl, project, template.Name(), validated, runTests, deploy, namespace,
                          g.paths, oracles)
  }

  /**
   * The steps run in order and the first one that raises ends the run with
   * its error, before any test or deployment: an unknown template, then
   * invalid requirements, then a failed generation. A run that gets through
   * reports the generated directory, the template's own name and the
   * validated mapping that generation received.
   */
  lemma PipelineStepOrder(manager: Manager, runner: TestRunner, kubectl: Option<string>, requirements: Mapping,
                          templateName: string, output: string, runTests: bool, deploy: bool,
                          namespace: Option<string>, existing: set<string>, oracles: Oracles)
    ensures var run := Pipeline(manager, runner, kubectl, requirements, templateName, output, runTests, deploy,
                                namespace, existing, oracles);
      var found := GetTemplate(manager, templateName);
      && (found.Failure? ==> run == Run(Failure(found.error), existing + {output}))
      && (found.Success? ==>
            var validated := Templates.ValidateRequirements(found.value, requirements, oracles.validate);
            && (validated.Failure? ==> run == Run(Failure(validated.error), existing + {output}))
            && (validated.Success? ==>
                  var g := GenerateFor(found.value, validated.value, output, existing + {output}, oracles.generate);
                  && (g.outcome.Failure? ==> run == Run(Failure(g.outcome.error), g.paths))
                  && (g.outcome.Success? ==>
                        && run.result.Success?
                        && run.result.value.projectPath == g.outcome.value
                        && run.result.value.templateName == found.value.Name()
                        && run.result.value.requirements == validated.value)))
  {
  }

  /**
   * The tests run exactly when asked for, and the deployer is called
   * exactly when deployment is asked for and the tests did not fail.
   */
  lemma PipelineGate(manager: Manager, runner: TestRunner, kubectl: Option<string>, requirements: Mapping,
                     templateName: string, output: string, runTests: bool, deploy: bool,
                     namespace: Option<string>, existing: set<string>, oracles: Oracles)
    requires Pipeline(manager, runner, kubectl, requirements, templateName, output, runTests, deploy,
                      namespace, existing, oracles).result.Success?
    ensures var p := Pipeline(manager, runner, kubectl, requirements, templateName, output, runTests, deploy,
                              namespace, existing, oracles).result.value;
      var tests := runner.Run(p.projectPath, oracles.unittest);
      && (p.testResult.Some? <==> runTests)
      && (runTests ==> p.testResult == Some(tests))
      && (p.deploymentResult.Some? <==> deploy && (!runTests || oracles.unittest(runner.Command(), p.projectPath).returnCode == 0))
  {
  }

  /** A failing test run never deploys, whatever `deploy` says. */
  lemma FailedTestsBlockDeployment(manager: Manager, runner: TestRunner, kubectl: Option<string>, requirements: Mapping,
                                   templateName: string, output: string, deploy: bool,
                                   namespace: Option<string>, existing: set<string>, oracles: Oracles)
    requires Pipeline(manager, runner, kubectl, requirements, templateName, output, true, deploy,
                      namespace, existing, oracles).result.Success?
    requires var p := Pipeline(manager, runner, kubectl, requirements, templateName, output, true, deploy,
                               namespace, existing, oracles).result.value;
      oracles.unittest(runner.Command(), p.projectPath).returnCode != 0
    ensures var p := Pipeline(manager, runner, kubectl, requirements, templateName, output, true, deploy,
                              namespace, existing, oracles).result.value;
      p.testResult.Some? && !p.testResult.value.passed && p.deploymentResult.None?
  {
    PipelineGate(manager, runner, kubectl, requirements, templateName, output, true, deploy, namespace, existing, oracles);
  }

  /** With `deploy=False` there is never a deployment result, and nothing is written after generation. */
  lemma NoDeployFlag(manager: Manager, runner: TestRunner, kubectl: Option<string>, requirements: Mapping,
                     templateName: string, output: string, runTests: bool,
                     namespace: Option<string>, existing: set<string>, oracles: Oracles)
    requires Pipeline(manager, runner, kubectl, requirements, templateName, output, runTests, false,
                      namespace, existing, oracles).result.Success?
    ensures GetTemplate(manager, templateName).Success?
    ensures Templates.ValidateRequirements(GetTemplate(manager, templateName).value, requirements, oracles.validate).Success?
    ensures var run := Pipeline(manager, runner, kubectl, requirements, templateName, output, runTests, false,
                                namespace, existing, oracles);
      var template := GetTemplate(manager, templateName).value;
      var validated := Templates.ValidateRequirements(template, requirements, oracles.validate).value;
      && run.result.value.deploymentResult.None?
      && run.paths == GenerateFor(template, validated, output, existing + {output}, oracles.generate).paths
  {
  }

  /**
   * A deployment gets the generated directory and the namespace unchanged,
   * and applies the manifests that exist once the run is over.
   */
  lemma DeploymentForwarded(manager: Manager, runner: TestRunner, kubectl: Option<string>, requirements: Mapping,
                            templateName: string, output: string, runTests: bool, deploy: bool,
                            namespace: Option<string>, existing: set<string>, oracles: Oracles)
    requires var run := Pipeline(manager, runner, kubectl, requirements, templateName, output, runTests, deploy,
                                 namespace, existing, oracles);
      run.result.Success? && run.result.value.deploymentResult.Some?
    ensures var run := Pipeline(manager, runner, kubectl, requirements, templateName, output, runTests, deploy,
                                namespace, existing, oracles);
      var p := run.result.value;
      p.deploymentResult.value ==
        Deployment(p.projectPath, Manifests(p.projectPath, run.paths), kubectl, namespace, oracles.kubectl)
  {
    var template := GetTemplate(manager, templateName).value;
    var validated := Templates.ValidateRequirements(template, requirements, oracles.validate).value;
    var g := GenerateFor(template, validated, output, existing + {output}, oracles.generate);
    PlanIsNotManifest(g.outcome.value, g.paths);
  }

  // ---------------------------------------------------------------------
  // The Inventory example of tests/test_platform.py.
  // ---------------------------------------------------------------------

  function InventoryRoutes(): seq<Value> {
    [Dict(map[
       "name" := Str("list_items"), "method" := Str("GET"), "path" := Str("/items"), "status" := Int(200),
       "response" := Dict(map["items" := List([
         Dict(map["sku" := Str("SKU-001"), "quantity" := Int(5)]),
         Dict(map["sku" := Str("SKU-002"), "quantity" := Int(7)])])])]),
     Dict(map[
       "name" := Str("health"), "method" := Str("GET"), "path" := Str("/healthz"), "status" := Int(200),
       "response" := Dict(map["status" := Str("ok")])])]
  }

  function InventoryRequirements(): Mapping {
    map[
      "service_name" := Str("Inventory"),
      "description" := Str("Inventory management microservice."),
      "version" := Str("0.2.0"),
      "routes" := List(InventoryRoutes())]
  }

  /** Both declared routes are GET routes with a rooted path and an integer status. */
  lemma InventoryRoutesAccepted()
    ensures forall i :: 0 <= i < |InventoryRoutes()| ==> SimpleService.NormalizeRoute(i, InventoryRoutes()[i]).Success?
  {
    var entries := InventoryRoutes();
    SimpleService.UpperGet();
    forall i | 0 <= i < |entries| ensures SimpleService.NormalizeRoute(i, entries[i]).Success? {
      var f := entries[i].fields;
      assert Get(f, "method", Str("GET")) == Str("GET");
      assert SimpleService.RouteMethod(f) == "GET";
      assert Get(f, "path", Null) == Str(if i == 0 then "/items" else "/healthz");
      assert SimpleService.RouteStatus(f) == Int(200);
      SimpleService.NormalizeRouteAccepts(i, entries[i]);
    }
  }

  /** Requirements with both fields, declared routes that all normalize and no port validate. */
  lemma ValidatesWithRoutes(req: Mapping, entries: seq<Value>)
    requires "service_name" in req && "description" in req && "port" !in req
    requires Get(req, "routes", Null) == List(entries) && entries != []
    requires forall i :: 0 <= i < |entries| ==> SimpleService.NormalizeRoute(i, entries[i]).Success?
    ensures SimpleService.Validate(req).Success?
    ensures var spec := SimpleService.Validate(req).value;
      && spec["slug"] == Str(Slugify(SimpleService.ServiceName(req)))
      && spec["routes"].List? && |spec["routes"].items| == |entries|
  {
    assert SimpleService.RoutesFor(SimpleService.ServiceName(req), List(entries)).Success?;
    SimpleService.ValidateSucceeds(req);
    SimpleService.ValidateDerives(req);
    SimpleService.ValidateDeclaredRoutes(req, entries);
  }

  /** The Inventory requirements validate, with slug "inventory" and both routes. */
  lemma InventoryValidates()
    ensures SimpleService.Validate(InventoryRequirements()).Success?
    ensures var spec := SimpleService.Validate(InventoryRequirements()).value;
      && spec["slug"] == Str("inventory")
      && spec["routes"].List? && |spec["routes"].items| == 2
  {
    var req := InventoryRequirements();
    assert SimpleService.ServiceName(req) == "Inventory";
    InventoryRoutesAccepted();
    ValidatesWithRoutes(req, InventoryRoutes());
    SlugifyInventory();
  }

  /** A generated service project holds a Kubernetes manifest. */
  lemma ProjectHasManifest(dir: string, paths: set<string>)
    requires SimpleService.ProjectFiles(dir) <= paths
    ensures Manifests(dir, paths) != []
  {
    var name := "deployment.yaml";
    assert name[|name| - 5..] == ".yaml";
    ManifestNamed(dir, name);
    var k8s := ManifestDir(dir);
    DeploymentManifestPath(k8s);
    assert SimpleService.ManifestFiles(k8s) <= SimpleService.ProjectFiles(dir);
  }

  /** The generated deployment manifest is the file "deployment.yaml" of its directory. */
  lemma DeploymentManifestPath(k8s: string)
    ensures k8s + "/" + "deployment.yaml" in SimpleService.ManifestFiles(k8s)
  {
    assert k8s + "/" + "deployment.yaml" == k8s + "/deployment.yaml";
  }

  /** After generating a service project with passing tests and no kubectl, the plan is written. */
  lemma PlanWithoutKubectl(runner: TestRunner, project: string, templateName: string, validated: Mapping,
                           namespace: Option<string>, paths: set<string>, oracles: Oracles)
    requires SimpleService.ProjectFiles(project) <= paths
    requires oracles.unittest(runner.Command(), project).returnCode == 0
    ensures var run := AfterGeneration(runner, None, project, templateName, validated, true, true, namespace,
                                       paths, oracles);
      var p := run.result.value;
      && p.testResult.Some? && p.testResult.value.passed
      && p.deploymentResult.Some? && !p.deploymentResult.value.applied
      && run.paths == paths + {PlanPath(project)}
  {
    ProjectHasManifest(project, paths);
  }

  /** With the default manager, valid requirements reach generation in a fresh output directory. */
  lemma ServiceGenerates(req: Mapping, output: string, runner: TestRunner, namespace: Option<string>,
                         oracles: Oracles)
    requires SimpleService.Validate(req).Success?
    requires SimpleService.ProjectDir(output, SimpleService.Validate(req).value["slug"]) != output
    ensures var spec := SimpleService.Validate(req).value;
      var dir := SimpleService.ProjectDir(output, spec["slug"]);
      var paths := {output} + SimpleService.ProjectDirs(dir) + SimpleService.ProjectFiles(dir);
      Pipeline(NewManager(None), runner, None, req, "simple-python-service", output, true, true,
               namespace, {}, oracles) ==
      AfterGeneration(runner, None, dir, "simple-python-service", spec, true, true, namespace, paths, oracles)
  {
    var spec := SimpleService.Validate(req).value;
    var created: set<string> := {} + {output};
    assert created == {output};
    DefaultManager(None);
    FreshServiceProject(spec, output);
    assert GenerateFor(SimplePythonService, spec, output, created, oracles.generate).outcome.Success?;
  }

  /** A validated mapping generates into a directory that does not exist yet. */
  lemma FreshServiceProject(spec: Mapping, output: string)
    requires SimpleService.IsServiceSpec(spec)
    requires SimpleService.ProjectDir(output, spec["slug"]) != output
    ensures var dir := SimpleService.ProjectDir(output, spec["slug"]);
      SimpleService.Generate(spec, output, {output}) ==
      SimpleService.Generated(Success(dir), {output} + SimpleService.ProjectDirs(dir) + SimpleService.ProjectFiles(dir))
  {
    assert "slug" in SimpleService.SpecKeys;
  }

  /**
   * With the default manager, valid requirements, passing tests and no
   * kubectl, a run into a fresh output directory generates the project,
   * runs its tests, calls the deployer, which does not apply anything and
   * writes the plan file.
   */
  lemma ServiceRunWithoutKubectl(req: Mapping, output: string, runner: TestRunner, namespace: Option<string>,
                                 oracles: Oracles)
    requires SimpleService.Validate(req).Success?
    requires var dir := SimpleService.ProjectDir(output, SimpleService.Validate(req).value["slug"]);
      dir != output && oracles.unittest(runner.Command(), dir).returnCode == 0
    ensures var run := Pipeline(NewManager(None), runner, None, req, "simple-python-service", output, true, true,
                                namespace, {}, oracles);
      var dir := SimpleService.ProjectDir(output, SimpleService.Validate(req).value["slug"]);
      && run.result.Success?
      && var p := run.result.value;
      && p.projectPath == dir
      && p.templateName == "simple-python-service"
      && p.requirements == SimpleService.Validate(req).value
      && p.testResult.Some? && p.testResult.value.passed
      && p.deploymentResult.Some? && !p.deploymentResult.value.applied
      && dir + "/app/server.py" in run.paths
      && PlanPath(dir) in run.paths
  {
    var spec := SimpleService.Validate(req).value;
    var dir := SimpleService.ProjectDir(output, spec["slug"]);
    var paths := {output} + SimpleService.ProjectDirs(dir) + SimpleService.ProjectFiles(dir);
    ServiceGenerates(req, output, runner, namespace, oracles);
    PlanWithoutKubectl(runner, dir, "simple-python-service", spec, namespace, paths, oracles);
    ServerModuleWritten(dir);
  }

  /** The server module is among the generated project's files. */
  lemma ServerModuleWritten(dir: string)
    ensures dir + "/app/server.py" in SimpleService.ProjectFiles(dir)
  {
    assert dir + "/app/server.py" == dir + "/app" + "/server.py";
  }

  lemma InventoryDir(output: string)
    ensures SimpleService.ProjectDir(output, Str("inventory")) == output + "/inventory-service"
  {
  }

  /**
   * The Inventory example: slug "inventory", two routes, passing tests, and
   * without kubectl a deployment result that is not applied plus a plan file.
   */
  lemma InventoryRun(output: string, runner: TestRunner, oracles: Oracles)
    requires oracles.unittest(runner.Command(), output + "/inventory-service").returnCode == 0
    ensures var run := Pipeline(NewManager(None), runner, None, InventoryRequirements(), "simple-python-service",
                                output, true, true, None, {}, oracles);
      && run.result.Success?
      && var p := run.result.value;
      && p.projectPath == output + "/inventory-service"
      && p.requirements["slug"] == Str("inventory")
      && p.requirements["routes"].List? && |p.requirements["routes"].items| == 2
      && p.testResult.Some? && p.testResult.value.passed
      && p.deploymentResult.Some? && !p.deploymentResult.value.applied
      && PlanPath(p.projectPath) in run.paths
  {
    var req := InventoryRequirements();
    InventoryValidates();
    InventoryDir(output);
    ServiceRunWithoutKubectl(req, output, runner, None, oracles);
  }

  /** The file texts after the deployer: the plan is recorded when the deployer wrote one. */
  function PlanWritten(texts: map<string, string>, result: PipelineResult, kubectl: Option<string>): map<string, string> {
    match result.deploymentResult
    case Some(d) =>
      if WritesPlan(d.manifestFiles, kubectl) then texts[PlanPath(result.projectPath) := PlanText(d.manifestFiles)]
      else texts
    case None => texts
  }

  /**
   * The file texts after a successful run: the service template rewrites
   * every file of the project with text the model does not follow, then
   * the deployer may record the plan.
   */
  function PipelineTexts(texts: map<string, string>, template: TemplateClass, result: PipelineResult,
                         kubectl: Option<string>): map<string, string>
  {
    var generated := if template.SimplePythonService? then texts - SimpleService.ProjectFiles(result.projectPath) else texts;
    PlanWritten(generated, result, kubectl)
  }

  /** A `K8sAutoDevPlatform`: its manager, test runner and deployer, fixed at construction. */
  class K8sAutoDevPlatform {
    const templateManager: Manager
    const testRunner: TestRunner
    const deployer: KubernetesDeployer

    /**
     * Each collaborator not given is the default one: the default registry,
     * the running interpreter, and whatever kubectl the PATH lookup finds.
     */
    constructor (templateManager: Option<Manager>, tester: Option<TestRunner>, deployer: KubernetesDeployer?,
                 current: string, kubectlFound: Option<string>)
      ensures this.templateManager == if templateManager.Some? then templateManager.value else NewManager(None)
      ensures this.testRunner == if tester.Some? then tester.value else TestRunner(current)
      ensures deployer != null ==> this.deployer == deployer
      ensures deployer == null ==> fresh(this.deployer) && this.deployer.kubectl == kubectlFound
    {
      this.templateManager := if templateManager.Some? then templateManager.value else NewManager(None);
      this.testRunner := if tester.Some? then tester.value else TestRunner(current);
      if deployer != null {
        this.deployer := deployer;
      } else {
        this.deployer := new KubernetesDeployer(None, kubectlFound);
      }
    }

    /** `run_pipeline(requirements, template_name, output_dir, run_tests=…, deploy=…, namespace=…)` */
    method RunPipeline(requirements: Mapping, templateName: string, output: string, runTests: bool, deploy: bool,
                       namespace: Option<string>, fs: FileSystem, oracles: Oracles)
      returns (r: Result<PipelineResult, Error>)
      modifies fs
      ensures r == Pipeline(templateManager, testRunner, deployer.kubectl, requirements, templateName, output,
                            runTests, deploy, namespace, old(fs.paths), oracles).result
      ensures fs.paths == Pipeline(templateManager, testRunner, deployer.kubectl, requirements, templateName, output,
                                   runTests, deploy, namespace, old(fs.paths), oracles).paths
      ensures r.Failure? ==> fs.texts == old(fs.texts)
      ensures r.Success? ==> GetTemplate(templateManager, templateName).Success?
      ensures r.Success? ==> fs.texts == PipelineTexts(old(fs.texts), GetTemplate(templateManager, templateName).value,
                                                       r.value, deployer.kubectl)
    {
      fs.MakeDirs({output});
      var found := GetTemplate(templateManager, templateName);
      if found.Failure? {
        return Failure(found.error);
      }
      var template := found.value;
      var validated := Templates.ValidateRequirements(template, requirements, oracles.validate);
      if validated.Failure? {
        return Failure(validated.error);
      }
      var generated := GenerateProject(template, validated.value, output, fs, oracles.generate);
      if generated.Failure? {
        return Failure(generated.error);
      }
      var result := TestAndDeploy(generated.value, template.Name(), validated.value, runTests, deploy, namespace,
                                  fs, oracles);
      r := Success(result);
    }

    /** The part of `run_pipeline` after generation, with the plan file the deployer may write. */
    method TestAndDeploy(project: string, templateName: string, validated: Mapping, runTests: bool, deploy: bool,
                         namespace: Option<string>, fs: FileSystem, oracles: Oracles)
      returns (r: PipelineResult)
      modifies fs
      ensures var run := AfterGeneration(testRunner, deployer.kubectl, project, templateName, validated, runTests,
                                         deploy, namespace, old(fs.paths), oracles);
        Success(r) == run.result && fs.paths == run.paths
      ensures fs.texts == PlanWritten(old(fs.texts), r, deployer.kubectl)
    {
      var testResult: Option<TestResult> := None;
      if runTests {
        testResult := Some(testRunner.Run(project, oracles.unittest));
      }
      var shouldDeploy := deploy && (testResult.None? || testResult.value.passed);
      var deploymentResult: Option<DeploymentResult> := None;
      if shouldDeploy {
        var deployment := deployer.Deploy(project, namespace, fs, oracles.kubectl);
        deploymentResult := Some(deployment);
      }
      r := PipelineResult(project, templateName, validated, testResult, deploymentResult);
    }
  }
}
