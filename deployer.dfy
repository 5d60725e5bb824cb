/**
 * deployer.py: applying a generated project's Kubernetes manifests with
 * kubectl, one manifest at a time in sorted order, or writing a dry-run
 * plan when no kubectl binary is available. What kubectl does with a
 * command is an oracle `run` from the command to the completed process.
 */
module Deployer {
  import opened Wrappers
  import opened Text
  import opened Utils

  /** What `subprocess.run` reports for one kubectl command. */
  datatype Completed = Completed(returnCode: int, stdout: string, stderr: string)

  /** The outcome of one `deploy` call. */
  datatype DeploymentResult = DeploymentResult(
    applied: bool,
    manifestFiles: seq<string>,
    message: string,
    commandSequence: seq<seq<string>>)

  const NoManifests := "No Kubernetes manifests found."
  const AppliedAll := "Applied Kubernetes manifests successfully."
  const UnknownError := "Unknown kubectl error"
  const PlanHeader: seq<string> := [
    "kubectl command not found; generated dry-run deployment plan.",
    "Apply the following manifests manually:"]

  function ManifestDir(project: string): string {
    project + "/k8s"
  }

  function PlanPath(project: string): string {
    ManifestDir(project) + "/deployment-plan.txt"
  }

  /** A path `glob("*.yaml")` yields: a direct child of the manifest directory whose name ends in ".yaml". */
  predicate IsManifest(project: string, path: string) {
    var prefix := ManifestDir(project) + "/";
    && |path| >= |prefix| + 5
    && path[..|prefix|] == prefix
    && (forall i :: |prefix| <= i < |path| ==> path[i] != '/')
    && path[|path| - 5..] == ".yaml"
  }

  /** A file named `name` in the manifest directory is a manifest when the name ends in ".yaml". */
  lemma ManifestNamed(project: string, name: string)
    requires |name| >= 5 && name[|name| - 5..] == ".yaml" && '/' !in name
    ensures IsManifest(project, ManifestDir(project) + "/" + name)
  {
    var prefix := ManifestDir(project) + "/";
    var path := prefix + name;
    assert path[..|prefix|] == prefix;
    assert path[|path| - 5..] == name[|name| - 5..];
    forall i | |prefix| <= i < |path| ensures path[i] != '/' {
      assert path[i] == name[i - |prefix|];
    }
  }

  /** `sorted(manifest_dir.glob("*.yaml"))` over the paths that exist. */
  function Manifests(project: string, paths: set<string>): (manifests: seq<string>)
    ensures Sorted(manifests)
    ensures forall p :: p in manifests <==> p in paths && IsManifest(project, p)
  {
    SortedSet(set p | p in paths && IsManifest(project, p))
  }

  /** `kubectl_path or shutil.which("kubectl")` gave a binary. */
  predicate Available(kubectl: Option<string>) {
    kubectl.Some? && kubectl.value != ""
  }

  /** A namespace that `if namespace:` accepts. */
  predicate HasNamespace(namespace: Option<string>) {
    namespace.Some? && namespace.value != ""
  }

  /** The apply command for one manifest, extended by `-n namespace` exactly when a namespace is given. */
  function ApplyCommand(kubectl: string, manifest: string, namespace: Option<string>): (command: seq<string>)
    ensures |command| >= 4 && command[..4] == [kubectl, "apply", "-f", manifest]
    ensures |command| == 6 <==> HasNamespace(namespace)
    ensures |command| == 6 ==> command[4..] == ["-n", namespace.value]
  {
    [kubectl, "apply", "-f", manifest] + if HasNamespace(namespace) then ["-n", namespace.value] else []
  }

  /** The apply commands for a list of manifests, in that order. */
  function Commands(kubectl: string, manifests: seq<string>, namespace: Option<string>): (commands: seq<seq<string>>)
    ensures |commands| == |manifests|
    ensures forall i :: 0 <= i < |commands| ==> commands[i] == ApplyCommand(kubectl, manifests[i], namespace)
  {
    seq(|manifests|, i requires 0 <= i < |manifests| => ApplyCommand(kubectl, manifests[i], namespace))
  }

  /** `(stderr or stdout or "Unknown kubectl error").strip()` */
  function FailureText(completed: Completed): string {
    Strip(if completed.stderr != "" then completed.stderr
          else if completed.stdout != "" then completed.stdout
          else UnknownError)
  }

  function FailureMessage(manifest: string, completed: Completed): string {
    "kubectl failed for " + manifest + ": " + FailureText(completed)
  }

  function NoKubectlMessage(project: string): string {
    "kubectl not available. Plan written to " + PlanPath(project) + "."
  }

  /** The dry-run plan: the two header lines, then one line per manifest, each line newline-terminated. */
  function PlanText(manifests: seq<string>): string {
    Join(PlanHeader + manifests, "\n") + "\n"
  }

  /** The index of the first manifest whose apply command exits non-zero, or the count when none does. */
  function FirstFailure(kubectl: string, manifests: seq<string>, namespace: Option<string>,
                        run: seq<string> -> Completed): (k: nat)
    ensures k <= |manifests|
    ensures forall i :: 0 <= i < k ==> run(ApplyCommand(kubectl, manifests[i], namespace)).returnCode == 0
    ensures k < |manifests| ==> run(ApplyCommand(kubectl, manifests[k], namespace)).returnCode != 0
  {
    if manifests == [] then 0
    else if run(ApplyCommand(kubectl, manifests[0], namespace)).returnCode != 0 then 0
    else 1 + FirstFailure(kubectl, manifests[1..], namespace, run)
  }

  /** Whether `deploy` writes the dry-run plan: manifests exist but kubectl does not. */
  predicate WritesPlan(manifests: seq<string>, kubectl: Option<string>) {
    manifests != [] && !Available(kubectl)
  }

  /**
   * What `deploy` returns for the sorted manifests: nothing to do, a plan
   * instead of kubectl, or the apply loop up to and including the first
   * failing manifest.
   */
  function Deployment(project: string, manifests: seq<string>, kubectl: Option<string>,
                      namespace: Option<string>, run: seq<string> -> Completed): (r: DeploymentResult)
    ensures r.manifestFiles == manifests
    ensures |r.commandSequence| <= |manifests|
    ensures Available(kubectl) ==>
      r.commandSequence == Commands(kubectl.value, manifests, namespace)[..|r.commandSequence|]
    ensures !Available(kubectl) ==> r.commandSequence == []
  {
    if manifests == [] then DeploymentResult(false, manifests, NoManifests, [])
    else if !Available(kubectl) then DeploymentResult(false, manifests, NoKubectlMessage(project), [])
    else
      var k := FirstFailure(kubectl.value, manifests, namespace, run);
      if k < |manifests| then
        var commands := Commands(kubectl.value, manifests[..k + 1], namespace);
        assert commands == Commands(kubectl.value, manifests, namespace)[..k + 1];
        DeploymentResult(false, manifests,
          FailureMessage(manifests[k], run(ApplyCommand(kubectl.value, manifests[k], namespace))), commands)
      else
        DeploymentResult(true, manifests, AppliedAll, Commands(kubectl.value, manifests, namespace))
  }

  /** The first failure is the failing index every earlier command succeeds before. */
  lemma {:induction false} FirstFailureIs(kubectl: string, manifests: seq<string>, namespace: Option<string>,
                                          run: seq<string> -> Completed, k: nat)
    requires k <= |manifests|
    requires forall i :: 0 <= i < k ==> run(ApplyCommand(kubectl, manifests[i], namespace)).returnCode == 0
    requires k < |manifests| ==> run(ApplyCommand(kubectl, manifests[k], namespace)).returnCode != 0
    ensures FirstFailure(kubectl, manifests, namespace, run) == k
  {
    if k > 0 {
      assert run(ApplyCommand(kubectl, manifests[0], namespace)).returnCode == 0;
      FirstFailureIs(kubectl, manifests[1..], namespace, run, k - 1);
    }
  }

  /** One more command at the end of the list. */
  lemma CommandsExtend(kubectl: string, manifests: seq<string>, namespace: Option<string>, i: nat)
    requires i < |manifests|
    ensures Commands(kubectl, manifests[..i + 1], namespace) ==
      Commands(kubectl, manifests[..i], namespace) + [ApplyCommand(kubectl, manifests[i], namespace)]
  {
  }

  /**
   * A non-zero exit at manifest k ends the deployment there: not applied,
   * the commands for manifests 0..k in order, and a message naming manifest k.
   */
  lemma DeploymentStopsAt(project: string, manifests: seq<string>, kubectl: Option<string>,
                          namespace: Option<string>, run: seq<string> -> Completed, k: nat)
    requires Available(kubectl) && k < |manifests|
    requires forall i :: 0 <= i < k ==> run(ApplyCommand(kubectl.value, manifests[i], namespace)).returnCode == 0
    requires run(ApplyCommand(kubectl.value, manifests[k], namespace)).returnCode != 0
    ensures Deployment(project, manifests, kubectl, namespace, run) ==
      DeploymentResult(false, manifests,
        FailureMessage(manifests[k], run(ApplyCommand(kubectl.value, manifests[k], namespace))),
        Commands(kubectl.value, manifests[..k + 1], namespace))
  {
    FirstFailureIs(kubectl.value, manifests, namespace, run, k);
  }

  /** When every command exits 0, every manifest is applied in sorted order. */
  lemma DeploymentAppliesAll(project: string, manifests: seq<string>, kubectl: Option<string>,
                             namespace: Option<string>, run: seq<string> -> Completed)
    requires Available(kubectl) && manifests != []
    requires forall i :: 0 <= i < |manifests| ==> run(ApplyCommand(kubectl.value, manifests[i], namespace)).returnCode == 0
    ensures Deployment(project, manifests, kubectl, namespace, run) ==
      DeploymentResult(true, manifests, AppliedAll, Commands(kubectl.value, manifests, namespace))
  {
    FirstFailureIs(kubectl.value, manifests, namespace, run, |manifests|);
  }

  /** `applied` is true exactly when there are manifests, kubectl exists and every apply command exits 0. */
  lemma AppliedIff(project: string, manifests: seq<string>, kubectl: Option<string>,
                   namespace: Option<string>, run: seq<string> -> Completed)
    ensures Deployment(project, manifests, kubectl, namespace, run).applied <==>
      && manifests != [] && Available(kubectl)
      && forall i :: 0 <= i < |manifests| ==> run(ApplyCommand(kubectl.value, manifests[i], namespace)).returnCode == 0
  {
    if manifests != [] && Available(kubectl) {
      var k := FirstFailure(kubectl.value, manifests, namespace, run);
      if k < |manifests| {
        assert run(ApplyCommand(kubectl.value, manifests[k], namespace)).returnCode != 0;
      }
    }
  }

  /**
   * Without manifests nothing else is consulted; without kubectl the plan
   * is announced. Either way nothing is applied and no command runs.
   */
  lemma DeploymentWithoutKubectl(project: string, manifests: seq<string>, kubectl: Option<string>,
                                 namespace: Option<string>, run: seq<string> -> Completed)
    requires manifests == [] || !Available(kubectl)
    ensures var r := Deployment(project, manifests, kubectl, namespace, run);
      && !r.applied && r.commandSequence == []
      && r.message == if manifests == [] then NoManifests
                      else "kubectl not available. Plan written to " + project + "/k8s/deployment-plan.txt."
  {
  }

  /** The failure text is stderr when there is one, else stdout, else a fixed text, stripped. */
  lemma FailureTextChoice(completed: Completed)
    ensures completed.stderr != "" ==> FailureText(completed) == Strip(completed.stderr)
    ensures completed.stderr == "" && completed.stdout != "" ==> FailureText(completed) == Strip(completed.stdout)
    ensures completed.stderr == "" && completed.stdout == "" ==> FailureText(completed) == "Unknown kubectl error"
  {
    if completed.stderr == "" && completed.stdout == "" {
      StripUnchanged(UnknownError);
    }
  }

  /** Each line followed by a newline: an independent account of newline-terminated lines. */
  function Lines(lines: seq<string>): string {
    if lines == [] then "" else lines[0] + "\n" + Lines(lines[1..])
  }

  lemma {:induction false} JoinLines(lines: seq<string>)
    requires lines != []
    ensures Join(lines, "\n") + "\n" == Lines(lines)
  {
    if |lines| > 1 {
      JoinLines(lines[1..]);
    }
  }

  /** The plan is the two header lines and then one line per manifest. */
  lemma PlanLines(manifests: seq<string>)
    ensures PlanText(manifests) ==
      "kubectl command not found; generated dry-run deployment plan.\n" +
      "Apply the following manifests manually:\n" + Lines(manifests)
  {
    JoinLines(PlanHeader + manifests);
    LinesAfterTwo(PlanHeader[0], PlanHeader[1], manifests);
    assert PlanHeader + manifests == [PlanHeader[0], PlanHeader[1]] + manifests;
  }

  /** Two lines in front of others. */
  lemma LinesAfterTwo(a: string, b: string, rest: seq<string>)
    ensures Lines([a, b] + rest) == a + "\n" + b + "\n" + Lines(rest)
  {
    var l := [a, b] + rest;
    assert l[1..] == [b] + rest;
    assert ([b] + rest)[1..] == rest;
  }

  /** The plan file is not a manifest: deploying again sees the same manifests. */
  lemma PlanIsNotManifest(project: string, paths: set<string>)
    ensures !IsManifest(project, PlanPath(project))
    ensures Manifests(project, paths + {PlanPath(project)}) == Manifests(project, paths)
  {
    var plan := PlanPath(project);
    var suffix := "/deployment-plan.txt";
    assert plan == ManifestDir(project) + suffix;
    assert plan[|plan| - 5..] == suffix[|suffix| - 5..];
    assert (set p | p in paths + {plan} && IsManifest(project, p)) == (set p | p in paths && IsManifest(project, p));
  }

  /** A `KubernetesDeployer`: the kubectl binary it was built with, if any. */
  class KubernetesDeployer {
    const kubectl: Option<string>

    /** `kubectl_path or shutil.which("kubectl")`, where `found` is what the PATH lookup gives. */
    constructor (kubectlPath: Option<string>, found: Option<string>)
      ensures kubectl == if Available(kubectlPath) then kubectlPath else found
    {
      kubectl := if Available(kubectlPath) then kubectlPath else found;
    }

    /**
     * `deploy(project_path, namespace)`: the result is `Deployment` of the
     * manifests that exist, and the only change to the file system is the
     * plan file when kubectl is missing.
     */
    method Deploy(project: string, namespace: Option<string>, fs: FileSystem, run: seq<string> -> Completed)
      returns (r: DeploymentResult)
      modifies fs
      ensures r == Deployment(project, Manifests(project, old(fs.paths)), kubectl, namespace, run)
      ensures WritesPlan(Manifests(project, old(fs.paths)), kubectl) ==>
        && fs.paths == old(fs.paths) + {PlanPath(project)}
        && fs.texts == old(fs.texts)[PlanPath(project) := PlanText(Manifests(project, old(fs.paths)))]
      ensures !WritesPlan(Manifests(project, old(fs.paths)), kubectl) ==>
        fs.paths == old(fs.paths) && fs.texts == old(fs.texts)
    {
      var manifests := Manifests(project, fs.paths);
      if manifests == [] {
        return DeploymentResult(false, manifests, NoManifests, []);
      }
      if !Available(kubectl) {
        var plan := PlanPath(project);
        fs.WriteText(plan, Join(PlanHeader + manifests, "\n") + "\n");
        return DeploymentResult(false, manifests, "kubectl not available. Plan written to " + plan + ".", []);
      }
      r := ApplyAll(project, manifests, namespace, run);
    }

    /** The apply loop: each manifest in order, stopping at the first command that exits non-zero. */
    method ApplyAll(project: string, manifests: seq<string>, namespace: Option<string>, run: seq<string> -> Completed)
      returns (r: DeploymentResult)
      requires manifests != [] && Available(kubectl)
      ensures r == Deployment(project, manifests, kubectl, namespace, run)
    {
      var executed: seq<seq<string>> := [];
      var i := 0;
      while i < |manifests|
        invariant i <= |manifests|
        invariant forall j :: 0 <= j < i ==> run(ApplyCommand(kubectl.value, manifests[j], namespace)).returnCode == 0
        invariant executed == Commands(kubectl.value, manifests[..i], namespace)
      {
        var command := [kubectl.value, "apply", "-f", manifests[i]];
        if HasNamespace(namespace) {
          command := command + ["-n", namespace.value];
        }
        assert command == ApplyCommand(kubectl.value, manifests[i], namespace);
        var completed := run(command);
        executed := executed + [command];
        CommandsExtend(kubectl.value, manifests, namespace, i);
        if completed.returnCode != 0 {
          DeploymentStopsAt(project, manifests, kubectl, namespace, run, i);
          return DeploymentResult(false, manifests, FailureMessage(manifests[i], completed), executed);
        }
        i := i + 1;
      }
      assert manifests[..i] == manifests;
      DeploymentAppliesAll(project, manifests, kubectl, namespace, run);
      r := DeploymentResult(true, manifests, AppliedAll, executed);
    }
  }
}
