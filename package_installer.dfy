/**
  Requirement collection and the install loop of the canvas package installer
  (Orange/OrangeCanvas/application/packageinstaller.py). The parsed scheme document is given as
  two lists of attribute maps, the `requires/package` elements and the `nodes/node` elements;
  `pkg_resources` is an `Environment` of two functions, the subprocess a function from its
  argument list to what it prints and returns, and the Qt signals an event trace.
*/
module PackageInstaller {
  import opened Options

  type Attributes = map<string, string>

  /** `requirement(name, spec, link)`; a missing attribute is `None`. */
  datatype Requirement = Requirement(name: Option<string>, spec: Option<string>, link: Option<string>)

  /** `attrib.get(key)`. */
  function Get(attrib: Attributes, key: string): (r: Option<string>)
    ensures r.Some? <==> key in attrib
    ensures r.Some? ==> r.value == attrib[key]
  {
    if key in attrib then Some(attrib[key]) else None
  }

  /** A `requires/package` element as a requirement. */
  function PackageRequirement(attrib: Attributes): Requirement
  {
    Requirement(Get(attrib, "name"), Get(attrib, "spec"), Get(attrib, "link"))
  }

  /** `node.attrib.get("project_name", "")`. */
  function ProjectName(attrib: Attributes): string
  {
    if "project_name" in attrib then attrib["project_name"] else ""
  }

  function PackageRequirements(packages: seq<Attributes>): (r: seq<Requirement>)
    ensures |r| == |packages|
  {
    seq(|packages|, i requires 0 <= i < |packages| => PackageRequirement(packages[i]))
  }

  /** `[r.name for r in requires]`. */
  function Names(reqs: seq<Requirement>): (r: seq<Option<string>>)
    ensures |r| == |reqs|
  {
    seq(|reqs|, i requires 0 <= i < |reqs| => reqs[i].name)
  }

  function Somes(projects: seq<string>): (r: seq<Option<string>>)
    ensures |r| == |projects|
  {
    seq(|projects|, i requires 0 <= i < |projects| => Some(projects[i]))
  }

  /** The requirements added for node projects: a name, no spec, no link. */
  function NodeRequirements(projects: seq<string>): (r: seq<Requirement>)
    ensures |r| == |projects|
  {
    seq(|projects|, i requires 0 <= i < |projects| => Requirement(Some(projects[i]), None, None))
  }

  /**
    The node projects that `scheme_requires` adds after the explicit packages named `names`:
    each node's project in document order, unless that name is already present.
  */
  function NewProjects(names: seq<Option<string>>, nodes: seq<Attributes>): seq<string>
  {
    if nodes == [] then []
    else
      var prev := NewProjects(names, nodes[..|nodes| - 1]);
      var project := ProjectName(nodes[|nodes| - 1]);
      if Some(project) in names || project in prev then prev else prev + [project]
  }

  /** Every requirement `scheme_requires` collects, before the satisfied ones are dropped. */
  function Collected(packages: seq<Attributes>, nodes: seq<Attributes>): seq<Requirement>
  {
    var explicit := PackageRequirements(packages);
    explicit + NodeRequirements(NewProjects(Names(explicit), nodes))
  }

  // ----- requirement strings and availability -----

  /** Python's truth value of an optional string: present and non-empty. */
  predicate Truthy(s: Option<string>)
  {
    s.Some? && s.value != ""
  }

  /** `str()` of an optional string, as `format` writes it. */
  function Str(s: Option<string>): (r: string)
    ensures s.Some? ==> r == s.value
  {
    if s.None? then "None" else s.value
  }

  /**
    The string handed to `parse_requirements`: name and spec separated by a space when the
    spec is non-empty, otherwise the bare name; `None` where a missing name with no spec
    makes the parse raise.
  */
  function RequirementString(req: Requirement): (r: Option<string>)
    ensures r.None? <==> req.name.None? && !Truthy(req.spec)
    ensures Truthy(req.spec) ==> r.Some? && r.value == Str(req.name) + " " + req.spec.value
    ensures !Truthy(req.spec) && req.name.Some? ==> r == req.name
  {
    if Truthy(req.spec) then Some(Str(req.name) + " " + req.spec.value)
    else if req.name.None? then None
    else req.name
  }

  /** What `pkg_resources.get_distribution` does with a requirement. */
  datatype Lookup = Found | DistributionNotFound | VersionConflict

  /**
    The installed distributions as `pkg_resources` sees them: how a requirement string parses
    (one entry per requirement), and the lookup of a parsed requirement.
  */
  datatype Environment = Environment(parse: string -> seq<string>, lookup: string -> Lookup)

  /** `is_requirement_available`: both lookup errors mean not available. */
  function IsRequirementAvailable(lookup: Lookup): (r: bool)
    ensures r <==> lookup != DistributionNotFound && lookup != VersionConflict
  {
    match lookup
    case Found => true
    case DistributionNotFound => false
    case VersionConflict => false
  }

  /**
    `is_req_satisfied`: `None` where it raises, when the string cannot be formed or does not
    parse to exactly one requirement.
  */
  function IsReqSatisfied(req: Requirement, env: Environment): (r: Option<bool>)
    ensures r.None? <==> RequirementString(req).None? || |env.parse(RequirementString(req).value)| != 1
    ensures r.Some? ==> (r.value <==> env.lookup(env.parse(RequirementString(req).value)[0]) == Found)
  {
    var s := RequirementString(req);
    if s.None? then None
    else
      var reqs := env.parse(s.value);
      if |reqs| != 1 then None
      else Some(IsRequirementAvailable(env.lookup(reqs[0])))
  }

  /**
    `[req for req in requires if not is_req_satisfied(req)]`, or `None` when any of the checks
    raises.
  */
  function Unsatisfied(reqs: seq<Requirement>, env: Environment): Option<seq<Requirement>>
  {
    if reqs == [] then Some([])
    else
      var prev := Unsatisfied(reqs[..|reqs| - 1], env);
      var last := reqs[|reqs| - 1];
      var satisfied := IsReqSatisfied(last, env);
      if prev.None? || satisfied.None? then None
      else if satisfied.value then prev
      else Some(prev.value + [last])
  }

  /**
    `scheme_requires` after the document is parsed: the explicit packages, then the node
    projects not yet named, then only the unsatisfied ones.
  */
  method SchemeRequires(packages: seq<Attributes>, nodes: seq<Attributes>, env: Environment)
    returns (r: Option<seq<Requirement>>)
    ensures r == Unsatisfied(Collected(packages, nodes), env)
  {
    var reqs: seq<Requirement> := [];
    var i := 0;
    while i < |packages|
      invariant i <= |packages|
      invariant reqs == PackageRequirements(packages[..i])
    {
      reqs := reqs + [PackageRequirement(packages[i])];
      i := i + 1;
    }
    assert packages[..i] == packages;
    var names := Names(reqs);
    ghost var explicitNames := names;
    var k := 0;
    while k < |nodes|
      invariant k <= |nodes|
      invariant reqs == PackageRequirements(packages) + NodeRequirements(NewProjects(explicitNames, nodes[..k]))
      invariant names == explicitNames + Somes(NewProjects(explicitNames, nodes[..k]))
    {
      var project := ProjectName(nodes[k]);
      ghost var prev := NewProjects(explicitNames, nodes[..k]);
      assert nodes[..k + 1][..k] == nodes[..k];
      SomeInSomes(prev, project);
      if Some(project) !in names {
        reqs := reqs + [Requirement(Some(project), None, None)];
        names := names + [Some(project)];
      }
      k := k + 1;
    }
    assert nodes[..k] == nodes;
    r := Unsatisfied(reqs, env);
  }

  lemma SomeInSomes(projects: seq<string>, project: string)
    ensures Some(project) in Somes(projects) <==> project in projects
  {
    if project in projects {
      var t :| 0 <= t < |projects| && projects[t] == project;
      assert Somes(projects)[t] == Some(project);
    }
  }

  // ----- easy_install arguments -----

  /** The arguments for one package: `--find-links` and the link first when it has a link. */
  function PackageArgs(pkg: Requirement): seq<Option<string>>
  {
    if pkg.link.None? then [pkg.name] else [Some("--find-links"), pkg.link, pkg.name]
  }

  /** `easy_install_process`'s argument list: `--user` in front when supported outside a virtualenv. */
  function EasyInstallArgs(args: seq<Option<string>>, hasUserSite: bool, inVirtualenv: bool): seq<Option<string>>
  {
    if hasUserSite && !inVirtualenv then [Some("--user")] + args else args
  }

  /**
    `easy_install_process` keeps the arguments it is given, in order, and puts `--user` in front
    of them exactly when easy_install has that switch and no virtualenv is active.
  */
  lemma UserSwitch(args: seq<Option<string>>, hasUserSite: bool, inVirtualenv: bool)
    ensures var r := EasyInstallArgs(args, hasUserSite, inVirtualenv);
      && |args| <= |r| <= |args| + 1
      && r[|r| - |args|..] == args
      && (|r| > |args| <==> hasUserSite && !inVirtualenv)
      && (|r| > |args| ==> r[0] == Some("--user"))
  {
  }

  /**
    The command line installing `pkg`: `--user` first exactly when easy_install has it and no
    virtualenv is active, then `--find-links` and the link exactly when there is a link, and
    the package name last.
  */
  lemma InstallArguments(pkg: Requirement, hasUserSite: bool, inVirtualenv: bool)
    ensures var r, user := EasyInstallArgs(PackageArgs(pkg), hasUserSite, inVirtualenv), if hasUserSite && !inVirtualenv then 1 else 0;
      && |r| == user + (if pkg.link.None? then 1 else 3)
      && (user == 1 ==> r[0] == Some("--user"))
      && (pkg.link.Some? ==> r[user] == Some("--find-links") && r[user + 1] == pkg.link)
      && r[|r| - 1] == pkg.name
  {
  }

  // ----- the install loop -----

  /** The signals of `Installer`, in the order they are emitted. */
  datatype Signal =
    | Started
    | StatusChanged(text: string)
    | Stdout(chunk: string)
    | Finished
    | Error(code: int, program: string, output: string)

  /** A finished process: the lines read while it ran, what was left to read, its exit code. */
  datatype Process = Process(lines: seq<string>, rest: string, returncode: int)

  /**
    Where the installs run: the process each easy_install argument list produces, whether
    easy_install has a `--user` switch, and whether a virtualenv is active.
  */
  datatype Setup = Setup(execute: seq<Option<string>> -> Process, hasUserSite: bool, inVirtualenv: bool)

  /** The chunks `__subprocessrun` emits on `stdout`: every line, then the rest when non-empty. */
  function Chunks(p: Process): (r: seq<string>)
    ensures |r| == |p.lines| + (if p.rest == "" then 0 else 1)
    ensures r[..|p.lines|] == p.lines
  {
    p.lines + (if p.rest == "" then [] else [p.rest])
  }

  /** `"".join(chunks)`. */
  function Join(chunks: seq<string>): string
  {
    if chunks == [] then "" else Join(chunks[..|chunks| - 1]) + chunks[|chunks| - 1]
  }

  function StdoutSignals(chunks: seq<string>): (r: seq<Signal>)
    ensures |r| == |chunks|
    ensures forall k :: 0 <= k < |r| ==> r[k].Stdout?
  {
    seq(|chunks|, i requires 0 <= i < |chunks| => Stdout(chunks[i]))
  }

  function StatusText(pkg: Requirement): string
  {
    "Installing " + Str(pkg.name)
  }

  /** The process installing `pkg`. */
  function ProcessOf(s: Setup, pkg: Requirement): Process
  {
    s.execute(EasyInstallArgs(PackageArgs(pkg), s.hasUserSite, s.inVirtualenv))
  }

  predicate Succeeds(s: Setup, pkg: Requirement)
  {
    ProcessOf(s, pkg).returncode == 0
  }

  /** The signals of one install: its status, then its output. */
  function Attempt(s: Setup, pkg: Requirement): seq<Signal>
  {
    [StatusChanged(StatusText(pkg))] + StdoutSignals(Chunks(ProcessOf(s, pkg)))
  }

  /** The `error` signal of a failed install. */
  function Failure(s: Setup, pkg: Requirement): Signal
  {
    var p := ProcessOf(s, pkg);
    Error(p.returncode, "easy_install", Join(Chunks(p)))
  }

  /** The signals of installing `pkgs[i..]` in order, up to `finished` or the first `error`. */
  function Attempts(s: Setup, pkgs: seq<Requirement>, i: nat): seq<Signal>
    requires i <= |pkgs|
    decreases |pkgs| - i
  {
    if i == |pkgs| then [Finished]
    else Attempt(s, pkgs[i]) + if Succeeds(s, pkgs[i]) then Attempts(s, pkgs, i + 1) else [Failure(s, pkgs[i])]
  }

  /** Everything `run` emits. */
  function RunTrace(s: Setup, pkgs: seq<Requirement>): seq<Signal>
  {
    [Started] + Attempts(s, pkgs, 0)
  }

  /** The signals of a package that installs are followed by those of the packages after it. */
  lemma AttemptsSplit(s: Setup, pkgs: seq<Requirement>, i: nat, before: seq<Signal>)
    requires i < |pkgs| && Succeeds(s, pkgs[i])
    ensures before + Attempt(s, pkgs[i]) + Attempts(s, pkgs, i + 1) == before + Attempts(s, pkgs, i)
  {
  }

  /** The signals of a package that fails are followed by its `error` alone. */
  lemma AttemptsEnd(s: Setup, pkgs: seq<Requirement>, i: nat, before: seq<Signal>)
    requires i < |pkgs| && !Succeeds(s, pkgs[i])
    ensures before + Attempt(s, pkgs[i]) + [Failure(s, pkgs[i])] == before + Attempts(s, pkgs, i)
  {
  }

  /** A package that installs: its signals, then those of the packages after it. */
  lemma AttemptsContinue(
    s: Setup, pkgs: seq<Requirement>, i: nat, before: seq<Signal>, after: seq<Signal>, total: seq<Signal>)
    requires i < |pkgs| && Succeeds(s, pkgs[i])
    requires before + Attempts(s, pkgs, i) == total && after == before + Attempt(s, pkgs[i])
    ensures after + Attempts(s, pkgs, i + 1) == total
  {
    AttemptsSplit(s, pkgs, i, before);
  }

  /** A package that fails: its signals, then its `error`, and nothing more. */
  lemma AttemptsStop(
    s: Setup, pkgs: seq<Requirement>, i: nat, before: seq<Signal>, after: seq<Signal>, total: seq<Signal>)
    requires i < |pkgs| && !Succeeds(s, pkgs[i])
    requires before + Attempts(s, pkgs, i) == total && after == before + Attempt(s, pkgs[i]) + [Failure(s, pkgs[i])]
    ensures after == total
  {
    AttemptsEnd(s, pkgs, i, before);
  }

  /** `started` opens the trace, and the attempts follow it. */
  lemma RunTraceStarts(s: Setup, pkgs: seq<Requirement>, before: seq<Signal>, total: seq<Signal>)
    requires total == before + RunTrace(s, pkgs)
    ensures before + [Started] + Attempts(s, pkgs, 0) == total
  {
  }

  /** All packages installed: `finished` closes the trace. */
  lemma AttemptsDone(s: Setup, pkgs: seq<Requirement>, before: seq<Signal>, total: seq<Signal>)
    requires before + Attempts(s, pkgs, |pkgs|) == total
    ensures before + [Finished] == total
  {
  }

  /** `Installer`: the packages to install, the interrupt flag, and the signals emitted so far. */
  class Installer {
    var packages: seq<Requirement>
    var interrupted: bool
    var emitted: seq<Signal>

    constructor (packages: seq<Requirement>)
      ensures this.packages == packages && !interrupted && emitted == []
    {
      this.packages := packages;
      interrupted := false;
      emitted := [];
    }

    /** `interupt`: sets the flag, which `run` never reads. */
    method Interrupt()
      modifies this`interrupted
      ensures interrupted
    {
      interrupted := true;
    }

    /** `__subprocessrun`: emits every chunk of output and returns the exit code and all of it. */
    method SubprocessRun(process: Process) returns (returncode: int, output: string)
      modifies this`emitted
      ensures returncode == process.returncode && output == Join(Chunks(process))
      ensures emitted == old(emitted) + StdoutSignals(Chunks(process))
    {
      var chunks: seq<string> := [];
      var i := 0;
      while i < |process.lines|
        invariant i <= |process.lines|
        invariant chunks == process.lines[..i]
        invariant emitted == old(emitted) + StdoutSignals(chunks)
      {
        var line := process.lines[i];
        emitted := emitted + [Stdout(line)];
        chunks := chunks + [line];
        i := i + 1;
      }
      assert chunks == process.lines;
      var line := process.rest;
      if line != "" {
        emitted := emitted + [Stdout(line)];
        chunks := chunks + [line];
      }
      assert chunks == Chunks(process);
      returncode, output := process.returncode, Join(chunks);
    }

    /**
      One pass of `run`'s loop: the status, the install and its output, and an `error` when
      the exit code is not 0.
    */
    method InstallOne(s: Setup, pkg: Requirement) returns (ok: bool)
      modifies this`emitted
      ensures ok <==> Succeeds(s, pkg)
      ensures ok ==> emitted == old(emitted) + Attempt(s, pkg)
      ensures !ok ==> emitted == old(emitted) + Attempt(s, pkg) + [Failure(s, pkg)]
    {
      emitted := emitted + [StatusChanged(StatusText(pkg))];
      var process := s.execute(EasyInstallArgs(PackageArgs(pkg), s.hasUserSite, s.inVirtualenv));
      var returncode, output := SubprocessRun(process);
      ok := returncode == 0;
      if !ok {
        emitted := emitted + [Error(returncode, "easy_install", output)];
      }
    }

    /**
      `run`: `started`, then each package's status and output; on the first non-zero exit code
      an `error` and nothing more, otherwise `finished`.
    */
    method Run(s: Setup)
      modifies this`emitted
      ensures emitted == old(emitted) + RunTrace(s, packages)
    {
      var pkgs := packages;
      ghost var total := emitted + RunTrace(s, pkgs);
      RunTraceStarts(s, pkgs, emitted, total);
      emitted := emitted + [Started];
      var i := 0;
      while i < |pkgs|
        invariant i <= |pkgs|
        invariant emitted + Attempts(s, pkgs, i) == total
      {
        ghost var before := emitted;
        var pkg := pkgs[i];
        var ok := InstallOne(s, pkg);
        if !ok {
          AttemptsStop(s, pkgs, i, before, emitted, total);
          return;
        }
        AttemptsContinue(s, pkgs, i, before, emitted, total);
        i := i + 1;
      }
      AttemptsDone(s, pkgs, emitted, total);
      emitted := emitted + [Finished];
    }
  }
}
