/** What `scheme_requires` collects and what `Installer.run` emits. */
module InstallerProperties {
  import opened Options
  import opened PackageInstaller
  import opened Sequences

  // ----- node projects -----

  /** A node project is added exactly when no explicit package names it and some node has it. */
  lemma {:induction false} NewProjectsMembers(names: seq<Option<string>>, nodes: seq<Attributes>, project: string)
    ensures project in NewProjects(names, nodes)
      <==> Some(project) !in names && exists k :: 0 <= k < |nodes| && ProjectName(nodes[k]) == project
  {
    if nodes != [] {
      var init := nodes[..|nodes| - 1];
      NewProjectsMembers(names, init, project);
      if exists k :: 0 <= k < |nodes| && ProjectName(nodes[k]) == project {
        var k :| 0 <= k < |nodes| && ProjectName(nodes[k]) == project;
        if k < |init| {
          assert init[k] == nodes[k];
        }
      }
      if exists k :: 0 <= k < |init| && ProjectName(init[k]) == project {
        var k :| 0 <= k < |init| && ProjectName(init[k]) == project;
        assert nodes[k] == init[k];
      }
    }
  }

  /** No node project is added twice. */
  lemma {:induction false} NewProjectsDistinct(names: seq<Option<string>>, nodes: seq<Attributes>)
    ensures Distinct(NewProjects(names, nodes))
  {
    if nodes != [] {
      var init := nodes[..|nodes| - 1];
      NewProjectsDistinct(names, init);
      var prev, project := NewProjects(names, init), ProjectName(nodes[|nodes| - 1]);
      if !(Some(project) in names || project in prev) {
        var added := prev + [project];
        assert NewProjects(names, nodes) == added;
        forall u, v | 0 <= u < v < |added|
          ensures added[u] != added[v]
        {
          assert added[u] == prev[u] && prev[u] in prev;
          if v < |prev| {
            assert added[v] == prev[v];
          } else {
            assert added[v] == project;
          }
        }
      }
    }
  }

  /** The projects added for the first `k` nodes come first: the additions keep document order. */
  lemma {:induction false} NewProjectsGrow(names: seq<Option<string>>, nodes: seq<Attributes>, k: nat)
    requires k <= |nodes|
    ensures NewProjects(names, nodes[..k]) <= NewProjects(names, nodes)
  {
    if k < |nodes| {
      var init := nodes[..|nodes| - 1];
      assert init[..k] == nodes[..k];
      NewProjectsGrow(names, init, k);
    } else {
      assert nodes[..k] == nodes;
    }
  }

  lemma NamesOfPackages(packages: seq<Attributes>, project: string)
    ensures Some(project) in Names(PackageRequirements(packages))
      <==> exists i :: 0 <= i < |packages| && Get(packages[i], "name") == Some(project)
  {
    var names := Names(PackageRequirements(packages));
    if exists i :: 0 <= i < |packages| && Get(packages[i], "name") == Some(project) {
      var i :| 0 <= i < |packages| && Get(packages[i], "name") == Some(project);
      assert names[i] == Some(project);
    }
  }

  /**
    The collected requirements: the explicit packages in document order with their three
    attributes, then one requirement per node project that no package names, with neither
    spec nor link, each name once.
  */
  lemma Collection(packages: seq<Attributes>, nodes: seq<Attributes>)
    ensures var all := Collected(packages, nodes);
      && |packages| <= |all|
      && (forall i :: 0 <= i < |packages| ==>
            all[i] == Requirement(Get(packages[i], "name"), Get(packages[i], "spec"), Get(packages[i], "link")))
      && (forall i :: |packages| <= i < |all| ==> all[i].name.Some? && all[i].spec.None? && all[i].link.None?)
      && (forall i, j :: |packages| <= i < j < |all| ==> all[i].name != all[j].name)
      && (forall i, j :: 0 <= i < |packages| <= j < |all| ==> all[i].name != all[j].name)
  {
    var explicit := PackageRequirements(packages);
    var added := NewProjects(Names(explicit), nodes);
    var all := Collected(packages, nodes);
    var extra := NodeRequirements(added);
    assert all == explicit + extra;
    NewProjectsDistinct(Names(explicit), nodes);
    forall i, j | |packages| <= i < j < |all|
      ensures all[i].name != all[j].name
    {
      assert all[i] == extra[i - |packages|] && all[j] == extra[j - |packages|];
      assert extra[i - |packages|].name == Some(added[i - |packages|]);
      assert extra[j - |packages|].name == Some(added[j - |packages|]);
      assert added[i - |packages|] != added[j - |packages|];
    }
    forall i, j | 0 <= i < |packages| <= j < |all|
      ensures all[i].name != all[j].name
    {
      var project := added[j - |packages|];
      assert all[j] == extra[j - |packages|];
      NewProjectsMembers(Names(explicit), nodes, project);
      assert Names(explicit)[i] == all[i].name;
    }
  }

  /** Every node's project is named by some collected requirement. */
  lemma NodesCovered(packages: seq<Attributes>, nodes: seq<Attributes>, k: nat)
    requires k < |nodes|
    ensures Some(ProjectName(nodes[k])) in Names(Collected(packages, nodes))
  {
    var explicit := PackageRequirements(packages);
    var project := ProjectName(nodes[k]);
    var all := Collected(packages, nodes);
    if Some(project) in Names(explicit) {
      var i :| 0 <= i < |explicit| && Names(explicit)[i] == Some(project);
      assert Names(all)[i] == Some(project);
    } else {
      var added := NewProjects(Names(explicit), nodes);
      NewProjectsMembers(Names(explicit), nodes, project);
      var u :| 0 <= u < |added| && added[u] == project;
      assert all[|explicit| + u] == NodeRequirements(added)[u];
      assert Names(all)[|explicit| + u] == Some(project);
    }
  }

  // ----- the unsatisfied filter -----

  function Both(x: Option<seq<Requirement>>, y: Option<seq<Requirement>>): Option<seq<Requirement>>
  {
    if x.Some? && y.Some? then Some(x.value + y.value) else None
  }

  /** Filtering keeps the relative order: the filter of a concatenation is the concatenation of the filters. */
  lemma {:induction false} UnsatisfiedAppend(first: seq<Requirement>, second: seq<Requirement>, env: Environment)
    ensures Unsatisfied(first + second, env) == Both(Unsatisfied(first, env), Unsatisfied(second, env))
  {
    if second == [] {
      assert first + second == first;
      if Unsatisfied(first, env).Some? {
        assert Unsatisfied(first, env).value + [] == Unsatisfied(first, env).value;
      }
    } else {
      var init, last := second[..|second| - 1], second[|second| - 1];
      var both := first + second;
      assert both[..|both| - 1] == first + init && both[|both| - 1] == last;
      UnsatisfiedAppend(first, init, env);
      var x, y, satisfied := Unsatisfied(first, env), Unsatisfied(init, env), IsReqSatisfied(last, env);
      if x.Some? && y.Some? && satisfied.Some? && !satisfied.value {
        assert x.value + y.value + [last] == x.value + (y.value + [last]);
      }
    }
  }

  /** The filter raises exactly when checking one of the requirements raises. */
  lemma {:induction false} UnsatisfiedRaises(reqs: seq<Requirement>, env: Environment)
    ensures Unsatisfied(reqs, env).None? <==> exists x :: x in reqs && IsReqSatisfied(x, env).None?
  {
    if reqs != [] {
      var init := reqs[..|reqs| - 1];
      UnsatisfiedRaises(init, env);
      assert reqs == init + [reqs[|reqs| - 1]];
    }
  }

  /** When it does not raise, the result holds exactly the requirements that are not satisfied. */
  lemma {:induction false} UnsatisfiedMembers(reqs: seq<Requirement>, env: Environment, x: Requirement)
    requires Unsatisfied(reqs, env).Some?
    ensures x in Unsatisfied(reqs, env).value <==> x in reqs && IsReqSatisfied(x, env) == Some(false)
  {
    if reqs != [] {
      var init := reqs[..|reqs| - 1];
      UnsatisfiedMembers(init, env, x);
      assert reqs == init + [reqs[|reqs| - 1]];
    }
  }

  // ----- the install trace -----

  /** The first package from `i` on that fails to install, or `|pkgs|` when none does. */
  function FirstFailure(s: Setup, pkgs: seq<Requirement>, i: nat): (k: nat)
    requires i <= |pkgs|
    ensures i <= k <= |pkgs|
    ensures forall j :: i <= j < k ==> Succeeds(s, pkgs[j])
    ensures k < |pkgs| ==> !Succeeds(s, pkgs[k])
    decreases |pkgs| - i
  {
    if i == |pkgs| then i
    else if !Succeeds(s, pkgs[i]) then i
    else FirstFailure(s, pkgs, i + 1)
  }

  /** Where the packages `run` starts installing from `i` end: just after the first failing one. */
  function AttemptedEnd(s: Setup, pkgs: seq<Requirement>, i: nat): nat
    requires i <= |pkgs|
  {
    var k := FirstFailure(s, pkgs, i);
    if k < |pkgs| then k + 1 else k
  }

  function StatusTexts(pkgs: seq<Requirement>): (r: seq<string>)
    ensures |r| == |pkgs|
  {
    if pkgs == [] then [] else [StatusText(pkgs[0])] + StatusTexts(pkgs[1..])
  }

  /** The texts of the `statusChanged` signals of a trace, in order. */
  function Statuses(trace: seq<Signal>): seq<string>
  {
    if trace == [] then []
    else (if trace[0].StatusChanged? then [trace[0].text] else []) + Statuses(trace[1..])
  }

  /** Everything emitted on `stdout`, concatenated. */
  function Printed(trace: seq<Signal>): string
  {
    if trace == [] then ""
    else (if trace[0].Stdout? then trace[0].chunk else "") + Printed(trace[1..])
  }

  lemma {:induction false} StatusesAppend(a: seq<Signal>, b: seq<Signal>)
    ensures Statuses(a + b) == Statuses(a) + Statuses(b)
  {
    if a != [] {
      assert (a + b)[1..] == a[1..] + b;
      StatusesAppend(a[1..], b);
    } else {
      assert a + b == b;
    }
  }

  lemma {:induction false} PrintedAppend(a: seq<Signal>, b: seq<Signal>)
    ensures Printed(a + b) == Printed(a) + Printed(b)
  {
    if a != [] {
      assert (a + b)[1..] == a[1..] + b;
      PrintedAppend(a[1..], b);
    } else {
      assert a + b == b;
    }
  }

  lemma {:induction false} StdoutHasNoStatus(chunks: seq<string>)
    ensures Statuses(StdoutSignals(chunks)) == []
  {
    if chunks != [] {
      assert StdoutSignals(chunks)[1..] == StdoutSignals(chunks[1..]);
      StdoutHasNoStatus(chunks[1..]);
    }
  }

  /** What `__subprocessrun` returns as output is everything it emitted on `stdout`, in order. */
  lemma {:induction false} PrintedIsOutput(chunks: seq<string>)
    ensures Printed(StdoutSignals(chunks)) == Join(chunks)
  {
    if chunks != [] {
      var init := chunks[..|chunks| - 1];
      PrintedIsOutput(init);
      assert StdoutSignals(chunks) == StdoutSignals(init) + [Stdout(chunks[|chunks| - 1])];
      PrintedAppend(StdoutSignals(init), [Stdout(chunks[|chunks| - 1])]);
    }
  }

  /** Only statuses and output. */
  predicate Progress(t: seq<Signal>)
  {
    forall k :: 0 <= k < |t| ==> t[k].StatusChanged? || t[k].Stdout?
  }

  /** Statuses and output, then `finished` or `error` last. */
  predicate Ended(t: seq<Signal>)
  {
    && |t| >= 1
    && (t[|t| - 1].Finished? || t[|t| - 1].Error?)
    && Progress(t[..|t| - 1])
  }

  /** One install emits a status and output only. */
  lemma AttemptProgress(s: Setup, pkg: Requirement)
    ensures Progress(Attempt(s, pkg))
  {
    var head := Attempt(s, pkg);
    forall k | 0 < k < |head|
      ensures head[k].Stdout?
    {
      assert head[k] == StdoutSignals(Chunks(ProcessOf(s, pkg)))[k - 1];
    }
  }

  /** Statuses and output followed by a trace that ends in `finished` or `error`. */
  lemma EndedAfterProgress(head: seq<Signal>, tail: seq<Signal>)
    requires Progress(head) && Ended(tail)
    ensures Ended(head + tail)
  {
    var t := head + tail;
    assert t[|t| - 1] == tail[|tail| - 1];
    forall k | 0 <= k < |t| - 1
      ensures t[k].StatusChanged? || t[k].Stdout?
    {
      if k < |head| {
        assert t[k] == head[k];
      } else {
        assert t[k] == tail[..|tail| - 1][k - |head|];
      }
    }
    assert t[..|t| - 1] == head + tail[..|tail| - 1];
  }

  /** `finished` or `error` comes last, and before it only statuses and output. */
  lemma {:induction false} AttemptsEnded(s: Setup, pkgs: seq<Requirement>, i: nat)
    requires i <= |pkgs|
    decreases |pkgs| - i
    ensures Ended(Attempts(s, pkgs, i))
  {
    if i == |pkgs| {
      assert Attempts(s, pkgs, i) == [Finished];
    } else {
      var tail := if Succeeds(s, pkgs[i]) then Attempts(s, pkgs, i + 1) else [Failure(s, pkgs[i])];
      if Succeeds(s, pkgs[i]) {
        AttemptsEnded(s, pkgs, i + 1);
      } else {
        assert tail[..0] == [];
      }
      AttemptProgress(s, pkgs[i]);
      EndedAfterProgress(Attempt(s, pkgs[i]), tail);
    }
  }

  /** `started` comes first, `finished` or `error` last, and in between only statuses and output. */
  lemma TraceShape(s: Setup, pkgs: seq<Requirement>)
    ensures var t := RunTrace(s, pkgs);
      && |t| >= 2 && t[0] == Started
      && (t[|t| - 1].Finished? || t[|t| - 1].Error?)
      && forall k :: 0 < k < |t| - 1 ==> t[k].StatusChanged? || t[k].Stdout?
  {
    var rest := Attempts(s, pkgs, 0);
    AttemptsEnded(s, pkgs, 0);
    var t := RunTrace(s, pkgs);
    forall k | 0 < k < |t| - 1
      ensures t[k].StatusChanged? || t[k].Stdout?
    {
      assert t[k] == rest[..|rest| - 1][k - 1];
    }
  }

  /** The last signal of a trace. */
  function Final(t: seq<Signal>): Signal
  {
    if t == [] then Finished else t[|t| - 1]
  }

  /** How a run from `i` on ends: the `error` of the first failing package, or `finished`. */
  function Outcome(s: Setup, pkgs: seq<Requirement>, i: nat): Signal
    requires i <= |pkgs|
  {
    var k := FirstFailure(s, pkgs, i);
    if k < |pkgs| then Failure(s, pkgs[k]) else Finished
  }

  lemma FinalOfConcat(head: seq<Signal>, tail: seq<Signal>)
    requires tail != []
    ensures Final(head + tail) == Final(tail)
  {
    assert (head + tail)[|head + tail| - 1] == tail[|tail| - 1];
  }

  /** The last signal from a package on: that of the packages after it, or its own `error`. */
  lemma FinalStep(s: Setup, pkgs: seq<Requirement>, i: nat)
    requires i < |pkgs|
    ensures Attempts(s, pkgs, i) != []
    ensures Succeeds(s, pkgs[i]) && Attempts(s, pkgs, i + 1) != [] ==>
      Final(Attempts(s, pkgs, i)) == Final(Attempts(s, pkgs, i + 1))
    ensures !Succeeds(s, pkgs[i]) ==> Final(Attempts(s, pkgs, i)) == Failure(s, pkgs[i])
  {
    var tail := if Succeeds(s, pkgs[i]) then Attempts(s, pkgs, i + 1) else [Failure(s, pkgs[i])];
    if tail != [] {
      FinalOfConcat(Attempt(s, pkgs[i]), tail);
    }
  }

  /** From `i` on, the run ends as `Outcome` says. */
  lemma {:induction false} LastAttempt(s: Setup, pkgs: seq<Requirement>, i: nat)
    requires i <= |pkgs|
    decreases |pkgs| - i
    ensures Attempts(s, pkgs, i) != []
    ensures Final(Attempts(s, pkgs, i)) == Outcome(s, pkgs, i)
  {
    if i < |pkgs| {
      FinalStep(s, pkgs, i);
      if Succeeds(s, pkgs[i]) {
        LastAttempt(s, pkgs, i + 1);
        assert FirstFailure(s, pkgs, i) == FirstFailure(s, pkgs, i + 1);
      }
    }
  }

  /** The run ends with `finished` exactly when every package installs with exit code 0. */
  lemma FinishedIffAllSucceed(s: Setup, pkgs: seq<Requirement>)
    ensures var t := RunTrace(s, pkgs);
      t[|t| - 1] == Finished <==> forall j :: 0 <= j < |pkgs| ==> Succeeds(s, pkgs[j])
  {
    LastAttempt(s, pkgs, 0);
    var t := RunTrace(s, pkgs);
    assert t[|t| - 1] == Final(Attempts(s, pkgs, 0));
  }

  /**
    A failed run's `error` reports the first failing package: its non-zero exit code, the
    program `easy_install`, and its whole output.
  */
  lemma ErrorReportsFirstFailure(s: Setup, pkgs: seq<Requirement>)
    ensures var t, k := RunTrace(s, pkgs), FirstFailure(s, pkgs, 0);
      && (t[|t| - 1].Error? <==> k < |pkgs|)
      && (k < |pkgs| ==>
            var p := ProcessOf(s, pkgs[k]);
            p.returncode != 0 && t[|t| - 1] == Error(p.returncode, "easy_install", Join(Chunks(p))))
  {
    LastAttempt(s, pkgs, 0);
    var t := RunTrace(s, pkgs);
    assert t[|t| - 1] == Final(Attempts(s, pkgs, 0));
  }

  /** One install reports one status. */
  lemma AttemptStatus(s: Setup, pkg: Requirement)
    ensures Statuses(Attempt(s, pkg)) == [StatusText(pkg)]
  {
    var chunks := Chunks(ProcessOf(s, pkg));
    StdoutHasNoStatus(chunks);
    assert Attempt(s, pkg)[1..] == StdoutSignals(chunks);
  }

  /** The statuses from a package on: its own, then those of the packages after it if it installs. */
  lemma StatusesStep(s: Setup, pkgs: seq<Requirement>, i: nat)
    requires i < |pkgs|
    ensures Statuses(Attempts(s, pkgs, i))
      == [StatusText(pkgs[i])] + if Succeeds(s, pkgs[i]) then Statuses(Attempts(s, pkgs, i + 1)) else []
  {
    var head := Attempt(s, pkgs[i]);
    var tail := if Succeeds(s, pkgs[i]) then Attempts(s, pkgs, i + 1) else [Failure(s, pkgs[i])];
    AttemptStatus(s, pkgs[i]);
    StatusesAppend(head, tail);
    assert Statuses([Failure(s, pkgs[i])]) == [] + Statuses([]);
  }

  /** The packages attempted from `i` on: `pkgs[i]`, then those after it if it installs. */
  lemma AttemptedStep(s: Setup, pkgs: seq<Requirement>, i: nat)
    requires i < |pkgs|
    ensures i < AttemptedEnd(s, pkgs, i)
    ensures Succeeds(s, pkgs[i]) ==> AttemptedEnd(s, pkgs, i) == AttemptedEnd(s, pkgs, i + 1)
    ensures !Succeeds(s, pkgs[i]) ==> AttemptedEnd(s, pkgs, i) == i + 1
  {
  }

  lemma StatusTextsStep(pkgs: seq<Requirement>, i: nat, e: nat)
    requires i < e <= |pkgs|
    ensures StatusTexts(pkgs[i..e]) == [StatusText(pkgs[i])] + StatusTexts(pkgs[i + 1..e])
  {
    assert pkgs[i..e][0] == pkgs[i];
    assert pkgs[i..e][1..] == pkgs[i + 1..e];
  }

  /** From `i` on: one status per attempted package, in order. */
  lemma {:induction false} StatusesFrom(s: Setup, pkgs: seq<Requirement>, i: nat)
    requires i <= |pkgs|
    decreases |pkgs| - i
    ensures Statuses(Attempts(s, pkgs, i)) == StatusTexts(pkgs[i..AttemptedEnd(s, pkgs, i)])
  {
    if i == |pkgs| {
      assert Statuses([Finished]) == [] + Statuses([]);
    } else {
      var e := AttemptedEnd(s, pkgs, i);
      AttemptedStep(s, pkgs, i);
      if Succeeds(s, pkgs[i]) {
        assert Statuses(Attempts(s, pkgs, i)) == [StatusText(pkgs[i])] + Statuses(Attempts(s, pkgs, i + 1)) by {
          StatusesStep(s, pkgs, i);
        }
        StatusesFrom(s, pkgs, i + 1);
        StatusTextsStep(pkgs, i, e);
      } else {
        assert Statuses(Attempts(s, pkgs, i)) == [StatusText(pkgs[i])] by {
          StatusesStep(s, pkgs, i);
        }
        assert StatusTexts(pkgs[i..e]) == [StatusText(pkgs[i])] by {
          StatusTextsStep(pkgs, i, e);
          assert pkgs[i + 1..e] == [];
        }
      }
    }
  }

  /** One `statusChanged` per attempted package, in order: up to and including the first failing one. */
  lemma StatusesOfAttempted(s: Setup, pkgs: seq<Requirement>)
    ensures Statuses(RunTrace(s, pkgs)) == StatusTexts(pkgs[..AttemptedEnd(s, pkgs, 0)])
  {
    var e := AttemptedEnd(s, pkgs, 0);
    assert Statuses(RunTrace(s, pkgs)) == Statuses(Attempts(s, pkgs, 0)) by {
      StatusesAppend([Started], Attempts(s, pkgs, 0));
      assert Statuses([Started]) == [] + Statuses([]);
    }
    StatusesFrom(s, pkgs, 0);
    assert pkgs[0..e] == pkgs[..e];
  }

  /** Installing nothing reports only `started` and `finished`. */
  lemma NothingToInstall(s: Setup)
    ensures RunTrace(s, []) == [Started, Finished]
  {
  }
}
