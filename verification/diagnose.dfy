/** The read-only diagnostics route (`GET /api/diagnose-vite`): six independent
    probes, each turned into a check record (or an error record when its command
    throws), and a fixed, ordered list of rules deriving recommendations from the
    records. */
module Diagnose {
  import opened Wrappers
  import opened JsString
  import opened Sandbox

  datatype ProcessCheck = ProcessStatus(running: bool, pid: Option<string>) | ProcessError(message: string)
  /** `viteLogs` together with `viteLogsHasErrors`, which is only set when the log
      probe did not throw. */
  datatype LogCheck = Logs(text: string, hasErrors: bool) | LogsError(message: string)
  datatype PortCheck = PortStatus(inUse: bool, details: string) | PortError(message: string)
  datatype PathCheck = PathStatus(present: bool, path: string) | PathError(message: string)
  datatype DiskCheck = Disk(usage: string) | DiskError(message: string)

  /** What the route reads out of a parsed `package.json` (truthiness of
      `devDependencies.vite` and `dependencies.react`, and the `scripts` object).
      The `parse` parameter of the probes yields it, or nothing whenever the
      route's `try` block throws: on invalid JSON, and also on the JSON text
      `null`, whose `devDependencies` read throws a `TypeError`. */
  datatype ManifestInfo = ManifestInfo(hasVite: bool, hasReact: bool, scripts: map<string, string>)

  /** `packageJsonContent`: `{valid: true, ...}` or `{valid: false, error: "Invalid JSON"}`. */
  datatype ManifestContent = Parsed(manifest: ManifestInfo) | Unparseable
  {
    predicate Valid() { Parsed? }
  }

  datatype Checks = Checks(
    viteProcess: ProcessCheck,
    viteLogs: LogCheck,
    port5173: PortCheck,
    packageJson: PathCheck,
    packageJsonContent: Option<ManifestContent>,
    nodeModules: PathCheck,
    diskSpace: DiskCheck)

  /** The route's six rules, each standing for the one fixed sentence it adds to
      `recommendations`. */
  datatype Recommendation =
    | RestartVite
    | InspectLogs
    | FreePort
    | ManifestMissing
    | ManifestInvalid
    | InstallDependencies
  {
    /** Position of the rule in the route's rule list. */
    function Rank(): nat
    {
      match this
      case RestartVite => 0
      case InspectLogs => 1
      case FreePort => 2
      case ManifestMissing => 3
      case ManifestInvalid => 4
      case InstallDependencies => 5
    }
  }

  datatype Diagnostics = Diagnostics(checks: Checks, recommendations: seq<Recommendation>)

  datatype Response = NoSandbox | Report(diagnostics: Diagnostics)
  {
    function Status(): int { if NoSandbox? then 404 else 200 }
    predicate Success() { Report? }
    function Error(): Option<string> { if NoSandbox? then Some(NoActiveSandbox) else None }
  }

  /** The response together with the commands handed to `runCommand`, in order.
      A call that throws because there is no runner hands over nothing. */
  datatype Run = Run(response: Response, issued: seq<Command>)

  /** A probe's record and the commands it issued. */
  datatype Probed<T> = Probed(check: T, issued: seq<Command>)

  /** The two records check 4 produces. */
  datatype ManifestFindings = ManifestFindings(packageJson: PathCheck, content: Option<ManifestContent>)

  const NoActiveSandbox := "No active sandbox"
  /** What calling a missing `provider.runCommand` throws. */
  const RunCommandMissing := "provider.runCommand is not a function"
  const ErrorMarkers: seq<string> := ["error", "Error", "EADDRINUSE"]
  const PortFree := "port_free"
  const DetailsLimit: nat := 200
  const ExistsMarker := "exists"
  const ManifestFile := "/package.json"
  const NodeModulesDir := "/node_modules"

  /** The route calls `provider.runCommand` without checking that it exists:
      without a runner every call throws a `TypeError` and reaches no shell. */
  function Call(p: Provider, exec: Command -> Reply, c: Command): (r: Reply)
    ensures p.hasRunCommand ==> r == exec(c)
    ensures !p.hasRunCommand ==> r == Throw(RunCommandMissing)
    ensures r.Throw? <==> !p.hasRunCommand || exec(c).Throw?
  {
    if p.hasRunCommand then exec(c) else Throw(RunCommandMissing)
  }

  /** The commands a call hands to `runCommand`: none when there is no runner. */
  function Handed(p: Provider, c: Command): seq<Command>
  {
    if p.hasRunCommand then [c] else []
  }

  // ---------------------------------------------------------------------------
  // Per-probe classification
  // ---------------------------------------------------------------------------

  /** Check 1. `running` needs the sentinel to be absent and some non-whitespace
      output; `pid` is the trimmed output, or null when that is empty. */
  function ClassifyProcess(r: Reply): (c: ProcessCheck)
    ensures r.Throw? ==> c == ProcessError(r.message)
    ensures r.Out? ==> c.ProcessStatus?
    ensures r.Out? ==> (c.running <==> !Occurs(r.stdout, NotRunning) &&
                                       exists k :: 0 <= k < |r.stdout| && !IsWs(r.stdout[k]))
    ensures r.Out? ==> (c.pid.None? <==> forall k :: 0 <= k < |r.stdout| ==> IsWs(r.stdout[k]))
    ensures r.Out? && c.pid.Some? ==> (exists i :: FramedBy(r.stdout, c.pid.value, i))
                                      && c.pid.value != [] && Trimmed(c.pid.value)
    ensures c.ProcessStatus? && c.running ==> c.pid.Some?
  {
    match r
    case Throw(m) => ProcessError(m)
    case Out(o) =>
      ReportsRunningIff(o);
      var t := Trim(o);
      ProcessStatus(ReportsRunning(o), if t == [] then None else Some(t))
  }

  /** Check 2. The log text is kept as is; `hasErrors` says whether one of the
      three error markers occurs in it. */
  function ClassifyLogs(r: Reply): (c: LogCheck)
    ensures r.Throw? ==> c == LogsError(r.message)
    ensures r.Out? ==> c.Logs? && c.text == r.stdout
    ensures r.Out? ==> (c.hasErrors <==> exists m :: m in ErrorMarkers && Occurs(r.stdout, m))
  {
    match r
    case Throw(m) => LogsError(m)
    case Out(o) =>
      ContainsIff(o, "error");
      ContainsIff(o, "Error");
      ContainsIff(o, "EADDRINUSE");
      Logs(o, Contains(o, "error") || Contains(o, "Error") || Contains(o, "EADDRINUSE"))
  }

  /** Check 3. The port counts as in use unless the "free" sentinel occurs;
      `details` is the first 200 characters of the output. */
  function ClassifyPort(r: Reply): (c: PortCheck)
    ensures r.Throw? ==> c == PortError(r.message)
    ensures r.Out? ==> c.PortStatus? && (c.inUse <==> !Occurs(r.stdout, PortFree))
    ensures r.Out? ==> |c.details| == (if |r.stdout| < DetailsLimit then |r.stdout| else DetailsLimit)
                       && c.details == r.stdout[..|c.details|]
  {
    match r
    case Throw(m) => PortError(m)
    case Out(o) =>
      ContainsIff(o, PortFree);
      PortStatus(!Contains(o, PortFree), Take(o, DetailsLimit))
  }

  /** Checks 4 and 5: the `test` command prints "exists" or "missing". */
  function ClassifyPath(r: Reply, path: string): (c: PathCheck)
    ensures r.Throw? ==> c == PathError(r.message)
    ensures r.Out? ==> c.PathStatus? && c.path == path && (c.present <==> Occurs(r.stdout, ExistsMarker))
  {
    match r
    case Throw(m) => PathError(m)
    case Out(o) =>
      ContainsIff(o, ExistsMarker);
      PathStatus(Contains(o, ExistsMarker), path)
  }

  /** Check 6: the last line of `df`, trimmed. */
  function ClassifyDisk(r: Reply): (c: DiskCheck)
    ensures r.Throw? ==> c == DiskError(r.message)
    ensures r.Out? ==> c.Disk? && (exists i :: FramedBy(r.stdout, c.usage, i))
                       && Trimmed(c.usage)
  {
    match r
    case Throw(m) => DiskError(m)
    case Out(o) =>
      var usage := Trim(o);
      assert exists i :: FramedBy(o, usage, i);
      Disk(usage)
  }

  // ---------------------------------------------------------------------------
  // The six probes
  // ---------------------------------------------------------------------------

  function ProcessProbe(p: Provider, exec: Command -> Reply): (r: Probed<ProcessCheck>)
    ensures r.issued == Handed(p, ProbeProcess)
    ensures p.hasRunCommand ==> r.check == ClassifyProcess(exec(ProbeProcess))
    ensures !p.hasRunCommand ==> r.check == ProcessError(RunCommandMissing)
    ensures Running(r.check) <==> p.hasRunCommand && exec(ProbeProcess).Out? && ReportsRunning(exec(ProbeProcess).stdout)
  {
    Probed(ClassifyProcess(Call(p, exec, ProbeProcess)), Handed(p, ProbeProcess))
  }

  function LogProbe(p: Provider, exec: Command -> Reply): (r: Probed<LogCheck>)
    ensures r.issued == Handed(p, TailLogs)
    ensures p.hasRunCommand ==> r.check == ClassifyLogs(exec(TailLogs))
    ensures !p.hasRunCommand ==> r.check == LogsError(RunCommandMissing)
    ensures r.check.Logs? && r.check.hasErrors ==> p.hasRunCommand && exec(TailLogs).Out?
  {
    Probed(ClassifyLogs(Call(p, exec, TailLogs)), Handed(p, TailLogs))
  }

  function PortProbe(p: Provider, exec: Command -> Reply): (r: Probed<PortCheck>)
    ensures r.issued == Handed(p, ProbePort)
    ensures p.hasRunCommand ==> r.check == ClassifyPort(exec(ProbePort))
    ensures !p.hasRunCommand ==> r.check == PortError(RunCommandMissing)
    ensures r.check.PortStatus? && r.check.inUse <==>
              p.hasRunCommand && exec(ProbePort).Out? && !Occurs(exec(ProbePort).stdout, PortFree)
  {
    Probed(ClassifyPort(Call(p, exec, ProbePort)), Handed(p, ProbePort))
  }

  /** Check 4. A thrown `getSandboxInfo` or `test` leaves only the error record.
      When the manifest exists its content is read and handed to the parser; if
      that read throws, the error record replaces the `packageJson` record already
      built. */
  function ManifestProbe(p: Provider, exec: Command -> Reply,
                         parse: string -> Option<ManifestInfo>): (r: Probed<ManifestFindings>)
    ensures p.sandboxInfo.InfoThrow? ==>
              r == Probed(ManifestFindings(PathError(p.sandboxInfo.message), None), [])
    ensures p.sandboxInfo.Info? ==>
              var dir := WorkDir(p.sandboxInfo.info);
              var test := Call(p, exec, TestManifest(dir));
              var found := test.Out? && Occurs(test.stdout, ExistsMarker);
              var read := Call(p, exec, ReadManifest(dir));
              && r.issued == Handed(p, TestManifest(dir)) + (if found then [ReadManifest(dir)] else [])
              && (!found ==> r.check == ManifestFindings(ClassifyPath(test, dir + ManifestFile), None))
              && (found && read.Throw? ==> r.check == ManifestFindings(PathError(read.message), None))
              && (found && read.Out? ==>
                    r.check.packageJson == PathStatus(true, dir + ManifestFile)
                    && r.check.content == Some(if parse(read.stdout).Some? then Parsed(parse(read.stdout).value)
                                               else Unparseable))
    ensures r.check.content.Some? ==> r.check.packageJson.PathStatus? && r.check.packageJson.present
    ensures |r.issued| <= 2 && forall i :: 0 <= i < |r.issued| ==> r.issued[i].TestManifest? || r.issued[i].ReadManifest?
    ensures !p.hasRunCommand ==> r.issued == []
  {
    match p.sandboxInfo
    case InfoThrow(m) => Probed(ManifestFindings(PathError(m), None), [])
    case Info(info) =>
      var dir := WorkDir(info);
      var found := ClassifyPath(Call(p, exec, TestManifest(dir)), dir + ManifestFile);
      if !(found.PathStatus? && found.present) then
        Probed(ManifestFindings(found, None), Handed(p, TestManifest(dir)))
      else
        match Call(p, exec, ReadManifest(dir))
        case Throw(m) =>
          Probed(ManifestFindings(PathError(m), None), [TestManifest(dir), ReadManifest(dir)])
        case Out(text) =>
          var content := match parse(text) case Some(info) => Parsed(info) case None => Unparseable;
          Probed(ManifestFindings(found, Some(content)), [TestManifest(dir), ReadManifest(dir)])
  }

  /** Check 5. */
  function NodeModulesProbe(p: Provider, exec: Command -> Reply): (r: Probed<PathCheck>)
    ensures p.sandboxInfo.InfoThrow? ==> r == Probed(PathError(p.sandboxInfo.message), [])
    ensures p.sandboxInfo.Info? ==>
              var dir := WorkDir(p.sandboxInfo.info);
              var test := Call(p, exec, TestNodeModules(dir));
              && r.issued == Handed(p, TestNodeModules(dir))
              && (test.Throw? ==> r.check == PathError(test.message))
              && (test.Out? ==> r.check == PathStatus(Occurs(test.stdout, ExistsMarker), dir + NodeModulesDir))
    ensures |r.issued| <= 1 && forall i :: 0 <= i < |r.issued| ==> r.issued[i].TestNodeModules?
  {
    match p.sandboxInfo
    case InfoThrow(m) => Probed(PathError(m), [])
    case Info(info) =>
      var dir := WorkDir(info);
      Probed(ClassifyPath(Call(p, exec, TestNodeModules(dir)), dir + NodeModulesDir), Handed(p, TestNodeModules(dir)))
  }

  function DiskProbe(p: Provider, exec: Command -> Reply): (r: Probed<DiskCheck>)
    ensures r.issued == Handed(p, DiskUsage)
    ensures p.hasRunCommand ==> r.check == ClassifyDisk(exec(DiskUsage))
    ensures !p.hasRunCommand ==> r.check == DiskError(RunCommandMissing)
    ensures r.check.Disk? ==> p.hasRunCommand && r.check.usage == Trim(exec(DiskUsage).stdout)
  {
    Probed(ClassifyDisk(Call(p, exec, DiskUsage)), Handed(p, DiskUsage))
  }

  /** All the check records, each from its own probe. */
  function Collect(p: Provider, exec: Command -> Reply, parse: string -> Option<ManifestInfo>): Checks
  {
    var manifest := ManifestProbe(p, exec, parse).check;
    Checks(ProcessProbe(p, exec).check, LogProbe(p, exec).check, PortProbe(p, exec).check,
           manifest.packageJson, manifest.content,
           NodeModulesProbe(p, exec).check, DiskProbe(p, exec).check)
  }

  /** The commands the probes hand to `runCommand`, in the route's order: the
      three fixed probes, up to three in the work directory, and the disk probe
      last; nothing at all without a runner. */
  function Issued(p: Provider, exec: Command -> Reply, parse: string -> Option<ManifestInfo>): (cs: seq<Command>)
    ensures p.hasRunCommand ==>
              4 <= |cs| <= 7 && cs[..3] == [ProbeProcess, TailLogs, ProbePort] && cs[|cs| - 1] == DiskUsage
    ensures !p.hasRunCommand ==> cs == []
    ensures p.hasRunCommand && p.sandboxInfo.InfoThrow? ==> cs == [ProbeProcess, TailLogs, ProbePort, DiskUsage]
    ensures p.hasRunCommand && p.sandboxInfo.Info? ==>
              var dir := WorkDir(p.sandboxInfo.info);
              var test := exec(TestManifest(dir));
              cs == [ProbeProcess, TailLogs, ProbePort, TestManifest(dir)]
                    + (if test.Out? && Occurs(test.stdout, ExistsMarker) then [ReadManifest(dir)] else [])
                    + [TestNodeModules(dir), DiskUsage]
    ensures forall i :: 0 <= i < |cs| ==> !cs[i].LaunchDev?
  {
    var manifest := ManifestProbe(p, exec, parse).issued;
    var nodeModules := NodeModulesProbe(p, exec).issued;
    InDirOrder(manifest, nodeModules);
    var cs := ProcessProbe(p, exec).issued + LogProbe(p, exec).issued + PortProbe(p, exec).issued
              + (manifest + nodeModules) + DiskProbe(p, exec).issued;
    if p.hasRunCommand && p.sandboxInfo.Info? then
      var dir := WorkDir(p.sandboxInfo.info);
      var test := exec(TestManifest(dir));
      InDirShape(manifest, nodeModules, dir, test.Out? && Occurs(test.stdout, ExistsMarker));
      cs
    else
      cs
  }

  /** The full trace when both work-directory probes ran: the manifest test, the
      read if the test found the file, and the `node_modules` test. */
  lemma InDirShape(manifest: seq<Command>, nodeModules: seq<Command>, dir: string, found: bool)
    requires manifest == [TestManifest(dir)] + (if found then [ReadManifest(dir)] else [])
    requires nodeModules == [TestNodeModules(dir)]
    ensures [ProbeProcess] + [TailLogs] + [ProbePort] + (manifest + nodeModules) + [DiskUsage]
            == [ProbeProcess, TailLogs, ProbePort, TestManifest(dir)]
               + (if found then [ReadManifest(dir)] else []) + [TestNodeModules(dir), DiskUsage]
  {
    if found {
      assert manifest == [TestManifest(dir), ReadManifest(dir)];
    } else {
      assert manifest == [TestManifest(dir)];
    }
  }

  /** The work-directory commands sit between the fixed probes and the disk probe. */
  lemma InDirOrder(manifest: seq<Command>, nodeModules: seq<Command>)
    requires |manifest| <= 2 && forall i :: 0 <= i < |manifest| ==> !manifest[i].LaunchDev?
    requires |nodeModules| <= 1 && forall i :: 0 <= i < |nodeModules| ==> !nodeModules[i].LaunchDev?
    ensures var cs := [ProbeProcess] + [TailLogs] + [ProbePort] + (manifest + nodeModules) + [DiskUsage];
            && 4 <= |cs| <= 7 && cs[..3] == [ProbeProcess, TailLogs, ProbePort] && cs[|cs| - 1] == DiskUsage
            && forall i :: 0 <= i < |cs| ==> !cs[i].LaunchDev?
  {
    var inDir := manifest + nodeModules;
    var cs := [ProbeProcess] + [TailLogs] + [ProbePort] + inDir + [DiskUsage];
    assert cs[..3] == [ProbeProcess, TailLogs, ProbePort];
    forall i | 0 <= i < |cs|
      ensures !cs[i].LaunchDev?
    {
      if 3 <= i < 3 + |manifest| {
        assert cs[i] == manifest[i - 3];
      } else if 3 + |manifest| <= i < 3 + |inDir| {
        assert cs[i] == nodeModules[i - 3 - |manifest|];
      }
    }
  }

  // ---------------------------------------------------------------------------
  // Recommendations
  // ---------------------------------------------------------------------------

  /** `viteProcess?.running` is truthy. */
  predicate Running(c: ProcessCheck)
  {
    c.ProcessStatus? && c.running
  }

  /** The route's rules, one per recommendation. An error record, or a field the
      route never set, reads as `undefined`. */
  predicate Fires(c: Checks, x: Recommendation)
    ensures x == RestartVite && c.viteProcess.ProcessError? ==> Fires(c, x)
    ensures x == InspectLogs && c.viteLogs.LogsError? ==> !Fires(c, x)
    ensures x == FreePort && (c.port5173.PortError? || Running(c.viteProcess)) ==> !Fires(c, x)
    ensures x == ManifestMissing && c.packageJson.PathError? ==> Fires(c, x)
    ensures x == ManifestInvalid && (c.packageJsonContent.None? || c.packageJsonContent == Some(Unparseable)) ==> Fires(c, x)
    ensures x == InstallDependencies && c.nodeModules.PathError? ==> Fires(c, x)
  {
    match x
    case RestartVite => !Running(c.viteProcess)
    case InspectLogs => c.viteLogs.Logs? && c.viteLogs.hasErrors
    case FreePort => c.port5173.PortStatus? && c.port5173.inUse && !Running(c.viteProcess)
    case ManifestMissing => !(c.packageJson.PathStatus? && c.packageJson.present)
    case ManifestInvalid => !(c.packageJsonContent.Some? && c.packageJsonContent.value.Valid())
    case InstallDependencies => !(c.nodeModules.PathStatus? && c.nodeModules.present)
  }

  /** The rules in the order the route evaluates them. */
  const RuleOrder: seq<Recommendation> :=
    [RestartVite, InspectLogs, FreePort, ManifestMissing, ManifestInvalid, InstallDependencies]

  predicate InRuleOrder(rs: seq<Recommendation>)
  {
    forall i, j :: 0 <= i < j < |rs| ==> rs[i].Rank() < rs[j].Rank()
  }

  /** The rules of `rules` that fire, kept in their order. */
  function Select(c: Checks, rules: seq<Recommendation>): (rs: seq<Recommendation>)
    ensures forall x :: x in rs <==> x in rules && Fires(c, x)
    ensures InRuleOrder(rules) ==> InRuleOrder(rs)
    ensures |rs| <= |rules|
  {
    if rules == [] then []
    else
      var rest := Select(c, rules[1..]);
      if Fires(c, rules[0]) then
        PrependOrdered(rules, rest);
        [rules[0]] + rest
      else rest
  }

  /** Putting the first rule in front of a selection from the later ones keeps rule order. */
  lemma PrependOrdered(rules: seq<Recommendation>, rest: seq<Recommendation>)
    requires rules != []
    requires forall x :: x in rest ==> x in rules[1..]
    requires InRuleOrder(rules) ==> InRuleOrder(rest)
    ensures InRuleOrder(rules) ==> InRuleOrder([rules[0]] + rest)
  {
    if InRuleOrder(rules) {
      forall i | 0 <= i < |rest|
        ensures rules[0].Rank() < rest[i].Rank()
      {
        assert rest[i] in rules[1..];
        var j :| 0 <= j < |rules| - 1 && rules[1..][j] == rest[i];
        assert rules[j + 1] == rest[i];
      }
      var rs := [rules[0]] + rest;
      forall i, j | 0 <= i < j < |rs|
        ensures rs[i].Rank() < rs[j].Rank()
      {
        assert rs[j] == rest[j - 1];
        if i > 0 {
          assert rs[i] == rest[i - 1];
        }
      }
    }
  }

  /** The recommendations: exactly the rules that fire, in rule order, at most six. */
  function Recommend(c: Checks): (rs: seq<Recommendation>)
    ensures forall x :: x in rs <==> Fires(c, x)
    ensures InRuleOrder(rs)
    ensures |rs| <= 6
  {
    RuleOrderComplete();
    Select(c, RuleOrder)
  }

  /** Every rule is listed, in rank order. */
  lemma RuleOrderComplete()
    ensures forall x: Recommendation :: x in RuleOrder
    ensures InRuleOrder(RuleOrder) && |RuleOrder| == 6
  {
    forall x: Recommendation
      ensures x in RuleOrder
    {
      assert RuleOrder[x.Rank()] == x;
    }
  }

  /** Two rule-ordered lists with the same members are the same list. */
  lemma {:induction false} OrderedUnique(a: seq<Recommendation>, b: seq<Recommendation>)
    requires InRuleOrder(a) && InRuleOrder(b)
    requires forall x :: x in a <==> x in b
    ensures a == b
    decreases |a|
  {
    if a != [] {
      assert a[0] in b;
    }
    if b != [] {
      assert b[0] in a;
    }
    if a != [] && b != [] {
      assert a[0] == b[0] by {
        assert b[0] in a;
        var i :| 0 <= i < |a| && a[i] == b[0];
        assert a[0].Rank() <= b[0].Rank();
        assert a[0] in b;
        var j :| 0 <= j < |b| && b[j] == a[0];
        assert b[0].Rank() <= a[0].Rank();
      }
      forall x | x in a[1..]
        ensures x in b[1..]
      {
        var i :| 1 <= i < |a| && a[i] == x;
        assert x != b[0] && x in a;
        var j :| 0 <= j < |b| && b[j] == x;
        assert b[1..][j - 1] == x;
      }
      forall x | x in b[1..]
        ensures x in a[1..]
      {
        var j :| 1 <= j < |b| && b[j] == x;
        assert x != a[0] && x in b;
        var i :| 0 <= i < |a| && a[i] == x;
        assert a[1..][i - 1] == x;
      }
      OrderedUnique(a[1..], b[1..]);
    }
  }

  /** The recommendation list is determined by which rules fire: any rule-ordered
      list of exactly the firing rules is the route's list. */
  lemma RecommendUnique(c: Checks, rs: seq<Recommendation>)
    requires InRuleOrder(rs) && forall x :: x in rs <==> Fires(c, x)
    ensures rs == Recommend(c)
  {
    OrderedUnique(rs, Recommend(c));
  }

  // ---------------------------------------------------------------------------
  // The route
  // ---------------------------------------------------------------------------

  /** `GET`: 404 without issuing anything when there is no provider; otherwise 200
      with every check record and the recommendations derived from them. */
  function Get(provider: Option<Provider>, exec: Command -> Reply,
               parse: string -> Option<ManifestInfo>): (run: Run)
    ensures provider.None? ==> run.response == NoSandbox && run.issued == []
    ensures run.response.Error() == (if provider.None? then Some(NoActiveSandbox) else None)
    ensures run.response.Status() == (if provider.None? then 404 else 200)
    ensures run.response.Success() <==> provider.Some?
    ensures provider.Some? ==> run.response == Report(Diagnose(provider.value, exec, parse))
    ensures run.response.Report? ==>
              var d := run.response.diagnostics;
              InRuleOrder(d.recommendations) && |d.recommendations| <= 6
              && forall x :: x in d.recommendations <==> Fires(d.checks, x)
    ensures provider.Some? && provider.value.hasRunCommand ==>
              4 <= |run.issued| <= 7 && run.issued[..3] == [ProbeProcess, TailLogs, ProbePort]
              && run.issued[|run.issued| - 1] == DiskUsage
    ensures provider.Some? && !provider.value.hasRunCommand ==> run.issued == []
    ensures provider.Some? ==> run.issued == Issued(provider.value, exec, parse)
    ensures forall i :: 0 <= i < |run.issued| ==> !run.issued[i].LaunchDev?
  {
    match provider
    case None => Run(NoSandbox, [])
    case Some(p) => Run(Report(Diagnose(p, exec, parse)), Issued(p, exec, parse))
  }

  /** The report: every check record, and the recommendations derived from them. */
  function Diagnose(p: Provider, exec: Command -> Reply, parse: string -> Option<ManifestInfo>): (d: Diagnostics)
    ensures d.checks == Collect(p, exec, parse)
    ensures InRuleOrder(d.recommendations) && |d.recommendations| <= 6
    ensures forall x :: x in d.recommendations <==> Fires(d.checks, x)
  {
    var checks := Collect(p, exec, parse);
    Diagnostics(checks, Recommend(checks))
  }

  // ---------------------------------------------------------------------------
  // Properties of the route
  // ---------------------------------------------------------------------------

  /** `exec` with command `c` made to throw `m`. */
  function Failing(exec: Command -> Reply, c: Command, m: string): Command -> Reply
  {
    x => if x == c then Throw(m) else exec(x)
  }

  /** A throwing probe yields an error record for that probe only: every other
      record is what it would have been had the command not thrown. */
  lemma ThrowIsolated(p: Provider, exec: Command -> Reply, parse: string -> Option<ManifestInfo>,
                      c: Command, m: string)
    requires p.hasRunCommand
    requires c == ProbeProcess || c == TailLogs || c == ProbePort || c == DiskUsage
    ensures Collect(p, Failing(exec, c, m), parse) ==
            match c
            case ProbeProcess => Collect(p, exec, parse).(viteProcess := ProcessError(m))
            case TailLogs => Collect(p, exec, parse).(viteLogs := LogsError(m))
            case ProbePort => Collect(p, exec, parse).(port5173 := PortError(m))
            case _ => Collect(p, exec, parse).(diskSpace := DiskError(m))
  {
    var bad := Failing(exec, c, m);
    assert forall d :: d != c ==> Call(p, bad, d) == Call(p, exec, d);
    assert ManifestProbe(p, bad, parse) == ManifestProbe(p, exec, parse);
    assert NodeModulesProbe(p, bad) == NodeModulesProbe(p, exec);
  }

  /** The same for the manifest and `node_modules` probes. A failing `cat` of
      the manifest replaces the manifest's existence record too, and is only
      issued when the manifest exists. */
  lemma ThrowIsolatedInWorkDir(p: Provider, exec: Command -> Reply, parse: string -> Option<ManifestInfo>,
                               m: string)
    requires p.hasRunCommand && p.sandboxInfo.Info?
    ensures var dir := WorkDir(p.sandboxInfo.info);
            var before := Collect(p, exec, parse);
            && Collect(p, Failing(exec, TestManifest(dir), m), parse)
               == before.(packageJson := PathError(m), packageJsonContent := None)
            && Collect(p, Failing(exec, ReadManifest(dir), m), parse)
               == (if exec(TestManifest(dir)).Out? && Occurs(exec(TestManifest(dir)).stdout, ExistsMarker)
                   then before.(packageJson := PathError(m), packageJsonContent := None)
                   else before)
            && Collect(p, Failing(exec, TestNodeModules(dir), m), parse)
               == before.(nodeModules := PathError(m))
  {
    var dir := WorkDir(p.sandboxInfo.info);
    var before := Collect(p, exec, parse);
    ManifestThrows(p, exec, parse, TestManifest(dir), m);
    assert ManifestProbe(p, Failing(exec, TestManifest(dir), m), parse).check
           == ManifestFindings(PathError(m), None);
    ManifestThrows(p, exec, parse, ReadManifest(dir), m);
    var found := ClassifyPath(Call(p, exec, TestManifest(dir)), dir + ManifestFile);
    if found.PathStatus? && found.present {
      assert ManifestProbe(p, Failing(exec, ReadManifest(dir), m), parse).check
             == ManifestFindings(PathError(m), None);
    } else {
      assert ManifestProbe(p, Failing(exec, ReadManifest(dir), m), parse)
             == ManifestProbe(p, exec, parse);
    }
    ManifestThrows(p, exec, parse, TestNodeModules(dir), m);
  }

  lemma ManifestThrows(p: Provider, exec: Command -> Reply, parse: string -> Option<ManifestInfo>,
                       c: Command, m: string)
    requires p.hasRunCommand && p.sandboxInfo.Info?
    requires c.TestManifest? || c.ReadManifest? || c.TestNodeModules?
    ensures var bad := Failing(exec, c, m);
            && ProcessProbe(p, bad) == ProcessProbe(p, exec)
            && LogProbe(p, bad) == LogProbe(p, exec)
            && PortProbe(p, bad) == PortProbe(p, exec)
            && DiskProbe(p, bad) == DiskProbe(p, exec)
            && (!c.TestNodeModules? ==> NodeModulesProbe(p, bad) == NodeModulesProbe(p, exec))
            && (c.TestNodeModules? ==> ManifestProbe(p, bad, parse) == ManifestProbe(p, exec, parse))
  {
    var bad := Failing(exec, c, m);
    assert bad(ProbeProcess) == exec(ProbeProcess) && bad(TailLogs) == exec(TailLogs);
    assert bad(ProbePort) == exec(ProbePort) && bad(DiskUsage) == exec(DiskUsage);
    FixedProbesAgree(p, exec, bad);
    var dir := WorkDir(p.sandboxInfo.info);
    if c.TestNodeModules? {
      assert bad(TestManifest(dir)) == exec(TestManifest(dir));
      assert bad(ReadManifest(dir)) == exec(ReadManifest(dir));
      ManifestProbeAgrees(p, exec, bad, parse);
    } else {
      assert bad(TestNodeModules(dir)) == exec(TestNodeModules(dir));
      NodeModulesProbeAgrees(p, exec, bad);
    }
  }

  /** The manifest probe reads only the replies to its two commands. */
  lemma ManifestProbeAgrees(p: Provider, exec: Command -> Reply, other: Command -> Reply,
                            parse: string -> Option<ManifestInfo>)
    requires p.sandboxInfo.Info?
    requires var dir := WorkDir(p.sandboxInfo.info);
             exec(TestManifest(dir)) == other(TestManifest(dir)) && exec(ReadManifest(dir)) == other(ReadManifest(dir))
    ensures ManifestProbe(p, other, parse) == ManifestProbe(p, exec, parse)
  {
  }

  /** The `node_modules` probe reads only the reply to its command. */
  lemma NodeModulesProbeAgrees(p: Provider, exec: Command -> Reply, other: Command -> Reply)
    requires p.sandboxInfo.Info?
    requires var dir := WorkDir(p.sandboxInfo.info);
             exec(TestNodeModules(dir)) == other(TestNodeModules(dir))
    ensures NodeModulesProbe(p, other) == NodeModulesProbe(p, exec)
  {
  }

  /** The process, log, port and disk probes read only their own command's reply. */
  lemma FixedProbesAgree(p: Provider, exec: Command -> Reply, other: Command -> Reply)
    requires exec(ProbeProcess) == other(ProbeProcess) && exec(TailLogs) == other(TailLogs)
    requires exec(ProbePort) == other(ProbePort) && exec(DiskUsage) == other(DiskUsage)
    ensures ProcessProbe(p, other) == ProcessProbe(p, exec) && LogProbe(p, other) == LogProbe(p, exec)
    ensures PortProbe(p, other) == PortProbe(p, exec) && DiskProbe(p, other) == DiskProbe(p, exec)
  {
  }

  /** A missing, errored or unreadable manifest never gets a content record, so
      both manifest recommendations are made. */
  lemma MissingManifestRecommendsBoth(p: Provider, exec: Command -> Reply, parse: string -> Option<ManifestInfo>)
    requires !(Collect(p, exec, parse).packageJson.PathStatus? && Collect(p, exec, parse).packageJson.present)
    ensures var d := Diagnose(p, exec, parse);
            ManifestMissing in d.recommendations && ManifestInvalid in d.recommendations
  {
    var d := Diagnose(p, exec, parse);
    assert d.checks.packageJsonContent.None?;
    assert Fires(d.checks, ManifestMissing) && Fires(d.checks, ManifestInvalid);
  }

  /** A manifest that exists but does not parse gives `valid: false`, still within
      a successful report, and only the "invalid" recommendation. */
  lemma UnparseableManifest(p: Provider, exec: Command -> Reply, parse: string -> Option<ManifestInfo>)
    requires p.hasRunCommand && p.sandboxInfo.Info?
    requires var dir := WorkDir(p.sandboxInfo.info);
             exec(TestManifest(dir)).Out? && Occurs(exec(TestManifest(dir)).stdout, ExistsMarker)
             && exec(ReadManifest(dir)).Out? && parse(exec(ReadManifest(dir)).stdout).None?
    ensures var d := Diagnose(p, exec, parse);
            && d.checks.packageJsonContent == Some(Unparseable)
            && ManifestInvalid in d.recommendations
            && ManifestMissing !in d.recommendations
  {
    var found := UnparseableProbe(p, exec, parse);
    var d := Diagnose(p, exec, parse);
    var m := ManifestProbe(p, exec, parse).check;
    assert d.checks == Collect(p, exec, parse);
    assert d.checks.packageJson == m.packageJson && d.checks.packageJsonContent == m.content;
    ManifestRules(d.checks);
  }

  /** A manifest that exists and parses gives `valid: true` with the parsed fields,
      and neither manifest recommendation. */
  lemma ParsedManifest(p: Provider, exec: Command -> Reply, parse: string -> Option<ManifestInfo>, m: ManifestInfo)
    requires p.hasRunCommand && p.sandboxInfo.Info?
    requires var dir := WorkDir(p.sandboxInfo.info);
             exec(TestManifest(dir)).Out? && Occurs(exec(TestManifest(dir)).stdout, ExistsMarker)
             && exec(ReadManifest(dir)).Out? && parse(exec(ReadManifest(dir)).stdout) == Some(m)
    ensures var d := Diagnose(p, exec, parse);
            && d.checks.packageJson == PathStatus(true, WorkDir(p.sandboxInfo.info) + ManifestFile)
            && d.checks.packageJsonContent == Some(Parsed(m))
            && ManifestMissing !in d.recommendations
            && ManifestInvalid !in d.recommendations
  {
    var dir := WorkDir(p.sandboxInfo.info);
    assert Call(p, exec, TestManifest(dir)) == exec(TestManifest(dir));
    assert Call(p, exec, ReadManifest(dir)) == exec(ReadManifest(dir));
    var probe := ManifestProbe(p, exec, parse).check;
    assert probe == ManifestFindings(PathStatus(true, dir + ManifestFile), Some(Parsed(m)));
    var d := Diagnose(p, exec, parse);
    assert d.checks == Collect(p, exec, parse);
    assert d.checks.packageJson == probe.packageJson && d.checks.packageJsonContent == probe.content;
    ParsedRules(d.checks);
  }

  /** Neither manifest rule fires on a present manifest that parsed. */
  lemma ParsedRules(c: Checks)
    requires c.packageJson.PathStatus? && c.packageJson.present
    requires c.packageJsonContent.Some? && c.packageJsonContent.value.Parsed?
    ensures !Fires(c, ManifestMissing) && !Fires(c, ManifestInvalid)
  {
  }

  /** Without a `runCommand` nothing is handed over: every command-backed record
      carries the "not a function" error, both directory records carry that error
      or the info error, and four rules fire. */
  lemma NoRunner(p: Provider, exec: Command -> Reply, parse: string -> Option<ManifestInfo>)
    requires !p.hasRunCommand
    ensures Get(Some(p), exec, parse).issued == []
    ensures var d := Diagnose(p, exec, parse);
            var dirError := PathError(if p.sandboxInfo.InfoThrow? then p.sandboxInfo.message else RunCommandMissing);
            && d.checks == Checks(ProcessError(RunCommandMissing), LogsError(RunCommandMissing),
                                  PortError(RunCommandMissing), dirError, None, dirError,
                                  DiskError(RunCommandMissing))
            && d.recommendations == [RestartVite, ManifestMissing, ManifestInvalid, InstallDependencies]
  {
    var d := Diagnose(p, exec, parse);
    assert d.checks == Collect(p, exec, parse);
    NoRunnerRules(d.checks);
    OrderedUnique(d.recommendations, [RestartVite, ManifestMissing, ManifestInvalid, InstallDependencies]);
  }

  /** The rules that fire on a report whose every record is an error. */
  lemma NoRunnerRules(c: Checks)
    requires c.viteProcess.ProcessError? && c.viteLogs.LogsError? && c.port5173.PortError?
    requires c.packageJson.PathError? && c.packageJsonContent.None? && c.nodeModules.PathError?
    ensures InRuleOrder([RestartVite, ManifestMissing, ManifestInvalid, InstallDependencies])
    ensures forall x :: x in [RestartVite, ManifestMissing, ManifestInvalid, InstallDependencies] <==> Fires(c, x)
  {
  }

  /** The two manifest rules on a manifest that exists but did not parse. */
  lemma ManifestRules(c: Checks)
    requires c.packageJson.PathStatus? && c.packageJson.present && c.packageJsonContent == Some(Unparseable)
    ensures Fires(c, ManifestInvalid) && !Fires(c, ManifestMissing)
  {
  }

  /** The manifest probe's records for a manifest that exists but does not parse. */
  lemma UnparseableProbe(p: Provider, exec: Command -> Reply, parse: string -> Option<ManifestInfo>)
    returns (found: PathCheck)
    requires p.hasRunCommand && p.sandboxInfo.Info?
    requires var dir := WorkDir(p.sandboxInfo.info);
             exec(TestManifest(dir)).Out? && Occurs(exec(TestManifest(dir)).stdout, ExistsMarker)
             && exec(ReadManifest(dir)).Out? && parse(exec(ReadManifest(dir)).stdout).None?
    ensures found.PathStatus? && found.present
    ensures ManifestProbe(p, exec, parse).check == ManifestFindings(found, Some(Unparseable))
  {
    var dir := WorkDir(p.sandboxInfo.info);
    assert Call(p, exec, TestManifest(dir)) == exec(TestManifest(dir));
    assert Call(p, exec, ReadManifest(dir)) == exec(ReadManifest(dir));
    found := ClassifyPath(Call(p, exec, TestManifest(dir)), dir + ManifestFile);
  }

  /** The port rule fires exactly when the port probe says "in use" and the
      process probe does not say "running"; the log rule never fires when the log
      probe threw; the restart rule fires exactly when the process is not
      reported running. */
  lemma RecommendationConditions(p: Provider, exec: Command -> Reply, parse: string -> Option<ManifestInfo>)
    ensures var d := Diagnose(p, exec, parse);
            && (FreePort in d.recommendations <==>
                  Call(p, exec, ProbePort).Out? && !Occurs(Call(p, exec, ProbePort).stdout, PortFree)
                  && !(Call(p, exec, ProbeProcess).Out? && ReportsRunning(Call(p, exec, ProbeProcess).stdout)))
            && (Call(p, exec, TailLogs).Throw? ==> InspectLogs !in d.recommendations)
            && (RestartVite in d.recommendations <==>
                  !(Call(p, exec, ProbeProcess).Out? && ReportsRunning(Call(p, exec, ProbeProcess).stdout)))
  {
    var d := Diagnose(p, exec, parse);
    assert d.checks.viteProcess == ClassifyProcess(Call(p, exec, ProbeProcess));
    assert d.checks.viteLogs == ClassifyLogs(Call(p, exec, TailLogs));
    assert d.checks.port5173 == ClassifyPort(Call(p, exec, ProbePort));
    RulesFromReplies(d.checks, Call(p, exec, ProbeProcess), Call(p, exec, TailLogs), Call(p, exec, ProbePort));
  }

  /** The three rules that read the process, log and port records, in terms of
      the replies those records were classified from. */
  lemma RulesFromReplies(c: Checks, process: Reply, logs: Reply, port: Reply)
    requires c.viteProcess == ClassifyProcess(process)
    requires c.viteLogs == ClassifyLogs(logs)
    requires c.port5173 == ClassifyPort(port)
    ensures Fires(c, FreePort) <==>
              port.Out? && !Occurs(port.stdout, PortFree) && !(process.Out? && ReportsRunning(process.stdout))
    ensures logs.Throw? ==> !Fires(c, InspectLogs)
    ensures Fires(c, RestartVite) <==> !(process.Out? && ReportsRunning(process.stdout))
  {
    ProcessRunningIff(process);
  }

  /** The process record reads as running exactly when the probe's output reports
      it running. */
  lemma ProcessRunningIff(r: Reply)
    ensures Running(ClassifyProcess(r)) <==> r.Out? && ReportsRunning(r.stdout)
  {
    if r.Out? {
      ReportsRunningIff(r.stdout);
    }
  }

  /** Replies under which every rule fires: the process probe and both directory
      tests throw, the log holds "EADDRINUSE" and the port probe prints nothing. */
  function AllFailing(c: Command): Reply
  {
    match c
    case TailLogs => Out("EADDRINUSE")
    case ProbePort => Out("")
    case DiskUsage => Out("")
    case ReadManifest(_) => Out("")
    case _ => Throw("x")
  }

  /** All six rules can fire together on a real run: under `AllFailing`, the
      report recommends every rule, in rule order. */
  lemma SixRecommendations(p: Provider, parse: string -> Option<ManifestInfo>)
    requires p.hasRunCommand
    ensures Diagnose(p, AllFailing, parse).recommendations == RuleOrder
  {
    var c := Collect(p, AllFailing, parse);
    assert c.viteProcess == ProcessError("x");
    AddressInUseIsLogError();
    assert c.viteLogs == ClassifyLogs(Out("EADDRINUSE"));
    assert !Occurs("", PortFree);
    assert c.port5173 == ClassifyPort(Out(""));
    assert c.packageJson.PathError? && c.packageJsonContent.None?;
    assert c.nodeModules.PathError?;
    SixRules(c);
    var d := Diagnose(p, AllFailing, parse);
    OrderedUnique(d.recommendations, RuleOrder);
  }

  /** Every rule fires on records where the process, manifest and `node_modules`
      probes failed, the log has an error marker and the port is in use. */
  lemma SixRules(c: Checks)
    requires c.viteProcess.ProcessError? && c.viteLogs.Logs? && c.viteLogs.hasErrors
    requires c.port5173.PortStatus? && c.port5173.inUse
    requires c.packageJson.PathError? && c.packageJsonContent.None? && c.nodeModules.PathError?
    ensures forall x :: x in RuleOrder <==> Fires(c, x)
    ensures InRuleOrder(RuleOrder)
  {
  }

  /** "EADDRINUSE" alone counts as a log error. */
  lemma AddressInUseIsLogError()
    ensures ClassifyLogs(Out("EADDRINUSE")).hasErrors
  {
    assert OccursAt("EADDRINUSE", "EADDRINUSE", 0);
  }
}
