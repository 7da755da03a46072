/** The keepalive route (`POST /api/sandbox-keepalive`): fetch the sandbox info,
    probe the dev-server process, and when it is down launch it once and probe
    once more. The command runner is a script: its k-th reply answers the k-th
    command issued. */
module Keepalive {
  import opened Wrappers
  import opened Sandbox

  datatype Response =
    | NoSandbox
    | Healthy(sandboxId: string, viteRunning: bool)
    | Unhealthy(error: string)
  {
    function Status(): int
    {
      match this
      case NoSandbox => 404
      case Healthy(_, _) => 200
      case Unhealthy(_) => 410
    }

    predicate Success() { Healthy? }

    /** Only the unhealthy response carries `shouldRecreate`, and it is always true. */
    function ShouldRecreate(): Option<bool> { if Unhealthy? then Some(true) else None }

    function Message(): string
    {
      match this
      case NoSandbox => "No active sandbox to keep alive"
      case Healthy(_, _) => "Sandbox and Vite are healthy"
      case Unhealthy(_) => "Sandbox unhealthy"
    }
  }

  /** The message is fixed by the kind of response: two responses share a message
      exactly when they share a status. */
  lemma MessageByStatus(a: Response, b: Response)
    ensures a.Message() == b.Message() <==> a.Status() == b.Status()
  {
  }

  const InfoUnavailable := "Sandbox info unavailable"
  const HealthCheckFailed := "Vite health check failed: "
  const StartFailed := "Failed to start Vite server"

  /** The commands of a full run, in order: probe, launch in the default
      directory, probe again. */
  const FullPlan: seq<Command> := [ProbeProcess, LaunchDev(AppDir), ProbeProcess]

  /** The most commands one invocation can issue. */
  const MaxCommands := 3

  /** The k-th command issued threw. */
  predicate ThrewAt(script: seq<Reply>, trace: seq<Command>, k: int)
  {
    0 <= k < |trace| && k < |script| && script[k].Throw?
  }

  method Post(provider: Option<Provider>, script: seq<Reply>) returns (resp: Response, trace: seq<Command>)
    requires |script| >= MaxCommands
    // No provider: 404, nothing issued.
    ensures provider.None? <==> resp == NoSandbox
    ensures provider.None? ==> trace == []
    ensures resp.Status() in {200, 404, 410}
    ensures resp.Unhealthy? ==> resp.ShouldRecreate() == Some(true)
    // The commands issued are always a prefix of probe, launch, probe.
    ensures |trace| <= MaxCommands && trace == FullPlan[..|trace|]
    // Sandbox info: a thrown getter or a missing value ends the run before any command.
    ensures provider.Some? && provider.value.sandboxInfo.InfoThrow? ==>
              resp == Unhealthy(provider.value.sandboxInfo.message) && trace == []
    ensures provider.Some? && provider.value.sandboxInfo == Info(None) ==>
              resp == Unhealthy(InfoUnavailable) && trace == []
    // No command runner: healthy without probing.
    ensures (provider.Some? && provider.value.sandboxInfo.Info? && provider.value.sandboxInfo.info.Some?
             && !provider.value.hasRunCommand) ==>
              resp == Healthy(provider.value.sandboxInfo.info.value.sandboxId, false) && trace == []
    // With a command runner the process is always probed first.
    ensures (provider.Some? && provider.value.sandboxInfo.Info? && provider.value.sandboxInfo.info.Some?
             && provider.value.hasRunCommand) ==> |trace| >= 1
    // A first probe that reports running is the only command.
    ensures |trace| >= 1 && script[0].Out? && ReportsRunning(script[0].stdout) ==>
              trace == [ProbeProcess]
              && resp == Healthy(provider.value.sandboxInfo.info.value.sandboxId, true)
    // A first probe that reports not running is followed by the launch, and
    // (unless the launch throws) by the second probe.
    ensures |trace| >= 1 && script[0].Out? && !ReportsRunning(script[0].stdout) ==>
              |trace| >= 2 && (script[1].Out? ==> trace == FullPlan)
    // The outcome of a full run is the second probe's.
    ensures |trace| == 3 && script[2].Out? ==>
              resp == (if ReportsRunning(script[2].stdout)
                       then Healthy(provider.value.sandboxInfo.info.value.sandboxId, true)
                       else Unhealthy(HealthCheckFailed + StartFailed))
    // A thrown command ends the run with its message.
    ensures forall k :: ThrewAt(script, trace, k) ==>
              k == |trace| - 1 && resp == Unhealthy(HealthCheckFailed + script[k].message)
    // Healthy with a runner means the last probe reported the process running.
    ensures resp.Healthy? && provider.value.hasRunCommand ==>
              resp.viteRunning && trace != [] && trace[|trace| - 1] == ProbeProcess
              && script[|trace| - 1].Out? && ReportsRunning(script[|trace| - 1].stdout)
    ensures resp.Healthy? ==> resp.sandboxId == provider.value.sandboxInfo.info.value.sandboxId
  {
    trace := [];
    if provider.None? {
      return NoSandbox, trace;
    }
    var p := provider.value;
    match p.sandboxInfo
    case InfoThrow(m) =>
      return Unhealthy(m), trace;
    case Info(info) =>
      if info.None? {
        return Unhealthy(InfoUnavailable), trace;
      }
      var id := info.value.sandboxId;
      var viteRunning := false;
      if p.hasRunCommand {
        trace := trace + [ProbeProcess];
        var first := script[0];
        if first.Throw? {
          return Unhealthy(HealthCheckFailed + first.message), trace;
        }
        viteRunning := ReportsRunning(first.stdout);
        if !viteRunning {
          trace := trace + [LaunchDev(AppDir)];
          var launched := script[1];
          if launched.Throw? {
            return Unhealthy(HealthCheckFailed + launched.message), trace;
          }
          trace := trace + [ProbeProcess];
          var again := script[2];
          if again.Throw? {
            return Unhealthy(HealthCheckFailed + again.message), trace;
          }
          viteRunning := ReportsRunning(again.stdout);
          if !viteRunning {
            return Unhealthy(HealthCheckFailed + StartFailed), trace;
          }
        }
      }
      resp := Healthy(id, viteRunning);
  }
}
