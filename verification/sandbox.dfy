/** What both routes see of a sandbox provider: its metadata getter, whether it
    has a command runner, the commands they issue and the replies they get back.
    The remote shell is opaque: a reply is just the normalised stdout text, or the
    message of the error the call threw. */
module Sandbox {
  import opened Wrappers
  import opened JsString

  /** One `runCommand` call: its stdout (already normalised, `stdout || ""`), or
      the message of what it threw. */
  datatype Reply = Out(stdout: string) | Throw(message: string)

  datatype SandboxInfo = SandboxInfo(sandboxId: string, provider: string)

  /** What `getSandboxInfo()` gives: a value, possibly missing, or a thrown error. */
  datatype InfoReply = Info(info: Option<SandboxInfo>) | InfoThrow(message: string)

  /** The active provider as the routes use it. */
  datatype Provider = Provider(sandboxInfo: InfoReply, hasRunCommand: bool)

  const VercelDir := "/vercel/sandbox"
  const AppDir := "/home/user/app"
  const VercelTag := "vercel"

  /** The project directory inside the sandbox: the Vercel layout only when the
      provider says so; a missing info record falls back to the default. */
  function WorkDir(info: Option<SandboxInfo>): (dir: string)
    ensures dir == VercelDir <==> info.Some? && info.value.provider == VercelTag
    ensures dir == VercelDir || dir == AppDir
  {
    if info.Some? && info.value.provider == VercelTag then VercelDir else AppDir
  }

  /** Where the launched dev server's output goes and where the log probe reads it. */
  const ViteLog := "/tmp/vite.log"

  /** The dev server's port. */
  const DevPort := "5173"

  /** The tail of the launch command line after the directory. */
  const LaunchTail := " && nohup npm run dev > " + ViteLog + " 2>&1 &\""

  /** The shell commands the two routes issue. */
  datatype Command =
    | ProbeProcess
    | TailLogs
    | ProbePort
    | TestManifest(dir: string)
    | ReadManifest(dir: string)
    | TestNodeModules(dir: string)
    | DiskUsage
    | LaunchDev(dir: string)
  {
    /** The command line handed to `runCommand`. */
    function Text(): string
    {
      match this
      case ProbeProcess => "pgrep -f \"vite\" || echo \"not_running\""
      case TailLogs => "tail -n 50 " + ViteLog + " 2>/dev/null || echo \"no logs\""
      case ProbePort => "lsof -i :" + DevPort + " 2>/dev/null || echo \"port_free\""
      case TestManifest(d) => "test -f " + d + "/package.json && echo \"exists\" || echo \"missing\""
      case ReadManifest(d) => "cat " + d + "/package.json"
      case TestNodeModules(d) => "test -d " + d + "/node_modules && echo \"exists\" || echo \"missing\""
      case DiskUsage => "df -h / | tail -1"
      case LaunchDev(d) => "sh -c \"cd " + d + LaunchTail
    }

    /** Position of the constructor in the declaration. */
    function Kind(): nat
    {
      match this
      case ProbeProcess => 0
      case TailLogs => 1
      case ProbePort => 2
      case TestManifest(_) => 3
      case ReadManifest(_) => 4
      case TestNodeModules(_) => 5
      case DiskUsage => 6
      case LaunchDev(_) => 7
    }
  }

  /** Which command a command line is, read off its first, second and seventh
      characters. */
  function KindOf(t: string): nat
    requires |t| > 6
  {
    match t[0]
    case 'p' => 0
    case 'l' => 2
    case 'c' => 4
    case 'd' => 6
    case 's' => 7
    case _ => if t[1] == 'a' then 1 else if t[6] == 'f' then 3 else 5
  }

  /** Every command line is long enough to classify and classifies as its command. */
  lemma TextKind(c: Command)
    ensures |c.Text()| > 6 && KindOf(c.Text()) == c.Kind()
  {
    match c
    case TestManifest(d) =>
      assert c.Text()[..8] == "test -f ";
    case ReadManifest(d) =>
      assert c.Text()[..4] == "cat ";
    case TestNodeModules(d) =>
      assert c.Text()[..8] == "test -d ";
    case LaunchDev(d) =>
      assert c.Text()[..7] == "sh -c \"";
    case ProbeProcess =>
      assert c.Text()[0] == 'p';
    case TailLogs =>
      assert c.Text()[..2] == "ta";
    case ProbePort =>
      assert c.Text()[0] == 'l';
    case DiskUsage =>
      assert c.Text()[0] == 'd';
  }

  /** The directory in `prefix + dir + suffix` is determined by the whole line. */
  lemma DirCancel(prefix: string, x: string, y: string, suffix: string)
    ensures prefix + x + suffix == prefix + y + suffix ==> x == y
  {
    if prefix + x + suffix == prefix + y + suffix {
      assert x == (prefix + x + suffix)[|prefix|..|prefix| + |x|];
      assert y == (prefix + y + suffix)[|prefix|..|prefix| + |y|];
    }
  }

  /** Distinct commands hand distinct command lines to `runCommand`, so a trace of
      command lines and a trace of commands say the same thing. */
  lemma TextInjective(a: Command, b: Command)
    ensures a.Text() == b.Text() ==> a == b
  {
    TextKind(a);
    TextKind(b);
    if a.Text() == b.Text() {
      match a
      case TestManifest(d) =>
        DirCancel("test -f ", d, b.dir, "/package.json && echo \"exists\" || echo \"missing\"");
      case ReadManifest(d) =>
        DirCancel("cat ", d, b.dir, "/package.json");
      case TestNodeModules(d) =>
        DirCancel("test -d ", d, b.dir, "/node_modules && echo \"exists\" || echo \"missing\"");
      case LaunchDev(d) =>
        DirCancel("sh -c \"cd ", d, b.dir, LaunchTail);
      case _ =>
    }
  }

  /** The sentinel the process probe prints when `pgrep` finds nothing. */
  const NotRunning := "not_running"

  /** How both routes read the process probe's output. */
  predicate ReportsRunning(out: string)
  {
    !Contains(out, NotRunning) && |Trim(out)| > 0
  }

  /** The process probe reports a running dev server exactly when the sentinel
      occurs nowhere in its output and the output has a non-whitespace character. */
  lemma ReportsRunningIff(out: string)
    ensures ReportsRunning(out) <==>
              !Occurs(out, NotRunning) && exists k :: 0 <= k < |out| && !IsWs(out[k])
  {
    ContainsIff(out, NotRunning);
  }
}
