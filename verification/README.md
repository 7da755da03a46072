# Sandbox health routes and hero input: a Dafny model

This project models three small pure decision layers of a web front-end that drives a
remote development sandbox running a Vite dev server:

- **Diagnostics** (`GET /api/diagnose-vite`): six probes run shell commands in the
  sandbox. Each probe's output becomes a check record, or an `{error}` record when the
  command throws. A fixed, ordered list of six rules then derives the
  `recommendations`. Module `Diagnose`.
- **Keepalive** (`POST /api/sandbox-keepalive`): fetch the sandbox info, probe the
  dev-server process, and if it is down launch it once and probe again. The outcome is
  classified as 404, 200 or 410. Module `Keepalive`.
- **Hero input**: the `isURL` validator, and the rules for the link icon, the result
  tiles, the Enter key and the submit button. Modules `UrlPattern` and `HeroInput`.
  The rules take `showSearchFeatures` after its default is applied, so an omitted prop
  reads as `true` (components/HeroInput.tsx:26).

The remote shell is opaque. A command's reply is its normalised stdout text
(`Sandbox.Reply.Out`), or the message of the error it threw (`Sandbox.Reply.Throw`).
Module `Sandbox` holds what both routes share: the provider, the commands with their
exact command lines, the work-directory rule, and the "process is running" reading of
the probe output. Module `JsString` models JavaScript's `trim`, `includes` and
`substring(0, n)`. Its whitespace set is the full ECMAScript WhiteSpace plus
LineTerminator set.

The diagnostics route only reads from the sandbox. Its executor is therefore a total
function from command to reply. Each command carries the work directory it names, and
each command is issued at most once per request. The keepalive route changes the
sandbox: it launches the server and then probes a second time. Its executor is a
script, where the k-th reply answers the k-th command issued. `Keepalive.Post`
requires the script to hold at least three replies, which is the most commands one
invocation can issue. This is a property of the model's script, not a demand the route
makes. The method also returns the trace of commands it issued.

The URL validator is stated twice. `UrlPattern.Matches` reads the regular expression
declaratively: an optional scheme, one or more labels each followed by a dot, a TLD of
at least two ASCII letters, and an optional path that starts with `/` and has no line
terminator. `UrlPattern.Recognise` is a hand-written recogniser. It strips the scheme,
runs a three-field automaton over the host up to the first `/`, and checks the rest.
`UrlPattern.RecogniseCorrect` proves that the two agree on every string.

### Notable behaviour

- Keepalive launches the dev server in `/home/user/app` whatever the provider
  (app/api/sandbox-keepalive/route.ts:42). After the launch it waits once and probes
  once more (:45-50). There is no polling loop.
- Every 410 response carries `shouldRecreate: true` (app/api/sandbox-keepalive/route.ts:79).
  This includes the "Sandbox info unavailable" case thrown at :25.
- A re-probe that still finds no process throws "Failed to start Vite server" (:53).
  The catch at :58-60 wraps it, so the 410 error reads "Vite health check failed:
  Failed to start Vite server".
- The process probe tests whether the output contains `not_running`
  (app/api/diagnose-vite/route.ts:36, app/api/sandbox-keepalive/route.ts:35).
- Diagnostics has six rules (app/api/diagnose-vite/route.ts:167-204), and all six can
  fire together on one run: a throwing process probe and throwing directory tests,
  `EADDRINUSE` in the log and an empty port probe output (`Diagnose.SixRecommendations`).
- When `cat package.json` throws, the catch at app/api/diagnose-vite/route.ts:125-127
  replaces the `packageJson` record already built at :96-99. Both manifest
  recommendations then fire.
- Diagnostics calls `provider.runCommand` without checking that it exists
  (app/api/diagnose-vite/route.ts:27, 45, 66, 89, 137, 154). Without one, each call
  throws "provider.runCommand is not a function" and hands nothing to the sandbox. Each
  probe's catch turns that into an `{error}` record, and the route still answers 200
  with four recommendations (`Diagnose.NoRunner`). Keepalive checks for the runner
  first (app/api/sandbox-keepalive/route.ts:30).

## Model

| member | source | states |
|---|---|---|
| JsString.Trim | components/HeroInput.tsx:18 | `trim()` leaves the middle of the string framed by whitespace on both sides. Neither end of the result is whitespace. The result is empty exactly when the input is all whitespace. |
| JsString.TrimIdempotent | components/HeroInput.tsx:18 | Trimming a trimmed string changes nothing. |
| JsString.ContainsIff | app/api/diagnose-vite/route.ts:36 | `includes` is true exactly when the substring occurs at some position. |
| JsString.Take | app/api/diagnose-vite/route.ts:75 | `substring(0, n)` is the prefix of length `min(n, length)`. |
| Sandbox.WorkDir | app/api/diagnose-vite/route.ts:84-87 | The work directory is `/vercel/sandbox` exactly when the info exists and its provider tag is `"vercel"`. Otherwise it is `/home/user/app`. |
| Sandbox.ReportsRunningIff | app/api/sandbox-keepalive/route.ts:35 | The process probe reports "running" exactly when `not_running` occurs nowhere in the output and the output has a non-whitespace character. |
| Sandbox.TextInjective | app/api/diagnose-vite/route.ts:27-154 | Distinct commands have distinct command lines, the directory included. A trace of commands therefore names exactly the command lines handed to `runCommand`. |
| Diagnose.ClassifyProcess | app/api/diagnose-vite/route.ts:26-41 | A throw gives `{error}`. Otherwise `running` holds iff the sentinel is absent and the output is not blank. `pid` is null exactly for blank output. Otherwise it sits in the output with only whitespace on either side, and neither of its ends is whitespace, so it is the trimmed output. Running implies a pid. |
| Diagnose.ClassifyLogs | app/api/diagnose-vite/route.ts:44-62 | A throw gives `{error}` and no `hasErrors`. Otherwise the text is kept, and `hasErrors` holds iff one of `error`, `Error` or `EADDRINUSE` occurs in it. |
| Diagnose.ClassifyPort | app/api/diagnose-vite/route.ts:65-79 | A throw gives `{error}`. Otherwise `inUse` holds iff `port_free` does not occur. `details` is the output's prefix of length `min(200, length)`. |
| Diagnose.ClassifyPath | app/api/diagnose-vite/route.ts:96-99 | A throw gives `{error}`. Otherwise `exists` holds iff `exists` occurs in the output, and the given path is recorded. |
| Diagnose.ClassifyDisk | app/api/diagnose-vite/route.ts:153-162 | A throw gives `{error}`. Otherwise the usage line is the trimmed output. |
| Diagnose.ProcessProbe | app/api/diagnose-vite/route.ts:26-41 | The probe hands over the `pgrep` command only with a runner. With one, its record classifies the sandbox's reply. Without one, the record is `{error}` with "provider.runCommand is not a function". `running` holds iff there is a runner and its reply reports the process running. |
| Diagnose.LogProbe | app/api/diagnose-vite/route.ts:44-62 | The probe hands over the `tail` command only with a runner. With one, its record classifies the sandbox's reply, otherwise it is `{error}` with the TypeError text. `hasErrors` can hold only for a reply that did not throw. |
| Diagnose.PortProbe | app/api/diagnose-vite/route.ts:65-79 | The probe hands over the `lsof` command only with a runner. With one, its record classifies the sandbox's reply, otherwise it is `{error}` with the TypeError text. `inUse` holds iff there is a runner and its reply is output without `port_free`. |
| Diagnose.DiskProbe | app/api/diagnose-vite/route.ts:153-162 | The probe hands over the `df` command only with a runner. With one, its record classifies the sandbox's reply, otherwise it is `{error}` with the TypeError text. A usage record is the trimmed `df` output. |
| Diagnose.Call | app/api/diagnose-vite/route.ts:27-29 | With a runner, a call answers with the sandbox's reply, a thrown message included. Without one, it throws "provider.runCommand is not a function". A call throws exactly when there is no runner or the command itself throws. |
| Diagnose.ManifestProbe | app/api/diagnose-vite/route.ts:82-127 | A throwing info call gives `{error}` with its message, no content and no command. Otherwise the probe hands over `test -f` on the work directory. If the reply contains `exists`, it also hands over `cat` on the same directory. Without a runner it hands over nothing. Not found: the path record comes from the test reply, with no content. A throwing `cat` replaces the path record with `{error}`. A read gives `exists: true` at the work directory's `/package.json`. The content is `valid: true` with the parsed fields, or `valid: false` when parsing fails. |
| Diagnose.NodeModulesProbe | app/api/diagnose-vite/route.ts:130-150 | A throwing info call gives `{error}` with its message and no command. Otherwise the probe hands over `test -d` on the work directory, or nothing without a runner. A throwing test gives `{error}`. Otherwise `exists` holds iff the reply contains `exists`, at the work directory's `/node_modules`. |
| Diagnose.Recommend | app/api/diagnose-vite/route.ts:165-204 | A recommendation is present iff its rule fires. An error record reads as an unset field. The list is in rule order and has at most six entries. |
| Diagnose.Fires | app/api/diagnose-vite/route.ts:167-204 | An error record reads as an unset field under optional chaining: an errored process record fires the restart rule, an errored log record never fires the log rule, an errored port record or a running process never fires the port rule, an errored manifest record fires the "missing" rule, no content or unparseable content fires the "invalid" rule, and an errored `node_modules` record fires the install rule. |
| Diagnose.RecommendUnique | app/api/diagnose-vite/route.ts:165-204 | Any rule-ordered list of exactly the firing rules is the route's list, so the order is fixed. |
| Diagnose.Get | app/api/diagnose-vite/route.ts:8-209 | No provider gives 404 with `success: false`, the error "No active sandbox", and no command handed over. A 200 carries no error. Otherwise the result is 200 with the report of `Diagnose.Diagnose`. With a runner it hands `runCommand` 4 to 7 commands: the process, log and port probes first, the disk probe last, and never a launch. Without a runner it hands over none. The trace is exactly the one `Diagnose.Issued` describes. |
| Diagnose.Diagnose | app/api/diagnose-vite/route.ts:21-204 | The report holds every probe's record. Its recommendations are exactly the firing rules, in rule order, at most six. |
| Diagnose.Issued | app/api/diagnose-vite/route.ts:26-162 | The commands the probes hand to `runCommand`, in order. With a runner and sandbox info, they are `pgrep`, `tail`, `lsof`, `test -f` on the work directory's `package.json`, `cat` of that file only when the test printed `exists`, `test -d` on the work directory's `node_modules`, and `df`. With a runner and a throwing info call, they are just `pgrep`, `tail`, `lsof` and `df`. Without a runner there are none. None of them launches the server. |
| Diagnose.ThrowIsolated | app/api/diagnose-vite/route.ts:26-162 | When the process, log, port or disk command throws, only that probe's record becomes `{error}`. Every other record is unchanged. |
| Diagnose.ThrowIsolatedInWorkDir | app/api/diagnose-vite/route.ts:82-150 | When the manifest test throws, the record becomes `{error}` and there is no content record. A throwing `cat` does the same, but only if the manifest was found. A throwing `node_modules` test changes only its own record. |
| Diagnose.MissingManifestRecommendsBoth | app/api/diagnose-vite/route.ts:188-198 | A missing or errored manifest record means there is no content record, so the report recommends both "missing" and "invalid". |
| Diagnose.UnparseableManifest | app/api/diagnose-vite/route.ts:110-123 | Found but unparseable content gives `valid: false` in the report. Of the two manifest rules, only "invalid" fires. |
| Diagnose.ParsedManifest | app/api/diagnose-vite/route.ts:102-117 | A found manifest whose text parses gives `exists: true` at the work directory and `valid: true` with the parsed fields. Neither manifest rule fires. |
| Diagnose.NoRunner | app/api/diagnose-vite/route.ts:26-204 | Without a runner no command is handed over. The process, log, port and disk records carry "provider.runCommand is not a function". Both directory records carry that error, or the info call's error when it threw, and there is no content. The recommendations are exactly restart, manifest missing, manifest invalid and install dependencies, in that order. |
| Diagnose.RecommendationConditions | app/api/diagnose-vite/route.ts:167-186 | In the report, the port rule fires iff the port probe's output lacks `port_free` and the process probe does not report running. The log rule never fires when the log probe threw. The restart rule fires iff the process probe does not report running. |
| Diagnose.RulesFromReplies | app/api/diagnose-vite/route.ts:167-186 | The same three rules, stated on any check records classified from the given replies. |
| Diagnose.SixRecommendations | app/api/diagnose-vite/route.ts:165-204 | For any provider with a runner, the run whose process probe and directory tests throw, whose log reads `EADDRINUSE` and whose port probe prints nothing recommends all six rules, in rule order. |
| Diagnose.AddressInUseIsLogError | app/api/diagnose-vite/route.ts:55-59 | `EADDRINUSE` alone counts as a log error. |
| Keepalive.Post | app/api/sandbox-keepalive/route.ts:9-81 | No provider gives 404 with no commands. A thrown or missing info gives 410 with no commands. No runner gives 200 with `viteRunning=false` and no commands. Otherwise the trace is a prefix of probe, launch in `/home/user/app`, probe. A running first probe gives exactly one command and 200. A down first probe adds the launch, and the re-probe unless the launch throws. The re-probe decides 200 or 410 "Failed to start Vite server". Any thrown command is the last one and gives 410 with "Vite health check failed: " plus its message. A 200 with a runner has `viteRunning` true, backed by a probe that reported running. |
| Keepalive.MessageByStatus | app/api/sandbox-keepalive/route.ts:13-80 | Each status has its own message: two responses share a message exactly when they share a status. |
| UrlPattern.HostCorrect | components/HeroInput.tsx:17 | The host automaton accepts exactly `([a-zA-Z0-9-]+\.)+[a-zA-Z]{2,}`. |
| UrlPattern.RecogniseSound | components/HeroInput.tsx:17 | Whatever the recogniser accepts matches the pattern, split into scheme, host and path where the recogniser splits it. |
| UrlPattern.RecogniseComplete | components/HeroInput.tsx:17 | Every split of a string into scheme, host and path that fits the pattern leads the recogniser to accept it. |
| UrlPattern.RecogniseCorrect | components/HeroInput.tsx:17 | The recogniser accepts exactly the strings that match the anchored pattern. |
| UrlPattern.IsURL | components/HeroInput.tsx:15-19 | `isURL(s)` holds iff the trimmed string matches the anchored pattern, and only for a string that is not blank after trimming. |
| UrlPattern.IsURLTrimmed | components/HeroInput.tsx:18 | `isURL(s) == isURL(trim(s))`. |
| UrlPattern.ForeignAfterHostRejected | components/HeroInput.tsx:17 | After the scheme, a character that is not a label character, a dot or `/`, with no `/` before it, makes the string no URL. |
| UrlPattern.SchemeBeforeHost | components/HeroInput.tsx:17 | When a scheme (or none) is followed by a host and a `:`, the recogniser strips exactly that scheme. A host's own letters are never read as `http://`. |
| UrlPattern.PortRejected | components/HeroInput.tsx:17 | Any scheme, host and `:port` together, as in `example.com:80`, are rejected. |
| UrlPattern.UrlAccepted | components/HeroInput.tsx:17 | Any scheme, one label, a dot, a TLD of two or more letters and a path together, as in `https://example.com/path`, are accepted. |
| HeroInput.HandleKeyDown | components/HeroInput.tsx:50-55 | Enter without Shift prevents the default exactly once and then submits exactly once. Every other key press has no effect. |
| HeroInput.IsURLInput | components/HeroInput.tsx:33 | The link icon shows iff search features are on and the trimmed value matches the URL pattern. |
| HeroInput.ShowTiles | components/HeroInput.tsx:42-47 | The tiles show iff search features are on, the value has a non-whitespace character, the trimmed value does not match the URL pattern, and the field is focused. When they show, the link icon does not and submit is enabled. |
| HeroInput.SubmitDisabled | components/HeroInput.tsx:143 | The submit button is disabled iff every character of the value is whitespace. |
| HeroInput.NoSearchFeatures | components/HeroInput.tsx:33 | With search features off, the value is never a URL input and the tiles never show. |
| HeroInput.TilesAndLinkExclusive | components/HeroInput.tsx:33-47 | The tiles and the link icon never show together. A URL input always has submit enabled. |

## Left out

- Next.js response construction: responses are plain datatypes that carry a status and fields.
- `console` logging, timestamps and the 3-second sleep before the re-probe. None of them affects any decision.
- The provider lookup through `sandboxManager` and the `global.activeSandboxProvider` fallback is not part of this model. The provider is an optional input. If every thrown value is an `Error`, the outer 500 responses of both routes can only come from that lookup, so they are not modelled.
- Shell semantics of `pgrep`, `tail`, `lsof`, `test`, `cat` and `df`: outputs are arbitrary strings supplied by the executor.
- The function-or-value `stdout` accessor: replies hold the stdout already normalised to a string.
- `JSON.parse` and the reads of `devDependencies.vite`, `dependencies.react` and `scripts` from its result (app/api/diagnose-vite/route.ts:111-116): a parser oracle returns the parsed facts, or nothing whenever that code throws. It throws on invalid JSON, and also on the valid JSON text `null`, because `?.` guards `devDependencies` but not `pkg` itself, so `pkg.devDependencies` throws a `TypeError` inside the same `try`. Both cases give `valid: false` (:118-122). `scripts` is a map from string to string.
- Thrown values that are not `Error`s, whose `message` would be `undefined`: a throw always carries a message string.
- Rejections with `null` or `undefined`: reading `(e as Error).message` on them throws inside the catch block. In diagnostics (app/api/diagnose-vite/route.ts:40, 61, 78, 126, 149, 161) that ends in the outer 500 at :210-218. In keepalive a command that rejects with `null` gives a 410 whose error is that TypeError's message (app/api/sandbox-keepalive/route.ts:60, 72). A `null` thrown by `getSandboxInfo` ends in the outer 500 (:78, :83-89). The model's throws always carry a message string, so none of these paths is modelled.
- The sentences of the six recommendations: `Diagnose.Recommendation` names the rule, and each rule adds one fixed sentence.
- Diagnose.Get: `getSandboxInfo()` is called once for the manifest probe and once for the `node_modules` probe. The model gives both calls the same answer.
- Diagnose.ClassifyPort: `details` counts characters, while JavaScript's `substring` counts UTF-16 code units. The two differ only for characters outside the Basic Multilingual Plane.
- UrlPattern.IsURL: strings are sequences of code points, while the pattern runs over UTF-16 code units. Acceptance is the same: a character outside the Basic Multilingual Plane is two code units, neither of them a label character or a line terminator, so either reading rejects it in the host and accepts it in the path.
- React state, effects, textarea height adjustment, JSX/CSS rendering, and the icon component, which is pure SVG markup.
- Concurrency between invocations.
