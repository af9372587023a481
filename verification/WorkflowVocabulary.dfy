/**
 The vocabulary of the workflow updater: the step names, actions and bodies it
 knows, and the records it rewrites.  A step name or action the tool does not
 know is carried as its text.
 */
module WorkflowVocabulary {

  import opened Options
  import opened Texts

  /** A step name: one of the names the updater mentions, or any other text. */
  datatype Name =
    | WireJ1                      // Wire Probe (J1)
    | WireJ2                      // Wire Probe (J2)
    | WireT1                      // Wire Probe (T1)
    | WireC1                      // Wire Probe (C1)
    | WireC2                      // Wire Probe (C2)
    | WireC3                      // Wire Probe (C3)
    | WireV1                      // Wire Probe (V1)
    | WireP1                      // Wire Probe (P1)
    | WireSession                 // Wire Session Index (S1)
    | WireInvokerStart            // Wire Invoker (start)
    | WireInvokerStop             // Wire Invoker (stop)
    | WireGuardPre                // Wire Guard (pre)
    | WireGuardPost               // Wire Guard (post)
    | EnsureInvokerStart          // Ensure Invoker (start)
    | EnsureInvokerStop           // Ensure Invoker (stop)
    | UnblockGuard                // Runner Unblock Guard
    | UnblockGuardPreflight       // Runner Unblock Guard (preflight)
    | SessionPost                 // Session index post
    | SessionPostBestEffort       // Session index post (best-effort)
    | SessionPostSingle           // Session index post (single)
    | RunPesterCategory           // Run Pester tests via local dispatcher (category)
    | PesterSerial                // Pester categories (serial, deterministic)
    | AppendFinalSummary          // Append final summary (single)
    | SummarizeOrchestrated       // Summarize orchestrated run
    | HostedPreflight             // Verify Windows runner and idle LabVIEW (surface LVCompare notice)
    | HostedNotice                // Verify LVCompare and idle LabVIEW state (notice-only on hosted)
    | RerunMatrix                 // Re-run with same inputs
    | RerunSingle                 // Re-run with same inputs (single)
    | RunInteractivityProbe       // Run interactivity probe
    | InstallActionlint           // Install actionlint (retry)
    | RunActionlint               // Run actionlint
    | SetupNode                   // Setup Node with cache
    | InstallMarkdownlint         // Install markdownlint-cli (retry)
    | RunMarkdownlint             // Run markdownlint
    | RunMarkdownlintNonBlocking  // Run markdownlint (non-blocking)
    | RunMarkdownlintScoped       // Run markdownlint (scoped changed files)
    | NonLabviewChecks            // Non-LabVIEW checks (Docker)
    | ComputeDocsOnly             // Compute docs_only (force_run aware)
    | DetectDocsOnly              // Detect docs-only change
    | FixtureOrchestrator         // Fixture Drift Orchestrator
    | VerifyFixture               // Verify fixture vs LVCompare (notice-only)
    | LvGuardPre                  // LV Guard (pre)
    | LvGuardPost                 // LV Guard (post)
    | Warmup                      // LabVIEW warmup (best-effort)
    | Text(text: string)

  /** The actions under ./.github/actions/ that the updater writes. */
  datatype Action =
    | WireProbe           // wire-probe
    | WireSessionIndex    // wire-session-index
    | WireInvokerStarter  // wire-invoker-start
    | WireInvokerStopper  // wire-invoker-stop
    | WireGuardBefore     // wire-guard-pre
    | WireGuardAfter      // wire-guard-post
    | SessionIndexPost    // session-index-post
    | RunnerUnblockGuard  // runner-unblock-guard

  /** An action reference: actions/checkout@v5, actions/setup-node@v6, a local action, or any other text. */
  datatype Uses = Checkout5 | SetupNode6 | Local(action: Action) | Ref(text: string)

  /** Shell bodies are opaque; the updater only compares them. */
  datatype Body =
    | PreflightBody | NoticeBody | DocsOnlyBody | ProbeBody | RerunBody(single: bool)
    | InstallActionlintBody | RunActionlintBody | MarkdownlintBody | DriftGateBody | WarmupBody
    | OtherBody(text: string)

  /** A `run` value: its text, and whether it is written in literal block style. */
  datatype Run = Run(body: Body, literal: bool)

  /** Condition expressions are opaque as well. */
  datatype Condition =
    | ProbesEnabled     // vars.WIRE_PROBES != '0'
    | Always            // always()
    | ForceRunOff       // inputs.force_run != 'true'
    | SingleStrategy    // the single strategy was asked for
    | SingleWithProbe   // ... and the interactivity probe said ok
    | MatrixOrFallback  // matrix strategy, or single without an interactive runner
    | OtherCondition(text: string)

  /** The keys the updater writes into `with`, `env`, `outputs` and dispatch `inputs`. */
  datatype Key =
    | NodeVersion | Cache | Phase | ResultsDir | ValidateSchema | Upload | ArtifactName
    | SnapshotPath | Cleanup | ProcessNames | GhStrategy | GhInclude | GhSampleId
    | DefaultBranch | ActionlintVersion | DocsOnly | Ok | ForceRun
    | OtherKey(text: string)

  /** The values it writes there. */
  datatype Value =
    | Node20 | Npm | True | PhaseOf(name: Name)
    | DefaultResults    // tests/results
    | MatrixResults     // tests/results/${{ matrix.category }}
    | DriftResults      // results/fixture-drift
    | DriftArtifact     // fixture-drift-session-index
    | MatrixArtifact    // session-index-${{ matrix.category }}
    | PesterArtifact    // pester-integration-session-index
    | SmokeArtifact     // smoke-session-index
    | CompareArtifact   // compare-session-index
    | SnapshotIn(dir: Value)  // <dir>/runner-unblock-snapshot.json
    | LvGuardSnapshot   // results/fixture-drift/lv-guard-pre.json
    | WhenUnblockGuard  // env.UNBLOCK_GUARD == '1'
    | WhenCleanLv       // env.CLEAN_LV_BEFORE == 'true'
    | AllRunnerProcesses     // conhost,pwsh,LabVIEW,LVCompare
    | LabviewThenCompare     // LabVIEW,LVCompare
    | CompareThenLabview     // LVCompare,LabVIEW
    | StrategyInput | IncludeInput | SampleIdInput  // inputs.strategy, inputs.include_integration, inputs.sample_id
    | DefaultBranchValue     // the repository's default branch, however the event names it
    | ActionlintVersionValue // vars.ACTIONLINT_VERSION || '1.7.8'
    | OutDocsOnly | OutOk    // steps.out.outputs.docs_only, steps.out.outputs.ok
    | ForceRunChoice         // a true/false choice that defaults to 'false'
    | OtherValue(text: string)

  type Keys = map<Key, Value>

  /** A list entry of `steps`; an entry that is not a mapping is left alone everywhere. */
  datatype Step =
    | Step(name: Option<Name>, uses: Option<Uses>, id: Option<string>, cond: Option<Condition>,
           shell: Option<string>, run: Option<Run>, with: Option<Keys>, env: Option<Keys>,
           continueOnError: Option<string>, rest: string)
    | NotMapping(raw: string)

  datatype Needs = OneNeed(job: string) | ManyNeeds(jobs: seq<string>)
  /** A runner: windows-latest, the capability-ingress label set, or any other. */
  datatype RunsOn = WindowsLatest | CapabilityIngress | OtherRunner(text: string)

  /** A concurrency group: lv-fixture-win without cancelling, or any other. */
  datatype Concurrency = FixtureGroup | OtherConcurrency(text: string)

  /** A value of the `jobs` mapping; a value that is not a mapping is a NotJob. */
  datatype Node =
    | Job(uses: Option<string>, cond: Option<Condition>, needs: Option<Needs>, env: Option<Keys>,
          runsOn: Option<RunsOn>, timeout: Option<int>, outputs: Option<Keys>,
          concurrency: Option<Concurrency>, steps: Option<seq<Step>>, rest: string)
    | NotJob(raw: string)

  /** The `workflow_dispatch` trigger and its inputs, when present. */
  datatype Dispatch = NoDispatch | Dispatch(inputs: Option<Keys>)

  datatype Doc = Doc(name: string, dispatch: Dispatch, jobs: map<string, Node>, rest: string)

  /** The tests the updater makes on a step, each a lookup by name, id or uses. */
  datatype Selector =
    | Named(name: Name)
    | NamedEither(first: Name, second: Name)
    | WithId(id: string)
    | VerifyRunner       // name contains "Verify Windows runner"
    | CategorySummary    // trimmed name starts with "Summarize Pester categories"
    | Checkout           // uses starts with "actions/checkout@"
    | CheckoutAny        // uses starts with "actions/checkout"
    | UsesAction(action: Action)
    | PostsSessionIndex  // uses ends with "session-index-post"
    | GuardsRunner       // uses ends with "runner-unblock-guard"
    | DetectsDrift       // uses ends with "/fixture-drift"
    | PreInitGate        // id is "g" and uses ends with "pre-init-gate"

  predicate UsesPrefixed(u: Option<Uses>, prefix: string) {
    u.Some? && u.value.Ref? && HasPrefix(u.value.text, prefix)
  }

  predicate UsesSuffixed(u: Option<Uses>, suffix: string) {
    u.Some? && u.value.Ref? && HasSuffix(u.value.text, suffix)
  }

  predicate Is(st: Step, sel: Selector) {
    st.Step? &&
    match sel
    case Named(n) => st.name == Some(n)
    case NamedEither(a, b) => st.name == Some(a) || st.name == Some(b)
    case WithId(i) => st.id == Some(i)
    case VerifyRunner => st.name.Some? && NameVerifiesRunner(st.name.value)
    case CategorySummary => st.name.Some? && NameSummarizes(st.name.value)
    case Checkout => st.uses == Some(Checkout5) || UsesPrefixed(st.uses, "actions/checkout@")
    case CheckoutAny => st.uses == Some(Checkout5) || UsesPrefixed(st.uses, "actions/checkout")
    case UsesAction(a) => st.uses == Some(Local(a))
    case PostsSessionIndex => st.uses == Some(Local(SessionIndexPost)) || UsesSuffixed(st.uses, "session-index-post")
    case GuardsRunner => st.uses == Some(Local(RunnerUnblockGuard)) || UsesSuffixed(st.uses, "runner-unblock-guard")
    case DetectsDrift => UsesSuffixed(st.uses, "/fixture-drift")
    case PreInitGate => st.id == Some("g") && UsesSuffixed(st.uses, "pre-init-gate")
  }

  predicate NameVerifiesRunner(n: Name) {
    n.HostedPreflight? || (n.Text? && ContainsFrom(n.text, 0, "Verify Windows runner"))
  }

  predicate NameSummarizes(n: Name) {
    n.Text? && ReadsAt(n.text, Margin(n.text, 0), "Summarize Pester categories", 0)
  }
}
