/** The governed runtime loop: `RuntimeEngine.run` in `src/hpl/runtime/engine.py`.
    Handlers are an oracle: `handler(i)` is what the handler of step `i` returns when it is run. */
module Engine {
  import opened Text
  import opened ExecutionTokens
  import opened Contracts

  /** An `EffectResult`; `artifacts` holds the names its digests are filed under. */
  datatype Outcome = Outcome(ok: bool, reasons: seq<string>, artifacts: seq<string>)

  datatype Entry = Entry(stepId: string, effectType: string, ok: bool, reasons: seq<string>, artifacts: seq<string>)

  datatype Status = Completed | Denied

  datatype ConstraintWitness = ConstraintWitness(stage: string, reasons: seq<string>)

  /** `records` holds the stages of the witness records in the order they are emitted. */
  datatype RuntimeResult = RuntimeResult(status: Status, reasons: seq<string>, steps: seq<Step>, records: seq<string>,
                                         constraintWitnesses: seq<ConstraintWitness>, transcript: seq<Entry>)

  datatype Plan = Plan(status: string, steps: seq<Step>, token: Option<ExecutionToken>, registryEnforced: bool)

  /** One pass of the gate loop. */
  datatype Job = Job(steps: seq<Step>, contract: ExecutionContract, token: ExecutionToken, handler: nat -> Outcome)

  // ----- evidence roles

  /** An artifact is evidence for a role if its name, in any case of letters, contains the role; a gate
      certificate is an admissibility certificate. Only four roles can be supplied. */
  predicate Supplies(name: string, role: string) {
    && role in {"delta_s_report", "admissibility_certificate", "collapse_decision", "measurement_trace"}
    && (Contains(Lower(name), role)
        || (role == "admissibility_certificate" && Contains(Lower(name), "gate_certificate")))
  }

  /** The roles an artifact of this name is evidence for. */
  function RolesOfName(name: string): set<string> {
    var lowered := Lower(name);
    (if Contains(lowered, "delta_s_report") then {"delta_s_report"} else {})
    + (if Contains(lowered, "admissibility_certificate") || Contains(lowered, "gate_certificate")
       then {"admissibility_certificate"} else {})
    + (if Contains(lowered, "collapse_decision") then {"collapse_decision"} else {})
    + (if Contains(lowered, "measurement_trace") then {"measurement_trace"} else {})
  }

  function RolesOf(names: seq<string>): set<string> {
    if names == [] then {} else RolesOf(names[..|names| - 1]) + RolesOfName(names[|names| - 1])
  }

  lemma SuppliesMeans(name: string, role: string)
    ensures role in RolesOfName(name) <==> Supplies(name, role)
  {
    assert "delta_s_report"[0] == 'd' && "admissibility_certificate"[0] == 'a' && "collapse_decision"[0] == 'c'
           && "measurement_trace"[0] == 'm';
  }

  lemma {:induction false} RolesOfMembers(names: seq<string>, role: string)
    ensures role in RolesOf(names) <==> exists name :: name in names && Supplies(name, role)
  {
    if names != [] {
      var front, last := names[..|names| - 1], names[|names| - 1];
      RolesOfMembers(front, role);
      SuppliesMeans(last, role);
      assert names == front + [last];
    }
  }

  /** `_update_evidence_roles` */
  method UpdateEvidenceRoles(roles: set<string>, names: seq<string>) returns (r: set<string>)
    ensures r == roles + RolesOf(names)
    ensures forall role :: role in r <==> role in roles || exists name :: name in names && Supplies(name, role)
  {
    r := roles;
    for i := 0 to |names|
      invariant r == roles + RolesOf(names[..i])
    {
      assert names[..i + 1][..i] == names[..i];
      r := UpdateFromName(r, names[i]);
    }
    assert names[..|names|] == names;
    forall role ensures role in RolesOf(names) <==> exists name :: name in names && Supplies(name, role) {
      RolesOfMembers(names, role);
    }
  }

  method UpdateFromName(roles: set<string>, name: string) returns (r: set<string>)
    ensures r == roles + RolesOfName(name)
  {
    r := roles;
    var lowered := Lower(name);
    if Contains(lowered, "delta_s_report") { r := r + {"delta_s_report"}; }
    if Contains(lowered, "admissibility_certificate") || Contains(lowered, "gate_certificate") {
      r := r + {"admissibility_certificate"};
    }
    if Contains(lowered, "collapse_decision") { r := r + {"collapse_decision"}; }
    if Contains(lowered, "measurement_trace") { r := r + {"measurement_trace"}; }
  }

  // ----- the loop, stated without counters

  /** How many of the first `i` steps are of a kind. */
  function Count(kind: Step -> bool, steps: seq<Step>, i: nat): nat
    requires i <= |steps|
  {
    if i == 0 then 0 else Count(kind, steps, i - 1) + (if kind(steps[i - 1]) then 1 else 0)
  }

  function IsMeasurement(step: Step): bool {
    IsMeasurementEffect(EffectType(step))
  }

  function IsIo(step: Step): bool {
    RequiresIo(step)
  }

  function IsNet(step: Step): bool {
    RequiresNet(step)
  }

  /** The roles on record before step `i`, given that every earlier step was run. */
  function RolesBefore(job: Job, i: nat): set<string> {
    if i == 0 then {}
    else RolesBefore(job, i - 1) + (if job.handler(i - 1).ok then RolesOf(job.handler(i - 1).artifacts) else {})
  }

  function Lacking(roles: seq<string>, have: set<string>): seq<string> {
    if roles == [] then [] else (if roles[0] in have then [] else [roles[0]]) + Lacking(roles[1..], have)
  }

  function Join(items: seq<string>, separator: string): string {
    if items == [] then "" else if |items| == 1 then items[0] else items[0] + separator + Join(items[1..], separator)
  }

  function IoCalls(token: ExecutionToken): Option<int> {
    if token.ioPolicy.Some? then token.ioPolicy.value.budgetCalls else None
  }

  function NetCalls(token: ExecutionToken): Option<int> {
    if token.netPolicy.Some? then token.netPolicy.value.budgetCalls else None
  }

  datatype Gate = Open | Closed(stage: string, reasons: seq<string>)

  /** The three call budgets, each against the earlier steps of its kind. */
  function CallGate(job: Job, i: nat): Gate
    requires i < |job.steps|
  {
    var step, token := job.steps[i], job.token;
    if token.deltaSBudget != 0 && IsMeasurement(step)
       && Count(IsMeasurement, job.steps, i) >= token.deltaSBudget then
      Closed("delta_s_budget_denied", ["delta_s_budget_exceeded"])
    else if IoCalls(token).Some? && IsIo(step) && Count(IsIo, job.steps, i) >= IoCalls(token).value then
      Closed("io_budget_denied", ["IOBudgetExceeded"])
    else if NetCalls(token).Some? && IsNet(step) && Count(IsNet, job.steps, i) >= NetCalls(token).value then
      Closed("net_budget_denied", ["NETBudgetExceeded"])
    else Open
  }

  /** The engine's decision before running the handler of step `i`, given that steps `0..i` were run. */
  function GateAt(job: Job, i: nat): Gate
    requires i < |job.steps|
  {
    var step, token := job.steps[i], job.token;
    if i >= token.budgetSteps then Closed("budget_denied", ["budget_steps_exceeded"])
    else if CallGate(job, i).Closed? then CallGate(job, i)
    else if RequiresDeltaS(step, Some(token)) && Lacking(RequiredRoles(step), RolesBefore(job, i)) != [] then
      Closed("delta_s_gate_denied",
             ["delta_s_evidence_missing:" + Join(SortDistinct(Lacking(RequiredRoles(step), RolesBefore(job, i))), ",")])
    else if ContractErrors(job.contract, step, Some(token)) != [] then
      Closed("step_denied", ContractErrors(job.contract, step, Some(token)))
    else Open
  }

  /** A loop over `length` steps as its control flow sees it: a gate and an outcome for each index. */
  datatype Loop = Loop(length: nat, gate: nat -> Gate, outcome: nat -> Outcome)
  {
    /** A closed gate stops the loop, and so does a refusal that carries reasons. */
    predicate Stops(i: nat) {
      gate(i).Closed? || (!outcome(i).ok && outcome(i).reasons != [])
    }

    /** The loop stops at `k`: nothing before it stops the loop, and it does, or it is the end. */
    ghost predicate StopsFirstAt(k: nat) {
      k <= length && (forall j: nat :: j < k ==> !Stops(j)) && (k < length ==> Stops(k))
    }

    lemma {:induction false} SomeFirstStop(i: nat)
      requires i <= length && forall j: nat :: j < i ==> !Stops(j)
      ensures exists k :: StopsFirstAt(k)
      decreases length - i
    {
      if i < length && !Stops(i) { SomeFirstStop(i + 1); } else { assert StopsFirstAt(i); }
    }

    /** The least index that stops the loop, or the number of steps. */
    ghost function FirstStop(): (k: nat)
      ensures StopsFirstAt(k)
    {
      SomeFirstStop(0);
      var k :| StopsFirstAt(k);
      k
    }

    lemma FirstStopUnique(k: nat)
      requires StopsFirstAt(k)
      ensures FirstStop() == k
    {
      var f: nat := FirstStop();
      assert Stops(f) || f == length;
      assert Stops(k) || k == length;
    }

    /** How many handlers are run. */
    ghost function Ran(): (n: nat)
      ensures n <= length
    {
      if FirstStop() < length && gate(FirstStop()).Open? then FirstStop() + 1 else FirstStop()
    }

    ghost function StopReasons(): seq<string> {
      if FirstStop() == length then [] else
        match gate(FirstStop())
        case Open => outcome(FirstStop()).reasons
        case Closed(_, reasons) => reasons
    }

    /** One witness record for each handler run, and one more when a gate closed. */
    ghost function Records(): seq<string> {
      StepRecords(Ran())
      + if FirstStop() < length && gate(FirstStop()).Closed? then [gate(FirstStop()).stage] else []
    }

    function StepRecords(n: nat): seq<string> {
      seq(n, i requires 0 <= i < n => if outcome(i).ok then "step_ok" else "step_denied")
    }

    /** Where a loop that has not stopped before `n` stands. */
    lemma StopsHere(n: nat)
      requires n <= FirstStop()
      ensures n < length && !Stops(n) ==> n + 1 <= FirstStop()
      ensures n == length ==> Ran() == n && StopReasons() == [] && Records() == StepRecords(n)
      ensures n < length && gate(n).Closed? ==>
                && Ran() == n && StopReasons() == gate(n).reasons
                && Records() == StepRecords(n) + [gate(n).stage]
      ensures n < length && gate(n).Open? && Stops(n) ==>
                && Ran() == n + 1 && StopReasons() == outcome(n).reasons && Records() == StepRecords(n + 1)
    {
      var f := FirstStop();
      if n < f { assert !Stops(n); }
    }

    lemma OneMoreRecord(n: nat)
      ensures StepRecords(n + 1) == StepRecords(n) + [if outcome(n).ok then "step_ok" else "step_denied"]
    {}
  }

  ghost function LoopOf(job: Job): Loop {
    Loop(|job.steps|, (i: nat) => if i < |job.steps| then GateAt(job, i) else Open, job.handler)
  }

  function StepId(step: Step): string {
    if step.effectType.Missing? then Or(Or(step.operatorId, step.stepId), Str("step")).Text()
    else if step.stepId.Missing? then "" else step.stepId.Text()
  }

  function EntryAt(job: Job, i: nat): Entry
    requires i < |job.steps|
  {
    var step, outcome := job.steps[i], job.handler(i);
    Entry(StepId(step), if step.effectType.Missing? then "NOOP" else step.effectType.Text(),
          outcome.ok, outcome.reasons, outcome.artifacts)
  }

  function Entries(job: Job, n: nat): (r: seq<Entry>)
    requires n <= |job.steps|
  {
    seq(n, i requires 0 <= i < n => EntryAt(job, i))
  }

  lemma {:induction false} LackingMembers(roles: seq<string>, have: set<string>)
    ensures forall r :: r in Lacking(roles, have) <==> r in roles && r !in have
  {
    if roles != [] {
      assert roles == [roles[0]] + roles[1..];
      LackingMembers(roles[1..], have);
    }
  }

  lemma OneMoreEntry(job: Job, n: nat)
    requires n < |job.steps|
    ensures Entries(job, n + 1) == Entries(job, n) + [EntryAt(job, n)]
  {}

  // ----- the loop as it runs

  /** What is left of each budget; `None` when the budget is not in force. */
  datatype Counters = Counters(steps: int, deltaS: Option<int>, io: Option<int>, net: Option<int>)

  function Left(budget: Option<int>, used: nat): Option<int> {
    if budget.Some? then Some(budget.value - used) else None
  }

  function DeltaSBudget(token: ExecutionToken): Option<int> {
    if token.deltaSBudget != 0 then Some(token.deltaSBudget) else None
  }

  /** The counters after `i` gates were passed and `done` handlers were run. */
  function CountersAt(job: Job, i: nat, done: nat): Counters
    requires i <= |job.steps|
  {
    Counters(job.token.budgetSteps - done, Left(DeltaSBudget(job.token), Count(IsMeasurement, job.steps, i)),
             Left(IoCalls(job.token), Count(IsIo, job.steps, i)), Left(NetCalls(job.token), Count(IsNet, job.steps, i)))
  }

  /** The three call counters of a step, charged on the attempt. */
  method ChargeCalls(job: Job, i: nat, counters: Counters) returns (gate: Gate, left: Counters)
    requires i < |job.steps| && counters == CountersAt(job, i, i)
    ensures gate == CallGate(job, i)
    ensures gate.Open? ==> left == CountersAt(job, i + 1, i)
  {
    var step := job.steps[i];
    left := counters;
    if left.deltaS.Some? && IsMeasurementEffect(EffectType(step)) {
      if left.deltaS.value <= 0 {
        return Closed("delta_s_budget_denied", ["delta_s_budget_exceeded"]), left;
      }
      left := left.(deltaS := Some(left.deltaS.value - 1));
    }
    if left.io.Some? && RequiresIo(step) {
      if left.io.value <= 0 { return Closed("io_budget_denied", ["IOBudgetExceeded"]), left; }
      left := left.(io := Some(left.io.value - 1));
    }
    if left.net.Some? && RequiresNet(step) {
      if left.net.value <= 0 { return Closed("net_budget_denied", ["NETBudgetExceeded"]), left; }
      left := left.(net := Some(left.net.value - 1));
    }
    gate := Open;
  }

  /** Everything `run` checks between taking a step and calling its handler. */
  method PassGate(job: Job, i: nat, counters: Counters, roles: set<string>) returns (gate: Gate, left: Counters)
    requires i < |job.steps| && counters == CountersAt(job, i, i) && roles == RolesBefore(job, i)
    ensures gate == GateAt(job, i)
    ensures gate.Open? ==> left == CountersAt(job, i + 1, i)
  {
    var step := job.steps[i];
    if counters.steps <= 0 { return Closed("budget_denied", ["budget_steps_exceeded"]), counters; }
    gate, left := ChargeCalls(job, i, counters);
    if gate.Closed? { return; }
    if RequiresDeltaS(step, Some(job.token)) {
      var missing := SortDistinct(Lacking(RequiredRoles(step), roles));
      SortDistinctEmpty(Lacking(RequiredRoles(step), roles));
      if missing != [] {
        return Closed("delta_s_gate_denied", ["delta_s_evidence_missing:" + Join(missing, ",")]), left;
      }
    }
    var ok, errors := Preconditions(job.contract, step, Some(job.token));
    gate := if ok then Open else Closed("step_denied", errors);
  }

  lemma SortDistinctEmpty(s: seq<string>)
    ensures SortDistinct(s) == [] <==> s == []
  {
    SortDistinctCorrect(s);
    if s != [] { assert s[0] in SortDistinct(s); }
  }

  /** What the loop keeps before step `n`. */
  ghost predicate Running(job: Job, n: nat, counters: Counters, roles: set<string>, records: seq<string>,
                          transcript: seq<Entry>)
  {
    && n <= |job.steps| && n <= LoopOf(job).FirstStop()
    && counters == CountersAt(job, n, n) && roles == RolesBefore(job, n)
    && records == LoopOf(job).StepRecords(n) && transcript == Entries(job, n)
  }

  /** Runs the handler of a step and books its outcome. */
  method RunHandler(job: Job, n: nat, records: seq<string>, transcript: seq<Entry>, roles: set<string>)
    returns (reasons: seq<string>, records': seq<string>, transcript': seq<Entry>, roles': set<string>)
    requires n < |job.steps| && records == LoopOf(job).StepRecords(n) && transcript == Entries(job, n)
    requires roles == RolesBefore(job, n)
    ensures reasons == if job.handler(n).ok then [] else job.handler(n).reasons
    ensures records' == LoopOf(job).StepRecords(n + 1) && transcript' == Entries(job, n + 1)
    ensures roles' == RolesBefore(job, n + 1)
  {
    reasons, records', roles' := [], records, roles;
    var outcome := job.handler(n);
    if !outcome.ok {
      reasons := reasons + outcome.reasons;
      records' := records' + ["step_denied"];
    }
    if outcome.ok && reasons == [] { records' := records' + ["step_ok"]; }
    if outcome.ok { roles' := UpdateEvidenceRoles(roles, outcome.artifacts); }
    transcript' := transcript + [EntryAt(job, n)];
    LoopOf(job).OneMoreRecord(n);
    OneMoreEntry(job, n);
  }

  /** What the loop leaves behind. */
  ghost predicate Finished(job: Job, reasons: seq<string>, records: seq<string>, transcript: seq<Entry>) {
    && reasons == LoopOf(job).StopReasons() && records == LoopOf(job).Records()
    && transcript == Entries(job, LoopOf(job).Ran())
  }

  /** The loop body: gate, handler, bookkeeping; `stop` is a `break`. */
  method RunStep(job: Job, n: nat, counters: Counters, roles: set<string>, records: seq<string>,
                 transcript: seq<Entry>)
    returns (stop: bool, reasons: seq<string>, counters': Counters, roles': set<string>, records': seq<string>,
             transcript': seq<Entry>)
    requires n < |job.steps| && Running(job, n, counters, roles, records, transcript)
    ensures !stop ==> reasons == [] && Running(job, n + 1, counters', roles', records', transcript')
    ensures stop ==> Finished(job, reasons, records', transcript')
  {
    reasons, roles', records', transcript' := [], roles, records, transcript;
    LoopOf(job).StopsHere(n);
    var gate, left := PassGate(job, n, counters, roles);
    counters' := left;
    if gate.Closed? {
      reasons := reasons + gate.reasons;
      records' := records' + [gate.stage];
      stop := true;
      return;
    }
    reasons, records', transcript', roles' := RunHandler(job, n, records, transcript, roles);
    stop := reasons != [];
    if stop { return; }
    counters' := counters'.(steps := counters'.steps - 1);
  }

  /** The gate loop: counters charged at different points, a growing role set, and breaks. */
  method RunSteps(job: Job) returns (reasons: seq<string>, records: seq<string>, transcript: seq<Entry>)
    ensures reasons == LoopOf(job).StopReasons()
    ensures records == LoopOf(job).Records()
    ensures transcript == Entries(job, LoopOf(job).Ran())
  {
    var counters := Counters(job.token.budgetSteps, DeltaSBudget(job.token), IoCalls(job.token), NetCalls(job.token));
    var roles: set<string> := {};
    reasons, records, transcript := [], [], [];
    var n := 0;
    while n < |job.steps|
      invariant reasons == [] && Running(job, n, counters, roles, records, transcript)
    {
      var stop;
      stop, reasons, counters, roles, records, transcript := RunStep(job, n, counters, roles, records, transcript);
      if stop { return; }
      n := n + 1;
    }
    LoopOf(job).StopsHere(n);
  }

  // ----- the whole run

  /** The inputs of `run`. `verifyErrors` and `registryErrors` are what the epoch verification and the
      operator registry report when they are consulted. */
  datatype Request = Request(plan: Plan, ctxToken: Option<ExecutionToken>, contract: ExecutionContract,
                             verifyErrors: seq<string>, registryErrors: seq<string>, handler: nat -> Outcome)
  {
    /** `ctx.execution_token or _token_from_plan(plan)` */
    function Token(): Option<ExecutionToken> {
      if ctxToken.Some? then ctxToken else plan.token
    }

    predicate Verifies() {
      contract.requireEpochVerification || contract.requireSignatureVerification
    }

    /** The reasons collected before the loop. */
    function EarlyReasons(): seq<string> {
      (if Token().None? then ["execution token missing"] else [])
      + (if plan.status != "planned" then ["plan not approved"] else [])
      + (if Verifies() then verifyErrors else [])
      + (if plan.registryEnforced then registryErrors else [])
    }

    function EarlyRecords(): seq<string> {
      ["runtime_start"] + (if Verifies() then ["epoch_verification"] else [])
      + (if plan.registryEnforced && registryErrors != [] then ["operator_registry_denied"] else [])
    }

    /** The loop's job, once nothing was held against the plan before it. */
    function ToJob(): Job
      requires EarlyReasons() == []
    {
      Job(plan.steps, contract, Token().value, handler)
    }
  }

  /** The result assembled from the reasons, the records and the transcript. */
  function Report(reasons: seq<string>, steps: seq<Step>, records: seq<string>, transcript: seq<Entry>): RuntimeResult {
    RuntimeResult(if reasons == [] then Completed else Denied, reasons, steps, records + ["runtime_complete"],
                  if reasons == [] then [] else [ConstraintWitness("runtime_refusal", Sort(reasons))], transcript)
  }

  ghost function LoopReport(job: Job, early: seq<string>): RuntimeResult {
    Report(LoopOf(job).StopReasons(), job.steps, early + LoopOf(job).Records(), Entries(job, LoopOf(job).Ran()))
  }

  ghost function Expected(q: Request): RuntimeResult {
    if q.EarlyReasons() == [] then LoopReport(q.ToJob(), q.EarlyRecords())
    else Report(q.EarlyReasons(), [], q.EarlyRecords(), [])
  }

  /** The checks `run` makes before its loop. */
  method CheckEarly(q: Request) returns (reasons: seq<string>, records: seq<string>)
    ensures reasons == q.EarlyReasons() && records == q.EarlyRecords()
  {
    reasons, records := [], [];
    if q.Token().None? { reasons := reasons + ["execution token missing"]; }
    records := records + ["runtime_start"];
    if q.plan.status != "planned" { reasons := reasons + ["plan not approved"]; }
    if q.contract.requireEpochVerification || q.contract.requireSignatureVerification {
      reasons := reasons + q.verifyErrors;
      records := records + ["epoch_verification"];
    }
    if q.plan.registryEnforced && q.registryErrors != [] {
      reasons := reasons + q.registryErrors;
      records := records + ["operator_registry_denied"];
    }
  }

  /** The verdict `run` reaches after its loop. */
  method Conclude(reasons: seq<string>, steps: seq<Step>, records: seq<string>, transcript: seq<Entry>)
    returns (r: RuntimeResult)
    ensures r == Report(reasons, steps, records, transcript)
  {
    var witnesses: seq<ConstraintWitness> := [];
    var status := if reasons == [] then Completed else Denied;
    if status == Denied { witnesses := witnesses + [ConstraintWitness("runtime_refusal", Sort(reasons))]; }
    r := RuntimeResult(status, reasons, steps, records + ["runtime_complete"], witnesses, transcript);
  }

  /** `RuntimeEngine.run` */
  method Run(q: Request) returns (r: RuntimeResult)
    ensures r == Expected(q)
  {
    var reasons, records := CheckEarly(q);
    var steps, transcript := q.plan.steps, [];
    if reasons != [] {
      steps := [];
    } else {
      var loopRecords;
      reasons, loopRecords, transcript := RunSteps(q.ToJob());
      records := records + loopRecords;
    }
    r := Conclude(reasons, steps, records, transcript);
  }
}
