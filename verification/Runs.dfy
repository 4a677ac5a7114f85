/** What holds of every run of the governed runtime loop, and of pairs of runs. */
module Runs {
  import opened Text
  import opened ExecutionTokens
  import opened Contracts
  import opened Engine
  import opened Handlers

  // ----- what a step is charged for and what it demands, read off its entries

  /** A measurement by the effect type the engine looks at. */
  predicate IsMeasuring(step: Step) {
    Measures(if step.effectType == Missing then "" else Shown(step.effectType))
  }

  predicate CallsIo(step: Step) {
    step.needs.Some? && (!Falsy(step.needs.value.ioScope) || !Falsy(step.needs.value.ioScopes)
                         || !Falsy(step.needs.value.ioEndpoint))
  }

  predicate CallsNet(step: Step) {
    step.needs.Some? && (!Falsy(step.needs.value.netCap) || !Falsy(step.needs.value.netCaps)
                         || !Falsy(step.needs.value.netEndpoint))
  }

  predicate Irreversible(step: Step, token: ExecutionToken) {
    token.collapseRequiresDeltaS && step.needs.Some? && !Falsy(step.needs.value.irreversible)
  }

  /** The evidence an irreversible step demands: what it lists, or the three roles of a collapse. */
  predicate Demands(step: Step, role: string) {
    if step.needs.Some? && step.needs.value.requiredRoles.List? && step.needs.value.requiredRoles.items != [] then
      role in step.needs.value.requiredRoles.items
    else role in {"delta_s_report", "admissibility_certificate", "collapse_decision"}
  }

  lemma ChargesMean(step: Step)
    ensures IsMeasurement(step) <==> IsMeasuring(step)
    ensures IsIo(step) <==> CallsIo(step)
    ensures IsNet(step) <==> CallsNet(step)
  {
    TruthMeans(step.effectType);
    MeasurementMeans(EffectType(step));
    var r := RequiresOf(step);
    TruthMeans(r.ioScope);
    TruthMeans(r.ioScopes);
    TruthMeans(r.ioEndpoint);
    TruthMeans(r.netCap);
    TruthMeans(r.netCaps);
    TruthMeans(r.netEndpoint);
  }

  lemma DemandsMean(step: Step, token: ExecutionToken)
    ensures RequiresDeltaS(step, Some(token)) <==> Irreversible(step, token)
    ensures forall role :: role in RequiredRoles(step) <==> Demands(step, role)
  {
    TruthMeans(RequiresOf(step).irreversible);
  }

  /** The earlier steps of a kind. */
  ghost function Earlier(kind: Step -> bool, steps: seq<Step>, i: nat): set<int>
    requires i <= |steps|
  {
    set j | 0 <= j < i && kind(steps[j])
  }

  /** The engine's counters count them. */
  lemma {:induction false} CountMeans(kind: Step -> bool, meaning: Step -> bool, steps: seq<Step>, i: nat)
    requires i <= |steps| && forall s :: kind(s) <==> meaning(s)
    ensures Count(kind, steps, i) == |Earlier(meaning, steps, i)|
  {
    if i == 0 {
      assert Earlier(meaning, steps, i) == {};
    } else {
      CountMeans(kind, meaning, steps, i - 1);
      var before := Earlier(meaning, steps, i - 1);
      assert Earlier(meaning, steps, i) == before + if meaning(steps[i - 1]) then {i - 1} else {};
    }
  }

  // ----- what a stopping index means

  /** Some earlier step succeeded and left an artifact that is evidence for the role. */
  ghost predicate Evidenced(job: Job, i: nat, role: string) {
    exists j: nat, name :: j < i && job.handler(j).ok && name in job.handler(j).artifacts && Supplies(name, role)
  }

  predicate OverSteps(job: Job, i: nat) {
    i >= job.token.budgetSteps
  }

  /** A delta-S budget of 0 is no budget. */
  ghost predicate OverDeltaS(job: Job, i: nat)
    requires i < |job.steps|
  {
    && job.token.deltaSBudget != 0 && IsMeasuring(job.steps[i])
    && |Earlier(IsMeasuring, job.steps, i)| >= job.token.deltaSBudget
  }

  /** A call budget of 0 allows no call. */
  ghost predicate OverIo(job: Job, i: nat)
    requires i < |job.steps|
  {
    && job.token.ioPolicy.Some? && job.token.ioPolicy.value.budgetCalls.Some? && CallsIo(job.steps[i])
    && |Earlier(CallsIo, job.steps, i)| >= job.token.ioPolicy.value.budgetCalls.value
  }

  ghost predicate OverNet(job: Job, i: nat)
    requires i < |job.steps|
  {
    && job.token.netPolicy.Some? && job.token.netPolicy.value.budgetCalls.Some? && CallsNet(job.steps[i])
    && |Earlier(CallsNet, job.steps, i)| >= job.token.netPolicy.value.budgetCalls.value
  }

  ghost predicate OverCalls(job: Job, i: nat)
    requires i < |job.steps|
  {
    OverDeltaS(job, i) || OverIo(job, i) || OverNet(job, i)
  }

  ghost predicate LacksEvidence(job: Job, i: nat)
    requires i < |job.steps|
  {
    Irreversible(job.steps[i], job.token) && exists role :: Demands(job.steps[i], role) && !Evidenced(job, i, role)
  }

  /** The reasons not to run the handler of step `i`, independent of counters and of the order of the checks. */
  ghost predicate Barred(job: Job, i: nat)
    requires i < |job.steps|
  {
    OverSteps(job, i) || OverCalls(job, i) || LacksEvidence(job, i)
    || !Permitted(job.contract, job.steps[i], Some(job.token))
  }

  /** The reasons not to go past step `i`: it is barred, or its handler refuses and says why. */
  ghost predicate MustStop(job: Job, i: nat)
    requires i < |job.steps|
  {
    Barred(job, i) || (!job.handler(i).ok && job.handler(i).reasons != [])
  }

  /** The role set the loop grows holds exactly what the earlier successful steps are evidence for. */
  lemma {:induction false} RolesBeforeMeans(job: Job, i: nat, role: string)
    ensures role in RolesBefore(job, i) <==> Evidenced(job, i, role)
  {
    if i > 0 {
      RolesBeforeMeans(job, i - 1, role);
      RolesOfMembers(job.handler(i - 1).artifacts, role);
      if Evidenced(job, i, role) {
        var j: nat, name :| j < i && job.handler(j).ok && name in job.handler(j).artifacts && Supplies(name, role);
        if j < i - 1 { assert Evidenced(job, i - 1, role); }
      }
      if Evidenced(job, i - 1, role) {
        var j: nat, name :|
          j < i - 1 && job.handler(j).ok && name in job.handler(j).artifacts && Supplies(name, role);
        assert Evidenced(job, i, role);
      }
    }
  }

  lemma LackingMeans(job: Job, i: nat)
    requires i < |job.steps|
    ensures forall role :: role in Lacking(RequiredRoles(job.steps[i]), RolesBefore(job, i)) <==>
                             Demands(job.steps[i], role) && !Evidenced(job, i, role)
    ensures RequiresDeltaS(job.steps[i], Some(job.token))
            && Lacking(RequiredRoles(job.steps[i]), RolesBefore(job, i)) != []
            <==> LacksEvidence(job, i)
  {
    var roles := RequiredRoles(job.steps[i]);
    var lacking := Lacking(roles, RolesBefore(job, i));
    DemandsMean(job.steps[i], job.token);
    LackingMembers(roles, RolesBefore(job, i));
    forall role ensures role in RolesBefore(job, i) <==> Evidenced(job, i, role) { RolesBeforeMeans(job, i, role); }
    if lacking != [] { assert lacking[0] in lacking; }
  }

  /** What a gate that closes says, in the order of the checks. */
  ghost predicate Says(gate: Gate, job: Job, i: nat)
    requires i < |job.steps| && gate.Closed?
  {
    if OverSteps(job, i) then gate == Closed("budget_denied", ["budget_steps_exceeded"])
    else if OverDeltaS(job, i) then gate == Closed("delta_s_budget_denied", ["delta_s_budget_exceeded"])
    else if OverIo(job, i) then gate == Closed("io_budget_denied", ["IOBudgetExceeded"])
    else if OverNet(job, i) then gate == Closed("net_budget_denied", ["NETBudgetExceeded"])
    else if LacksEvidence(job, i) then
      gate.stage == "delta_s_gate_denied" && exists missing :: EvidenceMissing(job, i, missing, gate.reasons)
    else gate == Closed("step_denied", ContractErrors(job.contract, job.steps[i], Some(job.token)))
  }

  /** The one reason lists, sorted and without repetition, the roles that are demanded and not supplied. */
  ghost predicate EvidenceMissing(job: Job, i: nat, missing: seq<string>, reasons: seq<string>)
    requires i < |job.steps|
  {
    && StrictlySorted(missing)
    && (forall role :: role in missing <==> Demands(job.steps[i], role) && !Evidenced(job, i, role))
    && reasons == ["delta_s_evidence_missing:" + Join(missing, ",")]
  }

  lemma JoinRest(items: seq<string>, separator: string)
    requires |items| > 1
    ensures Join(items, separator) == items[0] + separator + Join(items[1..], separator)
  {}

  lemma Regroup(a: string, b: string, c: string, d: string, e: string)
    ensures a + b + (c + d + e) == a + b + c + d + e
  {}

  /** Joining puts the separator between the items. */
  lemma {:induction false} JoinMeans(front: seq<string>, last: string, separator: string)
    ensures Join(front + [last], separator) == if front == [] then last else Join(front, separator) + separator + last
  {
    if front != [] {
      var items, rest := front + [last], Join(front[1..], separator);
      assert items[1..] == front[1..] + [last];
      JoinRest(items, separator);
      JoinMeans(front[1..], last, separator);
      if |front| > 1 {
        JoinRest(front, separator);
        Regroup(front[0], separator, rest, separator, last);
      }
    }
  }

  lemma CallGateMeans(job: Job, i: nat)
    requires i < |job.steps|
    ensures CallGate(job, i).Closed? <==> OverCalls(job, i)
    ensures OverDeltaS(job, i) ==> CallGate(job, i) == Closed("delta_s_budget_denied", ["delta_s_budget_exceeded"])
    ensures !OverDeltaS(job, i) && OverIo(job, i) ==>
              CallGate(job, i) == Closed("io_budget_denied", ["IOBudgetExceeded"])
    ensures !OverDeltaS(job, i) && !OverIo(job, i) && OverNet(job, i) ==>
              CallGate(job, i) == Closed("net_budget_denied", ["NETBudgetExceeded"])
  {
    forall s: Step
      ensures IsMeasurement(s) <==> IsMeasuring(s)
      ensures IsIo(s) <==> CallsIo(s)
      ensures IsNet(s) <==> CallsNet(s)
    {
      ChargesMean(s);
    }
    CountMeans(IsMeasurement, IsMeasuring, job.steps, i);
    CountMeans(IsIo, CallsIo, job.steps, i);
    CountMeans(IsNet, CallsNet, job.steps, i);
  }

  lemma EvidenceGateSays(job: Job, i: nat)
    requires i < |job.steps| && LacksEvidence(job, i)
    ensures var missing := SortDistinct(Lacking(RequiredRoles(job.steps[i]), RolesBefore(job, i)));
            EvidenceMissing(job, i, missing, ["delta_s_evidence_missing:" + Join(missing, ",")])
  {
    LackingMeans(job, i);
    SortDistinctCorrect(Lacking(RequiredRoles(job.steps[i]), RolesBefore(job, i)));
  }

  /** The gate closes, and the loop stops, exactly for the declared reasons. */
  lemma GateMeaning(job: Job, i: nat)
    requires i < |job.steps|
    ensures GateAt(job, i).Closed? <==> Barred(job, i)
    ensures GateAt(job, i).Closed? ==> Says(GateAt(job, i), job, i)
    ensures LoopOf(job).gate(i) == GateAt(job, i)
    ensures LoopOf(job).Stops(i) <==> MustStop(job, i)
  {
    CallGateMeans(job, i);
    LackingMeans(job, i);
    if LacksEvidence(job, i) { EvidenceGateSays(job, i); }
    NoErrorsMeansPermitted(job.contract, job.steps[i], Some(job.token));
  }

  /** The transcript entry of a step, read off the step and its handler's outcome. */
  predicate Records(e: Entry, step: Step, outcome: Outcome) {
    && e.ok == outcome.ok && e.reasons == outcome.reasons && e.artifacts == outcome.artifacts
    && if step.effectType == Missing then
         && e.effectType == "NOOP"
         && e.stepId == if !Falsy(step.operatorId) then Shown(step.operatorId)
                        else if !Falsy(step.stepId) then Shown(step.stepId)
                        else "step"
       else
         && e.effectType == Shown(step.effectType)
         && e.stepId == if step.stepId == Missing then "" else Shown(step.stepId)
  }

  /** The first `n` steps were run, and are on record. */
  ghost predicate Recorded(q: Request, transcript: seq<Entry>, n: nat) {
    && |transcript| == n <= |q.plan.steps|
    && forall i: nat :: i < n ==> Records(transcript[i], q.plan.steps[i], q.handler(i))
  }

  lemma EntriesRecorded(q: Request, n: nat)
    requires q.EarlyReasons() == [] && n <= |q.plan.steps|
    ensures Recorded(q, Entries(q.ToJob(), n), n)
  {
    forall i: nat | i < n ensures Records(Entries(q.ToJob(), n)[i], q.plan.steps[i], q.handler(i)) {
      var step := q.plan.steps[i];
      TruthMeans(step.effectType);
      TruthMeans(step.operatorId);
      TruthMeans(step.stepId);
    }
  }

  /** A stage for each entry. */
  function Stages(transcript: seq<Entry>): seq<string> {
    seq(|transcript|, i requires 0 <= i < |transcript| => if transcript[i].ok then "step_ok" else "step_denied")
  }

  /** The stages of the witness records: those before the loop, one for each entry, and the gate that closed. */
  ghost predicate Witnessed(q: Request, r: RuntimeResult, closed: seq<string>) {
    r.records == ["runtime_start"]
                 + (if q.contract.requireEpochVerification || q.contract.requireSignatureVerification
                    then ["epoch_verification"] else [])
                 + (if q.plan.registryEnforced && q.registryErrors != [] then ["operator_registry_denied"] else [])
                 + Stages(r.transcript) + closed + ["runtime_complete"]
  }

  lemma StagesOfEntries(job: Job, n: nat)
    requires n <= |job.steps|
    ensures LoopOf(job).StepRecords(n) == Stages(Entries(job, n))
  {}

  /** The stage of the gate that closed, if one did. */
  ghost function ClosedStage(loop: Loop): seq<string> {
    if loop.FirstStop() < loop.length && loop.gate(loop.FirstStop()).Closed? then [loop.gate(loop.FirstStop()).stage]
    else []
  }

  lemma RunsWitnessed(q: Request)
    ensures Witnessed(q, Expected(q), if q.EarlyReasons() == [] then ClosedStage(LoopOf(q.ToJob())) else [])
  {
    if q.EarlyReasons() == [] {
      var loop := LoopOf(q.ToJob());
      StagesOfEntries(q.ToJob(), loop.Ran());
      var early, steps, closed := q.EarlyRecords(), loop.StepRecords(loop.Ran()), ClosedStage(loop);
      assert loop.Records() == steps + closed;
      assert early + (steps + closed) + ["runtime_complete"] == early + steps + closed + ["runtime_complete"];
    } else {
      assert Stages([]) == [];
    }
  }

  /** The meaning of a run nothing was held against beforehand: it goes exactly up to the least index
      that has a reason to stop. It is completed if there is none; otherwise it is denied, for what the closed
      gate or the handler says, and the stopping step is in the transcript exactly when its own handler refused. */
  lemma RunMeaning(q: Request, k: nat)
    requires q.EarlyReasons() == [] && k <= |q.plan.steps|
    requires forall i: nat :: i < k ==> !MustStop(q.ToJob(), i)
    requires k < |q.plan.steps| ==> MustStop(q.ToJob(), k)
    ensures var r, job := Expected(q), q.ToJob();
            && (k == |job.steps| ==> r.reasons == [] && Recorded(q, r.transcript, k) && Witnessed(q, r, []))
            && (k < |job.steps| && Barred(job, k) ==>
                  && Recorded(q, r.transcript, k)
                  && exists stage :: Says(Closed(stage, r.reasons), job, k) && Witnessed(q, r, [stage]))
            && (k < |job.steps| && !Barred(job, k) ==>
                  r.reasons == job.handler(k).reasons && Recorded(q, r.transcript, k + 1) && Witnessed(q, r, []))
            && (r.status == Completed <==> k == |job.steps|)
  {
    var job := q.ToJob();
    var loop := LoopOf(job);
    forall i: nat | i < k ensures !loop.Stops(i) { GateMeaning(job, i); }
    if k < |job.steps| { GateMeaning(job, k); ClosedHasReasons(job, k); }
    loop.FirstStopUnique(k);
    RunsWitnessed(q);
    EntriesRecorded(q, loop.Ran());
    if k < |job.steps| && Barred(job, k) {
      assert Says(Closed(GateAt(job, k).stage, Expected(q).reasons), job, k);
    }
  }

  lemma ClosedHasReasons(job: Job, i: nat)
    requires i < |job.steps|
    ensures GateAt(job, i).Closed? ==> GateAt(job, i).reasons != [] && GateAt(job, i).stage != "step_ok"
  {
    assert "step_ok"[0] == 's' && "step_ok"[5] == 'o' && "step_denied"[5] == 'd';
  }

  // ----- pairs of runs

  /** The same plan, handlers and reports, run under a wider token and contract. */
  ghost predicate RequestWidens(q: Request, q': Request) {
    && q'.plan.(token := None) == q.plan.(token := None)
    && q'.handler == q.handler && q'.verifyErrors == q.verifyErrors && q'.registryErrors == q.registryErrors
    && q'.Verifies() == q.Verifies() && ContractWidens(q.contract, q'.contract)
    && q.Token().Some? && q'.Token().Some? && TokenWidens(q.Token().value, q'.Token().value)
  }

  /** A gate a narrower grant opens, a wider one opens. */
  lemma WideningOpens(job: Job, job': Job, i: nat)
    requires job'.steps == job.steps && job'.handler == job.handler && i < |job.steps|
    requires TokenWidens(job.token, job'.token) && ContractWidens(job.contract, job'.contract)
    requires !Barred(job, i)
    ensures !Barred(job', i)
  {
    WideningPermits(job.contract, job'.contract, job.steps[i], job.token, job'.token);
    var token, token' := job.token, job'.token;
    if Irreversible(job.steps[i], token') {
      forall role | Demands(job.steps[i], role) ensures Evidenced(job', i, role) {
        assert Evidenced(job, i, role);
        var j: nat, name :| j < i && job.handler(j).ok && name in job.handler(j).artifacts && Supplies(name, role);
      }
    }
  }

  /** A loop whose gates are open wherever another's are runs at least as far on the same outcomes. */
  lemma OpenerLoopRunsFurther(l: Loop, l': Loop)
    requires l'.length == l.length && l'.outcome == l.outcome
    requires forall i: nat :: i < l.length && l.gate(i).Open? ==> l'.gate(i).Open?
    ensures l.Ran() <= l'.Ran()
    ensures l.FirstStop() == l.length ==> l'.FirstStop() == l.length
  {
    var f, f' := l.FirstStop(), l'.FirstStop();
    assert l.Stops(f') || !l.Stops(f');
    assert l'.Stops(f) || !l'.Stops(f);
  }

  lemma EntriesPrefix(job: Job, job': Job, n: nat, n': nat)
    requires job'.steps == job.steps && job'.handler == job.handler && n <= n' <= |job.steps|
    ensures Entries(job, n) <= Entries(job', n')
  {}

  /** Raising budgets and widening the token or the contract never shortens a run: the narrower run's
      transcript is a prefix of the wider run's, and a completed run stays completed. */
  lemma WideningNeverShortens(q: Request, q': Request)
    requires RequestWidens(q, q')
    ensures Expected(q).transcript <= Expected(q').transcript
    ensures Expected(q).status == Completed ==>
              Expected(q').status == Completed && Expected(q').transcript == Expected(q).transcript
  {
    assert q'.EarlyReasons() == q.EarlyReasons();
    if q.EarlyReasons() == [] {
      var job, job' := q.ToJob(), q'.ToJob();
      var loop, loop' := LoopOf(job), LoopOf(job');
      forall i: nat | i < |job.steps| && loop.gate(i).Open? ensures loop'.gate(i).Open? {
        GateMeaning(job, i);
        WideningOpens(job, job', i);
        GateMeaning(job', i);
      }
      OpenerLoopRunsFurther(loop, loop');
      EntriesPrefix(job, job', loop.Ran(), loop'.Ran());
      EntriesPrefix(job', job, |job.steps|, |job.steps|);
      CompletedMeansNoStop(job);
      CompletedMeansNoStop(job');
    }
  }

  lemma CompletedMeansNoStop(job: Job)
    ensures LoopOf(job).StopReasons() == [] <==> LoopOf(job).FirstStop() == |job.steps|
  {
    var k := LoopOf(job).FirstStop();
    if k < |job.steps| { GateMeaning(job, k); ClosedHasReasons(job, k); }
  }

  // ----- safety over every run

  /** The handlers a run calls are those of steps that were not barred. */
  lemma RanUnbarred(q: Request, i: nat)
    requires q.EarlyReasons() == [] && i < |Expected(q).transcript|
    ensures i < |q.plan.steps| && !Barred(q.ToJob(), i)
    ensures Expected(q).transcript[i] == EntryAt(q.ToJob(), i)
  {
    var loop := LoopOf(q.ToJob());
    assert |Expected(q).transcript| == loop.Ran();
    UnstoppedGateOpen(loop, i);
    GateMeaning(q.ToJob(), i);
  }

  lemma UnstoppedGateOpen(loop: Loop, i: nat)
    requires i < loop.Ran()
    ensures loop.gate(i).Open?
  {
    if i < loop.FirstStop() { assert !loop.Stops(i); }
  }

  /** An entry of the transcript succeeded and left an artifact whose name supplies the role. */
  ghost predicate Supplied(transcript: seq<Entry>, i: nat, role: string) {
    exists j: nat, name :: && j < i && j < |transcript| && transcript[j].ok
                           && name in transcript[j].artifacts && Supplies(name, role)
  }

  lemma EvidenceInTranscript(q: Request, i: nat, role: string)
    requires q.EarlyReasons() == [] && i <= |Expected(q).transcript|
    ensures Evidenced(q.ToJob(), i, role) <==> Supplied(Expected(q).transcript, i, role)
  {
    var job, transcript := q.ToJob(), Expected(q).transcript;
    forall j: nat | j < i
      ensures transcript[j].ok == job.handler(j).ok && transcript[j].artifacts == job.handler(j).artifacts
    {
      RanUnbarred(q, j);
    }
    if Evidenced(job, i, role) {
      var j: nat, name :| j < i && job.handler(j).ok && name in job.handler(j).artifacts && Supplies(name, role);
      assert transcript[j].ok && name in transcript[j].artifacts;
    }
    if Supplied(transcript, i, role) {
      var j: nat, name :| && j < i && j < |transcript| && transcript[j].ok
                          && name in transcript[j].artifacts && Supplies(name, role);
      assert job.handler(j).ok && name in job.handler(j).artifacts;
    }
  }

  /** No irreversible step runs before its evidence: each role it demands was supplied by an artifact of an
      earlier successful step of the same run, and is one of the four roles that can be supplied. */
  lemma EvidenceBeforeIrreversible(q: Request, i: nat, role: string)
    requires q.EarlyReasons() == [] && i < |Expected(q).transcript|
    requires i < |q.plan.steps| && q.Token().Some? && Irreversible(q.plan.steps[i], q.Token().value)
    requires Demands(q.plan.steps[i], role)
    ensures Supplied(Expected(q).transcript, i, role)
    ensures role in {"delta_s_report", "admissibility_certificate", "collapse_decision", "measurement_trace"}
  {
    RanUnbarred(q, i);
    assert Evidenced(q.ToJob(), i, role);
    EvidenceInTranscript(q, i, role);
  }

  /** The loop went on after the last entry: its handler succeeded or gave no reason. */
  predicate WentOn(transcript: seq<Entry>) {
    transcript == [] || transcript[|transcript| - 1].ok || transcript[|transcript| - 1].reasons == []
  }

  /** A run is denied for missing evidence exactly if the step after its transcript is reached, is within all
      budgets, is irreversible, and demands a role that no successful entry has supplied. So if everything a
      step demands has been supplied, it is not denied for missing evidence. */
  lemma DeniedForEvidenceIff(q: Request)
    requires q.EarlyReasons() == []
    ensures var r, job := Expected(q), q.ToJob();
            var n := |r.transcript|;
            "delta_s_gate_denied" in r.records <==>
              && n < |job.steps| && WentOn(r.transcript) && !OverSteps(job, n) && !OverCalls(job, n)
              && Irreversible(job.steps[n], job.token)
              && exists role :: Demands(job.steps[n], role) && !Supplied(r.transcript, n, role)
  {
    var r, job := Expected(q), q.ToJob();
    var n := |r.transcript|;
    EvidenceStageTells(q);
    WentOnMeans(q);
    if n < |job.steps| {
      GateMeaning(job, n);
      EvidenceGateCloses(job, n);
      forall role ensures Evidenced(job, n, role) <==> Supplied(r.transcript, n, role) {
        EvidenceInTranscript(q, n, role);
      }
    }
  }

  lemma StagesDiffer()
    ensures "delta_s_gate_denied" !in {"budget_denied", "delta_s_budget_denied", "io_budget_denied",
                                       "net_budget_denied", "step_denied", "step_ok", "runtime_start",
                                       "runtime_complete", "epoch_verification", "operator_registry_denied"}
  {
    var s := "delta_s_gate_denied";
    assert s[8] == 'g' && "delta_s_budget_denied"[8] == 'b';
    assert s[0] == 'd' && "budget_denied"[0] == 'b' && "io_budget_denied"[0] == 'i' && "net_budget_denied"[0] == 'n';
    assert "step_denied"[0] == 's' && "step_ok"[0] == 's' && "runtime_start"[0] == 'r' && "runtime_complete"[0] == 'r';
    assert "epoch_verification"[0] == 'e' && "operator_registry_denied"[0] == 'o';
  }

  lemma EvidenceGateCloses(job: Job, n: nat)
    requires n < |job.steps|
    ensures GateAt(job, n).Closed? && GateAt(job, n).stage == "delta_s_gate_denied" <==>
              !OverSteps(job, n) && !OverCalls(job, n) && LacksEvidence(job, n)
  {
    GateMeaning(job, n);
    StagesDiffer();
  }

  /** Whether a loop went on after its last handler. */
  lemma LastOutcome(loop: Loop)
    ensures var n := loop.Ran();
            n == loop.FirstStop() <==> n == 0 || loop.outcome(n - 1).ok || loop.outcome(n - 1).reasons == []
  {
    var n := loop.Ran();
    if n > 0 && n == loop.FirstStop() { assert !loop.Stops(n - 1); }
  }

  /** The loop went on after its last entry exactly if that is not where it stopped. */
  lemma WentOnMeans(q: Request)
    requires q.EarlyReasons() == []
    ensures |Expected(q).transcript| == LoopOf(q.ToJob()).Ran()
    ensures WentOn(Expected(q).transcript) <==> |Expected(q).transcript| == LoopOf(q.ToJob()).FirstStop()
  {
    var loop := LoopOf(q.ToJob());
    var n := loop.Ran();
    LastOutcome(loop);
    if n > 0 { LastEntry(q.ToJob(), n); }
  }

  lemma LastEntry(job: Job, n: nat)
    requires 0 < n <= |job.steps|
    ensures Entries(job, n)[n - 1].ok == job.handler(n - 1).ok
    ensures Entries(job, n)[n - 1].reasons == job.handler(n - 1).reasons
  {}

  lemma NotAStep(loop: Loop, n: nat)
    ensures "delta_s_gate_denied" !in loop.StepRecords(n)
  {
    StagesDiffer();
  }

  lemma NotEarly(q: Request)
    ensures "delta_s_gate_denied" !in q.EarlyRecords()
  {
    StagesDiffer();
  }

  /** The records hold the stage of the gate for evidence exactly if that is the gate that closed. */
  lemma EvidenceStageTells(q: Request)
    requires q.EarlyReasons() == []
    ensures var loop := LoopOf(q.ToJob());
            "delta_s_gate_denied" in Expected(q).records <==>
              loop.FirstStop() < loop.length && loop.gate(loop.FirstStop()).Closed?
              && loop.gate(loop.FirstStop()).stage == "delta_s_gate_denied"
  {
    NotEarly(q);
    NotAStep(LoopOf(q.ToJob()), LoopOf(q.ToJob()).Ran());
    StagesDiffer();
  }

  /** `used` calls against a budget, which may be absent or negative. */
  predicate Within(used: nat, budget: Option<int>) {
    budget.None? || used == 0 || used <= budget.value
  }

  lemma OneMoreEarlier(kind: Step -> bool, steps: seq<Step>, n: nat)
    requires n < |steps|
    ensures |Earlier(kind, steps, n + 1)| == |Earlier(kind, steps, n)| + (if kind(steps[n]) then 1 else 0)
  {
    assert Earlier(kind, steps, n + 1) == Earlier(kind, steps, n) + if kind(steps[n]) then {n} else {};
  }

  /** If no step of a kind ran once the budget was used up, the budget bounds how many ran. */
  lemma {:induction false} EarlierWithinBudget(budget: int, kind: Step -> bool, steps: seq<Step>, n: nat)
    requires n <= |steps|
    requires forall i: nat :: i < n && kind(steps[i]) ==> |Earlier(kind, steps, i)| < budget
    ensures Within(|Earlier(kind, steps, n)|, Some(budget))
  {
    if n == 0 {
      assert Earlier(kind, steps, n) == {};
    } else {
      EarlierWithinBudget(budget, kind, steps, n - 1);
      OneMoreEarlier(kind, steps, n - 1);
    }
  }

  /** None of the first `n` steps is barred. */
  ghost predicate NoneBarred(job: Job, n: nat) {
    n <= |job.steps| && forall i: nat :: i < n ==> !Barred(job, i)
  }

  lemma WithinDeltaS(job: Job, n: nat)
    requires NoneBarred(job, n) && job.token.deltaSBudget != 0
    ensures Within(|Earlier(IsMeasuring, job.steps, n)|, Some(job.token.deltaSBudget))
  {
    forall i: nat | i < n && IsMeasuring(job.steps[i])
      ensures |Earlier(IsMeasuring, job.steps, i)| < job.token.deltaSBudget
    {
      assert !Barred(job, i);
    }
    EarlierWithinBudget(job.token.deltaSBudget, IsMeasuring, job.steps, n);
  }

  lemma WithinIo(job: Job, n: nat)
    requires NoneBarred(job, n) && job.token.ioPolicy.Some?
    ensures Within(|Earlier(CallsIo, job.steps, n)|, job.token.ioPolicy.value.budgetCalls)
  {
    var budget := job.token.ioPolicy.value.budgetCalls;
    if budget.Some? {
      forall i: nat | i < n && CallsIo(job.steps[i]) ensures |Earlier(CallsIo, job.steps, i)| < budget.value {
        assert !Barred(job, i);
      }
      EarlierWithinBudget(budget.value, CallsIo, job.steps, n);
    }
  }

  lemma WithinNet(job: Job, n: nat)
    requires NoneBarred(job, n) && job.token.netPolicy.Some?
    ensures Within(|Earlier(CallsNet, job.steps, n)|, job.token.netPolicy.value.budgetCalls)
  {
    var budget := job.token.netPolicy.value.budgetCalls;
    if budget.Some? {
      forall i: nat | i < n && CallsNet(job.steps[i]) ensures |Earlier(CallsNet, job.steps, i)| < budget.value {
        assert !Barred(job, i);
      }
      EarlierWithinBudget(budget.value, CallsNet, job.steps, n);
    }
  }

  lemma RunNoneBarred(q: Request)
    requires q.EarlyReasons() == []
    ensures NoneBarred(q.ToJob(), |Expected(q).transcript|)
  {
    forall i: nat | i < |Expected(q).transcript| ensures i < |q.ToJob().steps| && !Barred(q.ToJob(), i) {
      RanUnbarred(q, i);
    }
    if |Expected(q).transcript| > 0 { RanUnbarred(q, |Expected(q).transcript| - 1); }
  }

  /** The budgets of a token bound how many of these steps there are, and how many of each kind. */
  ghost predicate WithinBudgets(token: ExecutionToken, steps: seq<Step>, n: nat) {
    && n <= |steps| && Within(n, Some(token.budgetSteps))
    && (token.deltaSBudget != 0 ==> Within(|Earlier(IsMeasuring, steps, n)|, Some(token.deltaSBudget)))
    && (token.ioPolicy.Some? ==> Within(|Earlier(CallsIo, steps, n)|, token.ioPolicy.value.budgetCalls))
    && (token.netPolicy.Some? ==> Within(|Earlier(CallsNet, steps, n)|, token.netPolicy.value.budgetCalls))
  }

  lemma UnbarredWithinBudgets(job: Job, n: nat)
    requires NoneBarred(job, n)
    ensures WithinBudgets(job.token, job.steps, n)
  {
    if n > 0 { assert !Barred(job, n - 1); }
    if job.token.deltaSBudget != 0 { WithinDeltaS(job, n); }
    if job.token.ioPolicy.Some? { WithinIo(job, n); }
    if job.token.netPolicy.Some? { WithinNet(job, n); }
  }

  /** Over every run, the handlers run stay within the step budget, and the measurement, IO and NET
      handlers among them stay within their own budgets where those are in force. */
  lemma BudgetsBoundRuns(q: Request)
    requires q.EarlyReasons() == []
    ensures WithinBudgets(q.Token().value, q.plan.steps, |Expected(q).transcript|)
  {
    RunNoneBarred(q);
    UnbarredWithinBudgets(q.ToJob(), |Expected(q).transcript|);
  }

  // ----- the verdict

  function OkCount(entries: seq<Entry>): nat {
    if entries == [] then 0
    else OkCount(entries[..|entries| - 1]) + (if entries[|entries| - 1].ok then 1 else 0)
  }

  lemma OneMoreOkRecord(job: Job, n: nat)
    ensures multiset(LoopOf(job).StepRecords(n + 1))["step_ok"]
            == multiset(LoopOf(job).StepRecords(n))["step_ok"] + (if job.handler(n).ok then 1 else 0)
  {
    LoopOf(job).OneMoreRecord(n);
    assert "step_ok" != "step_denied" by { assert "step_ok"[5] != "step_denied"[5]; }
  }

  lemma OneMoreOkEntry(job: Job, n: nat)
    requires n < |job.steps|
    ensures OkCount(Entries(job, n + 1)) == OkCount(Entries(job, n)) + (if job.handler(n).ok then 1 else 0)
  {
    OneMoreEntry(job, n);
    assert Entries(job, n + 1)[..n] == Entries(job, n);
  }

  lemma {:induction false} RecordsCountOk(job: Job, n: nat)
    requires n <= |job.steps|
    ensures multiset(LoopOf(job).StepRecords(n))["step_ok"] == OkCount(Entries(job, n))
  {
    if n > 0 {
      RecordsCountOk(job, n - 1);
      OneMoreOkRecord(job, n - 1);
      OneMoreOkEntry(job, n - 1);
    }
  }

  lemma LoopRecordsOk(job: Job)
    ensures multiset(LoopOf(job).Records())["step_ok"] == OkCount(Entries(job, LoopOf(job).Ran()))
  {
    var loop := LoopOf(job);
    RecordsCountOk(job, loop.Ran());
    var k := loop.FirstStop();
    if k < |job.steps| { GateMeaning(job, k); ClosedHasReasons(job, k); }
  }

  /** What the bookkeeping of a run's verdict has to satisfy. */
  ghost predicate Balanced(r: RuntimeResult) {
    && (r.status == Denied <==> r.reasons != []) && (r.status == Denied <==> |r.constraintWitnesses| == 1)
    && |r.constraintWitnesses| <= 1
    && (forall w :: w in r.constraintWitnesses ==>
          w.stage == "runtime_refusal" && Sorted(w.reasons) && multiset(w.reasons) == multiset(r.reasons))
    && |r.records| >= 2 && r.records[0] == "runtime_start" && r.records[|r.records| - 1] == "runtime_complete"
    && multiset(r.records)["step_ok"] == OkCount(r.transcript)
  }

  lemma ReportBalanced(reasons: seq<string>, steps: seq<Step>, early: seq<string>, later: seq<string>,
                       transcript: seq<Entry>)
    requires early != [] && early[0] == "runtime_start" && "step_ok" !in multiset(early)
    requires multiset(later)["step_ok"] == OkCount(transcript)
    ensures Balanced(Report(reasons, steps, early + later, transcript))
  {
    SortCorrect(reasons);
    assert "step_ok"[0] != "runtime_complete"[0];
    assert multiset(early + later)["step_ok"] == multiset(early)["step_ok"] + multiset(later)["step_ok"];
  }

  /** The verdict of every run is balanced: denied exactly when there are reasons, exactly when there is
      one constraint witness, whose reasons are the sorted permutation of the run's; the witness records
      start and end as they should and count the successful steps. Only planned plans execute anything. */
  lemma Verdict(q: Request)
    ensures Balanced(Expected(q))
    ensures q.plan.status != "planned" ==> Expected(q).transcript == [] && Expected(q).status == Denied
  {
    OtherStages(q);
    if q.EarlyReasons() == [] {
      var job := q.ToJob();
      LoopRecordsOk(job);
      ReportBalanced(LoopOf(job).StopReasons(), job.steps, q.EarlyRecords(), LoopOf(job).Records(),
                     Entries(job, LoopOf(job).Ran()));
    } else {
      ReportBalanced(q.EarlyReasons(), [], q.EarlyRecords(), [], []);
      assert q.EarlyRecords() + [] == q.EarlyRecords();
    }
  }

  lemma OtherStages(q: Request)
    ensures "step_ok" !in multiset(q.EarlyRecords())
  {
    assert "step_ok"[0] == 's' && "runtime_start"[0] == 'r' && "epoch_verification"[0] == 'e'
           && "operator_registry_denied"[0] == 'o';
  }

  /** `completed` does not mean that every handler succeeded: a completed run contains a refused step
      exactly when some handler of the plan refuses without giving a reason. Where the assertion handler is
      the only one that can, this can be told from the plan: some step asserts a failure and states no error. */
  lemma CompletedWithRefusal(q: Request)
    requires Expected(q).status == Completed
    ensures |Expected(q).transcript| == |q.plan.steps|
    ensures (exists i :: 0 <= i < |Expected(q).transcript| && !Expected(q).transcript[i].ok) <==>
              (exists i: nat :: i < |q.plan.steps| && !q.handler(i).ok && q.handler(i).reasons == [])
    ensures RunByHandlers(q) ==>
              ((exists i :: 0 <= i < |Expected(q).transcript| && !Expected(q).transcript[i].ok) <==>
                 exists i: nat :: && i < |q.plan.steps| && IsAssertion(q.plan.steps[i])
                                  && IsSilent(q.plan.steps[i].assertion))
  {
    var job := q.ToJob();
    var loop := LoopOf(job);
    var r := Expected(q);
    var k := loop.FirstStop();
    if k < |job.steps| { GateMeaning(job, k); ClosedHasReasons(job, k); }
    assert k == |job.steps| && r.transcript == Entries(job, k);
    if i :| 0 <= i < |r.transcript| && !r.transcript[i].ok { assert !loop.Stops(i); }
    if i: nat :| i < |job.steps| && !job.handler(i).ok && job.handler(i).reasons == [] {
      assert !r.transcript[i].ok;
    }
    if RunByHandlers(q) { SilentSteps(q); }
  }

  /** A plan of one assertion step with these arguments, under an unrestrictive contract. */
  function AssertionRun(token: ExecutionToken, args: AssertArgs): Request {
    var step := Step(Str("assert"), Missing, Str("ASSERT_CONTRACT"), None, Missing, args);
    Request(Plan("planned", [step], Some(token), false), None, ExecutionContract({}, false, false, None), [], [],
            Always(AssertContract(args)))
  }

  function Always(outcome: Outcome): nat -> Outcome {
    (i: nat) => outcome
  }

  lemma OneStepRun(q: Request)
    requires q.EarlyReasons() == [] && |q.plan.steps| == 1 && !Barred(q.ToJob(), 0)
    ensures |Expected(q).transcript| == 1 && Expected(q).transcript[0].ok == q.handler(0).ok
    ensures Expected(q).status == Completed <==> q.handler(0).ok || q.handler(0).reasons == []
  {
    GateMeaning(q.ToJob(), 0);
    if MustStop(q.ToJob(), 0) { RunMeaning(q, 0); } else { RunMeaning(q, 1); }
  }

  lemma NotMeasuring()
    ensures !Measures("ASSERT_CONTRACT")
  {
    assert Upper("ASSERT_CONTRACT")[0] == 'A' && Upper("ASSERT_CONTRACT"[..7])[0] == 'A';
  }

  lemma AssertionPermitted(token: ExecutionToken, step: Step)
    requires step.effectType == Str("ASSERT_CONTRACT") && step.needs.None? && step.requiredBackend == Missing
    ensures Permitted(ExecutionContract({}, false, false, None), step, Some(token))
  {
    NotMeasuring();
  }

  lemma AssertionUnbarred(token: ExecutionToken, args: AssertArgs)
    requires token.budgetSteps > 0
    ensures var q := AssertionRun(token, args);
            && q.EarlyReasons() == [] && RunByHandlers(q)
            && !Barred(q.ToJob(), 0)
  {
    var q := AssertionRun(token, args);
    NotMeasuring();
    AssertionPermitted(token, q.plan.steps[0]);
    assert IsAssertion(q.plan.steps[0]);
  }

  /** Such a run always calls the handler. It is completed exactly if the handler accepts or refuses without a
      reason, and completed with the refusal in its transcript exactly for the silent arguments. */
  lemma RefusalCanComplete(token: ExecutionToken, args: AssertArgs)
    requires token.budgetSteps > 0
    ensures var r := Expected(AssertionRun(token, args));
            && |r.transcript| == 1 && r.transcript[0].ok == AssertContract(args).ok
            && (r.status == Completed <==> AssertContract(args).ok || IsSilent(args))
            && (r.status == Completed && !r.transcript[0].ok <==> IsSilent(args))
  {
    AssertionUnbarred(token, args);
    OneStepRun(AssertionRun(token, args));
    RefusesWithoutReasonIff(args);
  }

  /** `{"ok": false}` */
  const FAILED_ASSERTION := AssertArgs(Other(false, "False"), Missing)

  /** A run that is completed although its only handler refused. */
  lemma FailedAssertionCompletes(token: ExecutionToken)
    requires token.budgetSteps > 0
    ensures var r := Expected(AssertionRun(token, FAILED_ASSERTION));
            r.status == Completed && |r.transcript| == 1 && !r.transcript[0].ok
  {
    RefusalCanComplete(token, FAILED_ASSERTION);
  }

  /** The token of a run: the context's, else the plan's. */
  function TokenOf(q: Request): Option<ExecutionToken> {
    if q.ctxToken.Some? then q.ctxToken else q.plan.token
  }

  predicate VerificationAsked(q: Request) {
    q.contract.requireEpochVerification || q.contract.requireSignatureVerification
  }

  /** Nothing is held against a plan beforehand exactly if there is a token, the plan is approved, and neither
      verification nor registry, where consulted, reports an error; then the loop is run on its steps. */
  lemma NothingHeldAgainst(q: Request)
    ensures q.Token() == TokenOf(q)
    ensures q.EarlyReasons() == [] <==>
              && TokenOf(q).Some? && q.plan.status == "planned"
              && (VerificationAsked(q) ==> q.verifyErrors == []) && (q.plan.registryEnforced ==> q.registryErrors == [])
    ensures Expected(q).steps == if q.EarlyReasons() == [] then q.plan.steps else []
  {}

  /** A run that something is held against executes nothing and says all that is held against it. */
  lemma HeldAgainst(q: Request)
    requires q.EarlyReasons() != []
    ensures var r := Expected(q);
            && r.transcript == [] && r.status == Denied && Witnessed(q, r, [])
            && forall reason :: reason in r.reasons <==>
                 || (reason == "execution token missing" && TokenOf(q).None?)
                 || (reason == "plan not approved" && q.plan.status != "planned")
                 || (VerificationAsked(q) && reason in q.verifyErrors)
                 || (q.plan.registryEnforced && reason in q.registryErrors)
  {
    RunsWitnessed(q);
  }
}
