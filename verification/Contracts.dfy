/** Plan steps and the per-step contract: `src/hpl/runtime/contracts.py` and the step predicates
    at the end of `src/hpl/runtime/engine.py`. */
module Contracts {
  import opened Text
  import opened ExecutionTokens

  /** A JSON value as the gates look at it: whether it is absent, null, a string or a list,
      whether it is truthy, and what `str` makes of it (list items are kept as their `str`). */
  datatype Value =
    | Missing | Null | Str(s: string) | List(items: seq<string>, repr: string) | Other(truthy: bool, repr: string)
  {
    predicate Truthy() {
      match this
      case Missing => false
      case Null => false
      case Str(s) => s != ""
      case List(items, _) => items != []
      case Other(truthy, _) => truthy
    }

    /** `str(value)` */
    function Text(): string {
      match this
      case Missing => "None"
      case Null => "None"
      case Str(s) => s
      case List(_, repr) => repr
      case Other(_, repr) => repr
    }

    /** `str(value or "")` */
    function TextOrEmpty(): string {
      if Truthy() then Text() else ""
    }
  }

  /** The entries of a step's `requires` object that the gates read. */
  datatype Requires = Requires(irreversible: Value, requiredRoles: Value, backend: Value, ioScope: Value,
                               ioScopes: Value, ioEndpoint: Value, netCap: Value, netCaps: Value, netEndpoint: Value)

  /** The entries of a step's `args` that the assertion handler reads. */
  datatype AssertArgs = AssertArgs(ok: Value, errors: Value)

  /** `needs` is the `requires` entry, `None` when it is absent or not an object. */
  datatype Step = Step(stepId: Value, operatorId: Value, effectType: Value, needs: Option<Requires>,
                       requiredBackend: Value, assertion: AssertArgs)

  const NOTHING_REQUIRED := Requires(Missing, Missing, Missing, Missing, Missing, Missing, Missing, Missing, Missing)

  function RequiresOf(step: Step): Requires {
    GetOr(step.needs, NOTHING_REQUIRED)
  }

  /** `a or b` */
  function Or(a: Value, b: Value): Value {
    if a.Truthy() then a else b
  }

  // ----- engine.py: what a step is charged for

  /** `str(step.get("effect_type", ""))` */
  function EffectType(step: Step): string {
    if step.effectType.Missing? then "" else step.effectType.Text()
  }

  predicate IsMeasurementEffect(effectType: string) {
    StartsWith(Upper(effectType), "MEASURE") || Upper(effectType) in {"COMPUTE_DELTA_S", "DELTA_S_GATE"}
  }

  predicate RequiresIo(step: Step) {
    var r := RequiresOf(step);
    r.ioScope.Truthy() || r.ioScopes.Truthy() || r.ioEndpoint.Truthy()
  }

  predicate RequiresNet(step: Step) {
    var r := RequiresOf(step);
    r.netCap.Truthy() || r.netCaps.Truthy() || r.netEndpoint.Truthy()
  }

  predicate RequiresDeltaS(step: Step, token: Option<ExecutionToken>) {
    token.Some? && token.value.collapseRequiresDeltaS && RequiresOf(step).irreversible.Truthy()
  }

  const DEFAULT_ROLES := ["delta_s_report", "admissibility_certificate", "collapse_decision"]

  /** The evidence roles an irreversible step demands, as a list whose order and repetitions do not matter. */
  function RequiredRoles(step: Step): seq<string> {
    var roles := RequiresOf(step).requiredRoles;
    if roles.List? && roles.items != [] then roles.items else DEFAULT_ROLES
  }

  // ----- contracts.py

  datatype ExecutionContract = ExecutionContract(allowedSteps: set<string>, requireEpochVerification: bool,
                                                 requireSignatureVerification: bool, requiredBackend: Option<string>)

  function StepName(step: Step): string {
    Or(step.stepId, step.operatorId).TextOrEmpty()
  }

  /** The backend a step asks for; a falsy value asks for none. */
  function BackendWanted(c: ExecutionContract, step: Step): Value {
    var own := RequiresOf(step).backend;
    if own.Missing? || own.Null? then
      Or(step.requiredBackend, if c.requiredBackend.Some? then Str(c.requiredBackend.value) else Null)
    else own
  }

  /** Strings named one by one or in a list; an empty string still counts as a name. */
  function Named(one: Value, many: Value): seq<string> {
    (if one.Str? then [one.s] else []) + (if many.List? then many.items else [])
  }

  function UpperSet(items: seq<string>): set<string> {
    set x | x in items && !Blank(x) :: Upper(x)
  }

  function NonBlankSet(items: seq<string>): set<string> {
    set x | x in items && !Blank(x)
  }

  function ModesAllowed(token: Option<ExecutionToken>): seq<string> {
    if token.Some? then GetOr(token.value.measurementModesAllowed, []) else []
  }

  function IoPolicyOf(token: Option<ExecutionToken>): Option<IoPolicy> {
    if token.Some? then token.value.ioPolicy else None
  }

  function NetPolicyOf(token: Option<ExecutionToken>): Option<NetPolicy> {
    if token.Some? then token.value.netPolicy else None
  }

  /** An empty endpoint list restricts nothing. */
  predicate EndpointPermitted(endpoint: Value, allowlist: seq<string>) {
    endpoint.Truthy() && NonBlankSet(allowlist) != {} ==> endpoint.Text() in NonBlankSet(allowlist)
  }

  // ----- what a step demands, read off its entries

  /** Python's falsity of an entry. */
  predicate Falsy(v: Value) {
    v == Missing || v == Null || v == Str("") || (v.List? && v.items == []) || (v.Other? && !v.truthy)
  }

  function Shown(v: Value): string {
    match v
    case Str(s) => s
    case List(_, repr) => repr
    case Other(_, repr) => repr
    case _ => "None"
  }

  lemma TruthMeans(v: Value)
    ensures v.Truthy() <==> !Falsy(v)
    ensures v.Text() == Shown(v)
    ensures v.TextOrEmpty() == if Falsy(v) then "" else Shown(v)
  {}

  /** The name a step goes by: its id, else its operator, else none. */
  function Label(step: Step): string {
    if !Falsy(step.stepId) then Shown(step.stepId)
    else if !Falsy(step.operatorId) then Shown(step.operatorId)
    else ""
  }

  /** The backend demanded: by `requires` if that has the entry, else by the step, else by the contract. */
  function BackendAsked(c: ExecutionContract, step: Step): Option<string> {
    if step.needs.Some? && step.needs.value.backend != Missing && step.needs.value.backend != Null then
      if Falsy(step.needs.value.backend) then None else Some(Shown(step.needs.value.backend))
    else if !Falsy(step.requiredBackend) then Some(Shown(step.requiredBackend))
    else if c.requiredBackend != Some("") then c.requiredBackend
    else None
  }

  /** The effect types that count as measurements, in any case of letters. */
  predicate Measures(effect: string) {
    || (|effect| >= 7 && Upper(effect[..7]) == "MEASURE")
    || Upper(effect) == "COMPUTE_DELTA_S" || Upper(effect) == "DELTA_S_GATE"
  }

  lemma MeasurementMeans(effect: string)
    ensures IsMeasurementEffect(effect) <==> Measures(effect)
  {
    if |effect| >= 7 { assert Upper(effect)[..7] == Upper(effect[..7]); }
  }

  /** The effect type the contract looks at. */
  function EffectShown(step: Step): string {
    if Falsy(step.effectType) then "" else Shown(step.effectType)
  }

  predicate AsksScope(step: Step, s: string) {
    step.needs.Some? && (step.needs.value.ioScope == Str(s)
                         || (step.needs.value.ioScopes.List? && s in step.needs.value.ioScopes.items))
  }

  predicate AsksCap(step: Step, s: string) {
    step.needs.Some? && (step.needs.value.netCap == Str(s)
                         || (step.needs.value.netCaps.List? && s in step.needs.value.netCaps.items))
  }

  predicate AsksIoEndpoint(step: Step) {
    step.needs.Some? && !Falsy(step.needs.value.ioEndpoint)
  }

  predicate AsksNetEndpoint(step: Step) {
    step.needs.Some? && !Falsy(step.needs.value.netEndpoint)
  }

  /** A name is granted in any case of letters; blank entries of a grant grant nothing. */
  ghost predicate Grants(granted: seq<string>, name: string) {
    exists g :: g in granted && !Blank(g) && Upper(g) == Upper(name)
  }

  /** An endpoint list without entries, or with blank ones only, restricts nothing. */
  predicate Reaches(allowlist: seq<string>, endpoint: string) {
    (forall g :: g in allowlist ==> Blank(g)) || (endpoint in allowlist && !Blank(endpoint))
  }

  ghost predicate StepPermitted(c: ExecutionContract, step: Step) {
    c.allowedSteps == {} || Label(step) in c.allowedSteps
  }

  ghost predicate BackendPermitted(c: ExecutionContract, step: Step, token: Option<ExecutionToken>) {
    BackendAsked(c, step).Some? ==> token.Some? && Upper(BackendAsked(c, step).value) in token.value.allowedBackends
  }

  ghost predicate ModePermitted(step: Step, token: Option<ExecutionToken>) {
    token.Some? && token.value.measurementModesAllowed.Some? && token.value.measurementModesAllowed.value != []
    && Measures(EffectShown(step)) ==>
      exists m :: m in token.value.measurementModesAllowed.value && Upper(m) == Upper(EffectShown(step))
  }

  ghost predicate AsksIo(step: Step) {
    AsksIoEndpoint(step) || exists s :: AsksScope(step, s)
  }

  ghost predicate AsksNet(step: Step) {
    AsksNetEndpoint(step) || exists s :: AsksCap(step, s)
  }

  predicate IoGranted(token: Option<ExecutionToken>) {
    token.Some? && token.value.ioPolicy.Some? && token.value.ioPolicy.value.allowed
  }

  predicate NetGranted(token: Option<ExecutionToken>) {
    token.Some? && token.value.netPolicy.Some?
  }

  ghost predicate IoPermitted(step: Step, token: Option<ExecutionToken>) {
    AsksIo(step) ==>
      && IoGranted(token)
      && (forall s :: AsksScope(step, s) ==> Grants(token.value.ioPolicy.value.scopes, s))
      && (AsksIoEndpoint(step) ==> Reaches(token.value.ioPolicy.value.endpoints, Shown(step.needs.value.ioEndpoint)))
  }

  ghost predicate NetPermitted(step: Step, token: Option<ExecutionToken>) {
    AsksNet(step) ==>
      && NetGranted(token)
      && (forall s :: AsksCap(step, s) ==> Grants(token.value.netPolicy.value.caps, s))
      && (AsksNetEndpoint(step) ==> Reaches(token.value.netPolicy.value.endpoints, Shown(step.needs.value.netEndpoint)))
  }

  /** What a contract and a token together permit, read off the entries of step, contract and token. */
  ghost predicate Permitted(c: ExecutionContract, step: Step, token: Option<ExecutionToken>) {
    StepPermitted(c, step) && BackendPermitted(c, step, token) && ModePermitted(step, token) && IoPermitted(step, token)
    && NetPermitted(step, token)
  }

  // ----- the error list, check by check

  function Unlisted(names: seq<string>, allowed: set<string>, prefix: string): seq<string> {
    if names == [] then []
    else Unlisted(names[..|names| - 1], allowed, prefix)
         + (if Upper(names[|names| - 1]) in allowed then [] else [prefix + names[|names| - 1]])
  }

  /** The names a grant does not list, and the endpoint if its allowlist does not. */
  function GrantErrors(names: seq<string>, allowed: set<string>, prefix: string, endpoint: Value,
                       allowlist: seq<string>, message: string): seq<string>
  {
    Unlisted(names, allowed, prefix) + (if EndpointPermitted(endpoint, allowlist) then [] else [message])
  }

  function StepErrors(c: ExecutionContract, step: Step): seq<string> {
    if c.allowedSteps != {} && StepName(step) !in c.allowedSteps then ["step not allowed: " + StepName(step)] else []
  }

  function BackendErrors(c: ExecutionContract, step: Step, token: Option<ExecutionToken>): seq<string> {
    var wanted := BackendWanted(c, step);
    if !wanted.Truthy() then []
    else if token.None? then ["execution token missing for backend requirement"]
    else if Upper(wanted.Text()) !in token.value.allowedBackends then
      ["backend not permitted: " + Upper(wanted.Text())]
    else []
  }

  function ModeErrors(step: Step, token: Option<ExecutionToken>): seq<string> {
    var effect := step.effectType.TextOrEmpty();
    if ModesAllowed(token) != [] && IsMeasurementEffect(effect)
       && Upper(effect) !in (set m | m in ModesAllowed(token) :: Upper(m))
    then ["measurement mode not permitted: " + effect] else []
  }

  function IoErrors(step: Step, token: Option<ExecutionToken>): seq<string> {
    var r, io := RequiresOf(step), IoPolicyOf(token);
    var scopes := Named(r.ioScope, r.ioScopes);
    if scopes == [] && !r.ioEndpoint.Truthy() then []
    else if io.None? || !io.value.allowed then ["IOPermissionDenied"]
    else GrantErrors(scopes, UpperSet(io.value.scopes), "IOPermissionDenied:", r.ioEndpoint, io.value.endpoints,
                     "EndpointNotAllowed")
  }

  function NetErrors(step: Step, token: Option<ExecutionToken>): seq<string> {
    var r, net := RequiresOf(step), NetPolicyOf(token);
    var caps := Named(r.netCap, r.netCaps);
    if caps == [] && !r.netEndpoint.Truthy() then []
    else if net.None? then ["NETPermissionDenied"]
    else GrantErrors(caps, UpperSet(net.value.caps), "NETPermissionDenied:", r.netEndpoint, net.value.endpoints,
                     "NETEndpointNotAllowed")
  }

  function ContractErrors(c: ExecutionContract, step: Step, token: Option<ExecutionToken>): seq<string> {
    StepErrors(c, step) + BackendErrors(c, step, token) + ModeErrors(step, token) + IoErrors(step, token)
    + NetErrors(step, token)
  }

  method AppendUnlisted(errors: seq<string>, names: seq<string>, allowed: set<string>, prefix: string)
    returns (r: seq<string>)
    ensures r == errors + Unlisted(names, allowed, prefix)
  {
    r := errors;
    for i := 0 to |names|
      invariant r == errors + Unlisted(names[..i], allowed, prefix)
    {
      assert names[..i + 1][..i] == names[..i];
      if Upper(names[i]) !in allowed { r := r + [prefix + names[i]]; }
    }
    assert names[..|names|] == names;
  }

  /** The measurement-mode check of `preconditions`. */
  method CheckModes(errors: seq<string>, step: Step, token: Option<ExecutionToken>) returns (r: seq<string>)
    ensures r == errors + ModeErrors(step, token)
  {
    r := errors;
    var effect := step.effectType.TextOrEmpty();
    if token.Some? && GetOr(token.value.measurementModesAllowed, []) != [] {
      var modes := set m | m in token.value.measurementModesAllowed.value :: Upper(m);
      if effect != "" && StartsWith(Upper(effect), "MEASURE") {
        if Upper(effect) !in modes { r := r + ["measurement mode not permitted: " + effect]; }
      }
      if Upper(effect) in {"COMPUTE_DELTA_S", "DELTA_S_GATE"} {
        assert Upper(effect)[0] != 'M';
        if Upper(effect) !in modes { r := r + ["measurement mode not permitted: " + effect]; }
      }
    }
  }

  /** The checks against a grant, which the source makes alike for IO and NET. */
  method CheckGrant(errors: seq<string>, names: seq<string>, allowed: set<string>, prefix: string, endpoint: Value,
                    allowlist: seq<string>, message: string)
    returns (r: seq<string>)
    ensures r == errors + GrantErrors(names, allowed, prefix, endpoint, allowlist, message)
  {
    r := AppendUnlisted(errors, names, allowed, prefix);
    ghost var unlisted := Unlisted(names, allowed, prefix);
    assert unlisted + [] == unlisted;
    var endpoints := NonBlankSet(allowlist);
    if endpoint.Truthy() && endpoints != {} && endpoint.Text() !in endpoints {
      r := r + [message];
      assert errors + unlisted + [message] == errors + (unlisted + [message]);
    }
  }

  /** The IO check of `preconditions`. */
  method CheckIo(errors: seq<string>, step: Step, token: Option<ExecutionToken>) returns (r: seq<string>)
    ensures r == errors + IoErrors(step, token)
  {
    r := errors;
    var needs := RequiresOf(step);
    var scopes: seq<string> := [];
    if needs.ioScope.Str? { scopes := scopes + [needs.ioScope.s]; }
    if needs.ioScopes.List? { scopes := scopes + needs.ioScopes.items; }
    assert scopes == Named(needs.ioScope, needs.ioScopes);
    if scopes != [] || needs.ioEndpoint.Truthy() {
      if token.None? || token.value.ioPolicy.None? || !token.value.ioPolicy.value.allowed {
        r := r + ["IOPermissionDenied"];
      } else {
        var io := token.value.ioPolicy.value;
        r := CheckGrant(r, scopes, UpperSet(io.scopes), "IOPermissionDenied:", needs.ioEndpoint, io.endpoints,
                        "EndpointNotAllowed");
      }
    }
  }

  /** The NET check of `preconditions`. */
  method CheckNet(errors: seq<string>, step: Step, token: Option<ExecutionToken>) returns (r: seq<string>)
    ensures r == errors + NetErrors(step, token)
  {
    r := errors;
    var needs := RequiresOf(step);
    var caps: seq<string> := [];
    if needs.netCap.Str? { caps := caps + [needs.netCap.s]; }
    if needs.netCaps.List? { caps := caps + needs.netCaps.items; }
    assert caps == Named(needs.netCap, needs.netCaps);
    if caps != [] || needs.netEndpoint.Truthy() {
      if token.None? || token.value.netPolicy.None? {
        r := r + ["NETPermissionDenied"];
      } else {
        var net := token.value.netPolicy.value;
        r := CheckGrant(r, caps, UpperSet(net.caps), "NETPermissionDenied:", needs.netEndpoint, net.endpoints,
                        "NETEndpointNotAllowed");
      }
    }
  }

  /** `ExecutionContract.preconditions`: accepts exactly the permitted steps, and otherwise returns
      every violated requirement in the order of the checks. */
  method Preconditions(c: ExecutionContract, step: Step, token: Option<ExecutionToken>)
    returns (ok: bool, errors: seq<string>)
    ensures errors == ContractErrors(c, step, token)
    ensures ok <==> errors == []
    ensures ok <==> Permitted(c, step, token)
  {
    errors := [];
    if c.allowedSteps != {} && StepName(step) !in c.allowedSteps {
      errors := errors + ["step not allowed: " + StepName(step)];
    }
    var wanted := RequiresOf(step).backend;
    if wanted.Missing? || wanted.Null? {
      wanted := Or(step.requiredBackend, if c.requiredBackend.Some? then Str(c.requiredBackend.value) else Null);
    }
    if wanted.Truthy() {
      if token.None? {
        errors := errors + ["execution token missing for backend requirement"];
      } else if Upper(wanted.Text()) !in token.value.allowedBackends {
        errors := errors + ["backend not permitted: " + Upper(wanted.Text())];
      }
    }
    assert errors == StepErrors(c, step) + BackendErrors(c, step, token);
    errors := CheckModes(errors, step, token);
    errors := CheckIo(errors, step, token);
    errors := CheckNet(errors, step, token);
    ok := errors == [];
    NoErrorsMeansPermitted(c, step, token);
  }

  lemma {:induction false} UnlistedMeans(names: seq<string>, allowed: set<string>, prefix: string, m: string)
    ensures m in Unlisted(names, allowed, prefix) <==> exists s :: s in names && Upper(s) !in allowed && m == prefix + s
  {
    if names != [] {
      var front, last := names[..|names| - 1], names[|names| - 1];
      UnlistedMeans(front, allowed, prefix, m);
      assert names == front + [last];
    }
  }

  lemma UpperSetMeans(items: seq<string>, s: string)
    ensures Upper(s) in UpperSet(items) <==> Grants(items, s)
  {}

  lemma ReachMeans(endpoint: Value, allowlist: seq<string>)
    ensures EndpointPermitted(endpoint, allowlist) <==> Falsy(endpoint) || Reaches(allowlist, Shown(endpoint))
  {
    TruthMeans(endpoint);
    if NonBlankSet(allowlist) == {} {
      forall g | g in allowlist ensures Blank(g) { assert g !in NonBlankSet(allowlist); }
    } else {
      var g :| g in NonBlankSet(allowlist);
      assert g in allowlist && !Blank(g);
    }
  }

  lemma NamedMeans(step: Step)
    ensures forall s :: s in Named(RequiresOf(step).ioScope, RequiresOf(step).ioScopes) <==> AsksScope(step, s)
    ensures forall s :: s in Named(RequiresOf(step).netCap, RequiresOf(step).netCaps) <==> AsksCap(step, s)
    ensures Named(RequiresOf(step).ioScope, RequiresOf(step).ioScopes) == [] <==> !exists s :: AsksScope(step, s)
    ensures Named(RequiresOf(step).netCap, RequiresOf(step).netCaps) == [] <==> !exists s :: AsksCap(step, s)
  {
    var r := RequiresOf(step);
    var scopes, caps := Named(r.ioScope, r.ioScopes), Named(r.netCap, r.netCaps);
    if scopes != [] { assert scopes[0] in scopes; }
    if caps != [] { assert caps[0] in caps; }
  }

  /** The messages of the checks against a grant. */
  ghost predicate GrantMessage(m: string, names: seq<string>, granted: seq<string>, prefix: string, endpoint: Value,
                               allowlist: seq<string>, message: string)
  {
    || (exists s :: s in names && !Grants(granted, s) && m == prefix + s)
    || (!Falsy(endpoint) && !Reaches(allowlist, Shown(endpoint)) && m == message)
  }

  lemma GrantErrorsMean(names: seq<string>, granted: seq<string>, prefix: string, endpoint: Value,
                        allowlist: seq<string>, message: string, m: string)
    ensures m in GrantErrors(names, UpperSet(granted), prefix, endpoint, allowlist, message) <==>
              GrantMessage(m, names, granted, prefix, endpoint, allowlist, message)
  {
    UnlistedMeans(names, UpperSet(granted), prefix, m);
    ReachMeans(endpoint, allowlist);
    forall s ensures Upper(s) in UpperSet(granted) <==> Grants(granted, s) { UpperSetMeans(granted, s); }
  }

  /** The messages about IO, read off the step and the token. */
  ghost predicate IoMessage(m: string, step: Step, token: Option<ExecutionToken>) {
    AsksIo(step) &&
    if !IoGranted(token) then m == "IOPermissionDenied"
    else
      || (exists s ::
            AsksScope(step, s) && !Grants(token.value.ioPolicy.value.scopes, s) && m == "IOPermissionDenied:" + s)
      || (AsksIoEndpoint(step) && !Reaches(token.value.ioPolicy.value.endpoints, Shown(step.needs.value.ioEndpoint))
          && m == "EndpointNotAllowed")
  }

  ghost predicate NetMessage(m: string, step: Step, token: Option<ExecutionToken>) {
    AsksNet(step) &&
    if !NetGranted(token) then m == "NETPermissionDenied"
    else
      || (exists s ::
            AsksCap(step, s) && !Grants(token.value.netPolicy.value.caps, s) && m == "NETPermissionDenied:" + s)
      || (AsksNetEndpoint(step) && !Reaches(token.value.netPolicy.value.endpoints, Shown(step.needs.value.netEndpoint))
          && m == "NETEndpointNotAllowed")
  }

  lemma IoErrorsMean(step: Step, token: Option<ExecutionToken>, m: string)
    ensures m in IoErrors(step, token) <==> IoMessage(m, step, token)
  {
    var r := RequiresOf(step);
    NamedMeans(step);
    TruthMeans(r.ioEndpoint);
    if IoGranted(token) {
      var io := token.value.ioPolicy.value;
      GrantErrorsMean(Named(r.ioScope, r.ioScopes), io.scopes, "IOPermissionDenied:", r.ioEndpoint, io.endpoints,
                      "EndpointNotAllowed", m);
    }
  }

  lemma NetErrorsMean(step: Step, token: Option<ExecutionToken>, m: string)
    ensures m in NetErrors(step, token) <==> NetMessage(m, step, token)
  {
    var r := RequiresOf(step);
    NamedMeans(step);
    TruthMeans(r.netEndpoint);
    if NetGranted(token) {
      var net := token.value.netPolicy.value;
      GrantErrorsMean(Named(r.netCap, r.netCaps), net.caps, "NETPermissionDenied:", r.netEndpoint, net.endpoints,
                      "NETEndpointNotAllowed", m);
    }
  }

  lemma LabelMeans(step: Step)
    ensures StepName(step) == Label(step)
  {
    TruthMeans(step.stepId);
    TruthMeans(step.operatorId);
  }

  lemma BackendMeans(c: ExecutionContract, step: Step)
    ensures BackendWanted(c, step).Truthy() <==> BackendAsked(c, step).Some?
    ensures BackendWanted(c, step).Truthy() ==> BackendWanted(c, step).Text() == BackendAsked(c, step).value
  {
    TruthMeans(BackendWanted(c, step));
    TruthMeans(step.requiredBackend);
  }

  lemma ModeErrorsMean(step: Step, token: Option<ExecutionToken>)
    ensures ModeErrors(step, token) == if ModePermitted(step, token) then []
                                       else ["measurement mode not permitted: " + EffectShown(step)]
  {
    TruthMeans(step.effectType);
    MeasurementMeans(EffectShown(step));
  }

  /** The messages about backends, read off contract, step and token. */
  ghost predicate BackendMessage(m: string, c: ExecutionContract, step: Step, token: Option<ExecutionToken>) {
    BackendAsked(c, step).Some? &&
    if token.None? then m == "execution token missing for backend requirement"
    else
      && Upper(BackendAsked(c, step).value) !in token.value.allowedBackends
      && m == "backend not permitted: " + Upper(BackendAsked(c, step).value)
  }

  /** Which messages a contract gives, read off contract, step and token. */
  lemma ErrorsMean(c: ExecutionContract, step: Step, token: Option<ExecutionToken>, m: string)
    ensures m in ContractErrors(c, step, token) <==>
              || (!StepPermitted(c, step) && m == "step not allowed: " + Label(step))
              || BackendMessage(m, c, step, token)
              || (!ModePermitted(step, token) && m == "measurement mode not permitted: " + EffectShown(step))
              || IoMessage(m, step, token) || NetMessage(m, step, token)
  {
    LabelMeans(step);
    BackendMeans(c, step);
    ModeErrorsMean(step, token);
    IoErrorsMean(step, token, m);
    NetErrorsMean(step, token, m);
  }

  /** The messages come check by check: step, backend, mode, IO, NET. */
  lemma ErrorsInOrder(c: ExecutionContract, step: Step, token: Option<ExecutionToken>)
    returns (backend: seq<string>, io: seq<string>, net: seq<string>)
    ensures ContractErrors(c, step, token)
            == (if StepPermitted(c, step) then [] else ["step not allowed: " + Label(step)]) + backend
               + (if ModePermitted(step, token) then [] else ["measurement mode not permitted: " + EffectShown(step)])
               + io + net
    ensures forall m :: m in backend <==> BackendMessage(m, c, step, token)
    ensures forall m :: m in io <==> IoMessage(m, step, token)
    ensures forall m :: m in net <==> NetMessage(m, step, token)
  {
    backend, io, net := BackendErrors(c, step, token), IoErrors(step, token), NetErrors(step, token);
    LabelMeans(step);
    BackendMeans(c, step);
    ModeErrorsMean(step, token);
    forall m ensures m in io <==> IoMessage(m, step, token) { IoErrorsMean(step, token, m); }
    forall m ensures m in net <==> NetMessage(m, step, token) { NetErrorsMean(step, token, m); }
  }

  /** The names that are not listed are named in the order they are asked for, and the endpoint last. */
  lemma {:induction false} UnlistedAppend(a: seq<string>, b: seq<string>, allowed: set<string>, prefix: string)
    ensures Unlisted(a + b, allowed, prefix) == Unlisted(a, allowed, prefix) + Unlisted(b, allowed, prefix)
  {
    if b == [] {
      assert a + b == a;
    } else {
      UnlistedAppend(a, b[..|b| - 1], allowed, prefix);
      assert (a + b)[..|a + b| - 1] == a + b[..|b| - 1];
    }
  }

  lemma EndpointLast(names: seq<string>, allowed: set<string>, prefix: string, endpoint: Value, allowlist: seq<string>,
                     message: string)
    ensures var errors := GrantErrors(names, allowed, prefix, endpoint, allowlist, message);
            !(Falsy(endpoint) || Reaches(allowlist, Shown(endpoint))) ==>
              errors != [] && errors[|errors| - 1] == message
  {
    ReachMeans(endpoint, allowlist);
  }

  lemma NoIoErrors(step: Step, token: Option<ExecutionToken>)
    ensures IoErrors(step, token) == [] <==> IoPermitted(step, token)
  {
    var errors := IoErrors(step, token);
    if errors != [] {
      assert errors[0] in errors;
      IoErrorsMean(step, token, errors[0]);
    } else if AsksIo(step) {
      IoErrorsMean(step, token, "IOPermissionDenied");
      IoErrorsMean(step, token, "EndpointNotAllowed");
      if IoGranted(token) {
        forall s | AsksScope(step, s) ensures Grants(token.value.ioPolicy.value.scopes, s) {
          IoErrorsMean(step, token, "IOPermissionDenied:" + s);
        }
      }
    }
  }

  lemma NoNetErrors(step: Step, token: Option<ExecutionToken>)
    ensures NetErrors(step, token) == [] <==> NetPermitted(step, token)
  {
    var errors := NetErrors(step, token);
    if errors != [] {
      assert errors[0] in errors;
      NetErrorsMean(step, token, errors[0]);
    } else if AsksNet(step) {
      NetErrorsMean(step, token, "NETPermissionDenied");
      NetErrorsMean(step, token, "NETEndpointNotAllowed");
      if NetGranted(token) {
        forall s | AsksCap(step, s) ensures Grants(token.value.netPolicy.value.caps, s) {
          NetErrorsMean(step, token, "NETPermissionDenied:" + s);
        }
      }
    }
  }

  /** The contract reports nothing exactly for the permitted steps. */
  lemma NoErrorsMeansPermitted(c: ExecutionContract, step: Step, token: Option<ExecutionToken>)
    ensures ContractErrors(c, step, token) == [] <==> Permitted(c, step, token)
  {
    LabelMeans(step);
    BackendMeans(c, step);
    ModeErrorsMean(step, token);
    NoIoErrors(step, token);
    NoNetErrors(step, token);
  }

  // ----- widening a grant

  /** `wide` restricts endpoints no more than `narrow`; the empty list is the top element. */
  ghost predicate EndpointsWiden(narrow: seq<string>, wide: seq<string>) {
    NonBlankSet(wide) == {} || (NonBlankSet(narrow) != {} && NonBlankSet(narrow) <= NonBlankSet(wide))
  }

  /** A call budget in force may be raised or lifted, never introduced. */
  ghost predicate CallsWiden(narrow: Option<int>, wide: Option<int>) {
    wide.None? || (narrow.Some? && narrow.value <= wide.value)
  }

  /** A delta-S budget of 0 is no budget, hence the top element. */
  ghost predicate DeltaSWidens(narrow: int, wide: int) {
    wide == 0 || (narrow != 0 && narrow <= wide)
  }

  ghost predicate IoWidens(narrow: Option<IoPolicy>, wide: Option<IoPolicy>) {
    match (narrow, wide)
    case (None, None) => true
    case (None, Some(w)) => w.budgetCalls.None?
    case (Some(_), None) => false
    case (Some(n), Some(w)) =>
      && (n.allowed ==> w.allowed) && UpperSet(n.scopes) <= UpperSet(w.scopes)
      && EndpointsWiden(n.endpoints, w.endpoints) && CallsWiden(n.budgetCalls, w.budgetCalls)
  }

  ghost predicate NetWidens(narrow: Option<NetPolicy>, wide: Option<NetPolicy>) {
    match (narrow, wide)
    case (None, None) => true
    case (None, Some(w)) => w.budgetCalls.None?
    case (Some(_), None) => false
    case (Some(n), Some(w)) =>
      && UpperSet(n.caps) <= UpperSet(w.caps)
      && EndpointsWiden(n.endpoints, w.endpoints) && CallsWiden(n.budgetCalls, w.budgetCalls)
  }

  ghost predicate ModesWiden(narrow: seq<string>, wide: seq<string>) {
    wide == [] || (narrow != [] && forall m :: m in narrow ==> exists w :: w in wide && Upper(w) == Upper(m))
  }

  ghost predicate TokenWidens(narrow: ExecutionToken, wide: ExecutionToken) {
    && narrow.budgetSteps <= wide.budgetSteps
    && DeltaSWidens(narrow.deltaSBudget, wide.deltaSBudget)
    && (wide.collapseRequiresDeltaS ==> narrow.collapseRequiresDeltaS)
    && (forall b :: b in narrow.allowedBackends ==> b in wide.allowedBackends)
    && ModesWiden(GetOr(narrow.measurementModesAllowed, []), GetOr(wide.measurementModesAllowed, []))
    && IoWidens(narrow.ioPolicy, wide.ioPolicy)
    && NetWidens(narrow.netPolicy, wide.netPolicy)
  }

  ghost predicate ContractWidens(narrow: ExecutionContract, wide: ExecutionContract) {
    && (wide.allowedSteps == {} || (narrow.allowedSteps != {} && narrow.allowedSteps <= wide.allowedSteps))
    && (wide.requiredBackend == narrow.requiredBackend || wide.requiredBackend.None?)
  }

  lemma GrantsWiden(narrow: seq<string>, wide: seq<string>, s: string)
    requires UpperSet(narrow) <= UpperSet(wide) && Grants(narrow, s)
    ensures Grants(wide, s)
  {
    UpperSetMeans(narrow, s);
    UpperSetMeans(wide, s);
  }

  lemma ReachWidens(narrow: seq<string>, wide: seq<string>, endpoint: string)
    requires EndpointsWiden(narrow, wide) && Reaches(narrow, endpoint)
    ensures Reaches(wide, endpoint)
  {
    if NonBlankSet(wide) == {} {
      forall g | g in wide ensures Blank(g) { assert g !in NonBlankSet(wide); }
    } else {
      var g :| g in NonBlankSet(narrow);
      assert g in narrow && !Blank(g);
      assert endpoint in NonBlankSet(narrow);
    }
  }

  lemma WideningPermitsIo(step: Step, t: ExecutionToken, t': ExecutionToken)
    requires TokenWidens(t, t') && IoPermitted(step, Some(t))
    ensures IoPermitted(step, Some(t'))
  {
    if AsksIo(step) {
      var n, w := t.ioPolicy.value, t'.ioPolicy.value;
      forall s | AsksScope(step, s) ensures Grants(w.scopes, s) { GrantsWiden(n.scopes, w.scopes, s); }
      if AsksIoEndpoint(step) { ReachWidens(n.endpoints, w.endpoints, Shown(step.needs.value.ioEndpoint)); }
    }
  }

  lemma WideningPermitsNet(step: Step, t: ExecutionToken, t': ExecutionToken)
    requires TokenWidens(t, t') && NetPermitted(step, Some(t))
    ensures NetPermitted(step, Some(t'))
  {
    if AsksNet(step) {
      var n, w := t.netPolicy.value, t'.netPolicy.value;
      forall s | AsksCap(step, s) ensures Grants(w.caps, s) { GrantsWiden(n.caps, w.caps, s); }
      if AsksNetEndpoint(step) { ReachWidens(n.endpoints, w.endpoints, Shown(step.needs.value.netEndpoint)); }
    }
  }

  /** What a narrower grant permits, a wider one permits. */
  lemma WideningPermits(c: ExecutionContract, c': ExecutionContract, step: Step, t: ExecutionToken, t': ExecutionToken)
    requires ContractWidens(c, c') && TokenWidens(t, t') && Permitted(c, step, Some(t))
    ensures Permitted(c', step, Some(t'))
  {
    WideningPermitsIo(step, t, t');
    WideningPermitsNet(step, t, t');
    if GetOr(t'.measurementModesAllowed, []) != [] && Measures(EffectShown(step)) {
      var m :| m in t.measurementModesAllowed.value && Upper(m) == Upper(EffectShown(step));
      var w :| w in t'.measurementModesAllowed.value && Upper(w) == Upper(m);
    }
  }
}
