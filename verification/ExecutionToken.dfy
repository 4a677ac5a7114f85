/** Execution tokens: `src/hpl/execution_token.py`.
    `ExecutionToken.build` normalizes its arguments and derives the id from the normalized core;
    `to_dict` drops the unset optional entries and `from_dict` normalizes again.
    A `Dict` below is a JSON object whose entries may be absent (`None`). */
module ExecutionTokens {
  import opened Text

  datatype IoDict = IoDict(allowed: Option<bool>, scopes: Option<seq<string>>, endpoints: Option<seq<string>>,
                           budgetCalls: Option<int>, requiresReconciliation: Option<bool>, requiresDeltaS: Option<bool>,
                           mode: Option<string>, timeoutMs: Option<int>, noncePolicy: Option<string>,
                           redactionPolicyId: Option<string>)

  datatype IoPolicy = IoPolicy(allowed: bool, scopes: seq<string>, endpoints: seq<string>, budgetCalls: Option<int>,
                               requiresReconciliation: bool, requiresDeltaS: bool, mode: string, timeoutMs: int,
                               noncePolicy: string, redactionPolicyId: string)

  datatype NetDict = NetDict(mode: Option<string>, caps: Option<seq<string>>, endpoints: Option<seq<string>>,
                             budgetCalls: Option<int>, timeoutMs: Option<int>, noncePolicy: Option<string>,
                             redactionPolicyId: Option<string>, cryptoPolicyId: Option<string>)

  datatype NetPolicy = NetPolicy(mode: string, caps: seq<string>, endpoints: seq<string>, budgetCalls: Option<int>,
                                 timeoutMs: int, noncePolicy: string, redactionPolicyId: string, cryptoPolicyId: string)

  type DeltaSPolicy = map<string, string>

  datatype ExecutionToken = ExecutionToken(
    tokenId: string, allowedBackends: seq<string>, preferredBackend: Option<string>, budgetSteps: int,
    determinismMode: string, ioPolicy: Option<IoPolicy>, netPolicy: Option<NetPolicy>,
    deltaSPolicy: Option<DeltaSPolicy>, deltaSBudget: int, measurementModesAllowed: Option<seq<string>>,
    collapseRequiresDeltaS: bool, notes: Option<string>)

  datatype TokenDict = TokenDict(
    tokenId: Option<string>, allowedBackends: Option<seq<string>>, preferredBackend: Option<string>,
    budgetSteps: Option<int>, determinismMode: Option<string>, ioPolicy: Option<IoDict>, netPolicy: Option<NetDict>,
    deltaSPolicy: Option<DeltaSPolicy>, deltaSBudget: Option<int>, measurementModesAllowed: Option<seq<string>>,
    collapseRequiresDeltaS: Option<bool>, notes: Option<string>)

  /** What the token id is the digest of. */
  datatype Core = Core(allowedBackends: seq<string>, preferredBackend: Option<string>, budgetSteps: int,
                       determinismMode: string, ioPolicy: Option<IoPolicy>, netPolicy: Option<NetPolicy>,
                       deltaSPolicy: DeltaSPolicy, deltaSBudget: int, modes: seq<string>, collapseRequiresDeltaS: bool)

  const DEFAULT_BACKENDS := ["PYTHON", "CLASSICAL", "QASM"]

  function GetOr<T>(value: Option<T>, default: T): T {
    match value case Some(v) => v case None => default
  }

  function NonBlank(items: seq<string>): seq<string> {
    if items == [] then [] else (if Blank(items[0]) then [] else [items[0]]) + NonBlank(items[1..])
  }

  function Map(f: string -> string, items: seq<string>): seq<string> {
    seq(|items|, i requires 0 <= i < |items| => f(items[i]))
  }

  /** `sorted({str(item).upper() for item in items if str(item).strip()})`: backends, modes, scopes and caps. */
  function NormalizeModes(items: seq<string>): seq<string> {
    SortDistinct(Map(Upper, NonBlank(items)))
  }

  /** `sorted({str(item).strip() for item in items if str(item).strip()})` */
  function NormalizeEndpoints(items: seq<string>): seq<string> {
    SortDistinct(Map(Strip, NonBlank(items)))
  }

  function NormalizeMode(mode: string): string {
    if Lower(mode) in {"dry_run", "live"} then Lower(mode) else "dry_run"
  }

  function NormalizeIoPolicy(d: Option<IoDict>): Option<IoPolicy> {
    match d
    case None => None
    case Some(p) => Some(IoPolicy(
      GetOr(p.allowed, false), NormalizeModes(GetOr(p.scopes, [])), NormalizeEndpoints(GetOr(p.endpoints, [])),
      p.budgetCalls, GetOr(p.requiresReconciliation, true), GetOr(p.requiresDeltaS, false),
      NormalizeMode(GetOr(p.mode, "dry_run")), GetOr(p.timeoutMs, 2500),
      GetOr(p.noncePolicy, "HPL_DETERMINISTIC_NONCE_V1"), GetOr(p.redactionPolicyId, "R1")))
  }

  function NormalizeNetPolicy(d: Option<NetDict>): Option<NetPolicy> {
    match d
    case None => None
    case Some(p) => Some(NetPolicy(
      NormalizeMode(GetOr(p.mode, "dry_run")), NormalizeModes(GetOr(p.caps, [])),
      NormalizeEndpoints(GetOr(p.endpoints, [])), p.budgetCalls, GetOr(p.timeoutMs, 2500),
      GetOr(p.noncePolicy, "HPL_DETERMINISTIC_NONCE_V1"), GetOr(p.redactionPolicyId, "R1"),
      GetOr(p.cryptoPolicyId, "QKX1")))
  }

  function IoToDict(p: Option<IoPolicy>): Option<IoDict> {
    match p
    case None => None
    case Some(p) => Some(IoDict(Some(p.allowed), Some(p.scopes), Some(p.endpoints), p.budgetCalls,
      Some(p.requiresReconciliation), Some(p.requiresDeltaS), Some(p.mode), Some(p.timeoutMs), Some(p.noncePolicy),
      Some(p.redactionPolicyId)))
  }

  function NetToDict(p: Option<NetPolicy>): Option<NetDict> {
    match p
    case None => None
    case Some(p) => Some(NetDict(Some(p.mode), Some(p.caps), Some(p.endpoints), p.budgetCalls, Some(p.timeoutMs),
      Some(p.noncePolicy), Some(p.redactionPolicyId), Some(p.cryptoPolicyId)))
  }

  /** `preferred.upper() if preferred else None` */
  function NormalizePreferred(preferred: Option<string>): Option<string> {
    if preferred.Some? && preferred.value != "" then Some(Upper(preferred.value)) else None
  }

  /** `ExecutionToken.build`; `sha` stands for the hex digest of the core's canonical JSON. */
  function Build(sha: Core -> string, allowedBackends: seq<string>, preferredBackend: Option<string>, budgetSteps: int,
                 determinismMode: string, ioPolicy: Option<IoDict>, netPolicy: Option<NetDict>,
                 deltaSPolicy: Option<DeltaSPolicy>, deltaSBudget: int, modes: seq<string>, collapse: bool,
                 notes: Option<string>): ExecutionToken
  {
    var allowed := NormalizeModes(if allowedBackends == [] then DEFAULT_BACKENDS else allowedBackends);
    var preferred := NormalizePreferred(preferredBackend);
    var normalized := NormalizeModes(modes);
    var io, net := NormalizeIoPolicy(ioPolicy), NormalizeNetPolicy(netPolicy);
    var core := Core(allowed, preferred, budgetSteps, determinismMode, io, net, GetOr(deltaSPolicy, map[]),
                     deltaSBudget, normalized, collapse);
    ExecutionToken("sha256:" + sha(core), allowed, preferred, budgetSteps, determinismMode, io, net, deltaSPolicy,
                   deltaSBudget, if normalized == [] then None else Some(normalized), collapse, notes)
  }

  function ToDict(t: ExecutionToken): TokenDict {
    TokenDict(Some(t.tokenId), Some(t.allowedBackends), t.preferredBackend, Some(t.budgetSteps),
              Some(t.determinismMode), IoToDict(t.ioPolicy), NetToDict(t.netPolicy), t.deltaSPolicy,
              if t.deltaSBudget != 0 then Some(t.deltaSBudget) else None, t.measurementModesAllowed,
              if t.collapseRequiresDeltaS then Some(true) else None, t.notes)
  }

  function FromDict(sha: Core -> string, d: TokenDict): ExecutionToken {
    var allowed := GetOr(d.allowedBackends, []);
    var budget := GetOr(d.budgetSteps, 100);
    var mode := GetOr(d.determinismMode, "deterministic");
    var io, net := NormalizeIoPolicy(d.ioPolicy), NormalizeNetPolicy(d.netPolicy);
    var deltaS := GetOr(d.deltaSBudget, 0);
    var modes := GetOr(d.measurementModesAllowed, []);
    var collapse := GetOr(d.collapseRequiresDeltaS, false);
    var tokenId := GetOr(d.tokenId, "");
    if tokenId == "" then
      Build(sha, allowed, d.preferredBackend, budget, mode, IoToDict(io), NetToDict(net), d.deltaSPolicy, deltaS, modes,
            collapse, d.notes)
    else
      ExecutionToken(tokenId, NormalizeModes(allowed), NormalizePreferred(d.preferredBackend), budget, mode, io, net,
                     d.deltaSPolicy, deltaS, if modes == [] then None else Some(NormalizeModes(modes)), collapse,
                     d.notes)
  }

  // ----- the normalizers are idempotent

  lemma {:induction false} NonBlankMembers(items: seq<string>)
    ensures forall x :: x in NonBlank(items) <==> x in items && !Blank(x)
  {
    if items != [] {
      assert items == [items[0]] + items[1..];
      NonBlankMembers(items[1..]);
    }
  }

  lemma {:induction false} NonBlankIdentity(items: seq<string>)
    requires forall x :: x in items ==> !Blank(x)
    ensures NonBlank(items) == items
  {
    if items != [] {
      assert items[0] in items;
      NonBlankIdentity(items[1..]);
    }
  }

  lemma NormalizeModesIdempotent(items: seq<string>)
    ensures NormalizeModes(NormalizeModes(items)) == NormalizeModes(items)
    ensures NormalizeModes(items) == [] <==> forall x :: x in items ==> Blank(x)
  {
    var kept := NonBlank(items);
    var r := NormalizeModes(items);
    NonBlankMembers(items);
    SortDistinctCorrect(Map(Upper, kept));
    forall x | x in r ensures !Blank(x) && Upper(x) == x {
      assert x in Map(Upper, kept);
      var i :| 0 <= i < |kept| && x == Map(Upper, kept)[i];
      assert kept[i] in kept;
      UpperIdempotent(kept[i]);
    }
    NonBlankIdentity(r);
    forall i | 0 <= i < |r| ensures Map(Upper, r)[i] == r[i] { assert r[i] in r; }
    assert Map(Upper, r) == r;
    SortDistinctIdempotent(r);
    if x :| x in items && !Blank(x) {
      var i :| 0 <= i < |kept| && kept[i] == x;
      assert Map(Upper, kept)[i] in r;
    }
    if r != [] {
      assert r[0] in r;
      var i :| 0 <= i < |kept| && r[0] == Map(Upper, kept)[i];
      assert kept[i] in kept;
    }
  }

  lemma NormalizeEndpointsIdempotent(items: seq<string>)
    ensures NormalizeEndpoints(NormalizeEndpoints(items)) == NormalizeEndpoints(items)
  {
    var kept := NonBlank(items);
    var r := NormalizeEndpoints(items);
    NonBlankMembers(items);
    SortDistinctCorrect(Map(Strip, kept));
    forall x | x in r ensures !Blank(x) && Strip(x) == x {
      var i :| 0 <= i < |kept| && x == Map(Strip, kept)[i];
      assert kept[i] in kept;
      StripIdempotent(kept[i]);
    }
    NonBlankIdentity(r);
    forall i | 0 <= i < |r| ensures Map(Strip, r)[i] == r[i] { assert r[i] in r; }
    assert Map(Strip, r) == r;
    SortDistinctIdempotent(r);
  }

  lemma NormalizeModeIdempotent(mode: string)
    ensures NormalizeMode(NormalizeMode(mode)) == NormalizeMode(mode)
  {
    assert Lower("dry_run") == "dry_run" && Lower("live") == "live";
  }

  /** Writing a normalized policy to a dict and normalizing it again gives the policy back. */
  lemma PoliciesRoundTrip(io: Option<IoDict>, net: Option<NetDict>)
    ensures NormalizeIoPolicy(IoToDict(NormalizeIoPolicy(io))) == NormalizeIoPolicy(io)
    ensures NormalizeNetPolicy(NetToDict(NormalizeNetPolicy(net))) == NormalizeNetPolicy(net)
  {
    if io.Some? {
      NormalizeModesIdempotent(GetOr(io.value.scopes, []));
      NormalizeEndpointsIdempotent(GetOr(io.value.endpoints, []));
      NormalizeModeIdempotent(GetOr(io.value.mode, "dry_run"));
    }
    if net.Some? {
      NormalizeModesIdempotent(GetOr(net.value.caps, []));
      NormalizeEndpointsIdempotent(GetOr(net.value.endpoints, []));
      NormalizeModeIdempotent(GetOr(net.value.mode, "dry_run"));
    }
  }

  lemma PreferredIdempotent(preferred: Option<string>)
    ensures NormalizePreferred(NormalizePreferred(preferred)) == NormalizePreferred(preferred)
  {
    if preferred.Some? { UpperIdempotent(preferred.value); }
  }

  /** The state a token is in after `build` or `from_dict`: every normalizer leaves it alone. */
  ghost predicate Normal(t: ExecutionToken) {
    && t.tokenId != ""
    && NormalizeModes(t.allowedBackends) == t.allowedBackends
    && NormalizePreferred(t.preferredBackend) == t.preferredBackend
    && NormalizeIoPolicy(IoToDict(t.ioPolicy)) == t.ioPolicy
    && NormalizeNetPolicy(NetToDict(t.netPolicy)) == t.netPolicy
    && (t.measurementModesAllowed.Some? ==>
          NormalizeModes(t.measurementModesAllowed.value) == t.measurementModesAllowed.value)
  }

  lemma FromDictIsNormal(sha: Core -> string, d: TokenDict)
    ensures Normal(FromDict(sha, d))
  {
    NormalizeModesIdempotent(GetOr(d.allowedBackends, []));
    NormalizeModesIdempotent(GetOr(d.measurementModesAllowed, []));
    PreferredIdempotent(d.preferredBackend);
    PoliciesRoundTrip(d.ioPolicy, d.netPolicy);
    if GetOr(d.tokenId, "") == "" { NormalizeModesIdempotent(DEFAULT_BACKENDS); }
  }

  /** Storing and loading a normal token gives it back, unless its mode list is the empty list. */
  lemma NormalRoundTrip(sha: Core -> string, t: ExecutionToken)
    requires Normal(t)
    ensures FromDict(sha, ToDict(t)) == t <==> t.measurementModesAllowed != Some([])
  {}

  /** `from_dict(to_dict(t)) == t` for every token `build` makes. */
  lemma BuildRoundTrip(sha: Core -> string, allowed: seq<string>, preferred: Option<string>, budget: int, mode: string,
                       io: Option<IoDict>, net: Option<NetDict>, deltaS: Option<DeltaSPolicy>, deltaSBudget: int,
                       modes: seq<string>, collapse: bool, notes: Option<string>)
    ensures var t := Build(sha, allowed, preferred, budget, mode, io, net, deltaS, deltaSBudget, modes, collapse,
                           notes);
            FromDict(sha, ToDict(t)) == t
  {
    NormalizeModesIdempotent(if allowed == [] then DEFAULT_BACKENDS else allowed);
    NormalizeModesIdempotent(modes);
    PreferredIdempotent(preferred);
    PoliciesRoundTrip(io, net);
  }

  /** Loading is a projection up to one corner: reloading a loaded token gives it back unless the dict
      carried an id and a non-empty mode list holding only blank names. */
  lemma LoadedRoundTrip(sha: Core -> string, d: TokenDict)
    ensures var t := FromDict(sha, d);
            var modes := GetOr(d.measurementModesAllowed, []);
            FromDict(sha, ToDict(t)) == t <==>
              GetOr(d.tokenId, "") == "" || modes == [] || exists x :: x in modes && !Blank(x)
  {
    FromDictIsNormal(sha, d);
    NormalRoundTrip(sha, FromDict(sha, d));
    NormalizeModesIdempotent(GetOr(d.measurementModesAllowed, []));
  }

  /** A stored token whose only measurement mode is blank. */
  const BLANK_MODE_DICT :=
    TokenDict(Some("t"), None, None, None, None, None, None, None, None, Some([" "]), None, None)

  /** It does not survive storing and loading. */
  lemma BlankModeLost(sha: Core -> string)
    ensures FromDict(sha, ToDict(FromDict(sha, BLANK_MODE_DICT))) != FromDict(sha, BLANK_MODE_DICT)
  {
    assert forall x :: x in [" "] ==> x == " ";
    assert Blank(" ");
    LoadedRoundTrip(sha, BLANK_MODE_DICT);
  }

  lemma DefaultBackendsNonEmpty()
    ensures NormalizeModes(DEFAULT_BACKENDS) != []
  {
    NormalizeModesIdempotent(DEFAULT_BACKENDS);
    assert !Blank(DEFAULT_BACKENDS[0]) by { assert !IsSpace(DEFAULT_BACKENDS[0][0]); }
    assert DEFAULT_BACKENDS[0] in DEFAULT_BACKENDS;
  }

  /** Dropping the id from a built token's dict and loading rebuilds the same token, id included,
      exactly when the normalized backend list is not empty. */
  lemma RebuildWithoutId(sha: Core -> string, allowed: seq<string>, preferred: Option<string>, budget: int,
                         mode: string, io: Option<IoDict>, net: Option<NetDict>, deltaS: Option<DeltaSPolicy>,
                         deltaSBudget: int, modes: seq<string>, collapse: bool, notes: Option<string>)
    ensures var t := Build(sha, allowed, preferred, budget, mode, io, net, deltaS, deltaSBudget, modes, collapse,
                           notes);
            FromDict(sha, ToDict(t).(tokenId := None)) == t <==> t.allowedBackends != []
  {
    NormalizeModesIdempotent(if allowed == [] then DEFAULT_BACKENDS else allowed);
    DefaultBackendsNonEmpty();
    NormalizeModesIdempotent(modes);
    NormalizeModesIdempotent([]);
    PreferredIdempotent(preferred);
    PoliciesRoundTrip(io, net);
  }

  /** A token built for a blank backend only is not rebuilt without its id: it would get the default backends. */
  lemma BlankBackendLost(sha: Core -> string)
    ensures var t := Build(sha, [" "], None, 100, "deterministic", None, None, None, 0, [], false, None);
            FromDict(sha, ToDict(t).(tokenId := None)) != t
  {
    assert forall x :: x in [" "] ==> x == " ";
    assert Blank(" ");
    NormalizeModesIdempotent([" "]);
    RebuildWithoutId(sha, [" "], None, 100, "deterministic", None, None, None, 0, [], false, None);
  }

  // ----- how a token depends on what it is built or loaded from

  /** `r` lists the given names that are not blank, in upper case, sorted and without repetition. */
  ghost predicate Names(r: seq<string>, given: seq<string>) {
    StrictlySorted(r) && forall x :: x in r <==> exists y :: y in given && !Blank(y) && x == Upper(y)
  }

  /** `r` lists the given endpoints that are not blank, stripped, sorted and without repetition. */
  ghost predicate Endpoints(r: seq<string>, given: seq<string>) {
    StrictlySorted(r) && forall x :: x in r <==> exists y :: y in given && !Blank(y) && x == Strip(y)
  }

  lemma MapMembers(f: string -> string, items: seq<string>)
    ensures forall x :: x in Map(f, items) <==> exists y :: y in items && x == f(y)
  {
    forall x ensures x in Map(f, items) <==> exists y :: y in items && x == f(y) {
      if x in Map(f, items) {
        var i :| 0 <= i < |items| && Map(f, items)[i] == x;
        assert items[i] in items;
      }
      if y :| y in items && x == f(y) {
        var i :| 0 <= i < |items| && items[i] == y;
        assert Map(f, items)[i] == x;
      }
    }
  }

  lemma ModesAreNames(given: seq<string>)
    ensures Names(NormalizeModes(given), given)
  {
    NonBlankMembers(given);
    MapMembers(Upper, NonBlank(given));
    SortDistinctCorrect(Map(Upper, NonBlank(given)));
  }

  lemma EndpointsAreStripped(given: seq<string>)
    ensures Endpoints(NormalizeEndpoints(given), given)
  {
    NonBlankMembers(given);
    MapMembers(Strip, NonBlank(given));
    SortDistinctCorrect(Map(Strip, NonBlank(given)));
  }

  /** A mode is live if the dict says so in any case of letters, and dry otherwise. */
  predicate ModeOf(mode: string, given: Option<string>) {
    mode == if given.Some? && Lower(given.value) == "live" then "live" else "dry_run"
  }

  predicate ValueOr<T(==)>(value: T, given: Option<T>, default: T) {
    value == if given.Some? then given.value else default
  }

  function Listed(given: Option<seq<string>>): seq<string> {
    if given.Some? then given.value else []
  }

  /** An IO policy and the dict it stands for. */
  ghost predicate IoStands(p: Option<IoPolicy>, d: Option<IoDict>) {
    && (p.Some? <==> d.Some?)
    && (p.Some? ==>
          && (p.value.allowed <==> d.value.allowed == Some(true))
          && Names(p.value.scopes, Listed(d.value.scopes)) && Endpoints(p.value.endpoints, Listed(d.value.endpoints))
          && p.value.budgetCalls == d.value.budgetCalls
          && (p.value.requiresReconciliation <==> d.value.requiresReconciliation != Some(false))
          && (p.value.requiresDeltaS <==> d.value.requiresDeltaS == Some(true))
          && ModeOf(p.value.mode, d.value.mode) && ValueOr(p.value.timeoutMs, d.value.timeoutMs, 2500)
          && ValueOr(p.value.noncePolicy, d.value.noncePolicy, "HPL_DETERMINISTIC_NONCE_V1")
          && ValueOr(p.value.redactionPolicyId, d.value.redactionPolicyId, "R1"))
  }

  /** A NET policy and the dict it stands for. */
  ghost predicate NetStands(p: Option<NetPolicy>, d: Option<NetDict>) {
    && (p.Some? <==> d.Some?)
    && (p.Some? ==>
          && Names(p.value.caps, Listed(d.value.caps)) && Endpoints(p.value.endpoints, Listed(d.value.endpoints))
          && p.value.budgetCalls == d.value.budgetCalls
          && ModeOf(p.value.mode, d.value.mode) && ValueOr(p.value.timeoutMs, d.value.timeoutMs, 2500)
          && ValueOr(p.value.noncePolicy, d.value.noncePolicy, "HPL_DETERMINISTIC_NONCE_V1")
          && ValueOr(p.value.redactionPolicyId, d.value.redactionPolicyId, "R1")
          && ValueOr(p.value.cryptoPolicyId, d.value.cryptoPolicyId, "QKX1"))
  }

  lemma ModeStands(given: Option<string>)
    ensures ModeOf(NormalizeMode(GetOr(given, "dry_run")), given)
  {
    assert Lower("dry_run") == "dry_run";
  }

  lemma PoliciesStand(io: Option<IoDict>, net: Option<NetDict>)
    ensures IoStands(NormalizeIoPolicy(io), io) && NetStands(NormalizeNetPolicy(net), net)
  {
    if io.Some? {
      ModesAreNames(Listed(io.value.scopes));
      EndpointsAreStripped(Listed(io.value.endpoints));
      ModeStands(io.value.mode);
    }
    if net.Some? {
      ModesAreNames(Listed(net.value.caps));
      EndpointsAreStripped(Listed(net.value.endpoints));
      ModeStands(net.value.mode);
    }
  }

  /** The id of a token that was built is the digest of its own other fields, the notes excepted. */
  predicate OwnsId(sha: Core -> string, t: ExecutionToken) {
    t.tokenId == "sha256:" + sha(Core(t.allowedBackends, t.preferredBackend, t.budgetSteps, t.determinismMode,
                                      t.ioPolicy, t.netPolicy,
                                      if t.deltaSPolicy.Some? then t.deltaSPolicy.value else map[],
                                      t.deltaSBudget, Listed(t.measurementModesAllowed), t.collapseRequiresDeltaS))
  }

  /** The upper-case form of a preferred backend, if one is named. */
  predicate Preferred(preferred: Option<string>, given: Option<string>) {
    preferred == if given.Some? && given.value != "" then Some(Upper(given.value)) else None
  }

  /** Every field of a built token in terms of the argument it comes from. */
  lemma BuildMeans(sha: Core -> string, allowed: seq<string>, preferred: Option<string>, budget: int, mode: string,
                   io: Option<IoDict>, net: Option<NetDict>, deltaS: Option<DeltaSPolicy>, deltaSBudget: int,
                   modes: seq<string>, collapse: bool, notes: Option<string>)
    ensures var t := Build(sha, allowed, preferred, budget, mode, io, net, deltaS, deltaSBudget, modes, collapse,
                           notes);
            && OwnsId(sha, t) && IoStands(t.ioPolicy, io) && NetStands(t.netPolicy, net)
            && Names(t.allowedBackends, if allowed == [] then ["PYTHON", "CLASSICAL", "QASM"] else allowed)
            && Preferred(t.preferredBackend, preferred)
            && t.budgetSteps == budget && t.determinismMode == mode && t.deltaSPolicy == deltaS
            && t.deltaSBudget == deltaSBudget && t.collapseRequiresDeltaS == collapse && t.notes == notes
            && Names(Listed(t.measurementModesAllowed), modes) && t.measurementModesAllowed != Some([])
  {
    ModesAreNames(if allowed == [] then DEFAULT_BACKENDS else allowed);
    ModesAreNames(modes);
    PoliciesStand(io, net);
  }

  /** The fields a loaded token takes from its dict in the same way, whether or not it has an id. */
  ghost predicate Loads(t: ExecutionToken, d: TokenDict) {
    && Preferred(t.preferredBackend, d.preferredBackend)
    && ValueOr(t.budgetSteps, d.budgetSteps, 100)
    && ValueOr(t.determinismMode, d.determinismMode, "deterministic")
    && t.deltaSPolicy == d.deltaSPolicy && ValueOr(t.deltaSBudget, d.deltaSBudget, 0)
    && (t.collapseRequiresDeltaS <==> d.collapseRequiresDeltaS == Some(true)) && t.notes == d.notes
  }

  lemma LoadedPlain(sha: Core -> string, d: TokenDict)
    ensures Loads(FromDict(sha, d), d)
  {}

  lemma LoadedId(sha: Core -> string, d: TokenDict)
    ensures if d.tokenId.Some? && d.tokenId.value != "" then FromDict(sha, d).tokenId == d.tokenId.value
            else OwnsId(sha, FromDict(sha, d))
  {}

  lemma LoadedPolicies(sha: Core -> string, d: TokenDict)
    ensures IoStands(FromDict(sha, d).ioPolicy, d.ioPolicy) && NetStands(FromDict(sha, d).netPolicy, d.netPolicy)
  {
    PoliciesRoundTrip(d.ioPolicy, d.netPolicy);
    assert FromDict(sha, d).ioPolicy == NormalizeIoPolicy(d.ioPolicy);
    assert FromDict(sha, d).netPolicy == NormalizeNetPolicy(d.netPolicy);
    PoliciesStand(d.ioPolicy, d.netPolicy);
  }

  lemma LoadedNames(sha: Core -> string, d: TokenDict)
    ensures var t := FromDict(sha, d);
            && Names(t.allowedBackends, if (d.tokenId.None? || d.tokenId.value == "") && Listed(d.allowedBackends) == []
                                        then ["PYTHON", "CLASSICAL", "QASM"] else Listed(d.allowedBackends))
            && Names(Listed(t.measurementModesAllowed), Listed(d.measurementModesAllowed))
  {
    ModesAreNames(DEFAULT_BACKENDS);
    ModesAreNames(Listed(d.allowedBackends));
    ModesAreNames(Listed(d.measurementModesAllowed));
  }

  /** Every field of a loaded token in terms of the entry it comes from, or of its default. */
  lemma FromDictMeans(sha: Core -> string, d: TokenDict)
    ensures var t := FromDict(sha, d);
            var named := d.tokenId.Some? && d.tokenId.value != "";
            && (if named then t.tokenId == d.tokenId.value else OwnsId(sha, t))
            && IoStands(t.ioPolicy, d.ioPolicy) && NetStands(t.netPolicy, d.netPolicy) && Loads(t, d)
            && Names(t.allowedBackends, if !named && Listed(d.allowedBackends) == []
                                        then ["PYTHON", "CLASSICAL", "QASM"] else Listed(d.allowedBackends))
            && Names(Listed(t.measurementModesAllowed), Listed(d.measurementModesAllowed))
  {
    LoadedPlain(sha, d);
    LoadedId(sha, d);
    LoadedPolicies(sha, d);
    LoadedNames(sha, d);
  }

  /** What is written: every field as it is, a delta-S budget of 0 and a collapse flag that is not set left out. */
  lemma ToDictMeans(t: ExecutionToken)
    ensures var d := ToDict(t);
            && d.tokenId == Some(t.tokenId) && d.allowedBackends == Some(t.allowedBackends)
            && d.preferredBackend == t.preferredBackend && d.budgetSteps == Some(t.budgetSteps)
            && d.determinismMode == Some(t.determinismMode) && d.deltaSPolicy == t.deltaSPolicy
            && (d.deltaSBudget == if t.deltaSBudget == 0 then None else Some(t.deltaSBudget))
            && d.measurementModesAllowed == t.measurementModesAllowed && d.notes == t.notes
            && (d.collapseRequiresDeltaS == if t.collapseRequiresDeltaS then Some(true) else None)
            && (d.ioPolicy.Some? <==> t.ioPolicy.Some?) && (d.netPolicy.Some? <==> t.netPolicy.Some?)
            && (t.ioPolicy.Some? ==>
                  var p, e := t.ioPolicy.value, d.ioPolicy.value;
                  && e.allowed == Some(p.allowed) && e.scopes == Some(p.scopes) && e.endpoints == Some(p.endpoints)
                  && e.budgetCalls == p.budgetCalls && e.requiresReconciliation == Some(p.requiresReconciliation)
                  && e.requiresDeltaS == Some(p.requiresDeltaS) && e.mode == Some(p.mode)
                  && e.timeoutMs == Some(p.timeoutMs) && e.noncePolicy == Some(p.noncePolicy)
                  && e.redactionPolicyId == Some(p.redactionPolicyId))
            && (t.netPolicy.Some? ==>
                  var p, e := t.netPolicy.value, d.netPolicy.value;
                  && e.mode == Some(p.mode) && e.caps == Some(p.caps) && e.endpoints == Some(p.endpoints)
                  && e.budgetCalls == p.budgetCalls && e.timeoutMs == Some(p.timeoutMs)
                  && e.noncePolicy == Some(p.noncePolicy) && e.redactionPolicyId == Some(p.redactionPolicyId)
                  && e.cryptoPolicyId == Some(p.cryptoPolicyId))
  {}
}
