/** Causal token inheritance: `token_tree.py`, `parent_scheduler.py` and `child_agent.py` under
    `tools/hpl-agent/hpl_agent/ctih/`. The derivation of a token id from the root id and a scope
    (SHA-256 of their canonical JSON) is a parameter; issue times and revocation callbacks are left out. */
module CausalTokens {
  import opened Text

  // ----- scopes

  datatype TokenScope = TokenScope(allowedBackends: seq<string>, budgetSteps: int, enableIo: bool, enableNet: bool,
                                   allowToolNames: seq<string>)

  function Keep(items: seq<string>, allowed: seq<string>): (r: seq<string>)
    ensures forall x :: x in r <==> x in items && x in allowed
  {
    if items == [] then [] else (if items[0] in allowed then [items[0]] else []) + Keep(items[1..], allowed)
  }

  /** `TokenScope.intersect` */
  function Intersect(scope: TokenScope, request: TokenScope): TokenScope {
    TokenScope(Keep(request.allowedBackends, scope.allowedBackends),
               if scope.budgetSteps < request.budgetSteps then scope.budgetSteps else request.budgetSteps,
               scope.enableIo && request.enableIo, scope.enableNet && request.enableNet,
               Keep(request.allowToolNames, scope.allowToolNames))
  }

  /** `a` lists no authority that `b` does not list. */
  ghost predicate Attenuates(a: TokenScope, b: TokenScope) {
    && (forall x :: x in a.allowedBackends ==> x in b.allowedBackends) && a.budgetSteps <= b.budgetSteps
    && (a.enableIo ==> b.enableIo) && (a.enableNet ==> b.enableNet)
    && (forall x :: x in a.allowToolNames ==> x in b.allowToolNames)
  }

  /** The intersection is the greatest scope that attenuates both. */
  lemma IntersectIsMeet(scope: TokenScope, request: TokenScope, other: TokenScope)
    ensures Attenuates(Intersect(scope, request), scope) && Attenuates(Intersect(scope, request), request)
    ensures Attenuates(other, scope) && Attenuates(other, request) <==> Attenuates(other, Intersect(scope, request))
  {}

  lemma {:induction false} KeepsAll(items: seq<string>, allowed: seq<string>)
    ensures |Keep(items, allowed)| <= |items|
    ensures Keep(items, allowed) == items <==> forall x :: x in items ==> x in allowed
  {
    if items != [] {
      KeepsAll(items[1..], allowed);
      assert items == [items[0]] + items[1..];
    }
  }

  /** A request is granted unchanged, order and repetitions included, exactly when it is within the scope;
      so intersecting again changes nothing. */
  lemma GrantedAsRequested(scope: TokenScope, request: TokenScope)
    ensures Intersect(scope, request) == request <==> Attenuates(request, scope)
    ensures Intersect(scope, Intersect(scope, request)) == Intersect(scope, request)
  {
    KeepsAll(request.allowedBackends, scope.allowedBackends);
    KeepsAll(request.allowToolNames, scope.allowToolNames);
    KeepsAll(Intersect(scope, request).allowedBackends, scope.allowedBackends);
    KeepsAll(Intersect(scope, request).allowToolNames, scope.allowToolNames);
  }

  /** The tool filter of a child's turn: an empty list of names filters nothing out. */
  function ToolsOffered(scope: TokenScope, definitions: seq<string>): seq<string> {
    if scope.allowToolNames == [] then definitions else Keep(definitions, scope.allowToolNames)
  }

  /** `tools` are the definitions left when those with names that are not allowed are struck out; no name at all
      allows every one. */
  predicate Chosen(tools: seq<string>, definitions: seq<string>, names: seq<string>) {
    if definitions == [] then tools == []
    else if names == [] || definitions[0] in names then
      tools != [] && tools[0] == definitions[0] && Chosen(tools[1..], definitions[1..], names)
    else Chosen(tools, definitions[1..], names)
  }

  /** A tool is given exactly if it is defined and allowed, as often as it is defined. */
  lemma {:induction false} ChosenMeans(tools: seq<string>, definitions: seq<string>, names: seq<string>, x: string)
    requires Chosen(tools, definitions, names)
    ensures x in tools <==> x in definitions && (names == [] || x in names)
    ensures multiset(tools)[x] == if names == [] || x in names then multiset(definitions)[x] else 0
  {
    if definitions != [] {
      assert definitions == [definitions[0]] + definitions[1..];
      if names == [] || definitions[0] in names {
        assert tools == [tools[0]] + tools[1..];
        ChosenMeans(tools[1..], definitions[1..], names, x);
      } else {
        ChosenMeans(tools, definitions[1..], names, x);
      }
    }
  }

  /** All definitions are given exactly if all of them are allowed. */
  lemma {:induction false} ChosenAll(tools: seq<string>, definitions: seq<string>, names: seq<string>)
    requires Chosen(tools, definitions, names)
    ensures |tools| <= |definitions|
    ensures tools == definitions <==> names == [] || forall x :: x in definitions ==> x in names
  {
    if definitions != [] {
      assert definitions == [definitions[0]] + definitions[1..];
      if names == [] || definitions[0] in names {
        assert tools == [tools[0]] + tools[1..];
        ChosenAll(tools[1..], definitions[1..], names);
      } else {
        ChosenAll(tools, definitions[1..], names);
      }
    }
  }

  /** Increasing positions at which the tools stand among the definitions. */
  predicate Positions(at: seq<nat>, tools: seq<string>, definitions: seq<string>) {
    && |at| == |tools| && (forall k, l :: 0 <= k < l < |at| ==> at[k] < at[l])
    && forall k :: 0 <= k < |at| ==> at[k] < |definitions| && definitions[at[k]] == tools[k]
  }

  lemma PositionsShifted(at: seq<nat>, tools: seq<string>, definitions: seq<string>) returns (shifted: seq<nat>)
    requires definitions != [] && Positions(at, tools, definitions[1..])
    ensures Positions(shifted, tools, definitions) && forall k :: 0 <= k < |shifted| ==> shifted[k] > 0
  {
    shifted := seq(|at|, k requires 0 <= k < |at| => at[k] + 1);
  }

  /** The tools keep the order of their definitions. */
  lemma {:induction false} ChosenInOrder(tools: seq<string>, definitions: seq<string>, names: seq<string>)
    returns (at: seq<nat>)
    requires Chosen(tools, definitions, names)
    ensures Positions(at, tools, definitions)
    decreases definitions
  {
    if definitions == [] {
      at := [];
    } else if names == [] || definitions[0] in names {
      var rest := ChosenInOrder(tools[1..], definitions[1..], names);
      var shifted := PositionsShifted(rest, tools[1..], definitions);
      at := [0] + shifted;
    } else {
      var rest := ChosenInOrder(tools, definitions[1..], names);
      at := PositionsShifted(rest, tools, definitions);
    }
  }

  lemma {:induction false} KeepChooses(definitions: seq<string>, names: seq<string>)
    requires names != []
    ensures Chosen(Keep(definitions, names), definitions, names)
  {
    if definitions != [] {
      KeepChooses(definitions[1..], names);
      var kept := Keep(definitions[1..], names);
      if definitions[0] in names {
        assert Keep(definitions, names)[1..] == kept;
      } else {
        assert Keep(definitions, names) == kept;
      }
    }
  }

  lemma {:induction false} AllChosen(definitions: seq<string>)
    ensures Chosen(definitions, definitions, [])
  {
    if definitions != [] { AllChosen(definitions[1..]); }
  }

  lemma OfferedAreChosen(scope: TokenScope, definitions: seq<string>)
    ensures Chosen(ToolsOffered(scope, definitions), definitions, scope.allowToolNames)
  {
    if scope.allowToolNames == [] { AllChosen(definitions); } else { KeepChooses(definitions, scope.allowToolNames); }
  }

  /** So a child is offered no more tools than its root exactly when tools were left in the intersection or
      the root was unrestricted. */
  lemma ToolAttenuation(root: TokenScope, request: TokenScope)
    ensures (forall definitions, x :: x in ToolsOffered(Intersect(root, request), definitions) ==>
                                        x in ToolsOffered(root, definitions)) <==>
              Intersect(root, request).allowToolNames != [] || root.allowToolNames == []
  {
    var scope := Intersect(root, request);
    if scope.allowToolNames == [] && root.allowToolNames != [] {
      var alien := Longer(root.allowToolNames);
      assert alien in ToolsOffered(scope, [alien]) && alien !in ToolsOffered(root, [alien]);
    }
  }

  /** A name that is not in the list. */
  function Longer(names: seq<string>): (r: string)
    ensures forall x :: x in names ==> |x| < |r|
  {
    if names == [] then "x" else
      var r := Longer(names[1..]);
      if |names[0]| < |r| then r else names[0] + "x"
  }

  // ----- the scheduler's state as a value

  datatype DerivedToken = DerivedToken(tokenId: string, parentTokenId: string, childIndex: nat, scope: TokenScope)

  datatype Witness = Witness(subTokenId: string, steps: int, inputTokens: int, outputTokens: int)

  datatype BudgetState = BudgetState(totalSteps: int, totalInput: int, totalOutput: int)

  /** A revocation with the total that caused it and the budget it exceeded. */
  datatype RevocationRecord = RevocationRecord(subTokenId: string, totalSteps: int, allowed: int)

  type IdOf = (string, TokenScope) -> string

  datatype State = State(rootId: string, root: TokenScope, idOf: IdOf, children: seq<DerivedToken>,
                         revoked: set<string>, budgets: map<string, BudgetState>, log: seq<RevocationRecord>)

  /** `next((c for c in children if c.token_id == id), None)` */
  function FindChild(children: seq<DerivedToken>, id: string): Option<DerivedToken> {
    if children == [] then None
    else if children[0].tokenId == id then Some(children[0])
    else FindChild(children[1..], id)
  }

  /** The child with this index and request. */
  function ChildOf(rootId: string, root: TokenScope, idOf: IdOf, index: nat, request: TokenScope): DerivedToken {
    var scope := Intersect(root, request);
    DerivedToken(idOf(rootId, scope), rootId, index, scope)
  }

  function Minted(s: State, request: TokenScope): DerivedToken {
    ChildOf(s.rootId, s.root, s.idOf, |s.children|, request)
  }

  function Spawned(s: State, request: TokenScope): State {
    var child := Minted(s, request);
    s.(children := s.children + [child], budgets := s.budgets[child.tokenId := BudgetState(0, 0, 0)])
  }

  function Revoked(s: State, id: string): State {
    s.(revoked := s.revoked + {id})
  }

  /** Whether a witness is recorded at all. */
  predicate Heard(s: State, w: Witness) {
    w.subTokenId in s.budgets && w.subTokenId !in s.revoked
  }

  function TotalAfter(s: State, w: Witness): BudgetState
    requires w.subTokenId in s.budgets
  {
    var t := s.budgets[w.subTokenId];
    BudgetState(t.totalSteps + w.steps, t.totalInput + w.inputTokens, t.totalOutput + w.outputTokens)
  }

  predicate Exceeds(s: State, w: Witness)
    requires w.subTokenId in s.budgets
  {
    var child := FindChild(s.children, w.subTokenId);
    child.Some? && TotalAfter(s, w).totalSteps > child.value.scope.budgetSteps
  }

  function Received(s: State, w: Witness): State {
    if !Heard(s, w) then s else
      var charged := s.(budgets := s.budgets[w.subTokenId := TotalAfter(s, w)]);
      if !Exceeds(s, w) then charged else
        var record := RevocationRecord(w.subTokenId, TotalAfter(s, w).totalSteps,
                                       FindChild(s.children, w.subTokenId).value.scope.budgetSteps);
        charged.(revoked := s.revoked + {w.subTokenId}, log := s.log + [record])
  }

  /** The answer to a witness: still active. */
  predicate StillActive(s: State, w: Witness) {
    Heard(s, w) && !Exceeds(s, w)
  }

  /** What hearing a report does, entry by entry: nothing unless the token has an account and is not revoked;
      otherwise its account grows by just what is reported; and if it then exceeds the budget of its first child,
      the token is revoked and that is put on record. */
  lemma ReceivedMeans(s: State, w: Witness)
    ensures var r := Received(s, w);
            && (w.subTokenId !in s.budgets || w.subTokenId in s.revoked ==> r == s && !StillActive(s, w))
            && (w.subTokenId in s.budgets && w.subTokenId !in s.revoked ==>
                  var before, after := s.budgets[w.subTokenId], r.budgets[w.subTokenId];
                  var child := FindChild(s.children, w.subTokenId);
                  var steps := before.totalSteps + w.steps;
                  var over := child.Some? && steps > child.value.scope.budgetSteps;
                  && after == BudgetState(steps, before.totalInput + w.inputTokens, before.totalOutput + w.outputTokens)
                  && r.budgets - {w.subTokenId} == s.budgets - {w.subTokenId}
                  && r.children == s.children && r.rootId == s.rootId && r.root == s.root && r.idOf == s.idOf
                  && (StillActive(s, w) <==> !over)
                  && r.revoked == (if over then s.revoked + {w.subTokenId} else s.revoked)
                  && r.log == s.log + if !over then []
                                      else [RevocationRecord(w.subTokenId, steps, child.value.scope.budgetSteps)])
  {}

  /** Spawning adds a child with the meet of root and request under the id derived from it, and opens an empty
      account under this id. */
  lemma SpawnedMeans(s: State, request: TokenScope)
    ensures var r, scope := Spawned(s, request), Intersect(s.root, request);
            var id := s.idOf(s.rootId, scope);
            && Minted(s, request) == DerivedToken(id, s.rootId, |s.children|, scope)
            && r.children == s.children + [Minted(s, request)]
            && id in r.budgets && r.budgets[id] == BudgetState(0, 0, 0) && r.budgets - {id} == s.budgets - {id}
            && r.revoked == s.revoked && r.log == s.log && r.rootId == s.rootId && r.root == s.root && r.idOf == s.idOf
  {}

  predicate FirstWith(children: seq<DerivedToken>, i: int, id: string) {
    0 <= i < |children| && children[i].tokenId == id && forall j :: 0 <= j < i ==> children[j].tokenId != id
  }

  /** The child found is the first with the id. */
  lemma {:induction false} FindChildMeans(children: seq<DerivedToken>, id: string)
    ensures FindChild(children, id).None? ==> forall i :: 0 <= i < |children| ==> children[i].tokenId != id
    ensures FindChild(children, id).Some? ==>
              exists i :: FirstWith(children, i, id) && children[i] == FindChild(children, id).value
  {
    if children != [] {
      if children[0].tokenId == id {
        assert FirstWith(children, 0, id);
      } else {
        FindChildMeans(children[1..], id);
        assert forall i :: 0 < i < |children| ==> children[i] == children[1..][i - 1];
        if FindChild(children, id).Some? {
          var i :| FirstWith(children[1..], i, id) && children[1..][i] == FindChild(children, id).value;
          assert FirstWith(children, i + 1, id);
        }
      }
    }
  }

  // ----- the objects

  class TokenTree {
    const rootTokenId: string
    const rootScope: TokenScope
    const idOf: IdOf
    var children: seq<DerivedToken>
    var revokedTokenIds: set<string>

    constructor (rootTokenId: string, rootScope: TokenScope, idOf: IdOf)
      ensures this.rootTokenId == rootTokenId && this.rootScope == rootScope && this.idOf == idOf
      ensures children == [] && revokedTokenIds == {}
    {
      this.rootTokenId, this.rootScope, this.idOf := rootTokenId, rootScope, idOf;
      children, revokedTokenIds := [], {};
    }

    method MintChild(requested: TokenScope) returns (child: DerivedToken)
      modifies this`children
      ensures child.scope == Intersect(rootScope, requested) && child.tokenId == idOf(rootTokenId, child.scope)
      ensures child.parentTokenId == rootTokenId && child.childIndex == |old(children)|
      ensures children == old(children) + [child]
    {
      var scope := Intersect(rootScope, requested);
      child := DerivedToken(idOf(rootTokenId, scope), rootTokenId, |children|, scope);
      children := children + [child];
    }

    method Revoke(id: string)
      modifies this`revokedTokenIds
      ensures revokedTokenIds == old(revokedTokenIds) + {id}
    {
      revokedTokenIds := revokedTokenIds + {id};
    }

    predicate IsActive(id: string)
      reads this
    {
      id !in revokedTokenIds
    }
  }

  class ParentScheduler {
    const tree: TokenTree
    var budgetStates: map<string, BudgetState>
    var revocationLog: seq<RevocationRecord>

    constructor (tree: TokenTree)
      ensures this.tree == tree && budgetStates == map[] && revocationLog == []
    {
      this.tree := tree;
      budgetStates, revocationLog := map[], [];
    }

    ghost function Value(): State
      reads this, tree
    {
      State(tree.rootTokenId, tree.rootScope, tree.idOf, tree.children, tree.revokedTokenIds, budgetStates,
            revocationLog)
    }

    method SpawnChild(requested: TokenScope) returns (child: DerivedToken)
      modifies this, tree
      ensures Value() == Spawned(old(Value()), requested) && child == Minted(old(Value()), requested)
    {
      child := tree.MintChild(requested);
      budgetStates := budgetStates[child.tokenId := BudgetState(0, 0, 0)];
    }

    method ReceiveWitness(w: Witness) returns (active: bool)
      modifies this, tree
      ensures Value() == Received(old(Value()), w) && active == StillActive(old(Value()), w)
    {
      if w.subTokenId !in budgetStates { return false; }
      if !tree.IsActive(w.subTokenId) { return false; }
      var state := budgetStates[w.subTokenId];
      state := state.(totalSteps := state.totalSteps + w.steps);
      state := state.(totalInput := state.totalInput + w.inputTokens);
      state := state.(totalOutput := state.totalOutput + w.outputTokens);
      budgetStates := budgetStates[w.subTokenId := state];
      var child := FindChild(tree.children, w.subTokenId);
      if child.Some? && state.totalSteps > child.value.scope.budgetSteps {
        var record := RevocationRecord(w.subTokenId, state.totalSteps, child.value.scope.budgetSteps);
        tree.Revoke(w.subTokenId);
        revocationLog := revocationLog + [record];
        return false;
      }
      active := true;
    }
  }

  /** What the engine answers when it is given some tools. */
  datatype EngineResult = EngineResult(toolCalls: nat, inputTokens: int, outputTokens: int, output: string)

  datatype TurnResult = NoTurn | AfterRevocation(output: string) | Response(output: string)

  class ChildAgentSession {
    const token: DerivedToken
    const parent: ParentScheduler
    var stepsThisSession: nat
    var active: bool

    constructor (token: DerivedToken, parent: ParentScheduler)
      ensures this.token == token && this.parent == parent && stepsThisSession == 0 && active
    {
      this.token, this.parent := token, parent;
      stepsThisSession, active := 0, true;
    }

    ghost function Value(): Session
      reads this
    {
      Session(stepsThisSession, active)
    }

    /** One turn: the engine is given the tools the scope allows, and what it answers is charged. */
    method RunTurn(engine: seq<string> -> EngineResult, definitions: seq<string>) returns (r: TurnResult)
      modifies this, parent, parent.tree
      ensures exists tools :: && Chosen(tools, definitions, token.scope.allowToolNames)
                              && var e := engine(tools);
                              && (parent.Value(), Value())
                                 == AfterTurn(old(parent.Value()), old(Value()), token.tokenId, e.toolCalls + 1,
                                              e.inputTokens, e.outputTokens)
                              && r == if !old(active) then NoTurn
                                      else if active then Response(e.output)
                                      else AfterRevocation(e.output)
    {
      OfferedAreChosen(token.scope, definitions);
      if !active { return NoTurn; }
      var tools := definitions;
      if token.scope.allowToolNames != [] { tools := Keep(definitions, token.scope.allowToolNames); }
      var result := engine(tools);
      stepsThisSession := stepsThisSession + result.toolCalls + 1;
      var w := Witness(token.tokenId, stepsThisSession, result.inputTokens, result.outputTokens);
      var stillActive := parent.ReceiveWitness(w);
      if !stillActive {
        active := false;
        return AfterRevocation(result.output);
      }
      r := Response(result.output);
    }
  }

  // ----- every run of the scheduler

  datatype Event = Spawn(request: TokenScope) | Report(report: Witness) | Revoke(id: string)

  function Step(s: State, e: Event): State {
    match e
    case Spawn(request) => Spawned(s, request)
    case Report(report) => Received(s, report)
    case Revoke(id) => Revoked(s, id)
  }

  function Run(s: State, events: seq<Event>): State {
    if events == [] then s else Step(Run(s, events[..|events| - 1]), events[|events| - 1])
  }

  /** What a scheduler starts from. */
  datatype Setup = Setup(rootId: string, root: TokenScope, idOf: IdOf)
  {
    function Start(): State {
      State(rootId, root, idOf, [], {}, map[], [])
    }

    function After(events: seq<Event>): State {
      Run(Start(), events)
    }

    function IdFor(request: TokenScope): string {
      idOf(rootId, Intersect(root, request))
    }
  }

  /** The requests of a run, in order. */
  function Requests(events: seq<Event>): seq<TokenScope> {
    if events == [] then []
    else Requests(events[..|events| - 1])
         + (if events[|events| - 1].Spawn? then [events[|events| - 1].request] else [])
  }

  /** The children after a run are one per request, in order, each with the meet of the root scope and
      its request, under the id derived from that meet. */
  lemma {:induction false} ChildrenAreMeets(setup: Setup, events: seq<Event>)
    ensures var s, requests := setup.After(events), Requests(events);
            && s.rootId == setup.rootId && s.root == setup.root && s.idOf == setup.idOf && |s.children| == |requests|
            && forall i :: 0 <= i < |requests| ==>
                 s.children[i] == ChildOf(setup.rootId, setup.root, setup.idOf, i, requests[i])
  {
    if events != [] {
      var front, last := events[..|events| - 1], events[|events| - 1];
      ChildrenAreMeets(setup, front);
      assert Requests(events) == Requests(front) + if last.Spawn? then [last.request] else [];
    }
  }

  lemma {:induction false} FindChildFinds(children: seq<DerivedToken>, id: string)
    ensures FindChild(children, id).Some? <==> exists c :: c in children && c.tokenId == id
    ensures FindChild(children, id).Some? ==>
              FindChild(children, id).value in children && FindChild(children, id).value.tokenId == id
  {
    if children != [] {
      FindChildFinds(children[1..], id);
      assert children == [children[0]] + children[1..];
    }
  }

  /** Whether the ids of these tokens tell their scopes apart. */
  ghost predicate IdsFaithful(children: seq<DerivedToken>) {
    forall c, d :: c in children && d in children && c.tokenId == d.tokenId ==> c.scope == d.scope
  }

  ghost predicate HasChild(s: State, id: string) {
    exists c :: c in s.children && c.tokenId == id
  }

  /** Every account belongs to a child, and the active ones are within the budget of their scope. */
  ghost predicate AccountsKept(s: State) {
    && (forall c :: c in s.children ==> c.tokenId in s.budgets && c.scope.budgetSteps >= 0)
    && (forall id :: id in s.budgets ==> HasChild(s, id))
    && (forall c :: c in s.children && c.tokenId !in s.revoked ==>
          s.budgets[c.tokenId].totalSteps <= c.scope.budgetSteps)
  }

  /** Logged tokens are revoked, for exceeding their budget, and logged once. */
  ghost predicate LogKept(s: State) {
    && (forall r :: r in s.log ==> r.subTokenId in s.revoked && r.totalSteps > r.allowed)
    && (forall i, j :: 0 <= i < j < |s.log| ==> s.log[i].subTokenId != s.log[j].subTokenId)
  }

  /** What every event keeps. */
  ghost predicate Kept(s: State) {
    AccountsKept(s) && LogKept(s)
  }

  /** The log needs no hypothesis on ids or budgets. */
  lemma LogStays(s: State, e: Event)
    requires LogKept(s)
    ensures LogKept(Step(s, e))
  {}

  lemma SpawnKeeps(s: State, request: TokenScope)
    requires AccountsKept(s) && IdsFaithful(Spawned(s, request).children)
    requires Intersect(s.root, request).budgetSteps >= 0
    ensures AccountsKept(Spawned(s, request))
  {
    var s', child := Spawned(s, request), Minted(s, request);
    assert child in s'.children;
    forall id | id in s'.budgets ensures HasChild(s', id) {
      if id != child.tokenId {
        var c :| c in s.children && c.tokenId == id;
        assert c in s'.children;
      }
    }
    forall c | c in s'.children
      ensures c.tokenId in s'.budgets && c.scope.budgetSteps >= 0
      ensures c.tokenId !in s'.revoked ==> s'.budgets[c.tokenId].totalSteps <= c.scope.budgetSteps
    {
      assert c in s.children || c == child;
    }
  }

  lemma ReportKeeps(s: State, w: Witness)
    requires AccountsKept(s) && IdsFaithful(s.children)
    ensures AccountsKept(Received(s, w))
  {
    if Heard(s, w) {
      FindChildFinds(s.children, w.subTokenId);
      var c := FindChild(s.children, w.subTokenId).value;
      var s' := Received(s, w);
      assert s'.children == s.children;
      forall id | id in s'.budgets ensures HasChild(s', id) { assert HasChild(s, id); }
      forall d | d in s'.children && d.tokenId !in s'.revoked
        ensures s'.budgets[d.tokenId].totalSteps <= d.scope.budgetSteps
      {
        if d.tokenId == w.subTokenId { assert d.scope == c.scope; }
      }
    }
  }

  lemma StepKeeps(s: State, e: Event)
    requires Kept(s) && IdsFaithful(Step(s, e).children)
    requires e.Spawn? ==> Intersect(s.root, e.request).budgetSteps >= 0
    ensures Kept(Step(s, e))
  {
    LogStays(s, e);
    match e
    case Spawn(request) => SpawnKeeps(s, request);
    case Report(report) => ReportKeeps(s, report);
    case Revoke(id) =>
  }

  /** Over every run with non-negative budgets in which ids of different scopes differ, an active token's
      recorded total stays within the budget of its scope. */
  lemma {:induction false} RunsKeep(setup: Setup, events: seq<Event>)
    requires setup.root.budgetSteps >= 0 && forall e :: e in events && e.Spawn? ==> e.request.budgetSteps >= 0
    requires IdsFaithful(setup.After(events).children)
    ensures Kept(setup.After(events))
  {
    if events != [] {
      var front, last := events[..|events| - 1], events[|events| - 1];
      assert last in events && forall e :: e in front ==> e in events;
      var s := setup.After(front);
      assert s.children <= Step(s, last).children;
      RunsKeep(setup, front);
      ChildrenAreMeets(setup, front);
      StepKeeps(s, last);
    }
  }

  /** Over every run whatsoever, no token is in the revocation log twice. */
  lemma {:induction false} LoggedOnce(setup: Setup, events: seq<Event>)
    ensures LogKept(setup.After(events))
  {
    if events != [] {
      LoggedOnce(setup, events[..|events| - 1]);
      LogStays(setup.After(events[..|events| - 1]), events[|events| - 1]);
    }
  }

  /** Revocation is permanent: whatever happens later, spawning the same scope under the same id included,
      a revoked token stays revoked, its witnesses are refused, and they change nothing. */
  lemma {:induction false} RevocationIsPermanent(s: State, events: seq<Event>, w: Witness)
    requires w.subTokenId in s.revoked
    ensures var later := Run(s, events);
            w.subTokenId in later.revoked && !StillActive(later, w) && Received(later, w) == later
  {
    if events != [] { RevocationIsPermanent(s, events[..|events| - 1], w); }
  }

  // ----- one account over a whole run

  /** How many of these requests are for the token with this id. */
  function Spawns(setup: Setup, requests: seq<TokenScope>, id: string): nat {
    if requests == [] then 0
    else Spawns(setup, requests[..|requests| - 1], id) + (if setup.IdFor(requests[|requests| - 1]) == id then 1 else 0)
  }

  /** The budget of the first of them, which is the one the scheduler goes by. */
  function Budget(setup: Setup, requests: seq<TokenScope>, id: string): int
    requires Spawns(setup, requests, id) > 0
  {
    var front := requests[..|requests| - 1];
    if Spawns(setup, front, id) > 0 then Budget(setup, front, id)
    else Intersect(setup.root, requests[|requests| - 1]).budgetSteps
  }

  /** The steps reported for a token since it was last spawned. */
  function ReportedSinceSpawn(setup: Setup, events: seq<Event>, id: string): int {
    if events == [] then 0 else
      var before := ReportedSinceSpawn(setup, events[..|events| - 1], id);
      match events[|events| - 1]
      case Spawn(request) => if setup.IdFor(request) == id then 0 else before
      case Report(w) => if w.subTokenId == id then before + w.steps else before
      case Revoke(_) => before
  }

  /** The steps an event adds to what the scheduler has taken into account for a token. */
  function AcceptedNow(s: State, e: Event, id: string): int {
    if e.Report? && e.report.subTokenId == id && Heard(s, e.report) then e.report.steps else 0
  }

  /** The steps taken into account for a token over the whole run. */
  function Accepted(setup: Setup, events: seq<Event>, id: string): int {
    if events == [] then 0 else
      var front := events[..|events| - 1];
      Accepted(setup, front, id) + AcceptedNow(setup.After(front), events[|events| - 1], id)
  }

  predicate Active(s: State, id: string) {
    id in s.budgets && id !in s.revoked
  }

  lemma {:induction false} FindChildAppend(children: seq<DerivedToken>, more: DerivedToken, id: string)
    ensures FindChild(children + [more], id) ==
              if FindChild(children, id).Some? then FindChild(children, id)
              else if more.tokenId == id then Some(more) else None
  {
    if children == [] {
      assert children + [more] == [more];
    } else {
      FindChildAppend(children[1..], more, id);
      assert (children + [more])[1..] == children[1..] + [more];
    }
  }

  /** What the scheduler goes by for a token: its account, opened by the first spawn, and the budget of its
      first child. */
  ghost predicate Booked(setup: Setup, s: State, requests: seq<TokenScope>, id: string) {
    var spawned := Spawns(setup, requests, id) > 0;
    && s.idOf == setup.idOf && s.rootId == setup.rootId && s.root == setup.root
    && (id in s.budgets <==> spawned) && (FindChild(s.children, id).Some? <==> spawned)
    && (spawned ==> FindChild(s.children, id).value.scope.budgetSteps == Budget(setup, requests, id))
  }

  lemma SpawnBooks(setup: Setup, s: State, requests: seq<TokenScope>, request: TokenScope, id: string)
    requires Booked(setup, s, requests, id)
    ensures Booked(setup, Spawned(s, request), requests + [request], id)
  {
    FindChildAppend(s.children, Minted(s, request), id);
    assert (requests + [request])[..|requests|] == requests;
  }

  lemma ReportBooks(setup: Setup, s: State, requests: seq<TokenScope>, w: Witness, id: string)
    requires Booked(setup, s, requests, id)
    ensures Booked(setup, Received(s, w), requests, id)
  {}

  lemma {:induction false} RunsBook(setup: Setup, events: seq<Event>, id: string)
    ensures Booked(setup, setup.After(events), Requests(events), id)
  {
    if events != [] {
      var front, last := events[..|events| - 1], events[|events| - 1];
      RunsBook(setup, front, id);
      var s, requests := setup.After(front), Requests(front);
      match last {
        case Spawn(request) =>
          SpawnBooks(setup, s, requests, request, id);
        case Report(w) =>
          assert Requests(events) == requests;
          ReportBooks(setup, s, requests, w, id);
        case Revoke(_) =>
          assert Requests(events) == requests;
      }
    }
  }

  /** Over every run: the recorded total of an active token is what was reported since it was last spawned. */
  lemma {:induction false} RecordedSinceSpawn(setup: Setup, events: seq<Event>, id: string)
    requires Active(setup.After(events), id)
    ensures setup.After(events).budgets[id].totalSteps == ReportedSinceSpawn(setup, events, id)
  {
    if events != [] {
      var front, last := events[..|events| - 1], events[|events| - 1];
      RunsBook(setup, front, id);
      if Active(setup.After(front), id) { RecordedSinceSpawn(setup, front, id); }
    }
  }

  /** Requests for budgets that are not negative, under a root of such a budget. */
  predicate BudgetsGiven(setup: Setup, requests: seq<TokenScope>) {
    setup.root.budgetSteps >= 0 && forall i :: 0 <= i < |requests| ==> requests[i].budgetSteps >= 0
  }

  lemma {:induction false} BudgetNotNegative(setup: Setup, requests: seq<TokenScope>, id: string)
    requires BudgetsGiven(setup, requests) && Spawns(setup, requests, id) > 0
    ensures Budget(setup, requests, id) >= 0
  {
    var front := requests[..|requests| - 1];
    if Spawns(setup, front, id) > 0 { BudgetNotNegative(setup, front, id); }
  }

  lemma RequestsOfFront(setup: Setup, events: seq<Event>)
    requires events != [] && BudgetsGiven(setup, Requests(events))
    ensures BudgetsGiven(setup, Requests(events[..|events| - 1]))
  {
    var front := Requests(events[..|events| - 1]);
    assert forall i :: 0 <= i < |front| ==> front[i] == Requests(events)[i];
  }

  /** Over every run, ids of different scopes differing or not: an active token's recorded total is within
      the budget the scheduler goes by. */
  lemma {:induction false} RecordedWithinBudget(setup: Setup, events: seq<Event>, id: string)
    requires BudgetsGiven(setup, Requests(events)) && Active(setup.After(events), id)
    ensures Spawns(setup, Requests(events), id) > 0
    ensures setup.After(events).budgets[id].totalSteps <= Budget(setup, Requests(events), id)
  {
    RunsBook(setup, events, id);
    BudgetNotNegative(setup, Requests(events), id);
    if events != [] {
      var front := events[..|events| - 1];
      RunsBook(setup, front, id);
      RequestsOfFront(setup, events);
      if Active(setup.After(front), id) { RecordedWithinBudget(setup, front, id); }
    }
  }

  /** How an event changes the account of a token that is active after it. */
  lemma AccountStep(s: State, e: Event, id: string)
    requires Active(Step(s, e), id)
    ensures e.Spawn? && Minted(s, e.request).tokenId == id ==>
              Step(s, e).budgets[id].totalSteps == 0 && AcceptedNow(s, e, id) == 0
    ensures !(e.Spawn? && Minted(s, e.request).tokenId == id) ==>
              && Active(s, id) && Step(s, e).budgets[id].totalSteps == s.budgets[id].totalSteps + AcceptedNow(s, e, id)
  {}

  lemma {:induction false} NothingAcceptedUnspawned(setup: Setup, events: seq<Event>, id: string)
    requires Spawns(setup, Requests(events), id) == 0
    ensures Accepted(setup, events, id) == 0
  {
    if events != [] {
      var front, last := events[..|events| - 1], events[|events| - 1];
      SpawnsOfFront(setup, events, id);
      NothingAcceptedUnspawned(setup, front, id);
      RunsBook(setup, front, id);
    }
  }

  lemma SpawnsOfFront(setup: Setup, events: seq<Event>, id: string)
    requires events != []
    ensures var front, last := events[..|events| - 1], events[|events| - 1];
            && Spawns(setup, Requests(events), id)
               == Spawns(setup, Requests(front), id) + (if last.Spawn? && setup.IdFor(last.request) == id then 1 else 0)
            && (Spawns(setup, Requests(front), id) > 0 ==>
                  Budget(setup, Requests(events), id) == Budget(setup, Requests(front), id))
  {
    var front, last := events[..|events| - 1], events[|events| - 1];
    if last.Spawn? {
      assert Requests(events)[..|Requests(events)| - 1] == Requests(front);
    } else {
      assert Requests(events) == Requests(front);
    }
  }

  /** A token spawned once has everything accepted of it in its account. */
  lemma {:induction false} AcceptedSinceOnlySpawn(setup: Setup, events: seq<Event>, id: string)
    requires Spawns(setup, Requests(events), id) == 1 && Active(setup.After(events), id)
    ensures setup.After(events).budgets[id].totalSteps == Accepted(setup, events, id)
  {
    var front, last := events[..|events| - 1], events[|events| - 1];
    SpawnsOfFront(setup, events, id);
    RunsBook(setup, front, id);
    AccountStep(setup.After(front), last, id);
    if Spawns(setup, Requests(front), id) == 0 {
      NothingAcceptedUnspawned(setup, front, id);
    } else {
      AcceptedSinceOnlySpawn(setup, front, id);
    }
  }

  predicate ReportsNotNegative(events: seq<Event>) {
    forall i :: 0 <= i < |events| && events[i].Report? ==> events[i].report.steps >= 0
  }

  lemma {:induction false} NothingAcceptedWithoutBudget(setup: Setup, events: seq<Event>, id: string)
    requires ReportsNotNegative(events) && BudgetsGiven(setup, Requests(events)) && Active(setup.After(events), id)
    requires Spawns(setup, Requests(events), id) > 0 && Budget(setup, Requests(events), id) == 0
    ensures Accepted(setup, events, id) == 0 && setup.After(events).budgets[id].totalSteps == 0
  {
    var front, last := events[..|events| - 1], events[|events| - 1];
    SpawnsOfFront(setup, events, id);
    RunsBook(setup, front, id);
    RequestsOfFront(setup, events);
    RecordedWithinBudget(setup, events, id);
    AccountStep(setup.After(front), last, id);
    if Spawns(setup, Requests(front), id) == 0 {
      NothingAcceptedUnspawned(setup, front, id);
    } else {
      NothingAcceptedWithoutBudget(setup, front, id);
    }
  }

  /** A token is spawned, and reports `steps` if it is the one with this id. */
  function SpawnEvents(setup: Setup, request: TokenScope, id: string, steps: nat): seq<Event> {
    if setup.IdFor(request) == id then [Spawn(request)] + [Report(Witness(id, steps, 0, 0))] else [Spawn(request)]
  }

  /** The run of these requests in which the token reports `steps` whenever it was spawned. */
  function Replay(setup: Setup, requests: seq<TokenScope>, id: string, steps: nat): seq<Event> {
    if requests == [] then []
    else Replay(setup, requests[..|requests| - 1], id, steps) + SpawnEvents(setup, requests[|requests| - 1], id, steps)
  }

  lemma OneMoreEvent(setup: Setup, events: seq<Event>, e: Event, id: string)
    ensures setup.After(events + [e]) == Step(setup.After(events), e)
    ensures Requests(events + [e]) == Requests(events) + if e.Spawn? then [e.request] else []
    ensures Accepted(setup, events + [e], id) == Accepted(setup, events, id) + AcceptedNow(setup.After(events), e, id)
    ensures ReportsNotNegative(events) && (e.Report? ==> e.report.steps >= 0) ==> ReportsNotNegative(events + [e])
  {
    assert (events + [e])[..|events|] == events;
  }

  /** What these events add to a run: a request, something accepted, and nothing revoked. */
  ghost predicate Extends(setup: Setup, events: seq<Event>, more: seq<Event>, request: TokenScope, id: string,
                          steps: int)
  {
    var before, after := setup.After(events), setup.After(events + more);
    && Requests(events + more) == Requests(events) + [request]
    && after.revoked == before.revoked && (Active(before, id) ==> Active(after, id))
    && Accepted(setup, events + more, id) == Accepted(setup, events, id) + steps
    && (ReportsNotNegative(events) ==> ReportsNotNegative(events + more))
  }

  /** A report of the whole budget on an empty account. */
  lemma ReportWhole(setup: Setup, events: seq<Event>, id: string, budget: nat)
    requires var s := setup.After(events);
             && Active(s, id) && s.budgets[id].totalSteps == 0
             && FindChild(s.children, id).Some? && FindChild(s.children, id).value.scope.budgetSteps == budget
    ensures var after := events + [Report(Witness(id, budget, 0, 0))];
            && Requests(after) == Requests(events) && setup.After(after).revoked == setup.After(events).revoked
            && Active(setup.After(after), id) && Accepted(setup, after, id) == Accepted(setup, events, id) + budget
            && (ReportsNotNegative(events) ==> ReportsNotNegative(after))
  {
    OneMoreEvent(setup, events, Report(Witness(id, budget, 0, 0)), id);
  }

  lemma SpawnOwn(setup: Setup, events: seq<Event>, request: TokenScope, id: string, budget: nat)
    requires setup.IdFor(request) == id && id !in setup.After(events).revoked
    requires var requests := Requests(events) + [request];
             Spawns(setup, requests, id) > 0 && Budget(setup, requests, id) == budget
    ensures Extends(setup, events, [Spawn(request)], request, id, 0)
    ensures var s := setup.After(events + [Spawn(request)]);
            && Active(s, id) && s.budgets[id].totalSteps == 0
            && FindChild(s.children, id).Some? && FindChild(s.children, id).value.scope.budgetSteps == budget
  {
    OneMoreEvent(setup, events, Spawn(request), id);
    RunsBook(setup, events, id);
    RunsBook(setup, events + [Spawn(request)], id);
  }

  /** A token that is spawned and then reports its whole budget is active. */
  lemma SpawnAndReport(setup: Setup, events: seq<Event>, request: TokenScope, id: string, budget: nat)
    requires setup.IdFor(request) == id && id !in setup.After(events).revoked
    requires var requests := Requests(events) + [request];
             Spawns(setup, requests, id) > 0 && Budget(setup, requests, id) == budget
    ensures Extends(setup, events, SpawnEvents(setup, request, id, budget), request, id, budget)
    ensures Active(setup.After(events + SpawnEvents(setup, request, id, budget)), id)
  {
    var spawned, report := events + [Spawn(request)], Report(Witness(id, budget, 0, 0));
    SpawnOwn(setup, events, request, id, budget);
    ReportWhole(setup, spawned, id, budget);
    assert events + SpawnEvents(setup, request, id, budget) == spawned + [report];
  }

  lemma SpawnAnother(setup: Setup, events: seq<Event>, request: TokenScope, id: string)
    requires setup.IdFor(request) != id
    ensures Extends(setup, events, [Spawn(request)], request, id, 0)
  {
    OneMoreEvent(setup, events, Spawn(request), id);
    RunsBook(setup, events, id);
  }

  function Times(k: nat, budget: nat): nat {
    k * budget
  }

  /** In this run of the requests everything reported was accepted, a whole budget each time, and the token is
      active. */
  ghost predicate Forgotten(setup: Setup, events: seq<Event>, requests: seq<TokenScope>, id: string, budget: nat) {
    var k := Spawns(setup, requests, id);
    && Requests(events) == requests && ReportsNotNegative(events) && id !in setup.After(events).revoked
    && (k > 0 ==> Active(setup.After(events), id)) && Accepted(setup, events, id) == Times(k, budget)
  }

  lemma SpawnsMore(setup: Setup, requests: seq<TokenScope>, request: TokenScope, id: string, budget: nat)
    ensures var k := if setup.IdFor(request) == id then 1 else 0;
            && Spawns(setup, requests + [request], id) == Spawns(setup, requests, id) + k
            && Times(Spawns(setup, requests + [request], id), budget)
               == Times(Spawns(setup, requests, id), budget) + Times(k, budget)
  {
    assert (requests + [request])[..|requests|] == requests;
  }

  lemma ForgottenAgain(setup: Setup, events: seq<Event>, more: seq<Event>, requests: seq<TokenScope>,
                       request: TokenScope, id: string, budget: nat)
    requires Forgotten(setup, events, requests, id, budget)
    requires var own := setup.IdFor(request) == id;
             && Extends(setup, events, more, request, id, if own then budget else 0)
             && (own ==> Active(setup.After(events + more), id))
    ensures Forgotten(setup, events + more, requests + [request], id, budget)
  {
    SpawnsMore(setup, requests, request, id, budget);
    assert Times(1, budget) == budget && Times(0, budget) == 0;
  }

  /** Spawning a token again forgets what it has reported: however often it is spawned, there is a run in
      which it reports its whole budget every time and is active still. */
  lemma {:induction false} SpawningAgainForgets(setup: Setup, requests: seq<TokenScope>, id: string, budget: nat)
    requires Spawns(setup, requests, id) > 0 ==> Budget(setup, requests, id) == budget
    ensures Forgotten(setup, Replay(setup, requests, id, budget), requests, id, budget)
  {
    if requests != [] {
      var front, last := requests[..|requests| - 1], requests[|requests| - 1];
      SpawningAgainForgets(setup, front, id, budget);
      assert front + [last] == requests;
      var events := Replay(setup, front, id, budget);
      if setup.IdFor(last) == id {
        SpawnAndReport(setup, events, last, id, budget);
      } else {
        SpawnAnother(setup, events, last, id);
      }
      ForgottenAgain(setup, events, SpawnEvents(setup, last, id, budget), front, last, id, budget);
    }
  }

  /** In every run with these requests, in their order, what is accepted of an active token over the whole
      run is within its budget. */
  ghost predicate BoundForLife(setup: Setup, requests: seq<TokenScope>, id: string)
    requires Spawns(setup, requests, id) > 0
  {
    forall events :: Requests(events) == requests && ReportsNotNegative(events) && Active(setup.After(events), id) ==>
                       Accepted(setup, events, id) <= Budget(setup, requests, id)
  }

  /** The budget bounds a token for life exactly if it is spawned only once, or has no budget. */
  lemma LifetimeBoundIff(setup: Setup, requests: seq<TokenScope>, id: string)
    requires Spawns(setup, requests, id) > 0 && BudgetsGiven(setup, requests)
    ensures BoundForLife(setup, requests, id) <==>
              Spawns(setup, requests, id) == 1 || Budget(setup, requests, id) == 0
  {
    BudgetNotNegative(setup, requests, id);
    var k, budget := Spawns(setup, requests, id), Budget(setup, requests, id);
    SpawningAgainForgets(setup, requests, id, budget);
    if k > 1 && budget > 0 { Exceeding(k, budget); }
    if k == 1 || budget == 0 {
      forall events | Requests(events) == requests && ReportsNotNegative(events) && Active(setup.After(events), id)
        ensures Accepted(setup, events, id) <= budget
      {
        if budget == 0 {
          NothingAcceptedWithoutBudget(setup, events, id);
        } else {
          AcceptedSinceOnlySpawn(setup, events, id);
          RecordedWithinBudget(setup, events, id);
        }
      }
    }
  }

  lemma Exceeding(k: nat, budget: nat)
    requires k > 1 && budget > 0
    ensures Times(k, budget) > budget
  {}

  /** A scope of one step. */
  const ONE_STEP := TokenScope([], 1, false, false, [])

  /** Requesting it twice is enough. */
  lemma SpawnedTwiceUnbounded(rootId: string, idOf: IdOf)
    ensures var setup := Setup(rootId, ONE_STEP, idOf);
            var requests := [ONE_STEP] + [ONE_STEP];
            Spawns(setup, requests, setup.IdFor(ONE_STEP)) == 2 && !BoundForLife(setup, requests, setup.IdFor(ONE_STEP))
  {
    var setup := Setup(rootId, ONE_STEP, idOf);
    var requests, id := [ONE_STEP] + [ONE_STEP], setup.IdFor(ONE_STEP);
    assert requests[..1] == [ONE_STEP] && [ONE_STEP][..0] == [];
    assert Intersect(ONE_STEP, ONE_STEP) == ONE_STEP;
    assert Spawns(setup, [ONE_STEP], id) == 1;
    LifetimeBoundIff(setup, requests, id);
  }

  // ----- one child session against its parent

  datatype Session = Session(steps: nat, active: bool)

  function AfterTurn(s: State, session: Session, id: string, cost: nat, inputTokens: int, outputTokens: int)
    : (State, Session)
  {
    if !session.active then (s, session) else
      var w := Witness(id, session.steps + cost, inputTokens, outputTokens);
      (Received(s, w), Session(session.steps + cost, StillActive(s, w)))
  }

  /** A turn of the session, or any other event at the parent. */
  datatype Move = Turn(toolCalls: nat, inputTokens: int, outputTokens: int) | Elsewhere(event: Event)

  function Play(s: State, session: Session, id: string, moves: seq<Move>): (State, Session) {
    if moves == [] then (s, session) else
      var (t, between) := Play(s, session, id, moves[..|moves| - 1]);
      match moves[|moves| - 1]
      case Turn(calls, inputTokens, outputTokens) => AfterTurn(t, between, id, calls + 1, inputTokens, outputTokens)
      case Elsewhere(event) => (Step(t, event), between)
  }

  /** An event that leaves one token's account alone. */
  predicate Spares(s: State, e: Event, id: string) {
    match e
    case Spawn(request) => s.idOf(s.rootId, Intersect(s.root, request)) != id
    case Report(report) => report.subTokenId != id
    case Revoke(other) => other != id
  }

  /** What the turns among the moves cost. */
  function Costs(moves: seq<Move>): seq<nat> {
    if moves == [] then []
    else Costs(moves[..|moves| - 1])
         + (if moves[|moves| - 1].Turn? then [moves[|moves| - 1].toolCalls + 1] else [])
  }

  function Sum(costs: seq<nat>): nat {
    if costs == [] then 0 else Sum(costs[..|costs| - 1]) + costs[|costs| - 1]
  }

  /** The sum of the running totals. */
  function Reported(costs: seq<nat>): nat {
    if costs == [] then 0 else Reported(costs[..|costs| - 1]) + Sum(costs)
  }

  /** The cost of turn `j` of `k` counts `k - j + 1` times. */
  function Weighted(costs: seq<nat>): nat {
    if costs == [] then 0 else |costs| * costs[0] + Weighted(costs[1..])
  }

  /** What a turn does: nothing for an inactive session; otherwise its total grows by the cost, and is reported
      with the tokens of the turn alone; the session stays active as long as the parent says so. */
  lemma AfterTurnMeans(s: State, session: Session, id: string, cost: nat, inputTokens: int, outputTokens: int)
    ensures var (t, after) := AfterTurn(s, session, id, cost, inputTokens, outputTokens);
            var total := session.steps + cost;
            if !session.active then t == s && after == session
            else
              && t == Received(s, Witness(id, total, inputTokens, outputTokens)) && after.steps == total
              && (after.active <==> StillActive(s, Witness(id, total, inputTokens, outputTokens)))
  {}

  lemma {:induction false} SumFront(costs: seq<nat>)
    requires costs != []
    ensures Sum(costs) == costs[0] + Sum(costs[1..])
  {
    if |costs| > 1 {
      SumFront(costs[..|costs| - 1]);
      assert costs[..|costs| - 1][1..] == costs[1..][..|costs| - 2];
    }
  }

  lemma {:induction false} WeightedBack(costs: seq<nat>)
    requires costs != []
    ensures Weighted(costs) == Weighted(costs[..|costs| - 1]) + Sum(costs)
  {
    var front := costs[..|costs| - 1];
    SumFront(costs);
    if |costs| > 1 {
      WeightedBack(costs[1..]);
      assert front[1..] == costs[1..][..|costs| - 2];
      assert |costs| * costs[0] == |front| * costs[0] + costs[0];
    }
  }

  lemma {:induction false} ReportedIsWeighted(costs: seq<nat>)
    ensures Reported(costs) == Weighted(costs)
  {
    if costs != [] {
      ReportedIsWeighted(costs[..|costs| - 1]);
      WeightedBack(costs);
    }
  }

  lemma {:induction false} ReportedBounds(costs: seq<nat>)
    requires forall c :: c in costs ==> c >= 1
    ensures Sum(costs) >= |costs| && Reported(costs) >= Sum(costs)
    ensures 2 * Reported(costs) >= |costs| * (|costs| + 1)
  {
    if costs != [] {
      var front, n := costs[..|costs| - 1], |costs|;
      assert costs[n - 1] in costs && forall c :: c in front ==> c in costs;
      ReportedBounds(front);
      assert (n - 1) * n + 2 * n == n * (n + 1);
    }
  }

  /** A fresh account: the token is active, its recorded total is 0, and its first child has this budget. */
  ghost predicate Fresh(s: State, id: string, budget: nat) {
    && id in s.budgets && id !in s.revoked && s.budgets[id].totalSteps == 0
    && FindChild(s.children, id).Some? && FindChild(s.children, id).value.scope.budgetSteps == budget
  }

  /** Spawning opens a fresh account, with the budget granted if there was none for the id before, and unless
      the id is revoked. */
  lemma SpawnedIsFresh(s: State, request: TokenScope, budget: nat)
    ensures var id := Minted(s, request).tokenId;
            Fresh(Spawned(s, request), id, budget) <==>
              && id !in s.revoked
              && budget == if FindChild(s.children, id).Some? then FindChild(s.children, id).value.scope.budgetSteps
                           else Intersect(s.root, request).budgetSteps
  {
    FindChildAppend(s.children, Minted(s, request), Minted(s, request).tokenId);
  }

  /** Where parent and session stand after turns of these costs. */
  ghost predicate Tracks(t: State, session: Session, id: string, budget: nat, costs: seq<nat>) {
    && (session.active <==> Reported(costs) <= budget) && (session.active <==> id !in t.revoked)
    && FindChild(t.children, id).Some? && FindChild(t.children, id).value.scope.budgetSteps == budget
    && (session.active ==>
          id in t.budgets && t.budgets[id].totalSteps == Reported(costs) && session.steps == Sum(costs))
  }

  lemma TurnTracks(t: State, session: Session, id: string, budget: nat, costs: seq<nat>, cost: nat, i: int, o: int)
    requires Tracks(t, session, id, budget, costs)
    ensures var (t', session') := AfterTurn(t, session, id, cost, i, o);
            Tracks(t', session', id, budget, costs + [cost])
  {
    assert (costs + [cost])[..|costs|] == costs;
  }

  lemma ElsewhereTracks(t: State, session: Session, id: string, budget: nat, costs: seq<nat>, event: Event)
    requires Tracks(t, session, id, budget, costs) && Spares(t, event, id)
    ensures Tracks(Step(t, event), session, id, budget, costs)
  {
    if event.Spawn? { FindChildAppend(t.children, Minted(t, event.request), id); }
  }

  /** Since the session reports running totals and the parent adds the reports up, the session is active
      after its turns, interleaved with any events of other tokens, exactly while the sum of the running
      totals is within the budget; the turn that exceeds it revokes the token. */
  lemma {:induction false} ActiveWhileReportsFit(s: State, id: string, budget: nat, moves: seq<Move>)
    requires Fresh(s, id, budget)
    requires forall m :: m in moves && m.Elsewhere? ==> Spares(s, m.event, id)
    ensures var (t, session) := Play(s, Session(0, true), id, moves);
            && t.idOf == s.idOf && t.rootId == s.rootId && t.root == s.root
            && Tracks(t, session, id, budget, Costs(moves))
  {
    if moves != [] {
      var front, last := moves[..|moves| - 1], moves[|moves| - 1];
      assert last in moves && forall m :: m in front ==> m in moves;
      ActiveWhileReportsFit(s, id, budget, front);
      var (t, session) := Play(s, Session(0, true), id, front);
      match last {
        case Turn(calls, i, o) =>
          TurnTracks(t, session, id, budget, Costs(front), calls + 1, i, o);
        case Elsewhere(event) =>
          assert Costs(moves) == Costs(front);
          ElsewhereTracks(t, session, id, budget, Costs(front), event);
      }
    }
  }

  lemma {:induction false} CostsPositive(moves: seq<Move>)
    ensures forall c :: c in Costs(moves) ==> c >= 1
  {
    if moves != [] { CostsPositive(moves[..|moves| - 1]); }
  }

  /** The turn bound: a session still active after turns costing c1..ck has recorded the sum of
      (k - j + 1) * cj at its parent, so k * (k + 1) / 2 and its true consumption are within the budget. */
  lemma TurnBound(s: State, id: string, budget: nat, moves: seq<Move>)
    requires Fresh(s, id, budget)
    requires forall m :: m in moves && m.Elsewhere? ==> Spares(s, m.event, id)
    ensures var (t, session) := Play(s, Session(0, true), id, moves);
            var costs := Costs(moves);
            && (session.active <==> Weighted(costs) <= budget)
            && (session.active ==>
                  && id in t.budgets && t.budgets[id].totalSteps == Weighted(costs)
                  && |costs| * (|costs| + 1) / 2 <= budget && Sum(costs) <= budget)
  {
    ActiveWhileReportsFit(s, id, budget, moves);
    var costs := Costs(moves);
    CostsPositive(moves);
    ReportedIsWeighted(costs);
    ReportedBounds(costs);
  }
}
