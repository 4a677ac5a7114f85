/** The audit trail of the governance agent: `audit_log.py`, `evidence_chain.py` and
    `governance_agent.py` under `tools/hpl-agent/hpl_agent/ci/`. The digest of an entry (SHA-256 of its
    canonical JSON) and Ed25519 are parameters; a log file is the list of entries on its lines. */
module Audit {
  import opened Text
  import opened Merkle

  datatype TurnEvidence = TurnEvidence(turnIndex: nat, sessionId: string, promptDigest: string, responseDigest: string,
                                       toolCalls: seq<string>, inputTokens: int, outputTokens: int, timestamp: string,
                                       prevLeafDigest: string)

  type Digest = TurnEvidence -> string

  // ----- the log

  /** The first entry refers to nothing, every other one to the digest of the entry before it. */
  function LinkFor(digest: Digest, entries: seq<TurnEvidence>, i: nat): string
    requires i < |entries|
  {
    if i == 0 then "" else digest(entries[i - 1])
  }

  ghost predicate Linked(digest: Digest, entries: seq<TurnEvidence>) {
    forall i: nat {:trigger LinkFor(digest, entries, i)} ::
      i < |entries| ==> entries[i].prevLeafDigest == LinkFor(digest, entries, i)
  }

  lemma LinkedMeans(digest: Digest, entries: seq<TurnEvidence>)
    ensures Linked(digest, entries) <==>
              forall i :: 0 <= i < |entries| ==>
                            entries[i].prevLeafDigest == if i == 0 then "" else digest(entries[i - 1])
  {
    forall i: nat | i < |entries|
      ensures LinkFor(digest, entries, i) == if i == 0 then "" else digest(entries[i - 1])
    {}
    if Linked(digest, entries) {
      forall i: nat | i < |entries|
        ensures entries[i].prevLeafDigest == if i == 0 then "" else digest(entries[i - 1])
      {
        assert entries[i].prevLeafDigest == LinkFor(digest, entries, i);
      }
    }
  }

  function EntrySet(entries: seq<TurnEvidence>): set<TurnEvidence> {
    set x | x in entries
  }

  class AuditLog {
    var entries: seq<TurnEvidence>

    /** A log over a file that may already hold entries. */
    constructor (entries: seq<TurnEvidence>)
      ensures this.entries == entries
    {
      this.entries := entries;
    }

    method Append(entry: TurnEvidence)
      modifies this
      ensures entries == old(entries) + [entry]
    {
      entries := entries + [entry];
    }

    method VerifyIntegrity(digest: Digest) returns (ok: bool)
      ensures ok <==> Linked(digest, entries)
      ensures ok <==> forall i :: 0 <= i < |entries| ==>
                                    entries[i].prevLeafDigest == if i == 0 then "" else digest(entries[i - 1])
    {
      LinkedMeans(digest, entries);
      for i := 0 to |entries|
        invariant forall j: nat {:trigger LinkFor(digest, entries, j)} ::
                    j < i ==> entries[j].prevLeafDigest == LinkFor(digest, entries, j)
      {
        ghost var expected := LinkFor(digest, entries, i);
        if i == 0 {
          if entries[i].prevLeafDigest != "" { return false; }
        } else {
          if entries[i].prevLeafDigest != digest(entries[i - 1]) { return false; }
        }
      }
      ok := true;
    }
  }

  /** No two different entries among these have the same digest, and no digest is the empty string. */
  ghost predicate DigestSound(digest: Digest, among: set<TurnEvidence>) {
    && (forall x, y :: x in among && y in among && digest(x) == digest(y) ==> x == y)
    && (forall x :: digest(x) != "")
  }

  lemma PrefixLinked(digest: Digest, entries: seq<TurnEvidence>)
    requires Linked(digest, entries) && entries != []
    ensures Linked(digest, entries[..|entries| - 1])
  {
    var front := entries[..|entries| - 1];
    forall i: nat | i < |front| ensures front[i].prevLeafDigest == LinkFor(digest, front, i) {
      assert entries[i].prevLeafDigest == LinkFor(digest, entries, i);
    }
  }

  lemma OneMoreLinked(digest: Digest, entries: seq<TurnEvidence>, entry: TurnEvidence)
    requires Linked(digest, entries)
    requires entry.prevLeafDigest == if entries == [] then "" else digest(entries[|entries| - 1])
    ensures Linked(digest, entries + [entry])
  {
    var more := entries + [entry];
    forall i: nat | i < |more| ensures more[i].prevLeafDigest == LinkFor(digest, more, i) {
      if i < |entries| { assert entries[i].prevLeafDigest == LinkFor(digest, entries, i); }
    }
  }

  /** The last entry of a verifying log determines the whole log. */
  lemma {:induction false} LastEntryDeterminesLog(digest: Digest, a: seq<TurnEvidence>, b: seq<TurnEvidence>,
                                                  among: set<TurnEvidence>)
    requires Linked(digest, a) && Linked(digest, b) && a != [] && b != [] && a[|a| - 1] == b[|b| - 1]
    requires DigestSound(digest, among) && EntrySet(a) <= among && EntrySet(b) <= among
    ensures a == b
  {
    var front, front' := a[..|a| - 1], b[..|b| - 1];
    assert a == front + [a[|a| - 1]] && b == front' + [b[|b| - 1]];
    assert a[|a| - 1].prevLeafDigest == LinkFor(digest, a, |a| - 1) == LinkFor(digest, b, |b| - 1);
    if |a| > 1 && |b| > 1 {
      PrefixLinked(digest, a);
      PrefixLinked(digest, b);
      assert a[|a| - 2] in EntrySet(a) && b[|b| - 2] in EntrySet(b);
      LastEntryDeterminesLog(digest, front, front', among);
    }
  }

  /** So replacing everything before the last entry of a verifying log by anything else is rejected. */
  lemma RewrittenHistoryRejected(digest: Digest, log: seq<TurnEvidence>, history: seq<TurnEvidence>)
    requires log != [] && Linked(digest, log) && history != log[..|log| - 1]
    requires DigestSound(digest, EntrySet(log) + EntrySet(history + [log[|log| - 1]]))
    ensures !Linked(digest, history + [log[|log| - 1]])
  {
    var forged := history + [log[|log| - 1]];
    assert forged[..|forged| - 1] == history;
    if Linked(digest, forged) {
      LastEntryDeterminesLog(digest, log, forged, EntrySet(log) + EntrySet(forged));
    }
  }

  // ----- the evidence chain

  /** The signing half and the checking half of a signer; payloads and signatures are texts. */
  datatype Signer = Signer(sign: string -> string, check: (string, string) -> bool)
  {
    ghost predicate Works() {
      forall m: string :: check(m, sign(m))
    }
  }

  /** The hashes of a chain: of a leaf, of a pair, and of no leaves at all. */
  datatype Hashes = Hashes(leaf: Digest, pair: Pairing, empty: string)

  function LeafDigests(h: Hashes, leaves: seq<TurnEvidence>): seq<string> {
    seq(|leaves|, i requires 0 <= i < |leaves| => h.leaf(leaves[i]))
  }

  function ChainRoot(h: Hashes, leaves: seq<TurnEvidence>): string {
    if leaves == [] then h.empty else Root(h.pair, LeafDigests(h, leaves))
  }

  datatype ChainState = ChainState(sessionId: string, leaves: seq<TurnEvidence>, root: Option<string>,
                                   signature: Option<string>)

  function Payload(sessionId: string, root: string): string {
    sessionId + ":" + root
  }

  function Appended(c: ChainState, turn: TurnEvidence): ChainState {
    c.(leaves := c.leaves + [turn], root := None)
  }

  function Finalized(h: Hashes, signer: Signer, c: ChainState): ChainState {
    var root := ChainRoot(h, c.leaves);
    c.(root := Some(root), signature := Some(signer.sign(Payload(c.sessionId, root))))
  }

  predicate Verifies(h: Hashes, signer: Signer, c: ChainState) {
    && c.root.Some? && c.signature.Some? && ChainRoot(h, c.leaves) == c.root.value
    && signer.check(Payload(c.sessionId, c.root.value), c.signature.value)
  }

  /** The root over the digests of these leaves, in order. */
  ghost predicate IsChainRoot(h: Hashes, leaves: seq<TurnEvidence>, root: Option<string>) {
    root.Some? &&
    if leaves == [] then root.value == h.empty
    else exists digests :: && |digests| == |leaves|
                           && (forall i :: 0 <= i < |leaves| ==> digests[i] == h.leaf(leaves[i]))
                           && root.value == Root(h.pair, digests)
  }

  lemma ChainRootMeans(h: Hashes, leaves: seq<TurnEvidence>, root: string)
    ensures IsChainRoot(h, leaves, Some(root)) <==> root == ChainRoot(h, leaves)
  {
    if leaves != [] {
      var d := LeafDigests(h, leaves);
      forall digests | |digests| == |leaves| && forall i :: 0 <= i < |leaves| ==> digests[i] == h.leaf(leaves[i])
        ensures digests == d
      {}
    }
  }

  class EvidenceChain {
    const sessionId: string
    var leaves: seq<TurnEvidence>
    var merkleRoot: Option<string>
    var signature: Option<string>

    constructor (sessionId: string)
      ensures Value() == ChainState(sessionId, [], None, None)
    {
      this.sessionId := sessionId;
      leaves, merkleRoot, signature := [], None, None;
    }

    ghost function Value(): ChainState
      reads this
    {
      ChainState(sessionId, leaves, merkleRoot, signature)
    }

    method AppendTurn(turn: TurnEvidence)
      modifies this`leaves, this`merkleRoot
      ensures Value() == Appended(old(Value()), turn)
      ensures leaves == old(leaves) + [turn] && merkleRoot == None && signature == old(signature)
    {
      leaves := leaves + [turn];
      merkleRoot := None;
    }

    method ComputeChainRoot(h: Hashes) returns (root: string)
      ensures root == ChainRoot(h, leaves) && IsChainRoot(h, leaves, Some(root))
    {
      ChainRootMeans(h, leaves, ChainRoot(h, leaves));
      root := ComputeRoot(h.pair, LeafDigests(h, leaves), h.empty);
    }

    method Finalize(h: Hashes, signer: Signer)
      modifies this`merkleRoot, this`signature
      ensures Value() == Finalized(h, signer, old(Value()))
      ensures IsChainRoot(h, leaves, merkleRoot) && leaves == old(leaves)
      ensures signature == Some(signer.sign(sessionId + ":" + merkleRoot.value))
    {
      var root := ComputeChainRoot(h);
      merkleRoot := Some(root);
      signature := Some(signer.sign(sessionId + ":" + root));
    }

    method Verify(h: Hashes, signer: Signer) returns (ok: bool)
      ensures ok == Verifies(h, signer, Value())
      ensures ok <==> && merkleRoot.Some? && signature.Some? && IsChainRoot(h, leaves, merkleRoot)
                      && signer.check(sessionId + ":" + merkleRoot.value, signature.value)
    {
      if merkleRoot.Some? { ChainRootMeans(h, leaves, merkleRoot.value); }
      if merkleRoot.None? || signature.None? { return false; }
      var root := ComputeChainRoot(h);
      if root != merkleRoot.value { return false; }
      ok := signer.check(sessionId + ":" + root, signature.value);
    }
  }

  datatype ChainOp = AppendOp(turn: TurnEvidence) | FinalizeOp

  function RunChain(h: Hashes, signer: Signer, c: ChainState, ops: seq<ChainOp>): ChainState {
    if ops == [] then c else
      var before := RunChain(h, signer, c, ops[..|ops| - 1]);
      match ops[|ops| - 1]
      case AppendOp(turn) => Appended(before, turn)
      case FinalizeOp => Finalized(h, signer, before)
  }

  /** The turns appended by these operations. */
  function TurnsOf(ops: seq<ChainOp>): seq<TurnEvidence> {
    if ops == [] then []
    else TurnsOf(ops[..|ops| - 1]) + (if ops[|ops| - 1].AppendOp? then [ops[|ops| - 1].turn] else [])
  }

  /** Over every sequence of operations on a fresh chain, it holds the turns appended, with the root of just
      these turns if any root, and verifies exactly when the last operation was `finalize`: appending
      invalidates it until then. */
  lemma {:induction false} VerifiesAfterFinalize(h: Hashes, signer: Signer, sessionId: string, ops: seq<ChainOp>)
    requires signer.Works()
    ensures var c := RunChain(h, signer, ChainState(sessionId, [], None, None), ops);
            && c.sessionId == sessionId && c.leaves == TurnsOf(ops)
            && (c.root.Some? ==> c.root.value == ChainRoot(h, TurnsOf(ops)))
            && (Verifies(h, signer, c) <==> ops != [] && ops[|ops| - 1].FinalizeOp?)
  {
    if ops != [] { VerifiesAfterFinalize(h, signer, sessionId, ops[..|ops| - 1]); }
  }

  /** A finalized chain binds its leaves: with as many leaves as it was finalized with, it verifies only
      for those, as far as the hashes have no collision on what was hashed. */
  lemma FinalizedChainBinds(h: Hashes, signer: Signer, c: ChainState, leaves: seq<TurnEvidence>)
    requires signer.Works() && |leaves| == |c.leaves|
    requires DigestSound(h.leaf, EntrySet(leaves) + EntrySet(c.leaves))
    requires NoCollision(h.pair, Hashed(h.pair, LeafDigests(h, leaves)) + Hashed(h.pair, LeafDigests(h, c.leaves)))
    ensures Verifies(h, signer, Finalized(h, signer, c).(leaves := leaves)) <==> leaves == c.leaves
  {
    if leaves != [] && ChainRoot(h, leaves) == ChainRoot(h, c.leaves) {
      var a, b := LeafDigests(h, leaves), LeafDigests(h, c.leaves);
      RootBinds(h.pair, a, b);
      forall i | 0 <= i < |leaves| ensures leaves[i] == c.leaves[i] {
        assert a[i] == b[i];
        assert leaves[i] in leaves && c.leaves[i] in c.leaves;
      }
    }
  }

  /** A signer whose check accepts for a text only what was signed for it. */
  ghost predicate Unforgeable(signer: Signer) {
    forall m: string, m': string :: signer.check(m, signer.sign(m')) <==> m == m'
  }

  /** A finalized chain verifies for its own session alone. */
  lemma SignatureBindsSession(h: Hashes, signer: Signer, c: ChainState, sessionId: string)
    requires Unforgeable(signer)
    ensures Verifies(h, signer, Finalized(h, signer, c).(sessionId := sessionId)) <==> sessionId == c.sessionId
  {
    var root := ChainRoot(h, c.leaves);
    if Payload(sessionId, root) == Payload(c.sessionId, root) { SessionTold(sessionId, c.sessionId, root); }
  }

  lemma SessionTold(a: string, b: string, root: string)
    requires Payload(a, root) == Payload(b, root)
    ensures a == b
  {
    assert |a| == |b|;
    assert a == Payload(a, root)[..|a|] == Payload(b, root)[..|b|] == b;
  }

  /** Nor does it verify with another root in its place, for session names without a colon. */
  lemma SignatureBindsRoot(h: Hashes, signer: Signer, c: ChainState, sessionId: string, root: string)
    requires Unforgeable(signer) && ':' !in c.sessionId && ':' !in sessionId
    ensures signer.check(Payload(sessionId, root), Finalized(h, signer, c).signature.value) <==>
              sessionId == c.sessionId && root == ChainRoot(h, c.leaves)
  {
    if Payload(sessionId, root) == Payload(c.sessionId, ChainRoot(h, c.leaves)) {
      PayloadTold(sessionId, root, c.sessionId, ChainRoot(h, c.leaves));
    }
  }

  lemma PayloadTold(a: string, x: string, b: string, y: string)
    requires ':' !in a && ':' !in b && Payload(a, x) == Payload(b, y)
    ensures a == b && x == y
  {
    var p := Payload(a, x);
    assert p[|a|] == ':' && p[|b|] == ':';
    forall i | 0 <= i < |a| ensures p[i] != ':' { assert p[i] == a[i] && a[i] in a; }
    forall i | 0 <= i < |b| ensures p[i] != ':' { assert p[i] == b[i] && b[i] in b; }
    assert a == p[..|a|] == p[..|b|] == b;
    assert x == p[|a| + 1..] == p[|b| + 1..] == y;
  }

  /** The number of leaves has to be compared separately: from three on, an odd number of leaves verifies
      with the last one repeated. */
  lemma RepeatedLeafVerifies(h: Hashes, signer: Signer, c: ChainState)
    requires signer.Works() && |c.leaves| % 2 == 1 && |c.leaves| >= 3
    ensures Verifies(h, signer, Finalized(h, signer, c).(leaves := c.leaves + [c.leaves[|c.leaves| - 1]]))
  {
    var a := LeafDigests(h, c.leaves);
    RepeatedLastLeaf(h.pair, a);
    assert LeafDigests(h, c.leaves + [c.leaves[|c.leaves| - 1]]) == a + [a[|a| - 1]];
  }

  // ----- the agent

  /** What a turn contributes besides its index and its link. */
  datatype TurnInput = TurnInput(promptDigest: string, responseDigest: string, toolCalls: seq<string>, inputTokens: int,
                                 outputTokens: int, timestamp: string)

  /** The agent's chain and log as values. */
  datatype AgentState = AgentState(chain: ChainState, log: seq<TurnEvidence>, turnIndex: nat)

  function EvidenceOf(digest: Digest, a: AgentState, t: TurnInput): TurnEvidence {
    var leaves := a.chain.leaves;
    TurnEvidence(a.turnIndex, a.chain.sessionId, t.promptDigest, t.responseDigest, t.toolCalls, t.inputTokens,
                 t.outputTokens, t.timestamp, if leaves == [] then "" else digest(leaves[|leaves| - 1]))
  }

  function AfterTurn(digest: Digest, a: AgentState, t: TurnInput): AgentState {
    var evidence := EvidenceOf(digest, a, t);
    AgentState(Appended(a.chain, evidence), a.log + [evidence], a.turnIndex + 1)
  }

  class GovernanceAgent {
    const chain: EvidenceChain
    const auditLog: AuditLog
    var turnIndex: nat

    constructor (sessionId: string, auditLog: AuditLog)
      ensures this.auditLog == auditLog && fresh(chain)
      ensures Value() == AgentState(ChainState(sessionId, [], None, None), auditLog.entries, 0)
    {
      chain := new EvidenceChain(sessionId);
      this.auditLog := auditLog;
      turnIndex := 0;
    }

    ghost function Value(): AgentState
      reads this, chain, auditLog
    {
      AgentState(chain.Value(), auditLog.entries, turnIndex)
    }

    method RunGovernedTurn(digest: Digest, t: TurnInput) returns (evidence: TurnEvidence, index: nat)
      modifies this, chain, auditLog
      ensures Value() == AfterTurn(digest, old(Value()), t)
      ensures evidence == EvidenceOf(digest, old(Value()), t) && index == old(turnIndex)
      ensures chain.leaves == old(chain.leaves) + [evidence] && auditLog.entries == old(auditLog.entries) + [evidence]
      ensures turnIndex == old(turnIndex) + 1 && chain.merkleRoot == None
      ensures evidence.turnIndex == old(turnIndex) && evidence.sessionId == chain.sessionId
      ensures evidence.promptDigest == t.promptDigest && evidence.responseDigest == t.responseDigest
      ensures evidence.toolCalls == t.toolCalls && evidence.inputTokens == t.inputTokens
      ensures evidence.outputTokens == t.outputTokens && evidence.timestamp == t.timestamp
      ensures evidence.prevLeafDigest == if old(chain.leaves) == [] then ""
                                         else digest(old(chain.leaves)[|old(chain.leaves)| - 1])
    {
      var prevDigest := "";
      if chain.leaves != [] { prevDigest := digest(chain.leaves[|chain.leaves| - 1]); }
      evidence := TurnEvidence(turnIndex, chain.sessionId, t.promptDigest, t.responseDigest, t.toolCalls,
                               t.inputTokens, t.outputTokens, t.timestamp, prevDigest);
      chain.AppendTurn(evidence);
      auditLog.Append(evidence);
      turnIndex := turnIndex + 1;
      index := turnIndex - 1;
    }
  }

  function RunAgent(digest: Digest, a: AgentState, turns: seq<TurnInput>): AgentState {
    if turns == [] then a else AfterTurn(digest, RunAgent(digest, a, turns[..|turns| - 1]), turns[|turns| - 1])
  }

  /** However many turns a new agent runs, its chain is linked and numbered, and the log has gained the chain. */
  lemma {:induction false} AgentChainLinked(digest: Digest, sessionId: string, log: seq<TurnEvidence>,
                                            turns: seq<TurnInput>)
    ensures var a := RunAgent(digest, AgentState(ChainState(sessionId, [], None, None), log, 0), turns);
            && |a.chain.leaves| == a.turnIndex == |turns| && a.log == log + a.chain.leaves
            && Linked(digest, a.chain.leaves)
            && forall i :: 0 <= i < |turns| ==> a.chain.leaves[i].turnIndex == i
  {
    if turns != [] {
      AgentChainLinked(digest, sessionId, log, turns[..|turns| - 1]);
      var a := RunAgent(digest, AgentState(ChainState(sessionId, [], None, None), log, 0), turns[..|turns| - 1]);
      OneMoreLinked(digest, a.chain.leaves, EvidenceOf(digest, a, turns[|turns| - 1]));
    }
  }

  /** The log a new agent leaves behind after at least one turn passes `verify_integrity` exactly when the
      file was empty before: an agent does not link to the entries of an earlier one. */
  lemma AgentLogVerifies(digest: Digest, sessionId: string, log: seq<TurnEvidence>, turns: seq<TurnInput>)
    requires turns != [] && forall x :: digest(x) != ""
    ensures var a := RunAgent(digest, AgentState(ChainState(sessionId, [], None, None), log, 0), turns);
            Linked(digest, a.log) <==> log == []
  {
    AgentChainLinked(digest, sessionId, log, turns);
    var a := RunAgent(digest, AgentState(ChainState(sessionId, [], None, None), log, 0), turns);
    if log == [] { assert a.log == a.chain.leaves; }
    if log != [] {
      assert a.log[|log|] == a.chain.leaves[0] && LinkFor(digest, a.chain.leaves, 0) == "";
      assert LinkFor(digest, a.log, |log|) != "";
    }
  }
}
