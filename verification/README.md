# A verified model of HPL's governed runtime, front end and audit trail

This project models six connected parts of HPL and proves what they promise, over every input, every run or
every reachable state:

1. **The governed runtime loop.** A plan's steps pass through gates (four budgets, delta-S evidence, the
   execution contract) before their handlers run. The loop with its counters and breaks is proved equal to a
   description without counters: it runs up to the least index that has a reason to stop. From that follow the
   comparison of pairs of runs, safety of irreversible steps, and the bookkeeping of the verdict. Execution
   tokens, which carry the budgets and permissions, survive being stored and loaded.
2. **The language front end.** Tokenizer, stack parser, macro expander, axiomatic validator, IR emitter and
   lowering: explicit-stack loops equal recursive meanings, printing and parsing are inverse, the validator
   decides a grammar, and the independently written validator and emitter agree.
3. **Merkle anchoring.** Both Merkle implementations compute one recursive root, which binds its leaves; what
   the generator writes is what the verifier accepts.
4. **The hash-chained audit log and the signed evidence chain** of the governance agent.
5. **Causal token inheritance**: attenuation, permanent revocation, and how many turns a child can take.
6. **The periodic-grid kernels** of the Navier-Stokes handlers: conservation and energy, rounding included.

One module per source component; `Text` holds the string primitives of Python that the sources lean on, `Runs`
what holds of all runs of `Engine`, `Handlers` the assertion handler, `Grammar` the language the validator
decides. Code that loops or updates objects is a method or a class, proved against a function or predicate whose
properties are the lemmas.

Conventions:

- Handlers are an oracle from the step's index to an outcome; the assertion handler is modelled as well. Epoch
  verification and the operator registry are parameters: the errors they report.
- Hashes, signatures and JSON encodings are parameters. Freedom from collisions is never assumed globally,
  which no hash into digests of fixed width could satisfy: each lemma names the inputs on which it needs it.
- Floats are reals; `_round_price` is rounding to the nearest multiple of 1e-8, ties to even. `exp(-nu * dt)`
  is a decay factor, which is in (0, 1] exactly if `nu * dt` is not negative.

Where the code and its documentation, or an expectation one may have of the code, disagree, the code is
modelled and the difference is stated:

- The assertion handler can refuse without a reason (`Handlers.RefusesWithoutReasonIff`); the run then goes on
  and can be reported completed. `Runs.CompletedWithRefusal` says exactly when.
- Budgets are not uniform: a delta-S budget of 0 is no budget, an IO or NET budget of 0 allows nothing.
- A token stored and loaded is the same token, except one whose list of measurement modes held only blank
  names (`ExecutionTokens.LoadedRoundTrip`).
- `docs/spec/02_bnf.md` asks for at least one form, has no atoms among its expressions, and lets a reserved
  word head an ordinary expression. The validator accepts the empty program and atoms, and reserves the words
  (`Grammar.ValidatorDecidesGrammar`).
- An empty tool list offers a child session every tool, so an empty intersection widens what the root allows
  (`CausalTokens.ToolAttenuation`).
- Spawning the same scope again resets its account, so a budget bounds a token for life only if it is spawned
  once (`CausalTokens.LifetimeBoundIff`).
- A child reports running totals, which the parent adds up, so it is charged the weighted sum of its turns
  (`CausalTokens.TurnBound`).
- An audit log that already holds entries of an earlier agent does not verify after a new agent's turns
  (`Audit.AgentLogVerifies`).
- Merkle roots do not bind the number of leaves, whatever the hash (`Merkle.RootsBindIffSameLength`,
  `Audit.RepeatedLeafVerifies`).
- An anchor does not record what was excluded beside its own files (`Anchor.ExtraExclusionRejected`), and
  abbreviated commits make the comparison of commits intransitive (`Anchor.CommitMatchTransitiveIff`).
- The energy can rise by rounding, for stored fields off the 1e-8 grid (`PeriodicGrid.EnergyNeverRisesIff`).
- The emitter alone neither keeps every child of a hamiltonian form nor stays in expression position
  (`IrEmitter.EmitsExactlyIff`); the commands of `src/hpl/cli.py` validate before they emit.

## Model

| member | source | states |
|---|---|---|
| Engine.Run | src/hpl/runtime/engine.py:55-330 | a run's status, reasons, steps, witness stages, constraint witnesses and transcript are those of the counter-free description `Expected` |
| Engine.RunSteps | src/hpl/runtime/engine.py:160-280 | the loop over counters, role set and breaks stops at the least index with a closed gate or a refusal that has reasons, with exactly the records and transcript entries up to there |
| Engine.RunStep | src/hpl/runtime/engine.py:160-280 | one pass keeps the loop's invariant, or leaves what the whole loop has to leave |
| Engine.PassGate | src/hpl/runtime/engine.py:161-238 | the gates against live counters and roles decide as the gates against counts of earlier steps; call budgets are charged on the attempt |
| Engine.ChargeCalls | src/hpl/runtime/engine.py:173-211 | the three call counters deny exactly when as many earlier steps of the kind as the budget allows were attempted |
| Engine.RunHandler | src/hpl/runtime/engine.py:240-276 | a handler's outcome is booked in reasons, records, transcript and roles |
| Engine.UpdateEvidenceRoles | src/hpl/runtime/engine.py:523-533 | the role set gains a role exactly if some name, in any case of letters, contains it, a gate certificate counting as an admissibility certificate |
| Runs.NothingHeldAgainst | src/hpl/runtime/engine.py:69-158 | the loop is reached if and only if there is a token, the plan is planned and nothing consulted reports an error; otherwise nothing runs and the steps are dropped |
| Runs.HeldAgainst | src/hpl/runtime/engine.py:69-158 | otherwise the run is denied, runs nothing, and says exactly what is held against it |
| Engine.Loop.FirstStopUnique | src/hpl/runtime/engine.py:160-280 | there is one index at which a loop stops first |
| Runs.RolesBeforeMeans | src/hpl/runtime/engine.py:274-275 | a role is on record before a step if and only if an earlier successful step left an artifact that is evidence for it |
| Runs.GateMeaning | src/hpl/runtime/engine.py:161-238 | read off the entries of step and token: a gate closes if and only if the step is over a budget, lacks evidence or is not permitted, whatever the order of the checks; and what it says is what comes first in that order |
| Runs.RunMeaning | src/hpl/runtime/engine.py:157-280 | for the least index with a reason to stop: the run's reasons, its transcript (that long, or one longer if it was the handler that refused) entry by entry, its witness stages, and its status |
| Runs.OpenerLoopRunsFurther | src/hpl/runtime/engine.py:160-280 | a loop with more open gates runs at least as far |
| Runs.WideningNeverShortens | src/hpl/runtime/engine.py:160-280 | raising budgets and widening token or contract extends the transcript and keeps a completed run completed, for the same handler results |
| Contracts.WideningPermits | src/hpl/runtime/contracts.py:18-98 | what a narrower token and contract permit, wider ones permit |
| Runs.RanUnbarred | src/hpl/runtime/engine.py:160-280 | every handler that ran belongs to a step that nothing barred |
| Runs.EvidenceBeforeIrreversible | src/hpl/runtime/engine.py:213-226 | every role an executed irreversible step demands was supplied by an earlier successful step of the run, and is one of the four recordable ones |
| Runs.DeniedForEvidenceIff | src/hpl/runtime/engine.py:213-226 | a run is denied for missing evidence if and only if the step after its transcript is reached, within all budgets and irreversible, and demands a role no successful entry has supplied |
| Runs.EarlierWithinBudget | src/hpl/runtime/engine.py:173-211 | if no step of a kind ran past the budget, no more than the budget ran |
| Runs.BudgetsBoundRuns | src/hpl/runtime/engine.py:87-102 | every run stays within all four budgets that are in force |
| Runs.Verdict | src/hpl/runtime/engine.py:282-330 | denied iff reasons iff exactly one constraint witness, holding the sorted permutation of the reasons; records start and end right and count the successful entries; unplanned plans run nothing |
| Runs.CompletedWithRefusal | src/hpl/runtime/engine.py:242-282 | a completed run contains a refused step if and only if some handler refuses without a reason; with the repository's handlers, if and only if the plan holds an assertion step with a false `ok` and no errors |
| Handlers.RefusesWithoutReasonIff | src/hpl/runtime/effects/handlers.py:52-59 | the assertion handler refuses without a reason if and only if `ok` is present and false and the errors are absent or an empty list |
| Handlers.AssertContractMeans | src/hpl/runtime/effects/handlers.py:52-59 | when the assertion handler accepts, and with what it refuses otherwise |
| Runs.RefusalCanComplete | src/hpl/runtime/effects/handlers.py:52-59 | for a plan of one assertion step with any arguments: completed if and only if the handler accepts or the arguments are such; completed with a refusal exactly for these |
| Runs.FailedAssertionCompletes | src/hpl/runtime/effects/handlers.py:52-59 | at the arguments `{"ok": false}` |
| Contracts.Preconditions | src/hpl/runtime/contracts.py:18-98 | accepts exactly the permitted steps; otherwise lists every violated requirement in order |
| Contracts.NoErrorsMeansPermitted | src/hpl/runtime/contracts.py:18-98 | the error list is empty if and only if the permission read off the entries of contract, step and token holds |
| Contracts.ErrorsMean | src/hpl/runtime/contracts.py:18-98 | which messages are given |
| Contracts.ErrorsInOrder | src/hpl/runtime/contracts.py:22-97 | and that they come check by check |
| Contracts.CheckModes | src/hpl/runtime/contracts.py:35-42 | the two measurement checks amount to one condition |
| Contracts.CheckIo | src/hpl/runtime/contracts.py:50-73 | the IO errors, in order |
| Contracts.CheckNet | src/hpl/runtime/contracts.py:74-97 | the NET errors, in order |
| ExecutionTokens.NormalizeModesIdempotent | src/hpl/execution_token.py:21-28 | normalizing names twice is normalizing once; nothing is left exactly of blank names |
| ExecutionTokens.NormalizeEndpointsIdempotent | src/hpl/execution_token.py:36-37 | so for endpoints |
| ExecutionTokens.PoliciesRoundTrip | src/hpl/execution_token.py:31-88 | a normalized policy survives being written and normalized again |
| ExecutionTokens.FromDictIsNormal | src/hpl/execution_token.py:178-225 | whatever is loaded is in normal form |
| ExecutionTokens.NormalRoundTrip | src/hpl/execution_token.py:106-128 | a normal token survives storing and loading if and only if its mode list is not present and empty |
| ExecutionTokens.BuildRoundTrip | src/hpl/execution_token.py:106-225 | every built token survives storing and loading |
| ExecutionTokens.BuildMeans | src/hpl/execution_token.py:130-176 | every field of a built token in terms of its argument; the id is the digest of the other fields |
| ExecutionTokens.FromDictMeans | src/hpl/execution_token.py:178-225 | every field of a loaded token in terms of its entry, or of its default |
| ExecutionTokens.ToDictMeans | src/hpl/execution_token.py:106-128 | every entry written, and which are left out |
| ExecutionTokens.ModesAreNames | src/hpl/execution_token.py:21-28 | normalized names are exactly the given ones that are not blank, in upper case, sorted without repetition |
| ExecutionTokens.LoadedRoundTrip | src/hpl/execution_token.py:178-225 | the exact condition under which a loaded token survives it |
| ExecutionTokens.BlankModeLost | src/hpl/execution_token.py:222 | at a stored token whose only mode is blank, which does not survive |
| ExecutionTokens.RebuildWithoutId | src/hpl/execution_token.py:197-211 | without its id a stored token is rebuilt, id included, if and only if its backend list is not empty |
| ExecutionTokens.BlankBackendLost | src/hpl/execution_token.py:145 | at a token built for a blank backend, which is not rebuilt |
| Text.SortCorrect | src/hpl/audit/constraint_witness.py:18 | sorting gives the sorted permutation |
| Text.LessMeans | src/hpl/audit/constraint_witness.py:18 | the order of strings is decided at the first difference |
| Text.CaseMeans | src/hpl/execution_token.py:22 | what upper and lower case change |
| Text.StripMeans | src/hpl/execution_token.py:37 | what is stripped, and what is left |
| Text.ContainsMeans | src/hpl/runtime/engine.py:526-532 | a text contains another if and only if it occurs at some position |
| Text.SpaceMeans | src/hpl/emergence/dsl/parser.py:22 | the white space characters, one by one |
| Merkle.PadAndPair | tools/anchor_generator.py:200-207 | padding a level in place and pairing it gives the level above |
| Merkle.UpAt | tools/anchor_generator.py:203-206 | the node above a pair hashes the left node before the right |
| Merkle.SmallRoots | tools/hpl-agent/hpl_agent/ci/merkle.py:14-27 | the roots of one, two and three leaves |
| Merkle.BuildMerkleRoot | tools/anchor_generator.py:192-208 | the padded loop computes the recursive root |
| Merkle.PairReusingLeft | tools/hpl-agent/hpl_agent/ci/merkle.py:21-26 | the inner loop, which reuses the left node, gives the same level above |
| Merkle.ComputeRoot | tools/hpl-agent/hpl_agent/ci/merkle.py:14-27 | the loop that reuses the left node computes the same root |
| Merkle.PaddingKeepsUp | tools/verify_anchor.py:158-165 | repeating the last node of an odd level does not change the level above |
| Merkle.UpBinds | tools/verify_anchor.py:158-165 | a level determines the one below up to a repeated last node |
| Merkle.RootBinds | tools/verify_anchor.py:150-166 | leaf lists of one length with one root are equal, if no two of the hashed pairs collide |
| Merkle.RepeatedLastLeaf | tools/verify_anchor.py:158-159 | exactly when an odd list shares its root with itself plus its last leaf |
| Merkle.LevelAboveSharesRoot | tools/verify_anchor.py:157-165 | a level used as leaves has the root of the level below |
| Merkle.DifferentLengthsShareRoot | tools/hpl-agent/hpl_agent/ci/merkle.py:14-27 | for every hash and any two different lengths, two lists with one root, without any collision among what is hashed |
| Merkle.RootsBindIffSameLength | tools/verify_anchor.py:150-166 | for every hash: without collisions one root forces one list, for all lists of two given lengths, if and only if the lengths are equal |
| Merkle.ConcatenationBinds | tools/hpl-agent/hpl_agent/ci/merkle.py:10-27 | hashing concatenated digests of one width binds too |
| Merkle.ConcatenationMeans | tools/hpl-agent/hpl_agent/ci/merkle.py:10-12 | the root of three leaves in terms of the string hash |
| Anchor.CollectLeaves | tools/anchor_generator.py:165-189 | for every order of the directory walk: one leaf for every file that is neither excluded nor in `.git`, sorted by path, with its length, its digest, and the digest of path and digest |
| Anchor.CoveredMeans | tools/verify_anchor.py:125-131 | which files are covered |
| Anchor.ListingUnique | tools/anchor_generator.py:174-189 | covered files have one listing |
| Anchor.ListingDeterminesFiles | tools/anchor_generator.py:177-188 | a listing belongs to one set of files, if their digests do not collide |
| Anchor.GenerateAnchor | tools/anchor_generator.py:61-144 | every entry of what is written: listing, leaves digest, root over the leaf hashes, metadata, payload digest, signature |
| Anchor.SignatureErrors | tools/verify_anchor.py:58-77 | no error if and only if the signature is absent or everything about it checks |
| Anchor.SignatureErrorsMean | tools/verify_anchor.py:58-77 | which signature errors are reported |
| Anchor.ContentErrorsMean | tools/verify_anchor.py:46-56 | which content errors are reported |
| Anchor.VerifyContent | tools/verify_anchor.py:46-56 | the content errors and the recomputed root |
| Anchor.VerifyAnchor | tools/verify_anchor.py:28-79 | accepts exactly by the declarative acceptance, which no walk order enters; otherwise the errors, in order |
| Anchor.AcceptsMeans | tools/verify_anchor.py:45-79 | acceptance can be decided on any listing of the bundle |
| Anchor.RoundTrip | tools/verify_anchor.py:28-79 | a generated anchor is accepted for a later bundle if and only if the covered files are the same: none added, removed or changed |
| Anchor.FreshAnchorAccepted | tools/verify_anchor.py:103-116 | writing the anchor's own files into or beside the bundle keeps it valid |
| Anchor.ExtraExclusionRejected | tools/verify_anchor.py:103-116 | a file excluded only at generation makes the verifier reject |
| Anchor.FirstDivergentLeaf | tools/compare_anchor_contract.py:69-104 | the least index at which two lists of leaves differ, or none |
| Anchor.Compare | tools/compare_anchor_contract.py:125-170 | refuses exactly if one of the five fields differs, is green exactly if the roots agree as well, and otherwise shows the first difference |
| Anchor.ContractForcesRoot | tools/compare_anchor_contract.py:130-166 | for generated anchors, matching contract fields force the same leaves and the same root |
| Anchor.ContractForcesFiles | tools/compare_anchor_contract.py:130-166 | and the same covered files |
| Anchor.RootDeterminesFiles | tools/anchor_generator.py:77-96 | two generated anchors with one Merkle root and one leaf count cover the same files, for a digest of fixed width without collisions on what was hashed |
| Anchor.NormalizeShaMeans | tools/compare_anchor_contract.py:19-29 | what a commit is normalized to |
| Anchor.CommitMatchMeans | tools/compare_anchor_contract.py:32-39 | hexadecimal commits match if equal, or if one of at least seven digits begins the other; others match only themselves |
| Anchor.CommitMatchSymmetric | tools/compare_anchor_contract.py:19-39 | the commit comparison is reflexive and symmetric |
| Anchor.CommitMatchTransitiveIff | tools/compare_anchor_contract.py:32-39 | it is transitive through a commit if and only if that is not a hexadecimal one of at least seven digits |
| Anchor.CommitMatchNotTransitive | tools/compare_anchor_contract.py:32-39 | at three commits |
| Audit.AuditLog.Append | tools/hpl-agent/hpl_agent/ci/audit_log.py:14-16 | the log gains the entry at its end |
| Audit.AuditLog.VerifyIntegrity | tools/hpl-agent/hpl_agent/ci/audit_log.py:30-44 | accepts exactly the linked logs |
| Audit.LastEntryDeterminesLog | tools/hpl-agent/hpl_agent/ci/audit_log.py:30-44 | verifying logs with the same last entry are identical |
| Audit.RewrittenHistoryRejected | tools/hpl-agent/hpl_agent/ci/audit_log.py:30-44 | replacing what precedes the last entry by anything else is rejected |
| Audit.EvidenceChain.AppendTurn | tools/hpl-agent/hpl_agent/ci/evidence_chain.py:63-65 | appends the turn and drops the root, nothing else |
| Audit.EvidenceChain.ComputeChainRoot | tools/hpl-agent/hpl_agent/ci/evidence_chain.py:67-69 | the root of the digests of the turns |
| Audit.EvidenceChain.Finalize | tools/hpl-agent/hpl_agent/ci/evidence_chain.py:71-81 | sets the root over the digests of the turns and the signature of session and root, nothing else |
| Audit.EvidenceChain.Verify | tools/hpl-agent/hpl_agent/ci/evidence_chain.py:83-90 | accepts exactly a current root with a signature that checks |
| Audit.VerifiesAfterFinalize | tools/hpl-agent/hpl_agent/ci/evidence_chain.py:63-90 | over all operation sequences: the turns held are those appended, any root is theirs, and the chain verifies if and only if the last operation was finalize |
| Audit.FinalizedChainBinds | tools/hpl-agent/hpl_agent/ci/evidence_chain.py:83-90 | with as many leaves as at finalization, it verifies only for those leaves |
| Audit.SignatureBindsSession | tools/hpl-agent/hpl_agent/ci/evidence_chain.py:71-90 | with a signer that cannot be forged, a finalized chain verifies for its own session alone |
| Audit.SignatureBindsRoot | tools/hpl-agent/hpl_agent/ci/evidence_chain.py:71-90 | and its signature for its own root alone, for sessions without a colon |
| Audit.RepeatedLeafVerifies | tools/hpl-agent/hpl_agent/ci/evidence_chain.py:83-90 | with the last of an odd number of leaves repeated it verifies too |
| Audit.GovernanceAgent.RunGovernedTurn | tools/hpl-agent/hpl_agent/ci/governance_agent.py:31-64 | the turn's evidence, field by field, is linked, numbered, and added to chain and log |
| Audit.AgentChainLinked | tools/hpl-agent/hpl_agent/ci/governance_agent.py:31-64 | after any turns the agent's chain is linked and numbered, and the log has gained just the chain |
| Audit.AgentLogVerifies | tools/hpl-agent/hpl_agent/ci/audit_log.py:30-44 | a new agent's log verifies if and only if the file was empty before |
| CausalTokens.IntersectIsMeet | tools/hpl-agent/hpl_agent/ctih/token_tree.py:15-23 | the intersection is the greatest scope within both |
| CausalTokens.GrantedAsRequested | tools/hpl-agent/hpl_agent/ctih/token_tree.py:15-23 | a request is granted unchanged if and only if it is within the scope; intersecting again changes nothing |
| CausalTokens.OfferedAreChosen | tools/hpl-agent/hpl_agent/ctih/child_agent.py:28-31 | the tools offered are the definitions left when those not allowed are struck out |
| CausalTokens.ChosenMeans | tools/hpl-agent/hpl_agent/ctih/child_agent.py:28-31 | a tool is given if and only if it is defined and allowed, as often as it is defined |
| CausalTokens.ChosenInOrder | tools/hpl-agent/hpl_agent/ctih/child_agent.py:28-31 | in the order of the definitions |
| CausalTokens.ChosenAll | tools/hpl-agent/hpl_agent/ctih/child_agent.py:28-31 | all of them if and only if all are allowed |
| CausalTokens.ToolAttenuation | tools/hpl-agent/hpl_agent/ctih/child_agent.py:28-31 | a child is offered no more tools than its root if and only if the intersection is not empty or the root was unrestricted |
| CausalTokens.TokenTree.MintChild | tools/hpl-agent/hpl_agent/ctih/token_tree.py:75-84 | the child, with scope, id, parent and index, is added at the end |
| CausalTokens.TokenTree.Revoke | tools/hpl-agent/hpl_agent/ctih/token_tree.py:86-90 | the id is added to the revoked ones |
| CausalTokens.ParentScheduler.SpawnChild | tools/hpl-agent/hpl_agent/ctih/parent_scheduler.py:31-35 | the scheduler's whole state after spawning, with a fresh account |
| CausalTokens.ParentScheduler.ReceiveWitness | tools/hpl-agent/hpl_agent/ctih/parent_scheduler.py:37-65 | the whole state and the answer: refused, charged, or charged and revoked |
| CausalTokens.ReceivedMeans | tools/hpl-agent/hpl_agent/ctih/parent_scheduler.py:43-65 | what hearing a report does to accounts, revocations and log, entry by entry |
| CausalTokens.SpawnedMeans | tools/hpl-agent/hpl_agent/ctih/parent_scheduler.py:31-35 | what spawning does, entry by entry |
| CausalTokens.FindChildMeans | tools/hpl-agent/hpl_agent/ctih/parent_scheduler.py:54 | the child gone by is the first with the id |
| CausalTokens.ChildAgentSession.RunTurn | tools/hpl-agent/hpl_agent/ctih/child_agent.py:20-52 | the engine is given the definitions that are allowed; the states of session and parent after a turn, which reports the running total, and the response |
| CausalTokens.AfterTurnMeans | tools/hpl-agent/hpl_agent/ctih/child_agent.py:25-52 | what a turn reports, and when the session stays active |
| CausalTokens.ChildrenAreMeets | tools/hpl-agent/hpl_agent/ctih/parent_scheduler.py:31-35 | after any run the children are one per request, in order, each with the meet of root and request |
| CausalTokens.StepKeeps | tools/hpl-agent/hpl_agent/ctih/parent_scheduler.py:31-65 | every event keeps accounts within budget and the log consistent |
| CausalTokens.RunsKeep | tools/hpl-agent/hpl_agent/ctih/parent_scheduler.py:31-65 | over every run an active token's recorded total is within its scope's budget |
| CausalTokens.LoggedOnce | tools/hpl-agent/hpl_agent/ctih/parent_scheduler.py:55-64 | over every run no id is logged twice, and logged ids are revoked |
| CausalTokens.RevocationIsPermanent | tools/hpl-agent/hpl_agent/ctih/token_tree.py:86-90 | nothing that happens later makes a revoked token active, and its witnesses change nothing |
| CausalTokens.RecordedSinceSpawn | tools/hpl-agent/hpl_agent/ctih/parent_scheduler.py:31-51 | over every run the recorded total of an active token is what was reported since it was last spawned |
| CausalTokens.RecordedWithinBudget | tools/hpl-agent/hpl_agent/ctih/parent_scheduler.py:53-64 | over every run it is within the budget of the token's first child, whether or not ids collide |
| CausalTokens.LifetimeBoundIff | tools/hpl-agent/hpl_agent/ctih/parent_scheduler.py:31-65 | over all runs with given requests, everything accepted of an active token is within its budget if and only if it is spawned once or has no budget |
| CausalTokens.SpawningAgainForgets | tools/hpl-agent/hpl_agent/ctih/parent_scheduler.py:31-35 | for all requests, a run in which a token reports its whole budget each time it is spawned, all accepted, and is active |
| CausalTokens.SpawnedTwiceUnbounded | tools/hpl-agent/hpl_agent/ctih/parent_scheduler.py:31-35 | at one scope requested twice, the bound fails |
| CausalTokens.SpawnedIsFresh | tools/hpl-agent/hpl_agent/ctih/parent_scheduler.py:31-35 | spawning opens a fresh account if and only if the id is not revoked, with the budget of the id's first child |
| CausalTokens.ActiveWhileReportsFit | tools/hpl-agent/hpl_agent/ctih/child_agent.py:20-52 | interleaved with events of other tokens, a session is active exactly while the sum of its running totals fits |
| CausalTokens.ReportedIsWeighted | tools/hpl-agent/hpl_agent/ctih/child_agent.py:37-47 | the sum of the running totals counts turn j of k exactly k - j + 1 times |
| CausalTokens.TurnBound | tools/hpl-agent/hpl_agent/ctih/child_agent.py:20-52 | after k turns a session is active iff the weighted sum is within the budget, and then so are k(k+1)/2 and its true consumption |
| PeriodicGrid.RoundPriceFacts | src/hpl/runtime/effects/handlers.py:2101-2102 | rounding is off by at most half a unit, odd, monotone, and the identity exactly on the grid |
| PeriodicGrid.NeighboursInRange | src/hpl/runtime/effects/handlers.py:2196-2202 | all modular neighbour indices are in range and are the torus neighbours |
| PeriodicGrid.Divergence | src/hpl/runtime/effects/handlers.py:2194-2206 | the nested loops compute the central difference of every cell |
| PeriodicGrid.DivergenceMeans | src/hpl/runtime/effects/handlers.py:2196-2206 | which is that of the source's index arithmetic |
| PeriodicGrid.DivergenceOfSlopes | src/hpl/runtime/effects/handlers.py:2194-2206 | where u grows by a along its row and v by b along its column, the divergence is a + b |
| PeriodicGrid.DivergenceSumsToZero | src/hpl/runtime/effects/handlers.py:2194-2206 | over the torus the divergence sums to exactly zero |
| PeriodicGrid.SubtractDivergence | src/hpl/runtime/effects/handlers.py:862-870 | every cell loses the scaled divergence in both components |
| PeriodicGrid.ProjectLeray | src/hpl/runtime/effects/handlers.py:855-880 | every component is within half a unit of its old value less gain times divergence; the residual is the largest rounded magnitude; the gain is on record |
| PeriodicGrid.RoundedMax | src/hpl/runtime/effects/handlers.py:862 | the residual is the largest of the rounded magnitudes |
| PeriodicGrid.LerayConserves | src/hpl/runtime/effects/handlers.py:855-880 | the totals of u and v are preserved for every gain, up to half a unit of rounding per cell |
| PeriodicGrid.ApplyDuhamel | src/hpl/runtime/effects/handlers.py:834-852 | every component is on the grid within half a unit of its old value less dt times coefficient times the value times its magnitude |
| PeriodicGrid.DuhamelLowersEnergy | src/hpl/runtime/effects/handlers.py:834-852 | whatever satisfies that, in range: the energy does not rise; a component whose friction exceeds half a rounding unit and is less than itself becomes strictly smaller without changing its sign, and then the energy strictly falls |
| PeriodicGrid.EvolveMeans | src/hpl/runtime/effects/handlers.py:817-831 | every component is on the grid within half a unit of its old value times the decay, and the time is advanced |
| PeriodicGrid.EnergyMeans | src/hpl/runtime/effects/handlers.py:2209-2210 | the energy is additive, and half the sum of the squares of a cell |
| PeriodicGrid.DampingShrinksIff | src/hpl/runtime/effects/handlers.py:846-847 | before rounding, damping shrinks a component if and only if its rate is between 0 and 2 |
| PeriodicGrid.LinearStepShrinks | src/hpl/runtime/effects/handlers.py:817-831 | the linear step shrinks every component on the grid and stays on it |
| PeriodicGrid.DecayNeverGrowsIff | src/hpl/runtime/effects/handlers.py:824-827 | for any component: the linear step never enlarges it, whatever the decay, if and only if rounding does not |
| PeriodicGrid.LinearStepNeverRaisesIff | src/hpl/runtime/effects/handlers.py:823-827 | for any stored field: the linear step never raises its energy, whatever the decay, if and only if rounding the field does not |
| PeriodicGrid.EnergyNeverRises | src/hpl/runtime/effects/handlers.py:2209-2210 | the energy does not rise across the linear and then the Duhamel step, rounding included |
| PeriodicGrid.EnergyNeverRisesIff | src/hpl/runtime/effects/handlers.py:817-852 | the same for both steps, for any stored field and a rate in range for its rounded components |
| PeriodicGrid.RoundingRaisesEnergyOffGrid | src/hpl/runtime/effects/handlers.py:824-827 | at one cell off the grid, the linear step raises the energy |
| Ast.IterNodes | src/hpl/ast.py:44-50 | the explicit stack visits the nodes in recursive preorder |
| Lexer.PiecesTile | src/hpl/emergence/dsl/parser.py:20-29 | the matches tile every text without gap |
| Lexer.NextMatch | src/hpl/emergence/dsl/parser.py:37-39 | the next match starts where the last one ended |
| Lexer.Advance | src/hpl/emergence/dsl/parser.py:52-57 | the counters follow the reader's line and column over any match |
| Lexer.Tokenize | src/hpl/emergence/dsl/parser.py:32-62 | on every text, no error; however the text is cut into pieces that match as a whole and as long as can be, the tokens are the pieces that are not white space or comments, each at the line and column a reader finds it at |
| Lexer.CutExists | src/hpl/emergence/dsl/parser.py:20-29 | every text can be cut in this way |
| Lexer.TokensMean | src/hpl/emergence/dsl/parser.py:32-62 | and in one way, as far as tokens go |
| Lexer.LocationMeans | src/hpl/emergence/dsl/parser.py:52-57 | line and column in terms of the newlines before and the characters since |
| Lexer.LexWhite | src/hpl/emergence/dsl/parser.py:22 | any white space is skipped |
| Lexer.LexComment | src/hpl/emergence/dsl/parser.py:23 | a comment is skipped up to the end of its line |
| Lexer.CommentChangesNoToken | src/hpl/emergence/dsl/parser.py:20-62 | a comment inserted at the end of any line changes no kind and no value |
| Parser.ParseTokens | src/hpl/emergence/dsl/parser.py:75-108 | succeeds if and only if the tokens are balanced, with the forest they flatten; else reports the first unmatched ')' or the innermost unclosed '(' |
| Parser.ParseProgram | src/hpl/emergence/dsl/parser.py:75-108 | the same for texts |
| Parser.CommentsDoNotMatter | src/hpl/emergence/dsl/parser.py:75-108 | nor success, the forest up to locations, or the error up to the place of its token |
| Parser.ForestReads | src/hpl/emergence/dsl/parser.py:75-108 | a parsed forest has exactly the parentheses and atoms of the tokens, in order, with their locations |
| Parser.AtomMeans | src/hpl/emergence/dsl/parser.py:65-72 | when an atom is a float, an integer or a symbol |
| Parser.OneForest | src/hpl/emergence/dsl/parser.py:75-108 | a program parses to at most one forest, locations included |
| Parser.FlattenBalanced | src/hpl/emergence/dsl/parser.py:80-95 | every forest flattens to a balanced stream |
| Parser.DecimalParses | src/hpl/emergence/dsl/parser.py:65-72 | the decimal form of every integer is an atom that `int` on ASCII texts reads as this integer |
| Parser.PrintThenParse | src/hpl/emergence/dsl/parser.py:65-108 | for every forest of symbols, integers, floats and lists whose atoms read back: its printed form is accepted and can only parse to that forest, up to locations |
| Grammar.ValidatorDecidesGrammar | src/hpl/axioms/validator.py:42-218 | accepts exactly the axiomatic programs without surface symbols; the path of a failure leads to the node at its location, which breaks the rule reported, in the first form that is not as it should be |
| Grammar.MeasureInOrder | src/hpl/axioms/validator.py:200-206 | of the parts of a measurement the first that is wrong is reported |
| Grammar.LambdaInOrder | src/hpl/axioms/validator.py:95-104 | so for operator bodies and handlers |
| Grammar.ExpressionsInOrder | src/hpl/axioms/validator.py:165-166 | and for the items of an expression |
| Grammar.ExpressionChecked | src/hpl/axioms/validator.py:142-206 | so for expressions at any path |
| IrEmitter.CollectTermsFromNode | src/hpl/dynamics/ir_emitter.py:69-83 | appends to the shared list exactly the terms below the node, in order |
| IrEmitter.CollectTerms | src/hpl/dynamics/ir_emitter.py:62-66 | the terms of all forms, in order |
| IrEmitter.EmittedTermsTell | src/hpl/dynamics/ir_emitter.py:62-99 | on any program, the terms tell what the well-formed children walked state |
| IrEmitter.ArgListEmitsNothing | src/hpl/dynamics/ir_emitter.py:82-83 | a validated argument list, which is walked too, contributes no term |
| IrEmitter.ValidatedEmitsExactly | src/hpl/dynamics/ir_emitter.py:62-99 | in a validated program the terms are, one for one and in preorder, the children of the hamiltonian forms in expression position |
| IrEmitter.DropsNothingIff | src/hpl/dynamics/ir_emitter.py:69-99 | on any program as many terms are emitted as children are walked if and only if each of these is a well-formed term |
| IrEmitter.EmitsExactlyIff | src/hpl/dynamics/ir_emitter.py:62-99 | on any program the terms are exactly the children in expression position if and only if these are just the well-formed terms among the children walked |
| IrEmitter.UnvalidatedDrops | src/hpl/dynamics/ir_emitter.py:76-81 | at a form with a malformed term, which is dropped |
| IrEmitter.UnvalidatedInvents | src/hpl/dynamics/ir_emitter.py:82-83 | at a malformed evolve form, in which a term is found |
| IrEmitter.ValidateProgramIr | src/hpl/dynamics/ir_emitter.py:57-59 | accepts exactly the terms of listed classes |
| IrEmitter.TermMeans | src/hpl/dynamics/ir_emitter.py:86-99 | which nodes yield a term, with which operator and coefficient |
| IrEmitter.EmitProgramIr | src/hpl/dynamics/ir_emitter.py:14-54 | never fails its own schema check; for a validated program each term has the name and the number its node states, one for one and in order; a placeholder operator for exactly the ids, and the constant parts |
| IrEmitter.BuildOps | src/hpl/backends/classical_lowering.py:58-75 | one op per term, numbered, in order |
| FrontEnd.CollectSymbolNodes | src/hpl/emergence/macros/expander.py:12-21 | the distinct symbols in order, each with the node it first occurs in |
| FrontEnd.DistinctSymbolsOccur | src/hpl/emergence/macros/expander.py:12-21 | exactly the symbols that occur, each once |
| FrontEnd.DistinctSymbolsInOrder | src/hpl/emergence/macros/expander.py:12-21 | in the order of their first occurrence |
| FrontEnd.ExpandProgram | src/hpl/emergence/macros/expander.py:39-63 | fails exactly without symbols; otherwise one hamiltonian form over the distinct symbols in preorder |
| FrontEnd.ExpansionValidates | src/hpl/axioms/validator.py:42-49 | every expansion is accepted by the validator |
| FrontEnd.ExpansionEmits | src/hpl/dynamics/ir_emitter.py:62-99 | and emits one prefixed term per symbol, in order |
| FrontEnd.DistinctOperators | src/hpl/dynamics/ir_emitter.py:34-41 | with as many operators as terms |
| FrontEnd.Compile | src/hpl/emergence/macros/expander.py:39-63 | the whole pipeline: rejected exactly without symbols, otherwise one term, operator and op per distinct symbol, in first-occurrence preorder |

## Left out

- Engine.Run: digests, timestamps and observer reports of witness records and transcript entries, and the result id, are not modelled; records are their stages. `postconditions`, which accepts everything, is left out.
- Runs.NothingHeldAgainst: how epoch and signature verification and the operator registry find their errors is not modelled, only that these are reported.
- Contracts.Preconditions: list items of a step's `requires` are kept as their `str`.
- Handlers.RefusesWithoutReasonIff: list items of the errors are kept as their `str`.
- Runs.CompletedWithRefusal: that the other handlers give reasons when they refuse is a hypothesis, except for the assertion handler; several pass on the errors of tools that are not part of this model.
- ExecutionTokens.NormalizeModesIdempotent: `upper` changes ASCII letters only.
- ExecutionTokens.LoadedRoundTrip: ill-typed entries (numbers for strings and the like) and the conversions `int`, `bool` and `str` applied to them are not modelled; contents of a delta-S policy are strings.
- Anchor.VerifyAnchor: the same for ill-typed entries of manifest and leaves; file names with directory parts are not modelled.
- Audit.AuditLog.VerifyIntegrity: reading JSON is not modelled; the lines of the file are the entries they encode.
- CausalTokens.ParentScheduler.ReceiveWitness: timestamps, the revocation callback and the wording of the reason are not modelled; accounts are a map of values, not shared objects.
- CausalTokens.ChildAgentSession.RunTurn: the engine is a parameter, tools are their names, and the witness's signature is not modelled.
- CausalTokens.RunsKeep: says nothing of siblings together; the root's budget limits each child but is never reduced by spawning.
- PeriodicGrid.Divergence: a zero grid spacing, where the source raises a division error, is excluded.
- PeriodicGrid.LerayConserves: infinities, NaN and the floating-point error of each operation are not modelled, here and in the other kernels; the bound is that of `_round_price`.
- Parser.ParseProgram: `int` and `float` on the texts of atoms are parameters.
- IrEmitter.EmitProgramIr: of the schema check only the classes of terms are checked, the rest holds by the types; the schema is the one in `docs/spec/04_ir_schema.json`.
- Unicode case mapping: `upper` and `lower` change ASCII letters only. White space is Python's, exactly.
- Trace collection, file reads and writes, clocks.
- Functions of the validator that differ only in the word their messages start with are one function here.
- Handlers other than the assertion and the linear, Duhamel and Leray steps, among them dissipation, pressure and the CFL number, are not modelled.
- Measurement selection, the scheduler's step builders, bundling, context memory, adapters and the command line.
