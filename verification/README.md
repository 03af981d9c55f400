# Zapadka: a verified model of the migration graph and the deployment protocol

Zapadka deploys SQL migrations to PostgreSQL. A project is a set of migration packages whose manifests
name the migrations they depend on; a database carries a registry schema that records what is applied,
which nontransactional statement was started and never accounted for, and an append-only history of
events. This project models the parts on which its promises rest and proves those promises.

- **The graph and the planner.** `DependencyOrder`, `DependencyCycles` and `DependencyClosure` say what a
  deployment order, a cycle, a closure and a head are, independently of any data structure. `Graphs`
  builds the graph and runs the counter-based sort, the cycle recovery and the closure search as loops
  over mutable maps and stacks. `Creation`, `Lint` and `History` add the choice of dependencies for a new
  migration, the verdicts that decide how a script may run, and the split into applied and pending; `Edits`
  says what the history check notices of a change to an applied migration.
- **The registry.** `Ledger` is the history in commit order, interleaved with the moments at which user SQL
  became durable. `Registry` is one schema's tables, every write to them with the constraints that can
  refuse it, and the invariant `Sound` that each committed transaction keeps. `Rehash` is the transition
  of comparison identities.
- **The runner.** `Transactions` gives a transaction its meaning: a private copy that replaces what is
  committed or vanishes. `Sessions` is a connection on which any command can be refused or lost,
  `Runners` is the class that owns it and counts events, and `Deploys` and `Statuses` are the loops over a
  plan.
- **The protocol.** `Protocol` lets any number of runs, of any projects, from any checkouts, move in any
  order against one database: taking and giving back advisory locks, reading, claiming, upgrading, and
  exchanging transactions command by command. A run can fail or die between any two of its steps, a
  commit can succeed unseen, and a nontransactional statement can take effect after its client has died.
  `ProtocolInvariant` to `ProtocolTheorems` prove that every world reachable from a database at rest
  satisfies one invariant. At rest means that nothing runs, and that the database is unused or holds one
  sound registry, in any of the three formats and with rows of either comparison policy.
  `ProtocolPromises`, `ProtocolProgress` and `ProtocolFormats` draw the conclusions. `ProtocolLiveness`,
  `ProtocolRecovery`, `ProtocolReverts` and `ProtocolBaselines` show that every command can run to its end,
  after crashes too, and what it leaves then; `ProtocolClaims` says which commands get past their checks, and
  `ProtocolLegacy` what a rehash makes of a registry an earlier release recorded. `RunnerMoves` ties the
  runner to the protocol: what one can leave behind the other can.
- **Normal forms.** `Canonical` (parse trees), `Manifests` (canonical text and validation) and `Durations`
  (the timeout parser and printer), over the string and sorting lemmas of `Text`.

How things are represented:

- A UUID is a natural number. A reference to a migration held by the graph is its id.
- SHA-256 is taken to be injective: a definition digest is the contents it is taken of. That those
  contents and the canonical text determine each other is proved in `Manifests`.
- A script carries its bytes together with what the parser makes of them: statement kinds and a tree.
- The `events` table is a log. It also holds two kinds of entry that are not rows: a nontransactional
  statement being sent, and a statement taking effect. The database does not store them; they are what the
  claims of the rows are measured against.
- Where a method takes its argument from a connection, the replies of the server and the network are given
  as data, and the contract holds for all of them.
- Lock keys of different projects are taken to differ. In the source a collision only makes runs wait.
- A dead connection ends its run in the model: nothing it does afterwards can reach the database. Its lock
  is given up at once although its statement may still be executing, which is the worse case.

Two places where the code and its comments differ, and the code is followed: an attempt row stays when the
server refuses the statement (`crates/zapadka-pg/src/execute.rs:400-415`), although
`crates/zapadka-pg/src/registry.rs:897-901` and the reasoning in
`crates/zapadka-core/src/lint.rs:387-393` speak of a refusal as settling it; and pending migrations are the
whole order with the applied part removed (`crates/zapadka-pg/src/history.rs:50-55`), which is not the order
the remainder would get on its own.

## Model

| member | source | states |
|---|---|---|
| Graphs.Build | crates/zapadka-core/src/graph.rs:38-76 | a graph is built exactly when every edge resolves, no list repeats itself and there is no cycle; otherwise the error is the first dangling edge, or a real simple cycle |
| Graphs.InputOrderIsIrrelevant | crates/zapadka-core/src/graph.rs:38-41 | the graph does not depend on the order in which packages were found |
| Graphs.LinkDependents | crates/zapadka-core/src/graph.rs:42-68 | the reverse edges are the exact inverse of the declared ones; fails at the first edge, in id order, that leads nowhere |
| Graphs.TopologicalSort | crates/zapadka-core/src/graph.rs:166-197 | the counter-and-ready-set loop computes the greedy order; no counter underflows |
| Graphs.TakeFromDependents | crates/zapadka-core/src/graph.rs:184-193 | after a node is placed every counter again equals what is outstanding, and the ready set is the zero counters |
| Graphs.OutstandingCounts | crates/zapadka-core/src/graph.rs:167-171 | a counter is the number of unplaced dependencies, for lists without repetition |
| Graphs.OutstandingDrops | crates/zapadka-core/src/graph.rs:184-193 | a counter that is decremented was positive |
| DependencyOrder.KahnLeast | crates/zapadka-core/src/graph.rs:166-197 | from any starting point, the greedy completion is lexicographically at most any completion |
| DependencyCycles.LeastOrder | crates/zapadka-core/src/graph.rs:124-129 | an acyclic graph's deployment order is topological and the least of all topological orders |
| DependencyCycles.CompleteExactly | crates/zapadka-core/src/graph.rs:200-215 | the sort places every node if and only if there is no cycle and no repeated dependency |
| DependencyCycles.RepeatedDependencyStalls | crates/zapadka-core/src/graph.rs:167-171 | a repeated dependency alone makes the sort fall short, without any cycle |
| DependencyCycles.UnplacedExactly | crates/zapadka-core/src/graph.rs:209-216 | what the sort leaves out is exactly what reaches a cycle or a node that lists a dependency twice |
| DependencyCycles.WalkFindsCycle | crates/zapadka-core/src/graph.rs:249-270 | from any stuck node the walk comes back with a simple cycle of real edges |
| Graphs.FindCycle | crates/zapadka-core/src/graph.rs:249-270 | the loop computes that walk |
| Graphs.StuckHasCycle | crates/zapadka-core/src/graph.rs:217-246 | when the sort falls short the walk never gives up, so the fallback list of ids is never used |
| Graphs.CheckForCycles | crates/zapadka-core/src/graph.rs:200-246 | succeeds exactly on acyclic graphs; an error names a real simple cycle |
| Graphs.ClosureOf | crates/zapadka-core/src/graph.rs:136-160 | returns the greedy order of the subgraph induced by exactly the migrations reachable from the target; fails exactly on an unknown id |
| Graphs.Needed | crates/zapadka-core/src/graph.rs:141-154 | the worklist terminates and collects exactly what is reachable |
| DependencyClosure.KahnRestricts | crates/zapadka-core/src/graph.rs:155-160 | sorting and then keeping a dependency-closed part is the same as sorting that part |
| Graphs.HeadsOf | crates/zapadka-core/src/graph.rs:103-112 | the heads, in id order, are exactly the migrations nothing depends on |
| DependencyClosure.NewMigrationAppends | crates/zapadka/src/commands/new.rs:37-43 | a migration on top of all heads comes last, leaves the order of the others alone and becomes the only head |
| DependencyClosure.NewMigrationIsSafe | crates/zapadka/src/commands/new.rs:37-43 | whatever existing migrations a new one depends on, the graph stays closed, acyclic and free of repetitions |
| Creation.ResolveExplicitDependencies | crates/zapadka/src/commands/new.rs:132-177 | the named dependencies, each once; fails when any name fails; warns exactly when one is below a head |
| Canonical.CanonicalExactly | crates/zapadka-parser/src/canonical.rs:12-54 | two trees have the same canonical form if and only if they are equal up to object key order and integer position keys, with array order and string-valued locations significant |
| Canonical.CanonicalizeTwice | crates/zapadka-parser/src/canonical.rs:12-54 | canonicalizing is idempotent |
| Canonical.PositionsAreDropped | crates/zapadka-parser/src/canonical.rs:12-54 | what is dropped from an object is a 64-bit integer under one of eight names, and nothing else |
| Manifests.Validate | crates/zapadka-core/src/manifest.rs:169-249 | accepts exactly the manifests with a supported format, version 7 ids, no self-dependency, no repetition, and reasons where they are required and nowhere else |
| Manifests.CanonicalDependsExactly | crates/zapadka-core/src/manifest.rs:257-263 | two sorted dependency texts agree if and only if the dependency sets do |
| Manifests.CanonicalFormExactly | crates/zapadka-core/src/manifest.rs:271-278 | two canonical texts are equal if and only if id, mode and dependency set are |
| Manifests.DefinitionTextsExactly | crates/zapadka-core/src/manifest.rs:285-305 | the hashed texts of either policy determine execution metadata and script digest, and no text of one policy is a text of the other |
| Durations.ParseExactly | crates/zapadka-core/src/duration.rs:64-88 | a text is accepted with a value exactly when it reads as a number and a unit whose product fits 64 bits; overflow is refused |
| Durations.RoundTrip | crates/zapadka-core/src/duration.rs:64-104 | parsing the printed form of any 64-bit value gives it back |
| Durations.PrintedFormIsStable | crates/zapadka-core/src/duration.rs:90-104 | parsing, printing and parsing again changes nothing |
| Lint.EnsureRunnerOwnsTransaction | crates/zapadka-core/src/lint.rs:139-162 | passes exactly when the script parses and holds no transaction control |
| Lint.CheckDeployScript | crates/zapadka-core/src/lint.rs:217-283 | finds nothing exactly when a deploy script is empty, or parses, leaves transactions alone and fits its mode |
| Lint.DeployPassesExactly | crates/zapadka-core/src/lint.rs:217-438 | a deploy script passes exactly when it is empty, or transactional and made of ordinary statements only, or nontransactional and one statement of that kind that keeps the session |
| Lint.CheckExecutionMode | crates/zapadka-core/src/lint.rs:334-438 | adds exactly the errors of the mode, and none exactly when a transactional script is all transactional, or a nontransactional one is a single statement PostgreSQL refuses in a transaction and not the one that drops the lock |
| Lint.CheckTransactionControl | crates/zapadka-core/src/lint.rs:286-304 | the errors added are the operations of the transaction statements, one for each, at increasing positions that leave none out |
| Edits.EditsShow | crates/zapadka-pg/src/history.rs:128-140 | an applied migration passes the integrity check exactly when its id, mode and dependency set are as recorded and its parse tree is the same up to key order and positions (its bytes, under the exact-bytes policy): an edit is noticed, a reformatting is not |
| Edits.PlansSeeEdits | crates/zapadka-pg/src/history.rs:43-66 | a project can be planned against a database exactly when every applied migration is in it, unedited since it was recorded, with its dependencies applied |
| Edits.EveryRowRecords | crates/zapadka-pg/src/registry.rs:923-993 | every way of applying a migration records its script, dependencies, mode and structural identity |
| History.UnchangedExactly | crates/zapadka-pg/src/history.rs:128-217 | the error is the dependencies exactly when their set has changed, else the mode exactly when it has, else the definition exactly when the script has; under the exact-bytes policy the bytes then differ |
| History.PlanNamesFirst | crates/zapadka-pg/src/history.rs:43-48 | a refused plan is refused for the smallest applied migration that fails its check, with that migration's error |
| History.PlanIsDeployable | crates/zapadka-pg/src/history.rs:50-66 | a plan lists every migration once, and what is pending can be deployed front to back |
| History.PlanKeepsOrder | crates/zapadka-pg/src/history.rs:50-61 | what is applied and what is pending are both listed in the order of the whole project |
| History.PendingIsNotResorted | crates/zapadka-pg/src/history.rs:50-55 | a concrete project in which the pending order differs from sorting the remainder |
| History.Resumable | crates/zapadka-pg/src/history.rs:43-66 | after any prefix of the pending migrations has been recorded, planning again gives the rest in the same order |
| Ledger.WriteAhead | crates/zapadka-pg/src/execute.rs:360-425 | in a legal history a nontransactional effect comes after its sending and its committed attempt, by the same run |
| Ledger.SentOnce | crates/zapadka/src/commands/target.rs:241-267 | between two sendings for one migration, by any runs, somebody accounted for the first |
| Ledger.EventsAreOrdered | crates/zapadka-pg/src/registry.rs:218-238 | within a run, event numbers follow commit order, so the primary key never collides |
| Ledger.NeverForgotten | crates/zapadka-pg/src/execute.rs:519-618 | a migration once applied or unresolved stays so until an operator denies it or it is reverted |
| Registry.DeployKeepsSound | crates/zapadka-pg/src/execute.rs:267-338 | a transactional deploy of a ready migration commits its script's effects, row and event, and keeps the invariant |
| Registry.AttemptKeepsSound | crates/zapadka-pg/src/registry.rs:858-895 | recording an attempt keeps the invariant |
| Registry.LandKeepsSound | crates/zapadka-pg/src/execute.rs:416-424 | a statement landing late keeps the invariant |
| Registry.FinishKeepsSound | crates/zapadka-pg/src/execute.rs:569-618 | recording its success replaces the attempt by an applied row and keeps the invariant |
| Registry.ResolveKeepsSound | crates/zapadka-pg/src/execute.rs:438-489 | either account of an interrupted statement keeps the invariant, without consulting a plan |
| Registry.RevertKeepsSound | crates/zapadka-pg/src/execute.rs:882-948 | reverting something nothing applied depends on keeps the invariant |
| Registry.BaselineKeepsSound | crates/zapadka-pg/src/execute.rs:954-1008 | recording a whole closure is one transaction, goes through, and keeps the invariant |
| Registry.UpgradeKeepsSound | crates/zapadka-pg/src/registry.rs:744-823 | creating or upgrading a registry that is as it was read changes only its metadata |
| Registry.ReadsExactly | crates/zapadka-pg/src/registry.rs:556-738 | a read succeeds exactly without a registry, or with one of formats 1 to 3 whose rows and attempts name known policies, and then gives its rows; a newer format, an invalid one and an unknown policy each have their own refusal |
| Registry.ConstraintsHold | crates/zapadka-pg/src/registry.rs:186-283 | whatever is written, event and audit keys stay unique, an accepted transition has its reason, history and audit only grow, and a registry stays its project's |
| ProtocolPromises.BlockedNamesTheAttempt | crates/zapadka/src/commands/target.rs:241-267 | of any reachable database, the check stops exactly when the history holds an attempt nobody accounted for, and names that one attempt |
| Rehash.ValidatedPlan | crates/zapadka-pg/src/rehash.rs:86-160 | a validated batch covers every applied row once, and each entry has unchanged execution metadata, lint-clean source and a new digest |
| Rehash.ValidatesExactly | crates/zapadka-pg/src/rehash.rs:86-160 | a batch validates exactly when every applied row can be carried over: metadata, dependencies and lint as required and, for an exact-bytes row, the recorded bytes or the operator's word; one differing source refuses all of it otherwise |
| Rehash.DispositionsAreProof | crates/zapadka-pg/src/rehash.rs:143-158 | in a validated batch `Verified` says that id, mode, dependency set and bytes are those recorded, and `Accepted` that they are not and that the operator answered for it |
| Rehash.AuditTellsProof | crates/zapadka-pg/src/rehash.rs:232-263 | an audit row says that the change was accepted, and why, exactly when the source was not the one recorded, and carries both identities and both scripts |
| Rehash.ObstacleIsNamed | crates/zapadka-pg/src/rehash.rs:98-116 | a row that cannot take part is refused for the first thing against it: a missing migration, other dependencies, another mode, or lint |
| Rehash.StaleIsRefused | crates/zapadka-pg/src/rehash.rs:244-252 | if the row of a changed entry is no longer the one it was planned from, the whole transaction is refused |
| Rehash.FillEntry | crates/zapadka-pg/src/rehash.rs:98-160 | filling an entry field by field, with early exits: `Verified`, `Accepted`, a mismatch or nothing to do, each exactly when the row's policy and recorded contents say so |
| Rehash.Validate | crates/zapadka-pg/src/rehash.rs:65-73 | passes exactly when no entry carries an error |
| Rehash.RehashTransacts | crates/zapadka-pg/src/rehash.rs:216-263 | every compare-and-set of a fitting batch matches and every audit row is new, so the batch commits as a whole |
| Rehash.RehashMeaning | crates/zapadka-pg/src/execute.rs:132-186 | after a rehash every applied row is structural, its script digest, dependencies, mode and run untouched |
| Rehash.AuditRowsIn | crates/zapadka-pg/src/rehash.rs:232-263 | each changed row gets exactly one audit row, from its old identity to its new one |
| Rehash.RehashKeepsPlan | crates/zapadka-pg/src/rehash.rs:86-160 | planning on the same graph succeeds afterwards, with the same applied and pending lists |
| Rehash.RehashTwice | crates/zapadka-pg/src/rehash.rs:75-82 | a second rehash finds nothing to do |
| Transactions.AllOrNothing | crates/zapadka-pg/src/execute.rs:267-338 | wherever a session dies, the database holds all of its guarded transaction or none, and all only after the commit |
| Transactions.DeployIsAtomic | crates/zapadka-pg/src/execute.rs:193-211 | the script's effects, the applied row and the success event are durable together or not at all |
| Transactions.RevertIsAtomic | crates/zapadka-pg/src/execute.rs:882-948 | the same for a revert |
| Transactions.UnguardedScriptEscapes | crates/zapadka-core/src/lint.rs:139-162 | without the guard, a script that commits for itself leaves effects nothing records |
| Transactions.VerifyLeavesNothing | crates/zapadka-pg/src/execute.rs:758-819 | a verification leaves nothing at any point at which the session can die |
| Transactions.VerifiesExactly | crates/zapadka-pg/src/execute.rs:758-786 | a verification script can pass exactly when it has statements and all of them are ordinary |
| Sessions.Session.Send | crates/zapadka-pg/src/execute.rs:416-424 | an error answer changes nothing; a lost answer leaves the old or the new state and no open transaction; a connection on which nothing goes wrong refuses only what the server refuses |
| Sessions.Session.SendAll | crates/zapadka-pg/src/execute.rs:287-294 | a script inside a transaction runs to its end or fails, and what is committed does not change |
| Runners.Runner.DeployInner | crates/zapadka-pg/src/execute.rs:267-338 | on success exactly the deploy is committed and one number used; otherwise nothing, unless the answer to the commit was lost; without trouble on the connection it succeeds whenever the script can run and the migration is new |
| Runners.Runner.Deploy | crates/zapadka-pg/src/execute.rs:213-260 | adds at most one failure event when the deploy did not go through, and exactly that event when the connection gave no trouble |
| Runners.Runner.DeployNontransactional | crates/zapadka-pg/src/execute.rs:360-425 | every end, with the event it wrote: success is the attempt, the statement and its record; a refusal leaves the attempt and at most a failure event, an unanswered statement at most an unknown event; the attempt row stands and nothing is applied unless only the answer to the last commit was lost |
| Runners.Runner.RunAttempt | crates/zapadka-pg/src/execute.rs:385-425 | once the attempt is on record, the statement is sent once; the answer decides which event follows, on a connection that then works that event is written, and only the record of a success removes the attempt |
| Runners.Runner.RecordAttempt | crates/zapadka-pg/src/execute.rs:519-566 | commits the attempt and its event together |
| Runners.Runner.FinishAttempt | crates/zapadka-pg/src/execute.rs:569-618 | commits the applied row, the removal of the attempt and the event together |
| Runners.Runner.Resolve | crates/zapadka-pg/src/execute.rs:438-489 | commits the account, the removal of the attempt and the event together, or nothing |
| Runners.Runner.Revert | crates/zapadka-pg/src/execute.rs:826-948 | commits the revert as a whole or adds at most a failure event, and exactly that event when the connection gave no trouble |
| Runners.Runner.Verify | crates/zapadka-pg/src/execute.rs:702-819 | changes the registry by at most one event; records a success only of a script that does something and runs whole, and reports it only when that event was written |
| Runners.Runner.Baseline | crates/zapadka-pg/src/execute.rs:954-1008 | the loop writes exactly the batch, in one transaction, one number per migration, and leaves the next numbers free whether it commits or not |
| Runners.Runner.Rehash | crates/zapadka-pg/src/execute.rs:132-186 | commits exactly the validated batch and the upgrade, or nothing; an empty batch sends nothing |
| Runners.Runner.ApplyEntry | crates/zapadka-pg/src/rehash.rs:232-263 | one compare-and-set and one audit row |
| Runners.Runner.Record | crates/zapadka-pg/src/execute.rs:1052-1070 | uses one number whether or not the event is written |
| Runners.DeployLeavesSound | crates/zapadka-pg/src/execute.rs:213-338 | every end a transactional deploy can come to is a sound registry |
| Runners.AttemptLeavesSound | crates/zapadka-pg/src/execute.rs:360-425 | every end a nontransactional deploy can come to is a sound registry |
| Runners.RevertLeavesSound | crates/zapadka-pg/src/execute.rs:826-948 | every end a revert can come to is a sound registry |
| Runners.RehashLeaves | crates/zapadka-pg/src/execute.rs:132-186 | what a committed rehash leaves is sound, structural throughout, has the same history and gives the same plan |
| RunnerMoves.MoveLeaves | crates/zapadka-pg/src/execute.rs:267-338 | the tables a protocol move can leave are exactly the two ends of the transaction |
| RunnerMoves.DeployIsTheMove | crates/zapadka-pg/src/execute.rs:267-338 | what a transactional deploy move can leave is the old tables, or the runner's whole deploy exactly when the source hashes, the guard passes it and the server runs it in a transaction |
| RunnerMoves.RevertIsTheMove | crates/zapadka-pg/src/execute.rs:882-948 | the same for a revert, whatever its script |
| RunnerMoves.WritesAreTheMove | crates/zapadka-pg/src/execute.rs:438-618 | the same for attempts, their records, resolutions and baselines |
| RunnerMoves.RehashIsTheMove | crates/zapadka-pg/src/execute.rs:132-186 | the same for a rehash |
| RunnerMoves.VerifyIsTheMove | crates/zapadka-pg/src/execute.rs:702-819 | what the runner's verification can leave is exactly what a verification move can leave |
| RunnerMoves.ReportIsTheMove | crates/zapadka-pg/src/execute.rs:1052-1070 | what recording a settled outcome can leave is exactly what a report move can leave |
| RunnerMoves.StatementIsInTheMoves | crates/zapadka-pg/src/execute.rs:385-425 | every end of the runner's nontransactional statement is reached by moves of the protocol |
| RunnerMoves.DeployIsInTheMoves | crates/zapadka-pg/src/execute.rs:213-260 | every end of the runner's deploy, its failure event with its number included, is reached by moves of the protocol |
| RunnerMoves.RevertIsInTheMoves | crates/zapadka-pg/src/execute.rs:826-880 | the same for a revert |
| RunnerMoves.VerificationDecides | crates/zapadka/src/commands/deploy.rs:228-271 | after a verification a deploy goes on exactly when its success is on record |
| Deploys.Execute | crates/zapadka/src/commands/deploy.rs:213-219 | success is the whole of the path the mode selects, and any other end adds at most the one row, recorded from the source, and forgets nothing |
| Deploys.ApplyOne | crates/zapadka/src/commands/deploy.rs:207-271 | a migration reported as succeeded is applied, even when its verification failed; when verification is asked for, no error means that its success is on record; on a connection without trouble there is no error when nothing is in the way |
| Deploys.ApplyAll | crates/zapadka/src/commands/deploy.rs:166-200 | the report lists every planned migration once in plan order, as successes, then at most one error, then skips; the rows are those of the successes, and at most the one with the error, recorded from the checkout on top of what there was; the successes are verified when that was asked for; when nothing is in the way there is no error |
| Deploys.DeployResumes | crates/zapadka/src/commands/deploy.rs:166-200 | however far a deploy got, planning again gives the rest of its plan, in order |
| Statuses.Report | crates/zapadka/src/commands/status.rs:25-107 | the lines in their exact order with their recorded or current definitions; each migration of the project or the registry is listed once, as applied, blocked or pending |
| Statuses.PendingLines | crates/zapadka/src/commands/status.rs:73-86 | an unresolved migration is not listed as pending |
| Statuses.ReportTellsHistory | crates/zapadka/src/commands/status.rs:25-107 | at any instant a lock-free report agrees with replaying the history |
| Statuses.NeverPlainPending | crates/zapadka/src/commands/status.rs:73-104 | once an attempt has been committed, no report shows its migration as pending until it is denied or reverted |
| ProtocolReverts.RevertibleExactly | crates/zapadka/src/commands/revert.rs:220-275 | the checks on the checkout admit a revert exactly when its target is applied, no applied row was recorded as depending on it, the history is unedited, and it is declared reversible with a script that is not empty |
| ProtocolReverts.RevertersMay | crates/zapadka/src/commands/revert.rs:220-275 | in every reachable database a run about to revert has such a target |
| ProtocolReverts.RevertCompletes | crates/zapadka/src/commands/revert.rs:60-200 | from any reachable database a revert that nothing hinders, of such a target whose script runs whole, takes effect, removes exactly that row, records its event and gives both locks back |
| ProtocolBaselines.BaselinersCover | crates/zapadka/src/commands/baseline.rs:137-148 | in every reachable database a run about to record a baseline records exactly what its target reaches through dependencies, less what is applied, from its own checkout |
| ProtocolBaselines.BaselineCompletes | crates/zapadka/src/commands/baseline.rs:86-175 | from any reachable database a baseline that nothing hinders leaves exactly the old rows and one for everything its target reaches, with one success event for each new one |
| ProtocolClaims.ClaimsExactly | crates/zapadka/src/commands/target.rs:188-220 | which commands go on to claim the database, in terms of its tables: every deploy, a revert that may go through, a baseline with nothing unresolved, a resolution of an attempt there is, and no rehash |
| ProtocolClaims.ClaimersMay | crates/zapadka/src/commands/target.rs:188-220 | and in every reachable database whoever has claimed it was one of those, of the tables as they are now |
| ProtocolClaims.RehashesExactly | crates/zapadka/src/commands/rehash.rs:47-97 | a rehash goes on to its transaction exactly when the registry exists, nothing is unresolved, every row can be carried over and some row is of the exact-bytes policy |
| ProtocolClaims.RehashersMay | crates/zapadka/src/commands/rehash.rs:47-97 | and in every reachable database whoever is about to rehash may, so a batch with nothing to move never upgrades a registry |
| ProtocolClaims.StrangersStop | crates/zapadka-pg/src/registry.rs:487-530 | a registry that is another project's, or in another schema, stops a run before it claims the database and again after, and nothing else does |
| ProtocolClaims.CheckedBeforehand | crates/zapadka/src/commands/deploy.rs:50-79 | every run of a deploy or a baseline passed lint, and every run that accepts the current source has a reason |
| ProtocolClaims.WorkersSeeNoEdits | crates/zapadka-pg/src/history.rs:128-140 | in every reachable database a run that deploys or reverts has every applied migration in its checkout unedited |
| ProtocolDecisions.DecidesFromClaimed | crates/zapadka/src/commands/deploy.rs:130-142 | what any command decides from the state it read is safe to carry out on the tables as they are |
| ProtocolInvariant.ViewStays | crates/zapadka/src/commands/target.rs:152-176 | another run's writes never falsify what a run relies on |
| ProtocolSteps.BodyCommits | crates/zapadka-pg/src/execute.rs:132-1008 | every transaction a run can make is never refused by the registry's own constraints, keeps the tables sound, and leaves the run right about its next step |
| ProtocolWrites.ExchangeKeeps | crates/zapadka-pg/src/execute.rs:267-338 | stopping a transaction after any number of commands, seen or unseen, keeps the global invariant |
| ProtocolWrites.UpgradeKeeps | crates/zapadka/src/commands/target.rs:201-220 | under the ownership lock, creating the registry always goes through and keeps the global invariant |
| ProtocolWrites.LandKeeps | crates/zapadka-pg/src/execute.rs:416-424 | a statement landing after its client has died keeps the global invariant, and never makes a session give up its locks |
| ProtocolTheorems.NextKeeps | crates/zapadka/src/commands/deploy.rs:50-164 | every move of every run keeps the global invariant |
| ProtocolTheorems.ReachableIsSafe | crates/zapadka/src/commands/deploy.rs:50-164 | from any database at rest, never used or holding one sound registry in any format and of either policy, every world any history of moves leads to satisfies the invariant |
| ProtocolPromises.DependenciesStayApplied | crates/zapadka-pg/src/history.rs:69-107 | in every reachable database the applied set is closed under recorded dependencies, and so are unresolved attempts |
| ProtocolPromises.LogExplainsTables | crates/zapadka-pg/src/registry.rs:205-238 | replaying the events in commit order gives exactly the applied and unresolved sets |
| ProtocolPromises.EventNumbersGrow | crates/zapadka-pg/src/registry.rs:218-238 | event numbers strictly grow within a run, through rollbacks and lost commits |
| ProtocolPromises.AttemptsComeFirst | crates/zapadka-pg/src/execute.rs:360-425 | every durable nontransactional effect was announced first |
| ProtocolPromises.NeverSentTwice | crates/zapadka/src/commands/target.rs:241-267 | no statement is sent again while its earlier attempt is unresolved |
| ProtocolPromises.AnswersAreTrue | crates/zapadka-pg/src/execute.rs:385-425 | a run hears of its statement's success only once the effect is there, and of a refusal only when the statement can no longer take effect |
| ProtocolPromises.DiscardGivesUpLocks | crates/zapadka-core/src/lint.rs:387-413 | a statement that discards its session gives up every lock of its run, which lint is there to prevent |
| ProtocolPromises.StatesAreExclusive | crates/zapadka-pg/src/registry.rs:136-160 | nothing is both applied and unresolved, and at most one attempt is unresolved |
| ProtocolPromises.EffectsMatchEvents | crates/zapadka-pg/src/execute.rs:193-211 | the durable transactional effects are those of the committed success events, in the same order |
| ProtocolPromises.OneRegistry | crates/zapadka/src/commands/target.rs:188-220 | however many projects and schemas race for one database, rehashes included, at most one registry exists |
| ProtocolPromises.CreationIsClaimed | crates/zapadka-pg/src/execute.rs:132-170 | a registry comes into being only under both locks and only by a deploy or a baseline; a rehash, whose upgrade is outside the ownership lock, only raises the format of one that exists |
| ProtocolFormats.FormatsNeverDrop | crates/zapadka-pg/src/registry.rs:595-612 | in every reachable history no move lowers a registry's format, and none but a late landing changes one above format 3 |
| ProtocolFormats.NewerIsUntouched | crates/zapadka-pg/src/registry.rs:595-612 | a registry found above format 3 is left exactly as it was by any history |
| ProtocolPromises.MutualExclusion | crates/zapadka-pg/src/lock.rs:89-122 | two runs of one project are never both between acquiring and releasing the lock |
| ProtocolPromises.RegistryNeverRefuses | crates/zapadka-pg/src/registry.rs:957-993 | primary keys and compare-and-sets never refuse a run's transaction |
| ProtocolPromises.WritesAreLocked | crates/zapadka-pg/src/lock.rs:1-11 | only the holder of the deployment lock changes a registry, apart from a statement that lands late |
| ProtocolPromises.VerifyOnlyLogs | crates/zapadka-pg/src/execute.rs:702-819 | verification changes nothing but the history, and the history says it passed only of a script that does something and runs whole |
| ProtocolProgress.NeverDeadlocked | crates/zapadka/src/commands/target.rs:201-220 | while any run is unfinished, the work of some unfinished run can go on, with unlimited waits |
| ProtocolProgress.EveryRunEnds | crates/zapadka/src/commands/deploy.rs:50-79 | whatever happens around it, a run makes no more moves of its own than its remaining distance |
| ProtocolProgress.AllCanEnd | crates/zapadka/src/commands/deploy.rs:50-79 | from any world of the invariant, work alone, without failures or lost answers, ends every run and gives every lock back |
| ProtocolLiveness.DeployCompletes | crates/zapadka/src/commands/deploy.rs:166-200 | from the moment it has its plan a deploy has a way to apply all of it |
| ProtocolLiveness.DeployCanComplete | crates/zapadka/src/commands/deploy.rs:86-164 | from any reachable database in which nothing stands in its way, a deploy can leave every migration applied |
| ProtocolRecovery.ResolveCompletes | crates/zapadka/src/commands/resolve.rs:49-187 | a resolution nothing hinders runs to its end: exactly the account, its event and the upgrade are there, and both locks are back |
| ProtocolRecovery.CrashedAttemptRecovers | crates/zapadka-pg/src/execute.rs:360-489 | after a crash at any point between a recorded attempt and the record of its outcome, a resolution either way and a new deploy can leave every migration applied |
| ProtocolRecovery.CrashedDeployRecovers | crates/zapadka/src/commands/deploy.rs:166-200 | after a crash between two migrations, or inside a transactional one, a new deploy alone can |
| ProtocolRecovery.RehashCanCommit | crates/zapadka/src/commands/rehash.rs:17-97 | a rehash nothing hinders, whose plan validates and changes something, reaches its transaction, commits exactly the batch and gives the lock back |
| ProtocolLegacy.LegacyIsSound | crates/zapadka-pg/src/registry.rs:58-109 | every history the current release can leave is, as an earlier format would have recorded it, a sound registry too |
| ProtocolLegacy.LegacyRehashes | crates/zapadka-pg/src/rehash.rs:86-160 | a rehash of such a registry from the same checkout reaches its transaction and commits, and leaves exactly the rows the current release would have recorded in the first place |
| ProtocolLegacy.RehashHappens | crates/zapadka/src/commands/rehash.rs:17-97 | a project of one migration deployed under either earlier format has a history that reaches the rehash transaction |

## Left out

- Sessions beyond commands, transactions and advisory locks: connecting, TLS, service files, server facts, timeouts and captured messages.
- The parser and deparser: a parse is a given list of statement kinds and a given tree. Savepoints and prepared transactions are reduced to whether they end the runner's transaction.
- SHA-256, and the serialization of a canonical tree to text: a digest is the tree itself.
- Configuration, target selection, selectors, slugs, error texts, hints, JSON and human reports beyond the entries described above, and file discovery.
- Lint warnings, policy and suppressions; the fixed capabilities of the build are taken as given.
- The read made before the lock is taken, dry runs and the standalone `verify` and `test` commands: they change no applied state. `verify` on its own writes a single event without a plan.
- The in-place rewriting of parse trees: `Canonical` returns the rewritten tree instead.
- Polling for a lock: `acquire_key` either gets the lock or gives up, and the moves `Acquire`, `AcquireOwnership` and `Fail` stand for its two ends, at any time.
- Collisions of lock keys, and 32-bit overflow of the event counter.
- Tables that merely look like a registry, and registries a role cannot read: every registry is readable.
- The order in which dependency ids are stored: rows hold them as declared, and every comparison is up to order.
- Columns of events other than run, number, migration, action, outcome, mode and script.
- Durable side effects outside transactions, such as sequence values advanced by a script that rolled back.
- Advisory locks and registry tables touched by user SQL: a script is taken neither to write the registry's tables nor to call the lock functions itself, so `SELECT pg_advisory_unlock_all()` in a script is outside what is promised. `DISCARD` is the one statement whose release of the locks lint looks for, and the model shows that this is enough for it.
- What the rows of a registry found at rest say about SQL that ran before: `Founded` takes such a registry to be sound, which `LegacyIsSound` justifies for every history of the runner's own.
- Protocol: a run that skips verification and one configured not to verify are the same move, so nothing is stated about which migrations were verified.
- `resolve_one`, the manifest scaffold and the files `new` writes: only the choice of dependencies is modelled.
