# TableX verification

A Dafny model of three parts of TableX, with proofs of what they promise.

**The dump planner.** `Planner.ResolveDB` flattens catalog objects into a dependency graph, cuts deferrable
clauses that close cycles, stages routines that remain cyclic as a stub and a later "-final", retargets outside
dependers to that stage, and sorts. The items are objects whose fields the rounds update. `PlanTheorems` proves that the emitted
stream is acyclic whenever the resolution succeeds, and orders stages as promised; `Deferral` says exactly when an emitted plan
loses nothing that was deferred. `Teardown` builds the drop-first plan: Tarjan's algorithm (`Tarjan`) over uncut edges, groups,
retained cycles, and the retention closure. `TeardownTheorems` proves the closure least, the fate of every
object, and exactly when the emitted teardown runs under RESTRICT.

**The sessions.** `Sessions`, `MemStore` and `Manager` are the in-memory store and its users, as classes over
maps and two lists. `SessionSteps` is the durable store as a transition system: one shared row table, any number of
replicas, and every SQL answer nondeterministic (answered, failed, or taken but with its answer lost).
Each critical section is one step; a save, a deletion and a scan consist of several. `SessionStore` is the
same in imperative form, each method proved equal to the steps it takes, and to keep the cap and every spent login spent. `RowCap`,
`SingleWinner`, `Endings`, `ScanSafety` and `IdleSafety` prove safety properties over all runs; `TwoWinners` and `IdleAdoption` give
the runs in which more would be too much to ask.

**The scripts.** `Lexer` is the profile-driven script splitter, one loop iteration per `Step`; `Scanner` adds
caps and budgets. `Frames`, `TableSplits`, `SeqRewrite` and `RestoreRoundTrip` are round trips between a printer
and an independent reader: opaque frames, batched table data, sequence references and restore sections. `Blocks` and
`Routines` prove exactly when a routine body with nested blocks stays one statement.

Run `dafny verify dfyconfig.toml`. A Go string is a Dafny string with one char per byte. What Unicode tables say
beyond ASCII is a parameter of the lexer and the name parsers, and nothing is assumed about it, but that decoding a rune
looks no further than the run of non-ASCII bytes it stands in.

Where the code and its documentation differ, the model follows the code:

- That deferral loses nothing has an exception. A staged routine discards the pre-data bundle of its cut clauses
  (internal/dump/graph.go:551-573). `Deferral.DeferralLosesNothing` gives the exact condition on the input, and `Deferral.PairedLoses`
  an input that meets it.
- A drop stands at one base stage's position, and a group at its latest member. On the input, an acyclic collected graph is what
  makes that order satisfy RESTRICT (`DropFirst.AcyclicTeardown`); on a finished plan, `TeardownTheorems.TeardownRunsClean` says
  exactly when it does. `CutTeardown.CutInputFails` gives inputs, with a cycle, whose plan has a DROP that fails.
- A session is marked before its row commits (internal/storage/session.go:523-526). A scan whose epoch and
  snapshot both fall in between retires it: `ScanSafety.GapRetires`.
- Two logins can win on one pre-auth session, at two replicas. `SingleWinner.OneWinner` excludes four answers of the database: a
  login's transaction that is not answered, a DELETE at marker capacity that is not, and a new row, of a save or of a sweep, that is
  committed without an answer. `TwoWinners` has a run for each.
- The sweep of abandoned rows allows for the lag of a throttled last_seen; adoption does not. `IdleAdoption.RefusedIffLapsed` and
  `IdleAdoption.LiveRefusedLate` say when it refuses a session in use, and `IdleAdoption.LiveRefused` gives a run.
- The next token tells what an END closes, but punctuation is no token: in a routine, `CASE ... END, IF(...)` reads as END IF, and
  `CASE ... END, CASE ...` as END CASE. `Routines.RoutineEnds` and `Routines.RoutineBreaks` say exactly when the splitter finds the end
  of a routine; `Misreadings` proves both failures for all arms, and has a script for the first.
- A database name with a carriage return fits a \connect line; only a line feed does not. The dump writer
  refuses both.

## Model
| member | source | states |
|---|---|---|
| TopoOrder.TopoOrder | internal/driver/dump.go:555-580 | every distinct name once, cycles or not; a dependency first unless the two lie on a common cycle; an input already in order is returned unchanged; a name nobody depends on keeps following everything before it |
| TopoOrder.Sorter.Visit | internal/driver/dump.go:560-575 | the depth-first visit: what it appends is the name, preceded only by names it depends on, and names already visited are left alone |
| TopoOrder.AcyclicOrdered | internal/driver/dump.go:555-580 | on an acyclic graph the order is topological: every dependency stands earlier |
| Tarjan.SCC | internal/driver/dump.go:590-645 | the result is exactly the strongly connected components of the in-set graph: a partition into mutually reachable, maximal parts, each listed before every component that depends on it |
| Tarjan.Search.StrongConnect | internal/driver/dump.go:598-640 | one recursive call: everything reachable is numbered, low links bound the open calls reached, finished components are complete, and the stack is as before but for names that still reach an open call |
| Tarjan.Search.FollowEdge | internal/driver/dump.go:604-618 | one edge of the loop keeps the low link a lower bound for the edges followed so far, and disturbs no other name visited before |
| Tarjan.Search.PopComponent | internal/driver/dump.go:620-638 | popping at a root finishes exactly the names above it, and they form one component |
| Tarjan.Search.Unstack | internal/driver/dump.go:621-632 | the pop loop removes exactly what stands at or above the root |
| Tarjan.BadIffOnCycle | internal/dump/graph.go:478-482 | the test for more than one member or a self edge holds of a component exactly when its members lie on cycles |
| Tarjan.BadComponents | internal/dump/graph.go:475-484 | the components that pass the test are exactly the cycles, and there is none if and only if the graph is acyclic |
| Planner.BuildPredataItems | internal/dump/graph.go:335-399 | one item for each pre-data script and table, class by class across the sections, with the edges of its clauses, defaults and constraints, and counted ids for the nameless |
| Planner.IdsUnique | internal/dump/graph.go:337-344 | unique names make unique ids: synthetic ids meet neither names nor each other |
| Resolver.EffectivePredataDeps | internal/dump/graph.go:404-433 | the current edges of an item: stub edges once staged, otherwise its own plus those of the clauses, defaults and constraints that are still in place |
| Resolver.DepsIntersect | internal/dump/graph.go:436-443 | whether any edge leads into the component |
| Resolver.BuildGraph | internal/dump/graph.go:466-474 | the graph of the current edges of all items |
| Resolver.Cycles | internal/dump/graph.go:475-484 | exactly the cycles of the current graph |
| Resolver.IntersectsIffCloses | internal/dump/graph.go:486-512 | a deferrable edge list meets the component exactly when one of its edges lies on a cycle |
| Resolver.CutItem | internal/dump/graph.go:489-510 | cuts exactly the clauses, defaults and constraints whose edges close a cycle through the item, and numbers its cycle |
| Resolver.CutCycles | internal/dump/graph.go:486-512 | round one cuts them in every item on a cycle, and in no other |
| Resolver.SameNumber | internal/dump/graph.go:491-491 | two ids carry one cycle number exactly when each depends on the other |
| Resolver.StageCycles | internal/dump/graph.go:513-520 | round two stages exactly the routines with a stub that are still on a cycle |
| Resolver.ResolveCycles | internal/dump/graph.go:486-527 | succeeds if and only if cutting, then staging, leaves no cycle; the items then hold the twice-reduced values |
| Materialize.SortClauses | internal/dump/graph.go:540-550 | kept clauses stay in the SQL, cut ones go to the pre-data bundle with their edges or to post-data, each list in order |
| Materialize.MaterializeItem | internal/dump/graph.go:533-617 | one item resolved: its SQL or re-rendered table, its edges, its later stage if it was staged or has a bundle, its post-data; it fails only if the table cannot be rendered |
| Materialize.RerenderTable | internal/dump/graph.go:575-616 | a table is re-rendered with the union of the strip sets, and post-data scripts that are already carried are not repeated |
| Materialize.RewriteFins | internal/dump/graph.go:597-616 | the re-render's post-data: what is carried already drops out, the rest is rewritten and kept in order |
| Materialize.MaterializeAll | internal/dump/graph.go:529-618 | all items resolved in order, with their stages and post-data collected |
| Materialize.RetargetAll | internal/dump/graph.go:620-631 | every edge into an object with a later stage leads to that stage, except from members of the same original cycle |
| Materialize.SortStream | internal/dump/graph.go:633-644 | the emitted stream holds every item and stage once, each after what it needs, and moves nothing without cause |
| Planner.ResolveDB | internal/dump/graph.go:456-651 | a cycle error exactly when cutting and staging leave a cycle, a render error only for a table that cannot be rendered, and otherwise a sorted stream with the promised post-data |
| PlanTheorems.ReducedEdge | internal/dump/graph.go:404-433 | cutting and staging only remove edges |
| PlanTheorems.StreamIdsUnique | internal/dump/graph.go:557-569 | generated stage ids meet neither item ids nor each other |
| PlanTheorems.CollapsedEdge | internal/dump/graph.go:620-631 | with stages collapsed onto their bases, every edge of the emitted stream is a path of the collected graph |
| PlanTheorems.FinalNotOnCycle | internal/dump/graph.go:620-631 | no generated stage lies on a cycle of the stream |
| PlanTheorems.StreamAcyclic | internal/dump/graph.go:529-644 | if the resolution succeeds, the graph over items and generated stages is acyclic after retargeting |
| PlanTheorems.FinalWasOnCycle | internal/dump/graph.go:551-573 | only objects that were on a cycle get a later stage |
| PlanTheorems.FinalFollows | internal/dump/graph.go:556-572 | a later stage follows its own base; a staged routine's follows everything the routine depends on, and one of cut clauses everything that those clauses depend on |
| PlanTheorems.OutsidersWait | internal/dump/graph.go:620-631 | an object that depends on a staged one, and is not on its cycle, comes after its later stage |
| PlanTheorems.InsidersFollowBase | internal/dump/graph.go:620-631 | one on the same cycle comes after the base |
| PlanTheorems.KeptTextStands | internal/dump/graph.go:542-543 | the text of every clause that was not cut stands in its object's SQL |
| Deferral.Conservation | internal/dump/graph.go:540-573 | the finalizers of all cut clauses are, counted with multiplicity, those bundled, those sent to post-data, and those a staged item discards |
| Deferral.EmittedBundles | internal/dump/graph.go:551-573 | the stages of the emitted stream carry, counted with multiplicity, the pre-data bundles and the restored routines |
| Deferral.EmittedPost | internal/dump/graph.go:529-618 | the post-data handed on holds the finalizers of that lane and the scripts of re-rendered tables |
| Deferral.DeferredIsCut | internal/dump/graph.go:486-512 | the finalizers that resolution cuts are those of exactly the clauses that close a cycle of the collected graph |
| Deferral.ItemDiscards | internal/dump/graph.go:551-573 | a resolved item discards a finalizer exactly when the input says so: a stub, a cycle left after cutting, and a cut pre-data clause with finalizers |
| Deferral.NothingDropped | internal/dump/graph.go:486-573 | after both rounds, everything that was cut is bundled or handed to post-data if and only if no routine of the input has a stub, stays on a cycle once every clause that closes one has been cut, and has such a clause with pre-data finalizers |
| Deferral.PlanConserves | internal/dump/graph.go:529-644 | what an emitted plan carries, together with what staged items discarded, is exactly what had to be emitted |
| Deferral.DeferralLosesNothing | internal/dump/graph.go:529-644 | of an emitted plan: its stages and its post-data hold, counted with multiplicity, exactly the finalizers that had to be deferred, the restored routines and the scripts of re-rendered tables, if and only if no routine of the input has a stub, stays on a cycle once every clause that closes one has been cut, and has such a clause with pre-data finalizers |
| Deferral.UnpairedLosesNothing | internal/dump/graph.go:540-573 | nothing is lost when no script has both a stub and clauses |
| Deferral.PairedLoses | internal/dump/graph.go:551-573 | a script with both can lose a finalizer: an input that is resolved without an error and discards its only one |
| Teardown.TakeCensus | internal/dump/graph.go:142-180 | the logical objects of the stream: stages merged under their object, riders and data leaves skipped, each with the drop, form and position of the stage that carries it |
| Teardown.CanonicalDeps | internal/dump/graph.go:181-189 | an object's edges lead to the objects its stages' collected edges belong to, never to itself, each once |
| Teardown.BuildDropGraph | internal/dump/graph.go:181-197 | the graph of logical objects over uncut edges |
| Teardown.SortMembers | internal/dump/graph.go:207-208 | the members of a cycle, latest drop first |
| Teardown.PlanGroups | internal/dump/graph.go:203-270 | each cycle becomes one statement headed by its latest member if one DROP can name all of it, and otherwise seeds retention, as does an object without a drop |
| Teardown.Spread | internal/dump/graph.go:279-288 | one turn of the queue retains and queues exactly the unretained prerequisites |
| Teardown.Closure | internal/dump/graph.go:272-288 | the retained set is exactly what the roots reach |
| Teardown.BuildTeardownPlan | internal/dump/graph.go:140-327 | the plan: omitted is what is reachable from the roots; grouped and covered are the heads and members of the groups that are not omitted |
| TeardownTheorems.RetainedLeast | internal/dump/graph.go:272-300 | the omitted set contains the roots, is closed under dependencies, and is the least such set |
| TeardownTheorems.CycleWhole | internal/dump/graph.go:279-296 | retention keeps a cycle whole: all of its members or none |
| TeardownTheorems.WriteTeardown | internal/dump/sql.go:276-330 | walking the stream backwards, each stage emits the statement the plan gives it; the constraint drops stand right before the first table's, or at the end |
| TeardownTheorems.DropsAre | internal/dump/sql.go:276-330 | every emitted DROP names one object, or exactly one group |
| TeardownTheorems.RetainedNotDropped | internal/dump/graph.go:289-297 | no statement drops a retained object |
| TeardownTheorems.DroppedOnce | internal/dump/sql.go:287-299 | every other object is dropped by the statement at one position, and by no other |
| TeardownTheorems.Fate | internal/dump/graph.go:199-304 | with one drop-carrying stage for each object: retained and never dropped, or dropped exactly once |
| TeardownTheorems.TeardownRunsClean | internal/dump/sql.go:276-330 | run under RESTRICT, no DROP fails inside the dump if and only if no object is dropped after one it depends on |
| TeardownTheorems.OrderedRunsClean | internal/dump/sql.go:276-330 | when every object is created once, by one stage, after all it was collected to need, there is no group and no DROP fails |
| TeardownTheorems.CutStreamFails | internal/dump/graph.go:207-260 | on a stream of three domains, two of which need each other and the third of which stands between them, the group stands at its latest member, after an object that still needs one of its members |
| DropFirst.UncutStreamInOrder | internal/dump/graph.go:456-651 | the planned stream of an acyclic graph creates every object after what it was collected to need |
| DropFirst.AcyclicTeardown | internal/dump/graph.go:140-327 | so when the collected graph is acyclic and no two stages share an object, the planned teardown runs under RESTRICT without a failure |
| DropFirst.PlanDropFirst | internal/dump/graph.go:645-649 | plan and teardown of one database, as the theorems describe them |
| CutTeardown.CutEmitted | internal/dump/graph.go:456-651 | the planner emits such streams: when a domain's clause needs a domain over it, and a third domain is over it too, the plan creates them in the order they were collected in |
| CutTeardown.CutInputCyclic | internal/dump/graph.go:335-399 | on such an input the collected graph has a cycle, through the clause: the condition for a safe teardown fails on the input |
| CutTeardown.CutInputFails | internal/dump/graph.go:140-327 | and for every plan of such an input and every teardown of it, some DROP fails under RESTRICT inside the dump, though every object has one stage with a drop of its own |
| CutTeardown.CutSectionPlanned | internal/dump/graph.go:335-399 | there are such inputs: the items collected from one schema with three domains, which is resolved without an error |
| Sessions.Session.Close | internal/session/session.go:131-143 | the hook runs once at most: this call runs it exactly if it is still set, and then clears the payload |
| Sessions.Session.ConsumeSSOHandshake | internal/session/session.go:88-97 | a matching callback takes the stored handshake and clears it, keeping a verified identity; any other changes nothing |
| Sessions.HandshakeSingleUse | internal/session/session.go:88-97 | of any run of callbacks at most one wins, and one does exactly when a handshake is pending and some callback matches |
| Sessions.Session.Adopt | internal/session/session.go:262-264 | an adopted session has the envelope's identity and no payload, hook or handshake |
| MemStore.MemStore.Get | internal/session/store.go:116-121 | finds exactly the sessions of the two lists |
| MemStore.MemStore.Len | internal/session/store.go:123-127 | counts both lists |
| MemStore.MemStore.Save | internal/session/store.go:129-164 | the session becomes the youngest of its list; the store stays within 10000; one victim at most, closed; no other session is touched |
| MemStore.MemStore.DetachLocked | internal/session/store.go:168-173 | takes an id out of the entry map and its list |
| MemStore.MemStore.EvictOldestLocked | internal/session/store.go:178-190 | drops the oldest pre-auth session, or the oldest authenticated one when there is none |
| MemStore.SaveKeeps | internal/session/store.go:129-190 | no save takes the store over its cap, drops more than one other session, or drops an authenticated one while a pre-auth one is left |
| MemStore.FloodSparesLogins | internal/session/store.go:129-190 | no run of pre-auth saves, however long, drops or reorders authenticated sessions |
| MemStore.MemStore.Replace | internal/session/store.go:198-213 | swaps exactly when the very object is still held; the new session is then the youngest authenticated one |
| MemStore.ReplaceOnce | internal/session/store.go:198-213 | what has been replaced is held no more, so a second swap of it fails |
| MemStore.MemStore.Delete | internal/session/store.go:215-220 | takes the id out of both maps and its list |
| MemStore.MemStore.Reap | internal/session/store.go:222-234 | removes and returns exactly the sessions the predicate ends |
| Manager.Manager.Load | internal/session/session.go:277-296 | serves exactly the live session a cookie names and refreshes it; an expired one is deleted and closed |
| Manager.Manager.EndSession | internal/session/session.go:277-296 | deletes a session and runs its hook if it is still set |
| Manager.Manager.Start | internal/session/session.go:306-321 | the live session of the cookie, or a new pre-auth one, unless admission declines it |
| Manager.Manager.Authenticate | internal/session/session.go:338-370 | succeeds exactly when the pre-auth object is still held; the new session has fresh ids, the payload and a verified identity, and the old one is gone and closed |
| Manager.Manager.Destroy | internal/session/session.go:378-393 | the session is out of the store and its hook has run once |
| SessionStore.SessionStore.constructor | internal/storage/session.go:218-275 | seeds the row counter from a count, or at the cap when the count fails: from the start it bounds the table |
| SessionStore.SessionStore.PruneGenerations | internal/storage/session.go:368-376 | keeps exactly the markers stamped after the epoch |
| SessionStore.SessionStore.PersistNew | internal/storage/session.go:515-527 | admits, stamps and inserts, in that order, under one admission |
| SessionStore.SessionStore.Save | internal/storage/session.go:479-494 | the steps of a save, one after the other; the row counter still bounds the table, which stays within the cap, and no other spent id is revived |
| SessionStore.SessionStore.Delete | internal/storage/session.go:535-547 | the row and all notes go under admission, the local session after it; the counter still bounds the table, no spent id is revived, and if it was answered nobody can log in on the id any more |
| SessionStore.SessionStore.Replace | internal/storage/session.go:555-603 | a login wins through the row or, when the database or the markers fail, through the exact local object; one that wins on answered statements spends the pre-auth id, a second one on it returns false whatever is answered, and neither revives another spent id or lets the table outgrow the cap |
| SessionStore.SessionStore.ReplaceLocally | internal/storage/session.go:629-646 | at marker exhaustion the row is deleted and the login decided locally |
| SessionStore.SessionStore.Load | internal/storage/session.go:394-434 | a row is adopted or refreshed, a missing row ends a persisted session, an error falls back to the local one; the policy then decides; the counter still bounds the table and no spent id is revived |
| SessionStore.SessionStore.Repersist | internal/storage/session.go:787-832 | writes the row of every unpersisted live session while the cap allows, and adds what was written to the snapshot; the table stays within the cap and no spent id is revived |
| SessionStore.SessionStore.SweepLocal | internal/storage/session.go:680-782 | of the sessions that the policy has not ended, exactly those are kept whose row was seen, that have no row of their own yet, or whose marker is newer than the scan |
| SessionStore.SaveKept | internal/storage/session.go:479-527 | a save, whatever its answers, keeps the counter a bound on the table and revives no spent id but its own |
| SessionStore.ReplaceKept | internal/storage/session.go:555-646 | so does a login |
| SessionStore.ReplaceSpends | internal/storage/session.go:555-646 | a login that wins on answered statements leaves neither a row nor a local session of the pre-auth id, and where neither is left no login wins |
| SessionStore.RepersistKept | internal/storage/session.go:787-832 | a repersist, in any order and with any answers, keeps the counter a bound on the table and revives no spent id |
| RowCap.InsertCounts | internal/storage/session.go:893-939 | an insert moves the counter at least as far as the table |
| RowCap.SwapCounts | internal/storage/session.go:944-978 | a login's swap never grows the table |
| RowCap.StepCounts | internal/storage/session.go:515-978 | every step of a sole writer keeps the counter sound |
| RowCap.TableCapped | internal/storage/session.go:266-281 | in every run of one replica the table stays within the larger of its start size and max_sessions, with lost commits, failed deletes and a failed count at start-up |
| RowCap.ReplaceIgnoresCap | internal/storage/session.go:555-646 | a login does the same, with the same outcome, under any counter and any cap |
| SingleWinner.StepOkay | internal/storage/session.go:306-1039 | no step about an existing id adds a way to win a login on it, whatever the database answers, but for the four answers that OneWinner excludes |
| SingleWinner.MintOkay | internal/storage/session.go:479-603 | a step about a new id gives it one way |
| SingleWinner.OneWinner | internal/storage/session.go:555-646 | in every run of any number of replicas at most one login wins on a pre-auth id, and then no row brings it back -- though lookups, touches, deletions, scans and saves may fail or lose their answer, as long as logins are answered and no new row is committed unnoticed |
| Endings.RemovalEnds | internal/storage/session.go:529-646 | whatever takes a row away -- a deletion, a login, a sweep -- does so when no replica still takes the session for an unwritten one of its own |
| Endings.EndedForGood | internal/storage/session.go:394-547 | what is deleted stays deleted everywhere: in every run of any number of replicas, under the failures OneWinner allows, once a row is gone no later step writes it again or lets a login win on it, and every answered lookup finds nothing, at the replicas that still hold the session too |
| TwoWinners.AbortedLoginAdmitsTwo | internal/storage/session.go:570-580 | two win when a login's transaction does not take effect: a run from two fresh replicas in which it is the only such answer; the login wins locally and leaves the row to the other replica |
| TwoWinners.LostLoginAdmitsTwo | internal/storage/session.go:555-603 | two win when a login's commit takes effect and its answer is lost: such a run; they win on the session that the login made, whose row stands while its replica takes it for its own |
| TwoWinners.LostSaveAdmitsTwo | internal/storage/session.go:479-494 | two win when the commit of a new session takes effect and its answer is lost: such a run |
| TwoWinners.LostRepersistAdmitsTwo | internal/storage/session.go:787-832 | likewise when a sweep writes the row of an unpersisted session and is not told so: such a run |
| TwoWinners.ErroredUnmarkedAdmitsTwo | internal/storage/session.go:629-646 | two win when a login at marker capacity is not told what its DELETE did, whether it took effect or not: such a run, with every marker taken |
| ScanSafety.PruneKept | internal/storage/session.go:368-376 | pruning the markers that a finished scan has outlived keeps every later verdict as it would have been |
| ScanSafety.CoverKept | internal/storage/session.go:306-349 | a step that does not give up an id's marker leaves the id covered against the running scan |
| ScanSafety.SweepsAreSafe | internal/storage/session.go:680-782 | in every run, with any storage errors, a scan retires on absence no session marked after its epoch, no adopted session whose row stands, and of those published here with a standing row exactly the ones whose publication its epoch and snapshot both fell into; pruning changed no verdict |
| ScanSafety.GapRetires | internal/storage/session.go:515-527 | that exception is real: a run in which a stored session is retired |
| IdleSafety.TouchTimes | internal/storage/session.go:1003-1018 | after a touch the row is current, or was refreshed within the throttle |
| IdleSafety.SweepSpares | internal/storage/session.go:746-777 | what a sweep deletes was not in use at that moment |
| IdleSafety.AbandonedSweepSpares | internal/storage/session.go:746-777 | in every run without storage errors, on one clock, no replica's sweep deletes the row of a session that some replica served within the idle timeout and that is inside its absolute timeout |
| IdleAdoption.RefusedIffLapsed | internal/storage/session.go:394-434 | adoption ends in a refusal exactly when the row it read has lapsed by its stored times: no allowance is made for their lag |
| IdleAdoption.LiveRefusedLate | internal/session/session.go:277-296 | in every run without storage errors, adoption of the stored row refuses a session that is in use only in the last stretch of its idle timeout, shorter than the touch interval |
| IdleAdoption.LiveRefused | internal/session/session.go:277-296 | that happens: for every policy a run in which one replica serves a session under the throttle, the next one refuses it within the idle timeout, and no sweep would have deleted its row |
| Lexer.SkipStringLiteral | internal/sqlscript/sqlscript.go:605-620 | ends past the quote that closes the literal, with doubled quotes and, where they count, backslashes inside it |
| Lexer.Step | internal/sqlscript/sqlscript.go:239-460 | every iteration advances, and keeps the position, statement start and word start in order |
| Scanner.ScanCapped | internal/sqlscript/sqlscript.go:155-461 | fails exactly when a cap applies and the uncapped scan has more events, and otherwise returns all of them |
| Scanner.StepSpans | internal/sqlscript/sqlscript.go:175-460 | what an iteration emits lies between where the current statement starts and where the next one does |
| Scanner.StatementsAreSpans | internal/sqlscript/sqlscript.go:175-461 | the statements are non-empty, disjoint substrings of the script, in order |
| Scanner.SplitLimit | internal/sqlscript/sqlscript.go:48-60 | the statement texts of all events, or a refusal when there are more events than allowed, markers included |
| Scanner.EventBudget.Consume | internal/sqlscript/sqlscript.go:140-151 | fails exactly when the script has more events than remain, also at none, and else charges them |
| Scanner.Preflight | internal/sqlscript/sqlscript.go:128-151 | over any list of sections it fails exactly at the first that takes the running total past the cap |
| Scanner.TotalGrows | internal/sqlscript/sqlscript.go:128-151 | a list that passes has passing prefixes |
| Markers.FrameMarkerRoundTrip | internal/driver/marker.go:101-117 | a frame marker names its delimiter again |
| Markers.FrameMarkerOnly | internal/driver/marker.go:107-129 | only a rendered frame marker, possibly with a carriage return, parses as one |
| Markers.CollationMarkerRoundTrip | internal/driver/marker.go:65-97 | a collation marker within the field bounds is read back as it was |
| Markers.HexRoundTrip | internal/driver/marker.go:133-149 | hex decoding inverts hex encoding, for all bytes |
| Markers.FindOccupied | internal/driver/marker.go:184-196 | finds every number that occurs between double dollars, and no more numbers than the body has room for |
| Markers.PickNumber | internal/driver/marker.go:197-203 | the least free number, at most one more than there are occupied ones |
| Markers.ChooseFrameDelimiter | internal/driver/marker.go:172-204 | the first fixed candidate that does not occur, or a numbered one: it occurs nowhere in the body, is always found, and fits 16 bytes for bodies under 10^12 bytes |
| Frames.WriteFrames | internal/dump/sql.go:476-482 | every body framed under its own delimiter, which occurs nowhere in it |
| Frames.TerminatorIs | internal/sqlscript/sqlscript.go:496-525 | no line of the body reads as the delimiter, so the search ends at the line after the body |
| Frames.OneFrameScan | internal/sqlscript/sqlscript.go:335-355 | one frame scans to exactly its body, and leaves the scanner between statements behind it |
| Frames.FramesRoundTrip | internal/sqlscript/sqlscript.go:335-355 | scanning any list of framed non-empty bodies gives back exactly those bodies |
| Quoting.SkipQuoted | internal/driver/connection.go:208-215 | the scanner leaves a quoted value exactly at its end, whatever it holds, unless another quote follows |
| TableData.NumberIsRun | internal/driver/dump.go:473-481 | what passes as a number has no quote, separator or comment in it |
| TableData.BatchIsWoven | internal/driver/dump.go:490-525 | a batch is plain text and quoted values in turn, with no letter e directly before a string |
| Weave.LitStep | internal/sqlscript/sqlscript.go:605-620 | the scanner passes over a quoted value in one step and stays inside the statement |
| Weave.WovenScan | internal/sqlscript/sqlscript.go:239-460 | it passes over text woven from plain runs and quoted values without an event |
| TableData.WriteTableData | internal/dump/sql.go:74-136 | every row once, in order, in batches that are flushed by the first row that takes them to 512 KiB |
| TableSplits.OneBatchScan | internal/sqlscript/sqlscript.go:239-460 | the scanner passes over a batch to its own separator, whatever its cells hold |
| TableSplits.BatchesRoundTrip | internal/dump/sql.go:90-130 | splitting the output gives one statement for each flushed batch, with exactly its text: no cell value moves a statement boundary |
| Blocks.PartKeeps | internal/sqlscript/sqlscript.go:190-231 | inside a routine, a block, CASE, closed compound, word, separator or quoted value leaves the nesting level as it was, and ends no statement |
| Blocks.BodyKeeps | internal/sqlscript/sqlscript.go:190-231 | so does a body of any length and nesting, as long as no END that closes a block or CASE expression is followed by IF, LOOP, WHILE, REPEAT or CASE |
| Blocks.BodyReads | internal/sqlscript/sqlscript.go:190-231 | for every body: the level after it is the level before it plus the drift counted from its misread words, and one of its separators ends the statement exactly when one is met at level 0 |
| Routines.AtomScan | internal/sqlscript/sqlscript.go:239-460 | the scanner passes over a word, separator, punctuation or quoted value of a routine without an event, keeping the nesting as Blocks says |
| Routines.RoutineIsOneStatement | internal/sqlscript/sqlscript.go:175-460 | a routine definition with a block nested to any depth is one statement, which the first separator after its own END ends |
| Routines.RoutineEnds | internal/sqlscript/sqlscript.go:425-452 | for every routine whose separators are kept inside: the first separator after its own END ends the statement, with the routine as its text, exactly when the drift is 0; otherwise it is passed over as part of the same statement |
| Routines.RoutineBreaks | internal/sqlscript/sqlscript.go:425-452 | for every other routine, the statement ends early, at a separator of the routine's own |
| Routines.RoutineSwallows | internal/sqlscript/sqlscript.go:175-460 | a routine that leaves a positive drift and the statement after it come out as one event |
| Misreadings.IfDrifts | internal/sqlscript/sqlscript.go:195-213 | punctuation does not end the wait for the word after an END: in any routine, a CASE expression, a comma and the function IF leave a drift of 1 |
| Misreadings.CaseBreaks | internal/sqlscript/sqlscript.go:195-213 | in any routine, two CASE expressions with a comma between them make the statement's own separator end the routine |
| Misreadings.IfSwallows | internal/sqlscript/sqlscript.go:175-460 | a script of a function definition and one more statement that comes out as one event, in every dialect that takes the header for a routine's |
| Routines.OtherStatementsSplit | internal/sqlscript/sqlscript.go:214-225 | in a statement that is no routine, BEGIN, CASE and END count for nothing: the first separator ends it |
| SqlLiterals.ScanQuoted | internal/driver/seqrewrite.go:148-164 | the content and the end of the value that starts at i, or nothing if it is not closed |
| SqlLiterals.InsideBack | internal/driver/seqrewrite.go:148-181 | reading a quoted value inverts quoting it |
| SqlLiterals.InsideOnly | internal/driver/seqrewrite.go:148-181 | and what was read is the quoted form of its content, with no quote after it |
| SqlLiterals.CastStops | internal/driver/seqrewrite.go:194-215 | nothing from the next quote on has a say in a cast |
| QualifiedNames.ParseQualifiedIdent | internal/driver/seqrewrite.go:237-294 | exactly two non-empty identifier parts, or nothing |
| QualifiedNames.ParsedFilled | internal/driver/seqrewrite.go:237-294 | no part of a parsed name is empty |
| QualifiedNames.PrintedRoundTrip | internal/driver/seqrewrite.go:298-317 | parsing a rendered name gives it back if and only if neither part is empty |
| SeqRewrite.KeysDistinct | internal/driver/seqrewrite.go:15-18 | keys of different names differ, unless a schema holds a NUL |
| SeqRewrite.SegmentsJoin | internal/driver/seqrewrite.go:26-67 | the segments the rewriter distinguishes are the whole text, in order |
| SeqRewrite.RewriteSequenceRefs | internal/driver/seqrewrite.go:26-67 | the text with every segment rewritten, also on the early exits |
| SeqRewrite.RewriteRescans | internal/driver/seqrewrite.go:26-67 | reading the output again gives the rewritten segments: a name that was put in ends no literal early, joins with nothing and changes no cast |
| SeqRewrite.RewriteTouchesOnlyHits | internal/driver/seqrewrite.go:20-67 | exactly the cast literals that name a key change, and re-parse to the pair they are mapped to |
| SeqRewrite.RewriteKeeps | internal/driver/seqrewrite.go:26-67 | without a hit the text is unchanged |
| SeqRewrite.IdempotentIff | internal/driver/seqrewrite.go:26-67 | rewriting again changes nothing, whatever the text, if and only if no replacement is itself a key of another name |
| NextvalRefs.NextvalTextRefs | internal/driver/seqrewrite.go:69-136 | the late-bound references of an expression in order, and whether some nextval argument is dynamic |
| NextvalRefs.ArgumentKept | internal/driver/seqrewrite.go:103-131 | what one literal argument adds is decided by the text up to the next quote, so rewriting changes at most the literal |
| NextvalRefs.RefsRebound | internal/driver/seqrewrite.go:26-136 | the references found in rewritten text are those of the text, each rebound if it names a key, in the same order, with the same verdict on dynamic ones |
| ConnectLines.ParseConnectTarget | internal/sqlscript/restore.go:154-185 | the first argument of the line as psql splits it, or an error for an open quote |
| ConnectLines.ConnectRoundTrip | internal/sqlscript/restore.go:123-150 | a printed \connect line names its database again, any but the empty name |
| Restore.SplitRestoreSections | internal/sqlscript/restore.go:34-114 | all sections, or a refusal of the whole: for more sections than allowed, else for a broken marker; without connects at most one section |
| RestoreRoundTrip.MoveShift | internal/sqlscript/restore.go:59-108 | a move inside a closed script is the same in the text around it |
| RestoreRoundTrip.TraceSkips | internal/sqlscript/restore.go:59-108 | the splitter passes over a closed script to the line after it |
| RestoreRoundTrip.MarkerMove | internal/sqlscript/restore.go:85-101 | a printed marker line is taken as one |
| RestoreRoundTrip.SectionsRoundTrip | internal/sqlscript/restore.go:34-114 | splitting printed sections gives them back, for every non-empty name without a line feed and every closed script |

## Left out
- Dump planner: warnings, labels and the source-side audit of a teardown; catalog introspection and rendering, which are
  parameters that may fail.
- Dump planner: Go's random map order. A table's defaults and constraints are lists in some order.
- Teardown: foreign keys are no edges of the drop graph; that their constraints are dropped before the first table is modelled as a position only.
- WriteDB: the order of post-data, view refreshes and preambles (internal/dump/sql.go:39-55, 419-455).
- Sessions: mutexes as such, cookies, HTTP, token generation and the audit log. Fresh ids and times are parameters.
- SessionStore.SessionStore.Save: which session the local store evicts at its capacity is any one it holds; `MemStore` says which.
- SessionSteps: a replica runs one scan at a time, as its reaper does.
- SessionSteps: a sweep forgets an ended id and deletes its row in one step. In the code the notes go first, and the DELETE takes the
  admission mutex after that (internal/storage/session.go:729-743).
- IdleSafety.AbandonedSweepSpares: the absolute timeout is judged by the creation time in the sweep's own snapshot of the row.
- SingleWinner.OneWinner: a pre-auth id is created once, since ids are random.
- Lexer: characters beyond ASCII at the ends of a trimmed text; TrimSpace removes only ASCII white space.
- Lexer: the routine pattern is an arbitrary predicate.
- Routines.RoutineIsOneStatement: words, punctuation and quoted values are set apart by single spaces, quoted values only where
  strings have no backslash escapes, and comments do not occur in the statement.
- IsQuery, stmtSkeleton and the keyword helpers of the console (internal/sqlscript/sqlscript.go:728-900).
- Markers.ChooseFrameDelimiter: the 16-byte bound holds for bodies under 10^12 bytes; beyond that the number could be longer.
- TableData.WriteTableData: streams that do not fail, tables with insertable columns and no row filter. The excluded,
  default-row and error comments are not modelled, nor are dialect hooks for special text and non-finite floats.
- TableSplits.BatchesRoundTrip: for profiles without backslash strings and batch separators; the comment line's table name has no
  line break, which the writer ensures.
- SeqRewrite.RewriteSequenceRefs: the map is given; how a dialect fills it is not modelled.
- RestoreRoundTrip.SectionsRoundTrip: names that are valid in their encoding. An invalid byte is replaced when the line is read as
  runes, and the name would not come back.
- CSV, JSON and XML writers, configuration, grants, rate limits, OIDC and the HTTP layer.
