# gitmote in Dafny

gitmote is a git server whose only durable state is an object store and one SQLite database
replicated to it. Several instances take turns as the writer. This project models the parts
whose correctness rests on order and interleaving, and proves what they promise.

| file | what it models |
|---|---|
| `Wrappers.dfy`, `Strings.dfy`, `Traces.dfy` | failure datatypes; splitting and joining; runs of a transition system |
| `Objects.dfy` | git objects: links, history, closure |
| `Refs.dfy` | the ref table and its multi-ref compare-and-swap |
| `Lease.dfy` | the leased database: promotion, yield, kill, replication |
| `Hook.dfy` | the pre-receive hook and the force flag |
| `PushSystem.dfy` | pushes, hook calls, caches, leases and crashes as one transition system |
| `PushSafety.dfy`, `PushLedger.dfy` | its two groups of invariants |
| `PushTheorems.dfy`, `PushHistory.dfy` | what they give over whole runs |
| `PushCaches.dfy` | which mirrored refs have their objects on disk |
| `Receive.dfy`, `PushCalls.dfy` | the write path inside one instance, as a class; its hook call as a run of the system |
| `Materialize.dfy` | the ref mirror on disk, its readers, and the cache directory as a class |
| `Activity.dfy` | how an idle writer hands back its lease |
| `ServerSecrets.dfy` | get-or-create of a server secret across instances |
| `LiveLogs.dfy` | the live log tail against the durable log |
| `Triggers.dfy` | branch globs through regular expressions; the `on:` key |
| `Jobs.dfy` | CI jobs and runs as a transition system of single statements |
| `JobRuns.dfy` | completions as runs of that system, from any state |
| `JobStatus.dfy`, `JobFinality.dfy`, `JobVerdict.dfy` | when a run's status is right; when a job's outcome and log, and a run's status, are final |
| `JobHandlers.dfy` | the CI handlers as code on that system |
| `JobRaces.dfy` | reachable runs in which the conditions fail |
| `Ansi.dfy` | ANSI escapes to HTML |
| `Browse.dfy` | refs and paths in one URL |

The transition systems (`Lease`, `PushSystem`, `Activity`, `Jobs`) put no bound on the number of
instances, pushes, handlers or steps. The classes beside them (`Refs.Metadata`,
`Receive.Writer`, `Materialize.RepoDir`, `Activity.Instance`, `ServerSecrets.Metadata`,
`LiveLogs.Session`, `JobHandlers.Ci`) have the fields and loops of the code. In `Activity`,
`ServerSecrets` and `JobHandlers` a method runs on the state of the transition system, and between any
two of its own steps everything else may move (`Others`), so a method's contract holds in
every interleaving. Where a class has the fields `alone` and `reliable`, the contract also says
the whole new state for the case that nothing else moves and no call fails.

## Model

| member | source | states |
|---|---|---|
| Refs.Tx.CasOne | internal/meta/refs.go:102-131 | one update inside a transaction meets its sequential meaning, leaves the rows alone when it fails, and an INSERT never meets an existing row |
| Refs.Metadata.CASRefs | internal/meta/refs.go:81-98 | success leaves, at every row, the last value the batch writes there; any failure, a database fault included, leaves the table alone; a mismatch is that of the first update that does not match; no stored id is empty or all-zero; other repositories keep their rows |
| Refs.CasFoldIsPositional | internal/meta/refs.go:77-98 | the sequential all-or-nothing meaning equals one stated by positions, without intermediate tables, in every outcome, also with repeated ref names |
| Refs.UpdatesByName | internal/meta/refs.go:77-131 | by name: the first update of a ref needs its old value in the row, the last leaves its new value there; without repeated names a batch is accepted exactly when every old value is the current one |
| Refs.ZeroIsAbsent | internal/meta/refs.go:133-141 | the empty string and the id of 40 zeros are absent, and nothing else is |
| Refs.HoldsResultUnique | internal/meta/refs.go:77-98 | the table a batch leaves is unique |
| Refs.SwapKeepsWellFormed | internal/meta/refs.go:133-141 | an update is accepted exactly when the normalized old value is the current one, sets one row, and never stores an empty or all-zero id |
| Refs.AcceptedIsChain | internal/meta/refs.go:102-131 | in an accepted batch each update of a ref starts from the value the previous one wrote |
| Refs.SameOldNeedsRestore | internal/meta/refs.go:111-114 | two accepted updates of a ref from one old value, the first of which moves it, have a restoring update between them |
| Refs.SecondPushIffRestored | internal/meta/refs.go:111-114 | a further update from that old value is accepted exactly when the last write to the ref brought the value back |
| Refs.SameOldBothCommit | internal/meta/refs.go:111-114 | the unconditional reading, that two updates from one old tip never both commit, fails for a ref that returns |
| Lease.NextKeepsInv | internal/meta/meta.go:168-191 | every lease step keeps: at most one holder, its table and the replica are folds of the surviving commits, and without a holder nothing is unshipped |
| Lease.GatedReadIsSurvivingLog | cmd/gitmote/main.go:523-531 | whoever passes the gate reads the fold of the surviving commits of all instances |
| Lease.GatedReadSeesEveryCommit | cmd/gitmote/main.go:423-448 | over any run that loses nothing, a gated request reads the fold of every commit made so far by any instance, in commit order |
| Lease.ShippedSurvives | internal/meta/meta.go:186-191 | whatever the replica has is part of the surviving log ever after |
| Lease.KillDropsUnshippedSuffix | cmd/gitmote/main.go:444-449 | a hard kill of the holder takes exactly its unshipped commits; the gate refuses until the lease expires, and then serves the rest |
| Lease.LossFreeKeepsPrefixTables | cmd/gitmote/main.go:423-428 | in a run that loses nothing every table, a stale snapshot included, is a prefix of the log, and a follower's has only shipped commits |
| Lease.ForgetsIffLogShrinks | internal/meta/meta.go:186-191 | the steps that a loss-free run excludes are exactly those that take commits out of the log |
| Hook.IsForceIsHonest | cmd/gitmote-hook/main.go:77-90 | an unforced update goes from nothing, or from an ancestor, to an object, given only that exit status zero of merge-base is right |
| Hook.FieldsOfLine | cmd/gitmote-hook/main.go:94-108 | splitting the line git writes for an update gives back its three fields |
| Hook.FieldsOfHexLine | cmd/gitmote-hook/main.go:94-108 | two hexadecimal ids and a ref name in printable characters come back as the three fields; the line is read if it is shorter than 65536 |
| Hook.ForceCases | cmd/gitmote-hook/main.go:77-90 | a deletion is a force, a creation is not, and otherwise the exit status of merge-base decides |
| Hook.ParseCommands | cmd/gitmote-hook/main.go:94-108 | all lines parse, or nothing does: a line that is too long for the scanner or has not three fields, or a failed read, leaves no command; each command has the three fields of its line |
| Hook.Run | cmd/gitmote-hook/main.go:31-90 | the hook accepts exactly when the parent said yes to a request with the nonce, git's own updates and honest flags; with an exact merge-base the flags are set for exactly the deletions and rewrites; every other outcome rejects |
| PushSafety.NextKeepsSafe | internal/githttp/receive.go:271-342 | every step of the system keeps content before pointer: tables, replicas, caches, hook calls and mirrors |
| PushTheorems.RefsNeverDangle | internal/githttp/receive.go:278-342 | in every reachable state, every ref in every table, snapshot, replica and cache names an object whose whole closure is in the store |
| Objects.ClosedIffLinksAre | internal/githttp/receive.go:271-277 | an object's closure is in the store exactly when the object is and the closures of all it refers to are |
| Objects.AncestorIffOfParent | cmd/gitmote-hook/main.go:64-76 | a commit's ancestors are itself and the ancestors of its parents |
| PushTheorems.CacheShowsCommitted | internal/repo/materialize.go:77-112 | whatever interleaves, a value or absence read from a cache that was mirrored once was the committed state of that ref at some earlier time |
| PushTheorems.NoncesAndOutcomes | internal/githttp/receive.go:191-368 | one registered nonce per repository and instance; a nonce is accepted by at most one hook call and makes at most one commit; the recorded outcome, and what the after-commit hook got, is nothing or exactly the updates of that commit |
| PushTheorems.FiredIsCommitted | internal/githttp/receive.go:330-338 | in every reachable state, what the after-commit hook got has the ref, the old and the new value of each command committed under that nonce, in order |
| PushTheorems.CommitSetsRows | internal/githttp/receive.go:312-325 | the table that a surviving commit leaves has, for each of its refs, the last new value it names |
| PushTheorems.PushHistorySettles | internal/githttp/receive.go:260-368 | which call claimed a nonce, what it committed and what was fired are settled the first time, for the rest of any run |
| PushLedger.NextKeepsLedger | internal/githttp/receive.go:227-269 | every step keeps the ledger: registered nonces are live and unclaimed, locks belong to live pushes, outcomes are those of their commits |
| PushHistory.LogIsOneBatch | internal/meta/refs.go:77-98 | a log accepted commit by commit is accepted update by update, with the same table |
| PushHistory.SurvivingUpdatesChain | internal/meta/refs.go:102-131 | in the surviving history of any run, the updates of each ref form a chain from the value it had at the start |
| PushHistory.SameTipTwiceOnlyIfRestored | internal/githttp/receive.go:312-325 | two surviving updates of a ref from one old tip, the first of which moved it, need an update between them that brings the tip back |
| PushHistory.DefaultBranchOnlyAdvances | internal/githttp/receive.go:284-325 | over any stretch of non-admin pushes the default branch only moves to descendants and never disappears, whatever old ids the clients claim |
| PushHistory.DefaultBranchTipNeverTwice | internal/githttp/receive.go:284-325 | under non-admin pushes the default branch never has two surviving updates from one old tip |
| PushCaches.MirroredIsHydrated | internal/repo/materialize.go:154-227 | objects are listed and copied, then refs are listed, with anything in between: every listed ref that had its value when the objects were listed has its closure on disk from then on; so all have when no push was committed in between |
| PushCaches.PushBetweenListsDangles | internal/repo/materialize.go:214-227 | a run from the start in which a push is committed between the two lists and a mirrored ref names an object that is not on disk |
| Receive.IsObjectPath | internal/githttp/receive.go:400-417 | accepts exactly the paths that start with `pack/`, or with two hexadecimal digits and a slash |
| Receive.ObjectPaths | internal/githttp/receive.go:396-417 | every file under pack/ and under a two-digit hexadecimal directory is an object; files under info/ and at the top are not |
| Receive.UploadedExactly | internal/githttp/receive.go:370-394 | a complete upload stores every pack, index and loose object of the quarantine under `<repo>/objects/<path>` with its content, adds nothing else, and takes nothing away |
| Receive.RowsOfPush | internal/githttp/receive.go:315-325 | an accepted push found each ref's first old value in its row and leaves its last new value there; other rows stay |
| Receive.Writer.LockRepo | internal/githttp/receive.go:227-237 | one mutex per repo name, created once and kept |
| Receive.Writer.Take | internal/githttp/receive.go:260-269 | a nonce resolves to its push and is gone |
| Receive.Writer.Begin | internal/githttp/receive.go:191-225 | while another push holds the repo's mutex the request waits and changes nothing; success holds the mutex and registers one fresh nonce with the branch and level fixed now; failure leaves neither lock nor nonce |
| Receive.Writer.PutObjects | internal/githttp/receive.go:374-394 | all packs and loose objects of the quarantine are stored under their paths, or a prefix of the files is dealt with and a failure is reported |
| Receive.Writer.Handle | internal/githttp/receive.go:278-342 | yes means packs and objects stored under their paths, all updates applied at once, each ref at its last new value, and the outcome recorded; no means refs and outcome unchanged, and after a guard refusal the store too; without faults yes is exactly allowed and matching, allowed being admin or no forced command on the default branch |
| Receive.Writer.RunHookCalls | internal/githttp/receive.go:260-342 | of any number of hook calls with one nonce only the first can succeed; what is then recorded has repository, ref, old and new value of each of its commands, and each ref's row is the last new value recorded |
| Receive.Writer.ServeReceivePack | internal/githttp/receive.go:182-368 | a whole push: the after-commit hook gets, field by field, the commands of the one accepted call, as the rows show them, and nothing for a rejected push; nonce and lock are gone afterwards |
| PushCalls.HandleIsRun | internal/githttp/receive.go:278-342 | what Handle does is a run of the system by that one call, in every failure too: a yes exactly when the nonce is live, the guard admits the push, nothing fails, the lease is held and the updates are accepted, with the rows, objects and outcome that Handle promises |
| Materialize.PackedRoundTrip | internal/repo/materialize.go:277-286 | reading packed-refs back gives exactly the refs it was written from |
| Materialize.PackedLines | internal/repo/materialize.go:277-286 | the file is one line `<sha> <name>` a ref, in order |
| Materialize.ReaderSeesOldOrNew | internal/repo/materialize.go:228-243 | a reader that checks loose first and packed later, at any two moments of a mirror, gets the old effective or the new listed value, never absence when both exist |
| Materialize.MirrorEndsExact | internal/repo/materialize.go:228-264 | when the mirror is done, a name that does not end in `.lock` has no loose file, and its effective value is the listed one |
| Materialize.RepoDir.RemoveLooseRefs | internal/repo/materialize.go:248-264 | exactly the files ending in `.lock` stay, unchanged; the others go one at a time; an error ends the walk and leaves the rest unchanged |
| Materialize.RepoDir.WritePackedRefs | internal/repo/materialize.go:277-286 | the file becomes the lines of the listed refs, in order, or stays as it is |
| Materialize.RepoDir.MirrorRefs | internal/repo/materialize.go:238-243 | the directory ends with exactly the listed refs, each at its listed value, and files ending in `.lock` are kept; its states on the way, and the one a failure leaves, are those the reader lemmas speak about |
| Materialize.RepoDir.HydrateObjects | internal/repo/materialize.go:154-179 | up to sixteen copies at a time, ending in any order, some failing: what is on disk stays, what is new is copied unchanged, success means nothing is missing, failure that something is |
| Materialize.RepoDir.Materialize | internal/repo/materialize.go:57-75 | success gives every listed object, exactly the listed refs at their listed values and the branch of HEAD, whatever the directory held, `.lock` files aside; whatever fails, refs change only once every object is there, and only along the states of a mirror |
| Activity.NextKeepsInv | cmd/gitmote/main.go:305-381 | every load, store and lock step keeps: a locked yielder excludes all holders, what it read under the lock is current, and who is past the gate has the lease or saw it lost |
| Activity.YieldIsExclusive | cmd/gitmote/main.go:359-381 | in every reachable state, while a yield runs no tracked request and no sweep is in flight; who passed the gate keeps the lease to its end unless it is lost from outside |
| Activity.YieldComesAfterIdle | cmd/gitmote/main.go:336-369 | when a yield runs, every tracked request ended at least idleYieldAfter earlier, less the longest time between taking and storing a stamp; with stamps stored in order, exactly idleYieldAfter |
| Activity.IdleForFiveSeconds | cmd/gitmote/main.go:346-349 | the idle time is five seconds |
| Activity.EarlyYieldIff | cmd/gitmote/main.go:346-381 | with nothing in flight, some run without new requests yields within idleYieldAfter of an ended request exactly when a stamp from that time was overwritten by an older one; until the check is due, exactly when any was |
| Activity.LateStoreYieldsEarly | cmd/gitmote/main.go:336-339 | that bound is attained: a delayed store of an older stamp makes some run yield that much early |
| Activity.Instance.MaybeYield | cmd/gitmote/main.go:359-381 | in every interleaving, it gives up the lease only in a state with nothing in flight and the last noted end long enough ago; a yield tried there succeeds exactly when the lease is still held and the call does not fail, and a failed one leaves the lease as it is; alone, it yields exactly for an idle writer with nothing in flight |
| Activity.Instance.Track | cmd/gitmote/main.go:331-344 | a tracked request is served exactly when it gets past the gate, no yield runs from there to its end, and when it leaves, the time of its end, within its own life, has been noted |
| Activity.Instance.ReconcileOnce | cmd/gitmote/main.go:290-306 | a sweep runs exactly when it gets past the gate; in no state from the gate to its end does a yield hold the lock; it does not count as activity |
| ServerSecrets.CallersAgree | internal/meta/secrets.go:81-115 | when no commit is lost, all values returned for one name, by any two calls on any instances, are equal |
| ServerSecrets.ReadIsSettled | internal/meta/secrets.go:163-170 | any table of any instance, a stale snapshot included, shows only the settled value |
| ServerSecrets.TableKeepsName | internal/meta/secrets.go:123-161 | what an instance can read it can go on reading through yields, promotions and refreshes |
| ServerSecrets.FirstInsertWins | internal/meta/secrets.go:106-113 | the first insert of a name decides its value, and no insert touches another name |
| ServerSecrets.KillSplitsCallers | internal/meta/secrets.go:106-114 | the condition is needed: in a run from the start, a kill before shipping makes the next writer create the secret anew, for any two generated values |
| ServerSecrets.Metadata.AwaitSecret | internal/meta/secrets.go:126-161 | a value is the settled one; "no rows" is the answer only of an instance that was the writer when it looked |
| ServerSecrets.Metadata.Exec | internal/meta/secrets.go:106-113 | an insert is committed only by the holder of the lease; a follower never writes |
| ServerSecrets.Metadata.GetOrCreateSecret | internal/meta/secrets.go:94-115 | in every interleaving a returned value is the settled one, also the one settled before the call; the re-read after the insert never comes up empty; each failure has its cause; alone, whoever can reach the secret or the lease gets a value within two tries, the generated one exactly if there was none |
| LiveLogs.LiveLogs.Append | internal/ci/livelogs.go:41-62 | a buffer that shows the capped form of the bytes received so far does so after any chunk; other jobs are untouched |
| LiveLogs.LiveLogs.Finish | internal/ci/livelogs.go:68-75 | marks a known job done, and nothing else |
| LiveLogs.LiveLogs.Read | internal/ci/livelogs.go:88-104 | the bytes from the clamped offset on, and the end as the next offset; no buffer is told apart from an empty one |
| LiveLogs.LiveLogs.Sweep | internal/ci/livelogs.go:111-119 | exactly the buffers idle for longer than the limit go |
| LiveLogs.HandleLogChunk | internal/ci/report.go:216-231 | appends the body, cut at the cap without a marker |
| LiveLogs.StoreLog | internal/ci/report.go:235-244 | stores the capped form of the body |
| LiveLogs.CappedAt | internal/ci/report.go:20-26 | up to 10485760 bytes a log is stored as it is, of a longer one the first 10485760 and the marker |
| LiveLogs.LiveIsDurableIff | internal/ci/report.go:224-243 | the live buffer equals the durable log of the same bytes exactly when they did not all come in one POST over the cap |
| LiveLogs.LiveBelowDurable | internal/ci/report.go:224-243 | in every case the live buffer is a prefix of the durable log |
| LiveLogs.Session.Run | internal/runner/stream.go:51-98 | for any split into writes, ticks, posts and polls, what the page has collected is a prefix of the durable log of the output so far |
| LiveLogs.Session.Stop | internal/runner/stream.go:63-82 | after the final flush and a last poll the page has the durable log, exactly unless it came in one oversized POST |
| Triggers.PatternCompiles | internal/ci/triggers.go:142-158 | every pattern's regular expression parses back to exactly the anchored items of its tokens |
| Triggers.CompiledIsGlob | internal/ci/triggers.go:134-163 | for every name, the compiled pattern matches exactly the language in which `**` stops at newlines; so it never matches more than documented, and for names without a newline exactly that |
| Triggers.FreePattern | internal/ci/triggers.go:134-158 | a pattern without a star accepts the one name it spells |
| Triggers.FirstStar | internal/ci/triggers.go:150-153 | the first single star of a pattern stands for characters other than a slash, and what follows is a pattern by itself |
| Triggers.FirstDoubleStar | internal/ci/triggers.go:146-149 | a first double star stands for any characters, but newlines in the code, and what follows is a pattern by itself |
| Triggers.PatternForms | internal/ci/triggers.go:142-158 | every pattern has one of these three forms |
| Triggers.DoubleStarStopsAtNewline | internal/ci/triggers.go:134-148 | a name of one newline is in the documented language of `**` and is not matched |
| Triggers.RunItems | internal/ci/triggers.go:162 | the matcher decides whether the items match anywhere in the name |
| Triggers.GlobMatch | internal/ci/triggers.go:142-163 | the loop builds that expression, and the answer is membership in that language, for every pattern and name; a pattern without a star matches itself, one with one star the names with a slash-free piece in its place, one with one double star those with a newline-free piece |
| Triggers.AnyGlobMatch | internal/ci/triggers.go:125-132 | some pattern's language has the name |
| Triggers.Matches | internal/ci/triggers.go:75-91 | reacts, some allow pattern has the branch if there are any, and no deny pattern has it; as documented for every branch without a newline |
| Triggers.MapValue | internal/ci/triggers.go:93-101 | the value of the first occurrence of the key |
| Triggers.SeqStrings | internal/ci/triggers.go:103-123 | one scalar, or the scalars of a sequence in order |
| Triggers.ScalarAt | internal/ci/triggers.go:103-123 | each scalar of a list stands in the filter after those before it |
| Triggers.FiltersOfPush | internal/ci/triggers.go:59-72 | the allow-list is the value of the first `branches`, the deny-list that of the first `branches-ignore` |
| Triggers.KeyPlaces | internal/ci/triggers.go:93-101 | keys stand at even places, and the first of a name is the one before which there is no other |
| Triggers.InterpretOn | internal/ci/triggers.go:41-73 | reacts exactly for the three shapes that name push, with the filters of the first push key |
| Jobs.Rollup | internal/ci/report.go:327-343 | running when some job is queued or running; or else error when one is in error, failed when one has failed, and passed |
| Jobs.RollupIsWorst | internal/ci/report.go:246-249 | that status is the maximum of the severities, and is running exactly when some job is not finished |
| Jobs.NextKeepsInv | internal/ci/report.go:143-206 | every micro-step keeps: claims at most one, log keys point to stored logs, finished jobs stay finished, swept jobs are finished |
| Jobs.ClaimedOnceLogStored | internal/meta/ci.go:243-262 | in every reachable state no job was claimed twice, and a job with a log key has its own log in the store |
| Jobs.FinishedForGood | internal/ci/report.go:150-178 | from any reachable state on, a finished job stays finished and a claimed one is never queued again |
| JobStatus.ClaimKeepsRollup | internal/meta/ci.go:243-262 | a claim, won or lost, changes the rollup of no run |
| JobStatus.OnlyFourKindsMoveRollup | internal/ci/report.go:246-260 | only a new job, an outcome, a swept job or a noted trigger failure of that very run can move its rollup |
| JobStatus.StatusRightIff | internal/ci/report.go:250-260 | a rollup lists, others go on, it stores, others go on: the status is right at the end exactly when no step since the listing moved the rollup of the jobs, or the last that did moved it back |
| JobStatus.RightAfterEach | internal/ci/report.go:150-286 | with completions and sweeps one at a time, none of their calls failing, and claims and dispatches interleaved at will: once one has touched a run, its status is the worst-of its jobs at the end of that one and of each later one, as long as the run's own dispatch adds nothing |
| JobStatus.RightAfterDispatch | internal/ci/dispatcher.go:234-286 | for a run whose dispatch is over that needs nothing but the order |
| JobFinality.OutcomeFinalIff | internal/ci/report.go:165-199 | the outcome of a finished job is the same in every later state exactly when no completion that read it earlier holds another outcome and no dispatch may still note its trigger failure |
| JobFinality.LogBelongsForGoodIff | internal/ci/report.go:186-199 | the outcome in a finished row and the log behind it are those of one completion, in every later state, exactly when no completion of the job is under way with another outcome or log and no dispatch may still note its trigger failure |
| JobFinality.LogsBelong | internal/ci/report.go:143-206 | over runs from the start with completions and sweeps one at a time, outcome and log of a job are those of one completion whenever none is under way, as long as no trigger failure is noted for it after it has its log |
| JobFinality.LogStaysIff | internal/ci/dispatcher.go:267-273 | once no completion of the job is under way they stay together over any run exactly as long as no such note is made |
| JobVerdict.StatusFinalIff | internal/ci/report.go:246-260 | the status of a run that no handler has in hand, whatever it is, is the same in every later state exactly when all its jobs are finished, or it is error with one unfinished job and another one in error |
| JobVerdict.VerdictFinalIff | internal/ci/dispatcher.go:228-286 | so the verdict failed of a dispatch is final exactly when all jobs have finished as it is given, and error also in that second case, if no other handler has the run in hand |
| JobVerdict.ClosedIsFinal | internal/ci/dispatcher.go:228-286 | a run whose jobs are finished and that no handler has in hand stays so, with its status, over any run |
| JobHandlers.Ci.HandleClaim | internal/ci/report.go:100-141 | a claim is won exactly if the job is queued at one moment; a won claim is the only one of its job, ever, and is answered with the job or, when a lookup then fails, with an internal error |
| JobHandlers.Ci.HandleComplete | internal/ci/report.go:152-206 | in every interleaving: a recorded answer means that at one moment the row had exactly this outcome, log key and log with a log in the store, and, when no call fails, that the run has been rolled up since, in the two statements of StatusRightIff; with nothing else going on the rows are exactly the completed and rolled-up ones, and an ended job is left alone |
| JobHandlers.Ci.ReconcileStuck | internal/ci/report.go:267-286 | in every interleaving: every job that was running and last updated before the cutoff at one moment has ended at a later one, and, when no call fails, its run is rolled up after that; with nothing else going on exactly those jobs become errors, with the time of the sweep, and exactly their runs get the rollup of their jobs |
| JobHandlers.Ci.RecordRun | internal/ci/dispatcher.go:234-286 | in every interleaving without failing calls: each file that parses has its own new job, ended if its runner does not start, and the last step gives the verdict, failed, error or none; with nothing else going on those are the only new jobs, queued or in error file by file, and no other run changes |
| JobHandlers.ClaimDoes | internal/meta/ci.go:243-262 | a won claim makes the queued job a running one, with the time of the claim, and touches nothing else |
| JobHandlers.CompletionDoes | internal/ci/report.go:186-199 | row by row, what a completion with nothing else going on does: outcome, time and the key `ci/<repo>/<run>/<job>.log` in the row, the log under it, the rollup in the run, and nothing else |
| JobHandlers.SweepDoes | internal/meta/ci.go:286-325 | job by job and run by run, what such a sweep does: running and updated before the cutoff becomes error, and the runs of those get their rollup |
| JobHandlers.DispatchDoes | internal/ci/dispatcher.go:249-285 | file by file, what such a dispatch does: one new job each, queued or in error, and the run failed, error or queued |
| JobRaces.SweptOutcomeIsReplaced | internal/ci/report.go:165-199 | a reachable run in which a completion replaces the outcome a sweep recorded |
| JobRaces.SecondCompletionReplaces | internal/ci/report.go:165-199 | a reachable run in which the second of two completions replaces the outcome of the first, and the row goes with the other one's log |
| JobRaces.LateNoteReplaces | internal/ci/dispatcher.go:267-273 | a reachable run in which a job has passed with its log while its trigger was still pending, and the note of the trigger's failure makes it an error over the log of the pass |
| JobRaces.VerdictIsReplaced | internal/ci/dispatcher.go:276-285 | reachable runs in which a rollup replaces the verdict of the dispatch: failed for a malformed file, and error when the only runner was said not to start |
| JobRaces.JobAddedAfterRollup | internal/ci/dispatcher.go:249-266 | a reachable state with nothing under way in which a run has passed while a job of it is queued: its dispatch added the job after the first one had ended |
| JobRaces.JobAddedWithinRollup | internal/ci/dispatcher.go:249-266 | a reachable run in which a job is added between the two statements of a rollup, so the status is wrong as the completion ends |
| JobRaces.OverlappingRollupsGoStale | internal/ci/report.go:250-260 | a reachable state with nothing under way in which a run's status is not that of its jobs |
| Ansi.TokensAreSource | internal/render/ansi.go:57-81 | the input is cut losslessly into text, control sequences in the form of ECMA-48 section 5.4, lone ESCs and an unterminated rest |
| Ansi.ApplySGR | internal/render/ansi.go:88-113 | the loop is the left fold of the codes, ECMA-48 section 8.3.117 as far as supported |
| Ansi.CodesAre | internal/render/ansi.go:93-112 | reset, bold and its end, the default color and the sixteen palette codes; other codes change nothing |
| Ansi.PaletteIs | internal/render/ansi.go:13-18 | the sixteen colors, and no other |
| Ansi.ListsAre | internal/render/ansi.go:88-97 | an empty list resets; the codes between semicolons are applied from left to right |
| Ansi.SequencesAre | internal/render/ansi.go:63-77 | a sequence ends at the first byte from 0x40 to 0x7e, and only `m` sets a style |
| Ansi.ToHtml | internal/render/ansi.go:29-84 | a strict HTML reader finds exactly the text outside control sequences, unescaped and in order, each byte in the style folded from all earlier SGR codes, with all spans closed |
| Ansi.FlushedReads | internal/render/ansi.go:34-55 | what flush writes reads as the text in the style, whatever follows it |
| Ansi.SpansAre | internal/render/ansi.go:34-55 | the markup around a piece of text: nothing for the plain style, or one span with bold, color or both |
| Ansi.EscapesAre | internal/render/ansi.go:38 | the five special characters are escaped, a NUL is replaced, and all others stand for themselves |
| Ansi.NulFreeIsShown | internal/render/ansi.go:34-38 | for input without NUL the reader sees the bytes themselves |
| Browse.GreedyRef | internal/webui/browse.go:396-429 | the answer is the longest slash-bounded prefix that names a branch or tag, a branch before a tag, and none exactly when there is no such prefix |
| Browse.ResolvesToRef | internal/webui/browse.go:396-429 | an answer is a branch under `refs/heads/`, or a tag under `refs/tags/` that no branch shadows, and the path is what follows it |
| Browse.ResolvesToLongest | internal/webui/browse.go:396-429 | no longer prefix up to a slash names a branch or tag, and without an answer none does |
| Browse.ResolvesUnique | internal/webui/browse.go:396-402 | the documented rule has one answer |
| Browse.TreeURLRoundTripIff | internal/webui/browse.go:260-268 | a printed URL resolves back to its ref and path exactly when no longer slash-bounded prefix of them names a ref |
| Browse.Crumbs | internal/webui/browse.go:645-664 | one crumb a segment: its name is the segment, its path the segments up to it, joined by slashes |
| Browse.CrumbKeepsRefIff | internal/webui/browse.go:396-429 | a breadcrumb URL of a resolved page resolves to the page's ref, branch or tag alike, exactly when no longer slash-bounded prefix of ref and crumb names a ref |
| Browse.CrumbsKeepRefIff | internal/webui/browse.go:645-664 | all breadcrumbs of a page do so exactly when no longer slash-bounded prefix of ref and trimmed path names a ref; that is so whenever the path does not start with a slash |
| Browse.CrumbCanLeaveRef | internal/webui/browse.go:645-664 | with a double slash after the ref a breadcrumb can resolve to another ref |

## Where the code and its documentation differ

The model follows the code.

- "No request has ended within 5 s" (docs/architecture/safety.md, section 1): taking the time
  and storing it are two steps (cmd/gitmote/main.go:336-337), so a delayed store shortens the
  quiet time by its delay (`Activity.LateStoreYieldsEarly`).
- "A size cap bounds each log, never silently" (docs/architecture/ci.md): the live buffer is cut
  silently when all of the output comes in one POST over the cap (`LiveLogs.LiveIsDurableIff`).
- Completion "is idempotent" (docs/architecture/ci.md): two completions that both read the job
  before either is recorded both write (`JobRaces.SecondCompletionReplaces`). An outcome is final
  exactly under the condition of `JobFinality.OutcomeFinalIff`.
- "If every job failed to trigger, it also marks the run error", and "failed" for a malformed
  file (internal/ci/dispatcher.go:228-233): a later rollup replaces either
  (`JobRaces.VerdictIsReplaced`); `JobVerdict.VerdictFinalIff` says when none can.
- The status and the log key of a job are recorded "together" (internal/meta/ci.go:264-265): the
  note of a trigger failure writes the status alone, whatever the job has come to meanwhile
  (`JobRaces.LateNoteReplaces`, `JobFinality.LogBelongsForGoodIff`).
- "Hydration runs first, so the object behind every ref is on disk"
  (internal/repo/materialize.go:214-216): a push that is committed between the listing of the
  objects and that of the refs is not (`PushCaches.PushBetweenListsDangles`,
  `PushCaches.MirroredIsHydrated`).
- A run is running "while any job is non-terminal" (internal/ci/report.go:246-249): the dispatch
  starts the first runner before it inserts the next job, so a run can pass with a job waiting
  (`JobRaces.JobAddedAfterRollup`), and overlapping rollups can leave any status
  (`JobRaces.OverlappingRollupsGoStale`). `JobStatus.StatusRightIff` and
  `JobStatus.RightAfterEach` say when the status is right.
- Breadcrumbs link "to the tree at that depth" (internal/webui/browse.go:642-644): with a double
  slash after the ref one can lead to another ref (`Browse.CrumbCanLeaveRef`), exactly under the
  condition of `Browse.CrumbsKeepRefIff`.
- `**` "matches any character" (internal/ci/triggers.go:134-137): not a newline
  (`Triggers.DoubleStarStopsAtNewline`, `Triggers.CompiledIsGlob`). Git admits no newline in a
  branch name.

## Left out

- Assumed, not modelled: git (receive-pack's connectivity check, `merge-base`, quarantine),
  SQLite's transactions, the object store, and s3lite's contract as internal/meta/meta.go:178-191
  states it.
- Repository names are taken as normalized. GetRepo strips ".git" (internal/meta/repos.go:47-49)
  while the lock, the object prefix and the cache directory use the name as requested.
- Time is one clock that does not run backwards; context timeouts appear as failures.
- PushSystem.Step: when one push names a ref twice, receive-pack's intermediate value on disk is
  not modelled, only the last one. Git clients do not send such pushes.
- PushSystem.Step: receive-pack's removal of a deleted ref from packed-refs and from the loose
  file is one step.
- Activity: requests for liveness probes and static assets, which take no lock; the two reads of
  the first idle check (the leader flag and the stamp) only guard the attempt.
- Activity.Instance.Track: waiting for the read lock is not modelled; the method runs once no
  yield holds it.
- Materialize.RepoDir.HydrateObjects: copies that go on after Stat fails, which the code does not
  wait for; the temporary files of atomic writes.
- ServerSecrets: the other tables of the database appear as one kind of write without effect.
- LiveLogs.Session.Run: a POST that fails drops its chunk; the theorem is about runs without
  dropped POSTs and without a sweep of the buffer.
- Triggers: patterns that are not valid UTF-8, for which the expression may not compile; the
  YAML parser itself.
- Jobs: rows are never deleted; a kill that loses unreplicated rows is the subject of Lease.
  Dispatch's choice of files, the minted tokens and the injected secrets are left out.
- JobHandlers.Ci.HandleComplete: the live buffer's Finish is modelled in LiveLogs, not here.
- Ansi.ToHtml: the bytes of one multi-byte character are separate cells of equal style.
- Browse: the HTTP routes, percent-encoding and the redirect to the ref list.
- HTTP handlers, sockets, JSON, templates, authentication, cryptography, markdown and
  highlighting: plumbing, library calls or small decision tables.
