# Deployment helpers: verified models

This project models the deployment half of the repository (the Python under `deploy/`) and
proves properties of the models with Dafny 4.11. `dafny verify dfyconfig.toml` checks all of it.

The helpers are crash-tolerant protocols: reserve durably, change one thing, look, then commit.
They act on GitHub's runner list, systemd units and cgroups, a few protected files and an
admission gate, while GitHub hands out jobs and the process can stop at any instruction.

How failures are modelled (`Effects`): a call returns, raises before or after it took effect, or
the process dies; `Raised` unwinds through `finally`, `Died` does not. Methods state what holds at
every exit, so what they promise for every outcome holds at every crash point. Objects with a
`quiet` flag have no failures when it is set; contracts under `quiet` say exactly when an operation
succeeds and what it leaves. Checks of code outside a model are named (`Check`) and answer as the
object's `agrees` says when it is quiet, so a refusal by such a check is covered as well.

| modules | what they model |
|---|---|
| `PoolModel`, `PoolLog`, `PoolSite`, `PoolReconcile` | The managed General Runner pool: the shared world and what can happen around Apply, the history of calls and the law each call obeys, the State/GitHub/Host objects, and `reconcile` |
| `PoolPages`, `PoolVerdict` | Reading GitHub's list page by page while it changes, and when a reading can call a busy member idle |
| `PoolInventory` | The read-only observer of the pool and its agreement with `reconcile` |
| `ProcessTree` | The classifier that accepts only idle runner chains in the process table |
| `Text`, `AclText`, `SlotIdentity` | From ACL bytes, account and group databases to who can reach a slot |
| `BoundedRecovery` | Receipt, archive and record of a continued production operation |
| `FileTree`, `Retirement`, `RetirementRuns` | `decommission`, `_complete` and `recover` on a filesystem of paths, one by one and in any sequence |
| `ConsumerDrift` | Restoring consumer bytes the gate authenticates |
| `GateMachine`, `Lifecycle`, `InstallGate` | The admission gate, the lifecycle composition over it, and capture and abort of an installation |
| `SlotLayout` | The derived slots, the member tables and the path-overlap test |

## What the pool proofs rest on

`PoolLog.Inv` holds in every reachable state. It says that the history is lawful (`Lawful1` gives
the law of each call at the state it hit), that pool.json is the last state written, and that
record, local markers and issued runner ids agree. `PoolReconcile.Operate` states what follows for
any number of Applies (`PoolLog.Sound`): no call harmed a job (as far as GitHub's list is concerned,
under the conditions below), config.sh ran at most once each way per record, readiness was earned,
binding and records evolved as coded. A call of `Site` that is not in the history did nothing, which
each of them states.

The environment (`EnvEvent`) may assign jobs to labelled runners, let listeners accept them, finish
jobs, start and end processes, connect and delete runners, register foreign ones under any name and
thaw a unit that is being stopped; it never edits pool.json, local markers or the labels of a listed
runner, GitHub never reuses an id, and a job of a pool member runs only while its runner is busy.
`PoolModel.SafeExactlyWhenDrained` says when such an environment can give a runner a job.

GitHub's list is read page by page while it changes (`PoolSite.Site.Runners`); every request is an
entry of the history. Two conditions on the requests of the pass under way say what a reading is
worth, for lists of any length otherwise:

- `Clean` for a member's name: each request belonged to a reading that began with at most one page
  (100 runners), or found no two listed runners of that name. What Apply concludes from a row it
  found (no labels, no job, both labels) needs no more, and neither does what it does about jobs:
  signal, unregister, forget, retire. `PoolVerdict.JudgesRightExactlyWhen` shows that this is the
  exact condition.
- `ShortLists`: each reading began with at most one page. Only what Apply concludes from finding
  nothing needs it, which is that the member has no runner on GitHub.
  `PoolPages.MissesNobodyExactlyWhen` shows that this is the exact condition.

## Findings

- `GitHub.pages` checks only the final count. An accepted reading has every runner that was listed
  throughout if and only if the first request sees at most 100 runners
  (`PoolPages.MissesNobodyExactlyWhen`); for every longer list one runner leaving and one joining
  between two requests hides one that was listed throughout (`PoolPages.Overtaken`).
- The same gap can make draining take a busy member for an idle one, but only when somebody else's
  runner of the same name joins meanwhile: for every list of more than one page with a busy member,
  alone in its name, and an idle runner, `PoolVerdict.BusyReadAsIdle` gives the events and the order
  of the answers; without a namesake, or with one page, it cannot happen
  (`PoolVerdict.JudgesRightExactlyWhen`).
- `restore` closes the gate before it looks for a leftover backup of the same operation
  (deploy/consumer_drift.py:301-312), so such a leftover, or a leftover temporary file, ends in a
  refusal with the gate closed and nothing restored; `ConsumerDrift.Restore` says exactly when.
- `restore` removes a leftover staged file of its operation when it refuses because of it
  (deploy/consumer_drift.py:258-259, 319-321): `ConsumerDrift.RestoreTwice` shows that the next run
  goes through.
- `decommission` needs at least one unit: with none it raises at deploy/clean_reinstall.py:721,
  after its reservations, which stay behind; `Retirement.Decommission` states it.
- A bounded recovery without an original record relies on the production locks: between validation
  and finalisation nobody else may create the record (deploy/bounded_recovery.py:523-526, 569-570).
- The idle-worker classifier does not compare the main processes of the units. An accepted table
  has the wanted shape if and only if they differ (`ProcessTree.Exact`). They do where every process
  is in one cgroup (`ProcessTree.OneGroupMeansDistinct`); with a process in the cgroups of two units
  under different controllers the checks accept two units that share one run.sh
  (`ProcessTree.SharedIsAccepted`, `ProcessTree.TwoUnitsOneMain`).
- `identities` looks accounts up by name in dictionaries, where a later entry replaces an earlier one
  (deploy/execution_topology.py:152-158). An entry hidden in this way can have any group, and the
  databases stay accepted (`SlotIdentity.ShadowIsAccepted`); it gets into a slot's work root if and
  only if that group is the work group (`SlotIdentity.ShadowReachesExactlyWhen`).

## Model

| member | source | states |
|---|---|---|
| PoolModel.EveryRunDrifts | deploy/managed_pool.py:305-359 | Any sequence of outside events (GitHub assigning jobs to labelled runners, listeners accepting them, jobs finishing, processes starting and exiting, runners connecting, foreign runners appearing) changes only what `Drift` allows: a frozen cgroup does not move, a stopped unit only loses processes, an unlabelled idle runner stays idle, pool.json, local markers, labels and issued ids stay |
| PoolModel.SafeExactlyWhenDrained | deploy/managed_pool.py:474-485 | No run of outside events gives a listed runner a job if and only if its labels are gone and it is not busy: why draining removes the labels before it looks |
| PoolLog.AtMostOnce | deploy/managed_pool.py:445-448 | In every lawful history, crashes included, config.sh registers at most once and removes at most once per lifetime of a member record |
| PoolLog.RegistersOnlyOnce | deploy/managed_pool.py:442-448 | In every lawful history, when a registration was started the reservation was durable, no local marker existed and nothing had been registered under it; and, with short lists, no runner this pool registered for the member was on GitHub |
| PoolLog.BindingNeverChanges | deploy/managed_pool.py:397-399 | The binding in pool.json is the same in all durable states of all Applies |
| PoolLog.RecordLife | deploy/managed_pool.py:451-496 | While a record lives its runner id is fixed once set, it leaves `register` only as `registered`, and never leaves `remove` |
| PoolLog.RunnerIdsDistinct | deploy/managed_pool.py:452-455 | In every reachable state two members never share a runner id |
| PoolLog.NoLiveJobHarmed | deploy/managed_pool.py:305-359 | In every lawful history, whenever a member was signalled, unregistered, locally forgotten or retired: the signal hit a frozen cgroup of idle listener processes with attempts idle, after a remote read that found the member idle with no freeze or thaw since; the others hit a dead unit; and, as long as the name was clean, no job was accepted by the member, and none was assigned to its runner or could be any more |
| PoolLog.LawfulIsSound | deploy/managed_pool.py:391-498 | Every history of lawful calls is sound as a whole: all of its calls were harmless, at most one registration and one removal per record life, and between any two points binding and records evolved as coded |
| PoolLog.IdleReadFound | deploy/managed_pool.py:482-485 | Behind every signal of every lawful history there is a remote read that found the member idle, made after its last freeze began, with no freeze or thaw in between |
| PoolLog.ReadyIsEarned | deploy/managed_pool.py:469-471 | A record turns `ready` only when the very last thing seen was the member online with its own unit active under the recorded registration |
| PoolLog.WriteKeeps | deploy/managed_pool.py:110-126 | A write along the phase graph keeps the invariant that ties pool.json, local markers, GitHub and the history together |
| PoolLog.RegisteringKeeps | deploy/managed_pool.py:249-261 | However far config.sh got when it ended, the invariant still holds |
| PoolLog.DriftKeeps | deploy/managed_pool.py:391-498 | No outside event breaks the invariant |
| PoolSite.Site.Write | deploy/managed_pool.py:110-126 | After any outcome pool.json is the old state or the whole new one; on return it is the new one |
| PoolSite.Site.Runners | deploy/managed_pool.py:148-162 | The page loop over a list that changes between requests: every row was true when read and still bounds labels and busyness, there are as many rows as are listed at the end; if the list was short at first whoever was there before and still is was not missed; as long as a name is clean the same holds or a row of that name is its only bearer |
| PoolSite.Site.Observe | deploy/managed_pool.py:411-414 | On return the answer is a row of that name that was true when read; with short lists, or with a row found under a clean name, every runner of that name that was there before and still is, is the one found; on a quiet site exactly the one listed, or none |
| PoolSite.CoversAlone | deploy/managed_pool.py:482-484 | However long the list: if the rows of a name were alone in it when they were listed, whoever bears the name and was there throughout is the row found |
| PoolSite.Site.RemoteAbsent | deploy/managed_pool.py:426-429 | Answers true, with short lists, only when the recorded runner is no longer listed; on a quiet site exactly when neither name nor id is listed |
| PoolSite.Site.LocalRegistration | deploy/managed_pool.py:219-243 | Answers the id the local files bind to the member, nothing if there is no marker at all, and raises on any mixture |
| PoolModel.RegistrationMeans | deploy/managed_pool.py:219-243 | No file at all is no registration, a bound `.runner` of this very member with its credentials is one, and every other combination is ambiguous |
| PoolSite.Site.Configure | deploy/managed_pool.py:249-261 | config.sh may end after the key, the remote runner, `.runner` or `.credentials`; the invariant holds in each case |
| PoolSite.Site.Unconfigure | deploy/managed_pool.py:249-261 | config.sh remove may end after the remote deletion or between local deletions; it needs a dead unit and phase `remove`, and the runner has no job and can get none if the removal was reserved under a clean name |
| PoolSite.Site.StopIdle | deploy/managed_pool.py:305-359 | Answers true only when nothing of the unit is left; unless the process died, no successful freeze is left without a thaw attempt; on a quiet site exactly when it answers, what it leaves of the unit, and every call it makes: an active unit is frozen, an idle one signalled, its stop queued, and either way it is thawed |
| PoolSite.Site.StopFrozen | deploy/managed_pool.py:327-349 | Between freeze and thaw SIGTERM is sent only after the cgroup, the process list and the remote read prove idleness; on a quiet site SIGTERM and then the stop are issued exactly when the frozen unit holds only idle runner processes and its one runner shows no job, and nothing otherwise |
| PoolSite.Site.RemoteIdle | deploy/managed_pool.py:482-484 | Answers true only when the row found shows no job; as long as the name is clean, whatever the length of the list, the member then has none assigned and gets none |
| PoolSite.IdleMeansDrained | deploy/managed_pool.py:482-485 | A reading that covers the member and shows its row without labels and not busy leaves its runner without a job for good |
| PoolSite.DrainedMeansNoJob | deploy/managed_pool.py:305-310 | A recorded member whose runner is drained runs no accepted job either, whatever its processes |
| PoolReconcile.RegisterNew | deploy/managed_pool.py:442-450 | Reserves durably before config.sh runs; the reservation is exactly the record without an id |
| PoolReconcile.Adopt | deploy/managed_pool.py:451-455 | A reservation becomes `registered` only when local files and GitHub name the same id, and with that id; on a quiet site exactly then |
| PoolReconcile.Identify | deploy/managed_pool.py:440-457 | Ends with a runner that the record, the local files and the issue history all give to this member, seen in the group; on a quiet site a recorded member is identified exactly when the local files and GitHub name one runner and the record the same one or none yet, without any call unless it was only reserved, and the runner of a new member is not online yet |
| PoolReconcile.WaitReady | deploy/managed_pool.py:379-388 | Returns only right after seeing the member ready; on a quiet site exactly when the member serves |
| PoolReconcile.BringUp | deploy/managed_pool.py:458-473 | A wanted member ends recorded `ready`, confirmed and, under a clean name, carrying both labels; on a quiet site exactly when its runner is online and its unit up, or down and started by this pass |
| PoolReconcile.Unlabel | deploy/managed_pool.py:476-485 | Under a clean name, however long the list, the runner has no labels on return, and the answer "not busy" means that it has no job and gets none |
| PoolReconcile.DrainMember | deploy/managed_pool.py:474-497 | An unwanted member ends either without record and local markers, or `draining`, confirmed and, under a clean name, without custom labels; on a quiet site exactly when it is busy or its unit is not just changing, it is retired exactly when it is idle and its unit dead, and an idle active unit is signalled and stopped |
| PoolReconcile.RemoveIfIdle | deploy/managed_pool.py:485-497 | On a quiet site it succeeds exactly when the unit can be judged and the listing is not ambiguous, and retires the member exactly when nothing of the unit is left |
| PoolReconcile.RemoveDead | deploy/managed_pool.py:488-496 | Removal is reserved before config.sh remove runs, and the record goes only after both stores were seen empty; on a quiet site exactly when nobody else is listed under the name |
| PoolReconcile.FinishRemoval | deploy/managed_pool.py:423-439 | An interrupted removal is finished, on a quiet site exactly, when GitHub lists neither the name nor the id and nothing of the unit is left, and leaves neither markers nor record |
| PoolReconcile.Claim | deploy/managed_pool.py:403-407 | Every listed repository gets this namespace, or one of them belongs to another and nothing is claimed |
| PoolReconcile.Begin | deploy/managed_pool.py:393-409 | A request that conflicts with the durable state writes nothing and calls nothing; an admissible one changes only claims and capacity |
| PoolReconcile.Step | deploy/managed_pool.py:417-497 | One member: its fate is allowed by its old record and the capacity, and the world shows that fate; on a quiet site, for every member, exactly when the turn succeeds (`Settles`: never for a new wanted one, whose listener has yet to connect), with which fate, and every call it makes outside pool.json, in order (`StepActs`); units and runners of other members are as before |
| PoolReconcile.Reconcile | deploy/managed_pool.py:391-498 | However it ends, the three stores agree and the whole history is sound; on return every member met an allowed fate that the world still shows, and the report is exactly those fates; on a quiet site it returns exactly when the request is admissible and every member settles in the world of the start, each member then met exactly the fate it had to, and the calls of the pass are exactly those of its members in turn; otherwise it stops at the first that does not settle, after all calls of the members before it |
| PoolReconcile.ReportMeans | deploy/managed_pool.py:416-498 | From the report alone: who is ready, draining or retired, that a wanted member is ready or was retired from a prior `remove` record, and that an unwanted one has no record or is reported draining |
| PoolReconcile.ListsDisjoint | deploy/managed_pool.py:416-498 | No member is in two of the three lists |
| PoolReconcile.ListedExactly | deploy/managed_pool.py:416-498 | A member is listed under a fate exactly when it met that fate |
| PoolReconcile.Operate | deploy/managed_pool.py:391-498 | After any number of Applies with any requests, each ended anywhere, with outside events before each and inside each, the three stores agree and the whole history is sound |
| PoolPages.Pages | deploy/managed_pool.py:148-159 | Accepts exactly when the first short page is reached and the number of rows equals the count that page reports |
| PoolLog.ConditionsMean | deploy/managed_pool.py:148-159 | What `ShortLists` and `Clean` say: each is a condition on every request of the pass under way, and on nothing else |
| PoolPages.SteadyPages | deploy/managed_pool.py:148-159 | While the list does not change, the result is the whole list |
| PoolPages.WholeExactlyWhen | deploy/managed_pool.py:148-159 | The result is the list the last request saw if and only if every page read is that list's page |
| PoolPages.MissesNobodyExactlyWhen | deploy/managed_pool.py:148-159 | An accepted reading has every runner that was listed at every request, however the list changes, if and only if the first request sees at most one page |
| PoolPages.NeverMistakenExactlyWhen | deploy/managed_pool.py:148-159 | An accepted reading that finds one row under the name of a runner listed at every request has found that runner, however the list changes, if and only if it was on the first page of the first request or nobody else may bear its name |
| PoolPages.MistakesNobodyExactlyWhen | deploy/managed_pool.py:148-159 | The same for all runners at once: if and only if the first request sees at most one page or no name is shared |
| PoolPages.Overtaken | deploy/managed_pool.py:148-159 | For every longer list, of any number of pages, one change between two requests makes an accepted reading lack a runner that was listed at every request |
| PoolPages.CanMissARunner | deploy/managed_pool.py:148-159 | A concrete change between two requests after which an accepted result lacks a runner that was listed throughout |
| PoolVerdict.JudgesRightExactlyWhen | deploy/managed_pool.py:474-485 | For a busy member alone in its name at the first request, and any run of outside events between the requests: a reading that finds its name idle and unlabelled is right about it if and only if the first request sees at most one page or no second runner bears the name at a later request |
| PoolVerdict.BusyReadAsIdle | deploy/managed_pool.py:474-485 | The failing input for every list of more than one page: an idle runner leaves after the first request and a namesake without labels joins; the reading is accepted, finds the namesake only, and the member is busy throughout |
| PoolInventory.ManagedPool | deploy/inventory.py:289-352 | For every configuration and world: the verdict inventory reaches from its own tables, and the rows of the members it looks at, in order, up to the first one whose record and local files contradict each other |
| PoolInventory.AgreesAfterReturn | deploy/inventory.py:288-350 | For every configuration with a contract: after a pass that returned, the verdict of the observer with its own tables is `reusable` if every desired member has a record and `missing` otherwise, never `invalid` |
| PoolInventory.HalfWayIsInvalid | deploy/inventory.py:334-335 | Any record in register, registered, starting or remove makes the verdict `invalid`, at any crash point |
| PoolInventory.ForeignIsInvalid | deploy/inventory.py:306-323 | A pool.json of another binding, or with a record of nobody in the table, makes the verdict invalid |
| ProcessTree.WorkersQuiescent | deploy/clean_reinstall.py:340-448 | It accepts and the main processes differ exactly when the table is quiet: every protected process belongs to the three-process chain of a unit, every unit has its chain, nothing of a stopped unit is left; where each process is in one cgroup acceptance alone suffices |
| ProcessTree.Exact | deploy/clean_reinstall.py:430-448 | A table has the global shape if and only if the local checks hold and the units have different main processes |
| ProcessTree.OneGroupMeansDistinct | deploy/clean_reinstall.py:305-314 | Where every process is in one cgroup, accepted units have different main processes |
| ProcessTree.SharedIsAccepted | deploy/clean_reinstall.py:430-448 | The checks accept every table in which one run.sh, in the cgroups of two units, is the main process of both and each has its helper and listener below it; it has not the wanted shape |
| ProcessTree.TwoUnitsOneMain | deploy/clean_reinstall.py:305-314 | There is such a table, with the units as the inspection hands them on: cgroups `/system.slice/<unit>`, install roots under `/opt/<namespace>/`; five processes, the first in the other unit's cgroup for one controller |
| ProcessTree.DisjointUnion | deploy/clean_reinstall.py:430-448 | In an accepted table the chains of different units are disjoint, have three processes each, and together are exactly the protected processes |
| ProcessTree.StrangerOrIdle | deploy/clean_reinstall.py:356-424 | In an accepted table every process is part of an idle chain or, as far as it could be read, has no protected id and is in no unit's and no stopped unit's cgroup |
| ProcessTree.StrangersIgnored | deploy/clean_reinstall.py:356-384 | One more process of the latter kind does not change the answer |
| ProcessTree.CommandLines | deploy/clean_reinstall.py:401-420 | Exactly the command lines the three roles may have, written from the root or relative to it |
| ProcessTree.CheckRooted | deploy/clean_reinstall.py:440-448 | The parent walk ends on any parent map and decides exactly whether a seat is rooted |
| ProcessTree.RootedMeans | deploy/clean_reinstall.py:440-448 | Rooted seats force the tree: run.sh is a main process, a helper's parent is its main process, a listener's parent is a helper with the same main process |
| ProcessTree.Collect | deploy/clean_reinstall.py:355-429 | The loop over /proc yields exactly the seats and the members of every unit's subtree |
| ProcessTree.Classify | deploy/clean_reinstall.py:357-423 | A process is taken exactly when it is protected and sits alone in one unit with an idle role |
| AclText.DecodeExact | deploy/execution_topology.py:212-239 | An attribute value decodes to these entries if and only if it is their encoding: nothing else is accepted and nothing is lost |
| AclText.NativeAcl | deploy/execution_topology.py:212-239 | Produces text exactly when both attributes decode, one line per entry, default entries marked |
| AclText.AclSafe | deploy/execution_topology.py:193-209 | Accepts exactly when every line of the text passes |
| AclText.FieldsMean | deploy/execution_topology.py:199-210 | A line's content passes if and only if it is three fields without a fourth, a known word, no principal or a declared number unless the rights are empty, three rights of the known letters, and nothing for others |
| AclText.LinesMean | deploy/execution_topology.py:195 | A text is cut at every line break, a carriage return and a line feed together being one |
| AclText.StripMeans | deploy/execution_topology.py:196 | Exactly the blanks at both ends of a line are dropped |
| AclText.TextCheckIsByteCheck | deploy/execution_topology.py:193-239 | For every entry list the text check of the decoded text accepts exactly when `other` grants nothing and every named entry with rights names an allowed id |
| AclText.Judge | deploy/execution_topology.py:193-239 | From raw bytes to verdict: well formed and every entry bounded, if and only if accepted |
| Text.DecimalRoundTrip | deploy/execution_topology.py:208-209 | Printing a number in decimal and reading it back gives the number |
| Text.ValueRoundTrip | deploy/execution_topology.py:209-210 | Digits without a leading zero are the number whose print they are |
| Text.SplitBoth | deploy/execution_topology.py:202-203 | Splitting a text at a separator splits both sides of that separator |
| SlotIdentity.NoForeignGroup | deploy/execution_topology.py:144-190 | In accepted databases no account of one slot belongs, by number or by name, to any group of another slot, and no other account has its number |
| SlotIdentity.NumbersExactly | deploy/execution_topology.py:151-175 | The numeric checks accept exactly the databases in which the users and groups of interest exist under distinct names, are not root's, and share no number with any entry, hidden ones included |
| SlotIdentity.OrdinaryAccepted | deploy/execution_topology.py:144-190 | Every host on which the slots were set up as intended (distinct names and numbers, each slot user in its own group and its slot's work group only) is accepted |
| SlotIdentity.AcceptedBoundary | deploy/execution_topology.py:267-281 | On an accepted directory only the declared users and members of the declared groups get any permission under mode and ACL evaluation |
| SlotIdentity.SlotReach | deploy/execution_topology.py:242-281 | End to end from bytes and databases: whoever gets any permission on a slot directory is its occupant, has the owner uid, is a member of group 0, or has an account entry that a later one of the same name hides from the checks |
| SlotIdentity.SlotsIsolated | deploy/execution_topology.py:242-281 | No account of one slot gets any permission on another slot's directories, unless it is the owner account |
| SlotIdentity.OccupantsReach | deploy/execution_topology.py:252-259 | A directory made as the table of `inspect` asks, without an ACL, is accepted and gives every account the place belongs to all permissions |
| SlotIdentity.PlainInspected | deploy/execution_topology.py:252-281 | A host with accepted identities and such directories passes `inspect` |
| SlotIdentity.ShadowReachesExactlyWhen | deploy/execution_topology.py:152-190 | In an accepted topology a hidden account entry gets into a work root without an ACL if and only if its own group is the work group |
| SlotIdentity.ShadowIsAccepted | deploy/execution_topology.py:152-190 | The failing input: accepted databases stay accepted when a hidden entry with a fresh number and any group is put before them |
| BoundedRecovery.Inspect | deploy/bounded_recovery.py:340-414 | Writes nothing; answers a fresh proof with nothing reserved, or the receipt that is reserved now; on a quiet host it answers exactly when the stated conditions hold |
| BoundedRecovery.Begin | deploy/bounded_recovery.py:431-445 | Re-entered with the reserved receipt it writes nothing and returns it; a second receipt is never created |
| BoundedRecovery.Revalidate | deploy/bounded_recovery.py:472-497 | Reads only; succeeds on a quiet host exactly when receipt, evidence, backend and gate still agree |
| BoundedRecovery.BackendValidate | deploy/bounded_recovery.py:508-542 | Reads only; exact conditions on receipt, record and gate |
| BoundedRecovery.BackendFinalize | deploy/bounded_recovery.py:562-588 | Never replays: a receipt past `reserved` or an existing archive stops it without an effect; otherwise archive, receipt and record end as promised |
| BoundedRecovery.Finalize | deploy/bounded_recovery.py:591-609 | Completes exactly from `backend-complete` with no active record and a verified gate |
| BoundedRecovery.NothingLost | deploy/bounded_recovery.py:562-588 | For every receipt ever written: the bytes that were the active record when it was reserved are now in the record or in the archive, and no archive exists where there were none |
| BoundedRecovery.ReceiptMonotone | deploy/bounded_recovery.py:448-469 | Over any history the receipt only moves reserved, backend-complete, complete, and no other field changes |
| BoundedRecovery.AtMostOnce | deploy/bounded_recovery.py:431-445 | At most one receipt is created per operation and the active record is removed at most once |
| BoundedRecovery.RemovalIsSafe | deploy/bounded_recovery.py:571-587 | The active record is removed only when the archive holds it byte for byte, or, without an original, when it is the apply record of the desired revision |
| BoundedRecovery.ReservationIsProven | deploy/bounded_recovery.py:431-445 | A receipt is created only after a look that showed the record, the gate and the consumer file it keeps as evidence, and neither receipt nor archive |
| BoundedRecovery.CompletionIsProven | deploy/bounded_recovery.py:591-609 | `complete` is written only after a look that showed no record and the gate verified at the desired revision with the original activity snapshot |
| BoundedRecovery.Operate | deploy/bounded_recovery.py:340-609 | After any calls with any arguments, each cut short anywhere, torn archive writes included: nothing was lost since any point of the history, every reservation and completion was proven, every removal safe, one receipt, at most one removal, the receipt only moved forward |
| BoundedRecovery.RunToCompletion | deploy/bounded_recovery.py:431-609 | From a retained record (or none), a gate that requires recovery of this operation and no archive, on a quiet host the whole continuation goes through to a complete receipt and an archived original |
| Retirement.Decommission | deploy/clean_reinstall.py:620-748 | At every crash point trees and markers are in one of their places and the journal's stage says how far the moves came; nothing changes before the journal exists; every unit action was announced in the journal; an earlier reservation, an existing archive, a blocker or a failed check stops it before any effect; without a unit it refuses and both reservations stay; otherwise every unit is stopped, and it goes through unless a call or the last check fails; then the runner roots are back below their leading directories |
| Retirement.ExactlyOnce | deploy/clean_reinstall.py:723-743 | Each runner tree, each other runtime file, each directory that does not only lead to a runner root, and each marker exists exactly once, unchanged, at its place or in the archive |
| Retirement.StopUnits | deploy/clean_reinstall.py:713-717 | Units are stopped and disabled in order, each action named in the durable journal first |
| Retirement.MovedRunner | deploy/clean_reinstall.py:736-743 | Bringing one runner root back moves exactly that subtree |
| Retirement.ReservationBlocks | deploy/intent_install.py:161-188 | While the journal or the operation record exists, plan demands a diagnosis whatever else inventory found |
| Retirement.CompleteRetirement | deploy/clean_reinstall.py:751-781 | The journal is in exactly one place at every crash point, still saying what it said; it is filed away only without a pending operation, on a quiet host exactly then |
| Retirement.FinishedMeans | deploy/clean_reinstall.py:757-759 | The journal that may be completed or recovered is the one of this very retirement at its last stage |
| Retirement.Recover | deploy/clean_reinstall.py:998-1147 | Keeps both records until byte-identical copies exist, removes the journal first, refuses without any effect once a copy exists; the running timer and socket are stopped, in this order, before a record is touched, and nothing else is; exactly when it succeeds on a quiet host |
| Retirement.RunnerSpecsApart | deploy/clean_reinstall.py:105-114 | The runner roots of any configuration with distinct slot ids lie apart |
| RetirementRuns.Operate | deploy/clean_reinstall.py:620-1147 | After any sequence of the three for one retirement, each cut off anywhere, with the operation record coming and going in between: if there was no archive at the start, each runner tree, file, directory and marker exists exactly once, unchanged; at most one `decommission` changed anything, and without one only records and their copies did; once a journal existed it is active, filed or copied, and from then on `decommission` does nothing |
| FileTree.RenamedGet | deploy/clean_reinstall.py:725-741 | A rename moves one subtree, empties its old place and touches nothing else |
| ConsumerDrift.Restore | deploy/consumer_drift.py:175-322 | At every crash point the live bytes are the observed ones or a candidate with the gate's digest, in the latter case with the gate closed by this operation and the original in the backup; a gate that is not idle is never replayed; on a quiet host it restores exactly when the run is eligible, nothing is left over and the gate authenticates the requested bytes or some context, and then the live bytes are the requested ones if the gate authenticates them and otherwise the first context it authenticates; exactly when the gate ends closed with nothing restored, and what a leftover staged file does |
| ConsumerDrift.RestoreTwice | deploy/consumer_drift.py:257-322 | After a refusal because of a leftover staged file the next run goes through, unless a backup or temporary file is left over or no context is authentic |
| ConsumerDrift.FindContext | deploy/consumer_drift.py:262-277 | On a quiet host: the requested bytes if their digest is the gate's, otherwise the first such context, and a refusal exactly when there is none |
| ConsumerDrift.Station.Publish | deploy/consumer_drift.py:44-61 | The live file is the old or the whole new bytes, and no temporary file is left unless the process died |
| ConsumerDrift.Operate | deploy/consumer_drift.py:175-322 | Over any number of runs nothing that was ever live is lost |
| ConsumerDrift.HalfWayIsClosed | deploy/consumer_drift.py:251-254 | A run that replaced the file left the gate closed and the original in the backup |
| InstallGate.Target.Create | deploy/install_preflight.py:215-301 | An earlier stage is kept under a new name, never removed, and not moved while its Writer guard runs or holds its lock, or if it is of another operation or cannot be read; a dead guard of this operation does not keep it; exactly when it succeeds on a quiet target |
| InstallGate.Target.Capture | deploy/install_preflight.py:305-326 | Records the exact gate bytes and the critical state once, only from an idle open gate |
| InstallGate.Target.Abort | deploy/install_preflight.py:327-369 | Writes the captured bytes back exactly when all its conditions hold; on every other path the gate file is untouched |
| InstallGate.Prepared.BeginCutover | deploy/relay-deploy.py:1103-1113 | The cutover begins only with the Writer lock held (unless nothing is installed yet) and, after a capture, only while that capture still matches the installation; on a quiet target exactly then, if the final checks agree; a call that stops leaves the flag as it was and the gate untouched |
| InstallGate.Prepared.Abort | deploy/install_preflight.py:634-652 | Refused without an effect before a capture or after the cutover began; on a quiet target the captured bytes are back exactly when the lock can be held, the old consumer is proven and the gate is abortable |
| InstallGate.ClosedIsAbortable | deploy/install_preflight.py:363-366 | After any closing commands of one operation the gate is open as it was or in a state abort restores |
| InstallGate.HandleFailure | deploy/relay-deploy.py:1249-1272 | After a failed preparation: abort, release the Writer lock, and, unless the old gate is back, record that recovery is required; exactly which on a quiet target |
| InstallGate.CaptureAndAbort | deploy/install_preflight.py:305-369 | Capture, any closing commands, abort: the gate file holds its original bytes again |
| InstallGate.CutoverOrAbort | deploy/relay-deploy.py:1065-1113 | Capture, closing commands one by one, then the cutover or else the failure handler: once the cutover began the gate is as the commands left it; on a quiet target it begins exactly when the gate took every command, the lock was free and the final checks agree; otherwise the captured bytes are back exactly when the gate was closed, the lock free, the old consumer proven and its digest the captured one, and else the closed gate says that recovery is required |
| GateMachine.CommandsKeep | controller/src/admission-control.mjs:446-562 | Every gate command keeps the shape of the gate; only a resume of a verified, settled gate by its operation opens it; only quiesce closes it |
| GateMachine.OthersCannotMove | controller/src/admission-control.mjs:229-232 | Whatever other operations ask, a closed gate stays as its operation left it |
| GateMachine.EdgesExactly | controller/src/admission-control.mjs:462-562 | For the operation a gate is bound to, and for everybody while it is open, a command that changes the phase from one to another exists exactly for the edges of the lifecycle |
| GateMachine.Refusals | controller/src/admission-control.mjs:229-232 | A closed gate refuses every command of another operation and a second quiesce for another target, an open one everything but quiesce; pending work stops drain, resume, recovery-target and the consumer transition |
| GateMachine.Repeatable | controller/src/admission-control.mjs:462-562 | A command whose answer was lost can be sent again and changes nothing more; resume is the only exception |
| GateMachine.OnlyChanges | controller/src/admission-control.mjs:511-549 | On a closed gate the activity snapshot is taken once and only while applying, the target moves only under recovery, the digest only between drain and verification |
| GateMachine.AlwaysAWayOut | controller/src/admission-control.mjs:524-562 | From every closed phase the owner can bring the gate back to open through recovery-required, applying, verified and resume |
| Lifecycle.Host.Execute | deploy/lifecycle.py:18-60 | For every pattern of failures and lost answers: a run is a prefix of apply, applied, verified, recorded, resume; once closed the gate is open only if the resume took effect; stop ends drained; a run that raises after it began to apply issues recovery-required last, and on a steady gate that was not resumed the gate then says so and is still the operation's; without failures and with nothing pending exactly when it succeeds, and it ends open |
| Lifecycle.OrderMeans | deploy/lifecycle.py:44-51 | That order means: apply at most once, resume only after apply returned, verify held and the verified phase was recorded |
| SlotLayout.DeriveSlots | deploy/config.py:75-99 | Fills in the 32 derived slots, or refuses when other ones were supplied |
| SlotLayout.DerivedIsStable | deploy/config.py:75-99 | Deriving again changes nothing, and the desired capacity plays no part |
| SlotLayout.SlotsDistinct | deploy/config.py:89-97 | Slot ids, runner names and service names are pairwise distinct |
| SlotLayout.TablesAgree | deploy/inventory.py:309-318 | For every configuration with a contract, the binding of `pool_contract` is the one inventory computes for itself; the root and work folder inventory looks at and the service `execution_slot_inputs` reads back out of the slot id are the member's |
| SlotLayout.ContractExactlyWhen | deploy/config.py:66-72 | There is a contract exactly when the anchor repository, or without one the home repository, is one the consumer is configured for |
| SlotLayout.MembersDistinct | deploy/managed_pool.py:68-73 | The members of every contract have distinct ids and names, as reconcile needs |
| SlotLayout.SlotRootsApart | deploy/config.py:297-304 | Roots of different slots never overlap, nor does anything below them |
| SlotLayout.SlotPathsApart | deploy/config.py:297-304 | Of the derived slots after the first, no two of the seven paths overlap, within one slot or between two |
| SlotLayout.SlotPathsBelow | deploy/config.py:297-304 | Each of the seven paths lies below the directory of its own slot id under /opt, /etc or /var/lib; those of the first slot are the configured ones |
| SlotLayout.MemberRootsApart | deploy/managed_pool.py:68-72 | The install roots and state directories of two members never overlap |
| SlotLayout.OverlapIsNesting | deploy/config.py:244-246 | The string test on absolute paths is the component-prefix test |
| SlotLayout.NoCommonDescendant | deploy/config.py:244-246 | Two paths pass the test if and only if no path lies below both |
| SlotLayout.CheckPaths | deploy/config.py:237-246 | Accepts exactly when no owned path overlaps a protected one; for absolute paths exactly when nothing lies below an owned and a protected path at once |

## Left out

- PoolSite.Site.Observe: that nobody bears the name is promised for short lists only, because the code promises no more (`PoolPages.MissesNobodyExactlyWhen`); GitHub's answer to one request is taken to be the whole list of that moment, in any order.
- PoolLog.NoLiveJobHarmed: nothing is promised about jobs GitHub assigned when a long list shows a namesake of the member, which is where the code fails; see Findings.
- PoolLog.RegistersOnlyOnce: that nothing of the member is on GitHub is promised for short lists only.
- PoolSite.Site.Retire: the deleted unit file and trees are not modelled beyond the record and the local markers.
- PoolSite.Site.Freeze: a freeze whose success answer was lost leaves the unit frozen without a thaw attempt, as the code does; only freezes that returned are promised a thaw.
- PoolSite.Site.RequestStop: a queued stop is taken to leave `active` at once, and `disable` is not a state of its own.
- PoolSite.Site.Ask: runner-group policy, eligibility, tokens and attempt status are yes-or-no answers; the history records them.
- A reboot of the host between Applies, which would start enabled units, is not an event of the environment.
- `installation_plan` and `preflight` of the pool, App JWT signing, HTTP and token handling: calls that may succeed, fail, or succeed and report failure.
- File modes, owners, stamps, regular expressions and size limits: one yes-or-no check where they guard a step.
- SHA-256 is a function, base64 the identity and JSON structured values, apart from files whose bytes matter.
- ProcessTree.WorkersQuiescent: a process that vanishes is one that could be read up to some point; the wrapper for pool installations (deploy/clean_reinstall.py:324-337) is not modelled.
- AclText.AclSafe: only the ASCII digits count as decimal digits, and other characters are Unicode scalar values without normalisation.
- SlotIdentity.SlotReach: nothing is promised for account entries hidden by a later one of the same name, which is where the checks fail; superuser override, parent directories and the diagnostics root are not part of it; the shared-pool variant makes no isolation claim.
- BoundedRecovery.Inspect: the installed release, its graph and credentials are digests that may change at any moment; nobody else writes receipt, archive or an existing record while an operation is continued.
- RetirementRuns.Operate: nobody else writes the install root, the archive or the journal between the calls; a new installation between them is not modelled.
- Retirement.Decommission: nobody else writes the trees it moves; modes, ownership and fsync are not modelled.
- Retirement.Recover: the many read-only proofs before the first write are one yes-or-no answer; `continuation` is not modelled.
- ConsumerDrift.Restore: the private mount view and the resource proof are yes-or-no answers; nobody else writes the consumer file.
- InstallGate.Target.Abort: temporary files of an interrupted gate write are not modelled.
- InstallGate.Prepared.BeginCutover: the consumer proof, the host preflight and the stage identity of `final` are one yes-or-no answer.
- InstallGate.CutoverOrAbort: the paths of an authorised lifecycle recovery and of a serial transition are not modelled; nobody else changes the gate in between.
- InstallGate.Target.Capture: what `critical_state` observes is one value per flag setting.
- Lifecycle.Host.Execute: `initialize`, `complete` and `reserve` of the gate are not commands of the composition.
- `host_preflight.py`, `apt_preflight.py`, `git_source_locator.py`, `actions_policy.py`, `installed_config.py`: lists of independent checks that would only add easy members.
- `pool_eligibility`, `writer_lock_lease`, the Node controller beyond the gate, and the authority contracts are not part of this model.
- Wall-clock time: deadlines are budgets that run down.
