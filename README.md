# Embed-cartridges job, modelled in Dafny

This project models the job in the JBoss Tools OpenShift plugin that brings an
application's embedded cartridges in line with a selection of cartridges. It also
proves properties of that model. A cartridge is an add-on service such as mysql,
postgresql, mongodb or phpmyadmin.

A run of the job does the following:
- If the progress monitor is already cancelled, it returns the cancel status.
- Otherwise it reads the embedded cartridges and computes the ones that are no
  longer selected.
- It sorts that list with a priority comparator. Then it removes the cartridges
  one at a time. Before each one it polls the monitor and stops if it sees
  cancellation. A cartridge that the lookup does not find is skipped.
- It reads the embedded cartridges a second time and computes the selected ones
  that are missing from that second read.
- It sorts that list with the same comparator and adds it in one bulk call. The
  bulk call is skipped when the list is empty or the monitor is cancelled.
- It stores the answer of the bulk call as the added cartridges and returns OK.
- An `OpenShiftException` from any call ends the run with an error status that
  names the application. Nothing is rolled back, and the added-cartridges field is
  not assigned.

Files:
- `cartridges.dfy` (module `Cartridges`): the comparator exactly as written, facts
  about its values, and the sort over it.
- `reconcile.dfy` (module `Reconcile`): the add list and the remove list.
- `remote.dfy` (module `Remote`): the application as abstract state. This is a
  class `Application` that keeps the embedded list, a log of every call, and a
  fault oracle. Call number k throws exactly when k is in `faults`, and a call that
  throws changes nothing. `Follows` and `Replay` say that the server holds the
  effect of exactly the calls that succeeded.
- `remote.dfy` (module `Progress`): the progress monitor, a class `Monitor`. It
  answers poll k from a boolean schedule. Polls past the end of the schedule see
  the schedule's last entry.
- `job.dfy` (module `EmbedJob`): the specification functions and the class
  `EmbedCartridgesJob`.
  - `RunSpec`, `RemoveThenAdd`, `ReadThenAdd`, `Finish`, `RemovePhase`,
    `RemoveLoop`, `RemoveOne` and `AddPhase` say what a run does to the world.
    The world is the server state and the monitor state.
  - The methods of `EmbedCartridgesJob` run the same steps imperatively: calls on
    the `Application` and `Monitor` objects, a `while` loop for the removals, and
    `for` loops that build the two lists.
  - Each method is proved to leave exactly the state, and to return exactly the
    result, that its specification function gives.
- `run_properties.dfy` (module `RunProperties`): what a whole run guarantees,
  proved about the specification functions.

The comparator does not do what its comment says. The comment at
EmbedCartridgesJob.java:123 says mysql must come first. The test at line 124
compares a cartridge with the `Boolean` that the mysql matcher returns, and a
cartridge never equals a Boolean. So the mysql-first branch is dead. The model
keeps the code as written (`Cartridges.EqualsBoolean` is constantly false) and
proves the consequences:
- `compare(x, y)` is 1 whenever `y` is mysql, whatever `x` is. This includes
  `compare(m, m)` for a mysql cartridge `m`.
- A mysql cartridge and a plain one compare as 0 one way round and as 1 the other
  way, so the comparator is not antisymmetric.
- Two postgresql cartridges each compare as smaller than the other.
- A list in which nothing matches postgresql or mongodb is left in its own order.
  So, with the JDK's default sort (TimSort, Java 7 and later), `[phpmyadmin, mysql]`
  stays as it is, and mysql is not moved before phpmyadmin.

Because this comparator breaks the contract of `java.util.Comparator`, nothing
about sortedness is claimed. The sort is specified as a permutation, together
with the facts above.

## Model

| member | source | states |
|---|---|---|
| Cartridges.Compare | plugins/org.jboss.tools.openshift.express.ui/src/org/jboss/tools/openshift/express/internal/ui/job/EmbedCartridgesJob.java:122-138 | The result is -1, 0 or 1. It is 1 whenever the right cartridge is mysql. Otherwise it is -1 exactly when the left cartridge is postgresql or mongodb and ranks no lower than the right one in the chain postgresql, mongodb, rest. It is 1 exactly when the right cartridge ranks strictly higher. |
| Cartridges.CompareNeverRanksMySqlFirst | plugins/org.jboss.tools.openshift.express.ui/src/org/jboss/tools/openshift/express/internal/ui/job/EmbedCartridgesJob.java:123-125 | The mysql-first branch never fires. Only a postgresql or mongodb cartridge, compared against a non-mysql one, is ranked first. The result is 0 exactly when the right cartridge is plain and the left one is neither postgresql nor mongodb. |
| Cartridges.CompareNotAntisymmetric | plugins/org.jboss.tools.openshift.express.ui/src/org/jboss/tools/openshift/express/internal/ui/job/EmbedCartridgesJob.java:124-127 | For a mysql cartridge m and a plain cartridge p: `compare(m, p) = 0`, `compare(p, m) = 1` and `compare(m, m) = 1`. |
| Cartridges.CompareSameKindBothSmaller | plugins/org.jboss.tools.openshift.express.ui/src/org/jboss/tools/openshift/express/internal/ui/job/EmbedCartridgesJob.java:128-133 | Two postgresql cartridges, or two mongodb cartridges, each compare as -1 against the other. |
| Cartridges.Insert | plugins/org.jboss.tools.openshift.express.ui/src/org/jboss/tools/openshift/express/internal/ui/job/EmbedCartridgesJob.java:75 | One insertion step of the sort adds exactly the one new element: the multiset grows by it and the length by one. |
| Cartridges.PrioritySort | plugins/org.jboss.tools.openshift.express.ui/src/org/jboss/tools/openshift/express/internal/ui/job/EmbedCartridgesJob.java:75 | The sort of either list is a permutation of its input: the multiset and the length are kept. |
| Cartridges.PrioritySortSameElements | plugins/org.jboss.tools.openshift.express.ui/src/org/jboss/tools/openshift/express/internal/ui/job/EmbedCartridgesJob.java:93 | A cartridge is in the sorted list exactly when it is in the input. |
| Cartridges.PrioritySortKeepsOrderWithoutPostgreSqlOrMongoDb | plugins/org.jboss.tools.openshift.express.ui/src/org/jboss/tools/openshift/express/internal/ui/job/EmbedCartridgesJob.java:122-138 | A list with no postgresql or mongodb cartridge is returned unchanged, mysql included. |
| Cartridges.MySqlStaysAfterPhpMyAdmin | plugins/org.jboss.tools.openshift.express.ui/src/org/jboss/tools/openshift/express/internal/ui/job/EmbedCartridgesJob.java:123-124 | `[phpmyadmin, mysql]` sorts to itself. With TimSort's comparison direction, mysql is not moved first, contrary to the comment. |
| Cartridges.PostgreSqlMovesFirst | plugins/org.jboss.tools.openshift.express.ui/src/org/jboss/tools/openshift/express/internal/ui/job/EmbedCartridgesJob.java:128-129 | `[phpmyadmin, postgresql]` sorts to `[postgresql, phpmyadmin]`. |
| Reconcile.ToAdd | plugins/org.jboss.tools.openshift.express.ui/src/org/jboss/tools/openshift/express/internal/ui/job/EmbedCartridgesJob.java:97-106 | A cartridge is in the add list exactly when it is selected and not embedded. The list is no longer than the selection. |
| Reconcile.ToRemove | plugins/org.jboss.tools.openshift.express.ui/src/org/jboss/tools/openshift/express/internal/ui/job/EmbedCartridgesJob.java:108-117 | A cartridge is in the remove list exactly when it is embedded and not selected. The list is no longer than the embedded list. |
| Reconcile.ToAddCounts | plugins/org.jboss.tools.openshift.express.ui/src/org/jboss/tools/openshift/express/internal/ui/job/EmbedCartridgesJob.java:100-104 | Each selected cartridge that is not embedded occurs in the add list as often as in the selection. Any other cartridge does not occur. |
| Reconcile.ToRemoveCounts | plugins/org.jboss.tools.openshift.express.ui/src/org/jboss/tools/openshift/express/internal/ui/job/EmbedCartridgesJob.java:111-115 | Each embedded cartridge that is not selected occurs in the remove list as often as in the embedded list. Any other cartridge does not occur. |
| Reconcile.ToAddAppend | plugins/org.jboss.tools.openshift.express.ui/src/org/jboss/tools/openshift/express/internal/ui/job/EmbedCartridgesJob.java:100-104 | The add list keeps selection order: the add list of `a + b` is the add list of `a` followed by the add list of `b`. |
| Reconcile.ToRemoveAppend | plugins/org.jboss.tools.openshift.express.ui/src/org/jboss/tools/openshift/express/internal/ui/job/EmbedCartridgesJob.java:111-115 | The remove list keeps embedded order: the remove list of `a + b` is the remove list of `a` followed by the remove list of `b`. |
| Reconcile.ToAddNothingEmbedded | plugins/org.jboss.tools.openshift.express.ui/src/org/jboss/tools/openshift/express/internal/ui/job/EmbedCartridgesJob.java:97-106 | When no selected cartridge is embedded, the add list is the selection itself. |
| Reconcile.AddAndRemoveDisjoint | plugins/org.jboss.tools.openshift.express.ui/src/org/jboss/tools/openshift/express/internal/ui/job/EmbedCartridgesJob.java:97-117 | No cartridge is both in the add list and in the remove list. |
| Reconcile.InSyncNothingToDo | plugins/org.jboss.tools.openshift.express.ui/src/org/jboss/tools/openshift/express/internal/ui/job/EmbedCartridgesJob.java:97-117 | When the selection and the embedded list hold the same cartridges, both lists are empty. |
| Remote.Application.GetEmbeddedCartridges | plugins/org.jboss.tools.openshift.express.ui/src/org/jboss/tools/openshift/express/internal/ui/job/EmbedCartridgesJob.java:54 | The call is logged. It answers the embedded list, or fails if the oracle says this call throws. |
| Remote.Application.GetEmbeddedCartridge | plugins/org.jboss.tools.openshift.express.ui/src/org/jboss/tools/openshift/express/internal/ui/job/EmbedCartridgesJob.java:80 | The call is logged. It answers the cartridge when it is embedded and null otherwise, or it fails. It never changes the embedded list. |
| Remote.Application.Destroy | plugins/org.jboss.tools.openshift.express.ui/src/org/jboss/tools/openshift/express/internal/ui/job/EmbedCartridgesJob.java:82 | The call is logged. It removes one occurrence of the cartridge, or it fails and removes nothing. |
| Remote.Application.AddEmbeddableCartridges | plugins/org.jboss.tools.openshift.express.ui/src/org/jboss/tools/openshift/express/internal/ui/job/EmbedCartridgesJob.java:94 | The call is logged. It appends the cartridges and answers them as the newly embedded ones, or it fails and adds nothing. |
| Remote.FollowsTrans | plugins/org.jboss.tools.openshift.express.ui/src/org/jboss/tools/openshift/express/internal/ui/job/EmbedCartridgesJob.java:52-63 | Calls that all succeeded, followed by more calls, leave the server as the effect of all of them, with no rollback. |
| Progress.Monitor.IsCanceled | plugins/org.jboss.tools.openshift.express.ui/src/org/jboss/tools/openshift/express/internal/ui/job/EmbedCartridgesJob.java:48 | It answers the schedule's entry for this poll and counts the poll. |
| Progress.StickyAnswer | plugins/org.jboss.tools.openshift.express.ui/src/org/jboss/tools/openshift/express/internal/ui/job/EmbedCartridgesJob.java:77-78 | On a schedule whose cancellation stays set, any later poll sees a cancellation that an earlier poll saw. |
| EmbedJob.EmbedCartridgesJob.constructor | plugins/org.jboss.tools.openshift.express.ui/src/org/jboss/tools/openshift/express/internal/ui/job/EmbedCartridgesJob.java:40-44 | The job holds the selection and the application, and its added-cartridges field is null. |
| EmbedJob.EmbedCartridgesJob.DoRun | plugins/org.jboss.tools.openshift.express.ui/src/org/jboss/tools/openshift/express/internal/ui/job/EmbedCartridgesJob.java:47-64 | The status, the new application and monitor states, and the new added-cartridges field are exactly those of `RunSpec` on the old states. |
| EmbedJob.EmbedCartridgesJob.RemoveEmbeddedCartridges | plugins/org.jboss.tools.openshift.express.ui/src/org/jboss/tools/openshift/express/internal/ui/job/EmbedCartridgesJob.java:70-85 | The outcome and the new application and monitor states are exactly those of `RemovePhase`. |
| EmbedJob.EmbedCartridgesJob.AddEmbeddedCartridges | plugins/org.jboss.tools.openshift.express.ui/src/org/jboss/tools/openshift/express/internal/ui/job/EmbedCartridgesJob.java:87-95 | The answer and the new application and monitor states are exactly those of `AddPhase`. |
| EmbedJob.EmbedCartridgesJob.CartridgesToAdd | plugins/org.jboss.tools.openshift.express.ui/src/org/jboss/tools/openshift/express/internal/ui/job/EmbedCartridgesJob.java:97-106 | The loop builds `ToAdd`. A cartridge is in the result exactly when it is selected and not embedded. |
| EmbedJob.EmbedCartridgesJob.CartridgesToRemove | plugins/org.jboss.tools.openshift.express.ui/src/org/jboss/tools/openshift/express/internal/ui/job/EmbedCartridgesJob.java:108-117 | The loop builds `ToRemove`. A cartridge is in the result exactly when it is embedded and not selected. |
| RunProperties.RemoveOneCalls | plugins/org.jboss.tools.openshift.express.ui/src/org/jboss/tools/openshift/express/internal/ui/job/EmbedCartridgesJob.java:80-83 | One turn of the loop makes one or two calls, all about its own cartridge, and the first is the lookup. The server holds exactly their effect, and the turn fails exactly when its last call threw. |
| RunProperties.RemoveOneSkipsAbsent | plugins/org.jboss.tools.openshift.express.ui/src/org/jboss/tools/openshift/express/internal/ui/job/EmbedCartridgesJob.java:80-81 | A cartridge that is not embedded is skipped. The turn makes only the lookup call, succeeds, and changes nothing else. |
| RunProperties.RemoveLoopFollows | plugins/org.jboss.tools.openshift.express.ui/src/org/jboss/tools/openshift/express/internal/ui/job/EmbedCartridgesJob.java:76-84 | The server after the loop holds the effect of the loop's calls. The loop stopped at its first failing call and never polled backwards. |
| RunProperties.RemoveLoopStopsAtCancel | plugins/org.jboss.tools.openshift.express.ui/src/org/jboss/tools/openshift/express/internal/ui/job/EmbedCartridgesJob.java:76-84 | The loop polls once per cartridge it reaches, and only its last poll may see cancellation. Its calls touch only the cartridges it reached. If its last poll saw cancellation, it ended normally and made no call for that cartridge or any later one. Conversely, a loop that ended normally before the end of its list stopped because its last poll saw cancellation: a skipped or destroyed cartridge never ends the loop. |
| RunProperties.RemoveLoopLooksUpEach | plugins/org.jboss.tools.openshift.express.ui/src/org/jboss/tools/openshift/express/internal/ui/job/EmbedCartridgesJob.java:76-84 | When no poll cancels and the loop ends normally, it polled once per cartridge and looked up every cartridge of its list, whether or not that cartridge was embedded. |
| RunProperties.RemoveLoopClean | plugins/org.jboss.tools.openshift.express.ui/src/org/jboss/tools/openshift/express/internal/ui/job/EmbedCartridgesJob.java:75-84 | With no faults, no cancellation, and every listed cartridge embedded, the loop looks up and destroys each cartridge in sorted order. Exactly the listed cartridges leave the embedded multiset, and it polls once per cartridge. |
| RunProperties.RemovePhaseFollows | plugins/org.jboss.tools.openshift.express.ui/src/org/jboss/tools/openshift/express/internal/ui/job/EmbedCartridgesJob.java:70-85 | The server after the removal holds the effect of its calls. An empty list returns at once and touches nothing. |
| RunProperties.RemovePhaseNoBulk | plugins/org.jboss.tools.openshift.express.ui/src/org/jboss/tools/openshift/express/internal/ui/job/EmbedCartridgesJob.java:70-85 | The removal only extends the log, and none of its calls is a bulk add. |
| RunProperties.RemovePhaseClean | plugins/org.jboss.tools.openshift.express.ui/src/org/jboss/tools/openshift/express/internal/ui/job/EmbedCartridgesJob.java:53-55 | With no faults and no cancellation, the removal succeeds. Afterwards a cartridge is embedded exactly when it was embedded before and is selected. |
| RunProperties.AddPhaseAllOrNothing | plugins/org.jboss.tools.openshift.express.ui/src/org/jboss/tools/openshift/express/internal/ui/job/EmbedCartridgesJob.java:87-95 | With an empty list, or a cancelled monitor, the addition answers the empty list with no call. Otherwise it makes exactly one bulk call with the sorted list. It fails exactly when that call throws, and otherwise it answers the sorted list and appends it to the embedded list. |
| RunProperties.AddPhaseFollows | plugins/org.jboss.tools.openshift.express.ui/src/org/jboss/tools/openshift/express/internal/ui/job/EmbedCartridgesJob.java:87-95 | The server after the addition holds the effect of its call, if any. |
| RunProperties.RunCancelledOnEntry | plugins/org.jboss.tools.openshift.express.ui/src/org/jboss/tools/openshift/express/internal/ui/job/EmbedCartridgesJob.java:48-50 | A run is cancelled exactly when the monitor is cancelled on entry. It then makes no call on the application and leaves the added-cartridges field as it was. |
| RunProperties.RunFailuresShortCircuit | plugins/org.jboss.tools.openshift.express.ui/src/org/jboss/tools/openshift/express/internal/ui/job/EmbedCartridgesJob.java:52-63 | A run ends in an error exactly when one of its calls threw, and that call is its last. The error names the application and the added-cartridges field is left as it was. The server keeps the effect of every earlier call. |
| RunProperties.RunWithoutFaults | plugins/org.jboss.tools.openshift.express.ui/src/org/jboss/tools/openshift/express/internal/ui/job/EmbedCartridgesJob.java:52-63 | When no call throws, a run is cancelled on entry or ends OK. |
| RunProperties.RunCancelledAfterEntryAddsNothing | plugins/org.jboss.tools.openshift.express.ui/src/org/jboss/tools/openshift/express/internal/ui/job/EmbedCartridgesJob.java:52-95 | On a monitor whose cancellation stays set, if a poll after the entry check sees cancellation: the run is not cancelled and makes no bulk call. An OK run records the empty list. With no faults the run is OK. |
| RunProperties.RunAddedIsBulkAnswer | plugins/org.jboss.tools.openshift.express.ui/src/org/jboss/tools/openshift/express/internal/ui/job/EmbedCartridgesJob.java:56-94 | What the job promises: an OK run records what the addition answered, and an empty answer means the run made no bulk call. What follows from the server model, in which the bulk call answers its own argument: a non-empty answer is the argument of the run's only bulk call, which is its last call. That answer ends the embedded list, and its multiset is that of the selected cartridges missing from the list read before the call. |
| RunProperties.RunConverges | plugins/org.jboss.tools.openshift.express.ui/src/org/jboss/tools/openshift/express/internal/ui/job/EmbedCartridgesJob.java:47-64 | With no faults and no cancellation, a run ends OK with exactly the selected cartridges embedded. A second run then has nothing to add or remove. |
| RunProperties.RunInSyncMakesNoChange | plugins/org.jboss.tools.openshift.express.ui/src/org/jboss/tools/openshift/express/internal/ui/job/EmbedCartridgesJob.java:47-64 | With no faults and no cancellation, a run on an application already in line with the selection only reads the embedded list twice. The embedded list is unchanged and the empty list is recorded as added. |

## Left out

- IProgressMonitor, IStatus and the Eclipse job framework (`AbstractDelegatingMonitorJob`) are replaced by the `Monitor` class and the `Status` datatype. Only `isCanceled()` is modelled.
- The error status does not model message localisation or formatting (`NLS.bind`, `createErrorStatus`) or the exception it wraps. Only the application name is kept.
- The OpenShift client library is abstract:
  - The remote transport is not modelled.
  - A cartridge is a type with equality, and `contains` and embedded-cartridge lookup are that equality. This stands in for the library's own `equals`, which compares an embeddable cartridge with an embedded one.
  - The `LatestVersionOf` matchers are arbitrary predicates.
  - The server embeds exactly the cartridges it is asked to add and answers them.
  - A call that throws changes nothing on the server.
- The timing of faults and of cancellation are inputs (a fault set and a poll schedule), not behaviour.
- No other writer changes the application during a run. Under that assumption, every lookup of a listed cartridge in the removal loop finds it. This holds even when a cartridge is listed twice: it is then embedded twice, and each destroy removes only one occurrence. The null branch is modelled for any input and proved (`RunProperties.RemoveOneSkipsAbsent`, `RunProperties.RemoveLoopLooksUpEach`).
- Cartridges.PrioritySort: `Collections.sort` is modelled as a stable insertion sort that consults the same comparator, not as Java's TimSort. TimSort's binary insertion step may place elements differently when the comparator is inconsistent. The contract claims only the permutation, which TimSort also keeps. Order is claimed in two cases. The first is lists in which the comparator never answers -1 (`PrioritySortKeepsOrderWithoutPostgreSqlOrMongoDb`); TimSort sees such a list as one ascending run and leaves it unchanged. The second is the two-element example `PostgreSqlMovesFirst`; TimSort sees that list as a descending run and reverses it, which gives the same result.
- Cartridges.MySqlStaysAfterPhpMyAdmin: the model follows the comparison direction of TimSort, the default of `Collections.sort` since Java 7. TimSort asks whether a later element compares as smaller than an earlier one. The legacy merge sort asks whether an earlier element compares as greater than a later one; it is used by Java 6, or by Java 7 and later with `java.util.Arrays.useLegacyMergeSort` set. Since `compare(phpmyadmin, mysql)` is 1, the legacy sort would move mysql first, and the legacy sort is not modelled.
- Java's `IllegalArgumentException: Comparison method violates its general contract`, which TimSort may throw on lists of 32 or more elements with this comparator, is not modelled.
- `Collections.sort` sorts the freshly built list in place. The model assigns the sorted list to a new local instead, because no other reference to that list exists.
- EmbedJob.EmbedCartridgesJob.GetAddedCartridges: the accessor simply returns the field and has no contract of its own. What it returns after a run is stated by `DoRun` and `RunProperties.RunAddedIsBulkAnswer`.
- `OpenShiftTestProperties.java` (test property loading from a file) is not part of this model.
