# Verification of k32's role services

k32 is a three-tier game server. *Agents* hold client connections, *logic servers* hold live roles in
memory, and *monitors* persist roles from Redis to MySQL. Everything runs on cooperative fibers: code
between two yields is atomic, and anything may happen at a yield. This project models the protocols between
these servers as state machines whose steps are the stretches between yields, proves invariants of all their
interleavings, and ties imperative classes with the same fields, branches and loops as the handlers to those
machines.

| file | what it models |
|---|---|
| `SavePlan.dfy` | the save-bucket scheduler that logic and monitor share: dealing loop, tick, runs of ticks |
| `SaveTicks.dfy`, `SaveTiming.dfy`, `DirtyData.dfy`, `OrphanReaping.dfy` | what its ticks contribute to runs, and what that means in time: key expiry, dirty data, orphaned roles |
| `LogicRoles.dfy`, `RoleEffects.dfy`, `LogicRelease.dfy`, `LoginKept.dfy`, `ConfirmedRoles.dfy`, `LogicService.dfy` | one logic server: login, reconnect, disconnect, logout, visits of the save tick |
| `Handover.dfy` | several logic servers over one role store |
| `RoleStore.dfy`, `RoleStoreLimits.dfy`, `DurableHistory.dfy`, `PersistedRows.dfy`, `DurableLimits.dfy`, `TrackedKeys.dfy`, `RoleHomes.dfy`, `RoleListing.dfy`, `MonitorService.dfy` | Redis over MySQL: create, load, list, flush, save, unload |
| `Ownership.dfy`, `Journeys.dfy` | agents' sessions, their locks, and all logic servers' tables, for any number of users |
| `RoleOwners.dfy`, `RoleCreation.dfy`, `NewRoles.dfy`, `NicknameService.dfy` | nicknames, serials, role creation and its retries |
| `RateLimit.dfy`, `AgentService.dfy` | the agent's user service: connection records, ping timer, rate check, role check, code around logins |
| `RpcFutures.dfy`, `RpcInvariants.dfy`, `RpcLaunch.dfy`, `RpcRuns.dfy`, `RpcTags.dfy`, `RpcWaiting.dfy`, `RpcService.dfy` | multicast requests between services |
| `HttpPairing.dfy`, `HttpTheorems.dfy`, `HttpOrder.dfy`, `HttpRequestor.dfy` | pipelined HTTP requests |

Modelling conventions:

- A handler that waits is an entry of a table of fibers that says what it waits for. `Step` lets one command
  take effect and runs the fiber to its next wait. `Run` is any sequence of enabled steps.
- A class method stands for the code between two yields and is proved to be `Step`; methods that contain
  yields take what others do meanwhile as a parameter and carry it out.
- The main theorems quantify over all runs. Where one needs a discipline (`UnloadAlone`, `OnePersist`,
  `NoOverlap`, `Exclusive`, `Conforming`), it is a guard on a single event, and lemmas with concrete inputs or exact
  conditions show what goes wrong without it.
- A weak reference is an identity together with the set of identities that are alive.

Assumptions about what cannot be seen:

- Callbacks of one session and ticks of one timer do not overlap.
- Redis commands of one server take effect in the order they were issued; each database command is atomic.
- Random UUIDs are distinct, object identities are new, and an auto-increment counter may skip values but
  never goes back.
- A string in Redis parses to one record; two different strings may parse to the same one.
- An HTTP peer answers in order (section 9.3.2 of RFC 9112); a status up to 199 is not final (section 15.2 of
  RFC 9110); a session object lives until its close event has been handled.
- For single hydration: RPC between services is reliable, the list of services is complete, and a user's next
  session opens only after the previous one has ended.

Where the code and its documentation differ, the model follows the code: `doc/clients.md:141` says that a new
role list is sent after `+role/logout`, but no code sends one; `doc/clients.md:92` lists
`sc_role_creation_failure`, but a failed `*role/create` answers `sc_nickname_conflict`.

## Model

| member | source | states |
|---|---|---|
| SavePlan.SaveScheduler.Deal | k32/logic/static/role_service.cpp:129-136 | one round of the dealing loop: a full front bucket gets an empty one before it, and the bucket that took the role moves to the end |
| SavePlan.SaveScheduler.Provide | k32/logic/static/role_service.cpp:126-127 | twenty empty buckets are the plan for no roles |
| SavePlan.SaveScheduler.Arrange | k32/logic/static/role_service.cpp:123-137 | the loop's result is the closed-form layout, for any number and order of roles |
| SavePlan.SaveScheduler.Tick | k32/monitor/static/role_service.cpp:509-529 | a tick plans only if no bucket is left, takes the last bucket, and visits its roles from the back |
| SavePlan.LayoutExtends | k32/monitor/static/role_service.cpp:515-522 | the closed form satisfies the loop's recurrence for every role, before, at and after 5100 |
| SavePlan.PlanSizes | k32/logic/static/role_service.cpp:126-137 | exactly 20 + max(0, n - 5100) buckets, none over capacity; sizes differ by at most one up to 5100, then 20 full buckets and singletons |
| SavePlan.SlotOfPosition | k32/logic/static/role_service.cpp:129-136 | where the role at each position of the enumeration lands |
| SavePlan.PositionOfSlot | k32/logic/static/role_service.cpp:129-136 | every slot comes from exactly that position: the placement is a bijection |
| SavePlan.EachRoleOnce | k32/monitor/static/role_service.cpp:515-522 | each tracked role is in exactly one bucket, exactly once, and nothing else is |
| SavePlan.PlanUnrolls | k32/logic/static/role_service.cpp:139-143 | tick after tick pops the plan from its back |
| SavePlan.VisitedWithinTwoPlans | k32/logic/static/role_service.cpp:123-143 | a role tracked throughout is visited within B1 + B2 - 1 ticks, for consecutive plans of B1 and B2 buckets |
| SavePlan.VisitedInWindow | k32/monitor/static/role_service.cpp:509-529 | with at most n roles tracked, 2 * PlanSize(n) - 1 ticks visit each one that stays, whatever order the table enumerates them in |
| SavePlan.VisitedWithin39Ticks | k32/logic/static/role_service.cpp:123-143 | 39 ticks suffice up to 5100 roles |
| SavePlan.ThirtyNineIsTight | k32/logic/static/role_service.cpp:129-140 | 38 do not: a run in which a tracked role is missed for 38 ticks |
| SavePlan.WindowIsTight | k32/logic/static/role_service.cpp:129-143 | for any number of roles, one in the last bucket of one plan and in the first of the next is visited at the two ends of a window and not in between |
| SaveTicks.TickLasts | k32/logic/static/role_service.cpp:139-191 | a tick that has run stays one whatever others do until the next tick |
| SaveTiming.OnlineKeyNeverExpires | k32/logic/static/role_service.cpp:119-222 | in any run of the logic server with on-time ticks and at most 5180 roles, a role that stays hydrated after its login has its key refreshed, by the GETEX of that login or by a SET that a tick issued and saw answered, less than the smallest TTL ago |
| SaveTiming.KeysLastIff | k32/logic/static/role_service.cpp:487-508 | the plan and the period guarantee that exactly up to 5180 roles; beyond, an on-time schedule lets a key run out |
| SaveTiming.DataIsVisitedIff | k32/monitor/static/role_service.cpp:599-614 | a monitor visits every snapshot before its key could run out exactly up to 5107 roles |
| DirtyData.DirtyDataReachesMysql | k32/monitor/static/role_service.cpp:509-550 | a snapshot that a logic server stores while the monitor lists the role is in MySQL, or a newer value is, by the end of a tick that begins while its key is alive, in any disciplined run with on-time ticks and at most 5107 roles, whether or not the role is unloaded meanwhile |
| TrackedKeys.KeysAreTrackedIff | k32/monitor/static/role_service.cpp:103-551 | over every run, the monitor lists a role at each moment at which Redis has it exactly if every SET of the role comes while it is listed |
| TrackedKeys.OnlyStraySetsHide | k32/monitor/static/role_service.cpp:119-124 | step by step, in any interleaving: only a SET of a role that is not listed makes a key that the save ticks do not know of |
| TrackedKeys.LateSetIsHidden | k32/monitor/static/role_service.cpp:436-448 | a SET that comes after an unload does |
| RoleHomes.LoadedRecordIsHere | k32/monitor/static/role_service.cpp:200-202 | what a create, a repeated create or a load puts into Redis has this host, this database and this zone as its home, and MySQL's row |
| RoleHomes.ForeignIff | k32/monitor/static/role_service.cpp:411-472 | "gs_role_foreign" exactly if the record found has another host or another database; then nothing is written or deleted |
| RoleHomes.OwnRolesAreNeverForeign | k32/monitor/static/role_service.cpp:282-472 | over every run in which SETs keep a role's home, no flush or unload of a role that this monitor loaded is refused as foreign |
| RoleHomes.StatusIff | k32/monitor/static/role_service.cpp:224-491 | when the handlers answer "gs_ok", not found, not loaded, or conflict, told by the two tiers |
| RoleHomes.AnswersEnd | k32/monitor/static/role_service.cpp:206-491 | a handler goes on exactly if it has no answer yet |
| RoleHomes.ListedAs | k32/monitor/static/role_service.cpp:119-551 | the entry of `role_records` after each command: what Redis has after SET NX, nothing after a GET without a key, the snapshot before its UPDATE, nothing after an unload |
| OrphanReaping.OrphanIsReaped | k32/logic/static/role_service.cpp:139-191 | in any run of the logic server, a role whose checks are all denied from some tick on, which nobody logs in or reconnects, is out of the table within a window of ticks, the configured duration, and another window |
| OrphanReaping.VisitDisconnects | k32/logic/static/role_service.cpp:153-175 | whatever else runs meanwhile, a tick that visits such a role leaves it gone or disconnected |
| OrphanReaping.VisitLogsOut | k32/logic/static/role_service.cpp:177-184 | and a tick that visits it late enough after that leaves it gone |
| OrphanReaping.LostConnectionIsReaped | k32/agent/static/user_service.cpp:896-926 | the agent denies every role of a user whose connection is lost, in whatever way, until the user connects again; so in any run the role is reaped |
| ConfirmedRoles.ConfirmedRoleStays | k32/logic/static/role_service.cpp:139-191 | the converse: in any run, a connected role whose checks are all confirmed, and which nobody disconnects or logs out, stays connected and in the table with its object, however late the ticks are |
| SaveTiming.ReapingTime | k32/logic/static/role_service.cpp:177-184 | a bound on the clock for these windows |
| LogicRoles.LogoutOnlyWhenDisconnected | k32/logic/static/role_service.cpp:170-180 | for every role object and interleaving, `on_logout` comes only after a disconnect with no connect since, and for inactivity only when the tick is late enough |
| LogicRoles.LoginOnceAndFirst | k32/logic/static/role_service.cpp:229-252 | every hydrated object is of its key's role, and got `on_login` exactly once and before anything else |
| LogicRoles.StepKeepsInv | k32/logic/static/role_service.cpp:119-343 | what all handlers and timer visits keep: key agreement, and that the hooks of each object match its connection fields |
| LogicRoles.DeniedCheckDisconnects | k32/logic/static/role_service.cpp:153-180 | a check that the agent denies disconnects a role that its client has just taken over, and unless the client connects once more a later visit logs it out |
| RoleEffects.ConfirmedCheckOnlyStores | k32/logic/static/role_service.cpp:163-190 | a check answered "gs_ok" leaves a connected role's object as it is, and its SET is issued |
| RoleEffects.DeniedCheckEffects | k32/logic/static/role_service.cpp:170-190 | any other answer clears the agent, stamps the tick's time, calls `on_disconnect` once, and the role is stored |
| RoleEffects.CheckOfGoneRole | k32/logic/static/role_service.cpp:163-164 | if the role has gone meanwhile, nothing happens |
| RoleEffects.VisitEffects | k32/logic/static/role_service.cpp:148-187 | what a visit makes of each field of a role: asked about if connected, logged out if disconnected for long enough, else stored |
| RoleEffects.StoredEffects | k32/logic/static/role_service.cpp:182-189 | after the SET only the role's own key changes: erased on the logout paths, written back only if it is there |
| RoleEffects.RequestEffects | k32/logic/static/role_service.cpp:248-343 | login, reconnect, disconnect and logout: agent, stamp and hooks of the object afterwards |
| RoleEffects.LoadedEffects | k32/logic/static/role_service.cpp:224-252 | after GETEX: nothing, a new object that is logged in and connected, or the winner connected |
| RoleEffects.MissedRequests | k32/logic/static/role_service.cpp:210-335 | of a role that is not hydrated, requests other than a login change nothing |
| RoleEffects.ReconnectTakesTheLast | k32/logic/static/role_service.cpp:306-314 | of the listed roles that are hydrated, the last one is connected and no other object changes |
| LogicRelease.StoredBeforeRelease | k32/logic/static/role_service.cpp:177-184 | when a role is about to leave the table, the last SET of it that has taken effect from this server is a snapshot of that object serialised after `on_logout` |
| LogicRelease.SnapshotIsFinalIff | k32/logic/static/role_service.cpp:182-189 | no other SET of this server will overwrite it exactly if no handler still waits for one of the role |
| LogicRelease.OldVisitReplacesNewLogin | k32/logic/static/role_service.cpp:186-190 | without the discipline the write-back of an old visit puts its object in the place of a newly logged in one |
| LogicRelease.StragglersAreReachable | k32/logic/static/role_service.cpp:119-287 | the state that this starts from is reached |
| LogicRelease.LoginDuringLogoutIsLost | k32/logic/static/role_service.cpp:210-283 | a login accepted between `on_logout` and the erase loses its role to the erase |
| LogicRelease.StepKeepsReleaseInv | k32/logic/static/role_service.cpp:280-284 | why: all fibers that hold a role share one object, and later SETs are of it and newer |
| LoginKept.RoleIsKeptIff | k32/logic/static/role_service.cpp:139-191 | a connected role stays in the table whatever the handlers do that are already suspended exactly if none of them is releasing it or has another object of it in hand, and no two checks of it are as far apart as an inactivity logout takes |
| LoginKept.LoginIsKeptIff | k32/logic/static/role_service.cpp:210-318 | so a login or reconnection answered "gs_ok" keeps its role exactly then; with one check at a time, exactly if there is no straggler |
| LoginKept.HydrationIsKeptIff | k32/logic/static/role_service.cpp:244-250 | for a login that hydrates the role, exactly if `NoOverlap` holds |
| Handover.NextLoginStartsFromLogout | k32/logic/static/role_service.cpp:210-252 | over all runs of any number of logic servers, a login that hydrates a role again, wherever, finds the latest SET of the role's latest object, from after its `on_logout`, and no SET of the role is on its way |
| Handover.RecordRestsMeanwhile | k32/logic/static/role_service.cpp:213-222 | whenever its GETEX takes effect: the record does not change while a login waits |
| Handover.MoveKeepsInv | k32/logic/static/role_service.cpp:119-343 | why: at most one server has to do with a role, and the store has the SETs of the latest object |
| LogicRelease.OnlyLoginHydrates | k32/logic/static/role_service.cpp:186-190 | only a login that found the record adds a key, only the end of a logout removes one; the write-back of a visit never adds one |
| LogicRelease.LoginsConverge | k32/logic/static/role_service.cpp:210-252 | any number of concurrent logins that all miss end with one new object, to which every accepted login connected |
| LogicService.RoleService.StoreIntoRedis | k32/logic/static/role_service.cpp:48-88 | issues one SET of the object under its role ID, in order; the number of hooks stands for the state that is serialised |
| LogicService.RoleService.Login | k32/logic/static/role_service.cpp:210-222 | a hydrated role is connected at once, another is fetched |
| LogicService.RoleService.LoginLoaded | k32/logic/static/role_service.cpp:224-254 | after GETEX: not loaded, first to insert, or load conflict |
| LogicService.RoleService.Reconnect | k32/logic/static/role_service.cpp:306-318 | the loop connects the last listed role that is hydrated and names it |
| LogicService.RoleService.Disconnect | k32/logic/static/role_service.cpp:331-342 | marks the role as disconnected now, even if it already is |
| LogicService.RoleService.Logout | k32/logic/static/role_service.cpp:267-282 | disconnects if need be, logs out and stores |
| LogicService.RoleService.Visit | k32/logic/static/role_service.cpp:148-161 | a visit skips a role that has gone, asks the agent about an online one, and decides at once about another |
| LogicService.RoleService.VisitChecked | k32/logic/static/role_service.cpp:163-175 | anything but "gs_ok" disconnects, unless the role has gone |
| LogicService.RoleService.Decide | k32/logic/static/role_service.cpp:177-187 | logs out after the configured duration, else stores |
| LogicService.RoleService.Stored | k32/logic/static/role_service.cpp:183-190 | erases on the logout paths, writes back only if the key is still there |
| LogicService.RoleService.HandleLogin | k32/logic/static/role_service.cpp:195-255 | the handler with its yield: "gs_ok" means that the role is hydrated and connected to this agent, whatever others did |
| LogicService.RoleService.HandleLogout | k32/logic/static/role_service.cpp:258-287 | the handler with its yield: "gs_ok" means that the role has gone and a SET issued by this logout has taken effect |
| LogicService.RoleService.VisitRole | k32/logic/static/role_service.cpp:142-190 | one visit with its yields: a SET of the role is issued and answered, unless the role was gone at some moment; a denied check disconnects it at the tick's time, after a confirmed one it is still connected unless others have told it to go, and one that is late enough is out of the table in the end |
| LogicService.RoleService.SaveTick | k32/logic/static/role_service.cpp:119-192 | the tick plans, takes one bucket and does that for each of its roles, with anything at the yields; if others start no visits it is a tick of the run |
| RoleStore.TwoTiersRefineOneMap | k32/monitor/static/role_service.cpp:103-551 | over every disciplined run, Redis over MySQL is the map that first creates and logic SETs alone produce |
| RoleStore.StepRefines | k32/monitor/static/role_service.cpp:188-551 | step by step: loads, repeated creates, flushes, saves, unloads and aborts leave the one map alone |
| RoleStore.StepKeepsWellKeyed | k32/monitor/static/role_service.cpp:273-274 | in every interleaving, overlapping or not, the record under key k is that of role k in both tiers, in `role_records` and in each handler |
| RoleStore.UnloadLosesNothing | k32/monitor/static/role_service.cpp:421-444 | "gs_ok" means that MySQL has the value deleted from Redis; otherwise nothing is deleted |
| RoleStore.ListIsCurrent | k32/monitor/static/role_service.cpp:148-186 | the overlaid avatar is the logical one at the MGET, whatever but an unload happened since the SELECT |
| RoleStoreLimits.StoreNxIsNeutralIff | k32/monitor/static/role_service.cpp:103-123 | exactly when SET NX leaves the one map alone |
| RoleStoreLimits.UpdateIsNeutralIff | k32/monitor/static/role_service.cpp:342-377 | exactly when UPDATE does |
| RoleStoreLimits.DeleteIsNeutralIff | k32/monitor/static/role_service.cpp:421-443 | exactly when compare-and-delete does |
| RoleStoreLimits.LoadAcrossUnloadLosesUpdate | k32/monitor/static/role_service.cpp:282-339 | a load that spans an unload brings an old row back |
| RoleStoreLimits.FlushAcrossUnloadLosesUpdate | k32/monitor/static/role_service.cpp:452-496 | a flush that spans an unload overwrites a newer row |
| RoleStoreLimits.DirtyIsReachable | k32/monitor/static/role_service.cpp:189-279 | the state those two start from is an ordinary one |
| DurableHistory.DurableNeverGoesBackwards | k32/monitor/static/role_service.cpp:341-377 | with one persist per role at a time, MySQL's row at each moment of a run is a value the role has had by then, and these come in the order of the role's writes |
| DurableHistory.StaysInOrder | k32/monitor/static/role_service.cpp:341-377 | the same from every state that such a run reaches |
| DurableHistory.StepKeepsTraceInv | k32/monitor/static/role_service.cpp:408-491 | a snapshot in hand is never older than what MySQL holds, across flushes, saves and unload retries |
| DurableLimits.OverlappingPersistsGoBackwards | k32/monitor/static/role_service.cpp:469-491 | a flush and a save visit of one role that overlap can write the older value last, from an ordinary state |
| DurableLimits.PersistIsSafeIff | k32/monitor/static/role_service.cpp:452-496 | starting a flush or a save visit keeps MySQL's rows in order, whatever follows, exactly if no other persist of the role is suspended |
| PersistedRows.PersistIsFresh | k32/monitor/static/role_service.cpp:465-491 | after its UPDATE, a flush, save visit or unload has brought MySQL to the last value the role had when it started, or to a later one |
| PersistedRows.SavedIsFresh | k32/monitor/static/role_service.cpp:531-549 | so has every save visit, also one that finds the key gone |
| MonitorService.RoleService.Load | k32/monitor/static/role_service.cpp:282-339 | runs as a load of the store machine to its answer, with anything at its yields |
| MonitorService.RoleService.Create | k32/monitor/static/role_service.cpp:189-279 | likewise, with INSERT IGNORE and the SELECT that makes it retryable |
| MonitorService.RoleService.Persist | k32/monitor/static/role_service.cpp:452-496 | flush, and one visit of the save tick |
| MonitorService.RoleService.Unload | k32/monitor/static/role_service.cpp:380-449 | the do-while loop ends, with at most one UPDATE more than others changed the value, and in a disciplined run at most one more than there were SETs |
| MonitorService.RoleService.SaveTick | k32/monitor/static/role_service.cpp:499-551 | visits exactly the roles of one bucket, in order, and each visit runs to its answer |
| MonitorService.CompletedIsSaved | k32/monitor/static/role_service.cpp:527-550 | in a disciplined run these visits are the ones that bring a role to MySQL |
| MonitorService.RoleService.Selected | k32/monitor/static/role_service.cpp:300-333 | after the SELECT of a load |
| MonitorService.RoleService.Inserted | k32/monitor/static/role_service.cpp:206-258 | after the INSERT IGNORE of a create |
| MonitorService.RoleService.Reselected | k32/monitor/static/role_service.cpp:256-273 | after the SELECT by role and user: conflict, or the row that exists |
| MonitorService.RoleService.StoredNx | k32/monitor/static/role_service.cpp:116-123 | after SET NX GET: what Redis had wins |
| MonitorService.RoleService.GotToPersist | k32/monitor/static/role_service.cpp:471-491 | after GET: not loaded, foreign, or on to the UPDATE |
| MonitorService.RoleService.UnloadWritten | k32/monitor/static/role_service.cpp:419-441 | after the unload's UPDATE |
| MonitorService.RoleService.UnloadDeleted | k32/monitor/static/role_service.cpp:421-448 | after compare-and-delete: done, foreign, or another round with the changed value |
| MonitorService.AnsweredUnloadLosesNothing | k32/monitor/static/role_service.cpp:405-448 | whenever an unload answers "gs_ok" in a disciplined run, MySQL has what Redis held at the instant of deletion, and the key is gone |
| MonitorService.OnlySetsInterfere | k32/monitor/static/role_service.cpp:405-443 | in a disciplined run the changes that make an unload retry are logic servers' SETs |
| MonitorService.ChangesAreSets | k32/monitor/static/role_service.cpp:405-443 | so over a whole unload there are no more of them than SETs |
| RoleListing.List | k32/monitor/static/role_service.cpp:126-186 | reports exactly the user's roles, each with its logical avatar |
| RoleListing.Overlay | k32/monitor/static/role_service.cpp:163-177 | the MGET loop replaces exactly the rows whose role Redis has, under the same role ID |
| Ownership.SingleHydration | k32/agent/static/user_service.cpp:126-237 | over every run, at most one of a user's roles is hydrated, on at most one logic server |
| Ownership.HydratedRolesAreOwned | k32/logic/static/role_service.cpp:243 | every hydrated role is some user's, so the above leaves none out |
| Ownership.HydratedMeansLocked | k32/agent/static/user_service.cpp:167-237 | after the welcome exchange the lock is where the hydrated role is or a login will put it, also when roles time out |
| Ownership.StepKeepsInv | k32/agent/static/user_service.cpp:506-525 | every step of any session, handler or timeout keeps this, for all users at once |
| Ownership.LostLogoutHydratesTwo | k32/agent/static/user_service.cpp:137-143 | the need for reliable RPC: unlocking after a lost `*role/logout` leads to two hydrated roles |
| Ownership.ClientComesBack | k32/agent/static/user_service.cpp:185-216 | every client that comes back to a role it was playing goes through a state in which the role is taken over and the connection not yet locked |
| Ownership.WelcomeIsReachable | k32/agent/static/user_service.cpp:265-425 | and any user gets there with any role |
| Journeys.LockedIff | k32/agent/static/user_service.cpp:125-178 | in every run a connection is locked on a role exactly if a takeover or the choice of a server for its login was the last event that took or freed the lock; an answered logout frees it |
| Journeys.LoginIsReachable | k32/agent/static/user_service.cpp:147-178 | from an idle, unlocked connection every cached role can be logged in on every server |
| Journeys.LogoutIsReachable | k32/agent/static/user_service.cpp:125-144 | a role that is played can be logged out; then it is out of the table and the connection unlocked |
| Journeys.PlayAgainIsReachable | k32/agent/static/user_service.cpp:1228-1273 | after that the same role or another one can be played |
| Journeys.SwitchIsReachable | k32/agent/static/user_service.cpp:147-178 | a login of another role logs the first one out and ends in play |
| Journeys.ComingBackIsReachable | k32/agent/static/user_service.cpp:182-216 | a client that has lost its connection can come back to the role it was playing |
| Journeys.FreshRoleIsResumed | k32/agent/static/user_service.cpp:218-236 | if no role is online, a fresh one can be loaded and played |
| Journeys.CachedRolesAreOwned | k32/agent/static/user_service.cpp:1218 | in every run a connection has cached exactly the roles that its user owns |
| Journeys.IdleRequests | k32/agent/static/user_service.cpp:1234-1268 | which requests of a client start something |
| Journeys.NothingToDo | k32/agent/static/user_service.cpp:150-165 | a locked role needs no login, and without a logic server there is none |
| Journeys.NoMonitor | k32/agent/static/user_service.cpp:167-176 | without a monitor the connection is locked and the logic server not asked |
| Journeys.CreationFails | k32/agent/static/user_service.cpp:1186-1216 | without a nickname, or with another user's role ID, nothing changes |
| Journeys.CloseForgets | k32/agent/static/user_service.cpp:506-520 | a close takes the record and tells the server it was locked on |
| Journeys.ReapedIsOut | k32/logic/static/role_service.cpp:177-184 | an inactivity logout takes the role out and leaves the agent's record alone |
| Journeys.RefusedIsOffline | k32/agent/static/user_service.cpp:265-300 | a session that cannot be opened leaves no record |
| RoleOwners.StepKeepsOwners | k32/monitor/static/role_service.cpp:189-377 | the user name of a role never changes in MySQL or Redis, whatever overlaps |
| RoleCreation.SerialIsNew | k32/agent/static/user_service.cpp:702-723 | a claim that inserts draws a serial that was never drawn and that no role has |
| RoleCreation.RolesKeepTheirOwners | k32/agent/static/user_service.cpp:1184-1218 | from any moment on, serials and roles stay with the user for whom they were drawn |
| RoleCreation.NoRoidConflict | k32/monitor/static/role_service.cpp:237-264 | roles created through an agent never answer "gs_roid_conflict" |
| RoleCreation.RetryGetsTheSameRole | k32/agent/static/user_service.cpp:724-750 | while a nickname is held, its holder's retries get the same role ID and nobody else gets any |
| RoleCreation.RereadSucceedsIff | k32/agent/static/user_service.cpp:735-750 | the SELECT gives the serial exactly to the holder, also if the nickname has been released in between |
| RoleCreation.RepeatedCreateKeepsRole | k32/monitor/static/role_service.cpp:237-274 | once a role exists it stays as it is until a logic server stores it, over any run of repeated creates, loads, flushes, saves and unloads |
| NewRoles.CreatedAsAsked | k32/agent/static/user_service.cpp:1200-1214 | when the INSERT takes effect, whatever has happened meanwhile, the row has the role ID, user, nickname and time of the request |
| RoleHomes.InsertedRow | k32/monitor/static/role_service.cpp:190-223 | a create inserts exactly the user, nickname and time it was given |
| NewRoles.ReleasedNicknameIsFree | k32/agent/static/user_service.cpp:760-792 | a released nickname is free for whoever asks next |
| NewRoles.EndedRequestLeavesNickname | k32/agent/static/user_service.cpp:1184-1216 | a failed creation leaves the nickname to its user |
| NewRoles.RoleIdsAreSerials | k32/agent/static/user_service.cpp:650-660 | in every run role IDs are serials that were drawn, from 15743 on |
| RoleCreation.StepKeepsInv | k32/agent/static/user_service.cpp:690-792 | what acquiring, releasing and creating keep together with all other handlers |
| NicknameService.NicknameTable.Acquire | k32/agent/static/user_service.cpp:690-757 | the handler with its two yields: a nickname held throughout yields its serial to the holder and a conflict to others |
| NicknameService.NicknameTable.Claimed | k32/agent/static/user_service.cpp:721-724 | after INSERT IGNORE |
| NicknameService.NicknameTable.Reread | k32/agent/static/user_service.cpp:735-750 | after the SELECT by nickname and user |
| NicknameService.NicknameTable.Release | k32/agent/static/user_service.cpp:760-792 | deletes the nickname, whoever holds it |
| RateLimit.RateBound | k32/agent/static/user_service.cpp:450-459 | at most limit * (T + 2) messages pass in the first T seconds, over all arrivals and resets |
| RateLimit.RateBoundIsMet | k32/agent/static/user_service.cpp:376-379 | and for every whole number of seconds the bound is reached |
| RateLimit.BurstFitsIff | k32/agent/static/user_service.cpp:450-459 | of messages that arrive at once all pass exactly if they fit into the limit, times the seconds since the last reset if there is more than one |
| AgentService.UserService.OnPingTimer | k32/agent/static/user_service.cpp:808-836 | exactly the dead and the silent are dropped with their users, all others get their meters reset, the half-silent are pinged |
| AgentService.UserService.CheckRate | k32/agent/static/user_service.cpp:450-459 | counts the message and passes it exactly if the meter allows |
| AgentService.UserService.CheckRole | k32/agent/static/user_service.cpp:896-926 | "gs_ok" exactly if the session is alive and the lock is this role on this server |
| AgentService.UserService.FindLast | k32/agent/static/user_service.cpp:156-162 | the loop ends with the last matching server, as it never lowers its bound |
| AgentService.UserService.LoginCommon | k32/agent/static/user_service.cpp:147-154 | nothing to do, log out first, or begin the login |
| AgentService.UserService.BeginLogin | k32/agent/static/user_service.cpp:156-178 | locks before it asks, and stays locked if no monitor is online |
| AgentService.UserService.LogoutReplied | k32/agent/static/user_service.cpp:141-154 | unlocks only after the answer, then goes on with the login if there is one; nothing if the record has been dropped |
| AgentService.UserService.ReconnectReplied | k32/agent/static/user_service.cpp:207-236 | locks the first online role, else resumes a fresh one if there is any; nothing if the record has been dropped |
| AgentService.UserService.Register | k32/agent/static/user_service.cpp:375-422 | a new session replaces the old one, unlocked |
| AgentService.UserService.OnClose | k32/agent/static/user_service.cpp:508-524 | only the session's own record goes, and its locked server is to be told |
| AgentService.RoleIsConfirmedIff | k32/agent/static/user_service.cpp:915-925 | in every reachable state the agent confirms a hydrated role to the server that has it exactly if the welcome exchange is over, and confirms nothing else of that user |
| AgentService.WelcomeIsDenied | k32/agent/static/user_service.cpp:203-214 | during the exchange it denies a role that its client has just taken over, for any user and role |
| RpcRuns.NoOrphanedRequest | k32/common/static/service.cpp:850-923 | in every run, each open slot of a live future has its local fiber or its entry in the waiting list |
| RpcRuns.CompletedExactlyWhenAllSlotsAre | k32/common/static/service.cpp:103-114 | a launched future is complete exactly if all slots are, zero targets and mixed errors included |
| RpcRuns.CompletenessIsNeverUndone | k32/common/static/service.cpp:226-235 | between any two moments no complete slot reopens and no completed future uncompletes |
| RpcRuns.ReplyReachesOnlyItsSlot | k32/common/static/service.cpp:201-205 | a reply changes at most the one slot with its UUID, of the service that sent it; stale ones never reach a reused entry's future |
| RpcRuns.ReplyReachesItsSlot | k32/common/static/service.cpp:176-209 | the answer to an open slot does arrive |
| RpcTags.AnswerArrives | k32/common/static/service.cpp:893-922 | in every run an open slot of a remote service has a session on record, and as long as that is alive, an answer over it completes the slot with what the peer said |
| RpcTags.EveryAnswerCounts | k32/common/static/service.cpp:102-110 | an answer is taken also by a slot that is complete already |
| RpcTags.CloseLeavesNothingOpen | k32/common/static/service.cpp:214-236 | in every run the close of the session on record leaves no open slot of its service |
| RpcTags.StepKeepsTags | k32/common/static/service.cpp:866-902 | why: a session is opened for the service of its record, and used again while it is alive |
| RpcTags.NewFuture | k32/common/fiber/service_future.cpp:9-20 | a new future has one open slot per target, in order |
| RpcTags.TargetsStay | k32/common/fiber/service_future.cpp:17-19 | and keeps these targets as long as it lives |
| RpcTags.RefreshInstalls | k32/common/static/service.cpp:525-545 | the subscribe timer installs its list and keeps exactly the records of listed services with a live session |
| RpcRuns.FiberReachesItsSlot | k32/common/static/service.cpp:159-161 | so does the answer of a local fiber |
| RpcRuns.CloseFreesItsService | k32/common/static/service.cpp:214-236 | a close fails exactly the open slots of its service, leaves none open, and touches no other |
| RpcRuns.PurgeLeavesOnlyLiveWaits | k32/common/static/service.cpp:525-564 | after a purge whatever is open waits on a live session of a known service |
| RpcRuns.StepKeepsInv | k32/common/static/service.cpp:93-236 | every event keeps watchers, unique requests and waiting lists consistent |
| RpcLaunch.EnrollDropsNobodyAlive | k32/common/static/service.cpp:905-916 | reusing an expired entry never drops one whose future is alive |
| RpcLaunch.LaunchKeepsInv | k32/common/static/service.cpp:835-928 | launching keeps it all, for any mixture and repetition of targets |
| RpcWaiting.WaitingListIsBounded | k32/common/static/service.cpp:905-916 | a waiting list is never longer than it once was with all its entries alive at once |
| RpcWaiting.LaunchFailsExactlyTheRefused | k32/common/static/service.cpp:857-887 | exactly which slots fail at once and with what error, and when the whole future does |
| RpcService.Service.SetResponse | k32/common/static/service.cpp:92-115 | the loop answers the slot and finds out whether all are complete |
| RpcService.Service.LoseConnection | k32/common/static/service.cpp:220-236 | the nested loops fail exactly the slots of that service in all waiting futures |
| RpcService.Service.FinishFiber | k32/common/static/service.cpp:134-161 | a local request fiber ends |
| RpcService.Service.OnMessage | k32/common/static/service.cpp:176-209 | the search for the reply's entry |
| RpcService.Service.OnClose | k32/common/static/service.cpp:214-240 | the close event |
| RpcService.Service.OnSubscribeTimer | k32/common/static/service.cpp:525-564 | the purge collects exactly the dead records, pops them from the back and fails what waits |
| RpcService.Service.Join | k32/common/static/service.cpp:905-916 | the search loop and the replacement or append |
| RpcService.Service.SendRemote | k32/common/static/service.cpp:866-922 | connect if need be, or fail as unreachable |
| RpcService.Service.LaunchOne | k32/common/static/service.cpp:847-923 | one slot: local fiber, unknown service, or remote |
| RpcService.Service.Launch | k32/common/static/service.cpp:845-928 | the loop over all slots, and completion at once if nothing is pending |
| HttpTheorems.PairingHolds | k32/common/static/http_requestor.cpp:28-69 | each live future has the status, the payload and the last `Content-Type` of the peer's answer to its own request, is untouched while that is out, or has failed with 0; it is completed at most once |
| HttpPairing.ContentTypeIsLast | k32/common/static/http_requestor.cpp:44-46 | the last header of that name counts; without one nothing changes |
| HttpTheorems.DefaultPorts | k32/common/static/http_requestor.cpp:146-166 | without a port a request goes to port 80 or 443, as its scheme says |
| HttpOrder.KthResponseAnswersKthRequest | k32/common/static/http_requestor.cpp:28-51 | on an open session the k-th final response is that of the k-th request, expired futures included, and the rest of the requests is the queue |
| HttpTheorems.RequestIsSafeIff | k32/common/static/http_requestor.cpp:166-186 | a request is safe whatever follows exactly if no session of the other scheme is open to its host and port |
| HttpTheorems.ExposureMispairs | k32/common/static/http_requestor.cpp:34-50 | the run that gives a mixed request's answer to another one |
| HttpTheorems.MixingIsReachable | k32/common/static/http_requestor.cpp:166-186 | such a request does occur: one host and port asked over HTTP and then over HTTPS |
| HttpTheorems.OtherMessagesChangeNothing | k32/common/static/http_requestor.cpp:31-36 | interim and unsolicited responses consume nothing |
| HttpTheorems.FinalMessage | k32/common/static/http_requestor.cpp:34-50 | a final response consumes one request, expired or not, and it is the one the peer answered |
| HttpTheorems.CloseFailsTheRest | k32/common/static/http_requestor.cpp:54-69 | on close exactly the live unanswered requests complete, once, with status 0 |
| HttpTheorems.StepKeepsInv | k32/common/static/http_requestor.cpp:28-206 | the queue is what is on the wire, through requests, responses, closes and expiries |
| HttpRequestor.Requestor.EnqueueWeak | k32/common/static/http_requestor.cpp:134-206 | connects if the session of this scheme is gone, and queues the future |
| HttpRequestor.Requestor.SetSingleResponse | k32/common/static/http_requestor.cpp:28-51 | pops one future and answers it if it is alive; the last `Content-Type` wins |
| HttpRequestor.Requestor.RemoveConnection | k32/common/static/http_requestor.cpp:54-69 | the drain loop fails what is left |
| HttpRequestor.Requestor.OnMessage | k32/common/static/http_requestor.cpp:83-85 | a message event |
| HttpRequestor.Requestor.OnClose | k32/common/static/http_requestor.cpp:87-90 | a close event |

## Left out

- Ownership.SingleHydration: does not cover a lost RPC, an incomplete service list or two sessions of one user at a time; LostLogoutHydratesTwo shows the first.
- RoleStore.TwoTiersRefineOneMap: no key expires in these runs, and an unload overlaps no other handler of its role; RoleStoreLimits says exactly which commands need this, SaveTiming why keys do not expire.
- DurableHistory.DurableNeverGoesBackwards: needs one persist per role at a time, as DurableLimits shows.
- LogicRelease.StoredBeforeRelease: speaks of one server's SETs, under `NoOverlap`; Handover has all servers, LoginKept the exact condition.
- Handover.NextLoginStartsFromLogout: needs `Exclusive`; that agents ask for one login at a time is `Ownership`, that no save visit of the role is still suspended elsewhere is assumed.
- LogicService.RoleService.StoreIntoRedis: the TTL and the serialised fields are not in it; SaveTiming has the TTL.
- OrphanReaping.OrphanIsReaped: a disconnection by a request within the first window is allowed, a later one starts the duration anew.
- OrphanReaping.LostConnectionIsReaped: the agent's records are given moment by moment, not by its handlers.
- DirtyData.DirtyDataReachesMysql: the times are those at which ticks begin; a tick's UPDATEs come before the next tick begins. A role that the monitor does not list is not visited.
- AgentService.UserService.ReconnectReplied: role IDs are at least 1, as every handler checks.
- RpcRuns.CompletenessIsNeverUndone: speaks of the flag only; losing a connection overwrites the error text of slots that are already complete.
- One connection per user across agents: a normal close erases only the connection while the check timer goes on publishing the user, so it does not hold of the code.
- The choice of the least loaded logic server: the loop never lowers its bound, so the last matching server is taken.
- Several monitors: one is modelled; records of another home appear as foreign.
- The `*role/flush` that a logic server requests after a logout: it may start at any moment in the store's runs.
- Role objects are table entries with identities, not heap objects; sharing is through the identity.
- Exceptions: a request that fails a check ends without any effect; an exception at a yield is the `Abort` or `Drop` of its fiber, or ends the session's callback.
- Nickname rules, UTF-8, widths, JSON and parsing of URIs: foreign code.
- Client requests to roles, pushes, kicks, bans, HTTP handlers and the clock: they touch none of the state above.
- WebSocket, Redis and MySQL clients, table checks, configuration, password salting and the choice of an address.
