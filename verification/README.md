# algod-mesh in Dafny

A model of the stateful core of the algod-mesh agent and machine-checked proofs
about it. Go's `sync.Mutex` sections become atomic events, `float64` becomes
`real`, an instant or a duration is an `int` of nanoseconds with 0 as Go's zero
time, and unsigned integers are `nat`. `dafny verify dfyconfig.toml` checks
everything.

## Layout

Most components come in three layers: a machine on values with one event per
locked section, laws over every run of that machine, and classes with the
source's own fields whose methods are proved to make the machine's steps.

| files | component |
|---|---|
| `RateWindow`, `Requests`, `Accounts`, `AccountLaws`, `Pricing`, `Bills`, `Spending` | one client's token buckets and requests in flight; what a request costs; what a client may spend |
| `LimiterSpec`, `Holders`, `LimiterLaws`, `Crowding`, `Limiter` | the whole rate limiter: key map, overflow account, sweep, save, load |
| `Paths`, `Mesh`, `MeshLaws`, `PingFates`, `Cadence`, `MeshStore`, `Directory` | mesh links: pings, losses, flags, path choice, registry records |
| `Wakeups` | channels closed and replaced; heartbeat acceptance and the fleet's round; the local monitor |
| `Passthrough` | the pass-through server's accept loops, splices, drain window and cut |
| `UpstreamStats`, `TxnPins`, `SyncJudges` | compact summaries against the whole history |
| `Upstreams`, `Routing`, `FleetLimits` | eligibility, selection, the fleet's simulate limits |
| `Registry` | splitting a record into call arguments and writing it to a box |

Where a state summarises a history, the history's answer is defined on its own,
from the list of events, and the state is proved equal to it in every run. A
ping's fate is read from the events in that way (`PingFates`); which paths a link
has, and which one it chose, are read from the run. Every account of the limiter,
the swept ones and the overflow account included, is shown to move by a run of its
own (`Holders.HeldIsARun`), so the laws of `AccountLaws` and `Spending` hold of
each of them in every run of the limiter. The
classes `Directories.Directory`, `FleetRounds.Rounds`, `UpstreamStats.Stats`,
`TxnPins.Cache` and `SyncJudges.SyncJudge` carry that list as a ghost field, so
the laws hold of the objects.

## What the proofs found

- A request that ends late is billed without a refill first
  (`internal/app/ratelimit.go:456-479`), while a save refills every key. So net
  spending over an interval stays within capacity plus rate times time plus the
  debt left in every continuation exactly when the bucket has not overflowed
  since its last refill or nothing in flight has anything left to bill
  (`SpendingBoundExactly`); the bound then holds of every account of the running
  limiter, sweeps included (`EveryAllowanceHolds`). A save shows in no continuation on that condition for
  both buckets (`SaveLeavesNoTraceExactly`). `OverflowWithABillOccurs` reaches an
  account that meets neither.
- A sweep makes room another client may take. A limiter with limited anonymous
  clients hides its sweeps from every run of at most n clients if and only if n
  is at most `MaxKeys` (`SweepsShowExactlyWhenCrowded`). Beyond `MaxKeys` a client
  sees no sweep while its own admissions find room, and a client with a token
  never does (`SweepIsUnobservable`, `TokensNeverSeeSweeps`).
- A file loaded into a limiter that already serves leaves each saved client the
  lower of its two levels, so what it spent since the start is not taken off the
  saved level (`LoadIntoServing`).
- A transaction pin lives less than three ttl, not two as its comment says
  (`internal/app/txnpins.go:8-10`): rotation waits for a call and counts from
  it. `OldPinRecalled` is an instance and `TwiceTtlExactly` the condition.
- A relaxed class of a simulate request that lists rounds is closed to the nodes
  that hold the rounds but are out of sync, and to no other node the strict class
  is open to (`RelaxingKeepsExactly`, `RelaxingLosesLateHolders`). The router
  relaxes only when nothing could serve the strict class, so it gives up no
  eligible node by it (`NothingIsGivenUp`).
- The breaker's `probing` flag always equals a run of failures at least as long
  as the threshold (`BreakerHolds`), so it adds nothing to the failure count.

## Model

| member | source | states |
|---|---|---|
| RateWindow.RefillComposes | internal/domain/ratelimit.go:32-45 | refilling at an instant in between leaves no trace, capacity clamp included |
| RateWindow.FullIsNew | internal/domain/ratelimit.go:59-61 | a full bucket and a new one are the same from then on |
| RateWindow.WaitIsExact | internal/domain/ratelimit.go:47-54 | Wait is the least number of nanoseconds after which the level holds the cost |
| RateWindow.LateChargeIsExact | internal/app/ratelimit.go:304-311 | a charge before or after an intermediate refill comes to the same exactly when that refill was not clamped or the charge has refilled since |
| RateWindow.RefillAddsAtMostAccrued | internal/domain/ratelimit.go:32-45 | a refill adds no more than rate times time |
| RateWindow.RefillIsProportional | internal/domain/ratelimit.go:32-45 | a bucket is refilled by its capacity once a period, in proportion, up to the capacity; a new one is full |
| Requests.BaseAtLeastWeight | internal/domain/ratelimit.go:135-142 | a readable simulation pays its weight at least once |
| Pricing.KeyIsBilled | internal/domain/ratelimit.go:116-129 | the one key a request is billed under, and by which features of it |
| Pricing.PriceCounts | internal/domain/ratelimit.go:131-142 | one group and one round cost the weight, as any request that is no readable simulation; one more group costs it once a round, one more round once a group |
| Pricing.AdmissionTakes | internal/app/ratelimit.go:230-276 | an admission takes that price from the account, an unreadable simulation too, no other request anything; a price beyond a window's capacity is a 403 |
| Pricing.ForbiddenExactly | internal/app/ratelimit.go:230-252 | a request is refused for good exactly when its needs are beyond one of the plan's caps, or its price beyond a window's capacity, and with that reason |
| Pricing.VerdictExactly | internal/app/ratelimit.go:253-270 | any other is put off exactly when it costs something and a window, less what is owed, lacks it; a simulation that cannot be read is then a 400 on a plan that bounds simulations; the rest are admitted |
| Pricing.WaitIsLeast | internal/app/ratelimit.go:332-351 | the wait is the least, of a second or more, after which both windows hold the price less what is owed, and the window is the slower one |
| Pricing.CreditsByKind | internal/domain/effort.go:106-118 | each kind of effort costs at its own rate, a trace by the kilobyte, a kind without a rate nothing |
| Pricing.CreditsAdd | internal/domain/effort.go:80-84 | several attempts cost what they cost one by one |
| Pricing.BusyAnswerCosts | internal/app/ratelimit.go:481-491 | a busy answer without effort costs the default weight or the base, whichever is less, and the rest is given back |
| Pricing.HeaderTells | internal/app/ratelimit.go:359-387 | each limited window has a gauge under its own name: capacity, period, what is left, and the least whole seconds until it is full |
| Pricing.HeadersAreCurrent | internal/app/ratelimit.go:257-262 | every answer's headers tell the account as the event leaves it |
| AccountLaws.TidyRun | internal/app/ratelimit.go:299-311 | one account: no level exceeds its capacity after any event of any run, sweeps included |
| AccountLaws.FrozenStaysFrozen | internal/app/ratelimit.go:416-425 | once frozen, a request's extra is final through any later events |
| AccountLaws.HeaderIsBill | internal/app/ratelimit.go:438-479 | the cost in the response header is what the ticket is finally billed, whatever comes between |
| Bills.BillIsFromEvents | internal/app/ratelimit.go:408-479 | from the list of events: a request is billed its price, or the default weight once refunded, plus the effort reported for it before its response or else its time in flight |
| Bills.AdmissionStarts | internal/app/ratelimit.go:267-276 | an admitted request is in flight from its instant, at its price, with nothing run up |
| Bills.TickCancelsExactly | internal/app/ratelimit.go:513-537 | a tick cancels exactly the cancellable requests not yet fixed of a client with a simulation in flight whose windows no longer hold what they have all run up |
| Bills.ExhaustedWaits | internal/app/ratelimit.go:493-503 | the wait after a cancellation is the least, of a second or more, until both windows hold the base again |
| AccountLaws.StopsAreBounded | internal/app/ratelimit.go:513-537 | a ticket's cancel fires at most once per admission and never once frozen |
| AccountLaws.NoStopAfterResponding | internal/app/ratelimit.go:438-451 | no cancel after the response has begun |
| AccountLaws.TickLeavesNothingToStop | internal/app/ratelimit.go:513-537 | after a tick an overdrawn metered account has no unfrozen cancellable request, and one in credit loses none |
| AccountLaws.LedgerBalances | internal/app/ratelimit.go:230-276 | one account: over every run, what was taken equals the bills of finished tickets, each once, plus unreadable simulations, plus the bases in flight |
| AccountLaws.StockRun | internal/app/ratelimit.go:299-311 | a bucket ends no higher than it began plus what accrued less the debits |
| Spending.SpendingBound | internal/app/ratelimit.go:230-311 | net credits billed over any interval are at most capacity plus rate times the interval plus the debt left, from any account whose bucket has not overflowed or that has nothing left to bill, every idle one included |
| Spending.SpendingBoundExactly | internal/app/ratelimit.go:456-479 | the bound holds of every continuation of any account if and only if its bucket has not overflowed since its last refill or nothing in flight has anything left to bill |
| Spending.OverSpend | internal/app/ratelimit.go:408-412 | the run that breaks the bound otherwise |
| Spending.OverflowWithABillOccurs | internal/app/ratelimit.go:455-479 | an account reached from a new one that spends over its allowance and shows a save |
| AccountLaws.NoDebtWithoutExtras | internal/app/ratelimit.go:334-351 | while no request runs up extra no level is ever negative, whatever the prices |
| AccountLaws.PlainRunsAreExtraFree | internal/app/ratelimit.go:416-425 | a client with no metered and no reported request runs up none, whatever a second costs |
| AccountLaws.IdleOnlyRefills | internal/app/ratelimit.go:541-558 | other clients' events, ticks, saves and sweeps that refill or forget it come to no more for an idle account than a refill |
| AccountLaws.RetryAfterIsExact | internal/app/ratelimit.go:242-262 | an idle client refused with a wait passes at every instant from now plus wait, and at none before when the wait is over the one-second floor |
| AccountLaws.RetryAfterHeaderSuffices | internal/app/ratelimit.go:217-225 | the header's whole seconds are long enough |
| Spending.EarlyRun | internal/app/ratelimit.go:299-311 | a refill that comes early shows in no run, and changes no debit, when nothing is lost to the capacity or nothing is left to bill |
| Spending.SaveLeavesNoTraceExactly | internal/app/ratelimit.go:609-632 | a save shows in no continuation if and only if it overflows neither bucket or nothing in flight has anything left to bill |
| Holders.HeldIsARun | internal/app/ratelimit.go:278-293 | in every run of the limiter each client's account and the overflow account are where a run of its own takes it: the admissions billed to it, its tickets' events, the ticks, saves and sweeps that reach it |
| Holders.MineIsFaced | internal/app/ratelimit.go:230-293 | what such an event shows is what the client, or the holder of the ticket, sees of the limiter |
| Holders.EveryAccountIsTidy | internal/app/ratelimit.go:278-311 | after any history of runs, restarts and files read no account's level exceeds its capacity, the overflow account's included |
| Holders.EveryLedgerBalances | internal/app/ratelimit.go:230-293 | over every run of the limiter, sweeps and crowded admissions included, what was taken from each account equals what its holders were billed plus the bases in flight |
| Holders.EveryAllowanceHolds | internal/app/ratelimit.go:278-311 | no account, swept or shared, spends over its allowance when its bucket has not overflowed or it has nothing left to bill |
| Holders.EveryHeaderIsBill | internal/app/ratelimit.go:438-479 | a ticket of any account is billed what its header said, whatever the limiter does between |
| Holders.NoStopOnceAnswered | internal/app/ratelimit.go:513-537 | a ticket of any account is not cancelled by any tick after its response has begun |
| Holders.RetryAfterHolds | internal/app/ratelimit.go:242-262 | Retry-After is exact for a tracked client of the running limiter, though it be swept or forgotten meanwhile, unless it then finds the limiter crowded |
| LimiterLaws.ForgottenIsAlike | internal/app/ratelimit.go:539-551 | an idle account full again may be replaced by a fresh one |
| LimiterLaws.AgreementStep | internal/app/ratelimit.go:278-293 | one event keeps the limiter in agreement with a client's ideal account and shows the client the same, unless it is the client's own crowded admission |
| LimiterLaws.LimiterRefinesIdeal | internal/app/ratelimit.go:230-293 | over every run in which a client's own admissions find room it sees in every event what its ideal account would show, whoever else is swept, crowded or shares |
| LimiterLaws.SweepIsUnobservable | internal/app/ratelimit.go:539-561 | such a client sees of a limiter swept at any moments what it sees of one never swept, its saved entry included |
| LimiterLaws.TokensNeverSeeSweeps | internal/app/ratelimit.go:278-293 | a client with a token does in every run, however crowded |
| LimiterLaws.SweepForgetsExactly | internal/app/ratelimit.go:541-561 | a sweep forgets exactly the idle clients with a full allowance, and an overflow account like that once fewer than MaxKeys are left |
| LimiterLaws.SaveWritesExactly | internal/app/ratelimit.go:609-632 | a save writes exactly the clients whose allowance less what is owed is not full, and that much |
| LimiterLaws.LoadKeepsExactly | internal/app/ratelimit.go:651-687 | a load drops unknown clients and touches only the file's |
| Crowding.SweepIsInvisibleWithRoom | internal/app/ratelimit.go:539-561 | a run of at most MaxKeys clients has the whole trace of the run without its sweeps |
| Crowding.CrowdedRun | internal/app/ratelimit.go:278-293 | for every limited anonymous plan a run of at most one client more in which a sweep shows |
| Crowding.SweepsShowExactlyWhenCrowded | internal/app/ratelimit.go:278-293 | sweeps are hidden from all runs of at most n clients if and only if n is at most MaxKeys |
| Crowding.SweepShowsWhenCrowded | internal/app/ratelimit.go:278-293 | an instance with one key and three clients: a third client is admitted after a sweep and refused without |
| LimiterLaws.LoadedAgrees | internal/app/ratelimit.go:649-687 | a limiter started from a saved file agrees on every client with the uninterrupted one, its requests in flight billed as they stood, whatever history led to the save |
| LimiterLaws.RestartIsTransparent | internal/app/ratelimit.go:607-687 | from the load on, every client whose admissions find room sees what an uninterrupted ideal would show |
| LimiterLaws.IdleRestartIsUnobservable | internal/app/ratelimit.go:607-687 | a client with nothing in flight sees of the restarted limiter what it sees of the one that kept running, whatever others have in flight |
| LimiterLaws.LoadIntoServing | internal/app/ratelimit.go:676-680 | loaded while serving, a client keeps the lower level of each window and its requests in flight, and sees from then on what the ideal of that account would show |
| LimiterLaws.NoTicketIsLost | internal/app/ratelimit.go:267-274 | no sweep, save, tick or overflow loses the account of a request in flight |
| Limiters.Ticket.Reported | internal/app/ratelimit.go:408-412 | adds the attempt's effort, and changes nothing else of the limiter |
| Limiters.Ticket.Tracked | internal/app/ratelimit.go:426-431 | makes the ticket cancellable |
| Limiters.Ticket.Responding | internal/app/ratelimit.go:438-451 | the key's new account, and the header's cost and allowance |
| Limiters.Ticket.Done | internal/app/ratelimit.go:455-479 | bills once; a second call changes nothing |
| Limiters.Ticket.Exhausted | internal/app/ratelimit.go:493-503 | the refill and the wait of at least a second |
| Limiters.Limiter.Admit | internal/app/ratelimit.go:230-276 | the limiter's whole new state and the answer are the specification's |
| Limiters.Limiter.Tick | internal/app/ratelimit.go:513-537 | every active key ticks and no other changes |
| Limiters.Limiter.Sweep | internal/app/ratelimit.go:541-561 | exactly the idle full clients go, and the overflow account when there is room |
| Limiters.Limiter.Save | internal/app/ratelimit.go:609-632 | the file holds exactly the accounts not full, what is owed taken off |
| Limiters.Limiter.Load | internal/app/ratelimit.go:651-687 | unknown clients dropped, known ones keep the lower level, the rest restored |
| Limiters.Limiter.MovedIsAStep | internal/app/ratelimit.go:97-121 | a ticket's method on its own key is a step of the whole limiter |
| Paths.BestIsFirstBest | internal/domain/path.go:37-48 | the running best is alive, measured if any is, of the least rtt, and the first such |
| Paths.Choose | internal/domain/path.go:37-66 | a path that does not work is left for the best alive one, a working one for the best exactly when that is a quarter faster two probe intervals after the last switch; and the reason |
| Paths.ChoiceIsAlive | internal/domain/path.go:37-66 | the index is -1 exactly when no path is alive, else names an alive one |
| Paths.SwitchesHaveReasons | internal/domain/path.go:37-66 | a working path is left only for one a quarter faster after two probe intervals |
| MeshLaws.NoncesHold | internal/app/directory.go:787-818 | in every interleaving outstanding nonces are distinct and at most the counter |
| MeshLaws.PongCreditsOnePath | internal/app/directory.go:683-697 | a pong matches at most one path of all links |
| MeshLaws.SmoothedMovesAFifth | internal/app/directory.go:686-692 | a measured rtt moves a fifth of the way to a sample, and stays between the two |
| PingFates.NonceIsOutstanding | internal/app/directory.go:787-818 | a path's nonce and instant are those of its one ping issued and neither answered, expired nor forgotten |
| PingFates.FailsCountLosses | internal/app/directory.go:640-646 | a path's loss count is its expired pings since its last datagram or matched pong, a ping's fate read from the events |
| PingFates.FlagsAreLastProofs | internal/app/directory.go:531-555 | a path is flagged unroutable, or deaf, exactly when the last proof either way said so; an unknown send error proves nothing |
| Cadence.CadenceHolds | internal/app/directory.go:781-820 | from the events: a round pings exactly the linked paths with no ping out, or one just lost, that were never pinged or hurried since; or last answered, three times lost or unroutable and ProbeInterval after; or twice PathTimeout after |
| Cadence.AliveIsHistory | internal/app/directory.go:364-366 | a path is alive exactly when it was not last proved unroutable or deaf and fewer than three pings are lost since its last contact |
| Cadence.RttIsOfItsPings | internal/app/directory.go:683-692 | an rtt moves only with a pong to an outstanding ping, a fifth of the way to the time between the two |
| Cadence.LastSeenIsContact | internal/app/directory.go:640-646 | a path was last seen by the last datagram from its address |
| Cadence.HeardAtIsLastBeat | internal/app/directory.go:651 | a link was last heard by its peer's last heartbeat |
| MeshLaws.RoundsHold | internal/app/directory.go:787-857 | while a round of pings is out, every refused nonce still outstanding is one the round will forget |
| MeshLaws.RoundTakesAllLinks | internal/app/directory.go:787-836 | a round is of all the links there are, and its pings carry the nonces after the counter in order |
| MeshLaws.LateLinksAreNotAsked | internal/app/directory.go:849-852 | a link that appears while a round is out is not asked at its end |
| MeshLaws.LostPingsHadARoute | internal/app/directory.go:840-848 | a ping that found no route is never counted as a loss |
| MeshLaws.IndicesHold | internal/app/directory.go:320-353 | every link's index is -1 or names one of its paths |
| MeshLaws.ChoiceNamesAnAlivePath | internal/app/directory.go:386-405 | after a choice on a node the index is -1 exactly when no path is alive, else names an alive one |
| MeshLaws.SwitchedAtIsLast | internal/app/directory.go:386-405 | a link remembers the instant of its last switch, across record changes |
| MeshLaws.AnswersAreTaken | internal/app/directory.go:245-294 | the policy is asked by new records, by pings and matching pongs and at the end of the link's rounds, and only then, and the link takes its answer |
| MeshLaws.SwitchIsSeen | internal/app/directory.go:386-405 | outside new records a link switches exactly when its path changes |
| MeshLaws.SwitchesAreJustified | internal/app/directory.go:386-405 | over every run, asked about a link whose path does not work the policy names the best; about a working one it switches to the best exactly by the margin and the cooldown since the link's last switch |
| MeshStore.PlacesAreTidy | internal/app/directory.go:317-353 | a synced link has one path an address, each its own or new |
| MeshStore.SyncFollowsRecord | internal/app/directory.go:320-353 | a link takes its record's addresses in order, repeats dropped, survivors on the path they had; the current path stays current while its address survives |
| MeshStore.LinksFollowRecords | internal/app/directory.go:245-294 | after new records each has such a link, and every path measured before is still as it was |
| MeshStore.OnlyRecordsAreLinked | internal/app/directory.go:277-282 | and no other peer has one |
| MeshStore.StoreHolds | internal/app/directory.go:245-294 | in every run no link names a missing path and no two links share one |
| Directories.Directory.Receive | internal/app/directory.go:598-711 | one datagram is one event of the machine; whether the link switched |
| Directories.Directory.MatchPong | internal/app/directory.go:683-697 | exactly the matching paths are credited, and whether there was one |
| Directories.Directory.CheckBegin | internal/app/directory.go:787-820 | exactly the due paths are pinged, each with a nonce of its own |
| Directories.Directory.CheckPath | internal/app/directory.go:801-818 | one path: an expired ping is a loss, a due path gets the next nonce |
| Directories.Directory.CheckSent | internal/app/directory.go:539-554 | each ping's send result sets its own path's flag |
| Directories.Directory.CheckEnd | internal/app/directory.go:837-857 | unroutable pings forgotten, the round's links choose; whether any switched |
| Directories.Directory.HeartbeatJobs | internal/app/directory.go:493-513 | exactly one datagram per link with a path, none for a balancer |
| Directories.Directory.BeatsSent | internal/app/directory.go:525-554 | each heartbeat's send result sets its own path's flag |
| Directories.Directory.Silence | internal/app/directory.go:745-755 | entering silence makes every idle path due |
| Directories.Directory.SyncLink | internal/app/directory.go:320-353 | surviving addresses keep their measurements, and the index follows its path |
| Directories.Directory.SetRecords | internal/app/directory.go:245-294 | the links become the records', each choosing its path; whether any switched |
| Wakeups.InvStep | internal/app/directory.go:467-475 | a waiter's reading is current for as long as its channel is open |
| Wakeups.NoLostWakeup | internal/app/directory.go:1128-1144 | a waiter with something to wake for can be woken |
| FleetRounds.PeersAgree | internal/app/directory.go:650-658 | a peer's last accepted heartbeat is the history's |
| FleetRounds.RoundIsHighest | internal/app/directory.go:659-663 | the fleet's round is the highest reported by an accepted heartbeat of a peer not excluded, or by the local node, online |
| FleetRounds.ClosesOnNewHighs | internal/app/directory.go:467-475 | the waiters' channel is closed by exactly the events that raise it |
| FleetRounds.WaitersMissNothing | internal/app/directory.go:1128-1144 | a blocked waiter on an open channel waits for a round not yet reported; a released one returns a later round |
| FleetRounds.Rounds.HandleHeartbeat | internal/app/directory.go:648-665 | whether the heartbeat is accepted, by the history's rule |
| FleetRounds.Rounds.NoteRound | internal/app/directory.go:467-475 | only a new high replaces the channel, closing the old one |
| FleetRounds.Rounds.OnLocalChange | internal/app/directory.go:454-464 | a local state counts once |
| FleetRounds.Rounds.Look | internal/app/directory.go:1130-1144 | the highest round, and the open channel that stands for it |
| FleetRounds.Rounds.OpenMeansNothingYet | internal/app/directory.go:1130-1144 | while a waiter's channel is open the highest round is the one it saw |
| MonitorWaits.WaitersMissNothing | internal/app/monitor.go:123-139 | the same for the local node's status |
| MonitorWaits.Monitor.Update | internal/app/monitor.go:114-121 | every update closes every channel given out before |
| MonitorWaits.Monitor.Look | internal/app/monitor.go:125-139 | the status to replay, or the open channel to wait on |
| Passthrough.InvHolds | internal/adapters/passthrough/passthrough.go:80-238 | the counters, ends and cut ledger hold in every interleaving |
| Passthrough.ShutdownIsClean | internal/adapters/passthrough/passthrough.go:203-238 | when Shutdown returns nothing is alive, every spliced pair is closed, and the cut count is the pairs open at the cut plus those tracked after it |
| Passthrough.NoAddDuringWait | internal/adapters/passthrough/passthrough.go:211-216 | nothing joins the wait group once the wait on it has begun |
| Passthrough.NothingOutlivesTheCut | internal/adapters/passthrough/passthrough.go:168-178 | past the cut every tracked pair is closed at both ends |
| Passthrough.CutCountGrowth | internal/adapters/passthrough/passthrough.go:171-178 | what moves the cut count, and by how much |
| Passthrough.Splices.TrackPair | internal/adapters/passthrough/passthrough.go:171-190 | one pair recorded or forgotten; closed and counted on the spot past the cut |
| Passthrough.Splices.CutOpen | internal/adapters/passthrough/passthrough.go:222-228 | every open connection closed, each pair counted once |
| UpstreamStats.RingHolds | internal/app/stats.go:78-88 | the ring holds exactly the last outcomes, a transport error, a server error or a 429 being a failure |
| UpstreamStats.RingCounts | internal/app/stats.go:129-138 | counting slots in place counts the last outcomes' failures |
| UpstreamStats.BreakerHolds | internal/app/stats.go:89-104 | probing means a run of at least threshold failures, and the breaker's time counts from the last such failure |
| UpstreamStats.OpenCountsFromLastFailure | internal/app/stats.go:89-94 | while such a run lasts the breaker counts from its latest failure |
| UpstreamStats.LatencyHolds | internal/app/stats.go:103-108 | a key's latency is the weighted average of its successes' milliseconds, the newest weighing Alpha |
| UpstreamStats.LatencyStaysBetween | internal/app/stats.go:103-108 | and within the range of its samples |
| UpstreamStats.FlightsHold | internal/app/stats.go:63-75 | requests in flight are those begun and not released |
| UpstreamStats.DeadlinesHold | internal/app/stats.go:95-97 | throttled until OpenFor after the last 429, busy until the maximum of the instants asked for |
| UpstreamStats.Stats.Begin | internal/app/stats.go:63-75 | a request under a ticket of its own |
| UpstreamStats.Stats.Record | internal/app/stats.go:78-109 | one outcome is one event of the machine |
| UpstreamStats.Stats.Busy | internal/app/stats.go:112-118 | the busy time only grows |
| UpstreamStats.Stats.Take | internal/app/stats.go:121-149 | every figure is the history's, the error rate over the last min(n, Window) outcomes |
| UpstreamStats.Release.Call | internal/app/stats.go:67-75 | releases once, however often it is called |
| UpstreamStats.ReleasesAreSeparate | internal/app/stats.go:63-75 | one request's release leaves every other's as it was |
| TxnPins.RecallIsLatest | internal/app/txnpins.go:44-53 | a recall finds every pin of at most ttl, always the latest, never one of three ttl |
| TxnPins.OldPinRecalled | internal/app/txnpins.go:8-10 | an instance of a pin recalled after two ttl |
| TxnPins.TwiceTtlExactly | internal/app/txnpins.go:25-32 | every later answer is of a pin younger than two ttl, except exactly when the pin is in the older generation, was rotated more than ttl after it and the next rotation is not due |
| TxnPins.Cache.Remember | internal/app/txnpins.go:34-42 | pins, or ignores an empty id |
| TxnPins.Cache.Recall | internal/app/txnpins.go:44-53 | the answer against the history of calls |
| SyncJudges.JudgeAgrees | internal/domain/health.go:70-96 | in every history the published health is the one defined from the history |
| SyncJudges.SyncedWasEarned | internal/domain/health.go:21-37 | after a loss Synced needs Required good observations, each at a new round, no loss between |
| SyncJudges.RepeatingChangesNothing | internal/domain/health.go:91-95 | a repeated observation neither advances nor resets |
| SyncJudges.ReturnHysteresis.Observe | internal/domain/health.go:21-37 | the streak, the trust and the health published |
| SyncJudges.SyncJudge.Judge | internal/domain/health.go:70-96 | publishes the history's health |
| Upstreams.BestRound | internal/domain/eligible.go:137-145 | the highest round of the reachable upstreams not excluded |
| Upstreams.BestRoundIgnoresExcluded | internal/domain/eligible.go:132-145 | one value whatever the order and the excluded upstreams |
| Upstreams.EligibleExactly | internal/domain/eligible.go:5-73 | an upstream is eligible exactly when it meets every rule, stated on its own fields and the class's |
| Upstreams.ServesExactly | internal/domain/eligible.go:147-160 | what could serve is what is capable of the class, whatever its state |
| Upstreams.CouldServe | internal/domain/eligible.go:152-160 | whether some upstream is capable of the class |
| Upstreams.EligibleCouldServe | internal/domain/eligible.go:147-160 | what may serve now could serve |
| Upstreams.ServesWhenRestored | internal/domain/eligible.go:147-160 | what could serve may, exactly, once back and in sync |
| Upstreams.CouldServeIgnoresExcluded | internal/domain/eligible.go:147-160 | excluded upstreams do not move the answer |
| Routing.Select | internal/domain/select.go:75-147 | a selection exists exactly when some candidate meets every rule, and holds, chosen or alternate, exactly those that do |
| Routing.SelectsWhenEligible | internal/domain/select.go:75-86 | a request is routed if and only if some candidate meets every rule |
| Routing.LessExactly | internal/domain/select.go:96-116 | the order: tier, then off the edge while a time-travel node is eligible, then score, then id |
| Routing.EdgeExactly | internal/domain/select.go:149-163 | which upstreams are on the edge of their state window |
| Routing.BeforeIsLexicographic | internal/domain/select.go:112-116 | ids are compared as strings |
| Routing.SortSorts | internal/domain/select.go:98-116 | the order sorts: a permutation with nothing before what precedes it |
| Routing.SelectionIsPermutation | internal/domain/select.go:142-147 | chosen and alternates are the eligible upstreams, alternates in order |
| Routing.ChosenIsInTheLowestTier | internal/domain/select.go:117-141 | nothing eligible is in a tier before the chosen one's |
| Routing.FallbackChoosesFirst | internal/domain/select.go:68-74 | without a draw nothing eligible comes before the chosen one |
| Routing.EdgeIsAvoided | internal/domain/select.go:122-135 | with a time-travel node eligible, an edge peer is chosen only when its whole tier is on the edge |
| Routing.LocalFirstExternalLast | internal/domain/select.go:165-178 | fallback prefers the local node, externals come last, a load balancer's own node is one more of its tier |
| Routing.BetterDrawIsTaken | internal/domain/select.go:135-140 | of two draws the one with the better score is chosen |
| Routing.EveryTopCanBeDrawn | internal/domain/select.go:122-140 | every eligible upstream of the lowest tier can be drawn, edge peers aside |
| Routing.SelectedMayServe | internal/domain/eligible.go:5-73 | chosen and alternates are exactly the candidates that meet every rule, with their scores |
| Routing.ScoreCounts | internal/domain/select.go:29-53 | a score starts from the latency of the request's kind, the default's or the one assumed; each request in flight and the error rate add their penalties; no weights are the defaults |
| Routing.ScorePlaces | internal/domain/select.go:29-53 | each round behind adds its penalty, being local takes the bonus off, being external adds the penalty |
| Routing.WorseScoresNoLower | internal/domain/select.go:29-53 | errors, lag, load, latency, being remote or external never improve a score, under given weights or the defaults |
| Routing.SortedIsUnique | internal/domain/select.go:96-116 | a set of upstreams has one sorted list |
| Routing.OrderDoesNotMatter | internal/domain/select.go:68-74 | with distinct ids the selection does not depend on the candidates' order |
| Routing.ExcludedChangeNothing | internal/domain/select.go:76-82 | excluded candidates might as well not be there |
| Upstreams.LimitsStand | internal/domain/types.go:142-162 | which configured limits stand as they are, and what the others stand for |
| Upstreams.LimitsReadBack | internal/domain/types.go:142-162 | limits are within the fork's ceilings and read back as they are |
| FleetLimits.SpanOf | internal/domain/classify.go:167-178 | the earliest and latest rounds listed, and whether the latest round is |
| FleetLimits.ApplySimulate | internal/domain/classify.go:148-185 | what the body makes of the class |
| FleetLimits.AppliedIsUnique | internal/domain/classify.go:142-185 | and only that |
| FleetLimits.NeedsTell | internal/domain/classify.go:141-157 | what a body asks of a node and of a plan |
| FleetLimits.PlanDenies | internal/domain/ratelimit.go:82-101 | a plan that denies an option or bounds a size refuses every body that uses or exceeds it |
| FleetLimits.ListedRoundsAreHeld | internal/domain/eligible.go:31-62 | a node that may serve a rounds list has every listed round, and is in sync when the latest is listed |
| FleetLimits.FleetSimulateLimits | internal/domain/eligible.go:187-210 | the limits of the first of the eligible nodes that report them, and the least multiplier of all eligible ones |
| FleetLimits.ReportIsUnique | internal/domain/eligible.go:174-186 | one answer whatever the order and the excluded candidates |
| FleetLimits.ReplyTells | internal/domain/eligible.go:206-210 | the reply's fields are the node's own |
| FleetLimits.AboveCompares | internal/domain/eligible.go:212-229 | limits are compared in order: groups, rounds, budget, time travel, developer API, id |
| FleetLimits.LargestComesFirst | internal/domain/eligible.go:212-229 | a node whose limits are all at least another's comes first |
| FleetLimits.PromiseIsKept | internal/domain/eligible.go:174-186 | any request within the reported limits is eligible on the reported node and is routed without relaxing |
| FleetLimits.RelaxingDrops | internal/domain/classify.go:187-204 | a rounds list goes first, with the round and window it gave, then the body's other needs; a single round stays |
| FleetLimits.RelaxingOnlyWidens | internal/domain/classify.go:187-204 | for a node in sync every relaxed class asks no more |
| FleetLimits.RelaxingKeepsExactly | internal/domain/classify.go:187-204 | which nodes of the strict class a relaxed one is closed to |
| FleetLimits.RelaxingLosesLateHolders | internal/domain/classify.go:187-204 | an instance |
| FleetLimits.NothingIsGivenUp | internal/app/router.go:559-579 | where the router relaxes, nothing was eligible |
| Registry.LengthComesFirst | internal/adapters/registryalgo/contract.go:127-138 | two length bytes, the high one first, then the value |
| Registry.DecodeInverts | internal/adapters/registryalgo/contract.go:127-138 | a length-prefixed argument decodes to what was encoded |
| Registry.EncodeInverts | internal/adapters/registryalgo/contract.go:127-138 | and nothing else does |
| Registry.PartsJoin | contract/smart_contracts/registry/client.ts:55-59 | the four parts join to the value |
| Registry.PartsExceedLimit | internal/adapters/registryalgo/contract.go:96-99 | four full parts exceed the largest value |
| Registry.PutFitsTheProtocol | internal/adapters/registryalgo/contract.go:65-100 | each argument, their sum and the box references are within the limits |
| Registry.PutArgs | internal/adapters/registryalgo/contract.go:104-116 | splits exactly as the TypeScript client, or refuses |
| Registry.EncodeCall | internal/adapters/registryalgo/contract.go:123-140 | the selector, then each argument by its type |
| Registry.CallFee | internal/adapters/registryalgo/contract.go:145-155 | the TypeScript client's fee over the summed lengths |
| Registry.FeeIsLeast | contract/smart_contracts/registry/client.ts:64-68 | the least whole amount that covers the surcharge |
| Registry.FourSplices | contract/smart_contracts/registry/contract.algo.ts:29-37 | four writes at a running offset leave the concatenation |
| Registry.Contract.Put | contract/smart_contracts/registry/contract.algo.ts:25-38 | the box holds the parts' concatenation and no other box changes; the creator only |
| Registry.Contract.Remove | contract/smart_contracts/registry/contract.algo.ts:42-45 | the box goes, and a missing one is no error |
| Registry.PutRoundTrips | internal/adapters/registryalgo/contract.go:102-116 | for every value accepted the encoded call decodes to its tag and to parts that join to the value, within a box |
| Registry.Contract.CallPut | contract/smart_contracts/registry/contract.algo.ts:25-38 | a call's arguments decoded and put: the tag's box holds the joined parts, or nothing changes |
| Registry.Contract.Publish | internal/adapters/registryalgo/contract.go:102-116 | the whole way: a value split, encoded, sent and put by the creator leaves exactly it in the box |

## Assumptions

- The clock does not run backwards, and real instants are after the zero time.
- Arithmetic is exact: no float rounding, no wrap-around of `uint64` rounds,
  nonces or sequence numbers, no overflow of `time.Duration`.
- Registry records given to SetRecords have distinct ids and no empty address;
  those of other networks and of the node itself are already dropped, and
  "authenticated by peer p" is a fact of a datagram.
- Candidate ids are distinct where an order-independence law says so, and tiers
  are small against half an int32 in `LocalFirstExternalLast`.
- `TxnPins` has a positive ttl, and the stats window is positive (an empty one
  panics in the source).
- The pass-through server has one Serve and one Shutdown call.

## Left out

- Spending.SpendingBoundExactly: when both windows are limited and no reported work has a price only `SpendingBound`'s half is stated, because spending what a refill gives back is then held back by the other window too.
- Directories.Directory.CheckEnd: a link dropped by SetRecords while the round was out chooses once more in the source, which can only hasten a heartbeat; the model asks the links still registered.
- HTTP handling, proxying, CORS and header text: an answer's status, busy flag and Retry-After are inputs.
- UDP, the in-memory hub, route lookup: a send's result is ok, no route or another error, at will.
- Signatures, sealing, JSON and msgpack, YAML, the CLI, metrics and logs.
- Goroutine scheduling and liveness: safety, and "blocked means nothing to wake for".
- Which client a request belongs to (`Identify`, `clientKey`, address parsing): a client is a name the configuration knows or not.
- An anonymous client whose address is literally `overflow`, whose saved key planOf drops.
- A client whose own admission is crowded is not compared with an ideal of its own: the sweep and restart laws are per client, for runs in which its admissions find room.
- The state file's encoding, and writing it atomically: a file is the map it holds.
- SimulateCaps.Check's messages: a refusal names its cap only.
- The rings of several upstreams in one StatsBook: the model is one upstream's entry, and entries share nothing.
- sort.SliceStable is modelled as a stable insertion; the library's own algorithm is not.
- The directory's Snapshot, direct probes of silent peers, external health checks and bestRoundLocked, which feed the candidates and observations the model takes as given.
- The heartbeat ladder's own timers and the nudge to send a heartbeat early: a method says whether a link switched, and no more.
- The pong sent in reply to a ping, and the pings' heard_ms field: both read the link and change nothing.
- Directories.Directory: paths are entries of a store named by number instead of pointers, so aliasing between goroutines is the store's numbers.
- OldestRoundFor, CapabilityOverrides.Apply, ProbeOldestRound, BoxMinBalance, GossipAddrs and Classify's path table: arithmetic or tables that would only add easy members.
- ParseEffort and the text of credits: parsing and formatting.
