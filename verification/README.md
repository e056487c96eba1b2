# ZeroRouter: a verified model

ZeroRouter sells inference from a prepaid balance. A request walks a route of upstream candidates until one answers;
money comes in through Stripe webhooks and automatic recharges, and goes back out on refunds and disputes. This
project models, in Dafny, the parts of the router where many things can happen in many orders, and proves what holds
whatever the order.

- **Prepaid credit** (`Billing*.dfy`). The tables of `billing.rs` and every transaction on them, run serially
  (`Billing`), interleaved statement by statement under the user, PaymentIntent and row locks (`BillingProtocol`,
  `BillingConcurrency`), waiting for each other in circles in two ways only (`BillingDeadlock`), written as in-place
  updates (`BillingStore`), and driven by webhooks that may arrive in any order, twice, or fail half way, one
  transaction at a time (`BillingDelivery`) and statement by statement under the locks (`BillingWebhooks`). What every
  transaction keeps is in `BillingInvariants`, what none may do in `BillingLaws`, and which amounts get in at all in
  `BillingCents`.
- **The candidate walk** (`Ordering`, `Walking`, `BufferedWalk*`, `Streaming*`). The order candidates are tried in, the
  buffered and the streaming failover loops, and what they settle, bill, send and record: in the laws over what the
  upstreams, the clock and the client did, without the walk's own vocabulary.
- **Pricing** (`Pricing`, `Allowance`). Reservation against settlement over rate bands and credentials, the monthly
  BYOK allowance, and the holds admission waives for it.
- **Smaller cores**: the authentication cache (`Auth`), device grants and user codes (`Device`, `UserCodes`), the
  second price source (`Decimals`, `Corroborate`), the catalog diff (`Names`, `Discover`). `Sequences` and `Texts` are
  shared.

A transaction, a walk or an authenticate call takes what it cannot decide itself as an input: what upstreams answer
and when the deadline falls, whether the client still listens, what the health registry says, the clock, random bytes.
Theorems quantify over all of them. Where the source updates things in place, a method does the same and its contract
ties it to a function; what the source promises is then proved about that function.

## Where the code and its comments part

- `db.rs` says a request admitted with no hold "provably lands inside" the monthly allowance. It does at admission. A
  later request that did not fit is still admitted, with a hold, and if it settles first the earlier one owes a fee its
  empty hold cannot pay: `Allowance.WaiverBroken`. `Allowance.WaivedMayOwe` says exactly when that can happen.
- A comment in `api.rs` (4034-4039) says an exhausted vendor quota must not become a ZeroRouter bill. The live-streaming
  path keeps to that. The classifier behind the buffered walk and behind whole answers in the streaming handler looks
  for a context overflow before it looks for the refused account, and a context overflow arms the house twin:
  `BufferedWalkLaws.HouseAnswersExhaustedAccount` and `StreamingWalkLaws.HouseAnswersExhaustedAccount` bill the house
  for it. The two `KeyArms` say exactly which refusals do.
- `billing.rs` (853-854) takes the user's lock before the intent's everywhere, "so no cycle is possible". Among the
  locks it takes by name none is. But a settlement that inserts the charge it recovered holds its user's row through the
  foreign key, before it takes the user's lock, and write-offs and recoveries take that lock and then the row
  `FOR UPDATE`: `BillingDeadlock.ClinchReached`. And `attach_autopay_intent` (2022-2049), meant to give way if such a
  settlement "raced the rename", can race it to a stop: its `UPDATE` has the pending claim in hand and waits for the
  key the settlement has written, and the settlement waits in the one-pending index for the claim:
  `BillingDeadlock.SnarlReached`. Among the locks and waits modelled there is no third way
  (`BillingDeadlock.DeadlockIsKnot`), and until the database kills one of the two, neither goes on
  (`BillingDeadlock.KnotLasts`).
- The health floor promises a walk never loses its only dispatch. An unhealthy BYOK candidate ahead of its own unarmed
  twin loses it: `BufferedWalkLaws.SkippedWithItsTwin`. The streaming walk then settles nothing;
  `StreamingWalkLaws.RoutesThatLeak` says which routes can come to that.

## Model

| member | source | states |
|---|---|---|
| BillingStones.StonesOutcome | router/src/billing.rs:1145-1284 | Consuming the claimed tombstones freezes the account iff one is a dispute and it was not frozen, takes the credit back in one refund row iff one covers it and nothing had taken it back, and stamps exactly those it discharged |
| BillingStones.CreditedStable | router/src/billing.rs:1014-1026 | The credit found for an intent stays the one found while rows are appended |
| BillingStones.InsertIs | router/src/billing.rs:933-957 | A report of a new object is appended unapplied; one of a known object goes into the first tombstone of that object, as the larger amount, if that is unapplied and of the same intent, kind and currency; nothing else changes |
| BillingStones.CoversIs | router/src/billing.rs:1159-1164 | A report covers a credit iff it is in dollars, states an amount, and is short of the credit by less than half a cent |
| BillingStones.UnappliedLaw | router/src/billing.rs:1165-1168 | The tombstones claimed for an intent are its unapplied ones, in the order they were written |
| BillingShapes.PlainShape | router/src/billing.rs:1638-1847 | Promo, write-off, recovery and usage post at most one row; a usage debit never overdraws and a write-off lands on zero |
| BillingInvariants.LandingKeeps | router/src/billing.rs:344-385 | A landing credit with the tombstones it consumes keeps the whole invariant, the closed race included |
| BillingInvariants.ApplyKeeps | router/src/billing.rs:297-2701 | Every transaction keeps: balances are the sums of their rows and each row snapshots its prefix sum; one row an anchor, one refund an intent matching a credit; no unapplied covering or dispute tombstone on a credited intent; a charge succeeded iff its autopay row exists; one pending charge a user |
| BillingInvariants.SerialKeeps | router/src/billing.rs:297-2701 | Every serial run stays inside the invariant |
| BillingLaws.ApplyLawful | router/src/billing.rs:297-2701 | No transaction removes a row, moves a terminal charge, alters a stamped tombstone, credits autopay to an account not armed at that update, or posts a row against the law of its kind |
| BillingLaws.ExactlyOnce | router/src/billing.rs:333-342 | However often webhooks are replayed there is at most one purchase row a session, one autopay row and one refund row an intent, and a charge is succeeded iff exactly one autopay row carries it |
| BillingProtocol.LockAt | router/src/billing.rs:315-331 | Whatever exclusive lock a transaction takes it takes at that lock's own place in one fixed order, user before intent; an insert's shared lock on its user's row, and its wait for a pending row being rewritten, are not among them |
| BillingProtocol.FootprintOf | router/src/billing.rs:845-867 | What a transaction writes is covered by the locks it has taken: nobody without them can have read what it changes |
| BillingConcurrency.PurchaseCollides | router/src/billing.rs:333-342 | Crediting a session that was credited in between runs into the unique index and rolls back |
| BillingConcurrency.ReverseCollides | router/src/billing.rs:777-793 | So does a second reversal anchored on one object |
| BillingConcurrency.CommitIsApply | router/src/billing.rs:1001-1068 | Committing on what was read earlier under the locks is the whole transaction run at the commit |
| BillingConcurrency.FreshKept | router/src/billing.rs:324-331 | Another transaction's commit cannot stale what this one has read and will decide on |
| BillingConcurrency.StepKeeps | router/src/billing.rs:2502-2613 | Every step of an interleaved run keeps the locks exclusive and every open read fresh, and changes the tables only as one whole, lawful transaction |
| BillingConcurrency.RunsSerially | router/src/billing.rs:1001-1068 | Serializability: the tables any interleaving reaches are those of running the very transactions that finished in it, one after another, in the order they finished |
| BillingConcurrency.RunsKeepInv | router/src/billing.rs:324-331 | So every committed state of every interleaving satisfies the invariant and the row laws |
| BillingConcurrency.TerminalStands | router/src/billing.rs:2419-2654 | Over every interleaved run a charge that is not pending keeps its status for ever, a Stripe charge never disappears and no ledger row does |
| BillingConcurrency.NegativeOnlyByRefund | router/src/billing.rs:786-829 | In every interleaved run the only row that takes a user's balance from zero or above to below zero is a refund of that user |
| BillingDeadlock.DeadlockIsKnot | router/src/billing.rs:2429-2508 | In a reachable state some transactions wait in a circle, over the locks and waits modelled, iff two are in one of two knots: a settlement that inserted its recovered charge is about to take its user's lock while a write-off or recovery of that user is about to take the row, or a settlement is about to insert its recovered charge while a pending claim of the user is being renamed to it |
| BillingDeadlock.NeverStuck | router/src/billing.rs:845-867 | While any transaction is open and there is no such pair, one of them can take its next step |
| BillingDeadlock.ClinchReached | router/src/billing.rs:1658-1672 | The input: wherever a recovered charge is settled for a user with no pending one, a write-off of that user can run into it |
| BillingDeadlock.SnarlReached | router/src/billing.rs:2022-2049 | The input: wherever a recovered charge is settled for a user whose pending claim is at that moment renamed to it |
| BillingDeadlock.KnotLasts | router/src/billing.rs:2502-2508 | Whatever the others do, either pair stands until one of the two is aborted |
| BillingDeadlock.ApartNeverStuck | router/src/billing.rs:1753-1810 | A caller who keeps recovered settlements apart from write-offs and recoveries of the same user, and from renames to the same intent, is never stuck over the locks and waits modelled |
| BillingDeadlock.AdvanceProgresses | router/src/billing.rs:1099-1103 | A transaction that can go on finishes or reaches its next stage |
| BillingDeadlock.InsertGoesOn | router/src/billing.rs:2429-2508 | An insert of a charge waits exactly for a write-off or a recovery that has its user's row, and not even then if a pending charge of the user refuses it |
| BillingDeadlock.ResolvingGoesOn | router/src/billing.rs:1658-1672 | A write-off or a recovery waits for its user's row exactly while somebody has it locked or has inserted a charge that refers to it |
| BillingDeadlock.SettlementGoesOn | router/src/billing.rs:2022-2049 | A settlement that has written the key of the charge it recovered waits exactly for the user's pending slot and for whoever renames, drops, settles or fails the user's pending row |
| BillingStore.Store.PostRow | router/src/billing.rs:344-374 | The balance moves by the amount, one row is appended that says so and snapshots where it ends, and nothing else changes |
| BillingStore.Store.CreditPurchase | router/src/billing.rs:297-386 | In place, the purchase transaction: applied iff positive, to a known user and for a session not yet credited, already applied iff positive and credited; its row, then what the claimed tombstones make of it, and the balance the purchase itself produced |
| BillingStore.Store.ApplyObservedReversals | router/src/billing.rs:1145-1284 | In place, the loop over claimed tombstones reaches the loop-free summary |
| BillingStore.Store.GrantPromo | router/src/billing.rs:392-442 | A positive grant to a known user posts that amount in one row, and anything else nothing |
| BillingStore.Store.ReversePurchase | router/src/billing.rs:728-835 | Takes back what the oldest row crediting the intent gave, in one row anchored on the object; unknown iff no row credits it, and reversed before iff a row is anchored on the object or refunds the intent |
| BillingStore.Store.ResolveReversal | router/src/billing.rs:982-1068 | Returns the oldest credit of the intent and writes nothing, or records the report and returns none |
| BillingStore.Store.MarkIntentReversalsApplied | router/src/billing.rs:1089-1118 | Stamps every tombstone of the intent, and reports how many were not stamped yet |
| BillingStore.Store.FreezeAccount | router/src/billing.rs:573-591 | First writer wins: the reason is stored iff there was none, and it says which |
| BillingStore.Store.UnfreezeAccount | router/src/billing.rs:599-612 | Whatever the freeze of a known user was, there is none after it, and nothing else changes; it says whether there was one |
| BillingStore.Store.WriteOffReceivable | router/src/billing.rs:1638-1725 | Forgives exactly a negative balance, to zero, in one row; otherwise says whether there ever was a write-off |
| BillingStore.Store.RecordRecovery | router/src/billing.rs:1753-1847 | Credits a positive recovery to a known user who is frozen, owes, or has had a refund, and to no other |
| BillingStore.Store.ClaimAutopayAttempt | router/src/billing.rs:1944-1994 | Writes a pending charge of both amounts under the key iff the user is known, autopay is on, nothing is frozen, the balance is not negative and is below the threshold, there are fewer than three strikes, the amount is the one configured, the key is new, and no charge of the user is pending |
| BillingStore.Store.AttachAutopayIntent | router/src/billing.rs:2022-2049 | Two transactions: the claim becomes the intent's row unless that exists already, and is dropped where nothing was renamed |
| BillingStore.Store.RecordAutopayCharge | router/src/billing.rs:2679-2701 | The charge of a lost claim is recorded as pending iff its intent is new and no charge of the user is pending |
| BillingStore.Store.SettleAutopayIntent | router/src/billing.rs:2419-2616 | In place, settlement, outcome by outcome: no row and nothing collected, a taken slot, a stored row that disagrees (failed if pending), a row settled before, a credit withheld from an account autopay may not charge, or the credit with its row and charge and then the claimed tombstones |
| BillingStore.Store.FailAutopayIntent | router/src/billing.rs:2621-2654 | Iff the charge is pending it becomes failed and its user has one more strike; the third turns autopay off |
| BillingStore.Store.BumpAutopayFailure | router/src/billing.rs:2659-2673 | The same strike for a charge that failed before it had an intent |
| BillingStore.Store.ConfigureAutopay | router/src/stripe.rs:4625-4646 | Turning autopay on stores both amounts and forgets the strikes |
| BillingStore.Store.DisableAutopay | router/src/stripe.rs:4648-4652 | Turning it off changes nothing else |
| BillingStore.Store.DebitUsage | router/src/db.rs:3143-3189 | A positive debit the balance covers is posted in one row, and no other is |
| BillingDelivery.CoverageAgrees | router/src/stripe.rs:2542-2555 | The webhook's and the tombstone's coverage tests agree on every event iff the credit is a whole number of cents |
| BillingDelivery.HandlerLaw | router/src/stripe.rs:2459-2640 | Where there is no credit a handler stops after asking; where there is, it freezes iff the report is a dispute, and reverses and then marks iff it covers the credit |
| BillingDelivery.InsertRemembers | router/src/billing.rs:883-957 | A recorded event that no tombstone of its object disagrees with is remembered by one at least as large, no earlier event is forgotten, and no tombstone comes to say what was not heard |
| BillingDelivery.MergeCommutes | router/src/billing.rs:935-947 | Two reports of one object merge to the same tombstone in either order |
| BillingDelivery.LandsOnAwaiting | router/src/billing.rs:377-385 | A landing credit meets a tombstone for everything taken in before it and reaches the state those events ask for, whatever the freeze was |
| BillingDelivery.ProceedKeeps | router/src/stripe.rs:2416-2640 | Each step of a handler (resolve, freeze, reverse, mark) keeps the delivery invariant |
| BillingDelivery.MoveKeeps | router/src/billing.rs:1035-1118 | So do deliveries, failures, the credit landing again, and every transaction of other intents, freezes and thaws included |
| BillingDelivery.Confluence | router/src/billing.rs:900-1068 | In whatever order, with whatever redeliveries and failures and whatever reports: once a whole-cent credit has landed and every report taken in has been seen through, the ledger holds exactly one refund row, of the whole credit, iff a report taken in covered it, whatever happens to the freeze elsewhere; the account is frozen if one was a dispute and nobody else thaws it; and it is frozen iff it was or one was a dispute if nobody else touches the freeze. A report is passed over only for a rival of the same object that was taken in |
| BillingDelivery.ConfluenceOfAll | router/src/billing.rs:969-980 | So if no two reports of one object disagree, or if all come behind the credit: once every event has been handled, the account is in that sense as all of them ask |
| BillingDelivery.RivalsLaw | router/src/billing.rs:900-957 | Where reports of one object disagree, ahead of the credit or on both sides of it, the account is as all of them ask iff those passed over would have made no difference: a covering one was taken in if any was reported, and a dispute if any was |
| BillingCents.GrossIsWhole | router/src/stripe.rs:1408-1427 | The gross recomputed for a credit converts to cents iff the credit is a whole number of cents, on either rail |
| BillingCents.FeeIsLeast | router/src/stripe.rs:1247-1427 | The fee is the least whole number of cents that is at least the rate of the credit and the floor of the rail |
| BillingCents.ApplyCents | router/src/stripe.rs:1215-1241 | With the amounts checked where the router checks them, every credit row, charge and standing top-up is a whole number of cents |
| BillingWebhooks.WorksPlay | router/src/stripe.rs:2459-2640 | Refinement: handlers whose transactions run statement by statement under the locks, each going on with what its transaction read, among other transactions, aborts and collisions, do nothing that handlers with atomic transactions could not |
| BillingWebhooks.ConfluenceUnderLocks | router/src/billing.rs:900-1068 | The same three conclusions about the reports taken in, for every lock-level interleaving and every credit that passed the router's own checks |
| BillingWebhooks.ConfluenceOfAllUnderLocks | router/src/billing.rs:969-1068 | And about all of them, if no two disagree or all come behind the credit |
| BillingDelivery.SubCentDiverges | router/src/stripe.rs:2540-2555 | What the whole-cent check is for: with a credit finer than a cent, which the router never posts, two orders of one event would end differently |
| BillingDelivery.ReusedObjectLaw | router/src/billing.rs:900-957 | Two reports of one object ahead of its credit end alike in either order iff they are of one kind and of one currency, or of one kind and cover the credit alike |
| Ordering.SinkSorts | router/src/api.rs:2362-2374 | A stable partition puts its test in front of whatever strict order was there, and loses nothing |
| Ordering.SortSorts | router/src/api.rs:2335-2346 | A stable sort does the same with its key |
| Ordering.CostSorts | router/src/api.rs:2435-2494 | Cost mode orders free first, then by price unless the route is cold, then as before |
| Ordering.OrderSorts | router/src/api.rs:2348-2375 | The composed passes leave a permutation sorted by one lexicographic key |
| Ordering.OrderIsUnique | router/src/api.rs:2335-2375 | A strictly ordered arrangement of given rungs is the only one |
| Ordering.OrderIsTheSort | router/src/api.rs:2335-2375 | A list is the ordered route iff it is a permutation of the table sorted by retention if routed, ability in cost mode, health, freeness and price in cost mode, table index |
| Ordering.RetentionFirst | router/src/api.rs:1914-1925 | On a routed request no weaker retention posture precedes a stronger one |
| Ordering.TwinStaysBehind | router/src/providers.rs:2222-2239 | A fallback twin stays behind the BYOK rung of its own definition |
| Ordering.Route.Partition | router/src/api.rs:2362-2367 | Drains the route into keepers and the rest, in order |
| Ordering.Route.OrderByExpectedCost | router/src/api.rs:2435-2494 | In place, the cost ordering with its cold fallback |
| Ordering.Route.Order | router/src/api.rs:2348-2375 | In place, `order_candidates` |
| Ordering.Route.Prepare | router/src/api.rs:1898-1925 | In place, both passes: the result is the sort of the table |
| Walking.TruncateForContext | router/src/retry.rs:454-476 | Drops the older half of the turns in place, rounded down, and reports how many |
| Walking.TruncationLaw | router/src/retry.rs:448-476 | The prompt is cut where half its turns, rounded down, lie before the cut: before it only system messages stay, behind it everything does; the last turn is never lost, and nothing changes iff there is one turn at most |
| Walking.Metered | router/src/openai.rs:1353-1362 | A usage report that counts nothing is no report |
| BufferedWalk.TryCandidate | router/src/api.rs:2663-2965 | In place, one candidate's attempts; what they come to is in the laws below |
| BufferedWalk.RunNonStreaming | router/src/api.rs:2551-2991 | Every path hands the session to settlement exactly once, with what `ChargeLaw`, `EndingLaw` and `WalkLaw` say |
| BufferedWalkLaws.RunKeeps | router/src/api.rs:2612-2991 | Whatever every step of the walk keeps the finished walk has, and it finishes with nothing served, or with the last row served |
| BufferedWalkLaws.LedgerLaw | router/src/api.rs:3138-3260 | Rows are numbered 1..n, one for each upstream call besides the skips; at most the last is served, and one is iff the status is 200 |
| BufferedWalkLaws.ChargeLaw | router/src/api.rs:3072-3136 | An answer whose upstream reported usage is charged that usage, under 200, and returned; one that reported none or zeros is charged nothing, under 502, and withheld; every other ending is charged nothing: 400 for a parameter, 504 for the deadline, 503 for a shutdown, 502 else |
| BufferedWalkLaws.CallLaw | router/src/api.rs:2666-2965 | Calls climb the route from a first attempt each, every candidate's attempts in one unbroken run |
| BufferedWalkLaws.RepeatLaw | router/src/retry.rs:255-272 | After a call there is another to the same candidate iff fewer than three were made and it was blank, overflowed a prompt not yet shortened, or failed by nothing the client must mend, no account that cannot pay, no missing retention attestation and, unless the route has one candidate, no rate limit |
| BufferedWalkLaws.RowLaw | router/src/api.rs:3138-3260 | Each call's result is what its attempt came to, and its row says so: candidate, mark, and whether it served |
| BufferedWalkLaws.EndingLaw | router/src/api.rs:2663-2991 | A walk times out in a call or where it had come to one, is shut down there or while waiting to repeat a call worth it, serves the last call's answer, and is exhausted only after a call not worth repeating or a prompt that cannot be shortened |
| BufferedWalkLaws.PassLaw | router/src/api.rs:2612-2662 | Up to where a walk got, exactly those candidates are passed over that are a twin nothing behind has earned, or unhealthy with a call behind or a candidate ahead; it stops early at no such candidate |
| BufferedWalkLaws.WalkLaw | router/src/api.rs:3138-3260 | The settled ledger is, candidate by candidate in route order, one skip row that says which of the two it was, or one row a call |
| BufferedWalkLaws.AtMostThree | router/src/api.rs:796-800 | At most three calls to any candidate |
| BufferedWalkLaws.RepairLaw | router/src/api.rs:2923-2939 | The prompt is shortened at most once in a walk, and stays so |
| BufferedWalkLaws.NoUnearnedFallback | router/src/api.rs:2613-2634 | A twin is called only after the customer's own key on that provider was, and failed in a way the classifier covers |
| BufferedWalkLaws.KeyArms | router/src/retry.rs:255-272 | A failure of the key arms iff it is no hopeless 429, or is unattested or a context overflow of a prompt not yet shortened; so an account that cannot pay arms iff its refusal is one of those two |
| BufferedWalkLaws.HouseAnswersExhaustedAccount | router/src/api.rs:2857-2867 | The input: an account refusal that also reads as a context overflow, twice, and the twin answers and is billed |
| BufferedWalkLaws.PrecedenceLaw | router/src/api.rs:2968-2991 | An exhausted walk reports a retention refusal met anywhere, else the first parameter refused by a failure that is the client's to mend, no rate limit and no unrepaired overflow, else plain exhaustion |
| BufferedWalkLaws.ExhaustionLaw | router/src/api.rs:2612-2662 | It has called every candidate but unearned twins and unhealthy ones with somewhere else to go, unless a prompt could not be shortened |
| BufferedWalkLaws.SomethingIsCalled | router/src/api.rs:2635-2662 | On a route that does not end in a twin, health never costs the walk its only call |
| BufferedWalkLaws.SkippedWithItsTwin | router/src/api.rs:2613-2662 | An unhealthy BYOK candidate before its own twin: nothing is called, and the walk settles for nothing |
| StreamingWalk.SendRun | router/src/api.rs:654-684 | Frames are sent until one is refused, and the answer says whether all were taken |
| StreamingWalk.Relay | router/src/api.rs:3739-3867 | In place, one live stream relayed to its terminal, failure, interruption or end; `StreamLaw` says what that leaves |
| StreamingWalk.StreamToChannel | router/src/api.rs:3396-4102 | In place, the streaming walk: what it settles, if anything, and every frame the client accepted, as `RunLaw` says |
| StreamingWalkLaws.FoldOk | router/src/api.rs:3760-3830 | A client still connected with no output delivered has been sent nothing by this stream, not even an opening frame |
| StreamingWalkLaws.RunKeeps | router/src/api.rs:3443-4102 | Whatever every step keeps the finished walk has, and it settles what its last call earned or nothing was called |
| StreamingWalkLaws.SettlesUnlessPassedOver | router/src/api.rs:4060-4102 | The session is settled exactly once, and not at all exactly where every candidate is a twin or was unhealthy with another behind it, the client being there |
| StreamingWalkLaws.RoutesThatLeak | router/src/api.rs:3443-3507 | Some run of a route settles nothing iff the route is empty or ends in a twin |
| StreamingWalkLaws.OneVoice | router/src/api.rs:3956-4030 | All output accepted by the client comes from the last candidate called |
| StreamingWalkLaws.CleanHandover | router/src/api.rs:3956-4056 | At every candidate every run comes to, the client has accepted nothing at all from the ones moved past, none of their output was tried on it, and it is still there |
| StreamingWalkLaws.LedgerLaw | router/src/api.rs:3869-4058 | Rows numbered 1..n, one call a candidate in route order, at most the last row served, and it is iff that call delivered output or was a metered whole answer |
| StreamingWalkLaws.NoUnearnedFallback | router/src/api.rs:3444-3462 | A twin is called only after the customer's own key on that provider was, and failed in a way the walk covers |
| StreamingWalkLaws.TwinAwaitsFailure | router/src/api.rs:3444-3462 | A twin a run comes to is passed over iff no failure behind has earned it |
| StreamingWalkLaws.VisitMovesPast | router/src/api.rs:4031-4042 | A candidate moved past adds one unanswered call or none, and arms its provider iff that call earns it |
| StreamingWalkLaws.KeyArms | router/src/api.rs:3649-3662 | A failure of the key on a live stream arms iff it is no account refusal; on a whole answer iff it is no hopeless 429, or is unattested or a context overflow; so an account that cannot pay arms only by a whole answer, and iff it is one of those two |
| StreamingWalkLaws.HouseAnswersExhaustedAccount | router/src/api.rs:3649-3662 | The input: an account refusal that also reads as a context overflow, as a whole answer, and the twin answers and is billed |
| StreamingWalkLaws.ParameterLaw | router/src/api.rs:4060-4101 | A settled 400 means some upstream refused a parameter and none refused the retention guarantee |
| StreamingRuns.StreamLaw | router/src/api.rs:3739-3867 | A live stream's usage is its last report before it stopped, none if that is zeros; the client receives an opening frame before the first output and then every output, in order, up to the first frame refused, and nothing after |
| StreamingRuns.RunLaw | router/src/api.rs:3396-4102 | Every run, said of the world alone: candidates are moved past in route order exactly if a twin nothing has earned, unhealthy with a call behind or a candidate ahead, refused as a whole answer, or broken or ended live before anything was put to a client still there; it ends at the first other one with that one's frames, row, usage and status (200, 499, 502, 503 or 504), or past the last one with 502, with 400 iff a parameter was refused and no retention guarantee was, or with nothing if no one was called |
| StreamingRuns.BillingLaw | router/src/api.rs:4418-4512 | The charge is the last call's: live, its last report before it stopped, if output reached the client or it ran to its terminal with none tried; as a whole answer, what it reports; else nothing. It is under that call's candidate |
| Pricing.BandLaw | router/src/provider.rs:845-855 | A measured prompt is billed at the band with the greatest threshold not above it, the later of two alike, and at the base table iff it reaches none |
| Pricing.CostLaw | router/src/openai.rs:2002-2034 | The exact cost of measured usage: cached prompt tokens first, then written ones, then the rest, each at its own rate or the input rate where that is silent, the completion at the output rate; none iff a rate is negative or above a million |
| Pricing.BandsBelow | router/src/provider.rs:857-925 | The reservation's prompt rate is no less than any rate a prompt token can be billed at in any band, its output rate no less than any band's |
| Pricing.HoldIsQuoted | router/src/provider.rs:857-925 | And each reservation rate is one that some table of the schedule quotes, so none is higher than it has to be |
| Pricing.CostBelow | router/src/openai.rs:2002-2034 | Measured usage inside the bound costs no more in its own band than the bound at the reservation's rates |
| Pricing.RateIsTight | router/src/api.rs:4792-4805 | The house rate is reserved iff some credential the route could open settles at it |
| Pricing.PostureIsTight | router/src/api.rs:4746-4775 | Admission is told a catalog basis iff the route could open a customer's key, and wholly BYOK iff it could open nothing else |
| Pricing.FeeLaw | router/src/api.rs:374-382 | A customer's own key is charged one twentieth of the catalog cost, and any other credential all of it |
| Pricing.ReservationCovers | router/src/api.rs:4676-4705 | Whichever rung serves, in whichever band, the settled cost is within the reservation |
| Pricing.FeeHoldFallsShort | router/src/api.rs:4666-4675 | On a schedule without conditional bands and with no prompt rate dearer than its input rate, usage that fills its bound at a price on a house rung settles above a hold at the fee rate |
| Allowance.BillTelescopes | router/src/byok.rs:82-173 | Charging requests one after another bills one twentieth of what their total has above the allowance |
| Allowance.OrderDoesNotMatter | router/src/byok.rs:138-160 | In whatever order |
| Allowance.SplittingDoesNotMatter | router/src/byok.rs:138-160 | However one request is split |
| Allowance.FeeLaw | router/src/byok.rs:118-173 | What a settling request owes: a twentieth of the part of it above what is left of five thousand dollars, on what has settled before |
| Allowance.AdmitLaw | router/src/db.rs:4233-4271 | A request is held nothing iff wholly on the customer's keys and within what five thousand dollars leave of settled and committed usage, and else its sizing |
| Allowance.WaivedKeepsRoom | router/src/db.rs:4266-4271 | A waived hold is given only where settled, committed and its own usage fit the allowance together |
| Allowance.RoomyOwesNothing | router/src/db.rs:2875-2916 | While they do, whatever settles owes nothing, and still they do |
| Allowance.WaivedMayOwe | router/src/db.rs:4233-4271 | A request in flight can end up owing a fee in some order of settlement iff settled and committed usage together exceed the allowance |
| Allowance.WaiverBroken | router/src/db.rs:1891-1920 | A concrete month in which a request held nothing for owes half a dollar |
| Auth.ConstantTimeEq | router/src/auth.rs:199-210 | The comparison that reads every byte answers equality |
| Auth.KeyAuthenticator.Authenticate | router/src/auth.rs:71-170 | One call: the cached key if its entry is live, else the row's if it is live, cached no longer than its deadline or thirty seconds, else a refusal that caches nothing |
| Auth.AcceptedWasLive | router/src/auth.rs:71-170 | Over every interleaving of calls, table edits and time, an accepted key had been read from the database enabled, less than thirty seconds before the call's clock reading, which is before the deadline that read saw |
| Auth.RefusedWasDead | router/src/auth.rs:71-170 | And a refused key had no key's shape, or was refused on a read made for the call that found no row, a disabled one, or one whose deadline had passed |
| Auth.GenerateApiKey | router/src/auth.rs:180-183 | A new key is the prefix and two lower-case hex digits for each of thirty-two bytes, and passes the shape test |
| Auth.KeyShapeLaw | router/src/auth.rs:190-196 | What passes is exactly what some thirty-two bytes generate, in either case of the hex letters |
| Decimals.ShiftIsExact | router/src/corroborate.rs:284-297 | Moving the point six places over the digits multiplies by exactly one million, at any length |
| Decimals.PerMtok | router/src/corroborate.rs:267-297 | Accepts a text iff trimmed and without one plus sign it is digits with at most one point and at least one digit; the result denotes a million times as much |
| Decimals.PriceLaw | router/src/corroborate.rs:267-297 | A text is a price iff, trimmed, it is an optional plus sign and digits, or digits, a point and digits, with one digit at least |
| Decimals.ReadingLaw | router/src/corroborate.rs:284-297 | And then it means a million times the number those digits write |
| Texts.TrimLaw | router/src/corroborate.rs:270-271 | Trimming cuts white space off both ends, leaves none there, and changes nothing else |
| Corroborate.Bands | router/src/corroborate.rs:197-215 | The prompt-size bands sorted, and the overrides that are none counted |
| Corroborate.SortedAscends | router/src/corroborate.rs:195-203 | Sorting keeps the bands and puts their thresholds in ascending order |
| Sequences.SortStable | router/src/discover.rs:529-533 | A stable sort keeps elements that stand level in the order they came |
| Corroborate.AgreementIgnoresOrder | router/src/corroborate.rs:380-390 | The compared structures agree iff the sources name the same boundaries, each as often, in any order of publication |
| Corroborate.PushDeltas | router/src/corroborate.rs:602-635 | Appends one delta for each dimension both tables quote and quote differently |
| Corroborate.Compare | router/src/corroborate.rs:550-594 | In place, the comparison of one candidate |
| Corroborate.OutcomeLaw | router/src/corroborate.rs:550-594 | A candidate is not listed, unpriced, priced where the catalog is silent, or compared, each exactly where it should be; boundaries come out ascending, and overrides on the clock are counted apart |
| Corroborate.DeltaLaw | router/src/corroborate.rs:581-594 | A delta is reported iff both sources quote that dimension differently, at the base or in a band both declare |
| Device.Grants.PollToken | router/src/device.rs:300-465 | In place, a poll on its locked row |
| Device.Grants.ApproveCode | router/src/device.rs:507-532 | In place, approval of an open grant, and only of an open one |
| Device.Grants.DenyCode | router/src/device.rs:534-556 | In place, denial of an open grant |
| Device.DecideAnswers | router/src/device.rs:336-465 | What a poll answers on the row it locked, the row it leaves and the key it mints, state by state |
| Device.StatementLaw | router/src/device.rs:231-586 | What each other statement writes: a grant pending for fifteen minutes, an approval or a denial of one pending and unexpired, an expiry, a removal a day after |
| Device.NextKeeps | router/src/device.rs:229-586 | Every start, poll step, approval, denial, sweep and reclaim keeps row locks exclusive, one mint a grant, and the approver with it |
| Device.SingleUse | router/src/device.rs:366-455 | Over every interleaving a grant mints at most one key and gives one token; it is claimed iff a key was minted; the key is its one approver's |
| Device.TerminalStands | router/src/device.rs:456-459 | Over every run a denied, expired or claimed grant never changes and never mints again, nor after it has been reclaimed |
| Device.ReplyLaw | router/src/device.rs:336-465 | What a poll is told, as section 3.5 of RFC 8628 has it: the token iff approved, unexpired and admitted, slow_down iff the last poll of a pending grant was within the interval, authorization_pending iff it was not, and each error exactly in its state |
| UserCodes.GenerateUserCode | router/src/device.rs:611-635 | Eight accepted bytes, in order, grouped as `XXXX-XXXX` over the alphabet |
| UserCodes.Fairness | router/src/device.rs:611-635 | Each letter comes from exactly nine of a byte's values |
| UserCodes.AlphabetIsPlainText | router/src/device.rs:46-48 | The alphabet is the digits and capitals without those easily confused, each once |
| UserCodes.CleanedLaw | router/src/device.rs:640-646 | Cleaning goes character by character: dashes and spaces go, small letters become capitals |
| UserCodes.NormalizeLaw | router/src/device.rs:637-661 | A text is accepted iff, trimmed and cleaned, it is eight letters of the alphabet; the code is those letters with the dash put in |
| UserCodes.NormalizedIsCode | router/src/device.rs:637-661 | What is accepted is a well-formed code, and a well-formed code is accepted as itself |
| UserCodes.RetypedIsSame | router/src/device.rs:640-646 | A dash or a space put in, and lower case, make no difference |
| UserCodes.LoweredCode | router/src/device.rs:637-661 | Round trip of a code retyped in lower case |
| Names.CanonicalName | router/src/discover.rs:220-296 | In place, the bare name |
| Names.NameLaw | router/src/discover.rs:220-296 | The bare name said outright: lower case, behind the last slash, without the first region and then the first vendor that lead it, up to an at-sign, without the first serving marker that ends it, without a date, and every `p` between digits a dot |
| Names.PathIsNoName | router/src/discover.rs:220-226 | A routing path in front makes no difference |
| Names.CaseIsNoName | router/src/discover.rs:220-226 | Nor does case |
| Names.DateIsNoName | router/src/discover.rs:255-277 | A snapshot date behind a name makes no difference iff it follows an at-sign or the name has no serving marker or date of its own at its end |
| Names.FoldedOnce | router/src/discover.rs:279-295 | Dot folding leaves nothing to fold |
| Names.SplitName | router/src/discover.rs:330-372 | In place, family and version |
| Names.SplitLaw | router/src/discover.rs:311-372 | Family and version are a cut of the name at its first run of digits, with at least one number |
| Names.VersionLaw | router/src/discover.rs:330-372 | The version is the numbers of the longest run of digits, dots and `p`s from the first digit on, and the family what is on either side of it |
| Names.NoDigitNoVersion | router/src/discover.rs:330-372 | A name without a digit has no version |
| Names.SizeIsNoVersion | router/src/discover.rs:353-361 | A parameter size is never a version |
| Discover.FromCatalog | router/src/discover.rs:387-428 | The three indexes hold exactly what the lanes carry, and the highest version of each family |
| Discover.BelowLaw | router/src/discover.rs:578-590 | Versions are ordered by the first number in which they differ, and a version that runs out is the lower one |
| Discover.ClassifyIsStrongest | router/src/discover.rs:549-612 | The category given is the strongest that applies, said over the lanes |
| Discover.ScanProvider | router/src/discover.rs:464-488 | One provider's listing: sound, nothing twice, nothing missed |
| Discover.Discover | router/src/discover.rs:444-491 | Before ageing there is exactly one finding for each dialable provider and bare name that has a chat spelling in the source and is not carried there, and no other; the result is their ageing |
| Discover.DiscoverCatalog | router/src/discover.rs:444-491 | The same of the router's own reading of names |
| Discover.FilterNewByRecency | router/src/discover.rs:512-542 | In place, the ageing |
| Discover.AgeingLaw | router/src/discover.rs:493-542 | Exactly the new findings dated before the cutoff go; the others come first as they were, then the new ones newest first, undated last |
| Discover.NewestStable | router/src/discover.rs:529-533 | Findings of one date keep their order |

## Left out

- BillingDelivery.Confluence: for credits of whole cents, one transaction at a time. Transactions elsewhere may do anything when they finish but touch this intent's rows and tombstones. A handler that is dropped and whose event is never delivered again leaves its report taken in and not seen through; nothing is said of the account then.
- BillingWebhooks.ConfluenceUnderLocks: amounts of cents fit 64 bits, and a declined charge is recorded for the credit the router itself stamped on it.
- BillingInvariants.ApplyKeeps: assumes what Stripe and the schema guarantee, that a session, intent or claim key is used for one customer, and that a charge row is positive and no larger than what was collected.
- BillingStones.StonesOutcome: tombstones are consumed in the order they were written.
- BillingDeadlock.DeadlockIsKnot: the waits of a transaction's last statement in the unique indexes of the ledger and of the tombstones are not modelled, nor the time a claim or the record of a declined charge waits in the one-pending index before it inserts anything.
- BillingDeadlock.NeverStuck: two advisory lock names whose hashes collide are two locks here. An autopay claim is taken to insert, and to hold its user's row while it is open, where its slot is free, though a user who is not eligible gets no row. Lock-wait timeouts are aborts that may happen at any step; their five seconds are not measured. A single-statement update reads and writes in one step; for the autopay claim, whose eligibility the source reads in the statement's snapshot and whose insert may then wait for another claim, this means the eligibility read is the one at the insert.
- BufferedWalk.RunNonStreaming: backoff lengths are left out; a wait either runs to its end or is cut short by a drain.
- BillingStore.Store.ConfigureAutopay: that Stripe knows the customer and has a card on file is asked before it.
- Pricing.ReservationCovers: rates are reals; the conversion of a float to a decimal and decimal overflow are not modelled. Learned sizing, which may hold less and is clamped at settlement, is left out.
- Allowance.WaivedMayOwe: one user's month between admissions; reservations that lapse or are released by an operator, and the turn of the month, are left out.
- Auth.AcceptedWasLive: hashing is injective, and all clock readings come from one clock.
- Device.ReplyLaw: the grants' own poll interval is the five seconds every grant is started with.
- Device.SingleUse: unknown codes, client ids and body formats are refused before the grant is reached; the key-limit check is an input.
- UserCodes.GenerateUserCode: the sampling loop runs on a finite supply of random bytes and says when it runs out.
- Names.CanonicalName: names are ASCII, one byte a character.
- Discover.Discover: which listed models are chat models, and the parsed release dates, are inputs; the notes on findings are left out.
- Tax: freezing, recording and reversing tax on recharges and redemptions is external calls and bookkeeping beside the balance.
- Checkout intents: their recording, settling and sweep.
- Review queue, ledger history and usage reports: queries.
- Refusals of blank Stripe ids, and protocol errors for rows the schema forbids.
- The free metering lane, spend caps, velocity caps and credit limits at admission.
- HTTP, server-sent event formats, both wire dialects, provider clients and token counts per attempt: the walks see only answers, failures and accepted frames.
- The cost estimator's percentiles and floating-point costs: an order on candidates.
- Sealing of provider keys, random generation, the command line, the portal, benchmarks and scripts.
