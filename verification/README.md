# NabuGate, verified in Dafny

NabuGate is an AI gateway. Besides its HTTP adapters it keeps a wallet, meters
live calls, walks fallback chains, runs flows and tool loops, and holds several
small bounded structures. This project models those parts and proves what they
promise, over every input, every run and every upstream behaviour.

`dafny verify dfyconfig.toml` checks all of it.

## What is modelled

- **Wallet** (`Wallet`, `AdminStore`, `WalletEffects`, `WalletLedger`,
  `WalletHistory`, `WalletDurability`, `Subscriptions`, `TextLaws`).
  `AdminStore.Store` is the store with its fields changed in place; `Wallet` says
  as values what each call makes of a world of memory, state file and dirty flag,
  and what a crash makes of it. `WalletEffects` says outright, with the amounts and
  limits themselves, what each call does to balances, rows and requests. The other
  modules prove laws of every run of calls, failed writes and crashes.
  Each call takes the outcome of its write as a parameter.
- **Live calls** (`LiveModel`, `LiveSessions`, `LiveEffects`, `LiveBilling`,
  `LiveBounds`). The session
  registry, its file, reaping and restarts, and what each session is charged.
- **Routing** (`Routing`, `RoutingOrder`, `KeyRules`, `Router`, `RouterEffects`). The admin's choice, registry
  and credential expansion, out-of-credit marks, and the plain and streaming
  loops. Upstreams are oracles: functions from an attempt to what it would say.
- **Flows and tools** (`FlowModel`, `Flows`, `FlowLaws`, `FlowText`, `FlowCycles`,
  `ToolLoop`). Recursive
  flows with their books, and the bounded tool loop. Providers and tools are
  oracles indexed by call number.
- **Fast forms** (`Memory`, `RingLog`, `Turns`, `RateLimit`, `ChangingLimits`,
  `Reserve`, `Calibration`), each against the simple thing it stands for.

Money, tokens and temperatures are exact reals. Times are integers (seconds in
the wallet and routing, nanoseconds for live calls) or reals (token bucket) and
are parameters; a call reads the clock once. Account names are folded and
trimmed as ASCII. A write of a state file lands whole or changes nothing.

## Where the code falls short of what it says

Each of these is a theorem; where the promise holds under a condition, the
condition is exact.

- An invoice closed as failed or expired while its write failed can still be
  credited after a crash, exactly when the file still calls it pending
  (`ClosedRowRevivesIff`); two calls reach that state (`ClosedRowRevives`). On
  file, a closed row is closed for good.
- The balance stops being explained by its rows exactly when an operator's row
  moves money under a status other than "success" (`AddPaymentConservesIff`) or a
  negative automatic grant is recorded (`AskConservesIff`). The callers in the
  repository do neither.
- The debit that empties an account is written at once so that no crash serves the
  customer again. Over a run with failed writes no crash at any moment gives a
  spent-out account money back exactly when no such debit, and no operator's row
  that takes an account from above zero to zero or below, loses its own write while
  the file still shows money (`CrashesGiveNothingBackIff`). What was lost comes
  back at a crash unless a later write lands first (`LostDebitComesBack`).
- A purchase key is remembered with the term it bought and no longer. A retry stays
  free over a run exactly while the owner neither cancels nor buys under another
  key (`RetryStaysFreeIff`); a plan bought, another bought over it, and the first
  click arriving again is charged again (`ForgottenKeyChargesAgain`).
- Live calls are "billed the rest and nothing twice" only as far as the file
  keeps up. A run bills exactly at every moment iff every restart in it finds the
  bill and the reaped flag of each surviving session as memory last had them
  (`ExactThroughoutIff`); a restart that does not is followed by some run that
  charges seconds twice or reaps twice (`RestartBillsOnceIff`). A lost report
  (`LostWriteBillsTwice`) and a lost reap (`LostReapReapsTwice`) both do it, and
  the second charges a young call more than its age allows. The bound on what is
  charged, max(60, age + 300), needs the bills alone: it is safe for whatever
  follows a restart iff that restart finds every surviving bill on file, reaped
  flags aside (`RestartKeepsTheBoundIff`, `RestartsAreSafeIff`). While writes land
  none of it fails (`ChargedIsTheHighestMark`, `NeverChargedAheadOfTheClock`).
- A call is taken for abandoned after ten minutes without a report, as memory has
  it. A session remembers when it was last heard from over a whole run iff every
  restart finds that on file (`RememberedThroughoutIff`), and then a reap takes
  exactly the silent ones (`AbandonedIff`). A report that adds nothing to the bill
  is not written, so after a restart its call is reaped however lately it reported,
  all writes landing (`RepeatedReportForgotten`).
- credit.go says that moving a provider back can never change whether a request
  is answered. That is so for plain calls (`ReorderingNeverLosesACall`,
  `ChatEndsAlike`). A stream is committed to the first rung that speaks: the marks
  change whether it is served exactly when that rung is drained, one that is not
  would have spoken too, and just one of the two breaks off (`MarksMatterIff`);
  the admin's choice exactly when the chosen rung and those it overtakes would end
  it differently (`ChoiceMattersIff`). `StreamMarksIff` and `StreamChoiceIff` say
  so of what ChatStream returns. Both happen (`MarkLosesAStream`,
  `ChoiceLosesAStream`).
- flows.go says whatever did run is recorded. A nested flow that fails takes the
  calls it made with it: the books are sure to be complete exactly when no
  reachable step hands work to a flow that calls a provider (`BooksCompleteIff`).
- flow.go says {{previous}} is what the step before produced. The filled template
  is then searched for {{input}}, the answer in it included: one that says {{input}}
  is handed on with the caller's text in that place (`AnswerIsSearched`).
- flows.go says cycles are caught by name before the depth cap. For flows of one
  needed step that is so exactly when those on the way into a ring and those in it
  are together fewer than four (`CycleNamedIff`); others are reported as nesting
  too deep. For flows of any shape, registries of n flows are never cut off for
  depth exactly when n is below four (`SmallRegistriesIff`).
- reserve.go says the overdraft is one request deep. That is so exactly for calls
  that cost at most the reserve (`OneCallDeepIff`); two dearer ones can be admitted
  on less than they cost.
- A plan purchase keeps the overdraft bound exactly when it leaves the running
  calls their reserves but one (`PurchaseKeepsTheBoundIff`). The code checks the
  balance alone, so the overdraft can be any number of reserves deep
  (`PurchaseBreaksTheBound`).
- The balance is read under one lock and held against under another. An admission
  on such a reading keeps the bound exactly when the balance has room for it by
  then (`StaleAdmissionKeepsTheBoundIff`), as it has while no more requests were
  released since than were settled at the reading (`FewReleasesLeaveRoom`). Late
  ones on one reading can overdraw by any number of reserves
  (`LateComersOverdraw`).
- The rate bound is per limit. A console token whose limit changes is held to a
  full bucket and the inflow of every stretch of one limit (`ChangingLimitsBound`);
  in a burst a call passes exactly when fewer than its limit came before it in its
  stretch (`BurstAdmitsIff`), so a limit flipped at every call refuses nothing
  (`AlternatingNeverRefused`).
- The comment on PendingPayments says newest first; the code lists oldest first
  (`PendingPayments`).
- Anthropic turns are "user" and "assistant" when read from the caller's own body.
  Typed messages keep the role they carry, so there it is so exactly when every
  message that says something, the system's apart, is one or the other
  (`TypedRolesIff`).

## Model

| member | source | states |
|---|---|---|
| AdminStore.Store.constructor | internal/adminstore/store.go:269-316 | an opened store holds exactly what the file holds, and is clean |
| AdminStore.Store.Flush | internal/adminstore/store.go:318-346 | the file becomes memory, or stays what it was |
| AdminStore.Store.Save | internal/adminstore/store.go:348-358 | the dirty flag is cleared only by a write that landed |
| AdminStore.Store.Persist | internal/adminstore/store.go:1034-1042 | retries a pending write; success leaves memory and file equal |
| AdminStore.Store.KnowsInvoice | internal/adminstore/payments.go:47-55 | true iff any row of any account carries the invoice number |
| AdminStore.Store.StartPaymentFor | internal/adminstore/payments.go:32-71 | every error case, and otherwise one pending top-up row and no credit, kept in memory even when the write fails |
| AdminStore.Store.SettleVerified | internal/adminstore/payments.go:98-157 | credits the first matching pending row with its own recorded amount when the bridge reported nothing or at most a cent less, marks a shorter payment underpaid without credit, and on a failed write leaves state and file exactly as before |
| AdminStore.Store.ClosePayment | internal/adminstore/payments.go:166-195 | ends an unpaid row as failed or expired, never a credited one |
| AdminStore.Store.ExpireInPlace | internal/adminstore/payments.go:213-220 | the in-place loop expires exactly the pending rows past the age limit and counts them |
| AdminStore.Store.ExpireStalePayments | internal/adminstore/payments.go:203-227 | writes only when something expired; a failed write leaves the change pending |
| AdminStore.Store.PendingPayments | internal/adminstore/payments.go:229-261 | the first `limit` pending rows in the order they were started, so later attempts push none out |
| AdminStore.PendingInTurn | internal/adminstore/payments.go:250-260 | the pending rows are those marked pending, one by one, in order |
| AdminStore.StillPendingPrefix | internal/adminstore/payments.go:250-260 | rows added later never change which pending rows come first |
| AdminStore.Store.AddPayment | internal/adminstore/store.go:1082-1116 | moves money unless the status is failed or pending, keeps row and balance when the write fails |
| AdminStore.Store.ChargeFor | internal/adminstore/subscriptions.go:155-173 | balance moves by exactly what the appended rows say |
| AdminStore.Store.Subscribe | internal/adminstore/subscriptions.go:102-181 | charge, bundled credit, rows and term together or, on any refusal or failed write, state and file exactly as before |
| AdminStore.Store.Unsubscribe | internal/adminstore/subscriptions.go:183-196 | ends the term without touching money |
| AdminStore.Store.RequestProvider | internal/adminstore/provideraccess.go:73-133 | returns the existing request, reopens a denied one, or records a new one with its automatic grant |
| AdminStore.Store.DecideProviderRequest | internal/adminstore/provideraccess.go:148-179 | rules on the request and funds its owner in one step |
| AdminStore.Store.RecordUsage | internal/adminstore/store.go:933-984 | takes the cost from the account of the owner of the first key of that name and from no other, and writes at once only the debit that empties the account |
| WalletEffects.StartsPending | internal/adminstore/payments.go:32-71 | a start adds one pending row for exactly the amount asked and moves no money, in memory even when the write fails |
| WalletEffects.StartRefused | internal/adminstore/payments.go:32-55 | no account, number or money, or a number any account already has: refused and nothing changes |
| WalletEffects.SettlesByTheInvoice | internal/adminstore/payments.go:129-157 | a pending row of amount a is credited with a iff paid <= 0 or paid >= a - 0.01, and is otherwise underpaid with nothing credited; a lost write changes nothing |
| WalletEffects.SettlesOnlyPending | internal/adminstore/payments.go:122-128 | a credited row is answered as settled and a closed one as not found, with nothing changed |
| WalletEffects.CreditsWhatWasAsked | internal/adminstore/payments.go:83-86 | an invoice raised for an amount credits that amount, to the account it was raised against, after any run of other calls, failed writes and crashes |
| WalletEffects.ClosesTheRow | internal/adminstore/payments.go:166-195 | an uncredited row takes the closing status, a credited one is left, no money moves |
| WalletEffects.ExpiresAfterAWeek | internal/adminstore/payments.go:203-227 | a row expires iff it is pending and more than 604800 seconds old |
| WalletEffects.AddsTheRow | internal/adminstore/store.go:1082-1116 | an operator's row is appended as given and its amount added unless its status is failed or pending |
| WalletEffects.MeteringCharges | internal/adminstore/store.go:957-970 | a metered call takes its cost from the account it is charged to and nothing from any other, whatever is written |
| WalletEffects.MeteringWrites | internal/adminstore/store.go:973-983 | the key is stamped, and the file is written iff the debit takes the account from above zero to zero or below |
| WalletEffects.DebitedIsTheCosts | internal/adminstore/store.go:957-970 | over any run without a crash, what was taken from an account is the sum of the costs of the calls charged to it |
| WalletEffects.PurchaseComesTo | internal/adminstore/subscriptions.go:155-181 | price off, bundled credit on, one row for each, in one write or not at all |
| WalletEffects.PurchaseNotTaken | internal/adminstore/subscriptions.go:110-127 | every refusal, and the answer to the same click again, change nothing |
| WalletEffects.FirstTermEnds | internal/adminstore/subscriptions.go:137-153 | a first purchase or one of another plan runs from now for exactly the days bought |
| WalletEffects.RenewedTermEnds | internal/adminstore/subscriptions.go:137-153 | the same plan runs on from its end while it lasts and from now after, and counts one renewal |
| WalletEffects.AsksFirst | internal/adminstore/provideraccess.go:104-133 | a new request is recorded as asked or, when automatic, as approved with its positive credit granted |
| WalletEffects.AsksAgain | internal/adminstore/provideraccess.go:84-103 | asking again reopens a denied request, otherwise changes nothing, and never moves money |
| WalletEffects.RulesOnRequest | internal/adminstore/provideraccess.go:148-179 | a ruling sets the request and, when it approves with a positive credit, grants that credit to its owner |
| TextLaws.NormFoldsAndTrims | internal/adminstore/provideraccess.go:70 | an account key is the name in small letters less the blanks around it |
| WalletLedger.AddPaymentConservesIff | internal/adminstore/store.go:1094-1111 | an operator's row keeps balance and rows in agreement iff it moves money only as success, or none |
| WalletLedger.AskConservesIff | internal/adminstore/provideraccess.go:109-127 | a new request keeps them in agreement iff it records no negative automatic grant |
| WalletLedger.SettledConserves | internal/adminstore/payments.go:129-145 | settling adds to the balance what it adds to the credited rows, both when paid and when short |
| WalletLedger.ClosedConserves | internal/adminstore/payments.go:182-193 | closing a row moves no money |
| WalletLedger.PurchasedConserves | internal/adminstore/subscriptions.go:155-174 | a purchase's rows explain its whole change of balance |
| WalletLedger.DecidedConserves | internal/adminstore/provideraccess.go:155-171 | a ruling funds the balance by what it adds to the request's recorded credit, however often it is ruled on |
| WalletLedger.DebitConserves | internal/adminstore/store.go:964-971 | a debit takes from one balance what it adds to what was taken |
| WalletLedger.StepBalances | internal/adminstore/store.go:348-358 | every call, its write landing or not, and every crash keeps the law in memory and on file |
| WalletLedger.BalancesAlwaysExplained | internal/adminstore/subscriptions.go:155-157 | over every run with crashes: balance = credited rows + provider grants - debits, for every account, in memory and on file |
| WalletHistory.StepSound | internal/adminstore/payments.go:98-195 | rows only move forward, the file lags but never contradicts memory, an invoice names one top-up row, and a clean flag means equal |
| WalletHistory.RunSound | internal/adminstore/store.go:318-358 | the same over every run, and the file's rows only move forward |
| WalletHistory.CleanMeansSaved | internal/adminstore/store.go:348-358 | whenever the dirty flag is clear the file holds exactly what memory holds |
| WalletHistory.SettledOnFileIsFinal | internal/adminstore/payments.go:103-105 | once on file, success is final and a row that closed unpaid is never credited, through any later run |
| WalletHistory.ClosedRowRevivesIff | internal/adminstore/payments.go:166-195 | a row closed in memory can be credited by some later run iff the file still calls it pending |
| WalletHistory.ClosedRowRevives | internal/adminstore/payments.go:166-195 | a top-up started, then closed while its write fails, is such a row, and a later run credits it |
| WalletHistory.CreditIsExact | internal/adminstore/payments.go:144-154 | a credit moves the row's own amount into the account it was started against, no other account changes, and the file shows it at once |
| WalletHistory.CreditedStaysCredited | internal/adminstore/payments.go:122-128 | a credited invoice stays so and is not credited again |
| WalletHistory.CreditNeedsEvent | internal/adminstore/payments.go:83-97 | nothing but a landed settlement of sufficient payment makes the file show a top-up as credited |
| WalletHistory.InvoiceCreditedAtMostOnce | internal/adminstore/payments.go:83-92 | over any run the number of credits of an invoice is exactly whether the file came to show it, so at most one |
| WalletDurability.TopupSurvivesCrash | internal/adminstore/payments.go:144-154 | a top-up credited in memory is still credited after a crash at any moment |
| WalletDurability.StepSpentOutIff | internal/adminstore/store.go:957-983 | any one call keeps the file from showing money a spent-out account lacks iff it is no emptying debit or deduction whose write is lost with the file ahead |
| WalletDurability.NoCrashRefundsTheSpentOut | internal/adminstore/store.go:974-983 | while writes land, no crash lifts an account at or below zero above it |
| WalletDurability.CrashesGiveNothingBackIff | internal/adminstore/store.go:974-983 | over any run: no crash at any moment gives a spent-out account money back iff no call of the run is such a one |
| WalletDurability.LostDebitComesBack | internal/adminstore/store.go:975-983 | from an opened store: an emptying debit lost, then a crash, gives the money back; with the next periodic write in between it does not |
| Subscriptions.PlanUntouched | internal/adminstore/subscriptions.go:110-196 | no other call, failed write or crash changes the term a purchase wrote |
| Subscriptions.RetriedPurchaseChargesOnce | internal/adminstore/subscriptions.go:59-62 | the same purchase key after any run of other calls and crashes returns the same term and changes nothing |
| Subscriptions.RetryStaysFreeIff | internal/adminstore/subscriptions.go:59-62 | once a purchase is on file, a retry of its click changes nothing at every moment of a run with failed writes and crashes iff the owner neither cancels nor gets a purchase under another key through |
| Subscriptions.ForgottenKeyChargesAgain | internal/adminstore/subscriptions.go:125-127 | an instance: a plan bought, another bought over it, and the first click again is charged again |
| Subscriptions.RenewalsAddUp | internal/adminstore/subscriptions.go:102-109 | after any renewals the end date is the latest of the first end and each renewal's instant, plus all days bought from there on |
| LiveSessions.Registry.Put | internal/server/live.go:103-109 | prunes, stores the prepaid session and saves |
| LiveSessions.Registry.Take | internal/server/live.go:111-139 | raises the bill to the clamped report and never lowers it, charges exactly the rise, forgets a final session, writes only when something was billed or ended |
| LiveSessions.Registry.Reap | internal/server/live.go:148-172 | reaps exactly the project's quiet unreaped sessions, each once, in any map order |
| LiveSessions.Registry.Prune | internal/server/live.go:187-194 | drops exactly the sessions past their lifetime |
| LiveSessions.Registry.PersistTo | internal/server/live.go:196-239 | a restart resumes from the file less what expired, and writes it back |
| LiveEffects.OpensPrepaid | internal/server/live.go:103-109 | a session starts with sixty seconds charged, heard from now, and drops those more than six hours old |
| LiveEffects.ReportBills | internal/server/live.go:111-139 | the bill becomes the larger of itself and the report, cut to the age plus five minutes; the rise is charged, the session heard from, and the file written iff something was billed or the call ended |
| LiveEffects.ReapTakesTheSilent | internal/server/live.go:148-172 | a reap takes the project's unreaped sessions not heard from for more than ten minutes, bills each to the end of those minutes, and changes no other |
| LiveEffects.ReportKeepsAlive | internal/server/live.go:129-155 | for ten minutes after a report no reap touches the session |
| LiveEffects.RestartBringsBack | internal/server/live.go:196-239 | a restart brings back what the file has that is at most six hours old |
| LiveEffects.RememberedThroughoutIff | internal/server/live.go:129-138 | over a run with any write outcomes every session remembers when it was last heard from iff each restart finds that on file |
| LiveEffects.AbandonedIff | internal/server/live.go:40-45 | then a session is reaped iff it was neither opened nor reported on for more than ten minutes |
| LiveEffects.RepeatedReportForgotten | internal/server/live.go:134-138 | a report that bills nothing is not on file: after a restart its call is reaped however lately it reported |
| LiveBilling.StepExact | internal/server/live.go:103-172 | creation, report and reap, their writes landing or not, keep every session charged exactly its bill and reaped at most once; a restart does if the file bills as memory did |
| LiveBilling.ExactThroughoutIff | internal/server/live.go:196-239 | a run with any write outcomes bills exactly at every moment iff every restart finds each surviving session's bill and reaped flag current on file |
| LiveBilling.RestartBillsOnceIff | internal/server/live.go:43-48 | after any such run with fresh ids: whatever follows a restart charges and reaps nothing twice iff the file it reads is current |
| LiveBilling.ChargedIsTheHighestMark | internal/server/live.go:66-69 | over any interleaving with landing writes, for every session ever opened, ended and dropped ones too: charged = billed = the largest of the prepaid minute, every clamped report and the reap mark; reaped at most once |
| LiveBounds.NeverChargedAheadOfTheClock | internal/server/live.go:37-54 | while writes land, every session ever opened is charged at most max(60, its age at its last mark + 300) seconds, at every moment |
| LiveBounds.KeptBillsBoundCharges | internal/server/live.go:37-54 | the same over every run whose restarts find the surviving bills on file, whatever writes fail and whatever reaped flags are lost |
| LiveBounds.RestartKeepsTheBoundIff | internal/server/live.go:196-239 | after any such run with fresh ids: the bound is safe for whatever follows a restart iff the file has the bill of every session it brings back |
| LiveBounds.RestartsAreSafeIff | internal/server/live.go:196-239 | of a whole run with fresh ids: what follows each restart keeps the bound iff each finds the bills on file |
| LiveBounds.NeverBilledAheadOfTheClock | internal/server/live.go:120-122 | whatever writes fail, the billed mark itself is never above max(60, age + 300), in memory and on file |
| LiveBilling.ReportsRaiseToMax | internal/server/live.go:124-128 | a list of reports below the ceiling charges the distance to its largest |
| LiveBilling.OrderDoesNotMatter | internal/server/live.go:66-69 | reports below the ceiling with the same values cost the same in any order and repetition |
| LiveBilling.LostWriteBillsTwice | internal/server/live.go:134-138 | an instance: report, restart, same report is charged twice iff the first write was lost and had something to say |
| LiveBilling.LostReapReapsTwice | internal/server/live.go:159-171 | another: a reap whose write is lost, a restart and a reap charge 1140 seconds and reap twice, above the bound for any call under fourteen minutes |
| Router.OrderRungs | internal/router/settings.go:52-78 | the loop computes the chosen-first order, and ignores a stale choice |
| RoutingOrder.RungsPermute | internal/router/settings.go:52-58 | a choice only permutes the chain: chosen rung first, the rest in config order, nothing added |
| Router.ExpandModel | internal/router/router.go:215-231 | one target per live provider in registry order, most specific style winning |
| RouterEffects.ServedTarget | internal/router/router.go:215-231 | a live provider becomes a target with the style of the chain, else of the serving, else of the model |
| RouterEffects.NamesInOrder | internal/router/router.go:235-272 | a name is an alias, else a decision, else a passed-through model followed by its siblings, else a registry model |
| RouterEffects.RungChosenByName | internal/router/settings.go:52-78 | the rung named provider/model, or by its model alone, is moved to the front |
| Router.BuildIndex | internal/router/router.go:156-164 | the reverse index names a model that serves the coordinate, for every served coordinate |
| Router.SiblingsServeTheSameModel | internal/router/router.go:166-195 | the retries of a pinned target are exactly the other live providers of that model, each once, in registry order |
| Router.Router.OutOfCreditNow | internal/router/credit.go:97-111 | true iff marked within the cooldown; dropping a stale mark changes nobody's place |
| Router.Router.MoveDrainedLast | internal/router/credit.go:140-155 | computes the stable partition by the marks |
| RoutingOrder.ResolvedAlike | internal/router/router.go:235-272 | whatever the admin chose, a name resolves to the same targets and the same attempts, up to order |
| RoutingOrder.CreditLastIsStable | internal/router/credit.go:140-141 | a permutation with the drained gateway rungs as a suffix and the order kept within both groups |
| RoutingOrder.OnlyOneStablePartition | internal/router/credit.go:140-141 | no other order has those properties |
| Router.Router.AttemptsOf | internal/router/credentials.go:158-201 | each target becomes the caller's and the gateway's rungs by mode, rungs without an adapter kept with their reason, then the partition |
| KeyRules.OneTargetByMode | internal/router/credentials.go:162-233 | by mode, a target becomes one rung for each of the caller's keys in order, the gateway's own rung, or both in the order named; with what makes each usable |
| KeyRules.OnlyAllowedKeys | internal/router/credentials.go:162-207 | for any chain and marks: in mode own nothing but the caller's keys is tried, in mode global nothing but the gateway's, and the gateway's key for a denied provider never |
| KeyRules.MarkedOnesGoBack | internal/router/credit.go:140-155 | within a target a provider refused for money in the last 600 seconds goes behind the caller's keys, and nothing else moves |
| RouterEffects.AnsweredOnAllowedKey | internal/router/credentials.go:181-182 | a caller who asked to spend only their own keys is never answered on the gateway's, and nobody on one they may not spend |
| RouterEffects.StreamedOnAllowedKey | internal/router/credentials.go:181-182 | nor does anything they are streamed come from one |
| RoutingOrder.OrderIsAllThatChanges | internal/router/router.go:235-272 | for every name, choice, marks and credentials the attempts are the same multiset and resolve alike |
| RoutingOrder.ReorderingNeverLosesACall | internal/router/credit.go:18-22 | for fixed upstreams a plain request is served with the reordering iff it is served without |
| RoutingOrder.StreamOrderMattersIff | internal/router/router.go:386-456 | over all orders of a chain, made by the code or not: all stream alike iff no rung breaks off mid-answer while another answers cleanly |
| RoutingOrder.MarksMatterIff | internal/router/credit.go:18-22 | the out-of-credit marks change whether a stream is served iff its first speaker is drained, an undrained rung speaks, and the two end differently |
| RoutingOrder.ChoiceMattersIff | internal/router/settings.go:52-78 | under any marks the admin's choice changes it iff the chosen rung's attempts and those it overtakes both speak in the class that speaks first and end differently |
| RoutingOrder.MarkLosesAStream | internal/router/credit.go:140-155 | a clean provider marked out of credit before one that breaks off: the stream is lost to the mark |
| RoutingOrder.ChoiceLosesAStream | internal/router/settings.go:52-78 | the same two, nothing marked: choosing the second loses the stream |
| Router.Router.Try | internal/router/router.go:339-371 | one attempt: its answer or its reason, and the mark it leaves |
| RouterEffects.AttemptMarks | internal/router/credit.go:60-95 | the caller's keys leave no mark; the gateway's is cleared by an answer, set by a refusal for money and left by anything else |
| RouterEffects.SaysOutOfCredit | internal/router/credit.go:47-58 | a refusal is for money when it says one of the phrases anywhere, in any case |
| RouterEffects.DeliveredInTurn | internal/router/router.go:404-430 | what is delivered of two stretches is what is delivered of each |
| Router.Router.Chat | internal/router/router.go:331-377 | the first answering attempt wins, every earlier one did not answer; on failure each attempt has its reason in order; the marks are those of the attempts tried and the winner is unmarked |
| Router.ChatEndsAlike | internal/router/credit.go:18-22 | a call by name under any choice and marks is answered, failed everywhere or unknown exactly as it is without them |
| Router.Router.TryStream | internal/router/router.go:404-450 | what one attempt delivers, text and asked-for tool deltas, and how it failed |
| Router.Router.ChatStream | internal/router/router.go:386-456 | everything the client receives from all attempts together is all of what one attempt says, the first that says anything and the last tried; success means it ended cleanly; silence means every attempt said nothing |
| Router.StreamChoiceIff | internal/router/router.go:386-456 | a streamed request by name, with and without the admin's choice under the same marks: one is delivered whole and the other not iff the choice decides |
| Router.StreamMarksIff | internal/router/credit.go:18-22 | the same request with the marks and without any: likewise iff the marks decide |
| Flows.RunOneStep | internal/server/flows.go:138-181 | a step runs a flow, an agent or an alias, in that order |
| Flows.RunWholeFlow | internal/server/flows.go:68-136 | the loop and recursion compute the specified run, and end for every registry |
| FlowText.EveryStepIsSent | internal/server/flows.go:85-133 | whatever the steps: each is sent the caller's request, if it is first and untemplated, and otherwise one user message made of what the last step that answered said; a skipped step passes the text through; the flow returns what was handed on last |
| FlowText.ChainHandsOn | internal/server/flows.go:75-85 | n agents that all answer: call k + 1 carries what call k said and nothing else, and the flow returns what the last one said |
| FlowText.FirstReplaced | internal/flow/flow.go:66-67 | a placeholder becomes its text at its first place, and the rest is filled alike |
| FlowText.PreviousFilled | internal/flow/flow.go:23-31 | a template with one {{previous}} is sent with the last answer in its place |
| FlowText.InputFilled | internal/flow/flow.go:23-31 | one with one {{input}} is sent with the caller's last user message in its place |
| FlowText.AnswerIsSearched | internal/flow/flow.go:66-67 | an answer that itself says {{input}} is handed on with the caller's text there |
| FlowText.LastUserSaid | internal/server/flows.go:58-66 | that is the content of the last user message |
| FlowText.AgentStep | internal/server/flows.go:160-180 | a step naming no flow makes one call, to its agent's model or else the alias, with what it was sent |
| FlowText.FlowStep | internal/server/flows.go:138-158 | a step naming a flow runs it one level down with what it was sent and says what it returned |
| Flows.RecordFlow | internal/server/flows.go:243-273 | books the leaves, in order, and no parent |
| FlowLaws.FlowCallsBounded | internal/server/flows.go:14-20 | at depth d at most L^(5-d) calls |
| FlowLaws.CallsAtMostFourthPower | internal/server/flows.go:14-20 | a caller's flow makes at most L^4 provider calls, cycles included |
| FlowLaws.StepAccounted | internal/server/flows.go:144-180 | a step's usage is the sum over its leaves, and a failed step has none |
| FlowLaws.FlowAccounted | internal/server/flows.go:117-126 | on success or error the totals are the sums over the booked leaves, and every served call is booked once or was made in a nested flow that failed |
| FlowLaws.TotalsAddUp | internal/server/flows.go:117-118 | a total is, in each count, the sum of that count over the calls |
| FlowLaws.QuietFlow | internal/server/flows.go:129-131 | a flow that calls nobody fails |
| FlowLaws.BooksCompleteIff | internal/server/flows.go:211-213 | every served call is sure to be booked iff no reachable step delegates to a flow that calls a provider |
| FlowCycles.CycleNamedIff | internal/server/flows.go:14-20 | flows of one needed step each, a tail leading into a ring: the run fails without calling anyone, naming the flow it comes back to iff tail and ring are together shorter than the depth cap, else as too deep |
| FlowCycles.SmallRegistriesIff | internal/server/flows.go:14-20 | flows of any shape and any upstream: no run in any registry of n flows is cut off for depth iff n is below the cap |
| ToolLoop.RunToolLoop | internal/server/tools.go:100-190 | ends after at most MaxSteps+1 calls, returns the first answer without calls, sums usage over all replies and keeps it on error |
| ToolLoop.EveryRequestWellFormed | internal/server/tools.go:172-188 | the n-th request is the caller's conversation plus n blocks, each one assistant message with calls and one result per call, same ids in order; tools go along until the budget is spent |
| ToolLoop.EachCallAnswered | internal/server/tools.go:165-188 | each call of a reply is answered, in order, with what its tool said or that there is none |
| ToolLoop.NextRequestCarries | internal/server/tools.go:130-188 | the next request is the last one and that block, and carries the tools while the steps, four by default, last |
| ToolLoop.UsageAddsUp | internal/server/tools.go:150-163 | each count of the loop is the sum of that count over its replies, and so is the number of tool calls |
| ToolLoop.EstimatedSurvives | internal/server/tools.go:155-160 | the total is a guess iff some reply's count was |
| Memory.CutBack | internal/memory/store.go:198-216 | the loop keeps the longest tail within both limits |
| Memory.CuttingEarlyLosesNothing | internal/memory/store.go:198-216 | cutting after an append equals cutting the whole history |
| Memory.LongestFitIsUnique | internal/memory/store.go:198-203 | only one tail is the longest that fits |
| Memory.Conversation.Append | internal/memory/store.go:148-196 | the stored messages are always the longest fitting tail of every non-blank message ever stored |
| Memory.AddedOne | internal/memory/store.go:169-177 | a message counts unless it is blank, and is dated now if it has no date |
| Memory.AddedInTurn | internal/memory/store.go:169-177 | messages count one by one, in order |
| Memory.KeptIsAllThatFits | internal/memory/store.go:198-216 | at most forty messages and 24000 bytes are kept, and one more would be too many or too much |
| RingLog.RequestLog.constructor | internal/adminstore/requests.go:49-55 | an empty log of the asked size, or 500 |
| RingLog.RequestLog.Add | internal/adminstore/requests.go:57-72 | the ring holds the last entries after every add |
| RingLog.Overwrite | internal/adminstore/requests.go:67-71 | overwriting the next slot drops exactly the oldest entry, at any wrap position |
| RingLog.RequestLog.Recent | internal/adminstore/requests.go:74-111 | the last min(total, size) entries newest first, filtered by project, cut to the limit |
| RingLog.NewestOfAll | internal/adminstore/requests.go:74-111 | for every project: the newest of all entries ever added, newest first, as many as are held and asked for |
| RingLog.SelectInTurn | internal/adminstore/requests.go:95-105 | entries are chosen one by one, in order |
| Turns.AddTurn | internal/provider/anthropic_wire.go:86-97 | appending blocks keeps a proper grouping |
| Turns.MessageBlocks | internal/provider/anthropic_wire.go:127-149 | the blocks of one message, tool calls with unusable arguments as an empty object |
| Turns.MessageSays | internal/provider/anthropic_wire.go:114-149 | what each kind of message says: nothing, one tool result, content and then calls, or content |
| Turns.PartsInTurn | internal/provider/anthropic_wire.go:193-202 | content says its parts one after another |
| Turns.MessagesInTurn | internal/provider/anthropic_wire.go:111-151 | a conversation says its messages, and its system prompt its system texts, in order |
| Turns.Conversation | internal/provider/anthropic_wire.go:111-151 | an error iff a message is malformed; otherwise non-empty turns, neighbours of different roles, user or assistant, saying exactly the ordered blocks |
| Turns.TypedConversation | internal/provider/anthropic_wire.go:99-109 | the system texts in order, and non-empty alternating turns saying exactly the other messages' blocks |
| Turns.TypedInTurn | internal/provider/anthropic_wire.go:99-109 | typed messages are read one by one, in order |
| Turns.TypedRolesIff | internal/provider/anthropic_wire.go:99-109 | its turns are user and assistant iff every non-system, non-blank message is |
| Turns.GroupingIsUnique | internal/provider/anthropic_wire.go:90-96 | there is only one such grouping |
| Turns.SameRoleSameTurn | internal/provider/anthropic_wire.go:90-91 | neighbouring blocks share a turn iff they share a role, so consecutive tool results arrive together |
| RateLimit.Enforcer.RateOK | internal/policy/policy.go:111-127 | one bucket per limited key, none for the others |
| RateLimit.Enforcer.RateOKLimit | internal/policy/policy.go:129-146 | one call under the limit it carries: a changed limit starts a full bucket, no limit touches nothing, and every other bucket stays |
| RateLimit.AdmittedIsPaidFor | internal/policy/policy.go:156-168 | tokens stay within [0, capacity] and admissions plus tokens left never exceed a full bucket plus the inflow |
| RateLimit.WindowBound | internal/policy/policy.go:148-168 | any window of T seconds admits at most capacity + T*capacity/60 |
| RateLimit.SteadyCallerNeverRefused | internal/policy/policy.go:148-168 | a caller that keeps to the rate is always admitted |
| RateLimit.SteadyAtTheLimit | internal/policy/policy.go:118-168 | at a limit of n a minute, calls at least 60/n seconds apart are all let through |
| ChangingLimits.ChangingLimitsBound | internal/policy/policy.go:129-146 | over any run of calls with their limits: those let through never exceed one full bucket plus the inflow of each stretch of one limit |
| ChangingLimits.OneLimitAllowance | internal/policy/policy.go:129-146 | while the limit does not change that allowance is the bound of one bucket |
| ChangingLimits.BurstAdmitsIff | internal/policy/policy.go:139-145 | at one instant a call is let through iff fewer than its limit came before it in its stretch |
| ChangingLimits.AlternatingNeverRefused | internal/policy/policy.go:140-144 | calls whose limit flips each time are all let through, past the bound of either limit |
| Reserve.Reservations.Hold | internal/server/reserve.go:26-39 | admits iff the balance exceeds the reserve times the requests in flight |
| Reserve.Reservations.Release | internal/server/reserve.go:41-47 | held money stays the reserve times the requests in flight, and an idle owner takes no room |
| Reserve.OverdraftOneReserveDeep | internal/server/reserve.go:9-18 | when calls cost at most the reserve, no interleaving of admissions, debits, releases, top-ups, and of purchases and late admissions that are refused or leave room, takes the balance below minus one reserve |
| Reserve.OneCallDeepIff | internal/server/reserve.go:14-18 | no run of calls costing at most c leaves more than c owing iff c is at most the reserve |
| Reserve.StaleAdmissionKeepsTheBoundIff | internal/server/server.go:1620-1622 | after any run, an admission on a balance read earlier keeps the bound for everything that may follow iff the balance has room for it by then |
| Reserve.FewReleasesLeaveRoom | internal/server/reserve.go:26-47 | it has, as long as no more requests were released since the reading than were settled at it |
| Reserve.LateComersOverdraw | internal/server/server.go:1620-1622 | an instance: n late requests on one reading of one reserve leave the balance n - 1 reserves below zero |
| Reserve.PurchaseKeepsTheBoundIff | internal/server/reserve.go:14-17 | after any run, a purchase keeps that bound for everything that may follow iff it leaves the running calls their reserves but one |
| Reserve.PurchaseBreaksTheBound | internal/server/reserve.go:14-17 | an instance: a plan bought while n requests run leaves the balance n reserves below zero |
| Calibration.GoldenSection | internal/provider/decision_calibration.go:46-63 | probes only inside the interval, ends for every function, and for one valley lands within half the final width of its bottom |
| Calibration.FitTemperature | internal/provider/decision_calibration.go:65-82 | the searched temperature in [1, 20], within 0.0005 of the bottom of a single valley, kept exactly when it lowers the loss and 1 otherwise |

## Left out

- Counter tables of RecordUsage (Counters.add, per model, provider, owner and day) and NewToken: field-by-field sums and key creation, easy members beside the debit.
- Console accounts, passwords, sessions, agents, flows and stored provider keys in the state file: no money moves there.
- Sealing, hashing and token generation: library calls; purchase row ids take the purchase stamp as a parameter.
- Unicode case folding and trimming: account names are normalised as ASCII.
- Rounding of float64 money, tokens and losses: exact reals stand in.
- LiveModel carries project, creation, bill, last report and reaped flag of a session; its provider, model, alias and byCaller only travel along, and a file entry without a last report is not modelled.
- liveMaxOpen and the session-creation call to the vendor: handler logic around the registry.
- Image, Speech, Transcribe, Embed and live routing loops: the same chain walk as Chat.
- discover, the catalogue cache and KeySource: caches and a one-bit recorder; which key served is in the winning attempt.
- Routing.Resolve takes the name already cut at its first slash; Router.Chat and Router.ChatStream take the targets it gives, and read the clock once for all their marks.
- A client that stops reading a stream: part of how the upstream oracle's stream ends.
- applyAgentToChat and the text of provider errors other than the out-of-credit phrases: the oracle sees the model name and the request.
- Reserve models one owner's interleaving and assumes, as reserve.go describes, that a debit lands before its release.
- Reliability and AccuracyAt: reporting over bins, easy members; logits and the loss are a parameter of the fit.
- Files, project directories and id checks of the conversation store: one conversation is one object.
- Joining the system texts with blank lines: Turns gives them as an ordered list.
- Allows and origin matching of policies: one-line pattern tests.
