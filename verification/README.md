# Four small distributed systems, modelled and proved in Dafny

The repository holds four Go programs. This project models the state each of them protects, the
steps that change it, and every interleaving of those steps, and proves what the programs promise.

| files | what they model |
|---|---|
| `Options` | the optional value every part uses |
| `MapReduceText`, `MapReduceMaster`, `MapReduceMasterRuns`, `MapReduceWorker`, `MapReduceJob`, `MapReduceResults`, `MapReduceProgress`, `MapReduceLoop` | P2: the job master, the map and reduce bodies, the shared intermediate files, and whole jobs with any number of workers that start, stall, crash, or whose reports are lost or late |
| `ByzantineRounds`, `ByzantineGenerals`, `ByzantineNetwork`, `ByzantineRuns`, `ByzantineProgress` | P4: the synchronous meaning of a round, the general as an object, the asynchronous network, the refinement between the two, and why only a loss can stop a round |
| `PaymentBank`, `PaymentGateway`, `PaymentWorld`, `PaymentSelect`, `PaymentAgreement`, `PaymentRuns`, `PaymentFailures`, `PaymentStore`, `PaymentReturns`, `PaymentSuccess`, `PaymentLedger`, `PaymentOverlap` | P3: the bank as a two-phase-commit participant, the gateway as coordinator with its goroutines, channels and timeouts, its idempotency store and its ledger |
| `BalancerRoundRobin` | P1: the server list and the rotating index |

How the parts fit together:

- Code that updates fields or loops in the source is a class with methods (`MasterServer`, `Storage`
  with the map and reduce bodies, `General`, `BankServer`, `PaymentGatewayServer`, `LbServer`). Each
  method is proved equal to a function of the old state, and the state machines are built from those
  same functions: a step of `MapReduceJob` calls `Request`, `Report` and `Register`, a step of
  `ByzantineNetwork` calls `RoundOrder`, a step of `PaymentWorld` calls `Prepare` and `Abort`.
  Where a method runs a whole loop that the state machine takes in several steps, a lemma joins the
  two (`BodiesComputeTheJob`, `LoopInRun`, `AsynchronousRefinesSynchronous`).
- A step is what the source does under one lock or in one operation of a concurrent map. Where a handler
  uses two such operations the state machine takes two steps and everything else may come between:
  the load and the delete of Commit, the load and the store of a balance, of an account and of a key.
- Time, randomness and the network are nondeterminism: a timeout may fire in any state that waits, an
  RPC may answer, fail, or be executed after its caller gave up, a traitor may say any string, a
  message may be delivered or lost in any order.
- The sequential meaning of each program is defined separately from its steps: occurrences in a
  multiset of words, sets of file names, a synchronous round, a sum over a log of payments.

Where the code and its comments, or the obvious claim, part ways, the model follows the code:

- A registration reopens the map phase, whatever the phase was (P2/master/main.go:202-205). Safety,
  the map barrier and EXIT survive this. A reduce report that lands in that window is lost for
  good: `ReduceReportCountsIff` and `LateRegistrationBlocks` say exactly when,
  `LostReportHappens` shows that faithful workers can reach it. `Progress` counts such reports: the
  work equation holds if and only if there are none, and after one EXIT is never answered.
- A line "word file" carries its file name only if the name has no white space (`LineSurvivesIff`), so
  the inverted index is stated for such base names.
- The final consensus loop uses the empty string for "none seen yet" (P4/main.go:296-301); `VerdictIff`
  says exactly which lists of orders make it report consensus wrongly, and `VerdictWrong` gives one. The
  program as it is set up never produces such a list: in every run that ends, the loop reports
  consensus rightly (`ReportConsensus`).
- A round of votes makes the honest generals agree exactly beyond two thresholds (`AgreementIff`). Over
  whole executions with n > 3t they agree, whatever the traitors say, if and only if the commander is
  honest (`AgreementIffHonestCommander`).
- `Prepare` accepts any existing account on both branches of its funds test, although its comment
  promises a test for senders; a payment can succeed exactly when its banks exist and know the accounts
  (`CanSucceedIff`).
- `Commit` looks its entry up and deletes it in two operations without a lock. The two Commits of a
  payment inside one bank share one entry, and both are answered with yes if and only if both look it up
  before either deletes it (`OneBankCommitsIff`); `OneBankSucceeds` is a run in which they do.
- The lookup of an idempotency key and the storing of its result are far apart. From any reachable world
  whose keys have run once each, every continuation without a new call keeps it so if and only if no two
  calls contend for a key that has no result yet (`DistinctKeysIff`); two replays of a key that has its
  result do not contend. A result is final, whatever arrives and overlaps, if and only if no running call
  carries its key (`SettledIff`), and replays then return it (`ReplayReturnsStored`).
- Reading and writing a balance are apart too. In every run a balance is the opening balance less the
  client's successes plus what stale writes lost (`BalanceOfRun`). For positive amounts and an account that
  no overlapping registration resets, nothing is lost if and only if no write was stale
  (`PlainBalanceIff`); a reset can be undone by a later stale write (`ResetUndone`), which is why the
  condition names it. No write is stale if no two calls of the client are between reading and writing at
  once (`ClientBalance`); together with the keys this gives the ledger (`LedgerBalance`).

`Valid`, in `MapReduceJob`, is the set-up the results speak about: workers share the master's job type and
number of buckets, the worker's number of map tasks is left unset, and the input files exist.

## Model

| member | source | states |
|---|---|---|
| MapReduceText.FieldsAreTokens | P2/worker/main.go:57 | the words of a text are non-empty and free of white space |
| MapReduceText.FieldsSplit | P2/worker/main.go:57 | white space anywhere separates the words before it from the words after it |
| MapReduceText.FieldsOfToken | P2/worker/main.go:57 | a token is its own only word, and empty text has none; with the splitting law this determines the words of every text |
| MapReduceText.LinesKeepWords | P2/worker/main.go:55-58 | reading a file line by line and splitting each line yields exactly the words of the file, in order |
| MapReduceText.LinesSplit | P2/worker/main.go:55 | a line ends at its newline, a carriage return before it is dropped, and a last line needs no newline |
| MapReduceText.ParseFormatted | P2/worker/main.go:129-142 | writing pairs of tokens as lines and reading the file back gives the same pairs in the same order |
| MapReduceText.LineSurvivesIff | P2/worker/main.go:172-179 | a line survives the trip from mapper to reducer exactly when its second field is a token |
| MapReduceText.OnlyPairsCount | P2/worker/main.go:132-135 | only a line of exactly two fields yields a pair |
| MapReduceText.AtoiReads | P2/worker/main.go:137-140 | a count that was written in decimal is read back, with its sign, if it fits 64 bits |
| MapReduceText.AtoiRefuses | P2/worker/main.go:137-140 | a field without digits or with other characters is refused |
| MapReduceText.BaseNameIs | P2/worker/main.go:95 | the base name of a path is what stands after its last slash, slashes at the end aside, and holds no slash itself |
| MapReduceMaster.MasterServer.constructor | P2/master/main.go:51-82 | one idle map task per input file and one idle reduce task per bucket, ids are positions |
| MapReduceMaster.MasterServer.ScanIdle | P2/master/main.go:91-101 | finds the first idle task |
| MapReduceMaster.MasterServer.ScanAllDone | P2/master/main.go:103-109 | true exactly when every task is completed |
| MapReduceMaster.MasterServer.BucketNames | P2/master/main.go:125-130 | lists the bucket of every map task for one reduce id, in order |
| MapReduceMaster.MasterServer.RequestTask | P2/master/main.go:85-159 | answer and new state of a request, through the changes of phase it may cause |
| MapReduceMaster.MasterServer.MarkCompleted | P2/master/main.go:168-174 | completes the first task of that id and no other; an unknown id changes nothing |
| MapReduceMaster.MasterServer.ReportTask | P2/master/main.go:162-186 | the phase decides which list the reported id is looked up in |
| MapReduceMaster.MasterServer.RegisterWorker | P2/master/main.go:189-208 | enough distinct workers put the job in the map phase, from any phase |
| MapReduceMasterRuns.HandleKeeps | P2/master/main.go:85-208 | every handler keeps ids, barrier and phase consistent and moves statuses only forward |
| MapReduceMasterRuns.RunKeeps | P2/master/main.go:85-208 | so does every sequence of requests, reports of any id and registrations |
| MapReduceMasterRuns.MapBarrier | P2/master/main.go:90-137 | in every reachable state, a reduce task that has been touched implies that every map task is completed |
| MapReduceMasterRuns.HandsOutIdle | P2/master/main.go:91-136 | what is handed out was the first idle task and is now in progress; a reduce assignment lists exactly the numMap buckets of its id |
| MapReduceMasterRuns.RequestIff | P2/master/main.go:85-159 | once registration is over an idle map task is always handed out, then an idle reduce task; a worker waits only while registering or while the current list has work left and nothing idle |
| MapReduceMasterRuns.PhaseAfterRequest | P2/master/main.go:85-159 | the phase each answer leaves behind |
| MapReduceMasterRuns.ReportMarksIff | P2/master/main.go:162-186 | a report completes exactly the task of its id in the list of the current phase and changes nothing else |
| MapReduceMasterRuns.OpensIff | P2/master/main.go:189-208 | over any calls, registration is over exactly when as many distinct workers as reduce tasks, and at least one, have registered |
| MapReduceMasterRuns.NeverHandedOutTwice | P2/master/main.go:91-136 | over any run no map id and no reduce id is handed out twice |
| MapReduceMasterRuns.ExitIff | P2/master/main.go:102-158 | EXIT is answered exactly when registration is over and all tasks are completed |
| MapReduceMasterRuns.ExitSoundAndStable | P2/master/main.go:102-158 | an EXIT in a run finds every task completed, and every later request is answered EXIT, whatever comes between |
| MapReduceWorker.WriteBuckets | P2/worker/main.go:43-66 | the buckets of this map task hold one line for each word that hashes there, in order, and no other file changes |
| MapReduceWorker.DoMap | P2/worker/main.go:32-71 | the word-count map body does so with value 1, and changes nothing if the input is missing |
| MapReduceWorker.DoMapInvertedIndex | P2/worker/main.go:74-114 | the inverted-index map body does so with the base name of its input |
| MapReduceWorker.RerunSameFiles | P2/worker/main.go:43-66 | running a map body again on the same input leaves the same files |
| MapReduceWorker.BucketRoundTrip | P2/worker/main.go:59-61 | a bucket read back gives every word that hashes there, in order, with count 1 |
| MapReduceWorker.OneWordText | P2/worker/main.go:59-61 | the text a word leaves in its bucket |
| MapReduceWorker.CountsAre | P2/worker/main.go:130-142 | whatever the lines hold, the total of a word is the sum of its numbers, and a field that is no number adds nothing |
| MapReduceWorker.AbsentIsEmpty | P2/worker/main.go:122-128 | a bucket that does not exist counts as an empty one |
| MapReduceWorker.AddCounts | P2/worker/main.go:129-142 | one bucket file adds the parsed count of every two-field line to the total of its word |
| MapReduceWorker.AddIndex | P2/worker/main.go:171-184 | one bucket file adds the file name of every two-field line to the set of its word |
| MapReduceWorker.ListCounts | P2/worker/main.go:153-156 | writes one line for each word, in some order, none twice |
| MapReduceWorker.ListIndex | P2/worker/main.go:195-203 | the same for the index, each file name once |
| MapReduceWorker.DoReduce | P2/worker/main.go:117-158 | lists the totals of the buckets of its id, absent files skipped, and touches no other output |
| MapReduceWorker.DoReduceInvertedIndex | P2/worker/main.go:161-205 | lists the index of the buckets of its id |
| MapReduceJob.ReportChanges | P2/master/main.go:162-186 | a map report always lands in the map phase; a reduce report lands in the reduce phase or changes no status |
| MapReduceJob.ReadBucketResult | P2/worker/main.go:122-144 | a reducer only ever reads final buckets |
| MapReduceJob.StepKeeps | P2/worker/main.go:233-303 | every step of any worker, and every report that is late or lost, keeps the files of held and completed tasks right and each task with one holder |
| MapReduceJob.RunKeeps | P2/worker/main.go:233-303 | so does every interleaving |
| MapReduceResults.ExpectedIsAbsorb | P2/worker/main.go:122-144 | through files, lines and fields a reducer absorbs exactly its words, file by file |
| MapReduceResults.BucketWordsMeaning | P2/worker/main.go:25-29 | a bucket holds all occurrences of the words that hash to it and nothing else |
| MapReduceResults.BucketsPartition | P2/worker/main.go:25-29 | the buckets are a partition of the words |
| MapReduceResults.CountsMeaning | P2/worker/main.go:130-142 | adding up lines "word 1" counts each word |
| MapReduceResults.IndexMeaning | P2/worker/main.go:172-183 | collecting lines "word file" gives each word exactly its files |
| MapReduceResults.WordCountEndToEnd | P2/worker/main.go:117-158 | in every interleaving, once all reduce tasks are completed every word is listed once, in the output its hash picks and no other, with the sum of its occurrences over all inputs |
| MapReduceResults.WordCountConserves | P2/worker/main.go:153-156 | the totals then add up to the number of input words |
| MapReduceResults.InvertedIndexEndToEnd | P2/worker/main.go:161-205 | under the same runs each word's line holds exactly the base names of the files that contain it, none twice |
| MapReduceResults.MapBodyIsFinal | P2/worker/main.go:32-114 | the file contents the map methods promise are the final buckets of the interleaved job |
| MapReduceResults.BodiesComputeTheJob | P2/worker/main.go:32-205 | the map and reduce methods, run one after another, give the same sequential result |
| MapReduceProgress.Bookkeeping | P2/master/main.go:91-100 | with faithful workers and any registrations the map tasks in progress are exactly the outstanding map assignments, every outstanding reduce assignment is in progress, and no task has two holders |
| MapReduceProgress.StepWork | P2/master/main.go:90-186 | every assignment and every report takes one off twice the idle plus the in-progress tasks, except a reduce report outside the reduce phase; nothing else changes it |
| MapReduceProgress.NeverStuck | P2/master/main.go:90-158 | while work is left a request hands out a task, or one is held and its holder can finish it alone; EXIT exactly when none is left |
| MapReduceProgress.HolderFinishes | P2/worker/main.go:233-303 | whoever holds a task has a run of its own, of a length fixed by the task, that ends with its report |
| MapReduceProgress.WorkShrinks | P2/worker/main.go:233-303 | every step of a holder takes one off that length, down to the report |
| MapReduceProgress.OthersLeaveHolder | P2/worker/main.go:233-303 | no step of anyone else touches it |
| MapReduceProgress.Progress | P2/master/main.go:90-186 | in every run assignments and reports plus work left are 2 (numMap + numReduce) plus the reduce reports that landed outside their phase; none of these if and only if the plain equation holds, and EXIT then comes after exactly that many steps |
| MapReduceProgress.OutsideNeverExits | P2/master/main.go:162-186 | a run in which a reduce report landed outside its phase never ends in EXIT |
| MapReduceProgress.ReduceReportCountsIff | P2/master/main.go:166-184 | a reduce report is taken exactly when it arrives in the reduce phase |
| MapReduceProgress.LateRegistrationBlocks | P2/master/main.go:202-205 | otherwise its task is completed in no continuation and EXIT is never answered |
| MapReduceProgress.LostReportHappens | P2/master/main.go:202-205 | a run of faithful workers that ends so |
| MapReduceLoop.AskOutcome | P2/worker/main.go:233-314 | after its request a worker has started what it was assigned, asks again on WAIT and only then, and stops on EXIT and only then |
| MapReduceLoop.StopsOnlyWhenDone | P2/worker/main.go:305-313 | in every run a worker that has not died has stopped only if registration had ended and every task was completed |
| MapReduceLoop.WorkerGoesOn | P2/worker/main.go:233-314 | one that has not stopped always has a step of its own |
| ByzantineRounds.CountSenders | P4/main.go:110-121 | counting a string among what distinct senders say counts the senders who say it |
| ByzantineRounds.VoteBounds | P4/main.go:170-184 | an honest general counts every honest vote and at most one more per traitor |
| ByzantineRounds.BoundedDivergence | P4/main.go:110-125 | the Attack counts of two honest generals in a round differ by at most the number of traitors |
| ByzantineRounds.SureDecision | P4/main.go:170-184 | beyond either threshold all honest generals decide alike, whatever the traitors say |
| ByzantineRounds.OpenDecision | P4/main.go:136-143 | between the thresholds the traitors can split any two honest generals |
| ByzantineRounds.AgreementIff | P4/main.go:110-125 | a round makes the honest agree for all lies if and only if a threshold is met |
| ByzantineRounds.DecisionIff | P4/main.go:170-184 | each decision is certain if and only if its own threshold is met |
| ByzantineRounds.TraitorsKeep | P4/main.go:96-128 | a traitor keeps the order it starts with through every round, the commander its own through the first |
| ByzantineRounds.AgreementKept | P4/main.go:104-125 | with n > 3t an agreement survives a round and each vote is won by more than t |
| ByzantineRounds.AgreementPersists | P4/main.go:268-278 | whatever first makes the honest agree, they agree after every later round |
| ByzantineRounds.Validity | P4/main.go:205-278 | with an honest commander every honest general holds the commander's order after every round, winning each vote by more than t |
| ByzantineRounds.TraitorCommanderSplits | P4/main.go:76-130 | a traitorous commander, with two honest generals or more, can hold two of them to different orders after every round, with the two orders alone and whatever the start |
| ByzantineRounds.AgreementIffHonestCommander | P4/main.go:205-278 | with n > 3t and at most t traitors the honest generals agree after a round of every execution if and only if the commander is honest |
| ByzantineGenerals.General.SendMessage | P4/main.go:59-71 | a message goes to the end of the channel of its round, or nowhere |
| ByzantineGenerals.General.GetMessageForPeer | P4/main.go:136-143 | honest generals send their order, traitors the one of the two orders the draw picks |
| ByzantineGenerals.General.RunRound | P4/main.go:76-130 | what a round sends, to whom, and the order it leaves: a traitor and the commander of round 1 keep theirs, a lieutenant adopts the first message, later the majority with its own vote decides |
| ByzantineGenerals.CountMajority | P4/main.go:170-184 | Attack exactly when it has strictly more votes than Retreat, other strings ignored |
| ByzantineGenerals.GeneralsExcept | P4/main.go:317-325 | everyone else, in order |
| ByzantineGenerals.CheckConsensus | P4/main.go:295-310 | the verdict and the order the final loop reports |
| ByzantineGenerals.VerdictIff | P4/main.go:295-305 | the loop never misses agreement and exactly when it claims it wrongly |
| ByzantineGenerals.VerdictWrong | P4/main.go:295-305 | an empty order followed by Attack is reported as consensus |
| ByzantineNetwork.HandlerNeverBlocks | P4/main.go:59-71 | a message handler that finds its channel finds room in it: one place in round 1, one per peer later |
| ByzantineNetwork.ArrivalsBounded | P4/main.go:114-118 | a general never sees more than one round message of a peer, and a full set is one from each |
| ByzantineNetwork.DecisionIsSynchronous | P4/main.go:114-125 | a general that has finished a round holds what the synchronous round gives it |
| ByzantineRuns.RunKeeps | P4/main.go:59-130 | every interleaving of opening, sending, delivering, losing, taking and deciding keeps the invariant |
| ByzantineRuns.BarrierIsSynchronous | P4/main.go:266-278 | when all have finished, all orders are the synchronous ones and no message is in flight or lost |
| ByzantineRuns.TraitorsKeepOrders | P4/main.go:124-128 | in every state of every run a traitor holds the order it started with |
| ByzantineRuns.RoundsBounded | P4/main.go:268-278 | there are t + 1 rounds, the next one starting exactly when everyone has finished |
| ByzantineRuns.AsynchronousRefinesSynchronous | P4/main.go:104-125 | in every run a finished general took exactly one message of this round from each general it expects and decided as in the synchronous execution, whatever the arrival order |
| ByzantineRuns.LossOnlyBlocks | P4/main.go:146-166 | after a loss the recipient never finishes and the round never ends |
| ByzantineProgress.StandsStillOnlyByLoss | P4/main.go:104-125 | as long as no message is lost and some general has not finished, some step other than a loss is possible |
| ByzantineProgress.StepTraced | P4/main.go:59-125 | every message that was sent is on its way, lost or arrived |
| ByzantineProgress.ListensIff | P4/main.go:79-108 | in every run a general has the channel of its round from its start on, the commander none in round 1 |
| ByzantineRuns.HonestGeneralsAgree | P4/main.go:268-310 | end to end: with n > 3t, at most t traitors and an honest commander every finished honest general holds the commander's order in every run, and the final check reports consensus |
| ByzantineRuns.ReportConsensus | P4/main.go:294-310 | the final loop, over the generals as any run of such a simulation leaves them, reports consensus on the commander's order |
| ByzantineRuns.SetupIsCovered | P4/main.go:205-245 | the main program's own set-up meets those conditions |
| PaymentBank.BankServer.PrepareTransaction | P3/server/bank_server.go:32-59 | reserves and agrees on every existing account, refuses others, touches no other entry |
| PaymentBank.BankServer.CommitTransaction | P3/server/bank_server.go:62-77 | run without interruption: removes the entry and succeeds, or fails without one |
| PaymentBank.BankServer.AbortTransaction | P3/server/bank_server.go:80-87 | removes the entry if there is one |
| PaymentBank.OneEntryPerTransaction | P3/server/bank_server.go:32-87 | for handlers one after another: a yes vote leaves one entry that exactly one Commit or Abort removes; a second Commit fails; other entries are never touched |
| PaymentGateway.PaymentGatewayServer.RegisterClient | P3/gateway/payment_gateway.go:46-60 | run without interruption: opens a new client's account and does not change a known one |
| PaymentGateway.PaymentGatewayServer.UpdateLocalBalance | P3/gateway/payment_gateway.go:243-249 | run without interruption: debits a known client and no one else |
| PaymentGateway.PaymentGatewayServer.StoreIdempotency | P3/gateway/payment_gateway.go:252-257 | stores one response under one key |
| PaymentGateway.PaymentGatewayServer.Collect | P3/gateway/payment_gateway.go:126-150 | a select loop ends early with its first error or timeout, or with both sides' answers set |
| PaymentGateway.RefusalTexts | P3/gateway/payment_gateway.go:153-161 | a refused phase names the sender's message before the receiver's, whichever came first |
| PaymentGateway.InterruptionTexts | P3/gateway/payment_gateway.go:129-149 | an error of the commit phase is marked as such, and each phase has its own timeout text |
| PaymentGateway.PaymentGatewayServer.ProcessPayment | P3/gateway/payment_gateway.go:63-227 | replays return the stored response and missing banks an error; otherwise response, stores and the four RPCs, in order, are determined by what the two loops take |
| PaymentSelect.LoopEnds | P3/gateway/payment_gateway.go:126-161 | a select loop never takes two answers of one side, and what it takes second ends it as the method says |
| PaymentSelect.LoopInRun | P3/gateway/payment_gateway.go:126-216 | in every run a select loop ends as the method says of the two things it took, whatever the goroutines, banks and other payments do in between |
| PaymentSelect.LoopInterrupted | P3/gateway/payment_gateway.go:129-149 | an error or the deadline ends it at once, with the method's message |
| PaymentAgreement.SendsNeverBlock | P3/gateway/payment_gateway.go:105-124 | no goroutine finds its channel full |
| PaymentAgreement.SecondAnswer | P3/gateway/payment_gateway.go:126-150 | the second answer finds the other one set and the error channel empty |
| PaymentAgreement.CallStepOk | P3/gateway/payment_gateway.go:126-206 | every step of a call keeps the protocol of its channels and RPCs |
| PaymentRuns.RunKeeps | P3/gateway/payment_gateway.go:63-240 | so does every interleaving of any number of payments, with the banks' entries |
| PaymentRuns.TwoPhaseCommitAgreement | P3/gateway/payment_gateway.go:153-182 | in every run a Commit implies two yes votes and no Abort for that transaction, on either side |
| PaymentRuns.ChannelProtocol | P3/gateway/payment_gateway.go:105-209 | in every run no unset answer is read, no send blocks, and the answer that ends a loop leaves both channels and the shared error channel empty |
| PaymentRuns.SuccessMeansCommitted | P3/gateway/payment_gateway.go:208-226 | a first-time success means both banks voted yes and committed, and hold no entry for it in any continuation; two different banks have each removed exactly the entry they held |
| PaymentRuns.CommitRemovesItsEntry | P3/server/bank_server.go:62-77 | the delete of a Commit removes that transaction's entry and no other, answers yes, and finds it still there unless the other Commit of the payment was faster in the same bank |
| PaymentRuns.OthersUntouched | P3/server/bank_server.go:32-87 | no other step adds, removes or alters a transaction's entries |
| PaymentRuns.OneBankCommitsIff | P3/server/bank_server.go:62-77 | inside one bank both Commits are answered with yes if and only if, somewhere in the run, both had found the entry and neither had deleted it |
| PaymentRuns.OneBankSucceedsOnlyIf | P3/gateway/payment_gateway.go:163-226 | a payment inside one bank succeeds only in such runs |
| PaymentFailures.AbortsIff | P3/gateway/payment_gateway.go:126-182 | in every run a payment that has failed or returned asked both banks to prepare and then told both to commit or both to abort, never one bank and never both things |
| PaymentFailures.LaunchOutcome | P3/gateway/payment_gateway.go:84-124 | a missing bank is an error, the sender's first, with nothing sent; otherwise one Prepare goes to each side |
| PaymentFailures.FailureIsAnswered | P3/gateway/payment_gateway.go:126-216 | in every continuation a phase that fails makes the payment return exactly the reason of what its loop took |
| PaymentFailures.InterruptionIsAnswered | P3/gateway/payment_gateway.go:129-149 | so does an error or a timeout that comes first |
| PaymentFailures.StoresWhatItReturns | P3/gateway/payment_gateway.go:184-226 | a call stores under its key what it returns |
| PaymentFailures.AbortLeavesNothing | P3/gateway/payment_gateway.go:230-240 | an Abort handled after the payment's Prepares to that bank leaves no entry there in any continuation |
| PaymentFailures.RefusedAfterBothVoted | P3/gateway/payment_gateway.go:153-161 | an abort because of a refusal comes after both banks have voted |
| PaymentFailures.PrepareReserves | P3/server/bank_server.go:32-59 | the sender's Prepare is for the sender's account at the sender's bank, the receiver's likewise, and reserves the payment's amount |
| PaymentFailures.EntryIsAmount | P3/server/bank_server.go:32-59 | in every run an entry a bank did not start with is the amount of the payment it is named after, from or to an account of that bank |
| PaymentStore.StepStore | P3/gateway/payment_gateway.go:65-68 | every step keeps store and log in line if no two calls contend for a key without a result |
| PaymentStore.AtMostOncePerKey | P3/gateway/payment_gateway.go:65-68 | in such runs, overlapping replays included, no key runs twice, and the store holds exactly the results of the keys that ran |
| PaymentStore.OneAnswerPerKey | P3/gateway/payment_gateway.go:65-68 | and every call of a key that has returned a response has returned the stored one |
| PaymentStore.ApartIsDistinct | P3/gateway/payment_gateway.go:65-68 | until another call arrives, keys that are apart stay apart and run at most once |
| PaymentStore.StoredIsSettled | P3/gateway/payment_gateway.go:65-68 | where keys have been apart so far, a key with a result is carried by no running call |
| PaymentStore.RunSettled | P3/gateway/payment_gateway.go:65-68 | such a key keeps its response and logs nothing more in any continuation |
| PaymentStore.ReplayReturnsStored | P3/gateway/payment_gateway.go:65-68 | once no running call carries a key that has its result, then in every continuation, with any overlaps, the response stays, the key runs no more, and every call that arrives with it returns it having sent nothing |
| PaymentStore.ReplayIsOver | P3/gateway/payment_gateway.go:65-68 | an answered replay takes no further step |
| PaymentReturns.OwnStep | P3/gateway/payment_gateway.go:126-226 | every unfinished call has a step of its own that brings it closer to its return |
| PaymentReturns.CanReturn | P3/gateway/payment_gateway.go:126-226 | so it can return within seven steps of its own, having stored its one result or, on a replay or a missing bank, none |
| PaymentReturns.BothRun | P3/gateway/payment_gateway.go:65-68 | two calls that contend for a key without a result can both run, wherever they are |
| PaymentReturns.DistinctKeysIff | P3/gateway/payment_gateway.go:65-68 | every continuation without a new call runs every key at most once if and only if no two calls contend for a key without a result |
| PaymentReturns.SettledIff | P3/gateway/payment_gateway.go:65-68 | a key with a result runs in no continuation if and only if no running call carries it |
| PaymentLedger.StepSurplus | P3/gateway/payment_gateway.go:243-249 | every step adds to a balance, beyond the plain one, exactly what a stale write loses |
| PaymentLedger.BalanceOfRun | P3/gateway/payment_gateway.go:243-249 | in every run a balance with no debit on its way to the log is the opening balance less the successes since plus what stale writes lost |
| PaymentLedger.PlainBalanceIff | P3/gateway/payment_gateway.go:243-249 | for positive amounts and an account that is not reset, that loss is none if and only if no write replaced a value other than the one its call had read |
| PaymentLedger.FreshStep | P3/gateway/payment_gateway.go:243-249 | what a call or registration has read still holds when it writes, if no two of one client are in between at once |
| PaymentLedger.ClientBalance | P3/gateway/payment_gateway.go:243-249 | if no two calls of one client are between reading and writing its balance at once, and likewise for opening accounts, balances are the opening balance less the successes since, whatever else overlaps |
| PaymentLedger.LedgerBalance | P3/gateway/payment_gateway.go:218-257 | if also no two calls contend for a key, these successes are those of distinct keys that are stored as successful |
| PaymentLedger.RegisteredHasAccount | P3/gateway/payment_gateway.go:46-60 | in every run a client whose registration is done has an account for good |
| PaymentSuccess.CanSucceedIff | P3/server/bank_server.go:32-77 | a payment past the lookup can succeed if and only if its banks exist and know the accounts |
| PaymentSuccess.OneBankSucceeds | P3/server/bank_server.go:62-77 | a run from the start in which a payment inside one bank succeeds |
| PaymentOverlap.OverlapDebitsTwice | P3/gateway/payment_gateway.go:65-68 | any two overlapping calls past the lookup can both succeed and both debit, whatever their keys |
| PaymentOverlap.OneKeyDebitsTwice | P3/gateway/payment_gateway.go:65-68 | a run from the start in which one key debits twice |
| PaymentOverlap.OverlapLosesDebit | P3/gateway/payment_gateway.go:243-249 | any two overlapping calls of one client past the lookup can both succeed while only one debit counts |
| PaymentOverlap.OneClientLosesDebit | P3/gateway/payment_gateway.go:243-249 | a run from the start in which a client pays twice and is debited once |
| PaymentOverlap.ResetUndone | P3/gateway/payment_gateway.go:52-54 | a registration that resets an account and a stale write after it lose nothing together |
| PaymentOverlap.ResetUndoneHappens | P3/gateway/payment_gateway.go:52-54 | a run from the start to where that can happen |
| BalancerRoundRobin.LbServer.RegisterServer | P1/load_balancer/lb.go:32-44 | appends the server with load zero |
| BalancerRoundRobin.LbServer.ReportLoad | P1/load_balancer/lb.go:46-57 | sets the load of the first server of that id and nothing else; an unknown id changes nothing |
| BalancerRoundRobin.ReportIsStored | P1/load_balancer/lb.go:49-54 | the first server of the id has the reported load afterwards and nothing else has changed |
| BalancerRoundRobin.UnknownReport | P1/load_balancer/lb.go:49-56 | a report of an unknown id changes nothing |
| BalancerRoundRobin.LeastLoadFollowsReports | P1/load_balancer/lb.go:73-79 | least load then picks it exactly if it has reported less than all others |
| BalancerRoundRobin.LbServer.GetBestServer | P1/load_balancer/lb.go:59-91 | an error exactly without servers; round robin serves the indexed one and advances; the other policies change nothing |
| BalancerRoundRobin.RunKeeps | P1/load_balancer/lb.go:32-72 | over every run the index stays in range and every server keeps its position |
| BalancerRoundRobin.OncePerPass | P1/load_balancer/lb.go:70-72 | each server is served exactly once per pass, whoever registers meanwhile |
| BalancerRoundRobin.FairWindow | P1/load_balancer/lb.go:70-72 | over any window, any two servers registered at its start are served equally often, give or take one |
| BalancerRoundRobin.FairSinceRegistered | P1/load_balancer/lb.go:32-44 | since the later of two servers registered their numbers differ by at most one, and the newcomer's turns start in the pass it joined |
| BalancerRoundRobin.NoStarvation | P1/load_balancer/lb.go:70-72 | a window with as many requests as there are servers at its end serves every server present at its start |

## Left out

- Transport: gRPC stubs, dialing, TLS, authentication and logging interceptors, command lines and prompts.
- Real files: the scanner's limit on the length of a line, I/O errors other than a missing input, and task bodies that fail; the master ignores the success flag of a report.
- Input files are kept apart from buckets and outputs: an input file that is itself named like a bucket, which the source would truncate before it reads it, is not modelled.
- The FNV hash: buckets are taken from any function of the word, modulo the number of buckets.
- Text of the output files: a line is kept as a record of word and total, or word and file names.
- MapReduceJob.StepKeeps: truncating the buckets of a map task is one step, so a crash between two truncations is not modelled.
- MapReduceWorker.AddCounts: totals are unbounded integers, while the parsed counts are limited to 64 bits.
- Integer widths elsewhere: task ids, rounds and transaction ids are unbounded, and transaction ids are distinct.
- Amounts, balances and loads are reals, so rounding and NaN are not modelled.
- PaymentBank.BankServer.CommitTransaction: looks up and deletes without interruption; in PaymentWorld the two are separate steps and may overlap with another Commit.
- PaymentGateway.PaymentGatewayServer.RegisterClient: looks and opens without interruption; in PaymentWorld the two are separate steps, and overlapping registrations can reset a balance.
- PaymentGateway.PaymentGatewayServer.UpdateLocalBalance: reads and writes without interruption; in PaymentWorld the two are separate steps, and overlapping calls can lose a debit.
- PaymentBank.OneEntryPerTransaction: speaks of handlers one after another; PaymentRuns.OneBankCommitsIff says what overlapping ones do.
- ByzantineGenerals.General.RunRound: takes what its channel delivers as a parameter; who sends and when is in the state machine of ByzantineNetwork.
- The texts of RPC errors, and of the prefixes the goroutines put before them, are arbitrary.
- Delivery in P4 is not promised: a message sent before its channel exists is lost, and nothing is claimed about rounds that then never end beyond that they do not.
- PaymentGateway.PaymentGatewayServer.ProcessPayment: takes what its two select loops receive as parameters; goroutines, RPCs and overlap are in PaymentWorld.
- Bank balances: Commit moves no money, so nothing is said about it; GetAccount and GetBalance only read.
- Entries left behind by a late Prepare or by an Abort that shares an expired deadline: nothing is claimed about them.
- The success message is kept as its amount and transaction id, not as formatted text.
- The client of P3 and its offline queue: clients are arbitrary submissions of requests.
