# BotBattle, verified parts

A Dafny 4.11 model of the stateful and arithmetic parts of the platform and of its sample
bots, with proofs about every run, every history and every input. `dafny verify
dfyconfig.toml` checks the whole project.

| file | what it models |
|---|---|
| `user_storage.dfy` | content-addressed user files: upload, promote, commit, delete and the deferred sweep as interleaved steps |
| `upload_admission.dfy` | the upload lane against a deployment drain: mutex, semaphore, counter and durable flag, with cancellation at every wait |
| `rate_limiter.dfy` | the sliding-window limiter and its two-level use in the middleware |
| `token_bucket.dfy` | the inbound token bucket of a local-AI connection |
| `local_connector.dfy` | the connector's connection loop, which owns a child process |
| `log_field.dfy`, `log_records.dfy` | log fields and lines that can be read back, and the grouping of log lines into records |
| `holdem_types.dfy`, `holdem_referee.dfy` | the betting state machine of the Hold'em referee |
| `holdem_replay.dfy`, `holdem_agreement.dfy`, `holdem_seating.dfy`, `holdem_creplay.dfy` | the sample bots' replays of the published history, compared with the referee, with either seat taken for the small blind |
| `holdem_lock.dfy` | the "fold to the end and still win" lock, against every continuation of the match |
| `hand_rank.dfy`, `hand_judge.dfy` | the sample bot's hand evaluator, and the referee's |
| `gomoku.dfy`, `gomoku_points.dfy` | the Gomoku sample bots in Python and C |
| `gomoku_rules.dfy`, `gomoku_adjudicator.dfy` | the referee's classification of black moves: what it means, and the memoised search that computes it |
| `pencil.dfy` | the dots-and-boxes sample bot |

The step functions (`UserStorage.Step`, `UploadAdmission.Step`, `HoldemReferee.Act`, ...) say
what the code does; the table below names what is proved about them. Protocols are state
machines over atomic steps, and a theorem about a protocol quantifies
over every sequence of enabled steps. Objects that the source updates in place are classes
whose methods are tied to functions on values; the lemmas are about those functions. Clocks
are integers or reals that are passed in; what the network, the operating system, a Bot or
the database does is a parameter or an event.

## What the proofs found

These are places where the code does not do what its own text, or another part of the
repository, says. Each is stated by a lemma with a concrete input, beside the exact condition
under which the code is right.

* **Sweeping.** The text at `bzplat/backend/user_storage.py:86-106` takes the rename for a
  refresh of the blob's modification time. `replace` keeps the time of the last write, so a
  re-upload can set a blob's time *back*. Committing within the grace period and leaving an
  inspected blob alone are then enough exactly if there is at most one upload lane, whatever
  the grace period (`LanesAreExact`, with the losing run in `TwoLanesLoseABlob`). The platform
  has one (`bzplat/backend/runtime/config.py:35`; `UploadAdmission.CountersAreExact` shows that
  the gate keeps to its slots), and each of the two hypotheses is needed
  (`LateCommitLosesABlob`, `DisturbedSweepLosesABlob`). The sweep's snapshot of references is
  not what makes it safe: the age and the recheck are.
* **Draining.** Uploads wait for their shielded steps however often they are cancelled, but
  not for the write of a chunk (`bzplat/backend/api_routes.py:592`, `:1788`): an upload waits
  exactly for shielded work (`WorkIsWaitedFor`), so on a drained platform the only operations
  left are such writes (`DrainIsStable`), and there can be one (`DrainLeavesAStray`).
* **Small blind.** The referee and the C bots give the dealer the small blind;
  `holdem_bot6.py` gives it to the other seat. Its reconstruction of the hand is then right
  exactly on level tables: the dealer opened with a call, and the big blind is all-in before
  the flop or did not make the last raise before it (`SeatingIsExact`); elsewhere each seat's
  chips are off by 50 one way or the other, cut to the chips there are (`OffsetsAreExact`).
  The lock and the opponent's lock are announced exactly where they would hold on a total
  lower by a margin of offset and parity (`LockIsShifted`, `OpponentLockIsShifted`). They are
  exact if and only if it is 0, as under the bot's own seating, and can be trusted if and only
  if it is not negative (`LockIsExact`, `OpponentLockIsExact`). On the platform both can fail
  (`LockCanLose`, `OpponentLockCanFail`).
* **Smallest raise.** `holdem_bot6.py` tracks the size of the last raise, the referee the
  bet it was raised to. A raise that the bot's last check lets through can be refused and
  turned into a fold, at the first decision of a hand and later (`FirstRaiseRefused`,
  `SanitizedRaiseRefused`); `SmallestRaiseIsExact` says exactly when the smallest raise is
  right and `SanitizedRaisesAreLegal` exactly when none is refused, for the bot's seating and
  for the referee's. The C bots' smallest raise is the referee's (`CBotIsFaithful`).
* **Wheel.** The bot's evaluator has no straight of ace to five. Two hands are ordered as the
  referee orders them exactly if both or neither are wheels, or the other hand is one that
  the bot happens to place on the right side of a wheel (`SameVerdict` lists them by class and
  ace); `SameShowdown` says the same of the best hands of more cards, by the hands that are
  no wheel. The points agree exactly off wheels (`PointsAreScore`), and a mixed wheel is
  misjudged against every pair, two pair and triplet (`WheelIsMisjudged`).
* **Bucket keys.** The limiter's keys are joined texts. No two budgets share one, except that
  a request with method `*` for the path `/api/*` spends its address's budget twice
  (`KeysAreApart`).
* **Facing an all-in.** The C replay does not raise the current bet on an all-in, so its
  amount to call is right exactly when no all-in is faced (`CBotIsFaithful`); its bots read
  the flag instead.
* **A cap without effect.** The engine's limit of 200 actions in a hand can never act: no hand
  has more than 78 (`CapNeverReached`).

## Model

| member | source | states |
|---|---|---|
| UserStorage.EveryRowHasItsBlob | bzplat/backend/user_storage.py:86-233 | over every interleaving, every manifest row has its blob, if commits follow the last write within the grace period, no promote disturbs an inspected blob, and uploads of one content take turns |
| UserStorage.RunKeepsInv | bzplat/backend/user_storage.py:152-233 | every run keeps the invariant: a promoted upload that may still commit owns its blob, and what the sweep is about to remove no row names and no upload may still commit |
| UserStorage.RowsAreLastWords | bzplat/backend/api_routes.py:1697-1868 | over every run, an entry is listed with a content if and only if the last event that names it is the commit of that content under its name, or none names it and it was listed so at the start |
| UserStorage.UploadsLastAsBegun | bzplat/backend/api_routes.py:1745-1830 | over every run, an upload is under way exactly from its beginning to its commit, its abandonment or a crash, with the user, content and name it began with |
| UserStorage.UploadsAreTheirOwn | bzplat/backend/api_routes.py:1745-1830 | over every run, an upload is what the clock and its own events make it, whatever other uploads, the manifest and the sweep do, but for the sweep of its staging directory |
| UserStorage.LanesAreExact | bzplat/backend/runtime/config.py:35 | whatever the grace period: every run that meets the first two hypotheses keeps every row its blob if and only if there is at most one upload lane |
| UserStorage.OneLaneIsSafe | bzplat/backend/runtime/config.py:35 | with one upload lane, as the platform is set up, taking turns needs no hypothesis |
| UserStorage.RemovalIsExact | bzplat/backend/user_storage.py:208-221 | from any state in which rows and pending uploads have their blobs, a removal orphans no row, then or by a timely commit after it, if and only if no row names the blob and no upload that promoted it may still commit |
| UserStorage.SweepClears | bzplat/backend/user_storage.py:152-221 | an undisturbed sweep reaches the removal of every old blob that no row names: the sweep also does its work |
| UserStorage.DeletedBlobIsSwept | bzplat/backend/api_routes.py:1852-1868 | deleting the only row of a blob drops the row and leaves the blob, and an undisturbed sweep later than the grace period removes the blob and nothing else |
| UserStorage.SweepGoesOn | bzplat/backend/user_storage.py:204-229 | a blob that cannot be removed stays, and the sweep goes on to remove the next |
| UserStorage.SweepCanEnd | bzplat/backend/user_storage.py:152-233 | a sweep can end wherever it stands without touching a blob or a row |
| UserStorage.TwoLanesLoseABlob | bzplat/backend/user_storage.py:86-106 | with two or more lanes and any grace period, a run that meets the first two hypotheses leaves a row without its blob |
| UserStorage.DisturbedSweepLosesABlob | bzplat/backend/user_storage.py:208-221 | without the second hypothesis no number of lanes is enough |
| UserStorage.LateCommitLosesABlob | bzplat/backend/user_storage.py:160-172 | nor is it without the first |
| UserStorage.UserStorageManager.PromoteStaged | bzplat/backend/user_storage.py:86-106 | the renamed file replaces the blob and keeps the time of its last write: the protocol's promote step |
| UserStorage.UserStorageManager.CommitUserStorageFile | bzplat/backend/api_routes.py:1697-1715 | promote, then a row or a refusal that leaves the blob: two steps of the protocol |
| UserStorage.UserStorageManager.SweepUnreferenced | bzplat/backend/user_storage.py:152-233 | a sweep by itself removes exactly the old blobs without a row, counts them and their bytes, and leaves every row its blob |
| UserStorage.UnlinkKeepsInv | bzplat/backend/user_storage.py:216-221 | the removal itself keeps every row's blob and every blob that an upload may still commit |
| UserStorage.SweptIsExact | bzplat/backend/user_storage.py:206-221 | the blobs left by a partial sweep are exactly those not doomed so far |
| UserStorage.SweptCount | bzplat/backend/user_storage.py:206-221 | the count reported is that of the blobs gone |
| UploadAdmission.CountersAreExact | bzplat/backend/api_routes.py:501-538 | over every run with timeouts and cancellations anywhere: the counter is the number of uploads inside, permits held and free add up, `max(0, ...)` never clips, and nothing leaks when the last upload is gone |
| UploadAdmission.StepKeepsInv | bzplat/backend/api_routes.py:486-538 | every step, cancellations included, keeps counter and permits exact |
| UploadAdmission.WorkIsWaitedFor | bzplat/backend/api_routes.py:417-452 | over every run, an upload stays counted and holds its permit until the operation it started ends, however often it is cancelled, if and only if that is a shielded one |
| UploadAdmission.MaintenanceAdmitsNobody | bzplat/backend/api_routes.py:515-523 | while maintenance lasts no upload joins those inside |
| UploadAdmission.MaintenanceIsExact | bzplat/backend/api_routes.py:7920-7924 | over every run, there is maintenance if and only if some beginning of it is followed by no end, or it was there at the start and has not ended |
| UploadAdmission.HolderIsExact | bzplat/backend/api_routes.py:7850-7924 | over every run, an administrator holds the mutex from taking it to setting the flag or failing to |
| UploadAdmission.PresenceIsExact | bzplat/backend/api_routes.py:486-538 | over every run, an upload is there from its arrival until maintenance turns it away at one of its checks, it times out, it leaves, or it is cancelled before it is inside |
| UploadAdmission.ArrivalGetsIn | bzplat/backend/api_routes.py:501-523 | with the mutex and a permit free and no maintenance, an arrival is inside after its two checks and its permit |
| UploadAdmission.CancelledStartsNothing | bzplat/backend/api_routes.py:417-452 | however a cancelled upload goes on, it starts no other operation until it has left |
| UploadAdmission.DrainIsStable | bzplat/backend/api_routes.py:7869-7876 | once maintenance has begun the counter only falls, and at zero it stays zero until maintenance ends; the operations then running are the chunk writes of cancelled uploads, and there are never more of them |
| UploadAdmission.DrainLeavesAStray | bzplat/backend/api_routes.py:592 | a run to a drained platform on which a chunk is still being written |
| UploadAdmission.StraysAreExact | bzplat/backend/api_routes.py:592 | over every run, the stray writes are those cut loose by a cancellation less those that have ended |
| UploadAdmission.DrainCanProceed | bzplat/backend/api_routes.py:524-538 | a drain cannot deadlock: from every state reached under maintenance there is a continuation to a drained platform without a cancellation and without the end of maintenance, no longer than the steps the uploads have left and one of an administrator who holds the mutex |
| RateLimiter.InMemoryRateLimiter.Check | bzplat/backend/security.py:651-673 | one call in place: the new table, the answer, the remaining calls and the Retry-After |
| RateLimiter.InMemoryRateLimiter.Reserve | bzplat/backend/security.py:654-664 | pruning the key's bucket, and reclaiming expired buckets for a new key of a full table |
| RateLimiter.InMemoryRateLimiter.Cleanup | bzplat/backend/security.py:675-679 | exactly the buckets with a hit later than the cutoff stay |
| RateLimiter.CheckRefines | bzplat/backend/security.py:651-673 | one call of the pruned table decides as the limiter that keeps every admitted hit, and still shows that history afterwards |
| RateLimiter.LimiterRefinesNaive | bzplat/backend/security.py:643-679 | for every sequence of checks and cleanups under a clock that does not go back: every answer is the naive limiter's, table-full denials included, and the table never exceeds its bound |
| RateLimiter.CheckReports | bzplat/backend/security.py:666-673 | what the answer reports besides the decision, in terms of the whole history of hits |
| RateLimiter.NoWindowExceeds | bzplat/backend/security.py:665-673 | no window, wherever it is placed, ever holds more admitted hits of a key than its limit |
| RateLimiter.RetryIsHonest | bzplat/backend/security.py:665-669 | the announced Retry-After is right to the second: sooner the same call is refused again, later the limit does not stand in the way |
| RateLimiter.BucketsAreRoutes | bzplat/backend/security.py:776-791 | two paths share a bucket if and only if they are the same, or one of three POST routes with two ids |
| RateLimiter.RoutesByText | bzplat/backend/security.py:60-67 | the three routes, by the text of the path around an id without a slash |
| RateLimiter.KeysAreApart | bzplat/backend/security.py:814-842 | the joined keys of two routes are equal if and only if address, method and path are; a route's key is an address's exactly for method `*` and path `/api/*` |
| RateLimiter.RateLimitMiddleware.Dispatch | bzplat/backend/security.py:793-861 | the address's budget is spent first, and the route's only if it is granted, each under its joined key |
| RateLimiter.RepliesRefine | bzplat/backend/security.py:793-861 | over every sequence of requests the middleware replies as the naive two-level limiter |
| RateLimiter.BudgetsHold | bzplat/backend/security.py:793-861 | in every window of a minute a key is served at most as often as its limit, cleanups and a full table notwithstanding |
| RateLimiter.RouteBudgetsHold | bzplat/backend/security.py:776-861 | in every window of a minute the requests served for one route of an address, whatever the ids in their paths, number at most the largest limit they carry |
| RateLimiter.AddressBudgetHolds | bzplat/backend/security.py:813-840 | and all the requests served to one address at most 600 |
| TokenBucket.Bucket.ConsumeInboundToken | bzplat/backend/api_routes.py:2885-2897 | a call is admitted exactly if the level that its history of calls determines holds a token |
| TokenBucket.Bucket.RefundBoundTurnToken | bzplat/backend/api_routes.py:2899-2903 | the level after a refund is the one its history determines |
| TokenBucket.LevelInBounds | bzplat/backend/api_routes.py:2870-2903 | the level stays between 0 and 20 |
| TokenBucket.SpanIsBounded | bzplat/backend/api_routes.py:2885-2903 | over every span of calls, admissions less refunds are at most 20 and 5 for each second |
| TokenBucket.LevelIsLeast | bzplat/backend/api_routes.py:2888-2893 | the level is at most what a bucket full at any earlier call would hold |
| TokenBucket.LevelIsSpare | bzplat/backend/api_routes.py:2888-2893 | and is one of those levels: their minimum |
| TokenBucket.DenialIsDeserved | bzplat/backend/api_routes.py:2894-2895 | a call is denied if and only if since some call the traffic has used up a full bucket and what time added |
| TokenBucket.SpareIsBudget | bzplat/backend/api_routes.py:2885-2903 | those levels in numbers: 20, five a second, less admissions, plus refunds |
| TokenBucket.RefundedTrafficIsAdmitted | bzplat/backend/api_routes.py:3037-3043 | a peer with at most 19 unrefunded admissions over any span is admitted, however fast it calls |
| LocalConnector.HandleConnection | scripts/local_ai_client.py:590-741 | for every message sequence and every failure: no rule of the monitor is broken, no process is left alive, and what happens is exactly what the messages call for, up to the one that ends the connection |
| LocalConnector.TranscriptIsAnswered | scripts/local_ai_client.py:590-741 | of that, between each message and the next stands exactly the reply it calls for; only with the message that ends the connection a reply may be lost |
| LocalConnector.CalmGoesOn | scripts/local_ai_client.py:590-741 | a message ends the connection, or its reply is lost, only if something is cancelled, cut short or lost |
| LocalConnector.HandleMessage | scripts/local_ai_client.py:595-736 | one message, whatever its fate: all its events, its reply, the slot after it, and the exact condition for the end of the connection |
| LocalConnector.HandlePrepare | scripts/local_ai_client.py:628-657 | an older prepared process is stopped first; a started one fills the slot and is announced, a failed start is reported; whatever fails, exactly these events |
| LocalConnector.HandleTurn | scripts/local_ai_client.py:662-736 | a prepared process is run only for the very request it was prepared for, and otherwise just stopped; the output or the failure is reported, once; whatever fails, exactly these events |
| LocalConnector.RunPrepared | scripts/local_ai_client.py:356-387 | the process is stopped however the run ends, after its answer has been sent |
| LocalConnector.RunDirect | scripts/local_ai_client.py:390-428 | a process is started for the turn, and stopped if it was started |
| LocalConnector.OneProcessAtATime | scripts/local_ai_client.py:590-741 | at no point of an allowed trace are two Bot processes alive |
| LocalConnector.HandedWhatItWasStartedFor | scripts/local_ai_client.py:672-684 | a request is handed to a process started for it, with no other start, stop or handing in between |
| LocalConnector.OneReplyEach | scripts/local_ai_client.py:686-736 | between two replies a message was received: none is answered twice |
| LocalConnector.ResponseIsForItsTurn | scripts/local_ai_client.py:689-724 | a response answers the last message, a turn request that was handed to a process since |
| LogField.SingleLineLogField | bzplat/backend/security.py:128-160 | the loop's result is the escaped text cut to its limit; a limit below one is refused |
| LogField.EscapesArePrefixCode | bzplat/backend/security.py:137-156 | the escapes are a prefix code: each is read back whatever follows it, and a cut one is not read as anything |
| LogField.EscapeRoundTrip | bzplat/backend/security.py:136-157 | a decoder recovers every text from its escaped form |
| LogField.TruncationKeepsPrefix | bzplat/backend/security.py:158-160 | a cut field has the limit's length, ends in the ellipsis, and decodes to a prefix of the text, all of it up to the escape the cut fell in |
| LogField.FieldIsPrintable | bzplat/backend/security.py:128-160 | the field has only printable characters, so no line break |
| LogField.ValueReadsBack | bzplat/backend/security.py:163-173 | a rendered value, bare or quoted, is read back up to the space that ends it |
| LogField.QuotedIff | bzplat/backend/security.py:163-173 | a value is left bare if and only if it is not empty and has no space, equals sign, quote or backslash |
| LogField.LineReadsBack | bzplat/backend/security.py:163-173 | a line of fields gives back exactly the names and values it was made of: no value can forge a field |
| LogField.AuditLog | bzplat/backend/security.py:968-1013 | the audit line reads back as exactly the given fields, the optional ones only if given |
| LogField.FieldsAreBounded | bzplat/backend/security.py:124-160 | a field of the line is the whole escaped value or its first 1023 characters and the ellipsis |
| LogRecords.Strip | bzplat/backend/api_routes.py:8107 | the longest start of the line that does not end in a line break, and only line breaks are cut off |
| LogRecords.GroupLogRecords | bzplat/backend/api_routes.py:8098-8116 | the records hold all stripped lines in order; levelled records start with their only header, headerless ones are single lines before the first |
| LogRecords.GroupingIsUnique | bzplat/backend/api_routes.py:8098-8116 | there is only one such grouping |
| LogRecords.SelectNewest | bzplat/backend/api_routes.py:8153-8163 | the lines of a suffix of the records, which is everything or the shortest that reaches the limit |
| LogRecords.FiltersAreExact | bzplat/backend/api_routes.py:8141-8150 | the filters leave, in order, exactly the records of the level asked for with the keyword in some line |
| LogRecords.SuffixIsUnique | bzplat/backend/api_routes.py:8153-8163 | there is only one such suffix |
| LogRecords.OneAnswer | bzplat/backend/api_routes.py:8098-8163 | so the page's lines are determined by the file, the filters and the limit |
| LogRecords.AdminLogs | bzplat/backend/api_routes.py:8139-8163 | the page's lines, from the file's last 8000 lines to the selection, with the limit bounded |
| HoldemReferee.LiveStep | bzplat/backend/games/holdem/holdem_judge.py:342-453 | at every table with someone to act, any integer keeps the invariant or ends the hand with its accounts intact; the search for the next seat always succeeds |
| HoldemReferee.SettlementConserves | bzplat/backend/games/holdem/holdem_judge.py:530-564 | settlement conserves chips, and a sole loser loses the smaller contribution |
| HoldemReferee.EveryRun | bzplat/backend/games/holdem/engine.py:222-262 | the invariant holds over every run of the engine with any integers |
| HoldemReferee.CapNeverReached | bzplat/backend/games/holdem/engine.py:222 | no hand lasts longer than 78 actions, so the cap of 200 never ends one |
| HoldemReplay.ReplayHistory | samples/holdem_bot6.py:257-320 | the loop computes the replay of the history |
| HoldemReplay.ReconstructState | samples/holdem_bot6.py:257-364 | the state the bot decides on is an observation of the replayed ledger |
| HoldemReplay.ReplayBalances | samples/holdem_bot6.py:257-342 | over every history, legal or not: stacks and commitments conserve 20000 a seat, stacks are not negative, an all-in seat has none left, and the round's bet is the larger contribution |
| HoldemReplay.MarksAreExact | samples/holdem_bot6.py:279-297 | over every history, legal or not: a player is out exactly if it folded somewhere, and all-in exactly if it went all-in before any fold |
| HoldemReplay.BetsAreMarked | samples/holdem_bot6.py:329-337 | what the bot is told each player has bet: a mark for the folded and for the all-in, otherwise the chips of the street, at most the round's bet |
| HoldemReplay.SanitizedRaiseIsExact | samples/holdem_bot6.py:2910-2927 | a positive action that survives the last check, whatever chips the request names, is replayed in full if and only if the bot has not folded and its replayed stack covers it, and raises the round's bet if and only if what the stack covers exceeds the amount to call |
| HoldemSeating.SeatingIsExact | samples/holdem_bot6.py:257-342 | over every run of the referee and for either seat taken as the small blind, street, bets, chips, pot, amount to call and all-in flag are the referee's own if and only if that seat is the dealer or the table is level; the smallest raise is not among them |
| HoldemSeating.SmallestRaiseIsExact | samples/holdem_bot6.py:329-364 | over every run and for either seat: where a raise is possible, the bot's smallest raise is the referee's if and only if the street's last raise was made from nothing and, with the wrong seat, the flop is dealt and the raiser's chips do not cut what the bot adds |
| HoldemSeating.OffsetsAreExact | samples/holdem_bot6.py:259-342 | over every run on the platform: by how much the bot is off at each seat, from the dealer's first action and the last raise before the flop; a level table is one without offsets |
| HoldemAgreement.BotSeatDisagrees | samples/holdem_bot6.py:259-272 | a concrete input: before the first action the dealer owes 50 and the bot believes it may check |
| HoldemAgreement.LegalRaises | bzplat/backend/games/holdem/holdem_judge.py:342-453 | the referee takes a raise exactly from its smallest raise to all the chips |
| HoldemAgreement.LegalActions | bzplat/backend/games/holdem/holdem_judge.py:342-453 | of all integers the referee takes exactly a fold, a check or call, an all-in, and while the opponent can act a raise from the smallest to all the chips |
| HoldemAgreement.SanitizedNonRaisesAreLegal | samples/holdem_bot6.py:2910-2927 | of the bot's actions, a sanitized one that is no raise is never refused |
| HoldemSeating.SanitizedRaisesAreLegal | samples/holdem_bot6.py:2910-2927 | over every run and for either seat taken as the small blind, all sanitized raises are legal if and only if the opponent is all-in, or the chips are too few to raise as the bot believes, or the street's last raise was made from nothing and it is not the first decision under the wrong seat |
| HoldemSeating.SanitizedRaiseRefused | samples/holdem_bot6.py:2910-2927 | a run in which a raise sanitized from the bot's own state is refused |
| HoldemSeating.FirstRaiseRefused | samples/holdem_bot6.py:2910-2927 | and one refused at the first decision of every hand |
| HoldemCReplay.ReplayStreet | samples/holdem_bots/poker_util.h:87-120 | the loop over the bets array computes the street's replay |
| HoldemCReplay.ReplaysCoincide | samples/holdem_bots/poker_util.h:80-122 | the C and the Python replay agree on every history of rounds in order without folds and all-ins, and with affordable calls and raises, whichever seat has the small blind |
| HoldemCReplay.SameAmountToCall | samples/holdem_bots/poker_util.h:121-123 | on those histories both bots see the same bets and the same amount to call |
| HoldemCReplay.CBotIsFaithful | samples/holdem_bots/poker_util.h:80-132 | over every run of the referee: the all-in flag is right, the amount to call is right exactly without an all-in, and a raise is offered exactly if the referee would take one, of exactly its sizes |
| HoldemLock.FoldedHand | bzplat/backend/games/holdem/holdem_judge.py:342-453 | folding a whole hand costs the blind posted, or wins the small blind if the opponent folds first |
| HoldemLock.GuaranteedIff | samples/holdem_bot6.py:367-381 | folding every remaining hand is a guaranteed win, against every play of every opponent, if and only if the total exceeds the blinds to come |
| HoldemLock.ForcedFoldLossBound | samples/holdem_bot6.py:367-381 | the loop adds up what is committed and the expected blinds of the remaining hands |
| HoldemLock.LockIsShifted | samples/holdem_bot6.py:384-401 | over every run, and whichever seat the bot is told is the dealer, its exact branch announces the lock if and only if folding to the end would be a guaranteed win on a total lower by the margin |
| HoldemLock.LockIsExact | samples/holdem_bot6.py:384-401 | announcement and guarantee agree on every lead if and only if the margin is 0, as it is under the bot's own seating, and every announcement can be trusted if and only if it is not negative |
| HoldemLock.OpponentLockIsShifted | samples/holdem_bot6.py:426-447 | likewise for the lock that folding is said to give the opponent |
| HoldemLock.OpponentLockIsExact | samples/holdem_bot6.py:426-447 | which is exact, and can be trusted, on the same terms with the opponent's margin |
| HoldemLock.LockCanLose | samples/holdem_bot6.py:384-401 | a hand in which the lock is announced and lost |
| HoldemLock.OpponentLockCanFail | samples/holdem_bot6.py:426-447 | a decision at which folding is said to give the opponent the lock and does not |
| HoldemLock.LastHandIsNoLock | samples/holdem_bot6.py:432-434 | in the last hand the opponent is never said to get the lock, although a fold gives it the match whenever it then stands above zero |
| HoldemLock.UnknownHandsLock | samples/holdem_bot6.py:384-401 | without the number of hands left, the lock on a lead of 1500 can be trusted if and only if folding the hands there are costs less |
| HandRank.ScoreDefined | samples/holdem_bot6.py:46-89 | for any five cards, no branch indexes out of range or takes the maximum of nothing: the groups and leftovers it takes apart exist |
| HandRank.ScoreMeansClass | samples/holdem_bot6.py:46-89 | the category of five distinct cards is the highest of the nine classes they belong to, followed by a straight's top card or by the ranks held, in order of count and height |
| HandRank.ScoreIsWhatIsSaid | samples/holdem_bot6.py:46-89 | and no other tuple says so: class and tie-break determine the score |
| HandRank.GroupsDescribe | samples/holdem_bot6.py:49-52 | counting and sorting: every rank once with its count, by count and then by height |
| HandRank.StraightIsRun | samples/holdem_bot6.py:55-62 | five different ranks that span four are five in a row, with that top card |
| HandRank.CountBounds | samples/holdem_bot6.py:54-78 | distinct cards have no rank five times, and in one suit none twice |
| HandRank.ScoreIgnoresOrder | samples/holdem_bot6.py:46-89 | the score does not depend on the order of the cards |
| HandRank.EveryHandIsChosen | samples/holdem_bot6.py:96 | every hand of n of the cards is among the combinations, up to order |
| HandRank.ChoicesAreHands | samples/holdem_bot6.py:96 | and every combination is a hand of the cards |
| HandRank.EvaluateBest | samples/holdem_bot6.py:92-100 | the result is attained by some five cards and no five have more; there is none of fewer than five |
| HandRank.BestIsMonotone | samples/holdem_bot6.py:92-100 | the best score is one, the same in any order, and never falls when cards are added |
| HandJudge.VerdictIsByPoints | bzplat/backend/games/holdem/holdem_judge.py:152-223 | that comparison is one total order: of lists compared from the left |
| HandJudge.PointsAreScore | bzplat/backend/games/holdem/holdem_judge.py:93-223 | the referee's points of a hand are the bot's score if and only if it is not a wheel |
| HandJudge.SameVerdict | bzplat/backend/games/holdem/holdem_judge.py:152-223 | referee and bot order two hands of five distinct cards alike, ties included, if and only if both or neither are wheels, or the one that is no wheel is among the classes the bot places rightly against it |
| HandJudge.WheelIsMisjudged | bzplat/backend/games/holdem/holdem_judge.py:93-108 | a wheel of mixed suits beats pairs, two pairs and triplets, and the bot thinks the opposite |
| HandJudge.FindMaxHandType | bzplat/backend/games/holdem/holdem_judge.py:226-238 | the referee's search finds a hand no other five of the cards beat; fewer than five cards stay as they are |
| HandJudge.SameShowdown | bzplat/backend/games/holdem/holdem_judge.py:241-247 | of any cards on either side, the bot's best scores compare as the referee's best hands if and only if neither best hand is a wheel; or one is, and the other hand is one the bot places rightly against it or loses to some hand of the wheel's cards that is no wheel; or both are, of two kinds, or each side's overrated hands are matched by the other's in the referee's order |
| Gomoku.StrideReaches | samples/gomokubot.py:108-112 | for any size and any stride with an inverse, every position is visited |
| Gomoku.StrideIsInjective | samples/gomokubot.py:108-112 | and none twice |
| Gomoku.EveryCellOnce | samples/gomokubot.py:109-111 | 97 is inverted by 58 modulo 225, so the search visits every cell exactly once |
| Gomoku.RemainderFixed | samples/gomokubot.c:132-133 | a remainder that truncates, put right by adding the size, is the other one's |
| Gomoku.DirectionsAreLines | samples/gomokubot.py:28 | the four directions are the row, the column and the two diagonals: another point is on one of them if and only if it is in line, on one only, as many steps away as its coordinates say |
| Gomoku.VisitsInOrder | samples/gomokubot.py:108-112 | the search starts in the last corner and goes back 97 cells at a time, round the board |
| Gomoku.BlackMoveIsConservativelySafe | samples/gomokubot.py:86-105 | the early returns decide that the point is empty and no black stone within four in either coordinate is on its row, its column or a diagonal |
| Gomoku.SafeBlackMove | samples/gomokubot.py:108-115 | none if and only if no cell of the board is safe, otherwise the first safe cell in the order of the stride |
| Gomoku.ChooseSafeBlackMove | samples/gomokubot.c:129-143 | the C search has the same answers |
| Gomoku.OneFirstSafe | samples/gomokubot.c:129-143 | which are unique |
| GomokuRules.SafeMoveIsLegal | samples/gomokubot.py:86-105 | after the chosen move every window of five through it holds one black stone, and the referee classifies the move as legal: it is never forbidden, nor a win |
| GomokuRules.AloneIsLegal | bzplat/backend/games/gomoku/forbidden.py:122-252 | a stone with no other within four steps on its lines makes no five, overline, four or three |
| GomokuRules.RunIsRow | bzplat/backend/games/gomoku/forbidden.py:82-99 | counting outwards gives n exactly if the stone stands in a row of n black stones that ends on both sides |
| GomokuRules.FoursAreReal | bzplat/backend/games/gomoku/forbidden.py:122-150 | the search collects exactly the fours there are, each once by its stones: four black stones that one vacant point makes exactly five |
| GomokuRules.ThreesAreReal | bzplat/backend/games/gomoku/forbidden.py:153-218 | and exactly the real threes: three black stones that a legal, non-winning move makes a straight four, with an exact five at either end |
| GomokuRules.ClassifyMeans | bzplat/backend/games/gomoku/forbidden.py:221-252 | the kind of a move by what stands on the board: an exact five, else six or more in a row, else two different fours, else two different real threes |
| GomokuAdjudicator.FindFours | bzplat/backend/games/gomoku/forbidden.py:122-150 | the search may stop at the second four: it has two exactly if there are two |
| GomokuAdjudicator.FindThrees | bzplat/backend/games/gomoku/forbidden.py:153-218 | likewise for real threes, with the memo shared by all continuations |
| GomokuAdjudicator.ClassifyMemo | bzplat/backend/games/gomoku/forbidden.py:221-252 | whatever the memo holds already, the answer is the classification and what it remembers stays right |
| GomokuAdjudicator.ClassifyBlackMove | bzplat/backend/games/gomoku/forbidden.py:255-278 | an error if and only if there is no black stone at the point, and otherwise the classification of the board |
| GomokuPoints.ListingIsComplete | samples/gomokubot.py:118-129 | the sequence of preferred empty points and then the others in row order lists every empty point once |
| GomokuPoints.CandidatePoints | samples/gomokubot.py:118-129 | its first two elements, distinct and empty; an error if and only if there are not two empty cells |
| GomokuPoints.FirstEmpty | samples/gomokubot.py:73-83 | the first element of the sequence, or none exactly if no cell is empty |
| GomokuPoints.FreshIsListing | samples/gomokubot.py:121-126 | skipping what was seen yields that same sequence |
| GomokuPoints.ChooseCandidate | samples/gomokubot.c:145-175 | the counter finds the element with the given index, if and only if there is one |
| GomokuPoints.ChooseWhiteMove | samples/gomokubot.c:104-111 | the C white move is the Python one |
| Pencil.FreeUnlessDrawn | samples/pencilbot.py:15-31 | an edge is free exactly if no move so far has drawn it, in whatever order the moves came |
| Pencil.Bot.LoadHistory | samples/pencilbot.py:34-46 | the board is rebuilt from the full histories |
| Pencil.Bot.ChooseMove | samples/pencilbot.py:54-67 | a move is an edge not drawn before; it passes exactly if told to or if every edge is drawn |
| Pencil.PlayGame | samples/pencilbot.py:34-84 | over every game the board kept from turn to turn is the one the histories rebuild, and no edge is chosen twice |

## Left out

* HTTP, WebSockets, SQL, the file system's own failures, subprocess plumbing and asyncio
  itself: a started task runs its `finally`, a semaphore acquire succeeds or times out, a
  started process is one event, and a shielded section runs to its end.
* Decoding of messages: JSON scanning in the C bots, `parse_turn` and `parse_prepare_turn`,
  regular expressions for log headers and bucket paths (path segments stand for them), and
  the upper-casing of levels and keywords. The parsed value is where a model begins.
* Whether a stray chunk write still reaches the disk: leaving the upload closes its file, and
  what closing does to a write under way is the runtime's matter.
- RateLimiter.KeysAreApart: takes addresses without a slash, methods without a slash or a colon and path segments without a slash, as HTTP has them.
- RateLimiter.AddressBudgetHolds: takes the limit of a request with method `*` for `/api/*`, whose route key is its address's (KeysAreApart), as at most 600; a larger one would be a larger budget under that key.
* The quotas of the store: a refusal of a row is an event that may happen or not.
* Of the sweep: the number of removed staging directories, the removal of empty user
  directories and the repair of file modes. A staging directory is modelled only as far as
  an upload can lose it.
- UserStorage.UserStorageManager.SweepUnreferenced: is one sweep by itself, over a listing without repetitions; what can happen between its steps is the protocol's part (EveryRowHasItsBlob).
- UserStorage.EveryRowHasItsBlob: takes the second hypothesis in the form that an upload which promoted an inspected blob has committed or given up before the recheck.
* The Hold'em referee is modelled on values, not as an object, and without cards: who wins
  a showdown is a parameter of the settlement. Its seats are two, its stacks 20000.
- HoldemLock.LockIsExact: is about the exact branch, where the number of remaining hands is known; UnknownHandsLock says what the fallback is worth.
* Everything of the bots that estimates: equity, opponent models, bet sizes, draws, texture.
* The bitboards of the referee's Gomoku code: sets of points stand for them, and the board has
  fifteen lines each way.
* The referee's other code for Gomoku: openings, symmetric candidates, scoring.
- GomokuRules.AloneIsLegal: is one direction; points the bot passes over may be legal too, which the bot's own text allows for.
* Pencil's scoring of boxes and the conversion of a request's numbers from text.
- LocalConnector.HandleConnection: does not model time; a timeout is a way for a run to fail.
- LogField.TruncationKeepsPrefix: cannot tell a cut field from a text that itself ends in the ellipsis; the code cannot either.
* Reconnection delays, contest standings, captcha images, passwords and path isolation:
  they would add only easy members, or rest on code outside these files.
