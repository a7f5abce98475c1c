# Eclair Mobile: ledgers, backups, seed files

Dafny proofs about the stateful parts of an Android Lightning wallet. One module per part:

- **Payments and channels** (`Events`, `Payments`, `Ledger`, `PaymentLife`, `Receipts`, `PaymentRows`, `OnchainBalance`, `Channels`,
  `ChannelNotes`, `ChannelRows`, `ChannelHistory`, `ChannelTotals`, `PaymentActors`, `ChannelObjects`, `ChannelActors`,
  `ChannelQueries`, `Wallet`). The node, the Electrum wallet, the user and the process itself send events; actors and threads
  change payment and channel objects in place and store them in two tables. Classes model the actors, the objects and the database helper; every method leaves
  tables and objects as a step function of the old state says (`TableStep`, `ChannelStep`), and the lemmas speak about runs
  of these functions: `PaymentRows` and `ChannelRows` say column by column what one step writes, `ChannelHistory` what a live
  channel holds after a run, from the messages alone. `Ledger` shows that the table, with its generated ids and its replacing inserts, acts as a plain map from
  (type, reference) to row. `Wallet.Run` ties the objects to the runs.
- **Choice of a backup** (`Backups`, `BackupChoice`): an in-place stable insertion sort with a comparator that is not
  antisymmetric, then the best-so-far loop with its 16-bit score.
- **Containers** (`Bytes`, `AesCbcWithIntegrity`, `Containers`, `SeedFile`, `Mnemonics`, `WalletSeed`): byte formats,
  encrypt-then-MAC, the seed file written through a temporary file, PIN changes, words and passphrase.
- **Seed keyboard** (`SeedKeyboard`), **native function registry** (`NativeRegistry`), **refresh throttle**
  (`RefreshScheduler`). `Sums`, `Sequences` and `Wrappers` are helpers.

What is assumed, always as a `requires`:

- Channels: new channel ids are fresh, a channel has its final id before it is first stored, one channel id has one actor
  (`ChannelNotes.Expected`). `LateRenameMovesTheRow` says what happens otherwise.
- Payments: an invoice is not generated twice for one hash (`PaymentLife.NoNewInvoice`). `PaidIsKeptIffHashIsFresh` says that
  this is the only way out of PAID.
- Cryptography: deciphering undoes enciphering and MACs and keys have their lengths (`Lawful`); zlib, UTF-8, JSON and
  hexadecimal text are undone by their inverses (`ZipLawful`, `CodecLawful`). Where authenticity is the point, the two strings
  compared do not collide (`NoCollision`). The safety of the seed file needs lengths only; that PIN changes keep the payload
  needs that a wrong PIN does not open the file to another one (`PinsAgree`).
- Random draws, timestamps of messages, the answers of the C library, of the Java virtual machine and of SQLite, and what a disk
  keeps, are parameters.

Where the code differs from its comments, the model follows the code:

- The comment on `fundsAreAccountedFor` lists the states whose funds are not counted as those that are, and names shutdown and
  unknown states among them. The code counts a channel in SHUTDOWN, and one whose state is still "N/A".
- The salt constant is named in bits and used in bytes: salts have 128 bytes, which is what the seed format stores.

Properties that hold only under a condition, with the condition:

- The dominant backup is found unless the number of channels ahead wraps in 16 bits (`DominantOfTwo` for the two scans there
  can be, `DominantIsChosenExactly` for any number, `DominantIsMissed` for an input).
- The order of iteration does not change the backup found, its origin and its file, except between two backups of one date of
  which neither wins (`OrderOfTwoMatters`); inputs are backups that do not cover each other, and one backup found in two
  places (`NeitherWins`, `EqualDatesKeepTheFirst`).
- The check of the temporary seed file does not see its version byte (`ActionHasVersion`, `ActionsHaveVersion`,
  `VersionCanBeLost` for an input).
- Reading accepts files shorter than their header and fills them up with zeros (`ReadThenWriteIsIdentity`).
- A null passphrase is an empty one in version 2 only (`VersionsAgree`).
- A PAID row is replaced by an invoice for the same hash (`PaidIsKeptIffHashIsFresh`).

## Model

| member | source | states |
|---|---|---|
| Payments.QueryIsUnique | app/src/main/java/fr/acinq/eclair/wallet/DBHelper.java:63-84 | Under the unique index, a lookup by reference and type, with or without a direction, selects at most one row. |
| Payments.StoreLists | app/src/main/java/fr/acinq/eclair/wallet/models/Payment.java:28-30 | INSERT OR REPLACE keeps the index and changes the one entry of the stored key: a row stored under a new id takes the place of the row that had its key. |
| Payments.UpdateLists | app/src/main/java/fr/acinq/eclair/wallet/DBHelper.java:182-184 | UPDATE by id changes the one entry, when the row is there and its key is untouched. |
| Payments.DeleteLists | app/src/main/java/fr/acinq/eclair/wallet/DBHelper.java:150-180 | A clean-up deletes exactly the entries that meet its condition. |
| Ledger.LookupReads | app/src/main/java/fr/acinq/eclair/wallet/DBHelper.java:63-84 | A lookup reads the entry of (type, reference); a direction only filters it, so a lookup can miss a row that exists under the other direction. |
| Ledger.StepRefines | app/src/main/java/fr/acinq/eclair/wallet/actors/NodeSupervisor.java:169-443 | Every event keeps one row per (type, reference) and acts on the table as on a plain map; whether a send reaches the node depends on the map alone. |
| Ledger.RunRefines | app/src/main/java/fr/acinq/eclair/wallet/actors/NodeSupervisor.java:169-443 | The same over whole runs. |
| Ledger.LookupsNeverThrow | app/src/main/java/fr/acinq/eclair/wallet/DBHelper.java:63-84 | In every run from an empty database, both lookups select at most one row: unique() never throws. |
| PaymentActors.PaymentDBHelper.GetPayment | app/src/main/java/fr/acinq/eclair/wallet/DBHelper.java:63-84 | Returns null exactly when the query is empty, else a new object holding the one row under its id. |
| PaymentActors.PaymentDBHelper.UpdatePaymentPaid | app/src/main/java/fr/acinq/eclair/wallet/DBHelper.java:118-125 | Stores preimage, amount and fees with status PAID under the id of the object. |
| PaymentActors.PaymentDBHelper.UpdatePaymentFailed | app/src/main/java/fr/acinq/eclair/wallet/DBHelper.java:127-133 | Stores FAILED, and nothing at all when the payment was PAID. |
| PaymentActors.PaymentDBHelper.UpdatePaymentPending | app/src/main/java/fr/acinq/eclair/wallet/DBHelper.java:135-141 | Stores PENDING, and nothing at all when the payment was PAID. |
| PaymentActors.PaymentDBHelper.UpdatePaymentReceived | app/src/main/java/fr/acinq/eclair/wallet/DBHelper.java:143-148 | Stores the received amount with status PAID. |
| PaymentActors.PaymentDBHelper.InsertOrUpdatePayment | app/src/main/java/fr/acinq/eclair/wallet/DBHelper.java:167-172 | INSERT OR REPLACE of the object, which gets the id of its row. |
| PaymentActors.PaymentDBHelper.SumOnchain | app/src/main/java/fr/acinq/eclair/wallet/DBHelper.java:86-98 | The SUM query of one direction, in whatever order the rows come. |
| PaymentActors.PaymentDBHelper.GetOnchainBalanceMsat | app/src/main/java/fr/acinq/eclair/wallet/DBHelper.java:104-116 | Received minus sent, floored at zero. |
| PaymentActors.MarkHtlcsPending | app/src/main/java/fr/acinq/eclair/wallet/actors/NodeSupervisor.java:184-198 | The loop over the HTLCs of a commitment turns INIT into PENDING for the offered ones and touches nothing else. |
| PaymentActors.OnChannelSignatureSent | app/src/main/java/fr/acinq/eclair/wallet/actors/NodeSupervisor.java:232-252 | Marks the payments of the next remote commitment, in which our offers are incoming; leaves the table as the step function says. |
| PaymentActors.OnPaymentFailed | app/src/main/java/fr/acinq/eclair/wallet/actors/NodeSupervisor.java:390-408 | Leaves the table as the step function says. |
| PaymentActors.OnPaymentSent | app/src/main/java/fr/acinq/eclair/wallet/actors/NodeSupervisor.java:410-420 | Leaves the table as the step function says. |
| PaymentActors.OnPaymentReceived | app/src/main/java/fr/acinq/eclair/wallet/actors/NodeSupervisor.java:422-443 | Leaves the table as the step function says, also for a payment that was not stored. |
| PaymentActors.ElectrumSupervisor.OnTransactionReceived | app/src/main/java/fr/acinq/eclair/wallet/actors/ElectrumSupervisor.java:66-108 | Fetches by txid and direction, rewrites or creates the row and stores it; leaves the table as the step function says. |
| PaymentActors.ElectrumSupervisor.Fill | app/src/main/java/fr/acinq/eclair/wallet/actors/ElectrumSupervisor.java:84-94 | What a report writes on a row: direction, fee only if sent by us, payload, amount, depth cut to 32 bits. |
| PaymentActors.ElectrumSupervisor.OnTransactionConfidenceChanged | app/src/main/java/fr/acinq/eclair/wallet/actors/ElectrumSupervisor.java:112-122 | Updates the depth of the row of either direction; leaves the table as the step function says. |
| PaymentActors.SendLNPayment | app/src/main/java/fr/acinq/eclair/wallet/activities/SendPaymentActivity.java:442-492 | Stores the attempt and hands the payment to the node exactly when no row or a FAILED one was found. |
| PaymentActors.StorePaymentRequest | app/src/main/java/fr/acinq/eclair/wallet/fragments/ReceivePaymentFragment.java:197-209 | A generated invoice is stored as a new INIT row of its hash, in place of any row that had it. |
| PaymentLife.StepPhase | app/src/main/java/fr/acinq/eclair/wallet/actors/NodeSupervisor.java:389-443 | Every event moves every Lightning hash exactly as a small automaton (absent, INIT, PENDING, PAID, FAILED) does, and files every row under its key. |
| PaymentLife.TableRunPhase | app/src/main/java/fr/acinq/eclair/wallet/actors/NodeSupervisor.java:389-443 | The same of the table, in every run. |
| PaymentLife.PaidIsKeptIffHashIsFresh | app/src/main/java/fr/acinq/eclair/wallet/DBHelper.java:118-180 | One event takes a PAID payment out of PAID if and only if it is an invoice generated again for the same hash. |
| PaymentLife.PaidIsFinal | app/src/main/java/fr/acinq/eclair/wallet/DBHelper.java:118-180 | With fresh generated hashes, PAID stays PAID and is never deleted, in every run. |
| PaymentLife.PendingResolves | app/src/main/java/fr/acinq/eclair/wallet/DBHelper.java:118-180 | A PENDING payment becomes FAILED exactly on a failure, PAID exactly on a settlement, and otherwise stays PENDING: no clean-up, send or restart touches it. |
| PaymentLife.SendIsAlwaysDecided | app/src/main/java/fr/acinq/eclair/wallet/activities/SendPaymentActivity.java:481-485 | In every run from an empty database the unhandled branch of the sending thread is never reached. |
| PaymentLife.AttemptsAreBounded | app/src/main/java/fr/acinq/eclair/wallet/activities/SendPaymentActivity.java:442-492 | In every run the attempts for a hash are at most one if a send is open at the start, plus failures of that hash, plus restarts; an opening left over at the end counts as well. |
| PaymentLife.AttemptsFromScratch | app/src/main/java/fr/acinq/eclair/wallet/activities/SendPaymentActivity.java:442-492 | From an empty database: attempts <= 1 + failures + restarts. |
| PaymentLife.AttemptsAreSeparated | app/src/main/java/fr/acinq/eclair/wallet/activities/SendPaymentActivity.java:449-457 | Between two attempts for one hash there is a failure of that hash or a restart. |
| Receipts.PaidRowIsKept | app/src/main/java/fr/acinq/eclair/wallet/DBHelper.java:118-180 | The whole row of a PAID payment is untouched by any run without another settlement or a new invoice of its hash. |
| Receipts.ReceiptIsKept | app/src/main/java/fr/acinq/eclair/wallet/actors/NodeSupervisor.java:410-420 | After a settlement of a stored payment, amount, fees and preimage of that event and the amounts asked and sent before stay readable through any such run. |
| PaymentRows.OthersAreLeftAlone | app/src/main/java/fr/acinq/eclair/wallet/DBHelper.java:63-84 | An event about one payment or transaction leaves every other row as it was. |
| PaymentRows.ReceivedIsStored | app/src/main/java/fr/acinq/eclair/wallet/actors/NodeSupervisor.java:422-443 | A received payment is PAID with the amount that came in: the stored row keeps its other columns, a new one is RECEIVED with nothing asked or sent. |
| PaymentRows.ReceivedIsKept | app/src/main/java/fr/acinq/eclair/wallet/actors/NodeSupervisor.java:422-443 | That amount stays readable through every run without another settlement or a new invoice of the hash. |
| PaymentRows.SendIsStored | app/src/main/java/fr/acinq/eclair/wallet/activities/SendPaymentActivity.java:458-480 | A first send stores direction SENT and the amounts asked and sent; a retry changes amount sent and status only; other rows are left as they were. |
| PaymentRows.RequestIsStored | app/src/main/java/fr/acinq/eclair/wallet/fragments/ReceivePaymentFragment.java:197-209 | An invoice is RECEIVED with the amount asked and nothing paid. |
| PaymentRows.FailureIsStored | app/src/main/java/fr/acinq/eclair/wallet/actors/NodeSupervisor.java:390-408 | A failure changes the status only, and not that of a PAID payment. |
| PaymentRows.SettlementIsStored | app/src/main/java/fr/acinq/eclair/wallet/actors/NodeSupervisor.java:410-420 | A settlement writes status, amount, fees and preimage of a stored payment, and makes no row. |
| PaymentRows.CommitmentWritesStatus | app/src/main/java/fr/acinq/eclair/wallet/actors/NodeSupervisor.java:184-252 | The HTLCs of a commitment change nothing but statuses. |
| PaymentRows.TransactionIsStored | app/src/main/java/fr/acinq/eclair/wallet/actors/ElectrumSupervisor.java:66-108 | Direction, amount, payload and depth are the report's; the fee is written when the wallet sent, and kept from a row of the same direction otherwise; the depth is cut to 32 bits. |
| PaymentRows.ConfidenceIsStored | app/src/main/java/fr/acinq/eclair/wallet/actors/ElectrumSupervisor.java:112-122 | A change of confidence writes the depth of a stored transaction, and nothing else. |
| PaymentRows.CleanUpsDelete | app/src/main/java/fr/acinq/eclair/wallet/DBHelper.java:150-180 | Each clean-up deletes exactly the rows it is for and changes none. |
| OnchainBalance.RunCarries | app/src/main/java/fr/acinq/eclair/wallet/actors/ElectrumSupervisor.java:66-122 | In every run, the on-chain rows are exactly the transactions last reported and not cleaned up, each with the signed amount and depth of its latest report, also after a change of direction. |
| OnchainBalance.NetIsSigned | app/src/main/java/fr/acinq/eclair/wallet/DBHelper.java:104-116 | The two sums, one per direction, differ by the sum of signed amounts. |
| OnchainBalance.BalanceIsSumOfReports | app/src/main/java/fr/acinq/eclair/wallet/DBHelper.java:104-116 | After any run the stored balance is the sum, floored at zero, of 1000 x (received - sent) over the latest reports that survived the clean-ups. |
| ChannelObjects.Write | app/src/main/java/fr/acinq/eclair/wallet/actors/NodeSupervisor.java:215-388 | What each message about a known channel writes on its object, and nothing else. |
| ChannelObjects.WriteClosing | app/src/main/java/fr/acinq/eclair/wallet/actors/NodeSupervisor.java:328-345 | MUTUAL, LOCAL or REMOTE exactly when that is the only kind of closing transaction published; OTHER exactly when none, several or a revoked one are. |
| ChannelObjects.WriteError | app/src/main/java/fr/acinq/eclair/wallet/actors/NodeSupervisor.java:293-308 | A fatal error leaves a message except for a local error without throwable; a throwable without message clears it. |
| ChannelActors.ChannelDBHelper.GetLocalChannel | app/src/main/java/fr/acinq/eclair/wallet/DBHelper.java:190-194 | Returns null exactly when no row has the channel id, else a new object holding that row. |
| ChannelActors.ChannelDBHelper.SaveLocalChannel | app/src/main/java/fr/acinq/eclair/wallet/DBHelper.java:212-217 | Stores a channel with a capacity under its id, and no other. |
| ChannelActors.ChannelDBHelper.ChannelTerminated | app/src/main/java/fr/acinq/eclair/wallet/DBHelper.java:219-225 | Marks the stored channel inactive, if there is one. |
| ChannelActors.ChannelSupervisor.OnChannelCreated | app/src/main/java/fr/acinq/eclair/wallet/actors/NodeSupervisor.java:170-178 | Updates or creates the object of the actor; one object per actor, and map and table as the step function says. |
| ChannelActors.ChannelSupervisor.OnChannelRestored | app/src/main/java/fr/acinq/eclair/wallet/actors/NodeSupervisor.java:179-213 | The same, with refund block and closing message read back from the database. |
| ChannelActors.ChannelSupervisor.OnTerminated | app/src/main/java/fr/acinq/eclair/wallet/actors/NodeSupervisor.java:279-288 | Marks the row and forgets the object. |
| ChannelActors.ChannelSupervisor.OnChannelUpdate | app/src/main/java/fr/acinq/eclair/wallet/actors/NodeSupervisor.java:215-388 | Messages about a known channel write its object and store it where the code does; messages about unknown channels change nothing. |
| ChannelNotes.StepKeepsConsistent | app/src/main/java/fr/acinq/eclair/wallet/actors/NodeSupervisor.java:169-388 | Given one actor per channel id and ids that are final before the first save, stored rows and live channels keep matching one to one. |
| ChannelNotes.RunKeepsConsistent | app/src/main/java/fr/acinq/eclair/wallet/actors/NodeSupervisor.java:169-388 | The same over every expected run, so for every reachable state. |
| ChannelNotes.StepKeepsNote | app/src/main/java/fr/acinq/eclair/wallet/actors/NodeSupervisor.java:202-209 | A stored refund block or closing message survives every event that does not speak about it. |
| ChannelNotes.NotesSurvive | app/src/main/java/fr/acinq/eclair/wallet/actors/NodeSupervisor.java:202-209 | The same through every run of events, saves, terminations, restarts and restorations. |
| ChannelNotes.ReplacementIsStored | app/src/main/java/fr/acinq/eclair/wallet/actors/NodeSupervisor.java:312-321 | A later confirmation replaces the block in the table, unless the channel has no capacity, and then the table is unchanged. |
| ChannelNotes.MessageIsStored | app/src/main/java/fr/acinq/eclair/wallet/actors/NodeSupervisor.java:290-310 | The same of a later fatal error. |
| ChannelNotes.ConfirmationSurvives | app/src/main/java/fr/acinq/eclair/wallet/actors/NodeSupervisor.java:312-321 | From an empty database: after any expected run, the refund block confirmed for a channel with a capacity stays stored through every run that does not confirm it again. |
| ChannelNotes.ClosingMessageSurvives | app/src/main/java/fr/acinq/eclair/wallet/actors/NodeSupervisor.java:290-310 | The same of the message of a fatal error. |
| ChannelNotes.LateRenameMovesTheRow | app/src/main/java/fr/acinq/eclair/wallet/actors/NodeSupervisor.java:215-222 | When an id is assigned to a channel already stored, the row of the old id remains if and only if the channel was never saved by this object or has no capacity. |
| ChannelNotes.ClosingIsStored | app/src/main/java/fr/acinq/eclair/wallet/actors/NodeSupervisor.java:323-374 | A closing state reaches the row of its channel, with the type its published transactions have, when the channel has funds; else the table is unchanged. |
| ChannelRows.ErrorText | app/src/main/java/fr/acinq/eclair/wallet/actors/NodeSupervisor.java:293-308 | The text of an error: that of the throwable, which may be missing, the peer's data as text if printable, in hexadecimal otherwise; none without a throwable. |
| ChannelRows.StoredRowIsLive | app/src/main/java/fr/acinq/eclair/wallet/DBHelper.java:212-217 | After a message that stores a channel with a capacity, its row is all that the object holds, under the id of the object; other rows stay. |
| ChannelRows.TableIsLeftAlone | app/src/main/java/fr/acinq/eclair/wallet/actors/NodeSupervisor.java:215-388 | No other message about channels changes the table, nor any about a channel without a capacity. |
| ChannelRows.TerminatedIsInactive | app/src/main/java/fr/acinq/eclair/wallet/DBHelper.java:219-225 | A terminated channel is inactive in its row; nothing else changes. |
| ChannelRows.EntryKeepsTheRest | app/src/main/java/fr/acinq/eclair/wallet/actors/NodeSupervisor.java:170-213 | A channel that enters again keeps its id, and its refund block and closing message unless its row has others. |
| ChannelHistory.MapFollowsHistory | app/src/main/java/fr/acinq/eclair/wallet/actors/NodeSupervisor.java:170-388 | In every reachable map, the channels are those made known and not terminated since the process started, and each holds the amounts of the last commitments, the last fees, names, state and closing that the node sent for it. |
| ChannelHistory.TotalsFollowHistory | app/src/main/java/fr/acinq/eclair/wallet/actors/NodeSupervisor.java:129-137 | In every reachable map, the Lightning balance is the sum of toLocal of the last commitments over the channels whose funds count; the receivable amount is what these leave to the peers, less the reserves. |
| ChannelHistory.HintsFollowHistory | app/src/main/java/fr/acinq/eclair/wallet/actors/NodeSupervisor.java:139-162 | Every hint has the peer, the short id and the three fees last announced for one known channel. |
| ChannelTotals.UsableIsAccountedFor | app/src/main/java/fr/acinq/eclair/wallet/models/LocalChannel.java:137-158 | A state whose funds are usable is one whose funds are accounted for. |
| ChannelTotals.StatesThatCount | app/src/main/java/fr/acinq/eclair/wallet/models/LocalChannel.java:137-158 | Which states have funds that count, and which have usable ones, state by state. |
| ChannelTotals.RoutablePeersHaveHints | app/src/main/java/fr/acinq/eclair/wallet/actors/NodeSupervisor.java:142-150 | The eligible peers are those of the channels with a short id and all three fees. |
| ChannelTotals.RunKeepsSound | app/src/main/java/fr/acinq/eclair/wallet/actors/NodeSupervisor.java:254-268 | Given sound commitments, 0 <= balance <= capacity and a non-negative reserve hold in every reachable map. |
| ChannelTotals.FundsAreConserved | app/src/main/java/fr/acinq/eclair/wallet/actors/NodeSupervisor.java:129-137 | In every reachable map, balance + max receivable + what is held back = total capacity of the accounted channels, all parts non-negative: balance and receivable never exceed the capacity. |
| ChannelQueries.GetChannelsBalance | app/src/main/java/fr/acinq/eclair/wallet/actors/NodeSupervisor.java:129-137 | The loop computes the total balance, in whatever order. |
| ChannelQueries.GetMaxReceivable | app/src/main/java/fr/acinq/eclair/wallet/actors/NodeSupervisor.java:462-470 | The loop computes the total receivable amount, in whatever order. |
| ChannelQueries.GetRoutes | app/src/main/java/fr/acinq/eclair/wallet/actors/NodeSupervisor.java:139-162 | Every hint is, field by field, of a live channel with a short id and a received update; one per peer, and exactly min(5, number of eligible peers) of them, in whatever order. |
| Wallet.OnEvent | app/src/main/java/fr/acinq/eclair/wallet/actors/NodeSupervisor.java:169-443 | One event changes the payments table and the channels exactly as both step functions say, and hands over the payment they say, if any. |
| Wallet.Run | app/src/main/java/fr/acinq/eclair/wallet/actors/NodeSupervisor.java:169-443 | Any run of events on the objects ends in the states the run functions give, and hands each hash to the node as often as the attempts counted for it: every statement about runs is one about the objects. |
| PaymentLife.AttemptsAreHandedOver | app/src/main/java/fr/acinq/eclair/wallet/activities/SendPaymentActivity.java:487-488 | The payments handed over in a run, in order, hold each hash as often as its attempts. |
| Backups.CompareIsNotAntisymmetric | app/src/main/java/fr/acinq/eclair/wallet/activities/RestoreChannelsBackupActivity.java:255-265 | The comparator contradicts itself on a pair if and only if neither entry is readable. |
| Backups.SortedIsPermutation | app/src/main/java/fr/acinq/eclair/wallet/activities/RestoreChannelsBackupActivity.java:254-268 | Sorting loses and adds nothing. |
| Backups.SortedIsOrdered | app/src/main/java/fr/acinq/eclair/wallet/activities/RestoreChannelsBackupActivity.java:254-268 | Readable backups come first, the most recent ahead. |
| Backups.SortedIsStable | app/src/main/java/fr/acinq/eclair/wallet/activities/RestoreChannelsBackupActivity.java:254-268 | Entries of equal date, and all that are not readable, keep their order. |
| Backups.SortedIsOnlyOne | app/src/main/java/fr/acinq/eclair/wallet/activities/RestoreChannelsBackupActivity.java:254-268 | The result is the only ordered list that keeps the order of equals: any stable sort with this comparator gives it. |
| Backups.SortBackupDateDesc | app/src/main/java/fr/acinq/eclair/wallet/activities/RestoreChannelsBackupActivity.java:254-268 | The array is sorted in place. |
| BackupChoice.ScoreOf | app/src/main/java/fr/acinq/eclair/wallet/activities/RestoreChannelsBackupActivity.java:332-338 | The loop over differing entries, in any order, gives the channels ahead minus the channels behind, as a 16-bit number. |
| BackupChoice.CoversBySize | app/src/main/java/fr/acinq/eclair/wallet/activities/RestoreChannelsBackupActivity.java:327-328 | The comparison of sizes tells whether the challenger has all channels of the best. |
| BackupChoice.FindBestBackup | app/src/main/java/fr/acinq/eclair/wallet/activities/RestoreChannelsBackupActivity.java:317-356 | Sort and loop compute the search over the sorted scans. |
| BackupChoice.BetterOfTwo | app/src/main/java/fr/acinq/eclair/wallet/activities/RestoreChannelsBackupActivity.java:322-346 | Of two readable scans, whatever their indices, the later (or first) is returned unless the other has all its channels and counts more of them above than below, in 16 bits. |
| BackupChoice.OneMoreScan | app/src/main/java/fr/acinq/eclair/wallet/activities/RestoreChannelsBackupActivity.java:322-346 | For any number of scans: one more replaces the best so far exactly then. |
| BackupChoice.FindsOrThrows | app/src/main/java/fr/acinq/eclair/wallet/activities/RestoreChannelsBackupActivity.java:320-355 | It throws if and only if a scan failed, returns null if and only if none failed and none is readable, and else returns one of the readable backups. |
| BackupChoice.ThrowsFirstFailure | app/src/main/java/fr/acinq/eclair/wallet/activities/RestoreChannelsBackupActivity.java:347-349 | The exception names the first failed scan in sorted order. |
| BackupChoice.RecentChannelsAreKept | app/src/main/java/fr/acinq/eclair/wallet/activities/RestoreChannelsBackupActivity.java:320-355 | The backup returned has every channel of a readable backup with the highest date, through any number of replacements. |
| BackupChoice.DominantIsChosenExactly | app/src/main/java/fr/acinq/eclair/wallet/activities/RestoreChannelsBackupActivity.java:322-346 | Among any number of scans in order, a backup that dominates all others is returned if and only if the 16-bit count shows against the best before it and no later count wraps. |
| BackupChoice.DominantOfTwo | app/src/main/java/fr/acinq/eclair/wallet/activities/RestoreChannelsBackupActivity.java:317-346 | Of two scans as the map gives them, the dominant backup is returned if and only if the other did not fail and the number of channels ahead counts as positive (dominant second by date or order) or its negative does not (dominant first, same channels). |
| BackupChoice.DominantIsFound | app/src/main/java/fr/acinq/eclair/wallet/activities/RestoreChannelsBackupActivity.java:317-356 | With fewer than 32768 channels ahead of each other backup, the dominant one is returned, whatever the dates, the order and the number of backups. |
| BackupChoice.LevelSearch | app/src/main/java/fr/acinq/eclair/wallet/activities/RestoreChannelsBackupActivity.java:332-343 | Of two backups of n channels, all ahead in the second, the second is chosen if and only if n counts as positive in 16 bits. |
| BackupChoice.DominantIsMissed | app/src/main/java/fr/acinq/eclair/wallet/activities/RestoreChannelsBackupActivity.java:332 | With 32768 channels ahead the older state is returned. |
| BackupChoice.OrderDoesNotMatter | app/src/main/java/fr/acinq/eclair/wallet/activities/RestoreChannelsBackupActivity.java:317-319 | For any number of scans, when readable backups of one date are one backup, the result does not depend on the order of iteration; with a failed scan it throws for every order. |
| BackupChoice.OrderOfTwoMatters | app/src/main/java/fr/acinq/eclair/wallet/activities/RestoreChannelsBackupActivity.java:317-355 | For two scans, which is all the map can hold, the order changes the outcome (the backup with its origin, file and device mark, or the failure) if and only if both failed and differ, or both are readable, of one date, different, and neither wins; two origins always make them different. |
| BackupChoice.EqualDatesKeepTheFirst | app/src/main/java/fr/acinq/eclair/wallet/activities/RestoreChannelsBackupActivity.java:322-343 | Two backups of one date of which neither wins: the one iterated first is returned. |
| BackupChoice.NeitherWins | app/src/main/java/fr/acinq/eclair/wallet/activities/RestoreChannelsBackupActivity.java:327-338 | Neither wins when the backups do not cover each other, nor when they hold the same indices: then two origins of one date make the order decide the file restored. |
| AesCbcWithIntegrity.ConstantTimeEq | app/src/main/java/com/tozny/crypto/android/AesCbcWithIntegrity.java:473-482 | True if and only if the two byte strings are equal, over sign-extended 32-bit xor and or. |
| AesCbcWithIntegrity.IvCipherConcat | app/src/main/java/com/tozny/crypto/android/AesCbcWithIntegrity.java:545-550 | The new array is the vector followed by the cipher text. |
| AesCbcWithIntegrity.CopyOfRange | app/src/main/java/com/tozny/crypto/android/AesCbcWithIntegrity.java:603-608 | The new array is the range. |
| AesCbcWithIntegrity.GenerateKeyFromPassword | app/src/main/java/com/tozny/crypto/android/AesCbcWithIntegrity.java:166-186 | The derived bytes are the 16 bytes of the first key and the 32 of the second, in this order. |
| AesCbcWithIntegrity.Decrypt | app/src/main/java/com/tozny/crypto/android/AesCbcWithIntegrity.java:360-373 | Deciphers if the MAC of vector and cipher text is the stored one, and fails otherwise. |
| AesCbcWithIntegrity.OpenSeal | app/src/main/java/com/tozny/crypto/android/AesCbcWithIntegrity.java:283-299 | Decrypting undoes encrypting. |
| AesCbcWithIntegrity.OpensOnlyWhatWasSealed | app/src/main/java/com/tozny/crypto/android/AesCbcWithIntegrity.java:360-373 | Unless the two strings compared collide, what passes under the MAC of a sealed text is that sealed text if and only if its vector has the same length. |
| Bytes.ByteArrayInputStream.ReadNew | app/src/main/java/fr/acinq/eclair/wallet/utils/EncryptedSeed.java:77-87 | A read into a new array takes what is left; bytes past the end stay zero. |
| Containers.WriteSeed | app/src/main/java/fr/acinq/eclair/wallet/utils/EncryptedSeed.java:96-112 | Version, salt, vector, MAC, cipher text; refuses unknown versions and wrong lengths. |
| Containers.ReadSeed | app/src/main/java/fr/acinq/eclair/wallet/utils/EncryptedSeed.java:74-91 | Reads the fields one after the other; refuses unknown versions only. |
| Containers.WriteBackup | app/src/main/java/fr/acinq/eclair/wallet/utils/EncryptedBackup.java:182-196 | The same without salt, for versions 1 to 3. |
| Containers.ReadBackup | app/src/main/java/fr/acinq/eclair/wallet/utils/EncryptedBackup.java:142-156 | The same without salt, for versions 1 to 3. |
| Containers.EncryptSeed | app/src/main/java/fr/acinq/eclair/wallet/utils/EncryptedSeed.java:61-66 | The seed is sealed under keys from password and salt; the generated salt has the length the format wants, so that writing succeeds for every known version. |
| Containers.WriteThenRead | app/src/main/java/fr/acinq/eclair/wallet/utils/EncryptedSeed.java:74-112 | Reading what was written gives the container back, for seeds and backups. |
| Containers.ReadThenWrite | app/src/main/java/fr/acinq/eclair/wallet/utils/EncryptedBackup.java:142-196 | Writing what was read gives the file back, filled up with zeros to a whole header. |
| Containers.ReadThenWriteIsIdentity | app/src/main/java/fr/acinq/eclair/wallet/utils/EncryptedBackup.java:142-196 | Reading and writing is the identity on a file of a known version if and only if it has 177 bytes (seed) or 49 bytes (backup). |
| Containers.SeedLayout | app/src/main/java/fr/acinq/eclair/wallet/utils/EncryptedSeed.java:96-112 | A seed file is version, salt at 1, vector at 129, MAC at 145, cipher text from 177; written exactly for versions 1 and 2 and fields of these lengths. |
| Containers.BackupLayout | app/src/main/java/fr/acinq/eclair/wallet/utils/EncryptedBackup.java:182-196 | A backup is version, vector at 1, MAC at 17, cipher text from 49; written exactly for versions 1 to 3 and fields of these lengths. |
| Containers.KnownVersions | app/src/main/java/fr/acinq/eclair/wallet/utils/EncryptedSeed.java:74-77 | A file is read if and only if its first byte is a known version. |
| Containers.SeedIsSealed | app/src/main/java/fr/acinq/eclair/wallet/utils/EncryptedSeed.java:61-66 | The seed is under the first 16 bytes that password and salt give, the MAC of vector and cipher text under the other 32. |
| Containers.BackupIsSealed | app/src/main/java/fr/acinq/eclair/wallet/utils/EncryptedBackup.java:74-78 | Versions 1 and 2 seal the data itself, version 3 the compressed data. |
| Containers.SeedRoundTrip | app/src/main/java/fr/acinq/eclair/wallet/utils/EncryptedSeed.java:47-112 | Encrypt, write, read, decrypt gives the data back, for every password, salt, vector and known version. |
| Containers.BackupRoundTrip | app/src/main/java/fr/acinq/eclair/wallet/utils/EncryptedBackup.java:74-196 | The same of backups, compressed from version 3 on. |
| Containers.DecryptBackup | app/src/main/java/fr/acinq/eclair/wallet/utils/EncryptedBackup.java:88-91 | Inflates from version 3 on; a wrong MAC, bad padding and a broken stream are errors. |
| Containers.SecretKeyFromBinaryKey | app/src/main/java/fr/acinq/eclair/wallet/utils/EncryptedData.java:46-56 | The two keys are the halves of the 32 bytes. |
| Containers.BodyIsAuthenticated | app/src/main/java/fr/acinq/eclair/wallet/utils/EncryptedSeed.java:47-50 | Unless the two strings compared collide, of all files that keep the header of a written one, that one alone passes. |
| SeedFile.Datadir.ReadSeedFile | app/src/main/java/fr/acinq/eclair/wallet/utils/WalletUtils.kt:226-237 | Fails without the file or on an unknown version, else parses it. |
| SeedFile.Datadir.ReadSeedAndDecrypt | app/src/main/java/fr/acinq/eclair/wallet/utils/WalletUtils.kt:241-243 | Opens the seed file under a password, or tells why not. |
| SeedFile.Datadir.WriteSeedFile | app/src/main/java/fr/acinq/eclair/wallet/utils/WalletUtils.kt:250-273 | Temporary file, check, move, stopped after any step, on a disk that may have kept anything: the files afterwards, and when it succeeds. |
| SeedFile.Datadir.ChangePassword | app/src/main/java/fr/acinq/eclair/wallet/activities/SecuritySettingsActivity.kt:129-147 | Rewrites the payload opened by the current PIN under the new one, if that has six characters and was typed twice. |
| SeedFile.WriteIsAllOrNothing | app/src/main/java/fr/acinq/eclair/wallet/utils/WalletUtils.kt:250-273 | Whatever cipher, disk and step: the seed file is untouched, or opens under the new password to exactly the data. |
| SeedFile.WriteTouchesTwoFiles | app/src/main/java/fr/acinq/eclair/wallet/utils/WalletUtils.kt:254-264 | All other files are left alone. |
| SeedFile.WriteSucceeds | app/src/main/java/fr/acinq/eclair/wallet/utils/WalletUtils.kt:250-273 | On a faithful disk an uninterrupted write succeeds, with the version asked for, and leaves no temporary file. |
| SeedFile.InterruptedKeepsSeed | app/src/main/java/fr/acinq/eclair/wallet/utils/WalletUtils.kt:250-264 | A write stopped before the move leaves the seed file alone. |
| SeedFile.BadChangeIsRefused | app/src/main/java/fr/acinq/eclair/wallet/activities/EclairActivity.java:169-172 | A new PIN without six characters or not typed twice alike, or a current PIN that does not open the seed, changes no file. |
| SeedFile.GoodChangeSucceeds | app/src/main/java/fr/acinq/eclair/wallet/activities/EclairActivity.java:173-180 | Any other change, on a faithful disk, leaves the same payload and version under the new PIN. |
| SeedFile.VersionCanBeLost | app/src/main/java/fr/acinq/eclair/wallet/utils/WalletUtils.kt:259-264 | A disk that turns the version byte from 2 into 1 passes the check. |
| SeedFile.ActionsMeet | app/src/main/java/fr/acinq/eclair/wallet/activities/EclairActivity.java:162-203 | After any sequence of writes and PIN changes, each stopped anywhere and on any disk, the seed file opens under the last accepted PIN to exactly what was written with it: the data given, or what the current PIN had opened. |
| SeedFile.ChangesKeepPayload | app/src/main/java/fr/acinq/eclair/wallet/activities/SecuritySettingsActivity.kt:129-147 | PIN changes never replace the payload, when each PIN typed, if it opens the file, opens it to the payload the last accepted PIN does. |
| SeedFile.RightPinsAgree | app/src/main/java/fr/acinq/eclair/wallet/activities/SecuritySettingsActivity.kt:134-139 | That holds whenever each PIN typed is the last accepted one or does not open the file. |
| SeedFile.ActionHasVersion | app/src/main/java/fr/acinq/eclair/wallet/utils/WalletUtils.kt:259-264 | The check compares the payload only: an action keeps the version if and only if it moves no file or the disk kept its first byte. |
| SeedFile.ActionsHaveVersion | app/src/main/java/fr/acinq/eclair/wallet/activities/SecuritySettingsActivity.kt:135-136 | The version is the one last asked for all along a run if and only if the disk kept the first byte of every file moved into place. |
| WalletSeed.SeedSurvives | app/src/main/java/fr/acinq/eclair/wallet/utils/WalletUtils.kt:182-273 | Words written to a fresh directory, then any PIN changes, each stopped anywhere: the file gives the seed of those words. |
| Mnemonics.SplitJoin | app/src/main/java/fr/acinq/eclair/wallet/utils/WalletUtils.kt:186 | Splitting undoes joining, for a non-empty list of words without spaces. |
| Mnemonics.JoinSplit | app/src/main/java/fr/acinq/eclair/wallet/utils/WalletUtils.kt:199 | Joining undoes splitting, for every text. |
| Mnemonics.DecodeEncode | app/src/main/java/fr/acinq/eclair/wallet/utils/WalletUtils.kt:182-214 | Decoding a version 2 payload gives words and passphrase back if and only if there are words and none has a space; a null passphrase comes back empty; encoding and decoding refuse a version if and only if it is not 1 or 2. |
| Mnemonics.VersionsAgree | app/src/main/java/fr/acinq/eclair/wallet/utils/WalletUtils.kt:182-216 | Version 1 and 2 give the same seed if and only if there is a passphrase, or a null one gives the seed of an empty one. |
| Mnemonics.PayloadIsHex | app/src/main/java/fr/acinq/eclair/wallet/utils/WalletUtils.kt:182-193 | The payload is hexadecimal text of the seed (version 1) or of the JSON object with words and passphrase (version 2). |
| SeedKeyboard.LastWordStart | app/src/main/java/fr/acinq/eclair/wallet/fragments/initwallet/WalletImportSeedFragment.java:87 | One past the last space, zero without one. |
| SeedKeyboard.MatchingIsFilter | app/src/main/java/fr/acinq/eclair/wallet/fragments/initwallet/WalletImportSeedFragment.java:171-181 | The matches are exactly the words of the list that start with the text. |
| SeedKeyboard.SeedInput.GetBip39MatchingWords | app/src/main/java/fr/acinq/eclair/wallet/fragments/initwallet/WalletImportSeedFragment.java:171-181 | The loop keeps the matching words, in their order. |
| SeedKeyboard.SeedInput.RefreshLastWord | app/src/main/java/fr/acinq/eclair/wallet/fragments/initwallet/WalletImportSeedFragment.java:85-111 | Completions are shown from two letters on; an empty text leaves them as they are. |
| SeedKeyboard.SeedInput.OnKeyPressed | app/src/main/java/fr/acinq/eclair/wallet/fragments/initwallet/WalletImportSeedFragment.java:141-168 | Letters, space and delete on the text and the completions. |
| SeedKeyboard.SeedInput.OnAutocompleteClick | app/src/main/java/fr/acinq/eclair/wallet/fragments/initwallet/WalletImportSeedFragment.java:127-133 | The last word gives way to the completion and a space. |
| SeedKeyboard.RunKeepsGood | app/src/main/java/fr/acinq/eclair/wallet/fragments/initwallet/WalletImportSeedFragment.java:120-168 | In every run the text has no leading space and no two in a row, and every completion shown extends the last word, also one left over from before. |
| SeedKeyboard.DeleteTakesBack | app/src/main/java/fr/acinq/eclair/wallet/fragments/initwallet/WalletImportSeedFragment.java:158-165 | Delete takes back the last character, undoes a letter, and does nothing to an empty text. |
| SeedKeyboard.SpaceIsAddedOnce | app/src/main/java/fr/acinq/eclair/wallet/fragments/initwallet/WalletImportSeedFragment.java:150-156 | A space is added after a letter and ignored elsewhere. |
| SeedKeyboard.CompletionsShown | app/src/main/java/fr/acinq/eclair/wallet/fragments/initwallet/WalletImportSeedFragment.java:85-111 | Completions shown are the words that continue the last one from its second letter on; an emptied text and an ignored space leave them as they were. |
| SeedKeyboard.ClickIsShortcut | app/src/main/java/fr/acinq/eclair/wallet/fragments/initwallet/WalletImportSeedFragment.java:127-133 | A click gives the text that typing the rest of the word and a space would give, and hides the completions. |
| SeedKeyboard.WordsOfTyped | app/src/main/java/fr/acinq/eclair/wallet/activities/RestoreSeedActivity.java:189-196 | Trimmed and lower-cased, the text splits into space-free words that join to it again; none is empty unless the text is. |
| SeedKeyboard.TypedWordsAreStored | app/src/main/java/fr/acinq/eclair/wallet/activities/RestoreSeedActivity.java:189-196 | Whatever was typed and clicked, the words come back unchanged from the payload of the seed file. |
| NativeRegistry.NativeDB.Link | app/src/main/cpp/sqlitejdbc/NativeDB.c:1244-1246 | The new node goes in front: the list stays acyclic, and every node and reference is owned once. |
| NativeRegistry.NativeDB.CreateFunction | app/src/main/cpp/sqlitejdbc/NativeDB.c:1224-1280 | Without memory nothing changes; a name that cannot be converted leaves the node linked and unregistered; SQLite keeps only live nodes. |
| NativeRegistry.NativeDB.DestroyFunction | app/src/main/cpp/sqlitejdbc/NativeDB.c:1282-1297 | SQLite forgets the function; the list is unchanged. |
| NativeRegistry.NativeDB.FreeNode | app/src/main/cpp/sqlitejdbc/NativeDB.c:1311-1316 | The next pointer is read before the node is freed; one node and its reference go, the rest of the list is intact. |
| NativeRegistry.NativeDB.FreeFunctions | app/src/main/cpp/sqlitejdbc/NativeDB.c:1299-1317 | Ends with an empty list; all its nodes are freed and their references deleted, each once; callbacks are then live only if no function is registered. |
| NativeRegistry.Session | app/src/main/cpp/sqlitejdbc/NativeDB.c:1224-1317 | Any calls and answers, then the clean-up: as many nodes are freed as registrations found memory, each allocated node once, and the references deleted are exactly those handed out, each once. |
| RefreshScheduler.Actor.OnReceive | app/src/main/java/fr/acinq/eclair/wallet/actors/RefreshScheduler.java:36-41 | A request schedules one wake-up and puts the actor to sleep. |
| RefreshScheduler.Actor.Sleep | app/src/main/java/fr/acinq/eclair/wallet/actors/RefreshScheduler.java:43-48 | A wake-up refreshes and wakes the actor; requests are not repeated. |
| RefreshScheduler.RunKeepsSound | app/src/main/java/fr/acinq/eclair/wallet/actors/RefreshScheduler.java:36-48 | Every step keeps: asleep if and only if one wake-up is outstanding, and if and only if a request waits; the next refresh at least 1000 ms after the last. |
| RefreshScheduler.RunsAreSound | app/src/main/java/fr/acinq/eclair/wallet/actors/RefreshScheduler.java:36-48 | So in every timed run from the start, with refreshes at least 1000 ms apart. |
| RefreshScheduler.RequestIsAnswered | app/src/main/java/fr/acinq/eclair/wallet/actors/RefreshScheduler.java:36-48 | After a request and any more, one wake-up is outstanding, due within 1000 ms of the request, and its delivery refreshes exactly once. |

## Left out

- Columns and fields that are only displayed or logged: dates, descriptions, recipients, the encoded invoice, confidence type,
  minimum HTLC amount, delays, features, transaction lists of a closing channel, sendable balance.
- Notifications, events to the user interface, refresh requests to the schedulers, the backup triggered by BackupCompleted, and
  network synchronisation: they do not change the two ledgers.
- The object cache of greenDAO: a lookup returns a new object with the columns of the row. SQLite's generated ids are a counter
  that never goes back.
- Threads inside one step: each message, send, invoice and clean-up is atomic. An actor that throws is not restarted.
- Overflow of 64-bit amounts, dates and commitment indices; the depth of a transaction is cut to 32 bits as in the code.
- eclair-core: events carry what the code reads of them. A route is the one hop it has; ids, keys and channel ids are strings or
  numbers without inner structure.
- Null entries and a null map in the scans of backups; the contents of a backup's file, which is known by its name; results of an unknown class.
- The sort routine of the platform: insertion from the right with the code's comparator; `SortedIsOnlyOne` says why any stable
  sort agrees. Long lists, on which a merging sort may compare two unreadable entries and notice the contradiction, do not occur:
  there are two kinds of backup.
- AES, HMAC, PBKDF2, zlib, JSON, BIP 39 and the random number generator inside; secrecy.
- Files.move as a rename: its fallback of copying and deleting, another process in the directory, file permissions and a
  directory that cannot be created.
- A null payload for the seed file, biometrics and the copy of the PIN in memory.
- Keyboard: colours and strike-through of the last word, keys other than English letters, space and delete.
- Native registry: calls back from SQLite into a function, and memory reused by a later allocation.
- Scheduler: what a refresh does, and delivery of wake-ups after the actor has stopped.
- JNI wrappers, exchange rates, fee estimates, QR codes, migration of the database, BIP 21 addresses: each adds only easy members.
