# Payment protocols of the Lightning agency server

A Dafny model of a server that stands between Lightning users, and proofs about
it. The server sells two products.

* **Agency payment (spay).** A payee who may be offline hands in an invoice. The
  server issues one of its own with the same asset, amount and expiry. Once a
  payer has settled the server's invoice, the server owes the payee and tries to
  pay; after a deadline it pays the payer back instead. Three kinds of goroutine
  pay, under no common lock, and none looks at the status of a row again before
  writing it.
* **Red packets.** A creator funds a packet; other users claim parts of it under
  one lock, while the invoice monitor writes the same rows without that lock.

Around these stand the loop that listens for settled invoices over repeated
connections, the matching of channels opened by others, the macaroon jar, the
shutdown handler, the routing-fee budget, user registration, and the wait group
of the heart-beat streams.

## How it is modelled

Tables are maps from primary keys to rows. `Updates` with a struct writes only
non-zero fields and changes the row in memory too; `Save` writes the whole row;
`First` takes the lowest primary key. Code that changes state in place is a class
(`SpayServer.Server`, `LuckPkServer.Server`, `InvoiceMonitor.Monitor`,
`Funding.Monitor`, `Identity.Users`, `Macaroon.Entry`, `Interceptor.Channels`)
whose methods are proved against functions; the same functions are the steps of
the transition systems in `SpayProtocol`, `LuckPkProtocol`, `Interceptor`,
`Identity` and `HeartBeats`, whose runs interleave all goroutines arbitrarily.
`Leads(s, n, t)` says that t is reached from s in n steps, so every statement
about `Leads` or `Reachable` is about all runs. A payment is three steps: the
call of Sendpayment, the settlement on the network, and the report with its
database write, each of which can be arbitrarily late or fail. A spay is *covered*
when its server invoice settled at least `delay` seconds after the user invoice was
made, or after the user invoice had run out.

Payment results, database failures, clocks, the network and the libraries are
parameters or nondeterministic steps.

### What is assumed of the environment

* An invoice is paid at most once, and not after its timestamp plus its expiry
  (BOLT #11, section "Payer / Payee Interactions").
* The result of a payment is truthful, and a payment reported as failed does not
  settle later.
* Payment hashes of the server's own invoices are fresh; asset 0 is bitcoin;
  decoded amounts and expiries are non-negative int64 (`Invoices.ValidRegistry`).
* An invoice the server asks for is issued with the amount and expiry asked for,
  and settled for exactly that amount.
* A new spay row carries nothing but the user invoice; a new packet is at INIT
  with nothing given, its other numbers being whatever fits their columns
  (`LuckPkProtocol.NewPacket`). Row ids and user ids are positive.
* One clock, positive and never running backwards.
* In the red-packet protocol the saves inside GiveLuckPk succeed, and looking up
  the item fails only because there is none. The source looks at the result of the
  last save only, and takes any failure of the lookup for an absent item; what each
  lost save and each failed lookup does is stated exactly by
  `LuckPkServer.BooksAfterGive`, `BarredIff`, `TwoRowsIff` and `PaidAgainIff`.

Four further assumptions concern agency payments only. They are switches of
`SpayProtocol.Env`, so each theorem names those it needs. `SpayLimits` has a run for
each that breaks a guarantee without it, and beside each stands the exact condition,
proved of all runs without any switch.

| switch | meaning | a run without it | exactly when it goes wrong, in any run |
|---|---|---|---|
| `serial` | no status write falls between the load and the Save of a GETINVOICE_RES | `StaleSavePaysBoth` | a spay already paid, to either side, is paid back by refund alone if and only if its row is `Open` (`SpayRepeat.PaysBackIff`) |
| `prompt` | a settled payee payment is recorded within `delay` seconds | `LostPayEndPaysBoth` | the same |
| `kept` | after a lost Refunded write the row still carries a spent payer invoice | `LostWriteRefundsTwice` | the same; a second refund also takes a lost write, unless a stale save brought the row back (`SpayRefund.TwiceOnlyIfLost`) |
| `sameAsset` | the payer answers GETINVOICE in the asset it was asked for | `ForeignAssetPaidOut` | the money of a spay is right if and only if it is `Fair`: no refund was worth something in another asset, and it was paid once at most (`SpayLedger.RightIff`, `CoveredRightIff`) |

### Where the code departs from what it seems to promise

* Paying both sides is excluded by timing alone. It is possible exactly when the
  server invoice settles less than the recording delay after the user invoice was
  made, and no later than the user invoice runs out (`SpayLimits.PaysBothIff`).
* The guard on single withdrawals (`toolrpc/luckPk.go:892`) subtracts unsigned
  numbers and compares the result with zero, so it never fires
  (`LuckPkInvariant.GuardsMean`). No cap per part is claimed. A packet created
  with no parts never ends and is never claimed from; the division by its parts
  is not reached.
* The handlers know cancelled invoices, but the listening loop passes on only
  settled ones (`toolrpc/luckPk.go:298`), so in the protocols no row is ever
  marked as cancelled.
* The signed guard on the balance (`toolrpc/luckPk.go:888`) reads a balance of
  2^63 or more as negative; what it then lets through is stated exactly
  (`LuckPkInvariant.Affordable`), and is still covered by the balance.
* A packet is booked with its full amount, while its invoice is for that amount
  only if it survives the conversions to int64 and to millisatoshis. The cash then
  falls short by 2^64 or more (`LuckPkLedger.WrappedPacket` is a run). Packet books
  hold for every amount; the ledgers carry the shortfall as a term of its own,
  which is nothing if and only if every funded packet is `Backed`.
* The check of a payer's answer compares amounts only (`toolrpc/luckPk.go:630`), so
  a refund may be in another asset. The spay ledger holds for every run with what
  was paid in another asset or a second time as a term of its own.
* A registration looks its key prefix up and inserts a row without a lock. When two
  insert and the one with the lower key is committed last, the prefix resolves to
  another user (`Identity.LateCommit` is a run; `Identity.ResolvesForeverIff` says
  exactly when).
* A heart-beat stream tests for shutdown before it joins the wait group, so main
  can go on while a stream is about to join (`HeartBeats.NotWaitedFor`); this is
  possible exactly while a stream stands between the two
  (`HeartBeats.CountsAgainIff`).
* main does not look at the error of Intercept (`spay/main.go:34`). On the empty
  interceptor that a failed call returns, Alive always holds, and RequestShutdown
  never returns (`Interceptor.LeavesIff`).
* The matching amount is the intended one, and grows with the cap, only up to a
  cap (`Funding.MatchIdealIff`, `Funding.MatchMonotoneIff`).
* A comment says that the extension of a macaroon file is cut off
  (`lndapi/conn.go:105-110`); the code compares with an extension that has no
  dot and never cuts. The entry keeps the whole file name.
* An open request that fails stores its message with the literal format verb in
  it (`toolrpc/luckPk.go:173`), and so does the model.

## Model

| member | source | states |
|---|---|---|
| SpayTheorems.NeverBoth | toolrpc/luckPk.go:309-436 | In every run under `serial` and `prompt`, a spay whose server invoice settled at least the delay after the user invoice was made (or after it ran out) is never both paid to the payee and paid back to the payer. |
| SpayTheorems.WindowsDisjoint | toolrpc/luckPk.go:311-352 | The timing lemma: once Expire has passed, the user invoice has run out, and any earlier payee payment is already recorded. |
| SpayLimits.PaysBothIff | toolrpc/luckPk.go:309-436 | For all times: some run under all four switches pays both sides if and only if the settle date is less than the delay after the timestamp and not after the user invoice's deadline. |
| SpayTheorems.StatusOrder | toolrpc/luckPk.go:326-432 | Under `serial` and `prompt`, over any stretch of a run the status of a covered spay only moves PayINIT, UserPayed, then one of PayEnd and Refunded, both final, though the writers of final statuses do not look at the row. |
| SpayTheorems.ReachableTimed | toolrpc/luckPk.go:309-436 | Every reachable state satisfies the hypotheses of StatusOrder. |
| SpayTheorems.LaunchedOnce | toolrpc/luckPk.go:396-436 | Under `serial` the monitor starts at most one payout goroutine per spay in any run, however often a settled invoice is reported. |
| SpayInvariant.StepInv | toolrpc/luckPk.go:309-439 | Under `serial`, every step keeps the invariant tying rows, rows in the hands of goroutines, and pending answers to what happened on the network; payments only accumulate. |
| SpayInvariant.ReachableInv | toolrpc/luckPk.go:309-439 | Under `serial` the invariant holds in every reachable state. |
| SpayAlways.StepSound | toolrpc/luckPk.go:309-439 | Under no switch, every step keeps: rows and their copies agree on what is fixed at creation, nothing is paid for a spay before its server invoice has settled, its user invoice is paid for it once at most, and whoever is inside refund holds the mutex. |
| SpayAlways.ReachableSound | toolrpc/luckPk.go:309-439 | This holds in every reachable state of every run. |
| SpayRefund.RefundedOnce | toolrpc/luckPk.go:335-384 | Under `serial` and `kept`, over all interleavings of refund calls and GETINVOICE_RES messages a spay is paid back at most once, also when its payer invoice is replaced during a refund and also when the Refunded write fails after a payment and the row keeps a spent invoice. |
| SpayRefund.TwiceOnlyIfLost | toolrpc/luckPk.go:368-381 | Under `serial` alone, whatever payers hand in: a spay that was refunded more than once is one whose Refunded write failed after a settled refund. |
| SpayRepeat.PaysBackIff | toolrpc/luckPk.go:338-384 | Under no switch: from any reachable state with nobody inside refund, calls of refund alone (no time passing, no new answer), of any kind or with one key, pay a spay back, for the first time, again, or although its payee has been paid, if and only if its row is UserPayed, its Expire has passed, its payer invoice decodes, is unpaid and has not run out, and its payer is the one called for (with the empty key, anybody). |
| SpayRepeat.PaysRowInvoice | toolrpc/luckPk.go:338-384 | Such calls leave a spay's payments as they are or add one, with the payer invoice of its row. |
| SpayLimits.StaleSavePaysBoth | toolrpc/luckPk.go:601-637 | For every delay: a GETINVOICE_RES that loaded its row before PayEnd was written puts UserPayed back, and both sides are paid, although the spay is covered. |
| SpayLimits.LostWriteRefundsTwice | toolrpc/luckPk.go:368-381 | A failed Refunded write after a settled refund and a second payer invoice lead to two refunds. |
| SpayLimits.LostPayEndPaysBoth | toolrpc/luckPk.go:424-435 | For every delay: if PayEnd is never written both sides are paid, although the spay is covered. |
| SpayLimits.ForeignAssetPaidOut | toolrpc/luckPk.go:607-633 | The check of a payer's answer compares amounts only, so an asset that was never received can be paid out. |
| SpayLedger.AssetConserved | toolrpc/luckPk.go:309-436 | Under no switch, in every reachable state, for every asset but bitcoin: received minus paid out, with what was paid in another asset or a second time, equals what is owed for the spays. |
| SpayLedger.BitcoinConserved | toolrpc/luckPk.go:309-436 | The same for bitcoin in millisatoshis: between 1000 times what is owed and that less 999 per spay that was paid. |
| SpayLedger.RightIff | toolrpc/luckPk.go:309-436 | Under no switch: the money of a spay is right in every asset if and only if no refund was worth something in another asset and it was paid once at most, or, for an amount of zero, its payments together stay below a satoshi. |
| SpayLedger.CoveredRightIff | toolrpc/luckPk.go:607-633 | For a covered spay under `serial`, `prompt` and `kept`: its money is right if and only if it was not refunded, or with an invoice in its asset, or with one worth nothing. |
| SpayLedger.NoExcess | toolrpc/luckPk.go:309-436 | When every spay was paid once at most, and refunded in its asset or with nothing, nothing is in excess in any asset. |
| SpayLedger.HonestRegular | toolrpc/luckPk.go:309-436 | Under all four switches, while all spays are covered, that is the case. |
| SpayLedger.OwedByStatus | toolrpc/luckPk.go:309-436 | Under `serial`, `prompt` and `kept`, what is owed for a covered spay can be read off its status unless a payment, a lost write or a notification is in hand. |
| SpayServer.Server.CreateSpay | toolrpc/luckPk.go:760-784 | The row mirrors the user invoice, and the invoice asked of the node has its asset, amount and expiry; nothing is stored if decoding, issuing or saving fails, in the last case although the invoice has been issued. |
| SpayServer.Server.UpdateSpayByInvoice | toolrpc/luckPk.go:385-423 | A settled or cancelled invoice moves exactly the one row found by hash, and only from PayINIT; a payout starts exactly for a settled one that was written, on the row with status UserPayed, the payer and Expire = settle date + expiry. |
| SpayServer.FirstDecides | toolrpc/luckPk.go:385-423 | For any log, a row at PayINIT becomes UserPayed with the payer and the Expire (settle date + expiry) of the first message about its hash, if there is one; nothing else changes. |
| SpayServer.FirstStands | toolrpc/luckPk.go:271-308 | That message stands in the log, and none about the hash stands before it. |
| SpayServer.Server.Find | toolrpc/luckPk.go:311-355 | The query returns exactly the rows that satisfy its condition, each once. |
| SpayServer.Server.PayRows | toolrpc/luckPk.go:313-381 | The loop over selected rows computes PayAll. |
| SpayServer.Server.PayOut | toolrpc/luckPk.go:424-435 | The payout goroutine pays the user invoice; if that is paid and recorded the row is PayEnd, and otherwise nothing changes. |
| SpayServer.Server.RunUserSpay | toolrpc/luckPk.go:309-333 | The rows tried are exactly the user's own that are UserPayed with Expire ahead. Each is tried with its user invoice and ends as its attempt leaves it (PayEnd if recorded, message and count if it failed) unless an earlier row's write was lost; a failed payment does not stop the loop. Every other row stays. |
| SpayServer.Server.RefundAll | toolrpc/luckPk.go:338-384 | Nothing for a named payer who is offline. Otherwise the rows tried are exactly those of that payer (with the empty key, of everybody) that are UserPayed with Expire past and a payer invoice. Each is tried with that invoice and ends as its attempt leaves it (Refunded if recorded) unless an earlier payment failed or its write was lost. Every other row stays, and with a key every other payer's row. |
| SpayServer.PayAllRow | toolrpc/luckPk.go:313-381 | The same for one selected row: it ends as its own payment leaves it, field by field, unless an earlier row cut the loop short, which for runUserSpay takes a lost write and for refund a lost write or a failed payment. |
| SpayServer.PayAllElsewhere | toolrpc/luckPk.go:313-381 | Rows that were not selected stay as they are. |
| SpayServer.Server.GetInvoiceRes | toolrpc/luckPk.go:597-637 | On every row: with an amount, the answer is accepted exactly if its amount is that one, and only the payer invoice changes; without one, exactly if the user invoice decodes and the two invoices' amounts agree, and the row gets that amount and the user invoice's asset too. |
| SpayRefinement.LoopRefines | toolrpc/luckPk.go:309-384 | The protocol's goroutine, run to its end without interference, leaves the table that the server's loop computes, for every sequence of payment outcomes. |
| SpayRefinement.RowScript | toolrpc/luckPk.go:317-380 | The same for one row; the goroutine is still there afterwards if and only if the loop goes on, and then holds the next rows. |
| SpayRefinement.AnswerRefines | toolrpc/luckPk.go:601-637 | A GETINVOICE_RES handled without interference leaves the table that the method computes. |
| SpayRefinement.DeliverRefines | toolrpc/luckPk.go:385-436 | The monitor's step leaves the table that its handler computes, and starts a payout goroutine with the updated row if and only if the row was at PayINIT. |
| Replay.DuplicatesIgnored | toolrpc/luckPk.go:271-308 | For any handler that absorbs what it has handled, a log has the effect of its first occurrences. |
| Replay.FreshMeans | toolrpc/luckPk.go:271-308 | The deduplicated log holds each event of the log not seen before exactly once. |
| Replay.ReconnectsIgnored | toolrpc/luckPk.go:271-308 | For any such handler, any series of connections, each replaying the history from the start, has the effect of the longest. |
| Replay.FurthestMeans | toolrpc/luckPk.go:271-308 | The longest connection is one of the connections, and none is longer. |
| SpayServer.SettledAbsorbing | toolrpc/luckPk.go:385-423 | The spay handler is such a handler, whatever the table. |
| SpayServer.SpayReplay | toolrpc/luckPk.go:271-423 | So the spay table after reconnects and duplicates is that of one deduplicated log. |
| LuckPkServer.SettledAbsorbing | toolrpc/luckPk.go:440-467 | The packet handler is such a handler, whatever the table. |
| LuckPkServer.LuckPkReplay | toolrpc/luckPk.go:271-467 | So the packet table after reconnects and duplicates is that of one deduplicated log. |
| InvoiceMonitor.Monitor.MonitorInvoice | toolrpc/luckPk.go:271-308 | Over any series of connections: a spay at PayINIT is paid by a settled, written message about its hash if some connection brings one, a packet at INIT then works, and every other row stays; each started payout belongs to a different spay that was at PayINIT before. |
| InvoiceMonitor.FeedHeard | toolrpc/luckPk.go:271-308 | The first part of this, for the effect of the whole feed on one spay. |
| InvoiceMonitor.FeedStarts | toolrpc/luckPk.go:271-308 | The second part, for one packet. |
| InvoiceMonitor.LaunchedTrans | toolrpc/luckPk.go:271-308 | Payouts of one stretch of the feed and of the next are for different spays. |
| LuckPkInvariant.StepInv | toolrpc/luckPk.go:835-923 | Every step of a claimant, the creator or the monitor keeps the books of every packet at every program point of the critical section. |
| LuckPkInvariant.ReachableInv | toolrpc/luckPk.go:835-923 | The books hold in every reachable state. |
| LuckPkTheorems.PacketConserved | toolrpc/luckPk.go:835-923 | In every reachable state, unless a payment of the packet is in hand: balance plus PAYED items is the amount, gives counts the PAYED items and is at most parts, the packet has ended exactly if all parts are given, and what was paid out is amount minus balance, for bitcoin in millisatoshis with less than a satoshi more per part given. |
| LuckPkTheorems.PacketBetweenSaves | toolrpc/luckPk.go:900-921 | Between settlement and the first save, and between the two saves, the books are off by exactly the payment in hand and gives by one. |
| LuckPkTheorems.SaveIsIncrement | toolrpc/luckPk.go:916-921 | The whole-row save of the packet loaded before the payment amounts to an increment and a decrement of the row as it is in the table then, whatever the monitor did meanwhile. |
| LuckPkTheorems.OneClaimPerUser | toolrpc/luckPk.go:860-914 | In every reachable state a user has at most one item in a packet and has been paid at most once from it, as long as the lookup of the item does not fail. |
| LuckPkTheorems.RunsForward | toolrpc/luckPk.go:440-467 | Over any stretch of a run an ended packet never changes, PAYED items never change, gives only grow and balances only fall. |
| LuckPkTheorems.GrantedInInvoicedAsset | toolrpc/luckPk.go:815-897 | Whenever a claim has passed the checks, its invoice is in the asset of the packet's own invoice and within the balance; that invoice reads back to the packet's amount if and only if the amount fits. |
| LuckPkTheorems.NeverFromWideAsset | toolrpc/luckPk.go:815-897 | A packet whose asset id does not fit 32 bits is never paid from. |
| LuckPkInvariant.GuardsMean | toolrpc/luckPk.go:887-917 | For every uint64 balance the signed guard lets through exactly what is affordable (below 2^63: at most the balance), which the balance always covers; the unsigned guard never fires, and the subtraction does not wrap. |
| LuckPkInvariant.CheckMeans | toolrpc/luckPk.go:848-897 | A claim passes exactly under the listed conditions, and then for the invoice's amount. |
| LuckPkServer.Server.CreateLuckPk | toolrpc/luckPk.go:814-825 | The packet is saved with its full balance, and its invoice asks for the id cut to 32 bits, the amount as int64 and an expiry of 86400 seconds; nothing is stored if issuing or saving fails. |
| LuckPkServer.Server.UpdateLuckPkByInvoice | toolrpc/luckPk.go:440-467 | A settled invoice turns exactly the packet found by hash, if at INIT, to WorkIng, a cancelled one to ErrorCreate with its message; nothing else changes. |
| LuckPkServer.LogStarts | toolrpc/luckPk.go:440-467 | For any log, a packet at INIT whose hash occurs in it is that packet with status WorkIng, and every other packet is unchanged. |
| LuckPkServer.MonitorRefines | toolrpc/luckPk.go:440-467 | The protocol's two monitor steps, undisturbed, leave the table that the handler computes. |
| LuckPkServer.Server.GiveLuckPk | toolrpc/luckPk.go:835-923 | Tables and answer are those of Give, for every outcome of the payment, of the lookup of the item and of each of the three saves. |
| LuckPkServer.GiveMeans | toolrpc/luckPk.go:835-923 | With a database that does its work: a refused claim changes nothing and names its reason; a failed payment leaves the claimant's item at Error with the message; a payment leaves it PAYED for the invoice's amount, and the packet with one part and that amount less, ended by its last part. No other row changes. |
| LuckPkServer.Server.Verify | toolrpc/luckPk.go:848-897 | The guards in their order give the verdict of Check; on every row with sound numbers a claim passes exactly if the packet works, has parts left and has not expired, the item is not PAYING or PAYED, and the invoice decodes, is affordable and is in the packet's asset, and a refusal names the first of these that fails. |
| LuckPkServer.GiveRefines | toolrpc/luckPk.go:835-923 | The protocol's steps for an undisturbed, paid claim leave the tables and the answer that the method computes. |
| LuckPkServer.FailureRefines | toolrpc/luckPk.go:848-910 | The same for a claim whose payment fails and for a refused one, which changes nothing. |
| LuckPkServer.BooksAfterGive | toolrpc/luckPk.go:899-922 | After a settled payment, found item or not, the packet's books are right if and only if the last save of the item and the save of the packet have the same fate (or nothing was claimed), and the balance has gone down by the payment if and only if the packet was saved. |
| LuckPkServer.BarredIff | toolrpc/luckPk.go:862-914 | After a settled payment the item bars the claimant from another if and only if one of its two saves was taken; if the lookup failed although he had an item, if and only if that one does. |
| LuckPkServer.TwoRowsIff | toolrpc/luckPk.go:860-914 | A claimant with one item at most ends with two if and only if the lookup failed although he had one, the claim passed, and a save of the item was taken. |
| LuckPkServer.PaidAgainIff | toolrpc/luckPk.go:862-897 | A claimant who has been paid passes the checks again if and only if the lookup fails and nothing else stands in the way. |
| LuckPkLedger.AssetConserved | toolrpc/luckPk.go:814-923 | In every reachable state, for every asset but bitcoin and every uint64 amount, received minus paid out, with the shortfall, equals the balances of funded packets less a payment in hand; without the shortfall if and only if every funded packet of the asset is backed. |
| LuckPkLedger.BitcoinConserved | toolrpc/luckPk.go:814-923 | For bitcoin the same up to 999 millisatoshis per payout; with an unbacked packet the cash is 2^64 or more below what is owed. |
| LuckPkLedger.PkBound | toolrpc/luckPk.go:814-923 | The same packet by packet. |
| LuckPkLedger.FundedIff | toolrpc/luckPk.go:815-822 | Before anything is paid out, a funded packet brought in its balance if and only if the amount fits its invoice. |
| LuckPkLedger.ShortIff | toolrpc/luckPk.go:815-822 | The shortfall of an asset is nothing if its funded packets are backed, and otherwise 2^64 or more. |
| LuckPkLedger.WrappedPacket | toolrpc/luckPk.go:815-822 | A run in which a packet of 2^61 + 1 satoshis is funded with one. |
| WholeLedger.Conserved | toolrpc/luckPk.go:309-923 | Under no switch, in every interleaving of both products, for every asset, bitcoin included: the node's cash, with the shortfall of packet invoices and the excess paid for spays, is what is owed to packets and spays, for bitcoin up to 999 millisatoshis per payout. The shortfall is nothing if and only if every funded packet of the asset is backed; the excess is nothing if every spay is regular. |
| WholeLedger.HonestlyConserved | toolrpc/luckPk.go:309-923 | Under all four switches, with all spays covered and all packets of the asset backed, the same without shortfall and excess. |
| WholeLedger.ConservedAtRest | toolrpc/luckPk.go:309-923 | Under `serial`, `prompt` and `kept`, with all spays covered and nothing in hand, for every asset, bitcoin included: what is owed is the amounts of the UserPayed spays plus the balances of the packets past INIT, as they stand in the two tables; under `sameAsset` too, and with backed packets, the cash is that. |
| Invoices.AddInvoiceReadBack | lndapi/rpc.go:16-27 | Reading back an issued invoice gives its amount if and only if the asset is not bitcoin or the conversion to millisatoshis fits int64. |
| Invoices.ValueBounds | toolrpc/luckPk.go:883-886 | The reading rule hides at most 999 millisatoshis, and nothing of other assets. |
| GoInt.WrapMeans | toolrpc/luckPk.go:815-917 | The conversions keep the residue and land in their type's range. |
| GoInt.QuoMeans | toolrpc/luckPk.go:883-886 | Division by 100 and by 1000 leaves a remainder smaller than the divisor, with the sign of the dividend. |
| Fees.FeeBudget | lndapi/rpc.go:91-128 | For any payments, the fee limits add up to at most the amounts, and to at most 1000000 per payment plus a twentieth of the total, even where the multiplication overflows. |
| Fees.FeeBounds | lndapi/rpc.go:119-133 | The same for one payment, and the exact limit where the multiplication does not overflow. |
| Fees.Sendpayment | lndapi/rpc.go:80-128 | It succeeds exactly if the request decodes and the node reports success. The request sent carries its asset and a fee limit of the whole amount up to 1000000 and of a twentieth beyond, counted in millisatoshis for bitcoin and in units otherwise. |
| Fees.FeeDropsIff | lndapi/rpc.go:119-133 | A larger payment is allowed a smaller fee exactly across the cut and only if a twentieth of it is less than the smaller payment. |
| Funding.Monitor.MonitorChannel | toolrpc/luckPk.go:120-240 | For any log that grows by an own event per matched channel the loop terminates and sends exactly one request per remote-initiated event, in order, to its node and in its asset, for the matched amounts as in MatchChannel; it adds one row for each; together the requests ask for at most what the remote nodes put in. |
| Funding.Monitor.MatchChannel | toolrpc/luckPk.go:137-222 | One request and one row. For a bitcoin channel the request asks for all of the bitcoin side up to 100000 satoshis and a fifth beyond and takes the asset side over; for an asset channel it asks for all of the asset side up to 3000000000 units and a fifth beyond and takes the bitcoin side over. A row with status 1 carries exactly these amounts; it has status 1 exactly if the first update names a channel. |
| Funding.RequestsAsk | toolrpc/luckPk.go:137-170 | The n-th remote event gets the n-th request, with these amounts. |
| Funding.RemoteOnlyMeans | toolrpc/luckPk.go:137-139 | The events worked off are the pending channels that other nodes have initiated, each as often as it occurs. |
| Funding.Monitor.FollowOpen | toolrpc/luckPk.go:177-222 | The loop over the updates of a request computes Followed. |
| Funding.FollowedMeans | toolrpc/luckPk.go:177-222 | A row counts as matched exactly if the first update names a channel; then it carries the request's amounts and a point the node named, and else none. |
| Funding.FollowedLast | toolrpc/luckPk.go:177-222 | The update that ends the stream decides the error message; the last channel point named is the one recorded. |
| Funding.NeverOutspent | toolrpc/luckPk.go:137-170 | Over any remote-initiated events, what the server asks for in its requests, whatever becomes of them, is at most the capacity of the remote channels, in bitcoin and in assets, overflow or not. |
| Funding.NeverOverbooked | toolrpc/luckPk.go:137-226 | What the rows record as matched is at most that capacity too. |
| Funding.MatchIdealIff | toolrpc/luckPk.go:151-162 | The int64 computation gives the intended amount if and only if the cap is at most the threshold or twenty times the excess fits int64, and less otherwise. |
| Funding.MatchBounded | toolrpc/luckPk.go:151-162 | The matched amount is at most the cap, overflow or not. |
| Funding.MatchMonotone | toolrpc/luckPk.go:151-162 | Up to a cap that fits, the int64 amount grows with the cap, by at most a fifth of the growth up to rounding beyond the threshold, without a jump at it. |
| Funding.MatchMonotoneIff | toolrpc/luckPk.go:151-162 | The int64 amount grows with the cap up to b if and only if b fits. |
| Funding.MatchSubadditive | toolrpc/luckPk.go:151-162 | Splitting a channel into two that fit never lowers the total match, even if the whole does not fit. |
| Macaroon.RoundTrip | lndapi/macaroon_jar.go:41-162 | Loading an entry that was stored, with its password, returns the macaroon if and only if there is a password or the macaroon's binary form is not empty. |
| Macaroon.NilCallIff | lndapi/macaroon_jar.go:41-87 | Loading a stored entry calls a nil callback if and only if it was stored with a password. |
| Macaroon.TaggedMeans | lndapi/macaroon_jar.go:50-87 | For any key, text and password, a tagged entry yields the macaroon if the password opens the text and it reads as one, and otherwise the error that says so. |
| Macaroon.ClientMacaroon | lndapi/conn.go:85-249 | A client that stores its file's macaroon without a password, finds the entry by name and loads it with a nil callback gets that macaroon back, error by error, and never calls the callback. |
| Macaroon.Entry.StoreMacaroon | lndapi/macaroon_jar.go:92-124 | The data become Print of the macaroon, or stay as they are with an error exactly if there is no binary form or encryption fails. |
| Macaroon.Entry.LoadMacaroon | lndapi/macaroon_jar.go:41-87 | The result is Parse of the data, and each error has exactly its own cause: blank data, a tagged text without three parts, a refused password, bad base64, a password that does not open the text, bad base16; the nil callback is called exactly on a tagged text of three parts. |
| Macaroon.SpaceMeans | lndapi/macaroon_jar.go:44 | Data count as empty when they hold nothing but the characters with the property White_Space. |
| Macaroon.FindEntry | lndapi/conn.go:234-240 | The first entry of that name, or none if there is none. |
| Macaroon.SplitTagged | lndapi/macaroon_jar.go:50-56 | A tagged text splits into exactly its three parts. |
| Macaroon.JoinSplit | lndapi/macaroon_jar.go:50-56 | Split loses nothing: joining its colon-free parts gives the text back. |
| Encoding.HexDecodeIff | lndapi/macaroon_jar.go:68-75 | Reading base16 gives b for exactly the texts that are, in lower case, the writing of b. |
| Encoding.HexRoundTrip | lndapi/macaroon_jar.go:98-101 | Reading undoes writing in base16. |
| Encoding.HexAlphabet | lndapi/macaroon_jar.go:68-101 | The digits are those of section 8 of RFC 4648; both cases are read. |
| Encoding.HexOne | lndapi/macaroon_jar.go:98-101 | A byte is written as its high half and its low half. |
| Encoding.B64RoundTrip | lndapi/macaroon_jar.go:112-139 | Reading undoes writing in base64, with padding, for every length. |
| Encoding.B64SkipsNewlines | lndapi/macaroon_jar.go:131-139 | Line breaks in a base64 text do not matter, as in the standard library. |
| Encoding.DecodeShape | lndapi/macaroon_jar.go:131-139 | What is read in base64 has exactly the length and the padding that its bytes would be written with. |
| Encoding.B64Alphabet | lndapi/macaroon_jar.go:112-139 | The characters are those of section 4 of RFC 4648. |
| Encoding.B64Three | lndapi/macaroon_jar.go:112-116 | Three bytes are written as the four sextets of their 24 bits, high first. |
| Interceptor.ClosedOnce | signal/signal.go:150-192 | Over every interleaving neither channel is closed twice, the shutdown channel only after quit, and at its select the handler's flag says whether quit is closed. |
| Interceptor.OneHandler | signal/signal.go:121-151 | However often Intercept is called at most one handler is live, and `started` says whether one is. |
| Interceptor.ListeningIff | signal/signal.go:196-216 | On an interceptor that Intercept made, Listening holds exactly while its own quit is open, and then its own handler is live; on the empty one Alive always holds, and Listening says whether another handler is live. |
| Interceptor.RequestGoes | signal/signal.go:150-224 | On an interceptor that was made, a goroutine in RequestShutdown can always go on once quit is closed; if it cannot go on now, the handler has a step of its own that brings this nearer. |
| Interceptor.LeavesIff | signal/signal.go:121-224 | A goroutine in RequestShutdown can leave it, in some later state, if and only if Intercept made its interceptor. |
| Interceptor.Channels.MainInterruptHandler | signal/signal.go:150-192 | The loop never closes a channel twice, closes quit at the first signal or request and the shutdown channel exactly when it returns. |
| Identity.ResolvesForeverIff | toolrpc/luckPk.go:34-45 | In every reachable state: a key prefix that resolves to a user resolves to that user, with the same key, in every later state if and only if no row with that prefix and a lower id is still to be committed; concurrent registrations, failing lookups, duplicate rows and stale whole-row saves do no harm otherwise. |
| Identity.LateCommit | toolrpc/luckPk.go:682-729 | A run in which the lower of two ids is committed last and the prefix changes its user. |
| Identity.StepStable | toolrpc/luckPk.go:682-729 | One step of any registration keeps a prefix resolved to its user when no lower id is to come, and keeps it so. |
| Identity.Users.GetUserIdKey | toolrpc/luckPk.go:34-45 | The lowest id with that prefix, or none if there is none. |
| Identity.Users.RegistTlsKey | toolrpc/luckPk.go:682-729 | A known prefix keeps its user and at most takes the alias; an unknown one is inserted, and then resolves, exactly if it is verified and the database takes the row. |
| HeartBeats.Balanced | toolrpc/luckPk.go:515-581 | Over every interleaving of streams the wait group counts the streams between their Add and their deferred Done; it is zero exactly if there is none. |
| HeartBeats.LiveAfterWaitIff | spay/main.go:69-71 | From any reachable state after main's wait, a stream is live then or later if and only if it is live or has entered. |
| HeartBeats.CountsAgainIff | spay/main.go:69-71 | From any reachable state after main's wait with the counter at zero, the counter can become positive again if and only if a stream stands between its shutdown test and its Add. |
| HeartBeats.NotWaitedFor | toolrpc/luckPk.go:516-581 | There is a reachable state of that kind. |

## Left out

- Server crashes: a payment in flight when the process dies is not followed up; in GiveLuckPk the two saves are not one transaction, so conservation is claimed for runs without crashes. In the spay protocol a failed status write (step CommitErr) has the effect of a goroutine that dies after its payment.
- LuckPkTheorems.OneClaimPerUser: in the protocol the lookup of the item does not fail for another reason than absence; TwoRowsIff and PaidAgainIff say exactly what such a failure does to one claim.
- LuckPkServer.Server.GiveLuckPk: refusals carry a reason instead of the message text.
- Funding.Monitor.MonitorChannel: the number of opens is counted on one log; a reconnect of the subscription continues it. Rows are appended when an event is done, not at its first save.
- Interceptor.RequestGoes: says that a step is possible, not that the scheduler takes it; LeavesIff likewise.
- Macaroon.RoundTrip: encryption and the binary form of macaroons are functions assumed to be inverse pairs (`Lawful`); key derivation is not modelled. Characters stand for bytes, which agree on all texts the entry prints.
- Routing fees are not part of any ledger.
- Liveness of the node, of clients and of Go's `select`.
- The Online flag: whether a user is online is a nondeterministic answer.
- PaySpend (a rounded duration), timestamps of rows, IP addresses and log output.
- The sending of GETINVOICE: answers may arrive at any time, for any row, from anyone.
- startupLuckPk, SendpaymentRefund and Job, which nothing calls; refund with the empty key is nevertheless a step.
- Query and list calls (GetLuckPkInfo, ListLuckItem, ListLuckPk): single reads.
- TLS certificates, signatures and ECDSA: the verdict on a registration is an input.
- gateway, main.go, toolrpc/server, scripts, swagger and generated code: plumbing.
- whitelist_proxy: a map lookup and a fixed retry loop.
- systemd notifications, and MySQL and gorm beyond the behaviour listed above.
