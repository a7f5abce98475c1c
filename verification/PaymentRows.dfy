/** What each event about a payment writes on its row, column by column, and that it writes on no other. */
module PaymentRows {
  import opened Wrappers
  import opened Events
  import opened Payments
  import opened Ledger
  import PaymentLife
  import Receipts

  /** The row that a lookup by type and reference finds in the table. */
  ghost function StoredRow(t: Table, k: RowKey): Option<Row> {
    var found := Lookup(t, k.reference, k.ptype, None);
    if found.Some? then Some(t.rows[found.value]) else None
  }

  /** The table before and after an event, seen as a map. */
  lemma OnBook(t: Table, e: Event) returns (book: Book)
    requires WellFormed(t)
    ensures WellFormed(TableStep(t, e)) && Filed(book)
    ensures forall k :: StoredRow(t, k) == Get(book, k)
    ensures forall k :: StoredRow(TableStep(t, e), k) == Get(BookStep(book, e), k)
  {
    hide WellFormed, Lists, TableStep, BookStep;
    book := PaymentLife.BookOf(t);
    StepRefines(t, book, e);
    forall k ensures StoredRow(t, k) == Get(book, k) && StoredRow(TableStep(t, e), k) == Get(BookStep(book, e), k) {
      LookupReads(t, book, k.reference, k.ptype, None);
      LookupReads(TableStep(t, e), BookStep(book, e), k.reference, k.ptype, None);
    }
  }

  /** The one row that a message, a send or an invoice is about. */
  function KeyOf(e: Event): Option<RowKey> {
    if e.PaymentFailed? || e.PaymentSent? || e.PaymentReceived? || e.SendLightning? || e.RequestGenerated? then
      Some(RowKey(BTC_LN, e.paymentHash))
    else if e.TransactionReceived? || e.TransactionConfidenceChanged? then Some(RowKey(BTC_ONCHAIN, e.txid))
    else None
  }

  lemma OthersAreLeftAlone(t: Table, e: Event, k: RowKey)
    requires WellFormed(t) && KeyOf(e).Some? && KeyOf(e) != Some(k)
    ensures StoredRow(TableStep(t, e), k) == StoredRow(t, k)
  {
    hide WellFormed, TableStep, StoredRow, Filed, BookStep;
    var book := OnBook(t, e);
    OthersOnBook(book, e, k);
  }

  lemma OthersOnBook(book: Book, e: Event, k: RowKey)
    requires Filed(book) && KeyOf(e).Some? && KeyOf(e) != Some(k)
    ensures Get(BookStep(book, e), k) == Get(book, k)
  {
    PaymentLife.FiledAt(book, KeyOf(e).value);
    hide Filed;
  }

  // ---- the Lightning rows

  /** A received payment is PAID with the amount that came in: the invoice's row if there was one, with what was asked
      for left in it, or a new row. */
  lemma ReceivedIsStored(t: Table, hash: string, amountMsat: int)
    requires WellFormed(t)
    ensures WellFormed(TableStep(t, PaymentReceived(hash, amountMsat)))
    ensures var k := RowKey(BTC_LN, hash);
            var before, after := StoredRow(t, k), StoredRow(TableStep(t, PaymentReceived(hash, amountMsat)), k);
            && after.Some?
            && after.value.status == Some(PAID) && after.value.amountPaidMsat == amountMsat
            && (before.Some? ==> after.value == before.value.(status := Some(PAID), amountPaidMsat := amountMsat))
            && (before.None? ==>
                  && after.value.Key() == k && after.value.direction == RECEIVED
                  && after.value.amountRequestedMsat == after.value.amountSentMsat == after.value.feesPaidMsat == 0)
  {
    var book := OnBook(t, PaymentReceived(hash, amountMsat));
    PaymentLife.FiledAt(book, RowKey(BTC_LN, hash));
    hide WellFormed, TableStep, StoredRow, Filed;
  }

  /** And stays so through every run without another settlement or a new invoice of its hash. */
  lemma ReceivedIsKept(t: Table, hash: string, amountMsat: int, events: seq<Event>)
    requires WellFormed(t) && forall i :: 0 <= i < |events| ==> !Receipts.Rewrites(events[i], hash)
    ensures var after := StoredRow(TableRun(t, [PaymentReceived(hash, amountMsat)] + events), RowKey(BTC_LN, hash));
            after.Some? && after.value.status == Some(PAID) && after.value.amountPaidMsat == amountMsat
  {
    var e := PaymentReceived(hash, amountMsat);
    ReceivedIsStored(t, hash, amountMsat);
    assert ([e] + events)[1..] == events;
    hide WellFormed, TableStep, StoredRow;
    var r := StoredRow(TableStep(t, e), RowKey(BTC_LN, hash)).value;
    SameRow(TableStep(t, e), hash);
    SameRow(TableRun(TableStep(t, e), events), hash);
    Receipts.PaidRowIsKept(TableStep(t, e), events, hash, r);
  }

  lemma SameRow(t: Table, hash: string)
    ensures StoredRow(t, RowKey(BTC_LN, hash)) == Receipts.LightningRow(t, hash)
  {
  }

  /** A payment sent for the first time is stored as SENT with the amounts asked and sent; a failed one keeps its row
      but for the amount sent; any other is left as it was. */
  lemma SendIsStored(t: Table, hash: string, requestedMsat: int, amountMsat: int)
    requires WellFormed(t)
    ensures var k := RowKey(BTC_LN, hash);
            var before, after := StoredRow(t, k),
                StoredRow(TableStep(t, SendLightning(hash, requestedMsat, amountMsat)), k);
            match before
            case None =>
              && after.Some? && after.value.Key() == k
              && after.value.direction == SENT && after.value.status == Some(INIT)
              && after.value.amountRequestedMsat == requestedMsat && after.value.amountSentMsat == amountMsat
              && after.value.amountPaidMsat == after.value.feesPaidMsat == 0 && after.value.preimage == None
            case Some(r) =>
              after == Some(if r.status == Some(FAILED) then r.(amountSentMsat := amountMsat, status := Some(INIT))
                  else r)
  {
    var book := OnBook(t, SendLightning(hash, requestedMsat, amountMsat));
    PaymentLife.FiledAt(book, RowKey(BTC_LN, hash));
    hide WellFormed, TableStep, StoredRow, Filed;
  }

  /** A generated invoice is stored as RECEIVED with the amount asked, and nothing paid. */
  lemma RequestIsStored(t: Table, hash: string, requestedMsat: int)
    requires WellFormed(t)
    ensures var k := RowKey(BTC_LN, hash);
            var after := StoredRow(TableStep(t, RequestGenerated(hash, requestedMsat)), k);
            && after.Some? && after.value.Key() == k
            && after.value.direction == RECEIVED && after.value.status == Some(INIT)
            && after.value.amountRequestedMsat == requestedMsat
            && after.value.amountSentMsat == after.value.amountPaidMsat == after.value.feesPaidMsat == 0
  {
    var book := OnBook(t, RequestGenerated(hash, requestedMsat));
    hide WellFormed, TableStep, StoredRow;
  }

  /** A failure changes the status of a stored payment that is not PAID, and nothing else. */
  lemma FailureIsStored(t: Table, hash: string)
    requires WellFormed(t)
    ensures var k := RowKey(BTC_LN, hash);
            var before, after := StoredRow(t, k), StoredRow(TableStep(t, PaymentFailed(hash)), k);
            if before.None? || before.value.status == Some(PAID) then after == before
            else after == Some(before.value.(status := Some(FAILED)))
  {
    var book := OnBook(t, PaymentFailed(hash));
    PaymentLife.FiledAt(book, RowKey(BTC_LN, hash));
    hide WellFormed, TableStep, StoredRow, Filed;
  }

  /** A settlement is stored on a known payment, column by column, and makes no row of its own. */
  lemma SettlementIsStored(t: Table, hash: string, amountMsat: int, feesMsat: int, preimage: string)
    requires WellFormed(t)
    ensures var k := RowKey(BTC_LN, hash);
            var before := StoredRow(t, k);
            var after := StoredRow(TableStep(t, PaymentSent(hash, amountMsat, feesMsat, preimage)), k);
            if before.None? then after == None
            else after == Some(before.value.(status := Some(PAID), amountPaidMsat := amountMsat, feesPaidMsat :=
                feesMsat,
                                             preimage := Some(preimage)))
  {
    var book := OnBook(t, PaymentSent(hash, amountMsat, feesMsat, preimage));
    PaymentLife.FiledAt(book, RowKey(BTC_LN, hash));
    hide WellFormed, TableStep, StoredRow, Filed;
  }

  /** Rows alike but for the status. */
  predicate SameButStatus(r: Option<Row>, q: Option<Row>) {
    if r.None? then q.None? else q.Some? && q.value == r.value.(status := q.value.status)
  }

  lemma {:induction false} MarkingWritesStatus(book: Book, htlcs: seq<Htlc>, outgoing: bool, k: RowKey)
    requires Filed(book)
    ensures Filed(BookMarkPending(book, htlcs, outgoing))
    ensures SameButStatus(Get(book, k), Get(BookMarkPending(book, htlcs, outgoing), k))
    decreases |htlcs|
  {
    if htlcs != [] {
      var h := htlcs[0];
      MarkingWritesStatus(
        if h.outgoing == outgoing then BookMarkOnePending(book, h.paymentHash) else book, htlcs[1..], outgoing, k);
    }
  }

  /** What the HTLCs of a commitment change is the status, on whichever rows. */
  lemma CommitmentWritesStatus(t: Table, e: Event, k: RowKey)
    requires WellFormed(t) && (e.ChannelRestored? || e.ChannelSignatureSent?)
    ensures SameButStatus(StoredRow(t, k), StoredRow(TableStep(t, e), k))
  {
    var book := OnBook(t, e);
    hide WellFormed, TableStep, StoredRow, Filed, BookMarkPending;
    match e
    case ChannelRestored(_, _, _, htlcs) => MarkingWritesStatus(book, htlcs, true, k);
    case ChannelSignatureSent(next) => if next.Some? { MarkingWritesStatus(book, next.value, false, k); }
  }

  // ---- the on-chain rows

  /** A number cut to 32 bits, as the code casts it. */
  predicate IsCut(cut: int, depth: int) { -0x8000_0000 <= cut < 0x8000_0000 && (cut - depth) % 0x1_0000_0000 == 0 }

  lemma CastCuts(depth: int)
    ensures IsCut(ToInt32(depth), depth)
  {
  }

  /** A report is stored column by column: direction, amount, payload and depth are the report's, the fee only when the
      wallet sent; otherwise it stays as in the row of that direction. */
  lemma TransactionIsStored(t: Table, e: Event)
    requires WellFormed(t) && e.TransactionReceived?
    ensures var k := RowKey(BTC_ONCHAIN, e.txid);
            var before, after := StoredRow(t, k), StoredRow(TableStep(t, e), k);
            && after.Some? && after.value.Key() == k
            && (after.value.direction == RECEIVED <==> e.receivedSat >= e.sentSat)
            && (after.value.direction == SENT <==> e.receivedSat < e.sentSat)
            && after.value.amountPaidMsat
               == (if e.receivedSat >= e.sentSat then 1000 * e.receivedSat - 1000 * e.sentSat
                   else 1000 * e.sentSat - 1000 * e.receivedSat)
            && after.value.txPayload == Some(e.payload)
            && IsCut(after.value.confidenceBlocks, e.depth)
            && after.value.feesPaidMsat
               == (if e.receivedSat < e.sentSat then (if e.feeSat.Some? then 1000 * e.feeSat.value else 0)
                   else if before.Some? && before.value.direction == RECEIVED then before.value.feesPaidMsat
                   else 0)
  {
    CastCuts(e.depth);
    var book := OnBook(t, e);
    PaymentLife.FiledAt(book, RowKey(BTC_ONCHAIN, e.txid));
    hide WellFormed, TableStep, StoredRow, Filed, ToInt32;
  }

  /** A change of confidence writes the depth of a stored transaction, and nothing else. */
  lemma ConfidenceIsStored(t: Table, txid: string, depth: int)
    requires WellFormed(t)
    ensures var k := RowKey(BTC_ONCHAIN, txid);
            var before, after := StoredRow(t, k), StoredRow(TableStep(t, TransactionConfidenceChanged(txid, depth)), k);
            if before.None? then after == None
            else
              && after.Some? && IsCut(after.value.confidenceBlocks, depth)
              && after.value == before.value.(confidenceBlocks := after.value.confidenceBlocks)
  {
    CastCuts(depth);
    var book := OnBook(t, TransactionConfidenceChanged(txid, depth));
    PaymentLife.FiledAt(book, RowKey(BTC_ONCHAIN, txid));
    hide WellFormed, TableStep, StoredRow, Filed, ToInt32;
  }

  // ---- the clean-ups

  /** The clean-ups delete what they are for, and change nothing else: a new process the initialised Lightning
      payments and the unconfirmed transactions, a later check the latter, a wallet resync all transactions. */
  lemma CleanUpsDelete(t: Table, e: Event, k: RowKey)
    requires WellFormed(t) && IsMaintenance(e)
    ensures var before, after := StoredRow(t, k), StoredRow(TableStep(t, e), k);
            && (after.Some? ==> after == before)
            && (before.Some? ==>
                  (after.None? <==>
                   || (e.Restart? && k.ptype == BTC_LN && before.value.status == Some(INIT))
                   || ((e.Restart? || e.Checkup?) && k.ptype == BTC_ONCHAIN && before.value.confidenceBlocks == 0)
                   || (e.DeleteAllOnchainTxs? && k.ptype == BTC_ONCHAIN)))
  {
    hide WellFormed, TableStep, StoredRow, Filed, BookStep;
    var book := OnBook(t, e);
    PaymentLife.FiledAt(book, k);
    if e.Restart? {
      RestartOnBook(book, k);
    } else {
      OtherCleanUpsOnBook(book, e, k);
    }
  }

  lemma RestartOnBook(book: Book, k: RowKey)
    ensures Get(BookStep(book, Restart), k)
         == if k in book && !IsInitLightning(book[k]) && !IsZeroConf(book[k]) then Some(book[k]) else None
  {
  }

  lemma OtherCleanUpsOnBook(book: Book, e: Event, k: RowKey)
    requires e.Checkup? || e.DeleteAllOnchainTxs?
    ensures Get(BookStep(book, e), k)
         == if k in book && !(if e.Checkup? then IsZeroConf(book[k]) else IsOnchain(book[k])) then Some(book[k])
             else None
  {
  }
}
