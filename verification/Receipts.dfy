/** What a settlement writes about a payment stays in the table: amount, fees and preimage are a lasting receipt. */
module Receipts {
  import opened Wrappers
  import opened Events
  import opened Payments
  import opened Ledger
  import opened PaymentLife

  /** The row that a lookup by hash finds in the table. */
  ghost function LightningRow(t: Table, hash: string): Option<Row> {
    var found := Lookup(t, hash, BTC_LN, None);
    if found.Some? then Some(t.rows[found.value]) else None
  }

  /** The events that write on the row of a paid hash: another settlement, or an invoice generated for it again. */
  predicate Rewrites(e: Event, hash: string) {
    Settles(e, hash) || (e.RequestGenerated? && e.paymentHash == hash)
  }

  predicate HasPaid(book: Book, hash: string, r: Row) {
    Get(book, RowKey(BTC_LN, hash)) == Some(r) && r.status == Some(PAID)
  }

  lemma PutOther(book: Book, hash: string, r: Row, other: Row)
    requires HasPaid(book, hash, r) && other.Key() != RowKey(BTC_LN, hash)
    ensures HasPaid(Put(book, other), hash, r)
  {
  }

  lemma {:induction false} MarkKeepsPaid(book: Book, htlcs: seq<Htlc>, outgoing: bool, hash: string, r: Row)
    requires Filed(book) && HasPaid(book, hash, r)
    ensures Filed(BookMarkPending(book, htlcs, outgoing)) && HasPaid(BookMarkPending(book, htlcs, outgoing), hash, r)
    decreases |htlcs|
  {
    if htlcs != [] {
      var h := htlcs[0];
      var next := if h.outgoing == outgoing then BookMarkOnePending(book, h.paymentHash) else book;
      MarkKeepsPaid(next, htlcs[1..], outgoing, hash, r);
    }
  }

  lemma LightningKeepsPaid(book: Book, e: Event, hash: string, r: Row)
    requires Filed(book) && HasPaid(book, hash, r) && !Rewrites(e, hash)
    requires e.PaymentFailed? || e.PaymentSent? || e.PaymentReceived? || e.SendLightning? || e.RequestGenerated?
    ensures HasPaid(BookStep(book, e), hash, r)
  {
    hide Filed, Put, HasPaid;
    FiledAt(book, RowKey(BTC_LN, e.paymentHash));
    PaidAt(book, hash, r);
    var found := Get(book, RowKey(BTC_LN, e.paymentHash));
    if e.paymentHash != hash {
      match e
      case PaymentFailed(_) => if found.Some? { PutOther(book, hash, r, found.value.(status := Some(FAILED))); }
      case PaymentSent(_, amount, fees, preimage) =>
        if found.Some? { PutOther(book, hash, r, Paid(found.value, amount, fees, preimage)); }
      case PaymentReceived(_, amount) =>
        PutOther(book, hash, r,
                 if found.Some? then Received(found.value, amount) else NewReceived(e.paymentHash, amount));
      case SendLightning(_, requested, amount) =>
        PutOther(book, hash, r,
                 if found.Some? then found.value.(amountSentMsat := amount, status := Some(INIT))
                 else NewSend(e.paymentHash, requested, amount));
      case RequestGenerated(_, requested) => PutOther(book, hash, r, NewRequest(e.paymentHash, requested));
    }
  }

  lemma PaidAt(book: Book, hash: string, r: Row)
    requires HasPaid(book, hash, r)
    ensures Get(book, RowKey(BTC_LN, hash)) == Some(r) && r.status == Some(PAID)
  {
  }

  lemma ElectrumKeepsPaid(book: Book, e: Event, hash: string, r: Row)
    requires Filed(book) && HasPaid(book, hash, r) && IsElectrum(e)
    ensures HasPaid(BookStep(book, e), hash, r)
  {
    hide Filed, Put, HasPaid;
    FiledAt(book, RowKey(BTC_ONCHAIN, e.txid));
    var found := Get(book, RowKey(BTC_ONCHAIN, e.txid));
    match e
    case TransactionReceived(txid, received, sent, _, _, _) =>
      var direction := TxDirection(received, sent);
      var base := if found.Some? && found.value.direction == direction then found.value
          else BlankRow(BTC_ONCHAIN, direction, txid);
      PutOther(book, hash, r, OnchainRow(base, e));
    case TransactionConfidenceChanged(_, depth) =>
      if found.Some? {
        PutOther(book, hash, r, found.value.(confidenceBlocks := ToInt32(depth)));
      }
  }

  lemma MaintenanceKeepsPaid(book: Book, e: Event, hash: string, r: Row)
    requires Filed(book) && HasPaid(book, hash, r) && IsMaintenance(e)
    ensures HasPaid(BookStep(book, e), hash, r)
  {
    FiledAt(book, RowKey(BTC_LN, hash));
  }

  lemma MarkingKeepsPaid(book: Book, e: Event, hash: string, r: Row)
    requires Filed(book) && HasPaid(book, hash, r) && (e.ChannelRestored? || e.ChannelSignatureSent?)
    ensures HasPaid(BookStep(book, e), hash, r)
  {
    hide BookMarkPending, HasPaid, Filed;
    match e
    case ChannelRestored(_, _, _, htlcs) => MarkKeepsPaid(book, htlcs, true, hash, r);
    case ChannelSignatureSent(next) => if next.Some? { MarkKeepsPaid(book, next.value, false, hash, r); }
  }

  lemma StepKeepsPaid(book: Book, e: Event, hash: string, r: Row)
    requires Filed(book) && HasPaid(book, hash, r) && !Rewrites(e, hash)
    ensures Filed(BookStep(book, e)) && HasPaid(BookStep(book, e), hash, r)
  {
    hide BookStep, HasPaid, Filed, PhaseIn, PhaseStep;
    StepPhase(book, e, hash);
    if IsMaintenance(e) {
      MaintenanceKeepsPaid(book, e, hash, r);
    } else if IsElectrum(e) {
      ElectrumKeepsPaid(book, e, hash, r);
    } else if e.ChannelRestored? || e.ChannelSignatureSent? {
      MarkingKeepsPaid(book, e, hash, r);
    } else if e.PaymentFailed? || e.PaymentSent? || e.PaymentReceived? || e.SendLightning? || e.RequestGenerated? {
      LightningKeepsPaid(book, e, hash, r);
    } else {
      ChannelEventPhase(book, e, hash);
    }
  }

  lemma {:induction false} RunKeepsPaid(book: Book, events: seq<Event>, hash: string, r: Row)
    requires Filed(book) && HasPaid(book, hash, r)
    requires forall i :: 0 <= i < |events| ==> !Rewrites(events[i], hash)
    ensures HasPaid(BookRun(book, events), hash, r)
    decreases |events|
  {
    if events != [] {
      StepKeepsPaid(book, events[0], hash, r);
      RunKeepsPaid(BookStep(book, events[0]), events[1..], hash, r);
    }
  }

  lemma RowIsListed(t: Table, book: Book, hash: string)
    requires WellFormed(t) && Lists(t, book)
    ensures LightningRow(t, hash) == Get(book, RowKey(BTC_LN, hash))
  {
    LookupReads(t, book, hash, BTC_LN, None);
  }

  /** The whole row of a paid payment is untouched by any run that neither settles it again nor generates its hash
      anew. */
  lemma PaidRowIsKept(t: Table, events: seq<Event>, hash: string, r: Row)
    requires WellFormed(t) && LightningRow(t, hash) == Some(r) && r.status == Some(PAID)
    requires forall i :: 0 <= i < |events| ==> !Rewrites(events[i], hash)
    ensures LightningRow(TableRun(t, events), hash) == Some(r)
  {
    hide WellFormed, Lists, TableRun, BookRun;
    var book := BookOf(t);
    RunRefines(t, book, events);
    RowIsListed(t, book, hash);
    RowIsListed(TableRun(t, events), BookRun(book, events), hash);
    RunKeepsPaid(book, events, hash, r);
  }

  lemma PayingWrites(t: Table, e: Event, before: Row)
    requires WellFormed(t) && e.PaymentSent? && LightningRow(t, e.paymentHash) == Some(before)
    ensures WellFormed(TableStep(t, e))
    ensures LightningRow(TableStep(t, e), e.paymentHash)
         == Some(Paid(before, e.amountWithFeesMsat, e.feesMsat, e.preimage))
  {
    hide WellFormed, Lists, TableStep, BookStep, LightningRow, Paid;
    var book := BookOf(t);
    StepRefines(t, book, e);
    RowIsListed(t, book, e.paymentHash);
    RowIsListed(TableStep(t, e), BookStep(book, e), e.paymentHash);
    PayingWritesOn(book, e, before);
  }

  lemma PayingWritesOn(book: Book, e: Event, before: Row)
    requires Filed(book) && e.PaymentSent? && Get(book, RowKey(BTC_LN, e.paymentHash)) == Some(before)
    ensures Get(BookStep(book, e), RowKey(BTC_LN, e.paymentHash))
         == Some(Paid(before, e.amountWithFeesMsat, e.feesMsat, e.preimage))
  {
    FiledAt(book, RowKey(BTC_LN, e.paymentHash));
    hide Filed;
  }

  /** Paying a stored payment leaves the receipt: the amount with fees, the fees and the preimage, with what was asked
      and sent before. */
  lemma ReceiptIsKept(t: Table, e: Event, events: seq<Event>, before: Row)
    requires WellFormed(t) && e.PaymentSent? && LightningRow(t, e.paymentHash) == Some(before)
    requires forall i :: 0 <= i < |events| ==> !Rewrites(events[i], e.paymentHash)
    ensures var after := LightningRow(TableRun(t, [e] + events), e.paymentHash);
            && after.Some?
            && after.value.status == Some(PAID) && after.value.preimage == Some(e.preimage)
            && after.value.amountPaidMsat == e.amountWithFeesMsat && after.value.feesPaidMsat == e.feesMsat
            && after.value.amountRequestedMsat == before.amountRequestedMsat
            && after.value.amountSentMsat == before.amountSentMsat && after.value.direction == before.direction
  {
    PayingWrites(t, e, before);
    assert ([e] + events)[1..] == events;
    hide WellFormed, TableStep, LightningRow, Rewrites;
    PaidRowIsKept(
      TableStep(t, e), events, e.paymentHash, Paid(before, e.amountWithFeesMsat, e.feesMsat, e.preimage));
  }
}
