/** The stored on-chain balance against what the wallet last reported for each transaction. */
module OnchainBalance {
  import opened Wrappers
  import opened Events
  import opened Payments
  import opened Ledger
  import opened PaymentLife
  import opened Sums

  // ---- the stored balance, as the two SUM queries compute it

  function AmountsWhere(t: Table, direction: Direction): map<nat, int> {
    map i | i in t.rows && t.rows[i].ptype == BTC_ONCHAIN && t.rows[i].direction == direction ::
      t.rows[i].amountPaidMsat
  }

  ghost function StoredBalance(t: Table): int {
    var net := Sum(AmountsWhere(t, RECEIVED)) - Sum(AmountsWhere(t, SENT));
    if net > 0 then net else 0
  }

  // ---- what the wallet reported

  /** The latest report on a transaction: what it brought to the wallet, and its depth. */
  datatype Report = Report(deltaMsat: int, depth: int)

  type Reports = map<string, Report>

  function ReportsStep(seen: Reports, e: Event): Reports {
    match e
    case TransactionReceived(txid, received, sent, depth, _, _) =>
      seen[txid := Report(1000 * (received - sent), ToInt32(depth))]
    case TransactionConfidenceChanged(txid, depth) =>
      if txid in seen then seen[txid := seen[txid].(depth := ToInt32(depth))] else seen
    case Restart => Confirmed(seen)
    case Checkup => Confirmed(seen)
    case DeleteAllOnchainTxs => map[]
    case _ => seen
  }

  function Confirmed(seen: Reports): Reports { map txid | txid in seen && seen[txid].depth != 0 :: seen[txid] }

  function ReportsRun(seen: Reports, events: seq<Event>): Reports
    decreases |events|
  {
    if events == [] then seen else ReportsRun(ReportsStep(seen, events[0]), events[1..])
  }

  function Deltas(seen: Reports): map<string, int> { map txid | txid in seen :: seen[txid].deltaMsat }

  // ---- the rows carry the reports

  function SignedMsat(r: Row): int { if r.direction == RECEIVED then r.amountPaidMsat else -r.amountPaidMsat }

  function SignedAmounts(t: Table): map<nat, int> {
    map i | i in t.rows && t.rows[i].ptype == BTC_ONCHAIN :: SignedMsat(t.rows[i])
  }

  predicate Carries(r: Row, report: Report) {
    r.direction != FORWARDED && SignedMsat(r) == report.deltaMsat && r.confidenceBlocks == report.depth
  }

  ghost predicate CarriesAll(book: Book, seen: Reports) {
    && (forall txid :: txid in seen ==>
         RowKey(BTC_ONCHAIN, txid) in book && Carries(book[RowKey(BTC_ONCHAIN, txid)], seen[txid]))
    && (forall k :: k in book && k.ptype == BTC_ONCHAIN ==> k.reference in seen)
  }

  lemma PutLightning(book: Book, seen: Reports, r: Row)
    requires CarriesAll(book, seen) && Filed(book) && r.ptype == BTC_LN
    ensures CarriesAll(Put(book, r), seen) && Filed(Put(book, r))
  {
  }

  lemma PutOnchain(book: Book, seen: Reports, r: Row, report: Report)
    requires CarriesAll(book, seen) && Filed(book) && r.ptype == BTC_ONCHAIN && Carries(r, report)
    ensures CarriesAll(Put(book, r), seen[r.reference := report]) && Filed(Put(book, r))
  {
  }

  lemma {:induction false} MarkCarries(book: Book, seen: Reports, htlcs: seq<Htlc>, outgoing: bool)
    requires CarriesAll(book, seen) && Filed(book)
    ensures CarriesAll(BookMarkPending(book, htlcs, outgoing), seen) && Filed(BookMarkPending(book, htlcs, outgoing))
    decreases |htlcs|
  {
    hide CarriesAll, Filed;
    if htlcs != [] {
      var hash := htlcs[0].paymentHash;
      FiledAt(book, RowKey(BTC_LN, hash));
      var found := Get(book, RowKey(BTC_LN, hash));
      if found.Some? {
        PutLightning(book, seen, found.value.(status := Some(PENDING)));
      }
      var next := if htlcs[0].outgoing == outgoing then BookMarkOnePending(book, hash) else book;
      MarkCarries(next, seen, htlcs[1..], outgoing);
    }
  }

  lemma LightningCarries(book: Book, seen: Reports, e: Event)
    requires CarriesAll(book, seen) && Filed(book) && !IsElectrum(e) && !IsMaintenance(e)
    ensures CarriesAll(BookStep(book, e), seen) && Filed(BookStep(book, e))
  {
    hide CarriesAll, Filed, BookMarkPending, Put;
    match e
    case ChannelRestored(_, _, _, htlcs) => MarkCarries(book, seen, htlcs, true);
    case ChannelSignatureSent(next) => if next.Some? { MarkCarries(book, seen, next.value, false); }
    case PaymentFailed(hash) =>
      FiledAt(book, RowKey(BTC_LN, hash));
      var found := Get(book, RowKey(BTC_LN, hash));
      if found.Some? { PutLightning(book, seen, found.value.(status := Some(FAILED))); }
    case PaymentSent(hash, amount, fees, preimage) =>
      FiledAt(book, RowKey(BTC_LN, hash));
      var found := Get(book, RowKey(BTC_LN, hash));
      if found.Some? { PutLightning(book, seen, Paid(found.value, amount, fees, preimage)); }
    case PaymentReceived(hash, amount) =>
      FiledAt(book, RowKey(BTC_LN, hash));
      var found := Get(book, RowKey(BTC_LN, hash));
      PutLightning(book, seen, if found.Some? then Received(found.value, amount) else NewReceived(hash, amount));
    case SendLightning(hash, requested, amount) =>
      FiledAt(book, RowKey(BTC_LN, hash));
      var found := Get(book, RowKey(BTC_LN, hash));
      PutLightning(book, seen,
                   if found.Some? then found.value.(amountSentMsat := amount, status := Some(INIT))
                   else NewSend(hash, requested, amount));
    case RequestGenerated(hash, requested) => PutLightning(book, seen, NewRequest(hash, requested));
    case _ =>
  }

  /** A transaction that changes direction between two reports gets a row in place of the old one, not beside it. */
  lemma ElectrumCarries(book: Book, seen: Reports, e: Event)
    requires CarriesAll(book, seen) && Filed(book) && IsElectrum(e)
    ensures CarriesAll(BookStep(book, e), ReportsStep(seen, e)) && Filed(BookStep(book, e))
  {
    hide CarriesAll, Filed, Put;
    var found := Get(book, RowKey(BTC_ONCHAIN, e.txid));
    FiledAt(book, RowKey(BTC_ONCHAIN, e.txid));
    CarriedAt(book, seen, e.txid);
    match e
    case TransactionReceived(txid, received, sent, depth, _, _) =>
      var direction := TxDirection(received, sent);
      var base := if found.Some? && found.value.direction == direction then found.value
          else BlankRow(BTC_ONCHAIN, direction, txid);
      PutOnchain(book, seen, OnchainRow(base, e), Report(1000 * (received - sent), ToInt32(depth)));
    case TransactionConfidenceChanged(txid, depth) =>
      if found.Some? {
        PutOnchain(book, seen, found.value.(confidenceBlocks := ToInt32(depth)), seen[txid].(depth := ToInt32(depth)));
      }
  }

  lemma CarriedAt(book: Book, seen: Reports, txid: string)
    requires CarriesAll(book, seen)
    ensures txid in seen <==> RowKey(BTC_ONCHAIN, txid) in book
    ensures txid in seen ==> Carries(book[RowKey(BTC_ONCHAIN, txid)], seen[txid])
  {
  }

  lemma CleanUpCarries(book: Book, seen: Reports)
    requires CarriesAll(book, seen) && Filed(book)
    ensures CarriesAll(Without(book, IsInitLightning), seen) && Filed(Without(book, IsInitLightning))
    ensures CarriesAll(Without(book, IsZeroConf), Confirmed(seen)) && Filed(Without(book, IsZeroConf))
    ensures CarriesAll(Without(book, IsOnchain), map[]) && Filed(Without(book, IsOnchain))
  {
  }

  lemma MaintenanceCarries(book: Book, seen: Reports, e: Event)
    requires CarriesAll(book, seen) && Filed(book) && IsMaintenance(e)
    ensures CarriesAll(BookStep(book, e), ReportsStep(seen, e)) && Filed(BookStep(book, e))
  {
    hide CarriesAll, Filed, Without, Confirmed;
    CleanUpCarries(book, seen);
    CleanUpCarries(Without(book, IsInitLightning), seen);
  }

  lemma {:induction false} RunCarries(book: Book, seen: Reports, events: seq<Event>)
    requires CarriesAll(book, seen) && Filed(book)
    ensures CarriesAll(BookRun(book, events), ReportsRun(seen, events)) && Filed(BookRun(book, events))
    decreases |events|
  {
    hide CarriesAll, Filed, BookStep;
    if events != [] {
      var e := events[0];
      if IsMaintenance(e) {
        MaintenanceCarries(book, seen, e);
      } else if IsElectrum(e) {
        ElectrumCarries(book, seen, e);
      } else {
        LightningCarries(book, seen, e);
      }
      RunCarries(BookStep(book, e), ReportsStep(seen, e), events[1..]);
    }
  }

  // ---- the sums agree

  lemma NetIsSigned(t: Table)
    requires forall i :: i in t.rows && t.rows[i].ptype == BTC_ONCHAIN ==> t.rows[i].direction != FORWARDED
    ensures Sum(AmountsWhere(t, RECEIVED)) - Sum(AmountsWhere(t, SENT)) == Sum(SignedAmounts(t))
  {
    var incoming, outgoing := AmountsWhere(t, RECEIVED), AmountsWhere(t, SENT);
    var negated := map i | i in outgoing :: -outgoing[i];
    SumNegate(outgoing, negated);
    SumSplit(SignedAmounts(t), incoming, negated);
  }

  lemma SignedIsDeltas(t: Table, book: Book, seen: Reports)
    requires WellFormed(t) && Lists(t, book) && CarriesAll(book, seen)
    ensures forall i :: i in t.rows && t.rows[i].ptype == BTC_ONCHAIN ==> t.rows[i].direction != FORWARDED
    ensures Sum(SignedAmounts(t)) == Sum(Deltas(seen))
  {
    var signed := SignedAmounts(t);
    var txids := map i | i in signed :: t.rows[i].reference;
    forall i | i in signed ensures txids[i] in seen && Carries(t.rows[i], seen[txids[i]]) {
      assert t.rows[i].Key() in book;
    }
    forall txid | txid in Deltas(seen) ensures exists i :: i in signed && txids[i] == txid {
      assert HasKey(t, RowKey(BTC_ONCHAIN, txid));
      var i :| i in t.rows && t.rows[i].Key() == RowKey(BTC_ONCHAIN, txid);
      assert i in signed && txids[i] == txid;
    }
    SumReindex(signed, Deltas(seen), txids);
  }

  function Floored(net: int): int { if net > 0 then net else 0 }

  lemma CarriedBalance(t: Table, book: Book, seen: Reports)
    requires WellFormed(t) && Lists(t, book) && CarriesAll(book, seen)
    ensures StoredBalance(t) == Floored(Sum(Deltas(seen)))
  {
    SignedIsDeltas(t, book, seen);
    hide WellFormed, Lists, CarriesAll;
    NetIsSigned(t);
  }

  /** After any run, the stored balance is the sum of the latest reports on the transactions that survived the
      clean-ups, floored at zero. */
  lemma BalanceIsSumOfReports(events: seq<Event>)
    ensures StoredBalance(TableRun(EMPTY, events)) == Floored(Sum(Deltas(ReportsRun(map[], events))))
  {
    RunRefines(EMPTY, map[], events);
    RunCarries(map[], map[], events);
    hide *;
    CarriedBalance(TableRun(EMPTY, events), BookRun(map[], events), ReportsRun(map[], events));
  }
}
