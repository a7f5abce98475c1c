/** What each event does to the payments table, and the same on a plain map from (type, reference) to row. */
module Ledger {
  import opened Wrappers
  import opened Events
  import opened Payments

  type Book = map<RowKey, Row>

  // ---- how a fetched row changes

  function Paid(r: Row, amountMsat: int, feesMsat: int, preimage: string): Row {
    r.(preimage := Some(preimage), amountPaidMsat := amountMsat, feesPaidMsat := feesMsat, status := Some(PAID))
  }

  function Received(r: Row, amountMsat: int): Row {
    r.(amountPaidMsat := amountMsat, status := Some(PAID))
  }

  function NewReceived(hash: string, amountMsat: int): Row {
    Received(BlankRow(BTC_LN, RECEIVED, hash), amountMsat)
  }

  function NewSend(hash: string, requestedMsat: int, amountMsat: int): Row {
    BlankRow(BTC_LN, SENT, hash).(
      amountRequestedMsat := requestedMsat, amountSentMsat := amountMsat, status := Some(INIT))
  }

  function NewRequest(hash: string, requestedMsat: int): Row {
    BlankRow(BTC_LN, RECEIVED, hash).(amountRequestedMsat := requestedMsat, status := Some(INIT))
  }

  function TxDirection(receivedSat: int, sentSat: int): Direction {
    if receivedSat >= sentSat then RECEIVED else SENT
  }

  function OnchainRow(base: Row, e: Event): Row
    requires e.TransactionReceived?
  {
    base.(
      feesPaidMsat :=
        if TxDirection(e.receivedSat, e.sentSat) == SENT then (if e.feeSat.Some? then e.feeSat.value else 0) * 1000
        else base.feesPaidMsat,
      txPayload := Some(e.payload),
      amountPaidMsat :=
        (if e.receivedSat >= e.sentSat then e.receivedSat - e.sentSat else e.sentSat - e.receivedSat) * 1000,
      confidenceBlocks := ToInt32(e.depth))
  }

  /** What the sending thread decides from the row it finds. */
  datatype SendDecision = Dispatch | AlreadyPending | AlreadyPaid | UnhandledState

  function Decide(found: Option<Row>): SendDecision {
    match found
    case None => Dispatch
    case Some(r) =>
      match r.status
      case Some(INIT) => AlreadyPending
      case Some(PENDING) => AlreadyPending
      case Some(PAID) => AlreadyPaid
      case Some(FAILED) => Dispatch
      case None => UnhandledState
  }

  // ---- on the table

  ghost function Lookup(t: Table, reference: string, ptype: PaymentType, direction: Option<Direction>): (r: Option<nat>)
    ensures r.Some? ==> r.value in Query(t, reference, ptype, direction)
    ensures r.None? ==> Query(t, reference, ptype, direction) == {}
  {
    if i :| i in Query(t, reference, ptype, direction) then Some(i) else None
  }

  ghost function MarkPending(t: Table, htlcs: seq<Htlc>, outgoing: bool): Table
    decreases |htlcs|
  {
    if htlcs == [] then t
    else
      var next := if htlcs[0].outgoing == outgoing then MarkOnePending(t, htlcs[0].paymentHash) else t;
      MarkPending(next, htlcs[1..], outgoing)
  }

  ghost function MarkOnePending(t: Table, hash: string): Table {
    match Lookup(t, hash, BTC_LN, None)
    case Some(i) =>
      if t.rows[i].status == Some(INIT) then InsertOrReplace(t, Some(i), t.rows[i].(status := Some(PENDING))) else t
    case None => t
  }

  ghost function FailIn(t: Table, hash: string): Table {
    match Lookup(t, hash, BTC_LN, None)
    case Some(i) =>
      if t.rows[i].status == Some(PAID) then t else InsertOrReplace(t, Some(i), t.rows[i].(status := Some(FAILED)))
    case None => t
  }

  ghost function PayIn(t: Table, hash: string, amountMsat: int, feesMsat: int, preimage: string): Table {
    match Lookup(t, hash, BTC_LN, None)
    case Some(i) => InsertOrReplace(t, Some(i), Paid(t.rows[i], amountMsat, feesMsat, preimage))
    case None => t
  }

  ghost function ReceiveIn(t: Table, hash: string, amountMsat: int): Table {
    match Lookup(t, hash, BTC_LN, None)
    case Some(i) => InsertOrReplace(t, Some(i), Received(t.rows[i], amountMsat))
    case None => InsertOrReplace(t, None, NewReceived(hash, amountMsat))
  }

  ghost function SendIn(t: Table, hash: string, requestedMsat: int, amountMsat: int): Table {
    match Lookup(t, hash, BTC_LN, None)
    case Some(i) =>
      if Decide(Some(t.rows[i])) == Dispatch
      then InsertOrReplace(t, Some(i), t.rows[i].(amountSentMsat := amountMsat, status := Some(INIT)))
      else t
    case None => InsertOrReplace(t, None, NewSend(hash, requestedMsat, amountMsat))
  }

  ghost function TransactionIn(t: Table, e: Event): Table
    requires e.TransactionReceived?
  {
    var direction := TxDirection(e.receivedSat, e.sentSat);
    var found := Lookup(t, e.txid, BTC_ONCHAIN, Some(direction));
    var base := if found.Some? then t.rows[found.value] else BlankRow(BTC_ONCHAIN, direction, e.txid);
    InsertOrReplace(t, found, OnchainRow(base, e))
  }

  ghost function ConfidenceIn(t: Table, txid: string, depth: int): Table {
    match Lookup(t, txid, BTC_ONCHAIN, None)
    case Some(i) => Update(t, i, t.rows[i].(confidenceBlocks := ToInt32(depth)))
    case None => t
  }

  function CleanLightning(t: Table): Table { DeleteWhere(t, IsInitLightning) }

  function CleanZeroConfs(t: Table): Table { DeleteWhere(t, IsZeroConf) }

  ghost function TableStep(t: Table, e: Event): Table {
    match e
    case ChannelRestored(_, _, _, htlcs) => MarkPending(t, htlcs, true)
    case ChannelSignatureSent(next) => if next.Some? then MarkPending(t, next.value, false) else t
    case PaymentFailed(hash) => FailIn(t, hash)
    case PaymentSent(hash, amount, fees, preimage) => PayIn(t, hash, amount, fees, preimage)
    case PaymentReceived(hash, amount) => ReceiveIn(t, hash, amount)
    case TransactionReceived(_, _, _, _, _, _) => TransactionIn(t, e)
    case TransactionConfidenceChanged(txid, depth) => ConfidenceIn(t, txid, depth)
    case SendLightning(hash, requested, amount) => SendIn(t, hash, requested, amount)
    case RequestGenerated(hash, requested) => InsertOrReplace(t, None, NewRequest(hash, requested))
    case Restart => CleanZeroConfs(CleanLightning(t))
    case Checkup => CleanZeroConfs(t)
    case DeleteAllOnchainTxs => DeleteWhere(t, IsOnchain)
    case _ => t
  }

  /** The payment is handed to the node. */
  ghost predicate Dispatches(t: Table, e: Event) {
    && e.SendLightning?
    && var found := Lookup(t, e.paymentHash, BTC_LN, None);
       Decide(if found.Some? then Some(t.rows[found.value]) else None) == Dispatch
  }

  ghost function TableRun(t: Table, events: seq<Event>): Table
    decreases |events|
  {
    if events == [] then t else TableRun(TableStep(t, events[0]), events[1..])
  }

  // ---- on the map

  function Get(book: Book, k: RowKey): Option<Row> { if k in book then Some(book[k]) else None }

  function Put(book: Book, r: Row): Book { book[r.Key() := r] }

  function BookMarkPending(book: Book, htlcs: seq<Htlc>, outgoing: bool): Book
    decreases |htlcs|
  {
    if htlcs == [] then book
    else
      var next := if htlcs[0].outgoing == outgoing then BookMarkOnePending(book, htlcs[0].paymentHash) else book;
      BookMarkPending(next, htlcs[1..], outgoing)
  }

  function BookMarkOnePending(book: Book, hash: string): Book {
    match Get(book, RowKey(BTC_LN, hash))
    case Some(r) => if r.status == Some(INIT) then Put(book, r.(status := Some(PENDING))) else book
    case None => book
  }

  function Without(book: Book, p: Row -> bool): Book {
    map k | k in book && !p(book[k]) :: book[k]
  }

  function BookFail(book: Book, hash: string): Book {
    match Get(book, RowKey(BTC_LN, hash))
    case Some(r) => if r.status == Some(PAID) then book else Put(book, r.(status := Some(FAILED)))
    case None => book
  }

  function BookPay(book: Book, hash: string, amountMsat: int, feesMsat: int, preimage: string): Book {
    match Get(book, RowKey(BTC_LN, hash))
    case Some(r) => Put(book, Paid(r, amountMsat, feesMsat, preimage))
    case None => book
  }

  function BookReceive(book: Book, hash: string, amountMsat: int): Book {
    match Get(book, RowKey(BTC_LN, hash))
    case Some(r) => Put(book, Received(r, amountMsat))
    case None => Put(book, NewReceived(hash, amountMsat))
  }

  function BookSend(book: Book, hash: string, requestedMsat: int, amountMsat: int): Book {
    match Get(book, RowKey(BTC_LN, hash))
    case Some(r) =>
      if Decide(Some(r)) == Dispatch then Put(book, r.(amountSentMsat := amountMsat, status := Some(INIT)))
      else book
    case None => Put(book, NewSend(hash, requestedMsat, amountMsat))
  }

  function BookTransaction(book: Book, e: Event): Book
    requires e.TransactionReceived?
  {
    var direction := TxDirection(e.receivedSat, e.sentSat);
    var found := Get(book, RowKey(BTC_ONCHAIN, e.txid));
    var base := if found.Some? && found.value.direction == direction then found.value
        else BlankRow(BTC_ONCHAIN, direction, e.txid);
    Put(book, OnchainRow(base, e))
  }

  function BookConfidence(book: Book, txid: string, depth: int): Book {
    match Get(book, RowKey(BTC_ONCHAIN, txid))
    case Some(r) => Put(book, r.(confidenceBlocks := ToInt32(depth)))
    case None => book
  }

  function BookStep(book: Book, e: Event): Book {
    match e
    case ChannelRestored(_, _, _, htlcs) => BookMarkPending(book, htlcs, true)
    case ChannelSignatureSent(next) => if next.Some? then BookMarkPending(book, next.value, false) else book
    case PaymentFailed(hash) => BookFail(book, hash)
    case PaymentSent(hash, amount, fees, preimage) => BookPay(book, hash, amount, fees, preimage)
    case PaymentReceived(hash, amount) => BookReceive(book, hash, amount)
    case TransactionReceived(_, _, _, _, _, _) => BookTransaction(book, e)
    case TransactionConfidenceChanged(txid, depth) => BookConfidence(book, txid, depth)
    case SendLightning(hash, requested, amount) => BookSend(book, hash, requested, amount)
    case RequestGenerated(hash, requested) => Put(book, NewRequest(hash, requested))
    case Restart => Without(Without(book, IsInitLightning), IsZeroConf)
    case Checkup => Without(book, IsZeroConf)
    case DeleteAllOnchainTxs => Without(book, IsOnchain)
    case _ => book
  }

  predicate BookDispatches(book: Book, e: Event) {
    e.SendLightning? && Decide(Get(book, RowKey(BTC_LN, e.paymentHash))) == Dispatch
  }

  function BookRun(book: Book, events: seq<Event>): Book
    decreases |events|
  {
    if events == [] then book else BookRun(BookStep(book, events[0]), events[1..])
  }

  /** Every row is filed under its own key. */
  ghost predicate Filed(book: Book) {
    forall k :: k in book ==> book[k].Key() == k
  }

  // ---- the table refines the map

  /** A lookup by (type, reference) reads the map; the direction only filters what it found. */
  lemma LookupReads(t: Table, book: Book, reference: string, ptype: PaymentType, direction: Option<Direction>)
    requires WellFormed(t) && Lists(t, book)
    ensures var found := Lookup(t, reference, ptype, direction);
            var row := Get(book, RowKey(ptype, reference));
            if row.Some? && (direction == None || direction == Some(row.value.direction))
            then found.Some? && found.value in t.rows && t.rows[found.value] == row.value
            else found.None?
  {
    var k := RowKey(ptype, reference);
    if k in book {
      assert HasKey(t, k);
      var i :| i in t.rows && t.rows[i].Key() == k;
      if direction == None || direction == Some(t.rows[i].direction) {
        assert i in Query(t, reference, ptype, direction);
      }
    }
  }

  lemma MarkOneRefines(t: Table, book: Book, hash: string)
    requires WellFormed(t) && Lists(t, book)
    ensures WellFormed(MarkOnePending(t, hash)) && Lists(MarkOnePending(t, hash), BookMarkOnePending(book, hash))
  {
    LookupReads(t, book, hash, BTC_LN, None);
    var found := Lookup(t, hash, BTC_LN, None);
    if found.Some? {
      StoreLists(t, book, found, t.rows[found.value].(status := Some(PENDING)));
    }
  }

  lemma {:induction false} MarkRefines(t: Table, book: Book, htlcs: seq<Htlc>, outgoing: bool)
    requires WellFormed(t) && Lists(t, book)
    ensures WellFormed(MarkPending(t, htlcs, outgoing))
    ensures Lists(MarkPending(t, htlcs, outgoing), BookMarkPending(book, htlcs, outgoing))
    decreases |htlcs|
  {
    if htlcs != [] {
      var hash := htlcs[0].paymentHash;
      if htlcs[0].outgoing == outgoing {
        MarkOneRefines(t, book, hash);
        MarkRefines(MarkOnePending(t, hash), BookMarkOnePending(book, hash), htlcs[1..], outgoing);
      } else {
        MarkRefines(t, book, htlcs[1..], outgoing);
      }
    }
  }

  /** A found row is replaced by a version of itself; a new row is filed under its own key. */
  lemma FailRefines(t: Table, book: Book, hash: string)
    requires WellFormed(t) && Lists(t, book)
    ensures WellFormed(FailIn(t, hash)) && Lists(FailIn(t, hash), BookFail(book, hash))
  {
    LookupReads(t, book, hash, BTC_LN, None);
    var found := Lookup(t, hash, BTC_LN, None);
    if found.Some? {
      StoreLists(t, book, found, t.rows[found.value].(status := Some(FAILED)));
    }
  }

  lemma PayRefines(t: Table, book: Book, hash: string, amountMsat: int, feesMsat: int, preimage: string)
    requires WellFormed(t) && Lists(t, book)
    ensures WellFormed(PayIn(t, hash, amountMsat, feesMsat, preimage))
    ensures Lists(PayIn(t, hash, amountMsat, feesMsat, preimage), BookPay(book, hash, amountMsat, feesMsat, preimage))
  {
    LookupReads(t, book, hash, BTC_LN, None);
    var found := Lookup(t, hash, BTC_LN, None);
    if found.Some? {
      StoreLists(t, book, found, Paid(t.rows[found.value], amountMsat, feesMsat, preimage));
    }
  }

  lemma ReceiveRefines(t: Table, book: Book, hash: string, amountMsat: int)
    requires WellFormed(t) && Lists(t, book)
    ensures WellFormed(ReceiveIn(t, hash, amountMsat))
            && Lists(ReceiveIn(t, hash, amountMsat), BookReceive(book, hash, amountMsat))
  {
    LookupReads(t, book, hash, BTC_LN, None);
    var found := Lookup(t, hash, BTC_LN, None);
    StoreLists(
      t, book, found,
      if found.Some? then Received(t.rows[found.value], amountMsat) else NewReceived(hash, amountMsat));
  }

  lemma SendRefines(t: Table, book: Book, hash: string, requestedMsat: int, amountMsat: int)
    requires WellFormed(t) && Lists(t, book)
    ensures WellFormed(SendIn(t, hash, requestedMsat, amountMsat))
    ensures Lists(SendIn(t, hash, requestedMsat, amountMsat), BookSend(book, hash, requestedMsat, amountMsat))
  {
    LookupReads(t, book, hash, BTC_LN, None);
    var found := Lookup(t, hash, BTC_LN, None);
    if found.Some? {
      StoreLists(t, book, found, t.rows[found.value].(amountSentMsat := amountMsat, status := Some(INIT)));
    } else {
      StoreLists(t, book, None, NewSend(hash, requestedMsat, amountMsat));
    }
  }

  lemma DispatchRefines(t: Table, book: Book, e: Event)
    requires WellFormed(t) && Lists(t, book)
    ensures Dispatches(t, e) == BookDispatches(book, e)
  {
    if e.SendLightning? {
      LookupReads(t, book, e.paymentHash, BTC_LN, None);
    }
  }

  lemma TransactionRefines(t: Table, book: Book, e: Event)
    requires WellFormed(t) && Lists(t, book)
    requires e.TransactionReceived?
    ensures WellFormed(TransactionIn(t, e)) && Lists(TransactionIn(t, e), BookTransaction(book, e))
  {
    var direction := TxDirection(e.receivedSat, e.sentSat);
    LookupReads(t, book, e.txid, BTC_ONCHAIN, Some(direction));
    var found := Lookup(t, e.txid, BTC_ONCHAIN, Some(direction));
    var base := if found.Some? then t.rows[found.value] else BlankRow(BTC_ONCHAIN, direction, e.txid);
    StoreLists(t, book, found, OnchainRow(base, e));
  }

  lemma ConfidenceRefines(t: Table, book: Book, txid: string, depth: int)
    requires WellFormed(t) && Lists(t, book)
    ensures WellFormed(ConfidenceIn(t, txid, depth))
            && Lists(ConfidenceIn(t, txid, depth), BookConfidence(book, txid, depth))
  {
    LookupReads(t, book, txid, BTC_ONCHAIN, None);
    var found := Lookup(t, txid, BTC_ONCHAIN, None);
    if found.Some? {
      UpdateLists(t, book, found.value, t.rows[found.value].(confidenceBlocks := ToInt32(depth)));
    }
  }

  lemma CleanUpRefines(t: Table, book: Book)
    requires WellFormed(t) && Lists(t, book)
    ensures WellFormed(CleanLightning(t)) && Lists(CleanLightning(t), Without(book, IsInitLightning))
    ensures WellFormed(CleanZeroConfs(t)) && Lists(CleanZeroConfs(t), Without(book, IsZeroConf))
    ensures WellFormed(DeleteWhere(t, IsOnchain)) && Lists(DeleteWhere(t, IsOnchain), Without(book, IsOnchain))
  {
    DeleteLists(t, book, IsInitLightning);
    DeleteLists(t, book, IsZeroConf);
    DeleteLists(t, book, IsOnchain);
  }

  predicate IsMaintenance(e: Event) { e.Restart? || e.Checkup? || e.DeleteAllOnchainTxs? }

  predicate IsElectrum(e: Event) { e.TransactionReceived? || e.TransactionConfidenceChanged? }

  lemma MaintenanceRefines(t: Table, book: Book, e: Event)
    requires WellFormed(t) && Lists(t, book)
    requires IsMaintenance(e)
    ensures WellFormed(TableStep(t, e)) && Lists(TableStep(t, e), BookStep(book, e))
  {
    hide Lists, WellFormed, DeleteWhere, Without;
    CleanUpRefines(t, book);
    CleanUpRefines(CleanLightning(t), Without(book, IsInitLightning));
  }

  lemma ElectrumRefines(t: Table, book: Book, e: Event)
    requires WellFormed(t) && Lists(t, book)
    requires IsElectrum(e)
    ensures WellFormed(TableStep(t, e)) && Lists(TableStep(t, e), BookStep(book, e))
  {
    hide Lists, WellFormed, TransactionIn, ConfidenceIn, BookTransaction, BookConfidence;
    match e
    case TransactionReceived(_, _, _, _, _, _) => TransactionRefines(t, book, e);
    case TransactionConfidenceChanged(txid, depth) => ConfidenceRefines(t, book, txid, depth);
  }

  lemma LightningRefines(t: Table, book: Book, e: Event)
    requires WellFormed(t) && Lists(t, book)
    requires !IsMaintenance(e) && !IsElectrum(e)
    ensures WellFormed(TableStep(t, e)) && Lists(TableStep(t, e), BookStep(book, e))
  {
    hide Lists, WellFormed, InsertOrReplace;
    match e
    case ChannelRestored(_, _, _, htlcs) => MarkRefines(t, book, htlcs, true);
    case ChannelSignatureSent(next) => if next.Some? { MarkRefines(t, book, next.value, false); }
    case PaymentFailed(hash) => FailRefines(t, book, hash);
    case PaymentSent(hash, amount, fees, preimage) => PayRefines(t, book, hash, amount, fees, preimage);
    case PaymentReceived(hash, amount) => ReceiveRefines(t, book, hash, amount);
    case SendLightning(hash, requested, amount) => SendRefines(t, book, hash, requested, amount);
    case RequestGenerated(hash, requested) => StoreLists(t, book, None, NewRequest(hash, requested));
    case _ =>
  }

  /** Every event keeps one row per (type, reference), and acts on the table as on the map. */
  lemma StepRefines(t: Table, book: Book, e: Event)
    requires WellFormed(t) && Lists(t, book)
    ensures WellFormed(TableStep(t, e)) && Lists(TableStep(t, e), BookStep(book, e))
    ensures Dispatches(t, e) == BookDispatches(book, e)
  {
    DispatchRefines(t, book, e);
    if IsMaintenance(e) {
      MaintenanceRefines(t, book, e);
    } else if IsElectrum(e) {
      ElectrumRefines(t, book, e);
    } else {
      LightningRefines(t, book, e);
    }
  }

  lemma {:induction false} RunRefines(t: Table, book: Book, events: seq<Event>)
    requires WellFormed(t) && Lists(t, book)
    ensures WellFormed(TableRun(t, events)) && Lists(TableRun(t, events), BookRun(book, events))
    decreases |events|
  {
    if events != [] {
      StepRefines(t, book, events[0]);
      RunRefines(TableStep(t, events[0]), BookStep(book, events[0]), events[1..]);
    }
  }

  /** In every run from the empty database, both lookups select at most one row. */
  lemma LookupsNeverThrow(events: seq<Event>, reference: string, ptype: PaymentType, direction: Option<Direction>)
    ensures |Query(TableRun(EMPTY, events), reference, ptype, direction)| <= 1
  {
    RunRefines(EMPTY, map[], events);
    QueryIsUnique(TableRun(EMPTY, events), reference, ptype, direction);
  }
}
