/** The life of one Lightning payment hash through any run of events. */
module PaymentLife {
  import opened Wrappers
  import opened Events
  import opened Payments
  import opened Ledger

  datatype Phase = Absent | Unknown | At(status: Status)

  function PhaseOf(row: Option<Row>): Phase {
    match row
    case None => Absent
    case Some(r) => if r.status.Some? then At(r.status.value) else Unknown
  }

  function PhaseIn(book: Book, hash: string): Phase { PhaseOf(Get(book, RowKey(BTC_LN, hash))) }

  /** The phase a user or an event sees in the table itself. */
  ghost function TablePhase(t: Table, hash: string): Phase {
    var found := Lookup(t, hash, BTC_LN, None);
    PhaseOf(if found.Some? then Some(t.rows[found.value]) else None)
  }

  // ---- the life cycle as an automaton over one hash

  predicate Mentions(htlcs: seq<Htlc>, hash: string, outgoing: bool) {
    exists i :: 0 <= i < |htlcs| && htlcs[i] == Htlc(outgoing, hash)
  }

  /** The commitment behind the event holds an HTLC we offered for this hash. */
  predicate ShowsOffer(e: Event, hash: string) {
    || (e.ChannelRestored? && Mentions(e.htlcs, hash, true))
    || (e.ChannelSignatureSent? && e.nextRemoteCommit.Some? && Mentions(e.nextRemoteCommit.value, hash, false))
  }

  predicate Fails(e: Event, hash: string) { e == PaymentFailed(hash) }

  predicate Settles(e: Event, hash: string) {
    (e.PaymentSent? || e.PaymentReceived?) && e.paymentHash == hash
  }

  function PhaseStep(p: Phase, e: Event, hash: string): Phase {
    if e.RequestGenerated? && e.paymentHash == hash then At(INIT)
    else if e.PaymentReceived? && e.paymentHash == hash then At(PAID)
    else match p
      case Absent => if e.SendLightning? && e.paymentHash == hash then At(INIT) else Absent
      case Unknown => if Settles(e, hash) then At(PAID) else if Fails(e, hash) then At(FAILED) else Unknown
      case At(PAID) => p
      case At(PENDING) => if Settles(e, hash) then At(PAID) else if Fails(e, hash) then At(FAILED) else p
      case At(FAILED) =>
        if Settles(e, hash) then At(PAID) else if e.SendLightning? && e.paymentHash == hash then At(INIT) else p
      case At(INIT) =>
        if Settles(e, hash) then At(PAID) else if Fails(e, hash) then At(FAILED)
        else if e.Restart? then Absent else if ShowsOffer(e, hash) then At(PENDING) else p
  }

  function PhaseRun(p: Phase, events: seq<Event>, hash: string): Phase
    decreases |events|
  {
    if events == [] then p else PhaseRun(PhaseStep(p, events[0], hash), events[1..], hash)
  }

  lemma {:induction false} MarkPhase(book: Book, htlcs: seq<Htlc>, outgoing: bool, hash: string)
    requires Filed(book)
    ensures Filed(BookMarkPending(book, htlcs, outgoing))
    ensures PhaseIn(BookMarkPending(book, htlcs, outgoing), hash)
         == if PhaseIn(book, hash) == At(INIT) && Mentions(htlcs, hash, outgoing) then At(PENDING)
             else PhaseIn(book, hash)
    decreases |htlcs|
  {
    if htlcs != [] {
      var h := htlcs[0];
      var next := if h.outgoing == outgoing then BookMarkOnePending(book, h.paymentHash) else book;
      MarkPhase(next, htlcs[1..], outgoing, hash);
      assert Mentions(htlcs, hash, outgoing) <==> h == Htlc(outgoing, hash) || Mentions(htlcs[1..], hash, outgoing) by {
        if Mentions(htlcs[1..], hash, outgoing) {
          var i :| 0 <= i < |htlcs[1..]| && htlcs[1..][i] == Htlc(outgoing, hash);
          assert htlcs[i + 1] == Htlc(outgoing, hash);
        }
        if Mentions(htlcs, hash, outgoing) {
          var i :| 0 <= i < |htlcs| && htlcs[i] == Htlc(outgoing, hash);
          assert i > 0 ==> htlcs[1..][i - 1] == Htlc(outgoing, hash);
        }
      }
    }
  }

  lemma PutPhase(book: Book, r: Row, hash: string)
    requires Filed(book)
    ensures Filed(Put(book, r))
    ensures PhaseIn(Put(book, r), hash)
         == if r.Key() == RowKey(BTC_LN, hash) then PhaseOf(Some(r)) else PhaseIn(book, hash)
  {
  }

  lemma MaintenancePhase(book: Book, e: Event, hash: string)
    requires Filed(book) && IsMaintenance(e)
    ensures Filed(BookStep(book, e))
    ensures PhaseIn(BookStep(book, e), hash) == PhaseStep(PhaseIn(book, hash), e, hash)
  {
  }

  lemma ElectrumPhase(book: Book, e: Event, hash: string)
    requires Filed(book) && IsElectrum(e)
    ensures Filed(BookStep(book, e))
    ensures PhaseIn(BookStep(book, e), hash) == PhaseIn(book, hash)
  {
    hide Filed, Put, PhaseIn;
    var found := Get(book, RowKey(BTC_ONCHAIN, e.txid));
    FiledAt(book, RowKey(BTC_ONCHAIN, e.txid));
    match e
    case TransactionReceived(txid, received, sent, _, _, _) =>
      var direction := TxDirection(received, sent);
      var base := if found.Some? && found.value.direction == direction then found.value
          else BlankRow(BTC_ONCHAIN, direction, txid);
      PutPhase(book, OnchainRow(base, e), hash);
    case TransactionConfidenceChanged(_, depth) =>
      if found.Some? {
        PutPhase(book, found.value.(confidenceBlocks := ToInt32(depth)), hash);
      }
  }

  lemma FiledAt(book: Book, k: RowKey)
    requires Filed(book)
    ensures k in book ==> book[k].Key() == k
  {
  }

  lemma PendingPhase(book: Book, e: Event, hash: string)
    requires Filed(book) && (e.ChannelRestored? || e.ChannelSignatureSent?)
    ensures Filed(BookStep(book, e))
    ensures PhaseIn(BookStep(book, e), hash) == PhaseStep(PhaseIn(book, hash), e, hash)
  {
    hide BookMarkPending, PhaseIn, Filed, Mentions;
    match e
    case ChannelRestored(_, _, _, htlcs) => MarkPhase(book, htlcs, true, hash);
    case ChannelSignatureSent(next) => if next.Some? { MarkPhase(book, next.value, false, hash); }
  }

  lemma FailPhase(book: Book, failed: string, hash: string)
    requires Filed(book)
    ensures Filed(BookFail(book, failed))
    ensures PhaseIn(BookFail(book, failed), hash) == PhaseStep(PhaseIn(book, hash), PaymentFailed(failed), hash)
  {
    var found := Get(book, RowKey(BTC_LN, failed));
    if found.Some? {
      FiledAt(book, RowKey(BTC_LN, failed));
      PutPhase(book, found.value.(status := Some(FAILED)), hash);
      hide Filed, Put;
    }
  }

  lemma PayPhase(book: Book, e: Event, hash: string)
    requires Filed(book) && e.PaymentSent?
    ensures var after := BookPay(book, e.paymentHash, e.amountWithFeesMsat, e.feesMsat, e.preimage);
            Filed(after) && PhaseIn(after, hash) == PhaseStep(PhaseIn(book, hash), e, hash)
  {
    var found := Get(book, RowKey(BTC_LN, e.paymentHash));
    if found.Some? {
      FiledAt(book, RowKey(BTC_LN, e.paymentHash));
      PutPhase(book, Paid(found.value, e.amountWithFeesMsat, e.feesMsat, e.preimage), hash);
      hide Filed, Put;
    }
  }

  lemma ReceivePhase(book: Book, received: string, amount: int, hash: string)
    requires Filed(book)
    ensures var after := BookReceive(book, received, amount);
            && Filed(after)
            && PhaseIn(after, hash) == PhaseStep(PhaseIn(book, hash), PaymentReceived(received, amount), hash)
  {
    var found := Get(book, RowKey(BTC_LN, received));
    FiledAt(book, RowKey(BTC_LN, received));
    PutPhase(book, if found.Some? then Received(found.value, amount) else NewReceived(received, amount), hash);
    hide Filed, Put;
  }

  lemma SendPhase(book: Book, sent: string, requested: int, amount: int, hash: string)
    requires Filed(book)
    ensures var after := BookSend(book, sent, requested, amount);
            && Filed(after)
            && PhaseIn(after, hash) == PhaseStep(PhaseIn(book, hash), SendLightning(sent, requested, amount), hash)
  {
    var found := Get(book, RowKey(BTC_LN, sent));
    FiledAt(book, RowKey(BTC_LN, sent));
    PutPhase(book,
             if found.Some? then found.value.(amountSentMsat := amount, status := Some(INIT))
             else NewSend(sent, requested, amount), hash);
    hide Filed, Put;
  }

  lemma LightningPhase(book: Book, e: Event, hash: string)
    requires Filed(book)
    requires e.PaymentFailed? || e.PaymentSent? || e.PaymentReceived? || e.SendLightning? || e.RequestGenerated?
    ensures Filed(BookStep(book, e))
    ensures PhaseIn(BookStep(book, e), hash) == PhaseStep(PhaseIn(book, hash), e, hash)
  {
    hide Filed, Put, PhaseIn, BookFail, BookPay, BookReceive, BookSend;
    match e
    case PaymentFailed(failed) => FailPhase(book, failed, hash);
    case PaymentSent(_, _, _, _) => PayPhase(book, e, hash);
    case PaymentReceived(received, amount) => ReceivePhase(book, received, amount, hash);
    case SendLightning(sent, requested, amount) => SendPhase(book, sent, requested, amount, hash);
    case RequestGenerated(generated, requested) => PutPhase(book, NewRequest(generated, requested), hash);
  }

  lemma ChannelEventPhase(book: Book, e: Event, hash: string)
    requires !IsMaintenance(e) && !IsElectrum(e)
    requires !(e.PaymentFailed? || e.PaymentSent? || e.PaymentReceived? || e.SendLightning? || e.RequestGenerated?)
    requires !(e.ChannelRestored? || e.ChannelSignatureSent?)
    ensures BookStep(book, e) == book
    ensures PhaseStep(PhaseIn(book, hash), e, hash) == PhaseIn(book, hash)
  {
  }

  /** The map of rows moves each hash exactly as the automaton does. */
  lemma StepPhase(book: Book, e: Event, hash: string)
    requires Filed(book)
    ensures Filed(BookStep(book, e))
    ensures PhaseIn(BookStep(book, e), hash) == PhaseStep(PhaseIn(book, hash), e, hash)
  {
    hide BookStep, PhaseIn, Filed;
    if IsMaintenance(e) {
      MaintenancePhase(book, e, hash);
    } else if IsElectrum(e) {
      ElectrumPhase(book, e, hash);
    } else if e.ChannelRestored? || e.ChannelSignatureSent? {
      PendingPhase(book, e, hash);
    } else if e.PaymentFailed? || e.PaymentSent? || e.PaymentReceived? || e.SendLightning? || e.RequestGenerated? {
      LightningPhase(book, e, hash);
    } else {
      ChannelEventPhase(book, e, hash);
    }
  }

  lemma {:induction false} RunPhase(book: Book, events: seq<Event>, hash: string)
    requires Filed(book)
    ensures Filed(BookRun(book, events))
    ensures PhaseIn(BookRun(book, events), hash) == PhaseRun(PhaseIn(book, hash), events, hash)
    decreases |events|
  {
    if events != [] {
      StepPhase(book, events[0], hash);
      RunPhase(BookStep(book, events[0]), events[1..], hash);
    }
  }

  ghost function RowWith(t: Table, k: RowKey): (r: Row)
    requires HasKey(t, k)
    ensures r.Key() == k
    ensures WellFormed(t) ==> forall i :: i in t.rows && t.rows[i].Key() == k ==> t.rows[i] == r
  {
    var i :| i in t.rows && t.rows[i].Key() == k;
    t.rows[i]
  }

  /** The rows of a well-formed table, filed under their keys. */
  ghost function BookOf(t: Table): (book: Book)
    requires WellFormed(t)
    ensures Lists(t, book) && Filed(book)
  {
    var keys := set i | i in t.rows :: t.rows[i].Key();
    map k | k in keys && HasKey(t, k) :: RowWith(t, k)
  }

  /** The table moves each hash exactly as the automaton does, in every run. */
  lemma TableRunPhase(t: Table, events: seq<Event>, hash: string)
    requires WellFormed(t)
    ensures WellFormed(TableRun(t, events))
    ensures TablePhase(TableRun(t, events), hash) == PhaseRun(TablePhase(t, hash), events, hash)
  {
    hide TableRun, BookRun, PhaseRun;
    var book := BookOf(t);
    RunRefines(t, book, events);
    RunPhase(book, events, hash);
    LookupReads(t, book, hash, BTC_LN, None);
    LookupReads(TableRun(t, events), BookRun(book, events), hash, BTC_LN, None);
  }

  // ---- what is final

  /** One step takes a paid payment out of PAID exactly when an invoice is generated again for its hash. */
  lemma PaidIsKeptIffHashIsFresh(t: Table, e: Event, hash: string)
    requires WellFormed(t) && TablePhase(t, hash) == At(PAID)
    ensures TablePhase(TableStep(t, e), hash) == At(PAID) <==> !(e.RequestGenerated? && e.paymentHash == hash)
  {
    hide TableStep, TablePhase;
    TableRunPhase(t, [e], hash);
    OneStepRun(t, e, hash);
  }

  lemma OneStepRun(t: Table, e: Event, hash: string)
    ensures TableRun(t, [e]) == TableStep(t, e)
    ensures forall p :: PhaseRun(p, [e], hash) == PhaseStep(p, e, hash)
  {
  }

  predicate NoNewInvoice(events: seq<Event>, hash: string) {
    forall i :: 0 <= i < |events| ==> !(events[i].RequestGenerated? && events[i].paymentHash == hash)
  }

  lemma {:induction false} PaidPhaseStays(events: seq<Event>, hash: string)
    requires NoNewInvoice(events, hash)
    ensures PhaseRun(At(PAID), events, hash) == At(PAID)
    decreases |events|
  {
    if events != [] {
      assert PhaseStep(At(PAID), events[0], hash) == At(PAID);
      PaidPhaseStays(events[1..], hash);
    }
  }

  /** Generated payment hashes being fresh, a payment that is PAID stays PAID, whatever happens next. */
  lemma PaidIsFinal(t: Table, events: seq<Event>, hash: string)
    requires WellFormed(t) && TablePhase(t, hash) == At(PAID)
    requires NoNewInvoice(events, hash)
    ensures TablePhase(TableRun(t, events), hash) == At(PAID)
  {
    TableRunPhase(t, events, hash);
    PaidPhaseStays(events, hash);
  }

  /** A pending payment is never deleted nor reset: it fails on a failure event, is paid on a settlement, and is
      otherwise left alone. */
  lemma PendingResolves(t: Table, e: Event, hash: string)
    requires WellFormed(t) && TablePhase(t, hash) == At(PENDING)
    requires !(e.RequestGenerated? && e.paymentHash == hash)
    ensures var after := TablePhase(TableStep(t, e), hash);
            && (after == At(FAILED) <==> Fails(e, hash))
            && (after == At(PAID) <==> Settles(e, hash))
            && (after == At(PENDING) <==> !Fails(e, hash) && !Settles(e, hash))
  {
    TableRunPhase(t, [e], hash);
    OneStepRun(t, e, hash);
  }

  /** No Lightning row is ever without a status, so the sending thread never meets a state it cannot handle. */
  lemma {:induction false} StatusIsAlwaysKnown(p: Phase, events: seq<Event>, hash: string)
    requires p != Unknown
    ensures PhaseRun(p, events, hash) != Unknown
    decreases |events|
  {
    if events != [] {
      StatusIsAlwaysKnown(PhaseStep(p, events[0], hash), events[1..], hash);
    }
  }

  lemma SendIsAlwaysDecided(events: seq<Event>, hash: string)
    ensures var t := TableRun(EMPTY, events);
            var found := Lookup(t, hash, BTC_LN, None);
            Decide(if found.Some? then Some(t.rows[found.value]) else None) != UnhandledState
  {
    TableRunPhase(EMPTY, events, hash);
    StatusIsAlwaysKnown(Absent, events, hash);
    assert TablePhase(EMPTY, hash) == Absent;
  }

  // ---- attempts

  ghost function Attempts(t: Table, events: seq<Event>, hash: string): nat
    decreases |events|
  {
    if events == [] then 0
    else
      (if Dispatches(t, events[0]) && events[0].paymentHash == hash then 1 else 0) +
      Attempts(TableStep(t, events[0]), events[1..], hash)
  }

  /** The hash an event hands to the node, if it hands one. */
  ghost function Handed(t: Table, e: Event): seq<string> { if Dispatches(t, e) then [e.paymentHash] else [] }

  /** All payments handed to the node in a run, in order. */
  ghost function HandedOver(t: Table, events: seq<Event>): seq<string>
    decreases |events|
  {
    if events == [] then [] else Handed(t, events[0]) + HandedOver(TableStep(t, events[0]), events[1..])
  }

  lemma {:induction false} AttemptsAreHandedOver(t: Table, events: seq<Event>, hash: string)
    ensures multiset(HandedOver(t, events))[hash] == Attempts(t, events, hash)
    decreases |events|
  {
    if events != [] {
      AttemptsAreHandedOver(TableStep(t, events[0]), events[1..], hash);
      hide TableStep, Dispatches;
    }
  }

  function Failures(events: seq<Event>, hash: string): nat {
    if events == [] then 0 else (if Fails(events[0], hash) then 1 else 0) + Failures(events[1..], hash)
  }

  function Restarts(events: seq<Event>): nat {
    if events == [] then 0 else (if events[0] == Restart then 1 else 0) + Restarts(events[1..])
  }

  /** A send would be accepted now. */
  predicate Open(p: Phase) { p == Absent || p == At(FAILED) }

  lemma DispatchNeedsOpen(t: Table, e: Event, hash: string)
    requires WellFormed(t)
    ensures WellFormed(TableStep(t, e))
    ensures TablePhase(TableStep(t, e), hash) == PhaseStep(TablePhase(t, hash), e, hash)
    ensures e.SendLightning? && e.paymentHash == hash ==> Dispatches(t, e) == Open(TablePhase(t, hash))
  {
    hide TableStep, PhaseStep;
    TableRunPhase(t, [e], hash);
    OneStepRun(t, e, hash);
  }

  /** One if a send would be accepted now. */
  ghost function Opening(t: Table, hash: string): nat { if Open(TablePhase(t, hash)) then 1 else 0 }

  /** One event: an attempt closes, and a failure or a restart may open. */
  lemma OpeningsAreSpent(t: Table, e: Event, hash: string)
    requires WellFormed(t)
    ensures WellFormed(TableStep(t, e))
    ensures (if Dispatches(t, e) && e.paymentHash == hash then 1 else 0) + Opening(TableStep(t, e), hash)
         <= Opening(t, hash) + (if Fails(e, hash) then 1 else 0) + (if e == Restart then 1 else 0)
  {
    hide TableStep, TablePhase, WellFormed;
    DispatchNeedsOpen(t, e, hash);
  }

  /** Each attempt spends an opening, and only a failure or a restart makes a new one. */
  lemma {:induction false} AttemptsAreBounded(t: Table, events: seq<Event>, hash: string)
    requires WellFormed(t)
    ensures Attempts(t, events, hash) + Opening(TableRun(t, events), hash)
         <= Opening(t, hash) + Failures(events, hash) + Restarts(events)
    decreases |events|
  {
    if events != [] {
      hide TableStep, Opening, Dispatches, WellFormed;
      OpeningsAreSpent(t, events[0], hash);
      AttemptsAreBounded(TableStep(t, events[0]), events[1..], hash);
    }
  }

  /** From the empty database, a hash is handed over at most once more than it failed or the process restarted. */
  lemma AttemptsFromScratch(events: seq<Event>, hash: string)
    ensures Attempts(EMPTY, events, hash) <= 1 + Failures(events, hash) + Restarts(events)
  {
    AttemptsAreBounded(EMPTY, events, hash);
  }

  lemma {:induction false} CountsNothing(events: seq<Event>, hash: string)
    requires forall i :: 0 <= i < |events| ==> !Fails(events[i], hash) && events[i] != Restart
    ensures Failures(events, hash) == 0 && Restarts(events) == 0
    decreases |events|
  {
    if events != [] {
      CountsNothing(events[1..], hash);
    }
  }

  lemma SendCloses(p: Phase, e: Event)
    requires e.SendLightning?
    ensures !Open(PhaseStep(p, e, e.paymentHash))
  {
  }

  /** Two attempts for a hash are never in flight together: after an attempt, the next one has a failure of that
      hash or a restart before it. */
  lemma AttemptsAreSeparated(t: Table, first: Event, between: seq<Event>, second: Event)
    requires WellFormed(t)
    requires Dispatches(t, first)
    requires second.SendLightning? && second.paymentHash == first.paymentHash
    requires Dispatches(TableRun(TableStep(t, first), between), second)
    ensures exists i :: 0 <= i < |between| && (Fails(between[i], first.paymentHash) || between[i] == Restart)
  {
    hide TableStep, TableRun, TablePhase, PhaseStep, PhaseRun;
    var hash := first.paymentHash;
    DispatchNeedsOpen(t, first, hash);
    SendCloses(TablePhase(t, hash), first);
    var u := TableStep(t, first);
    AttemptsAreBounded(u, between, hash);
    TableRunPhase(u, between, hash);
    DispatchNeedsOpen(TableRun(u, between), second, hash);
    if forall i :: 0 <= i < |between| ==> !Fails(between[i], hash) && between[i] != Restart {
      CountsNothing(between, hash);
    }
  }
}
