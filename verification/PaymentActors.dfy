/** The payment objects, the database helper that stores them, and the actors and threads that work on them in place.
    Each leaves the table as the step function says. */
module PaymentActors {
  import opened Wrappers
  import opened Events
  import opened Payments
  import opened Ledger
  import opened OnchainBalance
  import opened Sums
  import PaymentLife

  class Payment {
    var id: Option<nat>
    var ptype: PaymentType
    var direction: Direction
    var reference: string
    var status: Option<Status>
    var confidenceBlocks: int
    var amountRequestedMsat: int
    var amountSentMsat: int
    var amountPaidMsat: int
    var feesPaidMsat: int
    var preimage: Option<string>
    var txPayload: Option<string>

    constructor (ptype: PaymentType, direction: Direction, reference: string)
      ensures id == None && Row() == BlankRow(ptype, direction, reference)
    {
      id, status, preimage, txPayload := None, None, None, None;
      confidenceBlocks, amountRequestedMsat, amountSentMsat, amountPaidMsat, feesPaidMsat := 0, 0, 0, 0, 0;
      this.ptype, this.direction, this.reference := ptype, direction, reference;
    }

    constructor Load(key: nat, r: Row)
      ensures id == Some(key) && Row() == r
    {
      id := Some(key);
      ptype, direction, reference, status := r.ptype, r.direction, r.reference, r.status;
      confidenceBlocks := r.confidenceBlocks;
      amountRequestedMsat, amountSentMsat := r.amountRequestedMsat, r.amountSentMsat;
      amountPaidMsat, feesPaidMsat, preimage, txPayload := r.amountPaidMsat, r.feesPaidMsat, r.preimage, r.txPayload;
    }

    function Row(): Payments.Row
      reads this
    {
      Payments.Row(ptype, direction, reference, status, confidenceBlocks, amountRequestedMsat, amountSentMsat,
                   amountPaidMsat, feesPaidMsat, preimage, txPayload)
    }
  }

  class PaymentDBHelper {
    var payments: Table

    constructor ()
      ensures payments == EMPTY
    {
      payments := EMPTY;
    }

    /** Both lookups: without a direction, and qualified by one. The call to `unique()` finds at most one row. */
    method GetPayment(reference: string, ptype: PaymentType, direction: Option<Direction>) returns (p: Payment?)
      requires WellFormed(payments)
      ensures p == null <==> Lookup(payments, reference, ptype, direction) == None
      ensures p != null ==>
                && fresh(p) && p.id == Lookup(payments, reference, ptype, direction)
                && p.Row() == payments.rows[p.id.value]
    {
      var ids := Query(payments, reference, ptype, direction);
      QueryIsUnique(payments, reference, ptype, direction);
      if ids == {} {
        p := null;
      } else {
        var i :| i in ids;
        p := new Payment.Load(i, payments.rows[i]);
        SingleId(ids, i, Lookup(payments, reference, ptype, direction));
      }
    }

    method InsertOrUpdatePayment(p: Payment)
      modifies this`payments, p`id
      ensures payments == InsertOrReplace(old(payments), old(p.id), p.Row())
      ensures p.id == Some(if old(p.id).Some? then old(p.id).value else old(payments).nextId)
    {
      var i := if p.id.Some? then p.id.value else payments.nextId;
      payments, p.id := InsertOrReplace(payments, p.id, p.Row()), Some(i);
    }

    method UpdatePayment(p: Payment)
      requires p.id.Some?
      modifies this`payments
      ensures payments == Update(old(payments), p.id.value, p.Row())
    {
      payments := Update(payments, p.id.value, p.Row());
    }

    method UpdatePaymentPaid(p: Payment, amountPaidMsat: int, feesMsat: int, preimage: string)
      modifies this`payments, p
      ensures payments
           == InsertOrReplace(old(payments), old(p.id), Paid(old(p.Row()), amountPaidMsat, feesMsat, preimage))
    {
      p.preimage := Some(preimage);
      p.amountPaidMsat := amountPaidMsat;
      p.feesPaidMsat := feesMsat;
      p.status := Some(PAID);
      InsertOrUpdatePayment(p);
    }

    method UpdatePaymentFailed(p: Payment)
      modifies this`payments, p
      ensures payments == if old(p.status) == Some(PAID) then old(payments)
                          else InsertOrReplace(old(payments), old(p.id), old(p.Row()).(status := Some(FAILED)))
    {
      if p.status != Some(PAID) {
        p.status := Some(FAILED);
        InsertOrUpdatePayment(p);
      }
    }

    method UpdatePaymentPending(p: Payment)
      modifies this`payments, p
      ensures payments == if old(p.status) == Some(PAID) then old(payments)
                          else InsertOrReplace(old(payments), old(p.id), old(p.Row()).(status := Some(PENDING)))
    {
      if p.status != Some(PAID) {
        p.status := Some(PENDING);
        InsertOrUpdatePayment(p);
      }
    }

    method UpdatePaymentReceived(p: Payment, amountReceivedMsat: int)
      modifies this`payments, p
      ensures payments == InsertOrReplace(old(payments), old(p.id), Received(old(p.Row()), amountReceivedMsat))
    {
      p.amountPaidMsat := amountReceivedMsat;
      p.status := Some(PAID);
      InsertOrUpdatePayment(p);
    }

    method CleanUpZeroConfs()
      modifies this`payments
      ensures payments == CleanZeroConfs(old(payments))
    {
      payments := DeleteWhere(payments, IsZeroConf);
    }

    method DeleteAllOnchainTxs()
      modifies this`payments
      ensures payments == DeleteWhere(old(payments), IsOnchain)
    {
      payments := DeleteWhere(payments, IsOnchain);
    }

    method CleanLightningPayments()
      modifies this`payments
      ensures payments == CleanLightning(old(payments))
    {
      payments := DeleteWhere(payments, IsInitLightning);
    }

    /** SELECT SUM over the on-chain rows of one direction. */
    method SumOnchain(direction: Direction) returns (sum: int)
      ensures sum == Sum(AmountsWhere(payments, direction))
    {
      var left := AmountsWhere(payments, direction);
      sum := 0;
      while left != map[]
        invariant sum + Sum(left) == Sum(AmountsWhere(payments, direction))
        decreases |left|
      {
        var i :| i in left;
        SumRemove(left, i);
        sum := sum + left[i];
        left := left - {i};
      }
    }

    method GetOnchainBalanceMsat() returns (balance: int)
      ensures balance == StoredBalance(payments)
    {
      var receivedMsat := SumOnchain(RECEIVED);
      var sentMsat := SumOnchain(SENT);
      balance := if receivedMsat - sentMsat > 0 then receivedMsat - sentMsat else 0;
    }
  }

  // ---- the node's messages about payments

  /** The loop over the HTLCs of a commitment: an outgoing one moves its payment from INIT to PENDING. */
  method MarkHtlcsPending(dbHelper: PaymentDBHelper, htlcs: seq<Htlc>, outgoing: bool)
    requires WellFormed(dbHelper.payments)
    modifies dbHelper`payments
    ensures WellFormed(dbHelper.payments)
    ensures dbHelper.payments == MarkPending(old(dbHelper.payments), htlcs, outgoing)
  {
    var i := 0;
    while i < |htlcs|
      invariant 0 <= i <= |htlcs|
      invariant WellFormed(dbHelper.payments)
      invariant MarkPending(dbHelper.payments, htlcs[i..], outgoing)
           == MarkPending(old(dbHelper.payments), htlcs, outgoing)
    {
      assert htlcs[i..][1..] == htlcs[i + 1..];
      if htlcs[i].outgoing == outgoing {
        MarkHtlcPending(dbHelper, htlcs[i].paymentHash);
      }
      i := i + 1;
    }
  }

  method MarkHtlcPending(dbHelper: PaymentDBHelper, paymentHash: string)
    requires WellFormed(dbHelper.payments)
    modifies dbHelper`payments
    ensures WellFormed(dbHelper.payments)
    ensures dbHelper.payments == MarkOnePending(old(dbHelper.payments), paymentHash)
  {
    var p := dbHelper.GetPayment(paymentHash, BTC_LN, None);
    if p != null && p.status == Some(INIT) {
      dbHelper.UpdatePaymentPending(p);
      InsertKeepsWellFormed(old(dbHelper.payments), old(Lookup(dbHelper.payments, paymentHash, BTC_LN, None)), p.Row());
    }
  }

  method OnChannelSignatureSent(dbHelper: PaymentDBHelper, e: Event)
    requires WellFormed(dbHelper.payments) && e.ChannelSignatureSent?
    modifies dbHelper`payments
    ensures WellFormed(dbHelper.payments) && dbHelper.payments == TableStep(old(dbHelper.payments), e)
  {
    if e.nextRemoteCommit.Some? {
      MarkHtlcsPending(dbHelper, e.nextRemoteCommit.value, false);
    }
  }

  method OnPaymentFailed(dbHelper: PaymentDBHelper, e: Event)
    requires WellFormed(dbHelper.payments) && e.PaymentFailed?
    modifies dbHelper`payments
    ensures WellFormed(dbHelper.payments) && dbHelper.payments == TableStep(old(dbHelper.payments), e)
  {
    hide InsertOrReplace, WellFormed;
    var paymentInDB := dbHelper.GetPayment(e.paymentHash, BTC_LN, None);
    if paymentInDB != null {
      dbHelper.UpdatePaymentFailed(paymentInDB);
    }
    TableStaysWellFormed(old(dbHelper.payments), e);
  }

  method OnPaymentSent(dbHelper: PaymentDBHelper, e: Event)
    requires WellFormed(dbHelper.payments) && e.PaymentSent?
    modifies dbHelper`payments
    ensures WellFormed(dbHelper.payments) && dbHelper.payments == TableStep(old(dbHelper.payments), e)
  {
    hide InsertOrReplace, WellFormed;
    var paymentInDB := dbHelper.GetPayment(e.paymentHash, BTC_LN, None);
    if paymentInDB != null {
      dbHelper.UpdatePaymentPaid(paymentInDB, e.amountWithFeesMsat, e.feesMsat, e.preimage);
    }
    TableStaysWellFormed(old(dbHelper.payments), e);
  }

  method OnPaymentReceived(dbHelper: PaymentDBHelper, e: Event)
    requires WellFormed(dbHelper.payments) && e.PaymentReceived?
    modifies dbHelper`payments
    ensures WellFormed(dbHelper.payments) && dbHelper.payments == TableStep(old(dbHelper.payments), e)
  {
    hide InsertOrReplace, WellFormed, ReceiveIn;
    StoreReceived(dbHelper, e.paymentHash, e.amountMsat);
    TableStaysWellFormed(old(dbHelper.payments), e);
  }

  method StoreReceived(dbHelper: PaymentDBHelper, paymentHash: string, amountMsat: int)
    requires WellFormed(dbHelper.payments)
    modifies dbHelper`payments
    ensures dbHelper.payments == ReceiveIn(old(dbHelper.payments), paymentHash, amountMsat)
  {
    hide InsertOrReplace, WellFormed;
    var paymentInDB := dbHelper.GetPayment(paymentHash, BTC_LN, None);
    if paymentInDB != null {
      dbHelper.UpdatePaymentReceived(paymentInDB, amountMsat);
    } else {
      var p := ReceivedPayment(paymentHash, amountMsat);
      dbHelper.InsertOrUpdatePayment(p);
    }
  }

  method ReceivedPayment(paymentHash: string, amountMsat: int) returns (p: Payment)
    ensures fresh(p) && p.id == None && p.Row() == NewReceived(paymentHash, amountMsat)
  {
    p := new Payment(BTC_LN, RECEIVED, paymentHash);
    p.amountPaidMsat := amountMsat;
    p.status := Some(PAID);
  }

  lemma TableStaysWellFormed(t: Table, e: Event)
    requires WellFormed(t)
    ensures WellFormed(TableStep(t, e))
  {
    hide TableStep, WellFormed;
    PaymentLife.TableRunPhase(t, [e], "");
    PaymentLife.OneStepRun(t, e, "");
  }

  // ---- the wallet's messages

  class ElectrumSupervisor {
    const dbHelper: PaymentDBHelper

    constructor (dbHelper: PaymentDBHelper)
      ensures this.dbHelper == dbHelper
    {
      this.dbHelper := dbHelper;
    }

    method OnTransactionReceived(e: Event)
      requires e.TransactionReceived? && WellFormed(dbHelper.payments)
      modifies dbHelper`payments
      ensures dbHelper.payments == TableStep(old(dbHelper.payments), e)
    {
      hide InsertOrReplace, WellFormed;
      var direction := if e.receivedSat >= e.sentSat then RECEIVED else SENT;
      var paymentInDB := dbHelper.GetPayment(e.txid, BTC_ONCHAIN, Some(direction));
      var payment: Payment;
      if paymentInDB == null {
        payment := new Payment(BTC_ONCHAIN, direction, e.txid);
      } else {
        payment := paymentInDB;
      }
      Fill(payment, direction, e);
      dbHelper.InsertOrUpdatePayment(payment);
    }

    static method Fill(payment: Payment, direction: Direction, e: Event)
      requires e.TransactionReceived? && direction == TxDirection(e.receivedSat, e.sentSat)
      requires payment.ptype == BTC_ONCHAIN && payment.direction == direction && payment.reference == e.txid
      modifies payment
      ensures payment.Row() == OnchainRow(old(payment.Row()), e) && payment.id == old(payment.id)
    {
      var amountSat := if e.receivedSat >= e.sentSat then e.receivedSat - e.sentSat else e.sentSat - e.receivedSat;
      var feeSat := if e.feeSat.Some? then e.feeSat.value else 0;
      payment.ptype := BTC_ONCHAIN;
      payment.direction := direction;
      payment.reference := e.txid;
      if direction == SENT {
        payment.feesPaidMsat := feeSat * 1000;
      }
      payment.txPayload := Some(e.payload);
      payment.amountPaidMsat := amountSat * 1000;
      payment.confidenceBlocks := ToInt32(e.depth);
    }

    method OnTransactionConfidenceChanged(e: Event)
      requires e.TransactionConfidenceChanged? && WellFormed(dbHelper.payments)
      modifies dbHelper`payments
      ensures dbHelper.payments == TableStep(old(dbHelper.payments), e)
    {
      var p := dbHelper.GetPayment(e.txid, BTC_ONCHAIN, None);
      if p != null {
        p.confidenceBlocks := ToInt32(e.depth);
        dbHelper.UpdatePayment(p);
      }
    }
  }

  // ---- the user

  /** The sending thread: what it stores, and whether it hands the payment to the node. */
  method SendLNPayment(dbHelper: PaymentDBHelper, paymentHash: string, requestedMsat: int, amountMsat: int)
    returns (decision: SendDecision)
    requires WellFormed(dbHelper.payments)
    modifies dbHelper`payments
    ensures dbHelper.payments
         == TableStep(old(dbHelper.payments), SendLightning(paymentHash, requestedMsat, amountMsat))
    ensures decision == Dispatch <==>
              Dispatches(old(dbHelper.payments), SendLightning(paymentHash, requestedMsat, amountMsat))
  {
    hide InsertOrReplace, WellFormed;
    var p := dbHelper.GetPayment(paymentHash, BTC_LN, None);
    if p != null && (p.status == Some(INIT) || p.status == Some(PENDING)) {
      return AlreadyPending;
    } else if p != null && p.status == Some(PAID) {
      return AlreadyPaid;
    } else if p != null && p.status == Some(FAILED) {
      Retry(p, amountMsat);
      dbHelper.InsertOrUpdatePayment(p);
    } else if p == null {
      var newPayment := SentPayment(paymentHash, requestedMsat, amountMsat);
      dbHelper.InsertOrUpdatePayment(newPayment);
    } else {
      return UnhandledState;
    }
    return Dispatch;
  }

  method Retry(p: Payment, amountMsat: int)
    modifies p`amountSentMsat, p`status
    ensures p.Row() == old(p.Row()).(amountSentMsat := amountMsat, status := Some(INIT))
  {
    p.amountSentMsat := amountMsat;
    p.status := Some(INIT);
  }

  method SentPayment(paymentHash: string, requestedMsat: int, amountMsat: int) returns (p: Payment)
    ensures fresh(p) && p.id == None && p.Row() == NewSend(paymentHash, requestedMsat, amountMsat)
  {
    p := new Payment(BTC_LN, SENT, paymentHash);
    p.amountRequestedMsat := requestedMsat;
    p.amountSentMsat := amountMsat;
    p.status := Some(INIT);
  }

  /** A generated invoice is stored as an initialised payment. */
  method StorePaymentRequest(dbHelper: PaymentDBHelper, paymentHash: string, requestedMsat: int)
    modifies dbHelper`payments
    ensures dbHelper.payments == TableStep(old(dbHelper.payments), RequestGenerated(paymentHash, requestedMsat))
  {
    hide InsertOrReplace;
    var newPayment := new Payment(BTC_LN, RECEIVED, paymentHash);
    newPayment.amountRequestedMsat := requestedMsat;
    newPayment.status := Some(INIT);
    dbHelper.InsertOrUpdatePayment(newPayment);
  }
}
