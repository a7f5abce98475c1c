/** The actors together: whatever the sequence of events, the objects and tables end as the step functions say, so
    that every statement about runs is one about them. */
module Wallet {
  import opened Events
  import P = Payments
  import Ledger
  import PaymentLife
  import PaymentActors
  import Channels
  import ChannelActors
  import Sequences

  /** The part of the node's messages, and of a restart, that concerns channels. */
  method OnChannelMessage(node: ChannelActors.ChannelSupervisor, e: Event)
    requires node.Valid()
    modifies node, node.activeChannelsMap.Values, node.dbHelper
    ensures node.Valid() && fresh(node.activeChannelsMap.Values - old(node.activeChannelsMap.Values))
    ensures node.State() == Channels.ChannelStep(old(node.State()), e)
  {
    if Channels.IsUpdate(e) {
      node.OnChannelUpdate(e);
    } else if e.ChannelCreated? {
      node.OnChannelCreated(e);
    } else if e.ChannelRestored? {
      node.OnChannelRestored(e);
    } else if e.Terminated? {
      node.OnTerminated(e);
    } else if e.Restart? {
      node.OnRestart();
    }
  }

  /** What concerns payments: the node's and the wallet's messages, sends and invoices, and the clean-ups. */
  method OnPaymentMessage(
    dbHelper: PaymentActors.PaymentDBHelper, electrum: PaymentActors.ElectrumSupervisor, e: Event)
      returns (handed: seq<string>)
    requires electrum.dbHelper == dbHelper && P.WellFormed(dbHelper.payments)
    modifies dbHelper`payments
    ensures P.WellFormed(dbHelper.payments) && dbHelper.payments == Ledger.TableStep(old(dbHelper.payments), e)
    ensures handed == PaymentLife.Handed(old(dbHelper.payments), e)
  {
    PaymentActors.TableStaysWellFormed(dbHelper.payments, e);
    handed := [];
    match e
    case ChannelRestored(_, _, _, htlcs) => PaymentActors.MarkHtlcsPending(dbHelper, htlcs, true);
    case ChannelSignatureSent(_) => PaymentActors.OnChannelSignatureSent(dbHelper, e);
    case PaymentFailed(_) => PaymentActors.OnPaymentFailed(dbHelper, e);
    case PaymentSent(_, _, _, _) => PaymentActors.OnPaymentSent(dbHelper, e);
    case PaymentReceived(_, _) => PaymentActors.OnPaymentReceived(dbHelper, e);
    case TransactionReceived(_, _, _, _, _, _) => electrum.OnTransactionReceived(e);
    case TransactionConfidenceChanged(_, _) => electrum.OnTransactionConfidenceChanged(e);
    case SendLightning(hash, requested, amount) =>
      var decision := PaymentActors.SendLNPayment(dbHelper, hash, requested, amount);
      if decision == Ledger.Dispatch {
        handed := [hash];
      }
    case RequestGenerated(hash, requested) => PaymentActors.StorePaymentRequest(dbHelper, hash, requested);
    case Restart => dbHelper.CleanLightningPayments(); dbHelper.CleanUpZeroConfs();
    case Checkup => dbHelper.CleanUpZeroConfs();
    case DeleteAllOnchainTxs => dbHelper.DeleteAllOnchainTxs();
    case _ =>
  }

  /** One event, and the payments it hands to the node. */
  method OnEvent(
    node: ChannelActors.ChannelSupervisor, dbHelper: PaymentActors.PaymentDBHelper,
    electrum: PaymentActors.ElectrumSupervisor, e: Event) returns (handed: seq<string>)
    requires electrum.dbHelper == dbHelper && node.Valid() && P.WellFormed(dbHelper.payments)
    modifies node, node.activeChannelsMap.Values, node.dbHelper, dbHelper`payments
    ensures node.Valid() && P.WellFormed(dbHelper.payments)
    ensures fresh(node.activeChannelsMap.Values - old(node.activeChannelsMap.Values))
    ensures node.State() == Channels.ChannelStep(old(node.State()), e)
    ensures dbHelper.payments == Ledger.TableStep(old(dbHelper.payments), e)
    ensures handed == PaymentLife.Handed(old(dbHelper.payments), e)
  {
    hide P.WellFormed, Ledger.TableStep, Channels.ChannelStep, PaymentLife.Handed;
    handed := OnPaymentMessage(dbHelper, electrum, e);
    OnChannelMessage(node, e);
  }

  /** What was done and what is left to do make up the run. */
  ghost predicate Underway(
    start: P.Table, t: P.Table, first: Channels.ChannelState, s: Channels.ChannelState, handed: seq<string>,
    events: seq<Event>, i: nat)
  {
    && i <= |events|
    && Ledger.TableRun(t, events[i..]) == Ledger.TableRun(start, events)
    && Channels.ChannelRun(s, events[i..]) == Channels.ChannelRun(first, events)
    && handed + PaymentLife.HandedOver(t, events[i..]) == PaymentLife.HandedOver(start, events)
  }

  lemma OneStepOn(
    start: P.Table, t: P.Table, first: Channels.ChannelState, s: Channels.ChannelState, handed: seq<string>,
    events: seq<Event>, i: nat)
    requires Underway(start, t, first, s, handed, events, i) && i < |events|
    ensures Underway(
              start, Ledger.TableStep(t, events[i]), first, Channels.ChannelStep(s, events[i]),
              handed + PaymentLife.Handed(t, events[i]), events, i + 1)
  {
    hide Ledger.TableStep, Channels.ChannelStep, PaymentLife.Handed;
    assert events[i..][1..] == events[i + 1..];
    Sequences.Associate(
      handed, PaymentLife.Handed(t, events[i]),
      PaymentLife.HandedOver(Ledger.TableStep(t, events[i]), events[i + 1..]));
  }

  lemma Started(start: P.Table, first: Channels.ChannelState, events: seq<Event>)
    ensures Underway(start, start, first, first, [], events, 0)
  {
    assert events[0..] == events;
  }

  lemma Done(
    start: P.Table, t: P.Table, first: Channels.ChannelState, s: Channels.ChannelState, handed: seq<string>,
    events: seq<Event>)
    requires Underway(start, t, first, s, handed, events, |events|)
    ensures t == Ledger.TableRun(start, events) && s == Channels.ChannelRun(first, events)
    ensures handed == PaymentLife.HandedOver(start, events)
    ensures forall hash :: multiset(handed)[hash] == PaymentLife.Attempts(start, events, hash)
  {
    assert events[|events|..] == [];
    forall hash ensures multiset(handed)[hash] == PaymentLife.Attempts(start, events, hash) {
      PaymentLife.AttemptsAreHandedOver(start, events, hash);
    }
  }

  /** Any run of events, one atomic step each, and the payments handed to the node in it. */
  method Run(
    node: ChannelActors.ChannelSupervisor, dbHelper: PaymentActors.PaymentDBHelper,
    electrum: PaymentActors.ElectrumSupervisor, events: seq<Event>) returns (handed: seq<string>)
    requires electrum.dbHelper == dbHelper && node.Valid() && P.WellFormed(dbHelper.payments)
    modifies node, node.activeChannelsMap.Values, node.dbHelper, dbHelper`payments
    ensures node.Valid() && P.WellFormed(dbHelper.payments)
    ensures node.State() == Channels.ChannelRun(old(node.State()), events)
    ensures dbHelper.payments == Ledger.TableRun(old(dbHelper.payments), events)
    ensures handed == PaymentLife.HandedOver(old(dbHelper.payments), events)
    ensures forall hash :: multiset(handed)[hash] == PaymentLife.Attempts(old(dbHelper.payments), events, hash)
  {
    hide Underway, PaymentLife.Handed, Ledger.TableStep, Channels.ChannelStep, P.WellFormed;
    handed := [];
    var i := 0;
    ghost var start, first := dbHelper.payments, node.State();
    Started(start, first, events);
    while i < |events|
      invariant 0 <= i <= |events|
      invariant node.Valid() && P.WellFormed(dbHelper.payments)
      invariant fresh(node.activeChannelsMap.Values - old(node.activeChannelsMap.Values))
      invariant Underway(start, dbHelper.payments, first, node.State(), handed, events, i)
    {
      OneStepOn(start, dbHelper.payments, first, node.State(), handed, events, i);
      var more := OnEvent(node, dbHelper, electrum, events[i]);
      handed := handed + more;
      i := i + 1;
    }
    Done(start, dbHelper.payments, first, node.State(), handed, events);
  }
}
