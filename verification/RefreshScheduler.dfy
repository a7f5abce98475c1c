/** The actor that refreshes a screen at most once a second. Times are in milliseconds. */
module RefreshScheduler {

  const DELAY := 1000

  /** A message and the time at which the actor takes it. */
  datatype Message = Refresh(at: int) | WakeUp(at: int)

  /** The behaviour, the wake-ups asked of the scheduler and not delivered yet, by the time they are due, the times of
      the refreshes carried out, whether a request came in since the last of them, and the time of the last
      message. */
  datatype Scheduler = Scheduler(sleeping: bool, outstanding: seq<int>, handled: seq<int>, requested: bool, now: int)

  const AWAKE := Scheduler(false, [], [], false, 0)

  /** Time does not go back, and only a wake-up that is outstanding arrives, not before it is due. */
  predicate Enabled(s: Scheduler, m: Message) {
    s.now <= m.at && (m.WakeUp? ==> s.outstanding != [] && s.outstanding[0] <= m.at)
  }

  function Step(s: Scheduler, m: Message): Scheduler {
    match m
    case Refresh(at) =>
      if s.sleeping then s.(requested := true, now := at)
      else s.(sleeping := true, outstanding := s.outstanding + [at + DELAY], requested := true, now := at)
    case WakeUp(at) =>
      var delivered := s.(outstanding := if s.outstanding == [] then [] else s.outstanding[1..], now := at);
      if s.sleeping then delivered.(sleeping := false, handled := s.handled + [at], requested := false) else delivered
  }

  function Run(s: Scheduler, messages: seq<Message>): Scheduler
    decreases |messages|
  {
    if messages == [] then s else Run(Step(s, messages[0]), messages[1..])
  }

  predicate EnabledRun(s: Scheduler, messages: seq<Message>)
    decreases |messages|
  {
    messages == [] || (Enabled(s, messages[0]) && EnabledRun(Step(s, messages[0]), messages[1..]))
  }

  // ---- the code

  class Actor {
    var sleeping: bool
    ghost var outstanding: seq<int>
    ghost var handled: seq<int>
    ghost var requested: bool
    ghost var now: int

    constructor ()
      ensures Value() == AWAKE
    {
      sleeping := false;
      outstanding, handled, requested, now := [], [], false, 0;
    }

    ghost function Value(): Scheduler
      reads this
    {
      Scheduler(sleeping, outstanding, handled, requested, now)
    }

    method OnReceive(m: Message)
      requires !sleeping
      modifies this
      ensures Value() == Step(old(Value()), m)
    {
      Arrive(m);
      if m.Refresh? {
        ScheduleOnce(m.at + DELAY);
        sleeping := true;
      }
    }

    method Sleep(m: Message)
      requires sleeping
      modifies this
      ensures Value() == Step(old(Value()), m)
    {
      Arrive(m);
      if m.WakeUp? {
        HandleRefresh(m.at);
        sleeping := false;
      }
    }

    /** A message goes to the current behaviour. */
    method Take(m: Message)
      modifies this
      ensures Value() == Step(old(Value()), m)
    {
      if sleeping {
        Sleep(m);
      } else {
        OnReceive(m);
      }
    }

    ghost method Arrive(m: Message)
      modifies this`outstanding, this`requested, this`now
      ensures now == m.at && requested == (old(requested) || m.Refresh?)
      ensures outstanding == if m.WakeUp? && old(outstanding) != [] then old(outstanding)[1..] else old(outstanding)
    {
      now := m.at;
      requested := requested || m.Refresh?;
      outstanding := if m.WakeUp? && outstanding != [] then outstanding[1..] else outstanding;
    }

    ghost method ScheduleOnce(due: int)
      modifies this`outstanding
      ensures outstanding == old(outstanding) + [due]
    {
      outstanding := outstanding + [due];
    }

    ghost method HandleRefresh(at: int)
      modifies this`handled, this`requested
      ensures handled == old(handled) + [at] && !requested
    {
      handled, requested := handled + [at], false;
    }
  }

  // ---- what every run keeps

  ghost predicate Spaced(times: seq<int>) { forall i :: 0 <= i < |times| - 1 ==> times[i + 1] - times[i] >= 1000 }

  ghost predicate Sound(s: Scheduler) {
    && |s.outstanding| == (if s.sleeping then 1 else 0)
    && (s.sleeping <==> s.requested)
    && (s.sleeping ==> s.outstanding[0] <= s.now + DELAY)
    && Spaced(s.handled)
    && (s.handled != [] ==>
          var last := s.handled[|s.handled| - 1];
          last <= s.now && (s.sleeping ==> last + DELAY <= s.outstanding[0]))
  }

  /** Asleep exactly while one wake-up is outstanding, and exactly while a request waits for an answer; refreshes at
      least a second apart. */
  lemma {:induction false} RunKeepsSound(s: Scheduler, messages: seq<Message>)
    requires Sound(s) && EnabledRun(s, messages)
    ensures Sound(Run(s, messages))
    decreases |messages|
  {
    if messages != [] {
      RunKeepsSound(Step(s, messages[0]), messages[1..]);
    }
  }

  lemma {:induction false} RunsAreSound(messages: seq<Message>)
    requires EnabledRun(AWAKE, messages)
    ensures var s := Run(AWAKE, messages);
            && (s.sleeping <==> |s.outstanding| == 1) && |s.outstanding| <= 1
            && (s.requested ==> s.outstanding != [])
            && Spaced(s.handled)
  {
    RunKeepsSound(AWAKE, messages);
  }

  /** More requests do not delay the answer: the wake-up that was outstanding stays the one awaited. */
  lemma {:induction false} RequestsAreMerged(s: Scheduler, requests: seq<Message>)
    requires Sound(s) && s.sleeping && EnabledRun(s, requests)
    requires forall i :: 0 <= i < |requests| ==> requests[i].Refresh?
    ensures var t := Run(s, requests);
            t.sleeping && t.outstanding == s.outstanding && t.handled == s.handled
    decreases |requests|
  {
    if requests != [] {
      RequestsAreMerged(Step(s, requests[0]), requests[1..]);
    }
  }

  /** After a request, whatever requests follow, one wake-up is outstanding, due at most a second after the request; its
      delivery refreshes once, and puts the actor back as it was before it slept. */
  lemma RequestIsAnswered(s: Scheduler, request: Message, more: seq<Message>, wakeUp: Message)
    requires Sound(s) && request.Refresh? && Enabled(s, request)
    requires EnabledRun(Step(s, request), more) && forall i :: 0 <= i < |more| ==> more[i].Refresh?
    requires wakeUp.WakeUp?
    ensures var waiting := Run(Step(s, request), more);
            && |waiting.outstanding| == 1 && waiting.outstanding[0] <= request.at + 1000
            && (!s.sleeping ==> waiting.outstanding[0] == request.at + 1000)
            && waiting.handled == s.handled
            && (Enabled(waiting, wakeUp) ==>
                var after := Step(waiting, wakeUp);
                && after.handled == s.handled + [wakeUp.at] && after.outstanding == []
                && !after.sleeping && !after.requested)
  {
    RunKeepsSound(s, [request]);
    assert Run(s, [request]) == Step(s, request);
    RequestsAreMerged(Step(s, request), more);
  }
}
