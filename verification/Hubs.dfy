/** The SSE hub (internal/api/server.go): a one-token dirty channel, a throttle
    timer, and a one-slot channel for every subscriber, as one machine whose steps
    the informers, the run loop and the request handlers take in any order. */
module Hubs {
  import opened Wrappers

  // ------------------------------------------------------------------------- state

  /** A snapshot: the how-manieth broadcast it is, and the version of the caches it
      shows. The caches may move while it is taken. */
  datatype Payload = Payload(number: nat, version: nat)

  /** A handler has subscribed, is computing its first snapshot (begun at some
      version), or has sent one; `shown` is the version the client saw last. */
  datatype Handler = Joined | Priming(began: nat) | Primed(shown: nat)

  /** `slot` is the buffered channel; `received` are the broadcasts read off it. */
  datatype Subscriber = Subscriber(slot: Option<Payload>, handler: Handler, received: seq<nat>)

  /** Where the select on one channel stands. */
  datatype Offer = First | Drain | Again

  /** The run loop. From Sending on it holds the lock. */
  datatype Phase =
    | Idle
    | Counting                                   // broadcast was called
    | Computing(began: nat)                      // snapshot()
    | Holding(version: nat)                      // marshalled, waiting for the lock
    | Sending(payload: Payload, todo: set<nat>)  // between two channels
    | Offering(payload: Payload, todo: set<nat>, to: nat, offer: Offer)

  /** `cache` counts the changes of the Stack and Deployment caches, `marking` the
      event handlers that have not called markDirty yet, `sent` the broadcasts. */
  datatype State = State(
    cache: nat, marking: nat, dirty: bool, timer: bool, phase: Phase, subs: map<nat, Subscriber>,
    closed: set<nat>, sent: nat)

  const START := State(0, 0, false, false, Idle, map[], {}, 0)

  predicate Locked(s: State) { s.phase.Sending? || s.phase.Offering? }

  // ------------------------------------------------------------------------- steps

  datatype Step =
    // informers
    | CacheChanges
    | Marks
    // the run loop
    | TakesDirty
    | TimerFires
    | Ticks
    | Counts
    | Computes(version: nat)
    | Locks
    | Picks(to: nat)
    | Offers
    | Unlocks
    // request handlers
    | Subscribes(id: nat)
    | BeginsPrime(id: nat)
    | EndsPrime(id: nat, version: nat)
    | Receives(id: nat)
    | Leaves(id: nat)

  predicate Possible(s: State, step: Step) {
    match step
    case CacheChanges => true
    case Marks => s.marking > 0
    case TakesDirty => s.phase == Idle && s.dirty
    case TimerFires => s.phase == Idle && s.timer
    case Ticks => s.phase == Idle
    case Counts => s.phase == Counting
    case Computes(version) => s.phase.Computing? && s.phase.began <= version <= s.cache
    case Locks => s.phase.Holding?
    case Picks(to) => s.phase.Sending? && to in s.phase.todo
    case Offers => s.phase.Offering? && s.phase.to in s.subs
    case Unlocks => s.phase.Sending? && s.phase.todo == {}
    case Subscribes(id) => !Locked(s) && id !in s.subs && id !in s.closed
    case BeginsPrime(id) => id in s.subs && s.subs[id].handler == Joined
    case EndsPrime(id, version) =>
      id in s.subs && s.subs[id].handler.Priming? && s.subs[id].handler.began <= version <= s.cache
    case Receives(id) => id in s.subs && s.subs[id].handler.Primed? && s.subs[id].slot.Some?
    case Leaves(id) => !Locked(s) && id in s.subs
  }

  function Do(s: State, step: Step): State
    requires Possible(s, step)
  {
    match step
    case CacheChanges => s.(cache := s.cache + 1, marking := s.marking + 1)
    case Marks => s.(marking := s.marking - 1, dirty := true)
    case TakesDirty => s.(dirty := false, timer := true)
    case TimerFires => s.(timer := false, phase := Counting)
    case Ticks => s.(phase := Counting)
    case Counts => s.(phase := if |s.subs| == 0 then Idle else Computing(s.cache))
    case Computes(version) => s.(phase := Holding(version))
    case Locks => s.(sent := s.sent + 1, phase := Sending(Payload(s.sent + 1, s.phase.version), s.subs.Keys))
    case Picks(to) => s.(phase := Offering(s.phase.payload, s.phase.todo - {to}, to, First))
    case Offers => Offered(s)
    case Unlocks => s.(phase := Idle)
    case Subscribes(id) => s.(subs := s.subs[id := Subscriber(None, Joined, [])])
    case BeginsPrime(id) => s.(subs := s.subs[id := s.subs[id].(handler := Priming(s.cache))])
    case EndsPrime(id, version) => s.(subs := s.subs[id := s.subs[id].(handler := Primed(version))])
    case Receives(id) =>
      var sub := s.subs[id];
      s.(subs := s.subs[id := Subscriber(None, Primed(sub.slot.value.version), sub.received + [sub.slot.value.number])])
    case Leaves(id) => s.(subs := s.subs - {id}, closed := s.closed + {id})
  }

  /** One select of the send: offer; if the slot is taken, drain it; offer again,
      and give up if it is taken even then. */
  function Offered(s: State): State
    requires s.phase.Offering? && s.phase.to in s.subs
  {
    var Offering(p, todo, to, offer) := s.phase;
    var sub := s.subs[to];
    match offer
    case First =>
      if sub.slot.None? then s.(subs := s.subs[to := sub.(slot := Some(p))], phase := Sending(p, todo))
      else s.(phase := Offering(p, todo, to, Drain))
    case Drain => s.(subs := s.subs[to := sub.(slot := None)], phase := Offering(p, todo, to, Again))
    case Again =>
      if sub.slot.None? then s.(subs := s.subs[to := sub.(slot := Some(p))], phase := Sending(p, todo))
      else s.(phase := Sending(p, todo))
  }

  ghost predicate IsRun(states: seq<State>, steps: seq<Step>) {
    |states| == |steps| + 1 && states[0] == START &&
    forall i | 0 <= i < |steps| :: Possible(states[i], steps[i]) && states[i + 1] == Do(states[i], steps[i])
  }

  // ------------------------------------------------------------------ channel safety

  /** The channels a broadcast still sends to. */
  function Targets(s: State): set<nat> {
    match s.phase
    case Sending(_, todo) => todo
    case Offering(_, todo, to, _) => todo + {to}
    case _ => {}
  }

  /** Nothing is sent on a closed channel, and the last select never finds the slot
      taken: there is one sender, under the lock. */
  predicate Safe(s: State) {
    s.closed !! s.subs.Keys && Targets(s) <= s.subs.Keys &&
    (s.phase.Offering? ==> s.phase.to !in s.phase.todo) &&
    (s.phase.Offering? && s.phase.offer == Again ==> s.subs[s.phase.to].slot == None)
  }

  lemma SafeStep(s: State, step: Step)
    requires Safe(s) && Possible(s, step)
    ensures Safe(Do(s, step))
  {
  }

  /** Channel safety, over all runs. */
  lemma {:induction false} AlwaysSafe(states: seq<State>, steps: seq<Step>, i: nat)
    requires IsRun(states, steps) && i < |states|
    ensures Safe(states[i])
    decreases i
  {
    if i > 0 {
      AlwaysSafe(states, steps, i - 1);
      SafeStep(states[i - 1], steps[i - 1]);
    }
  }

  // ------------------------------------------------------------------------- order

  predicate Increasing(ns: seq<nat>) {
    forall i, j | 0 <= i < j < |ns| :: ns[i] < ns[j]
  }

  /** The number of the newest payload a channel may hold. */
  function Newest(s: State, id: nat): nat {
    if id in Targets(s) && s.sent > 0 then s.sent - 1 else s.sent
  }

  predicate InOrder(s: State, id: nat)
    requires id in s.subs
  {
    var sub := s.subs[id];
    Increasing(sub.received) &&
    (forall n | n in sub.received :: n <= Newest(s, id)) &&
    (sub.slot.Some? ==>
       sub.slot.value.number <= Newest(s, id) && forall n | n in sub.received :: n < sub.slot.value.number)
  }

  predicate Ordered(s: State) {
    (forall id | id in s.subs :: InOrder(s, id)) &&
    (s.phase.Sending? || s.phase.Offering? ==> s.phase.payload.number == s.sent && s.sent > 0)
  }

  lemma IncreasingMore(ns: seq<nat>, n: nat)
    requires Increasing(ns) && forall m | m in ns :: m < n
    ensures Increasing(ns + [n])
  {
    forall i, j | 0 <= i < j < |ns + [n]| ensures (ns + [n])[i] < (ns + [n])[j] {
      assert ns[i] in ns;
    }
  }

  predicate OfHandler(step: Step) {
    step.Subscribes? || step.BeginsPrime? || step.EndsPrime? || step.Receives? || step.Leaves?
  }

  lemma OrderedStep(s: State, step: Step)
    requires Safe(s) && Ordered(s) && Possible(s, step)
    ensures Ordered(Do(s, step))
  {
    hide InOrder;
    var t := Do(s, step);
    forall id | id in t.subs ensures InOrder(t, id) {
      if id !in s.subs {
        JoinsInOrder(s, step, id);
      } else if OfHandler(step) {
        HandlerInOrder(s, step, id);
      } else {
        LoopInOrder(s, step, id);
      }
    }
  }

  lemma JoinsInOrder(s: State, step: Step, id: nat)
    requires Safe(s) && Possible(s, step) && id !in s.subs && id in Do(s, step).subs
    ensures InOrder(Do(s, step), id)
  {
  }

  lemma HandlerInOrder(s: State, step: Step, id: nat)
    requires Safe(s) && Possible(s, step) && OfHandler(step) && id in s.subs && id in Do(s, step).subs && InOrder(s, id)
    ensures InOrder(Do(s, step), id)
  {
    if step == Receives(id) {
      IncreasingMore(s.subs[id].received, s.subs[id].slot.value.number);
    }
  }

  lemma LoopInOrder(s: State, step: Step, id: nat)
    requires Safe(s) && Possible(s, step) && !OfHandler(step) && id in s.subs && InOrder(s, id)
    requires s.phase.Sending? || s.phase.Offering? ==> s.phase.payload.number == s.sent && s.sent > 0
    ensures id in Do(s, step).subs && InOrder(Do(s, step), id)
  {
    hide Increasing;
  }

  /** Every subscriber receives broadcasts in the order they were sent, none twice. */
  lemma {:induction false} AlwaysOrdered(states: seq<State>, steps: seq<Step>, i: nat)
    requires IsRun(states, steps) && i < |states|
    ensures Ordered(states[i])
    decreases i
  {
    if i > 0 {
      AlwaysOrdered(states, steps, i - 1);
      AlwaysSafe(states, steps, i - 1);
      OrderedStep(states[i - 1], steps[i - 1]);
    }
  }

  // ---------------------------------------------------------------------- freshness

  /** A wake-up that leads to a snapshot not begun yet. */
  predicate WakeUp(s: State) {
    s.marking > 0 || s.dirty || s.timer || s.phase == Counting
  }

  /** A broadcast under way that has not reached a channel. */
  predicate Reaching(s: State, id: nat) {
    s.phase.Computing? || s.phase.Holding? || id in Targets(s)
  }

  /** A version that is current, or about to be overtaken by a wake-up. */
  predicate Current(s: State, version: nat) {
    version <= s.cache && (version == s.cache || WakeUp(s))
  }

  /** What the client will show once it has read what is buffered. */
  predicate FreshOrReached(s: State, id: nat)
    requires id in s.subs
  {
    var sub := s.subs[id];
    match sub.slot
    case Some(p) => Current(s, p.version) || (Reaching(s, id) && p.version <= s.cache)
    case None =>
      match sub.handler
      case Joined => true
      case Priming(began) => Current(s, began) || (Reaching(s, id) && began <= s.cache)
      case Primed(shown) => Current(s, shown) || (Reaching(s, id) && shown <= s.cache)
  }

  predicate Bounded(s: State, id: nat)
    requires id in s.subs
  {
    match s.subs[id].handler
    case Joined => true
    case Priming(began) => began <= s.cache
    case Primed(shown) => shown <= s.cache
  }

  predicate Fresh(s: State) {
    (forall id | id in s.subs :: FreshOrReached(s, id) && Bounded(s, id)) &&
    match s.phase
    case Computing(began) => Current(s, began)
    case Holding(version) => Current(s, version)
    case Sending(p, _) => Current(s, p.version)
    case Offering(p, _, _, _) => Current(s, p.version)
    case _ => true
  }

  lemma FreshStep(s: State, step: Step)
    requires Safe(s) && Fresh(s) && Possible(s, step)
    ensures Fresh(Do(s, step))
  {
    hide Fresh, Safe, Do, Possible;
    if OfHandler(step) {
      FreshHandlerStep(s, step);
    } else if step == CacheChanges || step == Marks || step == Offers {
      FreshOfferStep(s, step);
    } else {
      FreshLoopStep(s, step);
    }
  }

  lemma FreshHandlerStep(s: State, step: Step)
    requires Safe(s) && Fresh(s) && Possible(s, step) && OfHandler(step)
    ensures Fresh(Do(s, step))
  {
    hide Safe, FreshOrReached, Bounded, Current, Reaching, WakeUp, Targets;
    var t := Do(s, step);
    HandlerKeeps(s, t, step);
    forall id | id in t.subs ensures FreshOrReached(t, id) && Bounded(t, id) {
      if id in s.subs && s.subs[id] == t.subs[id] {
        OthersStayFresh(s, t, id);
      } else if step == Subscribes(id) {
        JoinedIsFresh(t, id);
      } else if step == BeginsPrime(id) {
        PrimingIsFresh(s, t, id);
      } else if step.EndsPrime? {
        PrimedIsFresh(s, t, id, step.version);
      } else {
        ReceivedIsFresh(s, t, id);
      }
    }
  }

  /** A request handler moves neither the caches nor the run loop. */
  lemma HandlerKeeps(s: State, t: State, step: Step)
    requires Possible(s, step) && OfHandler(step) && t == Do(s, step)
    ensures t.phase == s.phase && Targets(t) == Targets(s) && Undisturbed(s, t)
  {
    hide Possible;
    assert t == s.(subs := t.subs, closed := t.closed) by {
      hide Targets, Undisturbed, Current, Reaching, WakeUp;
    }
    hide Do;
  }

  ghost predicate Undisturbed(s: State, t: State) {
    t.cache == s.cache && (forall version :: Current(t, version) == Current(s, version)) &&
    forall id :: Reaching(t, id) == Reaching(s, id)
  }

  lemma OthersStayFresh(s: State, t: State, id: nat)
    requires Undisturbed(s, t) && id in s.subs && id in t.subs && s.subs[id] == t.subs[id]
    requires FreshOrReached(s, id) && Bounded(s, id)
    ensures FreshOrReached(t, id) && Bounded(t, id)
  {
    hide Current, Reaching;
  }

  lemma JoinedIsFresh(t: State, id: nat)
    requires id in t.subs && t.subs[id] == Subscriber(None, Joined, [])
    ensures FreshOrReached(t, id) && Bounded(t, id)
  {
    hide Current, Reaching;
  }

  /** Priming begins with what the caches hold. */
  lemma PrimingIsFresh(s: State, t: State, id: nat)
    requires Undisturbed(s, t) && id in s.subs && id in t.subs && FreshOrReached(s, id)
    requires t.subs[id] == s.subs[id].(handler := Priming(s.cache))
    ensures FreshOrReached(t, id) && Bounded(t, id)
  {
    hide Reaching;
  }

  /** And ends with nothing older. */
  lemma PrimedIsFresh(s: State, t: State, id: nat, version: nat)
    requires Undisturbed(s, t) && id in s.subs && id in t.subs && FreshOrReached(s, id)
    requires s.subs[id].handler.Priming? && s.subs[id].handler.began <= version <= s.cache
    requires t.subs[id] == s.subs[id].(handler := Primed(version))
    ensures FreshOrReached(t, id) && Bounded(t, id)
  {
    hide Reaching;
  }

  /** Reading the slot shows what was buffered. */
  lemma ReceivedIsFresh(s: State, t: State, id: nat)
    requires Undisturbed(s, t) && id in s.subs && id in t.subs && FreshOrReached(s, id)
    requires s.subs[id].slot.Some? && t.subs[id].slot == None
    requires t.subs[id].handler == Primed(s.subs[id].slot.value.version)
    ensures FreshOrReached(t, id) && Bounded(t, id)
  {
    hide Reaching;
  }

  lemma FreshOfferStep(s: State, step: Step)
    requires Safe(s) && Fresh(s) && Possible(s, step) && (step == CacheChanges || step == Marks || step == Offers)
    ensures Fresh(Do(s, step))
  {
    var t := Do(s, step);
    forall id | id in t.subs ensures FreshOrReached(t, id) && Bounded(t, id) {
      assert FreshOrReached(s, id) && Bounded(s, id);
    }
  }

  lemma FreshLoopStep(s: State, step: Step)
    requires Safe(s) && Fresh(s) && Possible(s, step)
    requires !OfHandler(step) && step != CacheChanges && step != Marks && step != Offers
    ensures Fresh(Do(s, step))
  {
    var t := Do(s, step);
    forall id | id in t.subs ensures FreshOrReached(t, id) && Bounded(t, id) {
      assert FreshOrReached(s, id) && Bounded(s, id);
    }
  }

  lemma {:induction false} AlwaysFresh(states: seq<State>, steps: seq<Step>, i: nat)
    requires IsRun(states, steps) && i < |states|
    ensures Fresh(states[i])
    decreases i
  {
    if i > 0 {
      AlwaysFresh(states, steps, i - 1);
      AlwaysSafe(states, steps, i - 1);
      FreshStep(states[i - 1], steps[i - 1]);
    }
  }

  /** Freshness, over all runs: what a client will show once it has read its buffer
      is the present state of the caches, or a wake-up is outstanding, or a
      broadcast is on its way to it that is itself current or to be overtaken. */
  lemma ClientsStayFresh(states: seq<State>, steps: seq<Step>, i: nat, id: nat)
    requires IsRun(states, steps) && i < |states| && id in states[i].subs && states[i].subs[id].handler.Primed?
    ensures var s := states[i]; var sub := s.subs[id];
            var shows := if sub.slot.Some? then sub.slot.value.version else sub.handler.shown;
            shows <= s.cache &&
            (shows == s.cache || WakeUp(s) ||
             (s.phase.Computing? && s.phase.began == s.cache) || (s.phase.Holding? && s.phase.version == s.cache) ||
             ((s.phase.Sending? || s.phase.Offering?) && id in Targets(s) && s.phase.payload.version == s.cache))
  {
    AlwaysFresh(states, steps, i);
    assert FreshOrReached(states[i], id);
  }

  /** With nothing outstanding every client is exactly up to date. */
  lemma QuietMeansFresh(states: seq<State>, steps: seq<Step>, i: nat, id: nat)
    requires IsRun(states, steps) && i < |states| && id in states[i].subs && states[i].subs[id].handler.Primed?
    requires states[i].phase == Idle && states[i].marking == 0 && !states[i].dirty && !states[i].timer
    ensures var sub := states[i].subs[id];
            (if sub.slot.Some? then sub.slot.value.version else sub.handler.shown) == states[i].cache
  {
    ClientsStayFresh(states, steps, i, id);
  }

  // ------------------------------------------------------------- how soon it is fresh

  /** A step that carries a change of the caches on towards the clients. */
  predicate Works(step: Step) {
    step.Marks? || step.TakesDirty? || step.TimerFires? || step.Counts? || step.Computes? || step.Locks? ||
    step.Picks? || step.Offers? || step.Unlocks?
  }

  /** A step that brings no new work: nor does a reader, or somebody who leaves. */
  predicate Calm(step: Step) {
    Works(step) || step.BeginsPrime? || step.EndsPrime? || step.Receives? || step.Leaves?
  }

  /** The steps of a broadcast to that many subscribers, at most. */
  function Whole(s: State): nat { 4 * |s.subs.Keys| + 4 }

  function PhaseWork(s: State): nat {
    match s.phase
    case Idle => 0
    case Counting => Whole(s)
    case Computing(_) => Whole(s) - 1
    case Holding(_) => Whole(s) - 2
    case Sending(_, todo) => 4 * |todo| + 1
    case Offering(_, todo, _, offer) => 4 * |todo| + (match offer case First => 4 case Drain => 3 case Again => 2)
  }

  /** What is left but for the run loop's own phase. */
  function Waiting(s: State): nat {
    s.marking * (Whole(s) + 3) + (if s.dirty then Whole(s) + 2 else 0) + (if s.timer then Whole(s) + 1 else 0)
  }

  /** The steps of work there can be before nothing is outstanding. */
  function Work(s: State): nat {
    Waiting(s) + PhaseWork(s)
  }

  lemma FewerTimes(m: nat, n: nat, a: nat, b: nat)
    requires m <= n && a <= b
    ensures m * a <= n * b
  {
    assert n * b == m * a + m * (b - a) + (n - m) * b;
  }

  lemma OneTime(m: nat, a: nat)
    requires m > 0
    ensures m * a == (m - 1) * a + a
  {
  }

  lemma PhaseLowers(s: State, step: Step)
    requires Possible(s, step) && (step.Counts? || step.Computes? || step.Locks? || step.Unlocks?)
    ensures PhaseWork(Do(s, step)) < PhaseWork(s) && Waiting(Do(s, step)) == Waiting(s)
  {
  }

  lemma PickLowers(s: State, to: nat)
    requires Possible(s, Picks(to))
    ensures PhaseWork(Do(s, Picks(to))) < PhaseWork(s) && Waiting(Do(s, Picks(to))) == Waiting(s)
  {
    OneLess(s.phase.todo, to);
  }

  lemma OneLess(todo: set<nat>, to: nat)
    requires to in todo
    ensures |todo - {to}| + 1 == |todo|
  {
  }

  lemma OfferLowers(s: State)
    requires Safe(s) && Possible(s, Offers)
    ensures PhaseWork(Do(s, Offers)) < PhaseWork(s) && Waiting(Do(s, Offers)) == Waiting(s)
  {
    assert Offered(s).subs.Keys == s.subs.Keys;
  }

  lemma WakeLowers(s: State, step: Step)
    requires Possible(s, step) && (step.TakesDirty? || step.TimerFires?)
    ensures Waiting(Do(s, step)) + PhaseWork(Do(s, step)) < Waiting(s) + PhaseWork(s)
  {
  }

  lemma MarkLowers(s: State)
    requires Possible(s, Marks)
    ensures Work(Do(s, Marks)) < Work(s)
  {
    OneTime(s.marking, Whole(s) + 3);
  }

  lemma LeaveLowers(s: State, id: nat)
    requires Possible(s, Leaves(id))
    ensures Work(Do(s, Leaves(id))) <= Work(s)
  {
    var t := Do(s, Leaves(id));
    assert s.subs.Keys == t.subs.Keys + {id};
    SmallerAudience(s, t);
  }

  lemma SmallerAudience(s: State, t: State)
    requires |t.subs.Keys| <= |s.subs.Keys| && !Locked(s)
    requires t.marking == s.marking && t.dirty == s.dirty && t.timer == s.timer && t.phase == s.phase
    ensures Work(t) <= Work(s)
  {
    FewerTimes(s.marking, s.marking, Whole(t) + 3, Whole(s) + 3);
  }

  /** Every step of work lowers what is left; readers and leavers never add any. */
  lemma CalmLowers(s: State, step: Step)
    requires Safe(s) && Possible(s, step) && Calm(step)
    ensures Work(Do(s, step)) + (if Works(step) then 1 else 0) <= Work(s)
  {
    hide Waiting, PhaseWork, Safe, Do;
    if step.Marks? {
      MarkLowers(s);
    } else if step.TakesDirty? || step.TimerFires? {
      WakeLowers(s, step);
    } else if step == Offers {
      OfferLowers(s);
    } else if step.Picks? {
      PickLowers(s, step.to);
    } else if Works(step) {
      PhaseLowers(s, step);
    } else if step.Leaves? {
      LeaveLowers(s, step.id);
    } else {
      ReaderKeeps(s, step);
    }
  }

  lemma ReaderKeeps(s: State, step: Step)
    requires Possible(s, step) && (step.BeginsPrime? || step.EndsPrime? || step.Receives?)
    ensures Work(Do(s, step)) == Work(s)
  {
    assert Do(s, step).subs.Keys == s.subs.Keys;
  }

  /** The steps of work among those from `i` to `j`. */
  ghost function Worked(steps: seq<Step>, i: nat, j: nat): nat
    requires i <= j <= |steps|
  {
    if i == j then 0 else Worked(steps, i, j - 1) + (if Works(steps[j - 1]) then 1 else 0)
  }

  /** In every run, while no cache changes, no heartbeat ticks and nobody joins, there
      are no more steps of work than are left. */
  lemma {:induction false} WorkRunsOut(states: seq<State>, steps: seq<Step>, i: nat, j: nat)
    requires IsRun(states, steps) && i <= j < |states| && forall k | i <= k < j :: Calm(steps[k])
    ensures Work(states[j]) + Worked(steps, i, j) <= Work(states[i])
    decreases j
  {
    hide Work, Calm;
    if i < j {
      WorkRunsOut(states, steps, i, j - 1);
      AlwaysSafe(states, steps, j - 1);
      CalmLowers(states[j - 1], steps[j - 1]);
    }
  }

  /** While something is outstanding a step of work is possible: nothing is stuck. */
  lemma NothingStuck(s: State) returns (step: Step)
    requires Fresh(s) && Safe(s) && !(s.phase == Idle && s.marking == 0 && !s.dirty && !s.timer)
    ensures Works(step) && Possible(s, step)
  {
    hide FreshOrReached, Bounded;
    match s.phase {
      case Idle => step := if s.marking > 0 then Marks else if s.dirty then TakesDirty else TimerFires;
      case Counting => step := Counts;
      case Computing(began) => step := Computes(began);
      case Holding(_) => step := Locks;
      case Sending(_, todo) =>
        if todo == {} {
          step := Unlocks;
        } else {
          var to :| to in todo;
          step := Picks(to);
        }
      case Offering(_, _, _, _) => step := Offers;
    }
  }

  /** Bounded freshness: any run, left calm, goes on with no more steps than there is
      work, after which every client shows, or has in its buffer, exactly the present
      state of the caches. */
  lemma {:induction false} BecomesFresh(states: seq<State>, steps: seq<Step>)
    returns (states': seq<State>, more: seq<Step>)
    requires IsRun(states, steps)
    ensures IsRun(states + states', steps + more) && |more| <= Work(states[|states| - 1])
    ensures forall k | 0 <= k < |more| :: Works(more[k])
    ensures var s := (states + states')[|states + states'| - 1];
            s.cache == states[|states| - 1].cache &&
            forall id | id in s.subs && s.subs[id].handler.Primed? ::
              (if s.subs[id].slot.Some? then s.subs[id].slot.value.version else s.subs[id].handler.shown) == s.cache
    decreases Work(states[|states| - 1])
  {
    hide Work, Safe, Fresh;
    var s := states[|states| - 1];
    AlwaysSafe(states, steps, |states| - 1);
    AlwaysFresh(states, steps, |states| - 1);
    if s.phase == Idle && s.marking == 0 && !s.dirty && !s.timer {
      states', more := [], [];
      assert states + states' == states && steps + more == steps;
      forall id | id in s.subs && s.subs[id].handler.Primed?
        ensures (if s.subs[id].slot.Some? then s.subs[id].slot.value.version else s.subs[id].handler.shown) == s.cache
      {
        QuietMeansFresh(states, steps, |states| - 1, id);
      }
    } else {
      var step := NothingStuck(s);
      CalmLowers(s, step);
      CacheStays(s, step);
      var next := Do(s, step);
      RunOn(states, steps, step);
      states', more := BecomesFresh(states + [next], steps + [step]);
      assert states + [next] + states' == states + ([next] + states');
      assert steps + [step] + more == steps + ([step] + more);
      states', more := [next] + states', [step] + more;
    }
  }

  lemma CacheStays(s: State, step: Step)
    requires Possible(s, step) && Works(step)
    ensures Do(s, step).cache == s.cache
  {
  }

  lemma RunOn(states: seq<State>, steps: seq<Step>, step: Step)
    requires IsRun(states, steps) && Possible(states[|states| - 1], step)
    ensures IsRun(states + [Do(states[|states| - 1], step)], steps + [step])
  {
    hide Possible, Do;
  }

  // ------------------------------------------------------------ what a broadcast gives

  /** The subscriber has the payload in its slot, or has read it last. */
  predicate Given(sub: Subscriber, p: Payload) {
    sub.slot == Some(p) || (sub.slot == None && sub.received != [] && sub.received[|sub.received| - 1] == p.number)
  }

  /** While a broadcast holds the lock, those it is done with have its payload. */
  predicate Served(s: State) {
    s.phase.Sending? || s.phase.Offering? ==>
      forall id | id in s.subs && id !in Targets(s) :: Given(s.subs[id], s.phase.payload)
  }

  lemma ServedStep(s: State, step: Step)
    requires Safe(s) && Served(s) && Possible(s, step)
    ensures Served(Do(s, step))
  {
  }

  /** After each broadcast every subscriber has been given exactly its payload. */
  lemma {:induction false} AlwaysServed(states: seq<State>, steps: seq<Step>, i: nat)
    requires IsRun(states, steps) && i < |states|
    ensures Served(states[i])
    decreases i
  {
    if i > 0 {
      AlwaysServed(states, steps, i - 1);
      AlwaysSafe(states, steps, i - 1);
      ServedStep(states[i - 1], steps[i - 1]);
    }
  }

  /** Only a handler's own steps change what it has shown. */
  lemma HandlerKept(s: State, step: Step, id: nat)
    requires Possible(s, step) && id in s.subs && !(OfHandler(step) && step.id == id)
    ensures id in Do(s, step).subs && Do(s, step).subs[id].handler == s.subs[id].handler
    ensures s.cache <= Do(s, step).cache
  {
  }

  // ------------------------------------------------------------------------- the code

  /** What a turn of the run loop did, and what it broadcast. */
  datatype Turned = Blocked | Armed | Fired(sent: Option<Payload>) | Beat(sent: Option<Payload>)

  /** The hub as its goroutines run it: `s` is what they share, and any number of
      steps of the others may fall between two steps of one. */
  class Hub {
    var s: State
    ghost var states: seq<State>
    ghost var steps: seq<Step>

    ghost predicate Valid()
      reads this
    {
      IsRun(states, steps) && states[|states| - 1] == s
    }

    constructor ()
      ensures Valid() && s == START
    {
      s, states, steps := START, [START], [];
    }

    method Take(step: Step)
      requires Valid() && Possible(s, step)
      modifies this
      ensures Valid() && s == Do(old(s), step) && states == old(states) + [s] && steps == old(steps) + [step]
    {
      s := Do(s, step);
      states, steps := states + [s], steps + [step];
    }

    /** Informers and handlers. While the lock is held nobody joins or leaves. */
    method Others()
      requires Valid()
      modifies this
      ensures Valid() && old(states) <= states && s.phase == old(s.phase) && old(s.cache) <= s.cache
      ensures s.sent == old(s.sent) && s.timer == old(s.timer) && (old(s.dirty) ==> s.dirty)
      ensures Locked(s) ==> s.subs.Keys == old(s.subs).Keys
    {
      hide IsRun;
      var n: int := *;
      for i := 0 to if n < 0 then 0 else n
        invariant Valid() && old(states) <= states && s.phase == old(s.phase) && old(s.cache) <= s.cache
        invariant s.sent == old(s.sent) && s.timer == old(s.timer) && (old(s.dirty) ==> s.dirty)
        invariant Locked(s) ==> s.subs.Keys == old(s.subs).Keys
      {
        var step: Step := *;
        if (step == CacheChanges || step == Marks || OfHandler(step)) && Possible(s, step) {
          Take(step);
        }
      }
    }

    /** markDirty, called by an event handler. */
    method MarkDirty()
      requires Valid() && s.marking > 0
      modifies this
      ensures Valid() && s == old(s).(marking := old(s).marking - 1, dirty := true)
    {
      Take(Marks);
    }

    /** The send on one channel: the last select always finds the slot free. */
    method Send(to: nat)
      requires Valid() && s.phase.Sending? && to in s.phase.todo
      modifies this
      ensures Valid() && old(states) <= states && s.subs.Keys == old(s.subs).Keys && s.sent == old(s.sent)
      ensures s.timer == old(s.timer)
      ensures s.phase == Sending(old(s.phase).payload, old(s.phase).todo - {to})
      ensures to in s.subs && s.subs[to].slot == Some(old(s.phase).payload)
    {
      hide IsRun;
      Take(Picks(to));
      Others();
      InSubs();
      Take(Offers);
      if s.phase.Offering? {
        SendAgain();
      }
    }

    /** The slot was taken: drain it, unless the reader was faster, and send. */
    method SendAgain()
      requires Valid() && s.phase.Offering? && s.phase.offer == Drain
      modifies this
      ensures Valid() && old(states) <= states && s.subs.Keys == old(s.subs).Keys && s.sent == old(s.sent)
      ensures s.timer == old(s.timer)
      ensures s.phase == Sending(old(s.phase).payload, old(s.phase).todo)
      ensures old(s.phase).to in s.subs && s.subs[old(s.phase).to].slot == Some(old(s.phase).payload)
    {
      hide IsRun;
      Others();
      InSubs();
      Take(Offers);
      Others();
      InSubs();
      Take(Offers);
    }

    lemma InSubs()
      requires Valid()
      ensures Safe(s) && Served(s)
    {
      AlwaysSafe(states, steps, |states| - 1);
      AlwaysServed(states, steps, |states| - 1);
    }

    /** The part of broadcast under the lock. */
    method Deliver()
      requires Valid() && s.phase.Holding?
      modifies this
      ensures Valid() && old(states) <= states && s.phase == Idle && s.timer == old(s.timer)
      ensures forall id | id in s.subs :: Given(s.subs[id], Payload(old(s.sent) + 1, old(s.phase).version))
    {
      hide IsRun, Given, Safe;
      Take(Locks);
      ghost var p := s.phase.payload;
      while s.phase.todo != {}
        invariant Valid() && old(states) <= states && s.phase.Sending? && s.phase.payload == p
        invariant s.timer == old(s.timer)
        decreases |s.phase.todo|
      {
        var to :| to in s.phase.todo;
        Send(to);
      }
      InSubs();
      Take(Unlocks);
    }

    /** broadcast: when nobody is watching nothing is computed; otherwise everybody
        is given one snapshot begun after the call. */
    method Broadcast() returns (sent: Option<Payload>)
      requires Valid() && s.phase == Counting
      modifies this
      ensures Valid() && old(states) <= states && s.phase == Idle && s.timer == old(s.timer)
      ensures sent.None? ==> s.subs == map[]
      ensures sent.Some? ==>
                old(s.cache) <= sent.value.version && forall id | id in s.subs :: Given(s.subs[id], sent.value)
    {
      hide IsRun, Given;
      Others();
      Take(Counts);
      if s.phase == Idle {
        return None;
      }
      Others();
      var version: nat := *;
      version := if s.phase.began <= version <= s.cache then version else s.phase.began;
      Take(Computes(version));
      Others();
      sent := Some(Payload(s.sent + 1, version));
      Deliver();
    }

    /** One turn of run: some channel that is ready, if any is. A token arms the timer,
        a timer or a heartbeat makes a broadcast. */
    method Turn(ticked: bool) returns (turned: Turned)
      requires Valid() && s.phase == Idle
      modifies this
      ensures Valid() && old(states) <= states && s.phase == Idle
      ensures turned.Blocked? ==> !ticked && !old(s.dirty) && !old(s.timer)
      ensures turned.Armed? ==> !s.dirty && s.timer
      ensures turned.Fired? ==> old(s.timer) && !s.timer
      ensures turned.Beat? ==> ticked
      ensures (turned.Fired? || turned.Beat?) && turned.sent.Some? ==>
                old(s.cache) <= turned.sent.value.version && forall id | id in s.subs ::
                  Given(s.subs[id], turned.sent.value)
      ensures (turned.Fired? || turned.Beat?) && turned.sent.None? ==> s.subs == map[]
    {
      hide IsRun, Given;
      Others();
      var first: int := *; // the select takes any of those that are ready
      if s.dirty && (first == 0 || (!s.timer && !ticked)) {
        Take(TakesDirty); // the timer is armed unless it already is
        turned := Armed;
      } else if s.timer && (first == 1 || !ticked) {
        Take(TimerFires);
        var sent := Broadcast();
        turned := Fired(sent);
      } else if ticked {
        Take(Ticks);
        var sent := Broadcast();
        turned := Beat(sent);
      } else {
        turned := Blocked;
      }
    }

    /** Everybody but the handler of `id`. */
    method Elsewhere(id: nat)
      requires Valid() && id in s.subs
      modifies this
      ensures Valid() && old(states) <= states && old(s.cache) <= s.cache
      ensures id in s.subs && s.subs[id].handler == old(s.subs)[id].handler
    {
      hide IsRun, Do;
      var n: int := *;
      for i := 0 to if n < 0 then 0 else n
        invariant Valid() && old(states) <= states && old(s.cache) <= s.cache
        invariant id in s.subs && s.subs[id].handler == old(s.subs)[id].handler
      {
        var step: Step := *;
        if Possible(s, step) && !(OfHandler(step) && step.id == id) {
          HandlerKept(s, step, id);
          Take(step);
        }
      }
    }

    /** The start of handleEvents: subscribe first, then prime, so that no change
        falls between the two unnoticed. */
    method Connect(id: nat) returns (shown: nat)
      requires Valid() && Possible(s, Subscribes(id))
      modifies this
      ensures Valid() && old(states) <= states
      ensures id in s.subs && s.subs[id].handler == Primed(shown) && old(s.cache) <= shown
    {
      hide IsRun;
      Take(Subscribes(id));
      Elsewhere(id);
      Take(BeginsPrime(id));
      var began := s.cache;
      Elsewhere(id);
      var version: nat := *;
      shown := if began <= version <= s.cache then version else began;
      Take(EndsPrime(id, shown));
    }
  }
}
