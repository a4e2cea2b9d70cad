/** Whole runs of the correlator. Submits come from any goroutine at any point; one flush
    goroutine takes due alerts (or, at shutdown, all of them) and then dispatches what it took,
    outside the lock, so submits may fall between the two. */
module CorrelatorRuns {
  import opened Alerts
  import opened Grouping
  import opened Correlator

  datatype State = State(buffer: seq<Pending>, inflight: seq<Alert>, emitted: seq<Group>, stopped: bool)

  datatype Event =
    | Submit(alert: Alert, now: int)
    | Take(now: int)
    | TakeAll
    | Emit

  const INITIAL := State([], [], [], false)

  predicate Enabled(s: State, e: Event) {
    match e
    case Submit(_, _) => true
    case Take(_) => !s.stopped && s.inflight == []
    case TakeAll => !s.stopped && s.inflight == []
    case Emit => true
  }

  ghost function Apply(cfg: Config, s: State, e: Event): State {
    match e
    case Submit(a, now) => s.(buffer := s.buffer + [Pending(a, now + cfg.window)])
    case Take(now) => s.(buffer := Kept(s.buffer, now), inflight := Due(s.buffer, now))
    case TakeAll => s.(buffer := [], inflight := AlertsOf(s.buffer), stopped := true)
    case Emit => s.(inflight := [], emitted := s.emitted + Callbacks(cfg, s.inflight))
  }

  ghost predicate StepAt(cfg: Config, states: seq<State>, events: seq<Event>, k: nat)
    requires k < |events| < |states|
  {
    Enabled(states[k], events[k]) && states[k + 1] == Apply(cfg, states[k], events[k])
  }

  ghost predicate IsRun(cfg: Config, states: seq<State>, events: seq<Event>) {
    && |states| == |events| + 1
    && states[0] == INITIAL
    && forall k: nat :: k < |events| ==> StepAt(cfg, states, events, k)
  }

  /** `flushDue` is a take followed by a dispatch, `flushAll` a take-all followed by one. */
  lemma FlushIsTwoSteps(cfg: Config, s: State, now: int)
    requires s.inflight == [] && !s.stopped
    ensures Apply(cfg, Apply(cfg, s, Take(now)), Emit)
         == State(Kept(s.buffer, now), [], s.emitted + Callbacks(cfg, Due(s.buffer, now)), false)
    ensures Apply(cfg, Apply(cfg, s, TakeAll), Emit)
         == State([], [], s.emitted + Callbacks(cfg, AlertsOf(s.buffer)), true)
  {
  }

  /** `Submit` is possible at any time, a flush while the loop runs and has dispatched what it took. */
  lemma SubmitsAndFlushesCanRun(cfg: Config, s: State, a: Alert, now: int)
    ensures Enabled(s, Submit(a, now))
    ensures Apply(cfg, s, Submit(a, now))
         == State(s.buffer + [Pending(a, now + cfg.window)], s.inflight, s.emitted, s.stopped)
    ensures !s.stopped && s.inflight == [] ==> Enabled(s, Take(now)) && Enabled(s, TakeAll)
    ensures Enabled(s, Emit)
  {
  }

  /** The alerts of the submits among events[from..to]. */
  function Submitted(events: seq<Event>, from: nat, to: nat): seq<Alert>
    requires to <= |events|
  {
    if to <= from then []
    else Submitted(events, from, to - 1) + if events[to - 1].Submit? then [events[to - 1].alert] else []
  }

  function Held(s: State): multiset<Alert> {
    GroupContents(s.emitted) + multiset(s.inflight) + multiset(AlertsOf(s.buffer))
  }

  lemma SubmitHeld(cfg: Config, s: State, a: Alert, now: int)
    ensures Held(Apply(cfg, s, Submit(a, now))) == Held(s) + multiset{a}
  {
    AlertsOfSnoc(s.buffer, Pending(a, now + cfg.window));
  }

  lemma EmitHeld(cfg: Config, s: State)
    requires cfg.hasCallback
    ensures Held(Apply(cfg, s, Emit)) == Held(s)
  {
    DispatchConserves(cfg, s.inflight);
    GroupContentsAppend(s.emitted, GroupsOfBatch(cfg, s.inflight));
  }

  lemma StepHeld(cfg: Config, s: State, e: Event)
    requires cfg.hasCallback && Enabled(s, e)
    ensures Held(Apply(cfg, s, e)) == Held(s) + if e.Submit? then multiset{e.alert} else multiset{}
  {
    match e {
      case Submit(a, now) => SubmitHeld(cfg, s, a, now);
      case Take(now) => TakeConserves(s.buffer, now);
      case TakeAll =>
      case Emit => EmitHeld(cfg, s);
    }
  }

  /** At every point of every run, with every interleaving, what was submitted is what was emitted
      plus what is being dispatched plus what is buffered: nothing lost, nothing duplicated. */
  lemma {:induction false} RunConserves(cfg: Config, states: seq<State>, events: seq<Event>, n: nat)
    requires cfg.hasCallback && IsRun(cfg, states, events) && n <= |events|
    ensures multiset(Submitted(events, 0, n)) == Held(states[n])
  {
    if n > 0 {
      RunConserves(cfg, states, events, n - 1);
      assert StepAt(cfg, states, events, n - 1);
      StepHeld(cfg, states[n - 1], events[n - 1]);
    } else {
      assert GroupLists([]) == [];
    }
  }

  /** Every dispatch of every run: the batch taken before leaves in groups placed as they should be,
      and no other event emits anything. */
  lemma EmitsAsPlaced(cfg: Config, states: seq<State>, events: seq<Event>, k: nat)
    requires IsRun(cfg, states, events) && k < |events|
    ensures events[k].Emit? ==> Left(cfg, states[k].inflight, states[k].emitted, states[k + 1].emitted)
    ensures !events[k].Emit? ==> states[k + 1].emitted == states[k].emitted
  {
    assert StepAt(cfg, states, events, k);
    if events[k].Emit? { BatchLeaves(cfg, states[k].inflight, states[k].emitted); }
  }

  predicate AllWithin(groups: seq<Group>, max: int) {
    forall g :: g in groups ==> |GroupAlerts(g)| <= max
  }

  lemma StepCapped(cfg: Config, s: State, e: Event)
    requires cfg.maxGroupSize > 0 && AllWithin(s.emitted, cfg.maxGroupSize)
    ensures AllWithin(Apply(cfg, s, e).emitted, cfg.maxGroupSize)
  {
    if e.Emit? {
      DispatchConserves(cfg, s.inflight);
      assert AllWithin(Callbacks(cfg, s.inflight), cfg.maxGroupSize);
    }
  }

  /** No run emits a group above a positive cap. */
  lemma {:induction false} RunCapped(cfg: Config, states: seq<State>, events: seq<Event>, n: nat)
    requires cfg.maxGroupSize > 0 && IsRun(cfg, states, events) && n <= |events|
    ensures AllWithin(states[n].emitted, cfg.maxGroupSize)
  {
    if n == 0 {
    } else {
      RunCapped(cfg, states, events, n - 1);
      assert StepAt(cfg, states, events, n - 1);
      StepCapped(cfg, states[n - 1], events[n - 1]);
    }
  }

  // ---------------------------------------------------------------------------------------
  // Deadlines
  // ---------------------------------------------------------------------------------------

  /** The event neither stops the correlator nor ticks at or after the deadline. */
  predicate Spares(e: Event, deadline: int) {
    match e
    case Take(now) => now < deadline
    case TakeAll => false
    case _ => true
  }

  /** From its submit on, an alert stays buffered up to the first event that does not spare it. */
  lemma {:induction false} BufferedUntilDue(cfg: Config, states: seq<State>, events: seq<Event>, i: nat, j: nat)
    requires IsRun(cfg, states, events) && i < j <= |events|
    requires events[i].Submit?
    requires forall k :: i < k < j ==> Spares(events[k], events[i].now + cfg.window)
    ensures Pending(events[i].alert, events[i].now + cfg.window) in states[j].buffer
    decreases j
  {
    var b := Pending(events[i].alert, events[i].now + cfg.window);
    var k := j - 1;
    assert StepAt(cfg, states, events, k);
    if k > i {
      BufferedUntilDue(cfg, states, events, i, k);
      assert Spares(events[k], b.deadline);
      if events[k].Take? {
        KeptIff(states[k].buffer, events[k].now, b);
      }
    }
  }

  /** The first tick at or after its deadline takes the alert out of the buffer and into the
      batch being dispatched. */
  lemma LeavesAtFirstDueTick(cfg: Config, states: seq<State>, events: seq<Event>, i: nat, j: nat)
    requires IsRun(cfg, states, events) && i < j < |events|
    requires events[i].Submit? && events[j].Take? && events[i].now + cfg.window <= events[j].now
    requires forall k :: i < k < j ==> Spares(events[k], events[i].now + cfg.window)
    ensures var b := Pending(events[i].alert, events[i].now + cfg.window);
            b in states[j].buffer && b !in states[j + 1].buffer && b.alert in states[j + 1].inflight
  {
    var b := Pending(events[i].alert, events[i].now + cfg.window);
    BufferedUntilDue(cfg, states, events, i, j);
    assert StepAt(cfg, states, events, j);
    KeptIff(states[j].buffer, events[j].now, b);
    DueIff(states[j].buffer, events[j].now, b.alert);
  }

  /** What the buffer holds was submitted, with the deadline that submit gave it. */
  lemma {:induction false} BufferedWasSubmitted(cfg: Config, states: seq<State>, events: seq<Event>, j: nat, b: Pending)
    requires IsRun(cfg, states, events) && j <= |events| && b in states[j].buffer
    ensures exists i ::
      && 0 <= i < j && events[i].Submit? && events[i].alert == b.alert
      && events[i].now + cfg.window == b.deadline
    decreases j
  {
    if j == 0 {
    } else {
      var k := j - 1;
      assert StepAt(cfg, states, events, k);
      if events[k].Take? { KeptIff(states[k].buffer, events[k].now, b); }
      if b in states[k].buffer {
        BufferedWasSubmitted(cfg, states, events, k, b);
      } else {
        assert events[k].Submit?;
      }
    }
  }

  /** No tick takes an alert before a deadline that a submit of it set. */
  lemma NeverEarly(cfg: Config, states: seq<State>, events: seq<Event>, j: nat, a: Alert)
    requires IsRun(cfg, states, events) && j < |events|
    requires events[j].Take? && a in states[j + 1].inflight
    ensures exists i ::
      && 0 <= i < j && events[i].Submit? && events[i].alert == a
      && events[i].now + cfg.window <= events[j].now
  {
    assert StepAt(cfg, states, events, j);
    DueIff(states[j].buffer, events[j].now, a);
    var b :| b in states[j].buffer && b.alert == a && b.deadline <= events[j].now;
    BufferedWasSubmitted(cfg, states, events, j, b);
  }

  // ---------------------------------------------------------------------------------------
  // First in, first out
  // ---------------------------------------------------------------------------------------

  /** The entry is what the submit at event i put into the buffer. */
  predicate PutAt(cfg: Config, events: seq<Event>, b: Pending, i: nat) {
    i < |events| && events[i].Submit? && b == Pending(events[i].alert, events[i].now + cfg.window)
  }

  /** The entries were put by submits among the first n events, in the order of these. */
  predicate PutInOrder(cfg: Config, events: seq<Event>, n: nat, buffer: seq<Pending>, puts: seq<nat>) {
    && |puts| == |buffer| && Within(puts, n) && Ascending(puts)
    && forall k :: 0 <= k < |buffer| ==> PutAt(cfg, events, buffer[k], puts[k])
  }

  lemma PickInOrder(cfg: Config, events: seq<Event>, n: nat, buffer: seq<Pending>, puts: seq<nat>, places: seq<nat>,
          picked: seq<Pending>)
    requires PutInOrder(cfg, events, n, buffer, puts) && Within(places, |buffer|) && Ascending(places)
    requires |picked| == |places| && forall k :: 0 <= k < |places| ==> picked[k] == buffer[places[k]]
    ensures PutInOrder(cfg, events, n + 1, picked, At(puts, places))
  {
  }

  /** The buffer is a queue of submits. */
  lemma {:induction false} BufferInOrder(cfg: Config, states: seq<State>, events: seq<Event>, j: nat)
    returns (puts: seq<nat>)
    requires IsRun(cfg, states, events) && j <= |events|
    ensures PutInOrder(cfg, events, j, states[j].buffer, puts)
  {
    if j == 0 {
      puts := [];
    } else {
      puts := BufferInOrder(cfg, states, events, j - 1);
      assert StepAt(cfg, states, events, j - 1);
      match events[j - 1] {
        case Submit(_, _) => puts := puts + [j - 1];
        case Take(now) =>
          var places := KeptPlaces(states[j - 1].buffer, now);
          PickInOrder(cfg, events, j - 1, states[j - 1].buffer, puts, places, states[j].buffer);
          puts := At(puts, places);
        case TakeAll => puts := [];
        case Emit =>
      }
    }
  }

  /** The alerts are those of the submits at these places among the first n events, in this order. */
  predicate SubmitsOf(events: seq<Event>, n: nat, alerts: seq<Alert>, puts: seq<nat>) {
    && |puts| == |alerts| && Within(puts, n) && n <= |events| && Ascending(puts)
    && forall k :: 0 <= k < |alerts| ==> events[puts[k]].Submit? && events[puts[k]].alert == alerts[k]
  }

  /** What a tick takes was submitted in this order, each with a deadline that has passed. */
  lemma TakenInOrder(cfg: Config, states: seq<State>, events: seq<Event>, j: nat) returns (puts: seq<nat>)
    requires IsRun(cfg, states, events) && j < |events| && events[j].Take?
    ensures SubmitsOf(events, j, states[j + 1].inflight, puts)
    ensures forall k :: 0 <= k < |puts| ==> events[puts[k]].now + cfg.window <= events[j].now
  {
    puts := BufferInOrder(cfg, states, events, j);
    var places := DuePlaces(states[j].buffer, events[j].now);
    assert StepAt(cfg, states, events, j);
    var taken := At(states[j].buffer, places);
    PickInOrder(cfg, events, j, states[j].buffer, puts, places, taken);
    var queue := puts;
    puts := At(queue, places);
    forall k | 0 <= k < |places|
      ensures events[puts[k]].Submit? && states[j + 1].inflight[k] == events[puts[k]].alert
      ensures events[puts[k]].now + cfg.window <= events[j].now
    {
      assert places[k] in places;
      assert PutAt(cfg, events, states[j].buffer[places[k]], queue[places[k]]);
    }
  }

  /** The final flush takes what is left in this order. */
  lemma FlushedInOrder(cfg: Config, states: seq<State>, events: seq<Event>, j: nat) returns (puts: seq<nat>)
    requires IsRun(cfg, states, events) && j < |events| && events[j].TakeAll?
    ensures SubmitsOf(events, j, states[j + 1].inflight, puts)
  {
    puts := BufferInOrder(cfg, states, events, j);
    assert StepAt(cfg, states, events, j);
    if states[j].buffer != [] { AlertsOfAt(states[j].buffer, 0); }
    forall k | 0 <= k < |puts| ensures events[puts[k]].Submit? && states[j + 1].inflight[k] == events[puts[k]].alert {
      AlertsOfAt(states[j].buffer, k);
      assert PutAt(cfg, events, states[j].buffer[k], puts[k]);
    }
  }

  // ---------------------------------------------------------------------------------------
  // Shutdown
  // ---------------------------------------------------------------------------------------

  function Out(s: State): multiset<Alert> {
    GroupContents(s.emitted) + multiset(s.inflight)
  }

  lemma StoppedStep(cfg: Config, s: State, e: Event)
    requires cfg.hasCallback && Enabled(s, e) && s.stopped
    ensures Apply(cfg, s, e).stopped && Out(Apply(cfg, s, e)) == Out(s)
    ensures AlertsOf(Apply(cfg, s, e).buffer) == AlertsOf(s.buffer) + if e.Submit? then [e.alert] else []
  {
    match e
    case Submit(a, now) =>
      AlertsOfSnoc(s.buffer, Pending(a, now + cfg.window));
    case Emit =>
      DispatchConserves(cfg, s.inflight);
      GroupContentsAppend(s.emitted, GroupsOfBatch(cfg, s.inflight));
    case _ =>
  }

  lemma AtStop(cfg: Config, s: State)
    requires cfg.hasCallback && Enabled(s, TakeAll)
    ensures var t := Apply(cfg, s, TakeAll); t.stopped && AlertsOf(t.buffer) == [] && Out(t) == Held(s)
  {
  }

  /** Where a run is at k after its final flush at j. */
  predicate Settled(s: State, events: seq<Event>, j: nat, k: nat)
    requires j < k <= |events|
  {
    s.stopped && AlertsOf(s.buffer) == Submitted(events, j + 1, k) && Out(s) == multiset(Submitted(events, 0, j))
  }

  lemma SettledStays(cfg: Config, s: State, events: seq<Event>, j: nat, k: nat)
    requires cfg.hasCallback && j < k < |events| && Enabled(s, events[k]) && Settled(s, events, j, k)
    ensures Settled(Apply(cfg, s, events[k]), events, j, k + 1)
  {
    StoppedStep(cfg, s, events[k]);
  }

  /** After the final flush nothing is taken any more: what was submitted before it is emitted or
      on its way out, and what is submitted after it stays in the buffer. */
  lemma {:induction false} AfterStop(cfg: Config, states: seq<State>, events: seq<Event>, j: nat, k: nat)
    requires cfg.hasCallback && IsRun(cfg, states, events) && j < k <= |events|
    requires events[j].TakeAll?
    ensures states[k].stopped
    ensures AlertsOf(states[k].buffer) == Submitted(events, j + 1, k)
    ensures Out(states[k]) == multiset(Submitted(events, 0, j))
    decreases k
  {
    var m := k - 1;
    assert StepAt(cfg, states, events, m);
    if m == j {
      RunConserves(cfg, states, events, j);
      AtStop(cfg, states[j]);
    } else {
      AfterStop(cfg, states, events, j, m);
      assert Settled(states[m], events, j, m);
      SettledStays(cfg, states[m], events, j, m);
    }
  }

  lemma HeldIsOut(s: State)
    requires s.inflight == []
    ensures GroupContents(s.emitted) == Held(s) <==> AlertsOf(s.buffer) == []
  {
    assert |Held(s)| == |GroupContents(s.emitted)| + |AlertsOf(s.buffer)|;
  }

  predicate NoneSubmitted(events: seq<Event>, from: nat, to: nat)
    requires to <= |events|
  {
    forall k :: from <= k < to ==> !events[k].Submit?
  }

  lemma NoneSubmittedSnoc(events: seq<Event>, from: nat, to: nat)
    requires from < to <= |events|
    ensures NoneSubmitted(events, from, to) <==> NoneSubmitted(events, from, to - 1) && !events[to - 1].Submit?
  {
  }

  lemma {:induction false} NoSubmits(events: seq<Event>, from: nat, to: nat)
    requires to <= |events|
    ensures Submitted(events, from, to) == [] <==> NoneSubmitted(events, from, to)
  {
    if to <= from {
    } else {
      NoSubmits(events, from, to - 1);
      NoneSubmittedSnoc(events, from, to);
    }
  }

  lemma CompleteIffBufferEmpty(cfg: Config, states: seq<State>, events: seq<Event>)
    requires cfg.hasCallback && IsRun(cfg, states, events) && states[|events|].inflight == []
    ensures GroupContents(states[|events|].emitted) == multiset(Submitted(events, 0, |events|))
       <==> AlertsOf(states[|events|].buffer) == []
  {
    RunConserves(cfg, states, events, |events|);
    HeldIsOut(states[|events|]);
  }

  /** Once the final batch is out, a stopped run has emitted everything it was given exactly when
      no submit followed the final flush. */
  lemma ShutdownLosesNothingIff(cfg: Config, states: seq<State>, events: seq<Event>, j: nat)
    requires cfg.hasCallback && IsRun(cfg, states, events) && j < |events|
    requires events[j].TakeAll? && states[|events|].inflight == []
    ensures GroupContents(states[|events|].emitted) == multiset(Submitted(events, 0, |events|))
       <==> NoneSubmitted(events, j + 1, |events|)
  {
    CompleteIffBufferEmpty(cfg, states, events);
    AfterStop(cfg, states, events, j, |events|);
    NoSubmits(events, j + 1, |events|);
  }

  /** A run that stops and then gets an alert: the alert stays in the buffer and is emitted by no
      later event. */
  lemma LateSubmitIsLost(cfg: Config, a: Alert)
    requires cfg.hasCallback
    ensures var events := [TakeAll, Submit(a, 0)];
      var stopped := INITIAL.(stopped := true);
      var states := [INITIAL, stopped, stopped.(buffer := [Pending(a, cfg.window)])];
      IsRun(cfg, states, events) && GroupContents(states[2].emitted) != multiset(Submitted(events, 0, 2))
  {
    var events := [TakeAll, Submit(a, 0)];
    var stopped := INITIAL.(stopped := true);
    var states := [INITIAL, stopped, stopped.(buffer := [Pending(a, cfg.window)])];
    forall k: nat | k < 2 ensures StepAt(cfg, states, events, k) {
      assert k == 0 || k == 1;
    }
    ShutdownLosesNothingIff(cfg, states, events, 0);
    assert events[1].Submit?;
  }
}
