/**
 The two payment middlewares in registration order, in front of the terminal that hands
 a message to the MCP handler.  Dispatched messages run concurrently: each one passes the
 transparent middleware, which may turn it into a lifecycle of the dedup cache, and then,
 if it is registered, the gating middleware, which may turn it into a handler of the
 gating protocol.
 */
module Chain {
  import opened Lru
  import Lifecycle
  import Dedup = TransparentDedup
  import Gating

  datatype Mode = Transparent | ExplicitGating

  /** `Optional` registers both middlewares, `TransparentOnly` the first one alone. */
  datatype Policy = Optional | TransparentOnly

  /** What the chain sees of a message; `identity` is the authorization key, if it can be computed. */
  datatype Message = Message(isRequest: bool, priced: bool, eventId: Key, identity: Option<Key>)

  datatype Stage = AtTransparent | AwaitingFlight | AtGating | AwaitingTask | AtTerminal | Gone

  /** A dispatched message: the mode it carries, what it became, and how far it is. */
  datatype Dispatched = Dispatched(
    mode: Option<Mode>, message: Message, flight: Option<nat>, task: Option<nat>, stage: Stage)

  datatype Limits = Limits(maxPending: nat, ttl: nat, maxEntries: nat)

  datatype State = State(policy: Policy, dedup: Dedup.State, gating: Gating.State, sent: seq<Dispatched>)

  function Init(policy: Policy, l: Limits): (s: State) {
    State(policy, Dedup.Init(l.maxPending, l.ttl), Gating.Init(l.maxEntries), [])
  }

  datatype Step =
    | Dispatch(mode: Option<Mode>, message: Message)
    | TransparentHandles(index: nat, now: nat, world: Lifecycle.World)
    | FlightForwards(index: nat)
    | GatingHandles(index: nat)
    | TaskForwards(index: nat)
    | OfDedup(dedupStep: Dedup.Step)
    | OfGating(gatingStep: Gating.Step)

  predicate Forwarded(p: Gating.Phase) {
    p.WaivedForward? || p.ClaimForward?
  }

  predicate Enabled(s: State, step: Step) {
    match step
    case Dispatch(_, _) => true
    case TransparentHandles(i, now, _) => i < |s.sent| && s.sent[i].stage.AtTransparent? && now <= s.dedup.clock
    case FlightForwards(i) =>
      && i < |s.sent| && s.sent[i].stage.AwaitingFlight? && s.sent[i].flight.Some?
      && s.sent[i].flight.value < |s.dedup.flights| && s.dedup.flights[s.sent[i].flight.value].life.forwards > 0
    case GatingHandles(i) => i < |s.sent| && s.sent[i].stage.AtGating?
    case TaskForwards(i) =>
      && i < |s.sent| && s.sent[i].stage.AwaitingTask? && s.sent[i].task.Some?
      && s.sent[i].task.value < |s.gating.tasks| && Forwarded(s.gating.tasks[s.sent[i].task.value].phase)
    case OfDedup(d) => !d.Deliver? && Dedup.Enabled(s.dedup, d)
    case OfGating(g) => !g.Arrive? && Gating.Enabled(s.gating, g)
  }

  /** Where the message goes when the transparent middleware lets it pass. */
  function PastTransparent(policy: Policy): (p: Stage) {
    if policy.Optional? then AtGating else AtTerminal
  }

  /** The transparent middleware leaves alone what is no request, belongs to another mode, or is free. */
  predicate TransparentPasses(d: Dispatched) {
    !d.message.isRequest || (d.mode.Some? && d.mode.value != Transparent) || !d.message.priced
  }

  /** The gating middleware acts in its own mode only; an absent mode passes. */
  predicate GatingPasses(d: Dispatched) {
    !d.message.isRequest || d.mode != Some(ExplicitGating) || !d.message.priced
  }

  function Put(s: State, i: nat, d: Dispatched): (r: State)
    requires i < |s.sent|
  {
    s.(sent := s.sent[i := d])
  }

  /** A priced request enters the dedup cache; a duplicate or a refused one goes no further. */
  function Delivered(s: State, i: nat, now: nat, w: Lifecycle.World): (r: State)
    requires i < |s.sent| && now <= s.dedup.clock
  {
    var d := s.sent[i];
    var dedup := Dedup.Next(s.dedup, Dedup.Deliver(d.message.eventId, now, w));
    if |dedup.flights| > |s.dedup.flights|
    then Put(s.(dedup := dedup), i, d.(flight := Some(|s.dedup.flights|), stage := AwaitingFlight))
    else Put(s.(dedup := dedup), i, d.(stage := Gone))
  }

  /** A priced request without an identity is dropped; any other becomes a handler. */
  function Gated(s: State, i: nat): (r: State)
    requires i < |s.sent|
  {
    var d := s.sent[i];
    match d.message.identity
    case None => Put(s, i, d.(stage := Gone))
    case Some(k) =>
      Put(s.(gating := Gating.Next(s.gating, Gating.Arrive(k))), i,
          d.(task := Some(|s.gating.tasks|), stage := AwaitingTask))
  }

  function Next(s: State, step: Step): (r: State)
    requires Enabled(s, step)
  {
    match step
    case Dispatch(mode, m) => s.(sent := s.sent + [Dispatched(mode, m, None, None, AtTransparent)])
    case TransparentHandles(i, now, w) =>
      if TransparentPasses(s.sent[i]) then Put(s, i, s.sent[i].(stage := PastTransparent(s.policy)))
      else Delivered(s, i, now, w)
    case FlightForwards(i) => Put(s, i, s.sent[i].(stage := PastTransparent(s.policy)))
    case GatingHandles(i) =>
      if GatingPasses(s.sent[i]) then Put(s, i, s.sent[i].(stage := AtTerminal)) else Gated(s, i)
    case TaskForwards(i) => Put(s, i, s.sent[i].(stage := AtTerminal))
    case OfDedup(d) => s.(dedup := Dedup.Next(s.dedup, d))
    case OfGating(g) => s.(gating := Gating.Next(s.gating, g))
  }

  ghost predicate Executable(s: State, steps: seq<Step>)
    decreases |steps|
  {
    steps == [] || (Enabled(s, steps[0]) && Executable(Next(s, steps[0]), steps[1..]))
  }

  ghost function Exec(s: State, steps: seq<Step>): (r: State)
    requires Executable(s, steps)
    decreases |steps|
  {
    if steps == [] then s else Exec(Next(s, steps[0]), steps[1..])
  }

  // ---------- What a dispatched message knows about itself ----------

  predicate Priced(d: Dispatched) {
    d.message.isRequest && d.message.priced
  }

  /** The one combination the bare chain lets through free: a gating message on a server without that middleware. */
  predicate Ungated(policy: Policy, mode: Option<Mode>) {
    policy.TransparentOnly? && mode == Some(ExplicitGating)
  }

  /** The lifecycle a message became is its own event's, and the message is past it only once it was forwarded. */
  ghost predicate FlightOk(s: State, d: Dispatched) {
    d.flight.Some? ==>
      && Priced(d) && d.mode != Some(ExplicitGating) && !d.stage.AtTransparent?
      && d.flight.value < |s.dedup.flights| && s.dedup.flights[d.flight.value].id == d.message.eventId
      && (d.stage.AtGating? || d.stage.AtTerminal? ==> s.dedup.flights[d.flight.value].life.forwards > 0)
  }

  /** Likewise the handler a message became. */
  ghost predicate HandlerOk(s: State, d: Dispatched) {
    d.task.Some? ==>
      && Priced(d) && d.mode == Some(ExplicitGating) && !d.stage.AtTransparent? && !d.stage.AtGating?
      && d.task.value < |s.gating.tasks| && d.message.identity == Some(s.gating.tasks[d.task.value].key)
      && (d.stage.AtTerminal? ==> Forwarded(s.gating.tasks[d.task.value].phase))
  }

  /** How a priced message got as far as it is. */
  ghost predicate StageOk(policy: Policy, d: Dispatched) {
    && (d.stage.AwaitingFlight? ==> d.flight.Some?)
    && (d.stage.AwaitingTask? ==> d.task.Some?)
    && (Priced(d) && d.stage.AtGating? ==> d.flight.Some? || d.mode == Some(ExplicitGating))
    && (Priced(d) && d.stage.AtTerminal? ==> d.flight.Some? || d.task.Some? || Ungated(policy, d.mode))
    && (d.stage.Gone? ==> Priced(d) && d.flight.None? && d.task.None?
                          && (d.mode == Some(ExplicitGating) ==> d.message.identity.None?))
  }

  ghost predicate SentOk(s: State, d: Dispatched) {
    FlightOk(s, d) && HandlerOk(s, d) && StageOk(s.policy, d)
  }

  ghost predicate Exclusive(s: State) {
    forall i, j :: 0 <= i < j < |s.sent| ==>
      && (s.sent[i].flight.Some? ==> s.sent[i].flight != s.sent[j].flight)
      && (s.sent[i].task.Some? ==> s.sent[i].task != s.sent[j].task)
  }

  ghost predicate Inv(s: State) {
    && Dedup.Inv(s.dedup) && Gating.Inv(s.gating)
    && (forall i :: 0 <= i < |s.sent| ==> SentOk(s, s.sent[i]))
    && Exclusive(s)
  }

  // ---------- What the steps of each part keep ----------

  /** Flights stay, with their event ids, and what was forwarded stays forwarded. */
  ghost predicate FlightsStay(a: Dedup.State, b: Dedup.State) {
    && |a.flights| <= |b.flights|
    && (forall f :: 0 <= f < |a.flights| ==>
          b.flights[f].id == a.flights[f].id && (a.flights[f].life.forwards > 0 ==> b.flights[f].life.forwards > 0))
  }

  ghost predicate TasksStay(a: Gating.State, b: Gating.State) {
    && |a.tasks| <= |b.tasks|
    && (forall i :: 0 <= i < |a.tasks| ==>
          b.tasks[i].key == a.tasks[i].key && (Forwarded(a.tasks[i].phase) ==> Forwarded(b.tasks[i].phase)))
  }

  lemma DedupStays(s: Dedup.State, step: Dedup.Step)
    requires Dedup.Inv(s) && Dedup.Enabled(s, step)
    ensures FlightsStay(s, Dedup.Next(s, step))
  {
    if step.Progress? {
      Lifecycle.AdvanceOk(s.flights[step.flight].world, s.flights[step.flight].life);
    }
  }

  lemma HandlerStays(s: Gating.State, step: Gating.Step)
    requires Gating.Enabled(s, step) && Gating.OfHandler(step)
    ensures |Gating.Next(s, step).tasks| == |s.tasks|
    ensures Gating.Next(s, step).tasks[step.task].key == s.tasks[step.task].key && !Forwarded(s.tasks[step.task].phase)
    ensures forall j :: 0 <= j < |s.tasks| && j != step.task ==> Gating.Next(s, step).tasks[j] == s.tasks[j]
  {
  }

  lemma GatingStays(s: Gating.State, step: Gating.Step)
    requires Gating.Enabled(s, step)
    ensures TasksStay(s, Gating.Next(s, step))
  {
    if Gating.OfHandler(step) {
      HandlerStays(s, step);
    } else if step.VerifyReturns? || step.Settle? {
      assert Gating.Next(s, step).tasks == s.tasks;
    }
  }

  /** Messages nobody touched are as fine after the parts moved on as before. */
  lemma SentStays(s: State, s': State, d: Dispatched)
    requires SentOk(s, d) && s'.policy == s.policy && FlightsStay(s.dedup, s'.dedup) && TasksStay(s.gating, s'.gating)
    ensures SentOk(s', d)
  {
  }

  lemma OnlyPartsMove(s: State, s': State)
    requires Inv(s) && s'.policy == s.policy && s'.sent == s.sent && Dedup.Inv(s'.dedup) && Gating.Inv(s'.gating)
    requires FlightsStay(s.dedup, s'.dedup) && TasksStay(s.gating, s'.gating)
    ensures Inv(s')
  {
    forall i | 0 <= i < |s'.sent| ensures SentOk(s', s'.sent[i]) {
      SentStays(s, s', s.sent[i]);
    }
  }

  /** One message moves, and what it becomes, if anything, is new. */
  lemma OneMessageMoves(s: State, s': State, i: nat, d: Dispatched)
    requires Inv(s) && i < |s.sent| && s'.policy == s.policy && s'.sent == s.sent[i := d]
    requires Dedup.Inv(s'.dedup) && Gating.Inv(s'.gating)
    requires FlightsStay(s.dedup, s'.dedup) && TasksStay(s.gating, s'.gating)
    requires SentOk(s', d)
    requires d.flight == s.sent[i].flight || d.flight == Some(|s.dedup.flights|)
    requires d.task == s.sent[i].task || d.task == Some(|s.gating.tasks|)
    ensures Inv(s')
  {
    forall j | 0 <= j < |s'.sent| ensures SentOk(s', s'.sent[j]) {
      if j != i {
        SentStays(s, s', s.sent[j]);
      }
    }
    forall j | 0 <= j < |s.sent| && j != i
      ensures d.flight.Some? ==> d.flight != s.sent[j].flight
      ensures d.task.Some? ==> d.task != s.sent[j].task
    {
      assert SentOk(s, s.sent[j]) && SentOk(s, s.sent[i]);
    }
  }

  lemma InvDispatch(s: State, mode: Option<Mode>, m: Message)
    requires Inv(s)
    ensures Inv(Next(s, Dispatch(mode, m)))
  {
    var s' := Next(s, Dispatch(mode, m));
    forall i | 0 <= i < |s'.sent| ensures SentOk(s', s'.sent[i]) {
      if i < |s.sent| {
        SentStays(s, s', s.sent[i]);
      }
    }
  }

  lemma InvDelivered(s: State, i: nat, now: nat, w: Lifecycle.World)
    requires Inv(s) && Enabled(s, TransparentHandles(i, now, w)) && !TransparentPasses(s.sent[i])
    ensures Inv(Delivered(s, i, now, w))
  {
    var step := Dedup.Deliver(s.sent[i].message.eventId, now, w);
    Dedup.InvStep(s.dedup, step);
    DedupStays(s.dedup, step);
    assert SentOk(s, s.sent[i]);
    OneMessageMoves(s, Delivered(s, i, now, w), i, Delivered(s, i, now, w).sent[i]);
  }

  lemma InvGated(s: State, i: nat)
    requires Inv(s) && Enabled(s, GatingHandles(i)) && !GatingPasses(s.sent[i])
    ensures Inv(Gated(s, i))
  {
    assert SentOk(s, s.sent[i]);
    if s.sent[i].message.identity.Some? {
      var step := Gating.Arrive(s.sent[i].message.identity.value);
      Gating.InvStep(s.gating, step);
      GatingStays(s.gating, step);
    }
    OneMessageMoves(s, Gated(s, i), i, Gated(s, i).sent[i]);
  }

  lemma InvPasses(s: State, step: Step)
    requires Inv(s) && Enabled(s, step)
    requires step.FlightForwards? || step.TaskForwards? || step.TransparentHandles? || step.GatingHandles?
    requires step.TransparentHandles? ==> TransparentPasses(s.sent[step.index])
    requires step.GatingHandles? ==> GatingPasses(s.sent[step.index])
    ensures Inv(Next(s, step))
  {
    assert SentOk(s, s.sent[step.index]);
    OneMessageMoves(s, Next(s, step), step.index, Next(s, step).sent[step.index]);
  }

  lemma InvStep(s: State, step: Step)
    requires Inv(s) && Enabled(s, step)
    ensures Inv(Next(s, step)) && Next(s, step).policy == s.policy
  {
    match step
    case Dispatch(mode, m) => InvDispatch(s, mode, m);
    case TransparentHandles(i, now, w) =>
      if TransparentPasses(s.sent[i]) {
        InvPasses(s, step);
      } else {
        InvDelivered(s, i, now, w);
      }
    case GatingHandles(i) =>
      if GatingPasses(s.sent[i]) {
        InvPasses(s, step);
      } else {
        InvGated(s, i);
      }
    case OfDedup(d) =>
      Dedup.InvStep(s.dedup, d);
      DedupStays(s.dedup, d);
      OnlyPartsMove(s, Next(s, step));
    case OfGating(g) =>
      Gating.InvStep(s.gating, g);
      GatingStays(s.gating, g);
      OnlyPartsMove(s, Next(s, step));
    case _ => InvPasses(s, step);
  }

  lemma InvInit(policy: Policy, l: Limits)
    ensures Inv(Init(policy, l))
  {
    Gating.InvInit(l.maxEntries);
  }

  lemma {:induction false} InvRun(s: State, steps: seq<Step>)
    requires Inv(s) && Executable(s, steps)
    ensures Inv(Exec(s, steps)) && Exec(s, steps).policy == s.policy
    decreases |steps|
  {
    if steps == [] {
    } else {
      InvStep(s, steps[0]);
      InvRun(Next(s, steps[0]), steps[1..]);
    }
  }

  // ---------- What a run's own events say ----------

  /** The steps of the gating protocol among those of a run, arrivals aside. */
  function GatingSteps(h: seq<Step>): (r: seq<Gating.Step>) {
    if h == [] then []
    else GatingSteps(h[..|h| - 1]) + if h[|h| - 1].OfGating? then [h[|h| - 1].gatingStep] else []
  }

  lemma GatingStepsPush(h: seq<Step>, step: Step)
    ensures GatingSteps(h + [step]) == GatingSteps(h) + if step.OfGating? then [step.gatingStep] else []
  {
    assert (h + [step])[..|h|] == h;
  }

  lemma {:induction false} GatingStepsIn(h: seq<Step>, g: Gating.Step)
    requires g in GatingSteps(h)
    ensures OfGating(g) in h
  {
    if h == [] {
    } else if h[|h| - 1] != OfGating(g) {
      GatingStepsIn(h[..|h| - 1], g);
    }
  }

  /** Message `i` was dispatched as it is, and its lifecycle lives in the world its own step met. */
  ghost predicate SentHistory(s: State, i: nat, h: seq<Step>)
    requires i < |s.sent|
  {
    var d := s.sent[i];
    && Dispatch(d.mode, d.message) in h
    && (d.flight.Some? && d.flight.value < |s.dedup.flights| ==>
          exists now :: TransparentHandles(i, now, s.dedup.flights[d.flight.value].world) in h)
  }

  ghost predicate History(s: State, h: seq<Step>) {
    && Gating.History(s.gating, GatingSteps(h))
    && (forall i :: 0 <= i < |s.sent| ==> SentHistory(s, i, h))
  }

  lemma GatingHistoryStep(s: State, step: Step, h: seq<Step>)
    requires Inv(s) && Gating.History(s.gating, GatingSteps(h)) && Enabled(s, step)
    ensures Gating.History(Next(s, step).gating, GatingSteps(h + [step]))
  {
    GatingStepsPush(h, step);
    if step.OfGating? {
      Gating.HistoryStep(s.gating, step.gatingStep, GatingSteps(h));
    } else if step.GatingHandles? && !GatingPasses(s.sent[step.index]) && s.sent[step.index].message.identity.Some? {
      var k := s.sent[step.index].message.identity.value;
      Gating.HistoryStep(s.gating, Gating.Arrive(k), GatingSteps(h));
      Gating.HistoryWithoutArrival(Next(s, step).gating, GatingSteps(h), k);
      assert GatingSteps(h) + [] == GatingSteps(h);
    } else {
      assert GatingSteps(h) + [] == GatingSteps(h);
    }
  }

  /** Flights keep the world they were started in. */
  lemma WorldsStay(s: Dedup.State, step: Dedup.Step, f: nat)
    requires Dedup.Enabled(s, step) && f < |s.flights|
    ensures f < |Dedup.Next(s, step).flights| && Dedup.Next(s, step).flights[f].world == s.flights[f].world
  {
  }

  lemma FlightsKeepWorlds(s: State, step: Step, f: nat)
    requires Enabled(s, step) && f < |s.dedup.flights|
    ensures f < |Next(s, step).dedup.flights|
    ensures Next(s, step).dedup.flights[f].world == s.dedup.flights[f].world
  {
    if step.OfDedup? {
      WorldsStay(s.dedup, step.dedupStep, f);
    } else if step.TransparentHandles? {
      WorldsStay(s.dedup, Dedup.Deliver(s.sent[step.index].message.eventId, step.now, step.world), f);
    }
  }

  /** What a step may do to a message: give it a lifecycle in the world of that very step, or leave its lifecycle alone. */
  lemma SentMoves(s: State, step: Step, i: nat)
    requires Enabled(s, step) && i < |s.sent|
    ensures var d, d' := s.sent[i], Next(s, step).sent[i];
            && d'.mode == d.mode && d'.message == d.message
            && (d'.flight != d.flight ==>
                  && step.TransparentHandles? && step.index == i && d'.flight == Some(|s.dedup.flights|)
                  && |s.dedup.flights| < |Next(s, step).dedup.flights|
                  && Next(s, step).dedup.flights[|s.dedup.flights|].world == step.world)
  {
  }

  lemma SentHistoryStep(s: State, step: Step, h: seq<Step>, i: nat)
    requires Inv(s) && Enabled(s, step) && i < |s.sent| && SentHistory(s, i, h)
    ensures i < |Next(s, step).sent| && SentHistory(Next(s, step), i, h + [step])
  {
    SentMoves(s, step, i);
    assert SentOk(s, s.sent[i]);
    var d := Next(s, step).sent[i];
    if d.flight.Some? && d.flight == s.sent[i].flight {
      FlightsKeepWorlds(s, step, d.flight.value);
      var now :| TransparentHandles(i, now, s.dedup.flights[d.flight.value].world) in h;
      assert TransparentHandles(i, now, s.dedup.flights[d.flight.value].world) in h + [step];
    } else if d.flight.Some? {
      assert TransparentHandles(i, step.now, Next(s, step).dedup.flights[d.flight.value].world) in h + [step];
    }
  }

  lemma HistoryStep(s: State, step: Step, h: seq<Step>)
    requires Inv(s) && History(s, h) && Enabled(s, step)
    ensures History(Next(s, step), h + [step])
  {
    GatingHistoryStep(s, step, h);
    forall i | 0 <= i < |Next(s, step).sent| ensures SentHistory(Next(s, step), i, h + [step]) {
      if i < |s.sent| {
        SentHistoryStep(s, step, h, i);
      } else {
        assert step in h + [step];
      }
    }
  }

  lemma {:induction false} HistoryRun(s: State, h: seq<Step>, steps: seq<Step>, all: seq<Step>)
    requires Inv(s) && History(s, h) && Executable(s, steps) && all == h + steps
    ensures History(Exec(s, steps), all)
    decreases |steps|
  {
    if steps == [] {
      assert all == h;
    } else {
      assert all == (h + [steps[0]]) + steps[1..];
      InvStep(s, steps[0]);
      HistoryStep(s, steps[0], h);
      HistoryRun(Next(s, steps[0]), h + [steps[0]], steps[1..], all);
    }
  }

  lemma RunIsSound(policy: Policy, l: Limits, steps: seq<Step>)
    requires Executable(Init(policy, l), steps)
    ensures var s := Exec(Init(policy, l), steps); Inv(s) && s.policy == policy && History(s, steps)
  {
    InvInit(policy, l);
    InvRun(Init(policy, l), steps);
    HistoryRun(Init(policy, l), [], steps, steps);
  }

  // ---------- The promise ----------

  /** A lifecycle published its invoice for this message. */
  predicate ChargedTransparently(s: State, d: Dispatched) {
    d.flight.Some? && d.flight.value < |s.dedup.flights| && s.dedup.flights[d.flight.value].life.published
  }

  /** A handler published its offer for this message. */
  predicate ChargedByGating(s: State, d: Dispatched) {
    d.task.Some? && d.task.value < |s.gating.tasks| && s.gating.tasks[d.task.value].published
  }

  /** Message `i` owns a lifecycle that forwarded it once, in a world that waived its price or verified its payment. */
  ghost predicate PaidInFlight(s: State, i: nat, h: seq<Step>)
    requires i < |s.sent|
  {
    && s.sent[i].flight.Some? && s.sent[i].flight.value < |s.dedup.flights|
    && s.dedup.flights[s.sent[i].flight.value].life.forwards == 1
    && (forall j :: 0 <= j < |s.sent| && j != i ==> s.sent[j].flight != s.sent[i].flight)
    && exists now, w :: TransparentHandles(i, now, w) in h && (w.initiation.Waived? || Lifecycle.Verifies(w))
  }

  /** Message `i` is handler `t`, and no other message is. */
  ghost predicate Handles(s: State, i: nat, t: nat)
    requires i < |s.sent|
  {
    && s.sent[i].task == Some(t) && t < |s.gating.tasks|
    && forall j :: 0 <= j < |s.sent| && j != i ==> s.sent[j].task != Some(t)
  }

  /** Handler `t` is the one handler forwarded on the payment of verifier `v`. */
  ghost predicate SpentBy(g: Gating.State, t: nat, v: nat) {
    && t < |g.tasks| && g.tasks[t].phase == Gating.ClaimForward(v)
    && forall u :: 0 <= u < |g.tasks| && u != t ==> g.tasks[u].phase != Gating.ClaimForward(v)
  }

  /** Message `i` was forwarded on a payment for its own identity that was verified and that no other handler spent. */
  ghost predicate PaidByClaim(s: State, i: nat, h: seq<Step>)
    requires i < |s.sent|
  {
    exists t: nat, v: nat :: Handles(s, i, t) && v < |s.gating.verifiers| && SpentBy(s.gating, t, v)
                             && s.sent[i].message.identity == Some(s.gating.verifiers[v].key)
                             && OfGating(Gating.VerifyReturns(v, true)) in h
  }

  /** Message `i` is a handler whose price was waived. */
  ghost predicate WaivedByGating(s: State, i: nat, h: seq<Step>)
    requires i < |s.sent|
  {
    exists t: nat :: Handles(s, i, t) && OfGating(Gating.Initiate(t, Gating.Waived)) in h
  }

  /** The events of the run so far justify handing message `i` to the MCP handler. */
  ghost predicate Grounded(s: State, i: nat, h: seq<Step>)
    requires i < |s.sent|
  {
    PaidInFlight(s, i, h) || WaivedByGating(s, i, h) || PaidByClaim(s, i, h)
  }

  lemma ForwardedHandlerIsGrounded(s: State, i: nat, h: seq<Step>)
    requires Inv(s) && History(s, h) && i < |s.sent| && s.sent[i].task.Some? && s.sent[i].stage.AtTerminal?
    ensures WaivedByGating(s, i, h) || PaidByClaim(s, i, h)
  {
    var t := s.sent[i].task.value;
    assert SentOk(s, s.sent[i]);
    assert Handles(s, i, t);
    if s.gating.tasks[t].phase.ClaimForward? {
      var v := s.gating.tasks[t].phase.payment;
      assert Gating.Paid(s.gating, v, s.gating.tasks[t].key);
      assert Gating.VerifierHistory(s.gating.verifiers[v], v, GatingSteps(h));
      GatingStepsIn(h, Gating.VerifyReturns(v, true));
      assert SpentBy(s.gating, t, v);
    } else {
      assert Gating.TaskHistory(s.gating.tasks[t], t, GatingSteps(h));
      GatingStepsIn(h, Gating.Initiate(t, Gating.Waived));
    }
  }

  lemma ForwardedFlightIsGrounded(s: State, i: nat, h: seq<Step>)
    requires Inv(s) && History(s, h) && i < |s.sent| && s.sent[i].flight.Some? && s.sent[i].stage.AtTerminal?
    ensures PaidInFlight(s, i, h)
  {
    assert SentOk(s, s.sent[i]) && SentHistory(s, i, h);
    var flight := s.dedup.flights[s.sent[i].flight.value];
    assert Lifecycle.LifeOk(flight.world, flight.life);
    var now :| TransparentHandles(i, now, flight.world) in h;
    assert flight.world.initiation.Waived? || Lifecycle.Verifies(flight.world);
  }

  /** Message `i` is at most one of a lifecycle and a handler, shares it with none, and is charged by at most one. */
  ghost predicate SingleCharge(s: State, i: nat)
    requires i < |s.sent|
  {
    var d := s.sent[i];
    && !(d.flight.Some? && d.task.Some?)
    && !(ChargedTransparently(s, d) && ChargedByGating(s, d))
    && (ChargedTransparently(s, d) || ChargedByGating(s, d) ==> Priced(d))
    && forall j :: 0 <= j < |s.sent| && j != i ==>
         && (d.flight.Some? ==> s.sent[j].flight != d.flight)
         && (d.task.Some? ==> s.sent[j].task != d.task)
  }

  lemma InvSingleCharge(s: State, i: nat)
    requires Inv(s) && i < |s.sent|
    ensures SingleCharge(s, i)
  {
    assert SentOk(s, s.sent[i]);
  }

  /**
   In every interleaving of messages, lifecycles, handlers and verifiers, a message is at
   most one of a lifecycle and a handler and is charged by at most one of them, an
   unpriced one by none.
   */
  lemma ChargedAtMostOnce(policy: Policy, l: Limits, steps: seq<Step>, i: nat)
    requires Executable(Init(policy, l), steps) && i < |Exec(Init(policy, l), steps).sent|
    ensures SingleCharge(Exec(Init(policy, l), steps), i)
  {
    InvInit(policy, l);
    InvRun(Init(policy, l), steps);
    InvSingleCharge(Exec(Init(policy, l), steps), i);
  }

  lemma GroundedUnlessUngated(s: State, i: nat, h: seq<Step>)
    requires Inv(s) && History(s, h) && i < |s.sent| && Priced(s.sent[i]) && s.sent[i].stage.AtTerminal?
    requires !Ungated(s.policy, s.sent[i].mode)
    ensures Grounded(s, i, h)
  {
    assert SentOk(s, s.sent[i]);
    if s.sent[i].flight.Some? {
      ForwardedFlightIsGrounded(s, i, h);
    } else {
      ForwardedHandlerIsGrounded(s, i, h);
    }
  }

  /** Whether, in every run, every priced message of this mode that reaches the terminal was paid for or waived. */
  ghost predicate AlwaysGrounded(policy: Policy, mode: Option<Mode>) {
    forall l: Limits, steps: seq<Step> | Executable(Init(policy, l), steps) ::
      AllGrounded(Exec(Init(policy, l), steps), mode, steps)
  }

  ghost predicate AllGrounded(s: State, mode: Option<Mode>, h: seq<Step>) {
    forall i: nat :: i < |s.sent| && Priced(s.sent[i]) && s.sent[i].stage.AtTerminal? && s.sent[i].mode == mode ==>
      Grounded(s, i, h)
  }

  lemma FreeRide(mode: Option<Mode>)
    requires mode == Some(ExplicitGating)
    ensures !AlwaysGrounded(TransparentOnly, mode)
  {
    var l := Limits(1, 1, 1);
    var s0 := Init(TransparentOnly, l);
    var w := Lifecycle.World(Lifecycle.InitErr, true, Lifecycle.PublishOk, true, Lifecycle.PublishOk,
                             Lifecycle.VerifyOk, true, Lifecycle.PublishOk, Lifecycle.Delivers);
    var dispatch := Dispatch(mode, Message(true, true, Key("event"), None));
    var handles := TransparentHandles(0, 0, w);
    var s1 := Next(s0, dispatch);
    var s2 := Next(s1, handles);
    assert s2.sent == [Dispatched(mode, dispatch.message, None, None, AtTerminal)];
    var steps := [dispatch, handles];
    assert steps[1..] == [handles] && [handles][1..] == [];
    assert Executable(s2, []) && Exec(s2, []) == s2;
    assert Executable(s1, [handles]) && Exec(s1, [handles]) == s2;
    assert Executable(s0, steps) && Exec(s0, steps) == s2;
    assert !Grounded(s2, 0, steps);
    assert !AllGrounded(s2, mode, steps);
  }

  /**
   The exact condition on the bare chain: in every run, every priced message of a mode
   that reaches the terminal was paid for or waived, if and only if the mode is not
   explicit gating on a server that registered no gating middleware.
   */
  lemma TerminalNeedsGrounds(policy: Policy, mode: Option<Mode>)
    ensures AlwaysGrounded(policy, mode) <==> !Ungated(policy, mode)
  {
    if Ungated(policy, mode) {
      FreeRide(mode);
    } else {
      forall l: Limits, steps: seq<Step> | Executable(Init(policy, l), steps)
        ensures AllGrounded(Exec(Init(policy, l), steps), mode, steps)
      {
        RunIsSound(policy, l, steps);
        var s := Exec(Init(policy, l), steps);
        forall i: nat | i < |s.sent| && Priced(s.sent[i]) && s.sent[i].stage.AtTerminal? && s.sent[i].mode == mode
          ensures Grounded(s, i, steps)
        {
          GroundedUnlessUngated(s, i, steps);
        }
      }
    }
  }

  // ---------- Nothing else is dropped ----------

  /**
   In every run, a message is dropped only if it is priced and has neither a lifecycle nor
   a handler of its own: in gating because it has no identity, otherwise because the dedup
   cache joined or refused it.
   */
  lemma OnlyUnpaidIsDropped(policy: Policy, l: Limits, steps: seq<Step>, i: nat)
    requires Executable(Init(policy, l), steps)
    requires var s := Exec(Init(policy, l), steps); i < |s.sent| && s.sent[i].stage.Gone?
    ensures var d := Exec(Init(policy, l), steps).sent[i];
            && d.message.isRequest && d.message.priced && d.flight.None? && d.task.None?
            && (d.mode == Some(ExplicitGating) ==> d.message.identity.None?)
  {
    RunIsSound(policy, l, steps);
    assert SentOk(Exec(Init(policy, l), steps), Exec(Init(policy, l), steps).sent[i]);
  }

  /** What the transparent middleware does with a message: pass it on, start a lifecycle for it, or drop it. */
  lemma TransparentDecides(s: State, i: nat, now: nat, w: Lifecycle.World)
    requires Enabled(s, TransparentHandles(i, now, w))
    ensures var d, d' := s.sent[i], Next(s, TransparentHandles(i, now, w)).sent[i];
            if Priced(d) && d.mode != Some(ExplicitGating) then
              if Dedup.Decide(s.dedup, d.message.eventId, now).1.Start?
              then d' == d.(flight := Some(|s.dedup.flights|), stage := AwaitingFlight)
              else d' == d.(stage := Gone)
            else d' == d.(stage := if s.policy.Optional? then AtGating else AtTerminal)
  {
  }

  /** The gating middleware passes on what is none of its business and turns the rest into a handler. */
  lemma GatingDecides(s: State, i: nat)
    requires Enabled(s, GatingHandles(i))
    ensures var d, d' := s.sent[i], Next(s, GatingHandles(i)).sent[i];
            if Priced(d) && d.mode == Some(ExplicitGating) then
              if d.message.identity.Some? then
                && d' == d.(task := Some(|s.gating.tasks|), stage := AwaitingTask)
                && |Next(s, GatingHandles(i)).gating.tasks| == |s.gating.tasks| + 1
                && Next(s, GatingHandles(i)).gating.tasks[|s.gating.tasks|].key == d.message.identity.value
              else d' == d.(stage := Gone)
            else d' == d.(stage := AtTerminal)
  {
  }

  /** Two more steps at most: past the transparent middleware, and past gating if it is registered. */
  function Onward(s: State, first: Step, i: nat): (steps: seq<Step>) {
    if s.policy.Optional? then [first, GatingHandles(i)] else [first]
  }

  /** `steps` can be taken and bring message `i` to the terminal. */
  ghost predicate Reaches(s: State, steps: seq<Step>, i: nat) {
    && Executable(s, steps)
    && i < |Exec(s, steps).sent| && Exec(s, steps).sent[i].stage.AtTerminal?
  }

  lemma OnwardReaches(s: State, first: Step, i: nat)
    requires Enabled(s, first) && i < |s.sent| && |Next(s, first).sent| == |s.sent| && Next(s, first).policy == s.policy
    requires Next(s, first).sent[i].stage == PastTransparent(s.policy)
    requires !Priced(s.sent[i]) || s.sent[i].mode != Some(ExplicitGating)
    requires Next(s, first).sent[i].message == s.sent[i].message && Next(s, first).sent[i].mode == s.sent[i].mode
    ensures Reaches(s, Onward(s, first, i), i)
  {
    var s1 := Next(s, first);
    assert [first][1..] == [] && [first, GatingHandles(i)][1..] == [GatingHandles(i)] && [GatingHandles(i)][1..] == [];
    assert Executable(s1, []) && Exec(s1, []) == s1;
    if s.policy.Optional? {
      GatingDecides(s1, i);
      var s2 := Next(s1, GatingHandles(i));
      assert Executable(s2, []) && Exec(s2, []) == s2;
      assert Executable(s1, [GatingHandles(i)]) && Exec(s1, [GatingHandles(i)]) == s2;
    }
  }

  /**
   Nothing paid for is lost: in every reachable state a message whose lifecycle or handler
   forwarded it, and one that costs nothing, reaches the terminal by its own next steps.
   */
  lemma ForwardedReachesTerminal(s: State, i: nat)
    requires Inv(s) && i < |s.sent|
    ensures s.sent[i].stage.AwaitingFlight? && s.dedup.flights[s.sent[i].flight.value].life.forwards > 0 ==>
              Reaches(s, Onward(s, FlightForwards(i), i), i)
    ensures s.sent[i].stage.AwaitingTask? && Forwarded(s.gating.tasks[s.sent[i].task.value].phase) ==>
              Reaches(s, [TaskForwards(i)], i)
    ensures forall w :: s.sent[i].stage.AtTransparent? && !Priced(s.sent[i]) ==>
              Reaches(s, Onward(s, TransparentHandles(i, s.dedup.clock, w), i), i)
  {
    assert SentOk(s, s.sent[i]);
    if s.sent[i].stage.AwaitingFlight? && s.dedup.flights[s.sent[i].flight.value].life.forwards > 0 {
      OnwardReaches(s, FlightForwards(i), i);
    }
    if s.sent[i].stage.AwaitingTask? && Forwarded(s.gating.tasks[s.sent[i].task.value].phase) {
      var s1 := Next(s, TaskForwards(i));
      assert [TaskForwards(i)][1..] == [];
      assert Executable(s1, []) && Exec(s1, []) == s1;
    }
    if s.sent[i].stage.AtTransparent? && !Priced(s.sent[i]) {
      forall w ensures Reaches(s, Onward(s, TransparentHandles(i, s.dedup.clock, w), i), i) {
        TransparentDecides(s, i, s.dedup.clock, w);
        OnwardReaches(s, TransparentHandles(i, s.dedup.clock, w), i);
      }
    }
  }
}
