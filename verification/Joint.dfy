/**
 One client and the gating server as a single system.  A handler for one of the client's
 invocations exists only because one of its events arrived, and a `-32042` reaches the
 client only because such a handler published an offer; each offer answers one event.
 Everything else either side may do, other clients' traffic included, is left free.
 */
module Joint {
  import opened Lru
  import Canonical
  import ClientRetries
  import Gating
  import Settlement
  import StoreProperties

  /**
   `origin` maps a handler to the client's event it was started for, `answered` are the
   handlers whose offer reached the client, `approved` the requests it paid for.
   */
  datatype State = State(
    client: ClientRetries.State, server: Gating.State,
    origin: map<nat, ClientRetries.Request>, answered: set<nat>, approved: seq<ClientRetries.Request>)

  /** The client's settings and key pair, the sizes of both caches, and what each id stands for. */
  datatype World = World(
    cfg: ClientRetries.Config, cap: nat, maxEntries: nat, pubkey: string, book: map<Key, ClientRetries.Request>)
  {
    ghost predicate Valid() { cfg.Valid() && 0 < cap }
  }

  function Init(w: World): (s: State)
    requires 0 < w.cap
  {
    State(ClientRetries.Init(w.cap), Gating.Init(w.maxEntries), map[], {}, [])
  }

  ghost function KeyFor(pubkey: string, r: ClientRetries.Request): (k: Option<Key>) {
    Canonical.KeyFor(pubkey, r.name, r.params)
  }

  /** No request of this client computes `k`. */
  ghost predicate Foreign(pubkey: string, k: Key) {
    forall r: ClientRetries.Request :: KeyFor(pubkey, r) != Some(k)
  }

  datatype Step =
    | OfClient(clientStep: ClientRetries.Step)
    | OfServer(serverStep: Gating.Step)
    | EventArrives(index: nat)
    | OfferArrives(handler: nat, index: nat)

  ghost predicate Enabled(w: World, s: State, step: Step) {
    match step
    case OfClient(c) =>
      && ClientRetries.Enabled(s.client, c) && !(c.Answer? && c.terminal.PaymentRequired?)
      && ClientRetries.NoIdReuse([c], w.book)
    case OfServer(g) => Gating.Enabled(s.server, g) && (g.Arrive? ==> Foreign(w.pubkey, g.key))
    case EventArrives(i) => i < |s.client.outstanding| && KeyFor(w.pubkey, s.client.outstanding[i]).Some?
    case OfferArrives(h, i) =>
      && h in s.origin && h < |s.server.tasks| && s.server.tasks[h].published && h !in s.answered
      && i < |s.client.outstanding| && s.client.outstanding[i] == s.origin[h]
  }

  ghost function Next(w: World, s: State, step: Step): (r: State)
    requires w.Valid() && Enabled(w, s, step)
  {
    match step
    case OfClient(c) =>
      s.(client := ClientRetries.Next(w.cfg, s.client, c),
         approved := if c.CallbackReturns? && c.outcome.Paid? then s.approved + [s.client.paying[c.index]] else s.approved)
    case OfServer(g) => s.(server := Gating.Next(s.server, g))
    case EventArrives(i) =>
      s.(server := Gating.Next(s.server, Gating.Arrive(KeyFor(w.pubkey, s.client.outstanding[i]).value)),
         origin := s.origin[|s.server.tasks| := s.client.outstanding[i]])
    case OfferArrives(h, i) =>
      s.(client := ClientRetries.Next(w.cfg, s.client, ClientRetries.Answer(i, ClientRetries.PaymentRequired)),
         answered := s.answered + {h})
  }

  ghost predicate Executable(w: World, s: State, steps: seq<Step>)
    requires w.Valid()
    decreases |steps|
  {
    steps == [] || (Enabled(w, s, steps[0]) && Executable(w, Next(w, s, steps[0]), steps[1..]))
  }

  ghost function Exec(w: World, s: State, steps: seq<Step>): (r: State)
    requires w.Valid() && Executable(w, s, steps)
    decreases |steps|
  {
    if steps == [] then s else Exec(w, Next(w, s, steps[0]), steps[1..])
  }

  ghost predicate Reachable(w: World, s: State)
    requires w.Valid()
  {
    exists steps :: Executable(w, Init(w), steps) && Exec(w, Init(w), steps) == s
  }

  // ---------- Counting by authorization key ----------

  ghost function CountFor(s: seq<ClientRetries.Request>, pubkey: string, k: Key): (n: nat) {
    if s == [] then 0 else (if KeyFor(pubkey, s[0]) == Some(k) then 1 else 0) + CountFor(s[1..], pubkey, k)
  }

  lemma {:induction false} CountForAppend(
    a: seq<ClientRetries.Request>, b: seq<ClientRetries.Request>, pubkey: string, k: Key)
    ensures CountFor(a + b, pubkey, k) == CountFor(a, pubkey, k) + CountFor(b, pubkey, k)
  {
    if a == [] {
      assert a + b == b;
    } else {
      assert (a + b)[1..] == a[1..] + b;
      CountForAppend(a[1..], b, pubkey, k);
    }
  }

  lemma CountForPush(s: seq<ClientRetries.Request>, r: ClientRetries.Request, pubkey: string, k: Key)
    ensures CountFor(s + [r], pubkey, k) == CountFor(s, pubkey, k) + if KeyFor(pubkey, r) == Some(k) then 1 else 0
  {
    CountForAppend(s, [r], pubkey, k);
    assert [r][1..] == [];
  }

  lemma CountForDrop(s: seq<ClientRetries.Request>, i: nat, pubkey: string, k: Key)
    requires i < |s|
    ensures CountFor(s, pubkey, k)
            == CountFor(ClientRetries.Drop(s, i), pubkey, k) + if KeyFor(pubkey, s[i]) == Some(k) then 1 else 0
  {
    assert s == s[..i] + s[i..];
    CountForAppend(s[..i], s[i..], pubkey, k);
    CountForAppend(s[..i], s[i + 1..], pubkey, k);
  }

  // ---------- What every step keeps ----------

  /** The answered offers for `k`. */
  function AnsweredFor(s: State, k: Key): (r: set<nat>) {
    set h | h in s.answered && h < |s.server.tasks| && s.server.tasks[h].key == k
  }

  ghost predicate AnswersBacked(s: State) {
    forall h :: h in s.answered ==> h < |s.server.tasks| && s.server.tasks[h].published
  }

  /** A handler for one of the client's invocations was started for an event of its own that asks for it. */
  ghost predicate OriginOk(w: World, s: State, h: nat)
    requires h < |s.server.tasks|
  {
    if h in s.origin then
      && KeyFor(w.pubkey, s.origin[h]) == Some(s.server.tasks[h].key)
      && s.origin[h].id in w.book && w.book[s.origin[h].id] == s.origin[h]
    else Foreign(w.pubkey, s.server.tasks[h].key)
  }

  ghost predicate OriginsOk(w: World, s: State) {
    && (forall h :: h in s.origin ==> h < |s.server.tasks|)
    && (forall h :: 0 <= h < |s.server.tasks| ==> OriginOk(w, s, h))
  }

  /** What was paid for `k`, and what may still be, is covered by offers that asked for it. */
  ghost predicate Covered(w: World, s: State, k: Key) {
    CountFor(s.approved, w.pubkey, k) + CountFor(s.client.paying, w.pubkey, k) <= |AnsweredFor(s, k)|
  }

  ghost predicate Inv(w: World, s: State, k: Key) {
    AnswersBacked(s) && OriginsOk(w, s) && ClientRetries.Booked(s.client, w.book) && Covered(w, s, k)
  }

  lemma TasksStay(s: Gating.State, step: Gating.Step, h: nat)
    requires Gating.Enabled(s, step) && h < |s.tasks|
    ensures var s' := Gating.Next(s, step);
            && h < |s'.tasks| && s'.tasks[h].key == s.tasks[h].key
            && (s.tasks[h].published ==> s'.tasks[h].published)
  {
    Gating.KeysStay(s, step, h);
  }

  /** The handlers there were keep their origins. */
  ghost predicate SameOrigins(s: State, s': State) {
    && (forall h :: h in s'.origin ==> h < |s'.server.tasks|)
    && (forall h :: 0 <= h < |s.server.tasks| ==>
          (h in s'.origin <==> h in s.origin) && (h in s.origin ==> s'.origin[h] == s.origin[h]))
  }

  lemma OldHandlersKeep(w: World, s: State, s': State, g: Gating.Step, h: nat)
    requires OriginsOk(w, s) && Gating.Enabled(s.server, g) && s'.server == Gating.Next(s.server, g)
    requires SameOrigins(s, s') && h < |s.server.tasks|
    ensures h < |s'.server.tasks| && s'.server.tasks[h].key == s.server.tasks[h].key
    ensures s.server.tasks[h].published ==> s'.server.tasks[h].published
    ensures OriginOk(w, s', h)
  {
    TasksStay(s.server, g, h);
    assert OriginOk(w, s, h);
  }

  lemma AnsweredStay(s: State, s': State, k: Key)
    requires s'.answered == s.answered && |s.server.tasks| <= |s'.server.tasks| && AnswersBacked(s)
    requires forall h :: 0 <= h < |s.server.tasks| ==>
               && s'.server.tasks[h].key == s.server.tasks[h].key
               && (s.server.tasks[h].published ==> s'.server.tasks[h].published)
    ensures AnswersBacked(s') && AnsweredFor(s', k) == AnsweredFor(s, k)
  {
  }

  /** The server moves by `g`; if that starts a handler, its origin is accounted for. */
  lemma ServerMoves(w: World, s: State, s': State, g: Gating.Step, k: Key)
    requires Inv(w, s, k) && Gating.Enabled(s.server, g) && s'.server == Gating.Next(s.server, g)
    requires s'.client == s.client && s'.answered == s.answered && s'.approved == s.approved && SameOrigins(s, s')
    requires g.Arrive? ==> |s.server.tasks| < |s'.server.tasks| && OriginOk(w, s', |s.server.tasks|)
    ensures Inv(w, s', k)
  {
    Gating.OneMore(s.server, g);
    forall h | 0 <= h < |s.server.tasks|
      ensures s'.server.tasks[h].key == s.server.tasks[h].key
      ensures s.server.tasks[h].published ==> s'.server.tasks[h].published
      ensures OriginOk(w, s', h)
    {
      OldHandlersKeep(w, s, s', g, h);
    }
    AnsweredStay(s, s', k);
  }

  lemma InvServer(w: World, s: State, g: Gating.Step, k: Key)
    requires w.Valid() && Inv(w, s, k) && Enabled(w, s, OfServer(g))
    ensures Inv(w, Next(w, s, OfServer(g)), k)
  {
    Gating.OneMore(s.server, g);
    if g.Arrive? {
      assert |s.server.tasks| !in s.origin;
      assert OriginOk(w, Next(w, s, OfServer(g)), |s.server.tasks|);
    }
    ServerMoves(w, s, Next(w, s, OfServer(g)), g, k);
  }

  lemma InvEvent(w: World, s: State, i: nat, k: Key)
    requires w.Valid() && Inv(w, s, k) && Enabled(w, s, EventArrives(i))
    ensures Inv(w, Next(w, s, EventArrives(i)), k)
  {
    var r := s.client.outstanding[i];
    assert r in s.client.outstanding;
    var g := Gating.Arrive(KeyFor(w.pubkey, r).value);
    Gating.OneMore(s.server, g);
    ServerMoves(w, s, Next(w, s, EventArrives(i)), g, k);
  }

  /** Only a `-32042` adds to the running callbacks. */
  lemma PayingShrinks(cfg: ClientRetries.Config, s: ClientRetries.State, c: ClientRetries.Step)
    requires cfg.Valid() && ClientRetries.Enabled(s, c) && !(c.Answer? && c.terminal.PaymentRequired?)
    ensures ClientRetries.Next(cfg, s, c).paying
            == if c.CallbackReturns? then ClientRetries.Drop(s.paying, c.index) else s.paying
  {
  }

  lemma CoveredClient(w: World, s: State, c: ClientRetries.Step, k: Key)
    requires w.Valid() && Covered(w, s, k) && Enabled(w, s, OfClient(c))
    ensures Covered(w, Next(w, s, OfClient(c)), k)
  {
    PayingShrinks(w.cfg, s.client, c);
    assert AnsweredFor(Next(w, s, OfClient(c)), k) == AnsweredFor(s, k);
    if c.CallbackReturns? {
      CountForDrop(s.client.paying, c.index, w.pubkey, k);
      CountForPush(s.approved, s.client.paying[c.index], w.pubkey, k);
    }
  }

  /** Being asked to pay for an event starts at most one callback, for that event's own request. */
  lemma PayingGrows(w: World, s: ClientRetries.State, i: nat)
    requires w.Valid() && ClientRetries.Booked(s, w.book) && i < |s.outstanding|
    ensures var s' := ClientRetries.Next(w.cfg, s, ClientRetries.Answer(i, ClientRetries.PaymentRequired));
            s'.paying == s.paying || s'.paying == s.paying + [s.outstanding[i]]
  {
    assert s.outstanding[i] in s.outstanding;
    ClientRetries.ReactedBooked(w.cfg, s.cache, s.outstanding[i].id, ClientRetries.PaymentRequired, w.book);
  }

  lemma AnsweredGrows(s: State, s': State, h: nat, k: Key)
    requires h < |s.server.tasks| && h !in s.answered && s'.server == s.server && s'.answered == s.answered + {h}
    ensures |AnsweredFor(s', k)| == |AnsweredFor(s, k)| + if s.server.tasks[h].key == k then 1 else 0
  {
    assert AnsweredFor(s', k) == AnsweredFor(s, k) + if s.server.tasks[h].key == k then {h} else {};
  }

  lemma CoveredOffer(w: World, s: State, h: nat, i: nat, k: Key)
    requires w.Valid() && Inv(w, s, k) && Enabled(w, s, OfferArrives(h, i))
    ensures Covered(w, Next(w, s, OfferArrives(h, i)), k)
  {
    assert OriginOk(w, s, h);
    PayingGrows(w, s.client, i);
    CountForPush(s.client.paying, s.client.outstanding[i], w.pubkey, k);
    AnsweredGrows(s, Next(w, s, OfferArrives(h, i)), h, k);
  }

  lemma OriginsFrame(w: World, s: State, s': State)
    requires OriginsOk(w, s) && s'.server == s.server && s'.origin == s.origin
    ensures OriginsOk(w, s')
  {
    forall h | 0 <= h < |s'.server.tasks| ensures OriginOk(w, s', h) {
      assert OriginOk(w, s, h);
    }
  }

  lemma InvStep(w: World, s: State, step: Step, k: Key)
    requires w.Valid() && Inv(w, s, k) && Enabled(w, s, step)
    ensures Inv(w, Next(w, s, step), k)
  {
    match step
    case OfServer(g) => InvServer(w, s, g, k);
    case EventArrives(i) => InvEvent(w, s, i, k);
    case OfClient(c) =>
      ClientRetries.BookedStep(w.cfg, s.client, c, w.book);
      CoveredClient(w, s, c, k);
      OriginsFrame(w, s, Next(w, s, step));
    case OfferArrives(h, i) =>
      var answer := ClientRetries.Answer(i, ClientRetries.PaymentRequired);
      assert ClientRetries.NoIdReuse([answer], w.book);
      ClientRetries.BookedStep(w.cfg, s.client, answer, w.book);
      CoveredOffer(w, s, h, i, k);
      OriginsFrame(w, s, Next(w, s, step));
  }

  lemma {:induction false} InvRun(w: World, s: State, steps: seq<Step>, k: Key)
    requires w.Valid() && Inv(w, s, k) && Executable(w, s, steps)
    ensures Inv(w, Exec(w, s, steps), k)
    decreases |steps|
  {
    if steps == [] {
    } else {
      InvStep(w, s, steps[0], k);
      InvRun(w, Next(w, s, steps[0]), steps[1..], k);
    }
  }

  lemma ReachableIsSound(w: World, s: State, k: Key)
    requires w.Valid() && Reachable(w, s)
    ensures Inv(w, s, k)
  {
    var steps :| Executable(w, Init(w), steps) && Exec(w, Init(w), steps) == s;
    InvRun(w, Init(w), steps, k);
  }

  // ---------- Approvals ----------

  lemma ApprovalsStep(w: World, s: State, step: Step, id: Key)
    requires w.Valid() && Enabled(w, s, step) && s.client.approvals[id] == ClientRetries.Count(s.approved, id)
    ensures Next(w, s, step).client.approvals[id] == ClientRetries.Count(Next(w, s, step).approved, id)
  {
    if step.OfClient? && step.clientStep.CallbackReturns? {
      ClientRetries.CountPush(s.approved, s.client.paying[step.clientStep.index], id);
    }
  }

  lemma {:induction false} ApprovalsRun(w: World, s: State, steps: seq<Step>, id: Key)
    requires w.Valid() && Executable(w, s, steps) && s.client.approvals[id] == ClientRetries.Count(s.approved, id)
    ensures Exec(w, s, steps).client.approvals[id] == ClientRetries.Count(Exec(w, s, steps).approved, id)
    decreases |steps|
  {
    if steps == [] {
    } else {
      ApprovalsStep(w, s, steps[0], id);
      ApprovalsRun(w, Next(w, s, steps[0]), steps[1..], id);
    }
  }

  /**
   The client never pays more often than it was asked: if ids are not reused for
   different requests, then in every state client and server reach together the payments
   it approved for an invocation, under whatever ids, are no more than the offers the
   server published for that invocation.
   */
  lemma ApprovalsWithinOffers(w: World, s: State, k: Key, id: Key)
    requires w.Valid() && Reachable(w, s)
    ensures CountFor(s.approved, w.pubkey, k) <= |Gating.PublishedOffers(s.server, k)|
    ensures s.client.approvals[id] == ClientRetries.Count(s.approved, id)
  {
    ReachableIsSound(w, s, k);
    var steps :| Executable(w, Init(w), steps) && Exec(w, Init(w), steps) == s;
    ApprovalsRun(w, Init(w), steps, id);
    SubsetCount(AnsweredFor(s, k), Gating.PublishedOffers(s.server, k));
  }

  // ---------- The server's part of a joint run ----------

  ghost function ServerPart(w: World, s: State, step: Step): (r: seq<Gating.Step>)
    requires Enabled(w, s, step)
  {
    match step
    case OfServer(g) => [g]
    case EventArrives(i) => [Gating.Arrive(KeyFor(w.pubkey, s.client.outstanding[i]).value)]
    case _ => []
  }

  ghost function ServerSteps(w: World, s: State, steps: seq<Step>): (r: seq<Gating.Step>)
    requires w.Valid() && Executable(w, s, steps)
    decreases |steps|
  {
    if steps == [] then [] else ServerPart(w, s, steps[0]) + ServerSteps(w, Next(w, s, steps[0]), steps[1..])
  }

  /** A joint run is, on the server, a run of the gating protocol. */
  lemma {:induction false} ServerRuns(w: World, s: State, steps: seq<Step>)
    requires w.Valid() && Executable(w, s, steps)
    ensures Gating.Executable(s.server, ServerSteps(w, s, steps))
    ensures Gating.Exec(s.server, ServerSteps(w, s, steps)) == Exec(w, s, steps).server
    decreases |steps|
  {
    if steps == [] {
    } else {
      var s1 := Next(w, s, steps[0]);
      var part, rest := ServerPart(w, s, steps[0]), ServerSteps(w, s1, steps[1..]);
      ServerRuns(w, s1, steps[1..]);
      if part == [] {
        assert part + rest == rest;
      } else {
        assert (part + rest)[0] == part[0] && (part + rest)[1..] == rest;
      }
    }
  }

  lemma ServerIsReachable(w: World, s: State)
    requires w.Valid() && Reachable(w, s)
    ensures Gating.Reachable(w.maxEntries, s.server)
  {
    var steps :| Executable(w, Init(w), steps) && Exec(w, Init(w), steps) == s;
    ServerRuns(w, Init(w), steps);
  }

  // ---------- The paid retry ----------

  /**
   A joint run: in `s` verifier `v` is about to settle a payment for one of the client's
   events; then `mid` leads to `s1` without touching that grant on the server; and there
   handler `j`, started for an event of the client under the same id, is about to enter
   inside the window.
   */
  datatype Trip = Trip(s: State, v: nat, at: nat, mid: seq<Step>, s1: State, j: nat, now: nat, ttl: nat)

  ghost predicate Settles(w: World, t: Trip)
    requires w.Valid()
  {
    && Reachable(w, t.s) && Enabled(w, t.s, OfServer(Gating.Settle(t.v, t.at)))
    && t.s.server.verifiers[t.v].progress.ok && t.s.server.verifiers[t.v].cycle in t.s.origin
    && var s0 := Next(w, t.s, OfServer(Gating.Settle(t.v, t.at)));
    && Executable(w, s0, t.mid) && t.s1 == Exec(w, s0, t.mid)
    && Gating.Executable(s0.server, ServerSteps(w, s0, t.mid))
    && Settlement.Quiet(Settlement.StoreOps(s0.server, ServerSteps(w, s0, t.mid)),
                        t.s.server.verifiers[t.v].key, t.s.server.store.authorizations.cap)
  }

  ghost predicate AboutToEnter(w: World, t: Trip)
    requires w.Valid()
  {
    && Settles(w, t)
    && Enabled(w, t.s1, OfServer(Gating.Enter(t.j, t.now, t.ttl)))
    && t.now <= t.at + t.s.server.verifiers[t.v].ttl
    && t.j in t.s1.origin && t.s1.origin[t.j].id == t.s.origin[t.s.server.verifiers[t.v].cycle].id
  }

  ghost function Entered(w: World, t: Trip): (r: State)
    requires w.Valid() && AboutToEnter(w, t)
  {
    Next(w, t.s1, OfServer(Gating.Enter(t.j, t.now, t.ttl)))
  }

  ghost function OnServer(w: World, t: Trip): (r: Settlement.Trip)
    requires w.Valid() && Settles(w, t)
  {
    var s0 := Next(w, t.s, OfServer(Gating.Settle(t.v, t.at)));
    Settlement.Trip(w.maxEntries, t.s.server, t.v, t.at, ServerSteps(w, s0, t.mid), t.s1.server, t.j, t.now, t.ttl)
  }

  lemma SettlesOnServer(w: World, t: Trip)
    requires w.Valid() && Settles(w, t)
    ensures Gating.Reachable(w.maxEntries, t.s.server)
    ensures Settlement.SettledThenQuiet(t.s.server, t.v, t.at, OnServer(w, t).mid, t.s1.server)
  {
    ServerIsReachable(w, t.s);
    ServerRuns(w, Next(w, t.s, OfServer(Gating.Settle(t.v, t.at))), t.mid);
  }

  lemma VerifierHasItsCyclesKey(w: World, s: State, v: nat)
    requires w.Valid() && Reachable(w, s) && v < |s.server.verifiers|
    ensures var c := s.server.verifiers[v].cycle;
            c < |s.server.tasks| && s.server.tasks[c].key == s.server.verifiers[v].key
  {
    ServerIsReachable(w, s);
    Gating.ReachableIsSound(w.maxEntries, s.server);
    assert Gating.VerifierOk(s.server, s.server.verifiers[v]);
  }

  /** A handler the client's event `r` started works on the key of `r`, and `r` is what its id stands for. */
  ghost predicate StartedFor(w: World, s: State, h: nat, r: ClientRetries.Request) {
    && h < |s.server.tasks| && KeyFor(w.pubkey, r) == Some(s.server.tasks[h].key)
    && r.id in w.book && w.book[r.id] == r
  }

  lemma OriginStarted(w: World, s: State, h: nat, k: Key)
    requires Inv(w, s, k) && h in s.origin
    ensures StartedFor(w, s, h, s.origin[h])
  {
    assert OriginOk(w, s, h);
  }

  lemma PaymentIsForTheEvent(w: World, t: Trip)
    requires w.Valid() && Settles(w, t)
    ensures var c := t.s.server.verifiers[t.v].cycle;
            && StartedFor(w, t.s, c, t.s.origin[c])
            && t.s.server.tasks[c].key == t.s.server.verifiers[t.v].key
  {
    VerifierHasItsCyclesKey(w, t.s, t.v);
    ReachableIsSound(w, t.s, t.s.server.verifiers[t.v].key);
    OriginStarted(w, t.s, t.s.server.verifiers[t.v].cycle, t.s.server.verifiers[t.v].key);
  }

  lemma EntryIsForTheEvent(w: World, t: Trip)
    requires w.Valid() && AboutToEnter(w, t)
    ensures StartedFor(w, t.s1, t.j, t.s1.origin[t.j])
  {
    var k := t.s.server.verifiers[t.v].key;
    var s0 := Next(w, t.s, OfServer(Gating.Settle(t.v, t.at)));
    ReachableIsSound(w, t.s, k);
    InvStep(w, t.s, OfServer(Gating.Settle(t.v, t.at)), k);
    InvRun(w, s0, t.mid, k);
    OriginStarted(w, t.s1, t.j, k);
  }

  /**
   Client and server together, in one run: once a payment for an event of the client
   settles, the first handler to enter for an event the client sent under the same id is
   forwarded on that payment, and through any further joint run no other handler ever is.
   */
  lemma PaidRetryIsForwardedOnce(w: World, t: Trip, tail: seq<Step>)
    requires w.Valid() && AboutToEnter(w, t) && Executable(w, Entered(w, t), tail)
    ensures Settlement.OnlyForward(Entered(w, t).server, t.j, t.v)
    ensures Settlement.OnlyForward(Exec(w, Entered(w, t), tail).server, t.j, t.v)
  {
    SettlesOnServer(w, t);
    PaymentIsForTheEvent(w, t);
    EntryIsForTheEvent(w, t);
    ServerRuns(w, Entered(w, t), tail);
    Settlement.SettledPaymentForwardsOnce(OnServer(w, t), ServerSteps(w, Entered(w, t), tail));
  }

  // ---------- The round trip happens ----------

  lemma {:induction false} Extend(w: World, s: State, steps: seq<Step>, last: Step)
    requires w.Valid() && Executable(w, s, steps) && Enabled(w, Exec(w, s, steps), last)
    ensures Executable(w, s, steps + [last]) && Exec(w, s, steps + [last]) == Next(w, Exec(w, s, steps), last)
    decreases |steps|
  {
    var all := steps + [last];
    if steps == [] {
      assert all == [last] && all[1..] == [];
      assert Executable(w, Next(w, s, last), []);
    } else {
      assert all[0] == steps[0] && all[1..] == steps[1..] + [last];
      Extend(w, Next(w, s, steps[0]), steps[1..], last);
    }
  }

  lemma Reach(w: World, s: State, step: Step) returns (s': State)
    requires w.Valid() && Reachable(w, s) && Enabled(w, s, step)
    ensures s' == Next(w, s, step) && Reachable(w, s')
  {
    var steps :| Executable(w, Init(w), steps) && Exec(w, Init(w), steps) == s;
    Extend(w, Init(w), steps, step);
    s' := Next(w, s, step);
  }

  /** Where request `r` is on the client's side, and on the server's, at a point of its round trip. */
  ghost predicate ClientAt(
    s: State, r: ClientRetries.Request, outstanding: seq<ClientRetries.Request>, paying: seq<ClientRetries.Request>) {
    && s.client.outstanding == outstanding && s.client.paying == paying
    && r.id in s.client.cache.table && s.client.cache.table[r.id].request == r
  }

  ghost predicate ServerAt(
    s: State, r: ClientRetries.Request, tasks: seq<Gating.Task>, verifiers: seq<Gating.Verifier>) {
    s.server.tasks == tasks && s.server.verifiers == verifiers && s.origin == map[0 := r]
  }

  /** A client that pays when asked, and a request of its own with an identity. */
  ghost predicate Payer(w: World, r: ClientRetries.Request, k: Key) {
    && w.Valid() && w.cfg.hasCallback && KeyFor(w.pubkey, r) == Some(k)
    && r.id in w.book && w.book[r.id] == r
  }

  lemma EventIsSent(w: World, r: ClientRetries.Request, k: Key) returns (s: State)
    requires Payer(w, r, k)
    ensures Reachable(w, s) && ClientAt(s, r, [r], []) && ServerAt(s, r, [Gating.Task(k, Gating.Entering, false)], [])
    ensures s.answered == {} && s.server.store == Gating.Init(w.maxEntries).store
  {
    s := Init(w);
    assert Executable(w, s, []) && Exec(w, s, []) == s;
    s := Reach(w, s, OfClient(ClientRetries.AppSend(r, true)));
    s := Reach(w, s, EventArrives(0));
  }

  /** A step of the server that starts no handler leaves the client and the origins alone. */
  lemma ServerActs(w: World, s: State, g: Gating.Step) returns (s': State)
    requires w.Valid() && Reachable(w, s) && Gating.Enabled(s.server, g) && !g.Arrive?
    ensures Reachable(w, s') && s' == s.(server := Gating.Next(s.server, g))
  {
    s' := Reach(w, s, OfServer(g));
  }

  lemma CycleOpens(w: World, r: ClientRetries.Request, k: Key, asked: nat, paymentTtl: nat, ttl: nat) returns (s: State)
    requires Payer(w, r, k)
    ensures Reachable(w, s) && ClientAt(s, r, [r], []) && s.answered == {}
    ensures ServerAt(s, r, [Gating.Task(k, Gating.Retiming(ttl), false)], [])
  {
    s := EventIsSent(w, r, k);
    s := ServerActs(w, s, Gating.Enter(0, asked, paymentTtl));
    assert s.server.tasks == [Gating.Task(k, Gating.Initiating, false)];
    s := ServerActs(w, s, Gating.Initiate(0, Gating.Required(ttl)));
  }

  lemma OfferIsPublished(w: World, r: ClientRetries.Request, k: Key, asked: nat, paymentTtl: nat, ttl: nat)
    returns (s: State)
    requires Payer(w, r, k)
    ensures Reachable(w, s) && ClientAt(s, r, [r], []) && s.answered == {}
    ensures ServerAt(s, r, [Gating.Task(k, Gating.Spawning(ttl), true)], [])
  {
    s := CycleOpens(w, r, k, asked, paymentTtl, ttl);
    s := ServerActs(w, s, Gating.Retime(0, asked));
    assert s.server.tasks == [Gating.Task(k, Gating.Publishing(ttl), false)];
    s := ServerActs(w, s, Gating.Offer(0, Gating.Delivered));
  }

  lemma OfferGoesOut(w: World, r: ClientRetries.Request, k: Key, asked: nat, paymentTtl: nat, ttl: nat) returns (s: State)
    requires Payer(w, r, k)
    ensures Reachable(w, s) && ClientAt(s, r, [r], []) && s.answered == {}
    ensures ServerAt(s, r, [Gating.Task(k, Gating.Dropped, true)], [Gating.Verifier(0, k, ttl, Gating.Running)])
  {
    s := OfferIsPublished(w, r, k, asked, paymentTtl, ttl);
    s := ServerActs(w, s, Gating.Spawn(0));
  }

  lemma ClientPays(w: World, s: State, r: ClientRetries.Request, k: Key) returns (s': State)
    requires Payer(w, r, k) && Reachable(w, s) && ClientAt(s, r, [r], []) && s.answered == {}
    requires 0 in s.origin && s.origin[0] == r && |s.server.tasks| > 0 && s.server.tasks[0].published
    ensures Reachable(w, s') && ClientAt(s', r, [r], []) && s'.server == s.server && s'.origin == s.origin
  {
    s' := Reach(w, s, OfferArrives(0, 0));
    assert ClientAt(s', r, [], [r]);
    s' := Reach(w, s', OfClient(ClientRetries.CallbackReturns(0, ClientRetries.Paid(true))));
  }

  lemma PaymentIsVerified(w: World, r: ClientRetries.Request, k: Key, asked: nat, paymentTtl: nat, ttl: nat)
    returns (s: State)
    requires Payer(w, r, k)
    ensures Reachable(w, s) && ClientAt(s, r, [r], [])
    ensures ServerAt(s, r, [Gating.Task(k, Gating.Dropped, true)], [Gating.Verifier(0, k, ttl, Gating.Returned(true))])
  {
    s := OfferGoesOut(w, r, k, asked, paymentTtl, ttl);
    s := ClientPays(w, s, r, k);
    s := ServerActs(w, s, Gating.VerifyReturns(0, true));
  }

  lemma OneStep(w: World, s: State, step: Step)
    requires w.Valid() && Enabled(w, s, step)
    ensures Executable(w, s, [step]) && Exec(w, s, [step]) == Next(w, s, step)
    ensures ServerSteps(w, s, [step]) == ServerPart(w, s, step)
  {
    var s1 := Next(w, s, step);
    assert [step][1..] == [];
    assert Executable(w, s1, []) && Exec(w, s1, []) == s1;
    assert ServerSteps(w, s1, []) == [];
  }

  lemma RetryArrives(w: World, s: State, r: ClientRetries.Request, k: Key) returns (s': State)
    requires Payer(w, r, k) && s.client.outstanding == [r] && s.origin == map[0 := r]
    requires s.server.tasks == [Gating.Task(k, Gating.Dropped, true)]
    ensures Enabled(w, s, EventArrives(0)) && s' == Next(w, s, EventArrives(0))
    ensures ServerPart(w, s, EventArrives(0)) == [Gating.Arrive(k)]
    ensures s'.origin == map[0 := r, 1 := r]
    ensures s'.server.tasks == [Gating.Task(k, Gating.Dropped, true), Gating.Task(k, Gating.Entering, false)]
  {
    s' := Next(w, s, EventArrives(0));
  }

  lemma ArrivalIsQuiet(s: Gating.State, k: Key, cap: nat)
    requires 0 < cap
    ensures Gating.Executable(s, [Gating.Arrive(k)])
    ensures Settlement.Quiet(Settlement.StoreOps(s, [Gating.Arrive(k)]), k, cap)
  {
    assert [Gating.Arrive(k)][1..] == [];
    assert Gating.Executable(Gating.Next(s, Gating.Arrive(k)), []);
    assert Settlement.StoreOps(s, [Gating.Arrive(k)]) == [];
    assert StoreProperties.GrantedKeys([]) == {};
  }

  /** A payment that settles just before one of the client's events arrives. */
  lemma SettlesBeforeArrival(w: World, t: Trip, s0: State, i: nat, k: Key)
    requires w.Valid() && Reachable(w, t.s) && Enabled(w, t.s, OfServer(Gating.Settle(t.v, t.at)))
    requires t.s.server.verifiers[t.v].progress.ok && t.s.server.verifiers[t.v].cycle in t.s.origin
    requires t.s.server.verifiers[t.v].key == k
    requires s0 == Next(w, t.s, OfServer(Gating.Settle(t.v, t.at))) && t.mid == [EventArrives(i)]
    requires Enabled(w, s0, EventArrives(i)) && ServerPart(w, s0, EventArrives(i)) == [Gating.Arrive(k)]
    requires t.s1 == Next(w, s0, EventArrives(i))
    ensures Settles(w, t)
  {
    OneStep(w, s0, EventArrives(i));
    ServerIsReachable(w, t.s);
    Settlement.ReachableStoreIsValid(w.maxEntries, t.s.server);
    ArrivalIsQuiet(s0.server, k, t.s.server.store.authorizations.cap);
  }

  lemma RetryIsAboutToEnter(w: World, r: ClientRetries.Request, k: Key, s: State, ttl: nat, at: nat, now: nat, entryTtl: nat)
    returns (t: Trip)
    requires Payer(w, r, k) && now <= at + ttl && Reachable(w, s) && ClientAt(s, r, [r], [])
    requires ServerAt(s, r, [Gating.Task(k, Gating.Dropped, true)], [Gating.Verifier(0, k, ttl, Gating.Returned(true))])
    ensures AboutToEnter(w, t) && t.s == s && t.s1.origin[t.j] == r
  {
    var s0 := ServerActs(w, s, Gating.Settle(0, at));
    var s1 := RetryArrives(w, s0, r, k);
    t := Trip(s, 0, at, [EventArrives(0)], s1, 1, now, entryTtl);
    SettlesBeforeArrival(w, t, s0, 0, k);
  }

  /**
   The round trip happens: for every request with an identity, every client with a
   payment callback, every capacity and every timing inside the window, one joint run
   sends the request, offers, pays, settles, retries, and forwards the retry, and it
   alone, on that payment.
   */
  lemma PayerIsServed(
    w: World, r: ClientRetries.Request, k: Key, asked: nat, paymentTtl: nat, ttl: nat, at: nat, now: nat)
    returns (t: Trip)
    requires Payer(w, r, k) && now <= at + ttl
    ensures AboutToEnter(w, t) && t.s1.origin[t.j] == r
    ensures Settlement.OnlyForward(Entered(w, t).server, t.j, t.v)
  {
    var s := PaymentIsVerified(w, r, k, asked, paymentTtl, ttl);
    t := RetryIsAboutToEnter(w, r, k, s, ttl, at, now, paymentTtl);
    PaidRetryIsForwardedOnce(w, t, []);
  }
}
