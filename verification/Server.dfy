/**
 The server in front of the middleware chain: one session per client, the negotiation of
 its payment-interaction mode from the tags of each inbound message, and the dispatch of
 that message under the mode in force.
 */
module Server {
  import opened Lru
  import Chain

  // ---------- Negotiation ----------

  datatype Session = Session(requested: Option<Chain.Mode>, effective: Option<Chain.Mode>, disclosed: bool)

  const FRESH := Session(None, None, false)

  datatype Inbound = Inbound(tag: Option<string>, isRequest: bool, isInitialize: bool)

  /** A change of mode must be disclosed again; a repeated one need not be. */
  function ApplyEffective(s: Session, prev: Option<Chain.Mode>, next: Chain.Mode): (r: Session) {
    if Some(next) != prev then s.(effective := Some(next), disclosed := false) else s
  }

  /** The session afterwards, and whether the message may be dispatched. */
  function Negotiate(session: Session, m: Inbound, supportsGating: bool): (r: (Session, bool)) {
    var s := if m.isRequest && m.isInitialize then FRESH else session;
    match m.tag
    case None => (s, true)
    case Some(raw) =>
      var prev := s.effective;
      if raw == "transparent" || raw == "explicit_gating" then
        var mode := if raw == "explicit_gating" then Chain.ExplicitGating else Chain.Transparent;
        var asked := s.(requested := Some(mode));
        if mode == Chain.ExplicitGating && !supportsGating then
          var downgraded := ApplyEffective(asked, prev, Chain.Transparent);
          if m.isRequest then (downgraded, false) else (ApplyEffective(downgraded, prev, Chain.Transparent), true)
        else (ApplyEffective(asked, prev, if supportsGating then mode else Chain.Transparent), true)
      else (ApplyEffective(s.(requested := Some(Chain.Transparent)), prev, Chain.Transparent), true)
  }

  /** The mode a tag asks for; an unknown value asks for the default. */
  function Named(raw: string): (m: Chain.Mode) {
    if raw == "explicit_gating" then Chain.ExplicitGating else Chain.Transparent
  }

  /** The mode that comes of it: gating only where it is asked for and supported. */
  function Granted(raw: string, supportsGating: bool): (m: Chain.Mode) {
    if supportsGating then Named(raw) else Chain.Transparent
  }

  /**
   What negotiation comes to: an initialize request starts over; an untagged message
   changes nothing; a tagged one puts its mode in force, or the default one if that is not
   supported, and re-arms disclosure exactly when the mode changes; and only a request for
   an unsupported mode is turned away.
   */
  lemma NegotiationIs(session: Session, m: Inbound, supportsGating: bool)
    ensures var before := if m.isRequest && m.isInitialize then FRESH else session;
            var (after, proceed) := Negotiate(session, m, supportsGating);
            match m.tag
            case None => after == before && proceed
            case Some(raw) =>
              && after.requested == Some(Named(raw)) && after.effective == Some(Granted(raw, supportsGating))
              && after.disclosed == (before.disclosed && before.effective == after.effective)
              && (proceed <==> !(m.isRequest && Named(raw) == Chain.ExplicitGating && !supportsGating))
  {
  }

  /** The mode handed to the chain: an unset one means transparent. */
  function ModeOf(s: Session): (m: Option<Chain.Mode>) {
    Some(if s.effective.Some? then s.effective.value else Chain.Transparent)
  }

  // ---------- The server ----------

  /** `captured` are the modes in force when a frame of an oversized message came in. */
  datatype State = State(sessions: map<Key, Session>, captured: seq<Option<Chain.Mode>>, chain: Chain.State)

  function Init(policy: Chain.Policy, l: Chain.Limits): (s: State) {
    State(map[], [], Chain.Init(policy, l))
  }

  datatype Step =
    | Receive(client: Key, inbound: Inbound, message: Chain.Message)
    | ReceiveFrame(client: Key, inbound: Inbound)
    | Reassemble(frame: nat, message: Chain.Message)
    | Disclose(client: Key)
    | Evict(client: Key)
    | OfChain(step: Chain.Step)

  predicate Enabled(s: State, step: Step) {
    match step
    case Receive(_, inbound, m) => inbound.isRequest == m.isRequest
    case ReceiveFrame(_, inbound) => !inbound.isRequest
    case Reassemble(f, _) => f < |s.captured|
    case Disclose(client) => client in s.sessions
    case Evict(_) => true
    case OfChain(c) => !c.Dispatch? && Chain.Enabled(s.chain, c)
  }

  function SessionOf(s: State, client: Key): (r: Session) {
    if client in s.sessions then s.sessions[client] else FRESH
  }

  function Next(s: State, step: Step): (r: State)
    requires Enabled(s, step)
  {
    match step
    case Receive(client, inbound, m) =>
      var (session, proceed) := Negotiate(SessionOf(s, client), inbound, s.chain.policy.Optional?);
      s.(sessions := s.sessions[client := session],
         chain := if proceed then Chain.Next(s.chain, Chain.Dispatch(ModeOf(session), m)) else s.chain)
    case ReceiveFrame(client, inbound) =>
      var session := Negotiate(SessionOf(s, client), inbound, s.chain.policy.Optional?).0;
      s.(sessions := s.sessions[client := session], captured := s.captured + [ModeOf(session)])
    case Reassemble(f, m) => s.(chain := Chain.Next(s.chain, Chain.Dispatch(s.captured[f], m)))
    case Disclose(client) => s.(sessions := s.sessions[client := s.sessions[client].(disclosed := true)])
    case Evict(client) => s.(sessions := s.sessions - {client})
    case OfChain(c) => s.(chain := Chain.Next(s.chain, c))
  }

  ghost predicate Executable(s: State, steps: seq<Step>)
    decreases |steps|
  {
    steps == [] || (Enabled(s, steps[0]) && Executable(Next(s, steps[0]), steps[1..]))
  }

  ghost function Exec(s: State, steps: seq<Step>): (r: State)
    requires Executable(s, steps)
    decreases |steps|
  {
    if steps == [] then s else Exec(Next(s, steps[0]), steps[1..])
  }

  // ---------- No gating without support ----------

  /** A server without the gating middleware has no session and no message in its mode. */
  ghost predicate Negotiated(s: State) {
    && (s.chain.policy.TransparentOnly? ==>
          forall c :: c in s.sessions ==> s.sessions[c].effective != Some(Chain.ExplicitGating))
    && (forall f :: 0 <= f < |s.captured| ==> s.captured[f].Some? && !Chain.Ungated(s.chain.policy, s.captured[f]))
    && (forall i :: 0 <= i < |s.chain.sent| ==>
          s.chain.sent[i].mode.Some? && !Chain.Ungated(s.chain.policy, s.chain.sent[i].mode))
  }

  lemma NoGatingWithoutSupport(session: Session, m: Inbound)
    requires session.effective != Some(Chain.ExplicitGating)
    ensures Negotiate(session, m, false).0.effective != Some(Chain.ExplicitGating)
  {
  }

  lemma ModesStay(s: Chain.State, step: Chain.Step)
    requires Chain.Enabled(s, step) && !step.Dispatch?
    ensures var s' := Chain.Next(s, step);
            && |s'.sent| == |s.sent| && s'.policy == s.policy
            && (forall i :: 0 <= i < |s.sent| ==> s'.sent[i].mode == s.sent[i].mode)
  {
  }

  lemma NegotiatedStep(s: State, step: Step)
    requires Negotiated(s) && Enabled(s, step)
    ensures Negotiated(Next(s, step))
  {
    if (step.Receive? || step.ReceiveFrame?) && s.chain.policy.TransparentOnly? {
      NoGatingWithoutSupport(SessionOf(s, step.client), step.inbound);
    } else if step.OfChain? {
      ModesStay(s.chain, step.step);
    }
  }

  // ---------- The chain's part of a server run ----------

  function ChainPart(s: State, step: Step): (r: seq<Chain.Step>)
    requires Enabled(s, step)
  {
    match step
    case Receive(client, inbound, m) =>
      var (session, proceed) := Negotiate(SessionOf(s, client), inbound, s.chain.policy.Optional?);
      if proceed then [Chain.Dispatch(ModeOf(session), m)] else []
    case Reassemble(f, m) => [Chain.Dispatch(s.captured[f], m)]
    case OfChain(c) => [c]
    case _ => []
  }

  ghost function ChainSteps(s: State, steps: seq<Step>): (r: seq<Chain.Step>)
    requires Executable(s, steps)
    decreases |steps|
  {
    if steps == [] then [] else ChainPart(s, steps[0]) + ChainSteps(Next(s, steps[0]), steps[1..])
  }

  lemma ChainPartIs(s: State, step: Step)
    requires Enabled(s, step)
    ensures var part := ChainPart(s, step);
            if part == [] then Next(s, step).chain == s.chain
            else |part| == 1 && Chain.Enabled(s.chain, part[0]) && Next(s, step).chain == Chain.Next(s.chain, part[0])
    ensures forall c :: c in ChainPart(s, step) && !c.Dispatch? ==> step == OfChain(c)
  {
  }

  lemma ChainPrepends(s: Chain.State, part: seq<Chain.Step>, rest: seq<Chain.Step>)
    requires |part| == 1 && Chain.Enabled(s, part[0]) && Chain.Executable(Chain.Next(s, part[0]), rest)
    ensures Chain.Executable(s, part + rest) && Chain.Exec(s, part + rest) == Chain.Exec(Chain.Next(s, part[0]), rest)
  {
    assert (part + rest)[0] == part[0] && (part + rest)[1..] == rest;
  }

  /** A run of the server is, on the chain, a run of the chain. */
  lemma {:induction false} ChainRuns(s: State, steps: seq<Step>)
    requires Executable(s, steps)
    ensures Chain.Executable(s.chain, ChainSteps(s, steps))
    ensures Chain.Exec(s.chain, ChainSteps(s, steps)) == Exec(s, steps).chain
    decreases |steps|
  {
    if steps == [] {
    } else {
      var s1 := Next(s, steps[0]);
      var part, rest := ChainPart(s, steps[0]), ChainSteps(s1, steps[1..]);
      ChainPartIs(s, steps[0]);
      ChainRuns(s1, steps[1..]);
      if part == [] {
        assert part + rest == rest;
      } else {
        ChainPrepends(s.chain, part, rest);
      }
    }
  }

  /** The events it reports are the server's own. */
  lemma {:induction false} ChainStepsIn(s: State, steps: seq<Step>, c: Chain.Step)
    requires Executable(s, steps) && c in ChainSteps(s, steps) && !c.Dispatch?
    ensures OfChain(c) in steps
    decreases |steps|
  {
    if steps == [] {
    } else {
      ChainPartIs(s, steps[0]);
      if c !in ChainPart(s, steps[0]) {
        ChainStepsIn(Next(s, steps[0]), steps[1..], c);
      }
    }
  }

  lemma {:induction false} NegotiatedRun(s: State, steps: seq<Step>)
    requires Negotiated(s) && Executable(s, steps)
    ensures Negotiated(Exec(s, steps))
    decreases |steps|
  {
    if steps == [] {
    } else {
      NegotiatedStep(s, steps[0]);
      NegotiatedRun(Next(s, steps[0]), steps[1..]);
    }
  }

  lemma RunIsSound(policy: Chain.Policy, l: Chain.Limits, steps: seq<Step>)
    requires Executable(Init(policy, l), steps)
    ensures var s := Exec(Init(policy, l), steps);
            && Chain.Inv(s.chain) && s.chain.policy == policy && Negotiated(s)
            && Chain.History(s.chain, ChainSteps(Init(policy, l), steps))
  {
    ChainRuns(Init(policy, l), steps);
    Chain.RunIsSound(policy, l, ChainSteps(Init(policy, l), steps));
    NegotiatedRun(Init(policy, l), steps);
  }

  /**
   The promise of the whole server: under either policy, whatever the clients send and
   renegotiate and however sessions come and go, in every interleaving every delivery is
   charged by at most one lifecycle; and the events of the run justify every priced one
   that reaches the handler: its price was waived, or its own lifecycle verified its
   payment and forwarded it once, or it was forwarded on a payment for its own identity
   whose verification returned Ok and that no other request spends.
   */
  lemma PricedRequestsArePaidFor(policy: Chain.Policy, l: Chain.Limits, steps: seq<Step>, i: nat)
    requires Executable(Init(policy, l), steps) && i < |Exec(Init(policy, l), steps).chain.sent|
    ensures var s := Exec(Init(policy, l), steps).chain;
            && Chain.SingleCharge(s, i)
            && (Chain.Priced(s.sent[i]) && s.sent[i].stage.AtTerminal? ==>
                  Chain.Grounded(s, i, ChainSteps(Init(policy, l), steps)))
  {
    RunIsSound(policy, l, steps);
    var s := Exec(Init(policy, l), steps).chain;
    Chain.InvSingleCharge(s, i);
    if Chain.Priced(s.sent[i]) && s.sent[i].stage.AtTerminal? {
      Chain.GroundedUnlessUngated(s, i, ChainSteps(Init(policy, l), steps));
    }
  }
}
