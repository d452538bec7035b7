/**
 The client engine's in-flight `pay_req` claims.  A transparent offer claims its
 `pay_req` before a detached chain asks the policy, then the handler, then the wallet;
 the claim is released when the chain is over, panics included.
 */
module WalletChains {

  /** A correlated `payment_required`, as the engine finds it on arrival. */
  datatype Offer = Offer(
    payReq: string, entryLive: bool, parses: bool, requestedGating: bool, effectiveGating: bool, hasHandler: bool)

  /** A client that asked for explicit gating and was refused must not pay a transparent offer. */
  predicate RefusedGating(o: Offer) {
    o.requestedGating && !o.effectiveGating
  }

  /** Every gate in front of the claim, and the claim itself. */
  predicate Admits(inFlight: set<string>, o: Offer) {
    o.entryLive && o.parses && !RefusedGating(o) && o.hasHandler && o.payReq !in inFlight
  }

  /** The engine's shared claim set: the hook claims synchronously, the spawned task releases. */
  class PayReqClaims {
    var inFlight: set<string>

    constructor ()
      ensures inFlight == {}
    {
      inFlight := {};
    }

    /** True when a chain is to be spawned. */
    method OnPaymentRequired(o: Offer) returns (spawn: bool)
      modifies this
      ensures spawn <==> o.entryLive && o.parses && (o.requestedGating ==> o.effectiveGating) && o.hasHandler
                         && o.payReq !in old(inFlight)
      ensures inFlight == if spawn then old(inFlight) + {o.payReq} else old(inFlight)
    {
      spawn := false;
      if !o.entryLive {
        return;
      }
      if !o.parses {
        return;
      }
      if RefusedGating(o) {
        return;
      }
      if !o.hasHandler {
        return;
      }
      if o.payReq in inFlight {
        return;
      }
      inFlight := inFlight + {o.payReq};
      spawn := true;
    }

    method Release(payReq: string)
      modifies this
      ensures inFlight == old(inFlight) - {payReq}
    {
      inFlight := inFlight - {payReq};
    }
  }

  datatype Phase = AskingPolicy | AskingHandler | Paying | Over | Released

  datatype Chain = Chain(offer: Offer, phase: Phase, walletCalls: nat)

  datatype State = State(inFlight: set<string>, chains: seq<Chain>)

  const INIT := State({}, [])

  datatype Verdict = Yes | No | Panics

  datatype Step =
    | Arrives(offer: Offer)
    | PolicyAnswers(chain: nat, verdict: Verdict)
    | HandlerAnswers(chain: nat, verdict: Verdict)
    | WalletReturns(chain: nat)
    | Releases(chain: nat)

  predicate Enabled(s: State, step: Step) {
    match step
    case Arrives(_) => true
    case PolicyAnswers(i, _) => i < |s.chains| && s.chains[i].phase.AskingPolicy?
    case HandlerAnswers(i, _) => i < |s.chains| && s.chains[i].phase.AskingHandler?
    case WalletReturns(i) => i < |s.chains| && s.chains[i].phase.Paying?
    case Releases(i) => i < |s.chains| && s.chains[i].phase.Over?
  }

  function Arrived(hasPolicy: bool, s: State, o: Offer): (r: State) {
    if Admits(s.inFlight, o) then
      State(s.inFlight + {o.payReq},
            s.chains + [Chain(o, if hasPolicy then AskingPolicy else AskingHandler, 0)])
    else s
  }

  function At(s: State, i: nat, c: Chain): (r: State)
    requires i < |s.chains|
  {
    s.(chains := s.chains[i := c])
  }

  function Next(hasPolicy: bool, s: State, step: Step): (r: State)
    requires Enabled(s, step)
  {
    match step
    case Arrives(o) => Arrived(hasPolicy, s, o)
    case PolicyAnswers(i, v) =>
      At(s, i, s.chains[i].(phase := if v.Yes? then AskingHandler else Over))
    case HandlerAnswers(i, v) =>
      // Accepting moves straight on to the wallet call.
      var c := s.chains[i];
      At(s, i, if v.Yes? then c.(phase := Paying, walletCalls := c.walletCalls + 1) else c.(phase := Over))
    case WalletReturns(i) => At(s, i, s.chains[i].(phase := Over))
    case Releases(i) =>
      At(s.(inFlight := s.inFlight - {s.chains[i].offer.payReq}), i, s.chains[i].(phase := Released))
  }

  ghost predicate Executable(hasPolicy: bool, s: State, steps: seq<Step>)
    decreases |steps|
  {
    steps == [] || (Enabled(s, steps[0]) && Executable(hasPolicy, Next(hasPolicy, s, steps[0]), steps[1..]))
  }

  ghost function Exec(hasPolicy: bool, s: State, steps: seq<Step>): (r: State)
    requires Executable(hasPolicy, s, steps)
    decreases |steps|
  {
    if steps == [] then s else Exec(hasPolicy, Next(hasPolicy, s, steps[0]), steps[1..])
  }

  predicate Running(c: Chain) {
    !c.phase.Released?
  }

  /** The gates an offer has to pass to get a chain. */
  ghost predicate Gated(o: Offer) {
    o.entryLive && o.parses && (o.requestedGating ==> o.effectiveGating) && o.hasHandler
  }

  ghost predicate Inv(s: State) {
    && (forall i :: 0 <= i < |s.chains| ==> Gated(s.chains[i].offer))
    && (forall i :: 0 <= i < |s.chains| && Running(s.chains[i]) ==> s.chains[i].offer.payReq in s.inFlight)
    && (forall p :: p in s.inFlight ==>
          exists i :: 0 <= i < |s.chains| && Running(s.chains[i]) && s.chains[i].offer.payReq == p)
    && (forall i, j :: 0 <= i < j < |s.chains| && Running(s.chains[i]) && Running(s.chains[j]) ==>
          s.chains[i].offer.payReq != s.chains[j].offer.payReq)
  }

  lemma InvSpawns(s: State, c: Chain)
    requires Inv(s) && c.offer.payReq !in s.inFlight && Running(c) && Gated(c.offer)
    ensures Inv(State(s.inFlight + {c.offer.payReq}, s.chains + [c]))
  {
    var s' := State(s.inFlight + {c.offer.payReq}, s.chains + [c]);
    var n := |s.chains|;
    assert s'.chains[n] == c;
    forall p | p in s'.inFlight
      ensures exists i :: 0 <= i < |s'.chains| && Running(s'.chains[i]) && s'.chains[i].offer.payReq == p
    {
      if p != c.offer.payReq {
        var i :| 0 <= i < n && Running(s.chains[i]) && s.chains[i].offer.payReq == p;
        assert s'.chains[i] == s.chains[i];
      }
    }
  }

  lemma InvArrives(hasPolicy: bool, s: State, o: Offer)
    requires Inv(s)
    ensures Inv(Arrived(hasPolicy, s, o))
  {
    if Admits(s.inFlight, o) {
      InvSpawns(s, Chain(o, if hasPolicy then AskingPolicy else AskingHandler, 0));
    }
  }

  lemma InvMoves(s: State, i: nat, c: Chain)
    requires Inv(s) && i < |s.chains| && Running(s.chains[i])
    requires c.offer == s.chains[i].offer && Running(c)
    ensures Inv(At(s, i, c))
  {
    var s' := At(s, i, c);
    forall p | p in s'.inFlight
      ensures exists j :: 0 <= j < |s'.chains| && Running(s'.chains[j]) && s'.chains[j].offer.payReq == p
    {
      var j :| 0 <= j < |s.chains| && Running(s.chains[j]) && s.chains[j].offer.payReq == p;
      assert Running(s'.chains[j]) && s'.chains[j].offer == s.chains[j].offer;
    }
  }

  lemma InvReleases(hasPolicy: bool, s: State, i: nat)
    requires Inv(s) && Enabled(s, Releases(i))
    ensures Inv(Next(hasPolicy, s, Releases(i)))
  {
    var s' := Next(hasPolicy, s, Releases(i));
    forall p | p in s'.inFlight
      ensures exists j :: 0 <= j < |s'.chains| && Running(s'.chains[j]) && s'.chains[j].offer.payReq == p
    {
      var j :| 0 <= j < |s.chains| && Running(s.chains[j]) && s.chains[j].offer.payReq == p;
      assert j != i && s'.chains[j] == s.chains[j];
    }
    forall j | 0 <= j < |s'.chains| && Running(s'.chains[j]) ensures s'.chains[j].offer.payReq in s'.inFlight {
      assert j != i && s'.chains[j] == s.chains[j];
    }
  }

  lemma {:induction false} InvRun(hasPolicy: bool, s: State, steps: seq<Step>)
    requires Inv(s) && Executable(hasPolicy, s, steps)
    ensures Inv(Exec(hasPolicy, s, steps))
    decreases |steps|
  {
    if steps == [] {
    } else {
      var s' := Next(hasPolicy, s, steps[0]);
      match steps[0] {
        case Arrives(o) => InvArrives(hasPolicy, s, o);
        case Releases(i) => InvReleases(hasPolicy, s, i);
        case _ => InvMoves(s, steps[0].chain, s'.chains[steps[0].chain]);
      }
      InvRun(hasPolicy, s', steps[1..]);
    }
  }

  // ---------- What a run's own events say ----------

  predicate PolicyAnswered(i: nat, h: seq<Step>) {
    PolicyAnswers(i, Yes) in h || PolicyAnswers(i, No) in h || PolicyAnswers(i, Panics) in h
  }

  predicate HandlerAnswered(i: nat, h: seq<Step>) {
    HandlerAnswers(i, Yes) in h || HandlerAnswers(i, No) in h || HandlerAnswers(i, Panics) in h
  }

  /** Chain `i` is where the answers it got put it: `h` are the steps taken so far. */
  ghost predicate ChainHistory(hasPolicy: bool, c: Chain, i: nat, h: seq<Step>) {
    && Arrives(c.offer) in h
    && c.walletCalls == (if HandlerAnswers(i, Yes) in h then 1 else 0)
    && (PolicyAnswered(i, h) ==> hasPolicy)
    && (HandlerAnswered(i, h) && hasPolicy ==> PolicyAnswers(i, Yes) in h)
    && (WalletReturns(i) in h ==> HandlerAnswers(i, Yes) in h)
    && (c.phase.AskingPolicy? <==> hasPolicy && !PolicyAnswered(i, h))
    && (c.phase.AskingHandler? <==> (hasPolicy ==> PolicyAnswers(i, Yes) in h) && !HandlerAnswered(i, h))
    && (c.phase.Paying? <==> HandlerAnswers(i, Yes) in h && WalletReturns(i) !in h)
    && (c.phase.Released? <==> Releases(i) in h)
  }

  ghost predicate History(hasPolicy: bool, s: State, h: seq<Step>) {
    && (forall step :: step in h && !step.Arrives? ==> step.chain < |s.chains|)
    && (forall i :: 0 <= i < |s.chains| ==> ChainHistory(hasPolicy, s.chains[i], i, h))
  }

  lemma OtherHistory(hasPolicy: bool, c: Chain, i: nat, h: seq<Step>, step: Step)
    requires ChainHistory(hasPolicy, c, i, h) && (step.Arrives? || step.chain != i)
    ensures ChainHistory(hasPolicy, c, i, h + [step])
  {
  }

  lemma OwnHistory(hasPolicy: bool, s: State, step: Step, h: seq<Step>)
    requires Enabled(s, step) && !step.Arrives? && ChainHistory(hasPolicy, s.chains[step.chain], step.chain, h)
    ensures ChainHistory(hasPolicy, Next(hasPolicy, s, step).chains[step.chain], step.chain, h + [step])
  {
    assert step in h + [step];
  }

  lemma NewHistory(hasPolicy: bool, s: State, o: Offer, h: seq<Step>)
    requires (forall step :: step in h && !step.Arrives? ==> step.chain < |s.chains|) && Admits(s.inFlight, o)
    ensures var n := |s.chains|; ChainHistory(hasPolicy, Arrived(hasPolicy, s, o).chains[n], n, h + [Arrives(o)])
  {
    assert forall step :: step in h + [Arrives(o)] && !step.Arrives? ==> step.chain != |s.chains|;
  }

  lemma HistoryStep(hasPolicy: bool, s: State, step: Step, h: seq<Step>)
    requires History(hasPolicy, s, h) && Enabled(s, step)
    ensures History(hasPolicy, Next(hasPolicy, s, step), h + [step])
  {
    var s' := Next(hasPolicy, s, step);
    forall i | 0 <= i < |s'.chains| ensures ChainHistory(hasPolicy, s'.chains[i], i, h + [step]) {
      if i < |s.chains| && (step.Arrives? || step.chain != i) {
        assert s'.chains[i] == s.chains[i];
        OtherHistory(hasPolicy, s.chains[i], i, h, step);
      } else if i < |s.chains| {
        OwnHistory(hasPolicy, s, step, h);
      } else {
        NewHistory(hasPolicy, s, step.offer, h);
      }
    }
  }

  lemma {:induction false} HistoryRun(hasPolicy: bool, s: State, h: seq<Step>, steps: seq<Step>, all: seq<Step>)
    requires History(hasPolicy, s, h) && Executable(hasPolicy, s, steps) && all == h + steps
    ensures History(hasPolicy, Exec(hasPolicy, s, steps), all)
    decreases |steps|
  {
    if steps == [] {
      assert all == h;
    } else {
      assert all == (h + [steps[0]]) + steps[1..];
      HistoryStep(hasPolicy, s, steps[0], h);
      HistoryRun(hasPolicy, Next(hasPolicy, s, steps[0]), h + [steps[0]], steps[1..], all);
    }
  }

  /**
   In every interleaving, the in-flight set is exactly the set of `pay_req`s of running
   chains, and no two running chains share one.
   */
  lemma OneWalletChainPerPayReq(hasPolicy: bool, steps: seq<Step>)
    requires Executable(hasPolicy, INIT, steps)
    ensures var s := Exec(hasPolicy, INIT, steps);
            && s.inFlight == (set c | c in s.chains && Running(c) :: c.offer.payReq)
            && (forall i, j :: 0 <= i < j < |s.chains| && Running(s.chains[i]) && Running(s.chains[j]) ==>
                  s.chains[i].offer.payReq != s.chains[j].offer.payReq)
  {
    InvRun(hasPolicy, INIT, steps);
    var s := Exec(hasPolicy, INIT, steps);
    forall c | c in s.chains && Running(c) ensures c.offer.payReq in s.inFlight {
      var i :| 0 <= i < |s.chains| && s.chains[i] == c;
    }
    forall p | p in s.inFlight ensures p in (set c | c in s.chains && Running(c) :: c.offer.payReq) {
      var i :| 0 <= i < |s.chains| && Running(s.chains[i]) && s.chains[i].offer.payReq == p;
      assert s.chains[i] in s.chains;
    }
  }

  /**
   In every run, the wallet is called for a chain exactly when its handler said yes, once,
   and then only for an offer that arrived with a live entry, parsed, was no refused-gating
   mismatch and had a handler, and that the policy, if there is one, approved.
   */
  lemma WalletNeedsEveryYes(hasPolicy: bool, steps: seq<Step>, i: nat)
    requires Executable(hasPolicy, INIT, steps) && i < |Exec(hasPolicy, INIT, steps).chains|
    ensures var c := Exec(hasPolicy, INIT, steps).chains[i];
            && c.walletCalls == (if HandlerAnswers(i, Yes) in steps then 1 else 0)
            && (c.walletCalls > 0 && hasPolicy ==> PolicyAnswers(i, Yes) in steps)
            && Arrives(c.offer) in steps && c.offer.entryLive && c.offer.parses && c.offer.hasHandler
            && (c.offer.requestedGating ==> c.offer.effectiveGating)
  {
    InvRun(hasPolicy, INIT, steps);
    HistoryRun(hasPolicy, INIT, [], steps, steps);
    var s := Exec(hasPolicy, INIT, steps);
    assert ChainHistory(hasPolicy, s.chains[i], i, steps) && Gated(s.chains[i].offer);
  }

  /** And an offer that passes the gates gets its chain, unless one for the same `pay_req` is running. */
  lemma GatedOfferGetsAChain(hasPolicy: bool, s: State, o: Offer)
    ensures var s' := Next(hasPolicy, s, Arrives(o));
            if o.entryLive && o.parses && (o.requestedGating ==> o.effectiveGating) && o.hasHandler
               && o.payReq !in s.inFlight
            then && |s'.chains| == |s.chains| + 1 && s'.chains[|s.chains|].offer == o && Running(s'.chains[|s.chains|])
                 && s'.inFlight == s.inFlight + {o.payReq}
            else s' == s
  {
  }
}
