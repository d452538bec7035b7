/**
 One run of the transparent lifecycle: initiate, publish `payment_required`, verify,
 publish `payment_accepted`, forward.  Pricing callback, processor, sender and
 downstream chain are external, so a `World` fixes what each awaited call does,
 panics included.
 */
module Lifecycle {

  datatype Failure = Initiate | PublishRequired | PublishRejected | Verify | VerifyTimeout

  /** The failures after which the client cannot be holding an invoice. */
  predicate IsPreInvoice(f: Failure) {
    match f
    case Initiate => true
    case PublishRequired => true
    case PublishRejected => true
    case Verify => false
    case VerifyTimeout => false
  }

  datatype Result = Completed | Failed(failure: Failure)

  datatype Initiation = InitErr | InitPanic | Rejected | Waived | Required
  datatype Publish = PublishOk | PublishErr | PublishPanic
  datatype Verification = VerifyOk | VerifyErr | VerifyElapsed | VerifyPanic
  datatype Downstream = Delivers | DeliversThenPanics | PanicsFirst

  datatype World = World(
    initiation: Initiation, rejectedBuilds: bool, rejectedPublish: Publish,
    requiredBuilds: bool, requiredPublish: Publish, verification: Verification,
    acceptedBuilds: bool, acceptedPublish: Publish, downstream: Downstream)

  datatype Phase =
    | Initiating | Rejecting | PublishingRequired | Verifying | Accepting | Forwarding
    | Done(result: Result)

  /**
   How far a run has come.  `issued` is the source's own flag; the other fields record
   what has happened outside: the invoice on the wire, a waiver, a verified payment, and
   how often the request was handed downstream.
   */
  datatype Life = Life(phase: Phase, issued: bool, published: bool, waived: bool, verified: bool, forwards: nat)

  const START := Life(Initiating, false, false, false, false, 0)

  function Fails(l: Life, f: Failure): (r: Life) {
    l.(phase := Done(Failed(f)))
  }

  /** The unwind boundary: a panic is classified by whether the invoice had been issued. */
  function Panics(l: Life): (r: Life) {
    Fails(l, if l.issued then Verify else Initiate)
  }

  /** The lifecycle up to and including its next awaited call. */
  function Advance(w: World, l: Life): (r: Life) {
    match l.phase
    case Initiating =>
      (match w.initiation
       case InitErr => Fails(l, Initiate)
       case InitPanic => Panics(l)
       case Rejected => if w.rejectedBuilds then l.(phase := Rejecting) else Fails(l, Initiate)
       case Waived => l.(phase := Forwarding, waived := true)
       case Required => if w.requiredBuilds then l.(phase := PublishingRequired) else Fails(l, Initiate))
    case Rejecting =>
      (match w.rejectedPublish
       case PublishOk => l.(phase := Done(Completed))
       case PublishErr => Fails(l, PublishRejected)
       case PublishPanic => Panics(l))
    case PublishingRequired =>
      (match w.requiredPublish
       case PublishOk => l.(phase := Verifying, issued := true, published := true)
       case PublishErr => Fails(l, PublishRequired)
       case PublishPanic => Panics(l))
    case Verifying =>
      (match w.verification
       case VerifyOk => l.(phase := if w.acceptedBuilds then Accepting else Forwarding, verified := true)
       case VerifyErr => Fails(l, Verify)
       case VerifyElapsed => Fails(l, VerifyTimeout)
       case VerifyPanic => Panics(l))
    case Accepting =>
      if w.acceptedPublish.PublishPanic? then Panics(l) else l.(phase := Forwarding)
    case Forwarding =>
      (match w.downstream
       case Delivers => l.(phase := Done(Completed), forwards := l.forwards + 1)
       case DeliversThenPanics => Panics(l.(forwards := l.forwards + 1))
       case PanicsFirst => Panics(l))
    case Done(_) => l
  }

  function Rank(p: Phase): (n: nat) {
    match p
    case Initiating => 5
    case PublishingRequired => 4
    case Verifying => 3
    case Accepting => 2
    case Rejecting => 1
    case Forwarding => 1
    case Done(_) => 0
  }

  /** The finished run. */
  function Finish(w: World, l: Life): (r: Life)
    ensures r.phase.Done?
    decreases Rank(l.phase)
  {
    if l.phase.Done? then l else Finish(w, Advance(w, l))
  }

  /** The outside world lets this run publish its invoice. */
  predicate Issues(w: World) {
    w.initiation.Required? && w.requiredBuilds && w.requiredPublish.PublishOk?
  }

  /** It also verifies the payment. */
  predicate Verifies(w: World) {
    Issues(w) && w.verification.VerifyOk?
  }

  /** What holds at every await of every run in the world `w`. */
  ghost predicate LifeOk(w: World, l: Life) {
    && (l.issued <==> l.published)
    && (l.waived ==> w.initiation.Waived?) && (l.published ==> Issues(w)) && (l.verified ==> l.published && Verifies(w))
    && (l.forwards > 0 ==> l.waived || l.verified)
    && l.forwards <= (if l.phase.Done? then 1 else 0)
    && (l.phase.Initiating? || l.phase.Rejecting? || l.phase.PublishingRequired? ==> !l.published && !l.waived)
    && (l.phase.PublishingRequired? ==> w.initiation.Required? && w.requiredBuilds)
    && (l.phase.Verifying? ==> l.published)
    && (l.phase.Accepting? ==> l.verified)
    && (l.phase.Forwarding? ==> l.waived || l.verified)
    && (l.phase.Done? && l.phase.result.Failed? ==> (IsPreInvoice(l.phase.result.failure) <==> !l.published))
  }

  lemma AdvanceOk(w: World, l: Life)
    requires LifeOk(w, l)
    ensures LifeOk(w, Advance(w, l))
    ensures l.published ==> Advance(w, l).published
    ensures l.phase.Done? ==> Advance(w, l) == l
  {
  }

  lemma {:induction false} FinishOk(w: World, l: Life)
    requires LifeOk(w, l)
    ensures LifeOk(w, Finish(w, l))
    ensures l.published ==> Finish(w, l).published
    decreases Rank(l.phase)
  {
    if l.phase.Done? {
    } else {
      AdvanceOk(w, l);
      FinishOk(w, Advance(w, l));
    }
  }

  lemma Unfold(w: World, l: Life)
    ensures Finish(w, l) == Finish(w, Advance(w, l))
    ensures Advance(w, l).phase.Done? ==> Finish(w, l) == Advance(w, l)
  {
    if Advance(w, l).phase.Done? {
      assert Finish(w, Advance(w, l)) == Advance(w, l);
    }
  }

  /** Whether the request may be handed downstream: waived, or paid for and not stopped while accepting. */
  predicate Proceeds(w: World) {
    w.initiation.Waived? || (Verifies(w) && !(w.acceptedBuilds && w.acceptedPublish.PublishPanic?))
  }

  /** What a run must come to, read off the world without running it. */
  function Expected(w: World): (r: Result) {
    if Proceeds(w) && w.downstream.Delivers? then Completed
    else if Issues(w) then Failed(if w.verification.VerifyElapsed? then VerifyTimeout else Verify)
    else if w.initiation.Rejected? && w.rejectedBuilds && w.rejectedPublish.PublishOk? then Completed
    else if w.initiation.Rejected? && w.rejectedBuilds && w.rejectedPublish.PublishErr? then Failed(PublishRejected)
    else if w.initiation.Required? && w.requiredBuilds && w.requiredPublish.PublishErr? then Failed(PublishRequired)
    else Failed(Initiate)
  }

  ghost predicate EndsAsExpected(w: World, l: Life) {
    && l.phase == Done(Expected(w))
    && (l.waived <==> w.initiation.Waived?) && (l.published <==> Issues(w)) && (l.verified <==> Verifies(w))
    && l.forwards == if Proceeds(w) && !w.downstream.PanicsFirst? then 1 else 0
  }

  lemma PaidOutcome(w: World)
    requires Issues(w)
    ensures EndsAsExpected(w, Finish(w, START))
  {
    var l1 := Advance(w, START);
    var l2 := Advance(w, l1);
    var l3 := Advance(w, l2);
    Unfold(w, START);
    Unfold(w, l1);
    Unfold(w, l2);
    if Verifies(w) {
      Unfold(w, l3);
      if w.acceptedBuilds && !w.acceptedPublish.PublishPanic? {
        Unfold(w, Advance(w, l3));
      }
    }
  }

  /**
   Every run, with a panic possible at every await, ends exactly as the world says: its
   result, whether it was waived, invoiced and verified, and how often it was forwarded.
   */
  lemma Outcome(w: World)
    ensures EndsAsExpected(w, Finish(w, START))
  {
    if Issues(w) {
      PaidOutcome(w);
    } else {
      Unfold(w, START);
      Unfold(w, Advance(w, START));
    }
  }

  /**
   On every failing exit, panics at any await included, the failure is classified
   pre-invoice exactly when the `payment_required` publish did not return Ok.  A run
   forwards at most once, and only in a world that waived the price or verified the
   payment; a rejected one never does.
   */
  lemma FailureClassification(w: World)
    ensures var l := Finish(w, START);
            && (l.phase.result.Failed? ==> (IsPreInvoice(l.phase.result.failure) <==> !Issues(w)))
            && l.forwards <= 1
            && (l.forwards > 0 ==> w.initiation.Waived? || Verifies(w))
            && (w.initiation.Rejected? ==> l.forwards == 0)
  {
    Outcome(w);
  }

  /** A verified payment is forwarded whether the acceptance publish returns Ok or an error; only a panic stops it. */
  lemma VerifiedIsForwarded(w: World)
    requires Verifies(w)
    ensures Finish(w, START).forwards == 1 <==>
            !(w.acceptedBuilds && w.acceptedPublish.PublishPanic?) && !w.downstream.PanicsFirst?
    ensures !w.acceptedPublish.PublishPanic? && w.downstream.Delivers? ==> Finish(w, START).phase == Done(Completed)
  {
    Outcome(w);
  }

  /** The lifecycle as the sequence of calls the source makes, with its early returns. */
  method RunLifecycleInner(w: World) returns (panicked: bool, outcome: Result, invoiceIssued: bool, forwards: nat)
    ensures var l := Finish(w, START);
            && l.phase.result == (if !panicked then outcome else if invoiceIssued then Failed(Verify) else Failed(Initiate))
            && l.issued == invoiceIssued && l.forwards == forwards
  {
    panicked, outcome, invoiceIssued, forwards := false, Failed(Initiate), false, 0;
    ghost var l := Advance(w, START);
    Unfold(w, START);
    match w.initiation {
      case InitErr => return;
      case InitPanic =>
        panicked := true;
        return;
      case Rejected =>
        if !w.rejectedBuilds {
          return;
        }
        Unfold(w, l);
        match w.rejectedPublish {
          case PublishErr => outcome := Failed(PublishRejected);
          case PublishPanic => panicked := true;
          case PublishOk => outcome := Completed;
        }
        return;
      case Waived =>
      case Required =>
        if !w.requiredBuilds {
          return;
        }
        Unfold(w, l);
        l := Advance(w, l);
        match w.requiredPublish {
          case PublishErr =>
            outcome := Failed(PublishRequired);
            return;
          case PublishPanic =>
            panicked := true;
            return;
          case PublishOk =>
        }
        invoiceIssued := true;
        Unfold(w, l);
        l := Advance(w, l);
        match w.verification {
          case VerifyElapsed =>
            outcome := Failed(VerifyTimeout);
            return;
          case VerifyErr =>
            outcome := Failed(Verify);
            return;
          case VerifyPanic =>
            panicked := true;
            return;
          case VerifyOk =>
        }
        if w.acceptedBuilds {
          Unfold(w, l);
          l := Advance(w, l);
          if w.acceptedPublish.PublishPanic? {
            panicked := true;
            return;
          }
        }
    }
    assert l.phase == Forwarding;
    Unfold(w, l);
    match w.downstream
    case PanicsFirst => panicked := true;
    case DeliversThenPanics =>
      forwards := forwards + 1;
      panicked := true;
    case Delivers =>
      forwards := forwards + 1;
      outcome := Completed;
  }

  /** The unwind boundary around the inner future. */
  method RunLifecycle(w: World) returns (result: Result, forwards: nat)
    ensures result == Expected(w)
    ensures forwards == if Proceeds(w) && !w.downstream.PanicsFirst? then 1 else 0
    ensures result.Failed? ==> (IsPreInvoice(result.failure) <==> !Issues(w))
  {
    var panicked, outcome, invoiceIssued, sent := RunLifecycleInner(w);
    Outcome(w);
    forwards := sent;
    if !panicked {
      result := outcome;
    } else if invoiceIssued {
      result := Failed(Verify);
    } else {
      result := Failed(Initiate);
    }
  }
}
