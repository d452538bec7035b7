/**
 The client engine's explicit-gating side: the raw-request cache with its embedded
 retry counters, the interception of `-32042` and `-32043`, and the tasks those spawn.

 A terminal response is processed together with the correlation entry it consumes, so
 each sent event is answered at most once.  Callbacks, timers and sends are external.
 */
module ClientRetries {
  import opened Lru
  import opened Jcs
  import Backoff

  const RAW_REQUEST_CACHE_CAPACITY: nat := 1000

  /** An outbound request, under the cache key of its own JSON-RPC id. */
  datatype Request = Request(id: Key, name: string, params: Option<Json>)

  datatype Cached = Cached(request: Request, pendingRetries: nat)

  /** A terminal response as the engine classifies it; malformed payment errors count as `Plain`. */
  datatype Terminal = PaymentRequired | PaymentPending(retryAfterSecs: nat) | Plain

  /** What the terminal hook does: hand a message to the consumer, or spawn one task. */
  datatype Reaction = Deliver | Pay(request: Request) | RetryAfter(request: Request, delayMs: int)

  datatype Config = Config(hasCallback: bool, maxPendingRetries: nat) {
    ghost predicate Valid() { maxPendingRetries < 0x1_0000_0000 }
  }

  // ---------- The engine's cache operations ----------

  function Recorded(c: Cache<Cached>, r: Request): (d: Cache<Cached>) {
    c.Put(r.id, Cached(r, if r.id in c.table then c.table[r.id].pendingRetries else 0))
  }

  function Bumped(c: Cache<Cached>, k: Key): (d: Cache<Cached>)
    requires k in c.table
  {
    var read := c.Promote(k);
    read.(table := read.table[k := c.table[k].(pendingRetries := c.table[k].pendingRetries + 1)])
  }

  /** Terminal hook for the event sent under id `k`. */
  function Reacted(cfg: Config, c: Cache<Cached>, k: Key, t: Terminal): (r: (Cache<Cached>, Reaction))
    requires cfg.Valid()
  {
    match t
    case PaymentRequired =>
      if !cfg.hasCallback then (c, Deliver)
      else if k !in c.table then (c.Promote(k), Deliver)
      else (c.Promote(k), Pay(c.table[k].request))
    case PaymentPending(secs) =>
      if k !in c.table then (c, Deliver)
      else if c.table[k].pendingRetries >= cfg.maxPendingRetries then (c.Promote(k), Deliver)
      else (Bumped(c, k),
            RetryAfter(c.table[k].request, Backoff.ComputeBackoff(secs, c.table[k].pendingRetries)))
    case Plain => (c.Pop(k), Deliver)
  }

  class RawRequestCache {
    var cache: Cache<Cached>
    const config: Config

    ghost predicate Valid()
      reads this
    {
      cache.Valid() && config.Valid()
    }

    constructor (config: Config)
      requires config.Valid()
      ensures Valid() && this.config == config
      ensures cache == Empty(RAW_REQUEST_CACHE_CAPACITY)
    {
      this.config := config;
      cache := Empty(RAW_REQUEST_CACHE_CAPACITY);
    }

    method CacheRawRequest(r: Request)
      requires Valid()
      modifies this`cache
      ensures Valid() && cache == Recorded(old(cache), r)
    {
      var found := cache.Peek(r.id);
      var pendingRetries := if found.Some? then found.value.pendingRetries else 0;
      cache.PutValid(r.id, Cached(r, pendingRetries));
      cache := cache.Put(r.id, Cached(r, pendingRetries));
    }

    method OnTerminalResponse(k: Key, t: Terminal) returns (reaction: Reaction)
      requires Valid()
      modifies this`cache
      ensures Valid() && (cache, reaction) == Reacted(config, old(cache), k, t)
    {
      match t
      case PaymentRequired => reaction := InterceptPaymentRequired(k);
      case PaymentPending(secs) => reaction := InterceptPaymentPending(k, secs);
      case Plain =>
        cache.PopValid(k);
        cache := cache.Pop(k);
        reaction := Deliver;
    }

    method InterceptPaymentRequired(k: Key) returns (reaction: Reaction)
      requires Valid()
      modifies this`cache
      ensures Valid() && (cache, reaction) == Reacted(config, old(cache), k, PaymentRequired)
    {
      if !config.hasCallback {
        return Deliver;
      }
      var found := cache.Peek(k);
      cache.PromoteValid(k);
      cache := cache.Promote(k);
      match found
      case None => reaction := Deliver;
      case Some(cached) => reaction := Pay(cached.request);
    }

    method InterceptPaymentPending(k: Key, secs: nat) returns (reaction: Reaction)
      requires Valid()
      modifies this`cache
      ensures Valid() && (cache, reaction) == Reacted(config, old(cache), k, PaymentPending(secs))
    {
      var found := cache.Peek(k);
      match found
      case None => reaction := Deliver;
      case Some(cached) =>
        cache.PromoteValid(k);
        cache := cache.Promote(k);
        var retries := cached.pendingRetries;
        if retries >= config.maxPendingRetries {
          return Deliver;
        }
        cache := cache.(table := cache.table[k := cached.(pendingRetries := retries + 1)]);
        reaction := RetryAfter(cached.request, Backoff.ComputeBackoff(secs, retries));
    }
  }

  /** What the terminal hook does, in terms of what the cache holds: its reaction, and every entry afterwards. */
  lemma ReactionIs(cfg: Config, c: Cache<Cached>, k: Key, t: Terminal)
    requires cfg.Valid()
    ensures var (after, reaction) := Reacted(cfg, c, k, t);
            && reaction == (
              if t.PaymentRequired? && cfg.hasCallback && k in c.table then Pay(c.table[k].request)
              else if t.PaymentPending? && k in c.table && c.table[k].pendingRetries < cfg.maxPendingRetries
              then RetryAfter(c.table[k].request, Backoff.ComputeBackoff(t.retryAfterSecs, c.table[k].pendingRetries))
              else Deliver)
            && after.table.Keys == (if t.Plain? then c.table.Keys - {k} else c.table.Keys)
            && (forall q :: q in after.table ==>
                  && after.table[q].request == c.table[q].request
                  && after.table[q].pendingRetries
                     == c.table[q].pendingRetries + if q == k && reaction.RetryAfter? then 1 else 0)
  {
  }

  /** An intercepted request counts as just used; a terminal that is none of the engine's business changes nothing. */
  lemma ReactionTouches(cfg: Config, c: Cache<Cached>, k: Key, t: Terminal)
    requires cfg.Valid() && c.Valid() && k in c.table
    ensures t.PaymentRequired? && !cfg.hasCallback ==> Reacted(cfg, c, k, t).0 == c
    ensures (t.PaymentRequired? && cfg.hasCallback) || t.PaymentPending? ==>
              Newer(Reacted(cfg, c, k, t).0.order, k) == {}
  {
    JustUsed(c, Read(k));
  }

  /** Recording a request files it under its id, keeps its counter and makes it the newest. */
  lemma RecordedIs(c: Cache<Cached>, r: Request)
    requires c.Valid()
    ensures var after := Recorded(c, r);
            && r.id in after.table && Newer(after.order, r.id) == {}
            && after.table[r.id] == Cached(r, if r.id in c.table then c.table[r.id].pendingRetries else 0)
            && (forall q :: q in after.table && q != r.id ==> q in c.table && after.table[q] == c.table[q])
  {
    c.PutValid(r.id, Cached(r, if r.id in c.table then c.table[r.id].pendingRetries else 0));
    JustUsed(c, Write(r.id, Cached(r, if r.id in c.table then c.table[r.id].pendingRetries else 0)));
  }

  // ---------- Runs ----------

  /**
   `outstanding` are the sent events whose correlation entry is live, `paying` the
   running callbacks, `waiting` the running retry timers.  The multisets count, by id,
   what the application sent, what it got to see, what ended in silence, the retries
   scheduled, the payments approved and the sends that succeeded; `delays` lists the
   waits scheduled before a retry.
   */
  datatype Delay = Delay(id: Key, ms: int)

  datatype State = State(
    cache: Cache<Cached>, outstanding: seq<Request>, paying: seq<Request>, waiting: seq<Request>,
    appSends: multiset<Key>, visible: multiset<Key>, silent: multiset<Key>,
    retries: multiset<Key>, approvals: multiset<Key>, sends: multiset<Key>, delays: seq<Delay>)

  function Init(cap: nat): (s: State)
    requires 0 < cap
  {
    State(Empty(cap), [], [], [], multiset{}, multiset{}, multiset{}, multiset{}, multiset{}, multiset{}, [])
  }

  datatype Callback = Paid(sent: bool) | Declined | CallbackErr | CallbackPanicked

  datatype Step =
    | AppSend(request: Request, sent: bool)
    | Answer(index: nat, terminal: Terminal)
    | Swept(index: nat)
    | CallbackReturns(index: nat, outcome: Callback)
    | TimerFires(index: nat, sent: bool)
    | TimerCancelled(index: nat)

  predicate Enabled(s: State, step: Step) {
    match step
    case AppSend(_, _) => true
    case Answer(i, _) => i < |s.outstanding|
    case Swept(i) => i < |s.outstanding|
    case CallbackReturns(i, _) => i < |s.paying|
    case TimerFires(i, _) => i < |s.waiting|
    case TimerCancelled(i) => i < |s.waiting|
  }

  function Drop(s: seq<Request>, i: nat): (r: seq<Request>)
    requires i < |s|
  {
    s[..i] + s[i + 1..]
  }

  function Sent(s: State, r: Request): (q: State) {
    s.(outstanding := s.outstanding + [r], sends := s.sends + multiset{r.id})
  }

  function Seen(s: State, k: Key): (q: State) {
    s.(visible := s.visible + multiset{k})
  }

  function Lost(s: State, k: Key): (q: State) {
    s.(silent := s.silent + multiset{k})
  }

  function Answered(cfg: Config, s: State, i: nat, t: Terminal): (q: State)
    requires cfg.Valid() && i < |s.outstanding|
  {
    var k := s.outstanding[i].id;
    var (cache, reaction) := Reacted(cfg, s.cache, k, t);
    var s1 := s.(cache := cache, outstanding := Drop(s.outstanding, i));
    match reaction
    case Deliver => Seen(s1, k)
    case Pay(r) => s1.(paying := s1.paying + [r])
    case RetryAfter(r, ms) =>
      s1.(waiting := s1.waiting + [r], retries := s1.retries + multiset{k}, delays := s1.delays + [Delay(k, ms)])
  }

  function Next(cfg: Config, s: State, step: Step): (q: State)
    requires cfg.Valid() && Enabled(s, step)
  {
    match step
    case AppSend(r, sent) =>
      var s1 := s.(cache := Recorded(s.cache, r), appSends := s.appSends + multiset{r.id});
      if sent then Sent(s1, r) else Lost(s1, r.id)
    case Answer(i, t) => Answered(cfg, s, i, t)
    case Swept(i) => Lost(s.(outstanding := Drop(s.outstanding, i)), s.outstanding[i].id)
    case CallbackReturns(i, outcome) =>
      var r := s.paying[i];
      var s1 := s.(paying := Drop(s.paying, i));
      (match outcome
       case Paid(sent) =>
         var s2 := s1.(approvals := s1.approvals + multiset{r.id});
         if sent then Sent(s2, r) else Lost(s2, r.id)
       case Declined => Seen(s1, r.id)
       case CallbackErr => Seen(s1, r.id)
       case CallbackPanicked => Lost(s1, r.id))
    case TimerFires(i, sent) =>
      var r := s.waiting[i];
      var s1 := s.(waiting := Drop(s.waiting, i));
      if sent then Sent(s1, r) else Seen(s1, r.id)
    case TimerCancelled(i) => Lost(s.(waiting := Drop(s.waiting, i)), s.waiting[i].id)
  }

  ghost predicate Executable(cfg: Config, s: State, steps: seq<Step>)
    requires cfg.Valid()
    decreases |steps|
  {
    steps == [] || (Enabled(s, steps[0]) && Executable(cfg, Next(cfg, s, steps[0]), steps[1..]))
  }

  ghost function Exec(cfg: Config, s: State, steps: seq<Step>): (q: State)
    requires cfg.Valid() && Executable(cfg, s, steps)
    decreases |steps|
  {
    if steps == [] then s else Exec(cfg, Next(cfg, s, steps[0]), steps[1..])
  }

  // ---------- What each step is booked as ----------

  /** The request a step puts on the wire. */
  function SentNow(s: State, step: Step): (r: Option<Request>)
    requires Enabled(s, step)
  {
    match step
    case AppSend(r, true) => Some(r)
    case CallbackReturns(i, Paid(true)) => Some(s.paying[i])
    case TimerFires(i, true) => Some(s.waiting[i])
    case _ => None
  }

  /** The request a step ends without a word to the consumer. */
  function LostNow(s: State, step: Step): (r: Option<Request>)
    requires Enabled(s, step)
  {
    match step
    case AppSend(r, false) => Some(r)
    case Swept(i) => Some(s.outstanding[i])
    case CallbackReturns(i, Paid(false)) => Some(s.paying[i])
    case CallbackReturns(i, CallbackPanicked) => Some(s.paying[i])
    case TimerCancelled(i) => Some(s.waiting[i])
    case _ => None
  }

  /** The request a step answers to the consumer. */
  function SeenNow(cfg: Config, s: State, step: Step): (r: Option<Request>)
    requires cfg.Valid() && Enabled(s, step)
  {
    match step
    case Answer(i, t) => if Reacted(cfg, s.cache, s.outstanding[i].id, t).1.Deliver? then Some(s.outstanding[i]) else None
    case CallbackReturns(i, Declined) => Some(s.paying[i])
    case CallbackReturns(i, CallbackErr) => Some(s.paying[i])
    case TimerFires(i, false) => Some(s.waiting[i])
    case _ => None
  }

  function Tally(r: Option<Request>, k: Key): (n: nat) {
    if r.Some? && r.value.id == k then 1 else 0
  }

  ghost predicate BookedAs(cfg: Config, s: State, step: Step, q: State, k: Key)
    requires cfg.Valid() && Enabled(s, step)
  {
    && q.sends[k] == s.sends[k] + Tally(SentNow(s, step), k)
    && q.silent[k] == s.silent[k] + Tally(LostNow(s, step), k)
    && q.visible[k] == s.visible[k] + Tally(SeenNow(cfg, s, step), k)
    && (SentNow(s, step).Some? ==>
          q.outstanding != [] && q.outstanding[|q.outstanding| - 1] == SentNow(s, step).value)
  }

  lemma AnswerIsBooked(cfg: Config, s: State, i: nat, t: Terminal, k: Key)
    requires cfg.Valid() && Enabled(s, Answer(i, t))
    ensures BookedAs(cfg, s, Answer(i, t), Next(cfg, s, Answer(i, t)), k)
  {
  }

  lemma CallbackIsBooked(cfg: Config, s: State, i: nat, outcome: Callback, k: Key)
    requires cfg.Valid() && Enabled(s, CallbackReturns(i, outcome))
    ensures BookedAs(cfg, s, CallbackReturns(i, outcome), Next(cfg, s, CallbackReturns(i, outcome)), k)
  {
  }

  lemma AppSendIsBooked(cfg: Config, s: State, r: Request, sent: bool, k: Key)
    requires cfg.Valid()
    ensures BookedAs(cfg, s, AppSend(r, sent), Next(cfg, s, AppSend(r, sent)), k)
  {
  }

  lemma TimerIsBooked(cfg: Config, s: State, step: Step, k: Key)
    requires cfg.Valid() && Enabled(s, step) && (step.Swept? || step.TimerFires? || step.TimerCancelled?)
    ensures BookedAs(cfg, s, step, Next(cfg, s, step), k)
  {
  }

  /** Every step is booked for what it is, and what it sends is on the wire as the last event. */
  lemma StepIsBooked(cfg: Config, s: State, step: Step, k: Key)
    requires cfg.Valid() && Enabled(s, step)
    ensures BookedAs(cfg, s, step, Next(cfg, s, step), k)
  {
    match step
    case Answer(i, t) => AnswerIsBooked(cfg, s, i, t, k);
    case CallbackReturns(i, outcome) => CallbackIsBooked(cfg, s, i, outcome, k);
    case AppSend(r, sent) => AppSendIsBooked(cfg, s, r, sent, k);
    case _ => TimerIsBooked(cfg, s, step, k);
  }

  /** The sends, the silent ends and the answers of a whole run under one id, counted from its events. */
  ghost function Totals(cfg: Config, s: State, steps: seq<Step>, k: Key): (t: (nat, nat, nat))
    requires cfg.Valid() && Executable(cfg, s, steps)
    decreases |steps|
  {
    if steps == [] then (0, 0, 0)
    else
      var rest := Totals(cfg, Next(cfg, s, steps[0]), steps[1..], k);
      (Tally(SentNow(s, steps[0]), k) + rest.0, Tally(LostNow(s, steps[0]), k) + rest.1,
       Tally(SeenNow(cfg, s, steps[0]), k) + rest.2)
  }

  lemma {:induction false} RunIsBooked(cfg: Config, s: State, steps: seq<Step>, k: Key)
    requires cfg.Valid() && Executable(cfg, s, steps)
    ensures var q, t := Exec(cfg, s, steps), Totals(cfg, s, steps, k);
            q.sends[k] == s.sends[k] + t.0 && q.silent[k] == s.silent[k] + t.1 && q.visible[k] == s.visible[k] + t.2
    decreases |steps|
  {
    if steps == [] {
    } else {
      StepIsBooked(cfg, s, steps[0], k);
      RunIsBooked(cfg, Next(cfg, s, steps[0]), steps[1..], k);
    }
  }

  // ---------- Counting by id ----------

  function Count(s: seq<Request>, k: Key): (n: nat) {
    if s == [] then 0 else (if s[0].id == k then 1 else 0) + Count(s[1..], k)
  }

  lemma {:induction false} CountAppend(a: seq<Request>, b: seq<Request>, k: Key)
    ensures Count(a + b, k) == Count(a, k) + Count(b, k)
  {
    if a == [] {
      assert a + b == b;
    } else {
      assert (a + b)[1..] == a[1..] + b;
      CountAppend(a[1..], b, k);
    }
  }

  lemma CountDrop(s: seq<Request>, i: nat, k: Key)
    requires i < |s|
    ensures Count(s, k) == Count(Drop(s, i), k) + (if s[i].id == k then 1 else 0)
  {
    assert s == s[..i] + s[i..];
    CountAppend(s[..i], s[i..], k);
    CountAppend(s[..i], s[i + 1..], k);
  }

  lemma CountPush(s: seq<Request>, r: Request, k: Key)
    ensures Count(s + [r], k) == Count(s, k) + (if r.id == k then 1 else 0)
  {
    CountAppend(s, [r], k);
  }

  // ---------- What every step keeps ----------

  /** Every cached request is filed under its own id and within the retry budget. */
  ghost predicate CacheOk(cfg: Config, c: Cache<Cached>) {
    && c.Valid()
    && (forall k :: k in c.table ==> c.table[k].request.id == k && c.table[k].pendingRetries <= cfg.maxPendingRetries)
  }

  /** Each application send is in exactly one place: on the wire, in a task, seen, or lost. */
  ghost predicate Conserved(s: State, k: Key) {
    s.appSends[k] == Count(s.outstanding, k) + Count(s.paying, k) + Count(s.waiting, k) + s.visible[k] + s.silent[k]
  }

  /** Each successful send, and each timer that may still send, is paid for by an app send, a retry or an approval. */
  ghost predicate SendsBudgeted(s: State, k: Key) {
    s.sends[k] + Count(s.waiting, k) <= s.appSends[k] + s.retries[k] + s.approvals[k]
  }

  lemma ReactedOk(cfg: Config, c: Cache<Cached>, k: Key, t: Terminal)
    requires cfg.Valid() && CacheOk(cfg, c)
    ensures CacheOk(cfg, Reacted(cfg, c, k, t).0)
    ensures match Reacted(cfg, c, k, t).1
            case Deliver => true
            case Pay(r) => k in c.table && r == c.table[k].request && r.id == k
            case RetryAfter(r, ms) => k in c.table && r == c.table[k].request && r.id == k && 1_000 <= ms <= 10_000
  {
    c.PromoteValid(k);
    c.PopValid(k);
    if t.PaymentPending? && k in c.table && c.table[k].pendingRetries < cfg.maxPendingRetries {
      Backoff.WithinBand(t.retryAfterSecs, c.table[k].pendingRetries);
    }
  }

  lemma RecordedOk(cfg: Config, c: Cache<Cached>, r: Request)
    requires CacheOk(cfg, c)
    ensures CacheOk(cfg, Recorded(c, r))
  {
    c.PutValid(r.id, Cached(r, if r.id in c.table then c.table[r.id].pendingRetries else 0));
  }

  ghost predicate CountsOk(s: State, k: Key) {
    Conserved(s, k) && SendsBudgeted(s, k)
  }

  ghost predicate Inv(cfg: Config, s: State, k: Key) {
    CacheOk(cfg, s.cache) && CountsOk(s, k)
  }

  lemma AnswerCounts(cfg: Config, s: State, i: nat, t: Terminal, k: Key)
    requires cfg.Valid() && CacheOk(cfg, s.cache) && CountsOk(s, k) && i < |s.outstanding|
    ensures CountsOk(Answered(cfg, s, i, t), k)
  {
    var id := s.outstanding[i].id;
    ReactedOk(cfg, s.cache, id, t);
    CountDrop(s.outstanding, i, k);
    match Reacted(cfg, s.cache, id, t).1
    case Deliver =>
    case Pay(r) => CountPush(s.paying, r, k);
    case RetryAfter(r, _) => CountPush(s.waiting, r, k);
  }

  lemma CallbackCounts(cfg: Config, s: State, i: nat, outcome: Callback, k: Key)
    requires cfg.Valid() && CountsOk(s, k) && i < |s.paying|
    ensures CountsOk(Next(cfg, s, CallbackReturns(i, outcome)), k)
  {
    CountDrop(s.paying, i, k);
    if outcome.Paid? && outcome.sent {
      CountPush(s.outstanding, s.paying[i], k);
    }
  }

  lemma TimerCounts(cfg: Config, s: State, i: nat, sent: bool, k: Key)
    requires cfg.Valid() && CountsOk(s, k) && i < |s.waiting|
    ensures CountsOk(Next(cfg, s, TimerFires(i, sent)), k)
  {
    CountDrop(s.waiting, i, k);
    CountPush(s.outstanding, s.waiting[i], k);
  }

  lemma StepCounts(cfg: Config, s: State, step: Step, k: Key)
    requires cfg.Valid() && CacheOk(cfg, s.cache) && CountsOk(s, k) && Enabled(s, step)
    ensures CountsOk(Next(cfg, s, step), k)
  {
    match step
    case AppSend(r, _) => CountPush(s.outstanding, r, k);
    case Answer(i, t) => AnswerCounts(cfg, s, i, t, k);
    case Swept(i) => CountDrop(s.outstanding, i, k);
    case CallbackReturns(i, outcome) => CallbackCounts(cfg, s, i, outcome, k);
    case TimerFires(i, sent) => TimerCounts(cfg, s, i, sent, k);
    case TimerCancelled(i) => CountDrop(s.waiting, i, k);
  }

  lemma StepCache(cfg: Config, s: State, step: Step)
    requires cfg.Valid() && CacheOk(cfg, s.cache) && Enabled(s, step)
    ensures CacheOk(cfg, Next(cfg, s, step).cache)
  {
    if step.AppSend? {
      RecordedOk(cfg, s.cache, step.request);
    } else if step.Answer? {
      ReactedOk(cfg, s.cache, s.outstanding[step.index].id, step.terminal);
    }
  }

  lemma {:induction false} RunKeeps(cfg: Config, s: State, steps: seq<Step>, k: Key)
    requires cfg.Valid() && Inv(cfg, s, k) && Executable(cfg, s, steps)
    ensures Inv(cfg, Exec(cfg, s, steps), k)
    decreases |steps|
  {
    if steps == [] {
    } else {
      StepCounts(cfg, s, steps[0], k);
      StepCache(cfg, s, steps[0]);
      RunKeeps(cfg, Next(cfg, s, steps[0]), steps[1..], k);
    }
  }

  /**
   One answer per request: in every run and for every id, the answers the consumer sees,
   the requests that end in silence, the events on the wire and the running tasks add up
   to the application's sends; and the sends that succeed are no more than those, the
   retries scheduled and the payments approved.  Answers, silences and sends are counted
   from the events of the run.
   */
  lemma OneAnswerPerRequest(cfg: Config, cap: nat, steps: seq<Step>, k: Key)
    requires cfg.Valid() && 0 < cap && Executable(cfg, Init(cap), steps)
    ensures var s := Exec(cfg, Init(cap), steps);
            var (sent, silent, seen) := Totals(cfg, Init(cap), steps, k);
            && seen + silent + Count(s.outstanding, k) + Count(s.paying, k) + Count(s.waiting, k) == s.appSends[k]
            && sent <= s.appSends[k] + s.retries[k] + s.approvals[k]
  {
    RunKeeps(cfg, Init(cap), steps, k);
    RunIsBooked(cfg, Init(cap), steps, k);
  }

  // ---------- The retry budget ----------

  /** `k` is resident in the cache before and after every step. */
  ghost predicate Resident(cfg: Config, s: State, steps: seq<Step>, k: Key)
    requires cfg.Valid() && Executable(cfg, s, steps)
    decreases |steps|
  {
    k in s.cache.table && (steps == [] || Resident(cfg, Next(cfg, s, steps[0]), steps[1..], k))
  }

  lemma ReactedCounter(cfg: Config, c: Cache<Cached>, id: Key, t: Terminal, k: Key)
    requires cfg.Valid() && k in c.table && k in Reacted(cfg, c, id, t).0.table
    ensures Reacted(cfg, c, id, t).0.table[k].pendingRetries
            == c.table[k].pendingRetries + if id == k && Reacted(cfg, c, id, t).1.RetryAfter? then 1 else 0
  {
  }

  lemma RecordedCounter(c: Cache<Cached>, r: Request, k: Key)
    requires k in c.table && k in Recorded(c, r).table
    ensures Recorded(c, r).table[k].pendingRetries == c.table[k].pendingRetries
  {
  }

  lemma CounterStep(cfg: Config, s: State, step: Step, k: Key)
    requires cfg.Valid() && Enabled(s, step) && k in s.cache.table && k in Next(cfg, s, step).cache.table
    ensures var q := Next(cfg, s, step);
            q.retries[k] + s.cache.table[k].pendingRetries == s.retries[k] + q.cache.table[k].pendingRetries
  {
    if step.Answer? {
      ReactedCounter(cfg, s.cache, s.outstanding[step.index].id, step.terminal, k);
    } else if step.AppSend? {
      RecordedCounter(s.cache, step.request, k);
    } else {
      assert Next(cfg, s, step).cache == s.cache;
    }
  }

  lemma {:induction false} CounterRun(cfg: Config, s: State, steps: seq<Step>, k: Key)
    requires cfg.Valid() && Executable(cfg, s, steps) && Resident(cfg, s, steps, k)
    ensures var q := Exec(cfg, s, steps);
            && k in q.cache.table
            && q.retries[k] + s.cache.table[k].pendingRetries == s.retries[k] + q.cache.table[k].pendingRetries
    decreases |steps|
  {
    if steps == [] {
    } else {
      CounterStep(cfg, s, steps[0], k);
      CounterRun(cfg, Next(cfg, s, steps[0]), steps[1..], k);
    }
  }

  /**
   The retry budget: while a request stays resident in the cache, across any mix of
   re-sends, payments, promotions and other traffic, its `-32043` retries never exceed
   what its counter leaves of `max_pending_retries`.
   */
  lemma RetryBudget(cfg: Config, cap: nat, before: seq<Step>, steps: seq<Step>, k: Key)
    requires cfg.Valid() && 0 < cap && Executable(cfg, Init(cap), before)
    requires Executable(cfg, Exec(cfg, Init(cap), before), steps)
    requires Resident(cfg, Exec(cfg, Init(cap), before), steps, k)
    ensures var s := Exec(cfg, Init(cap), before);
            var q := Exec(cfg, s, steps);
            q.retries[k] + s.cache.table[k].pendingRetries <= s.retries[k] + cfg.maxPendingRetries
  {
    RunKeeps(cfg, Init(cap), before, k);
    var s := Exec(cfg, Init(cap), before);
    RunKeeps(cfg, s, steps, k);
    CounterRun(cfg, s, steps, k);
  }

  /** The waits scheduled for one id, in order. */
  function DelaysOf(delays: seq<Delay>, k: Key): (r: seq<int>) {
    if delays == [] then []
    else (if delays[0].id == k then [delays[0].ms] else []) + DelaysOf(delays[1..], k)
  }

  lemma {:induction false} DelaysOfPush(delays: seq<Delay>, d: Delay, k: Key)
    ensures DelaysOf(delays + [d], k) == DelaysOf(delays, k) + if d.id == k then [d.ms] else []
  {
    if delays == [] {
    } else {
      assert (delays + [d])[1..] == delays[1..] + [d];
      DelaysOfPush(delays[1..], d, k);
    }
  }

  /** What a step asks of id `k`, if it is a `-32043` for it: the `retry_after` it carries. */
  function AskedOf(s: State, step: Step, k: Key): (r: Option<nat>)
    requires Enabled(s, step)
  {
    if step.Answer? && step.terminal.PaymentPending? && s.outstanding[step.index].id == k
    then Some(step.terminal.retryAfterSecs) else None
  }

  /** A step schedules a wait for `k` exactly when it counts a retry, at the backoff of the counter it found. */
  lemma DelayStep(cfg: Config, s: State, step: Step, k: Key)
    requires cfg.Valid() && CacheOk(cfg, s.cache) && Enabled(s, step) && k in s.cache.table
    requires k in Next(cfg, s, step).cache.table
    ensures var q, n := Next(cfg, s, step), s.cache.table[k].pendingRetries;
            || (DelaysOf(q.delays, k) == DelaysOf(s.delays, k) && q.cache.table[k].pendingRetries == n)
            || (AskedOf(s, step, k).Some? && n < cfg.maxPendingRetries && q.cache.table[k].pendingRetries == n + 1
                && DelaysOf(q.delays, k)
                   == DelaysOf(s.delays, k) + [Backoff.ComputeBackoff(AskedOf(s, step, k).value, n)])
  {
    if step.Answer? {
      var id := s.outstanding[step.index].id;
      ReactedCounter(cfg, s.cache, id, step.terminal, k);
      var reaction := Reacted(cfg, s.cache, id, step.terminal).1;
      if reaction.RetryAfter? {
        DelaysOfPush(s.delays, Delay(id, reaction.delayMs), k);
      }
    } else if step.AppSend? {
      RecordedCounter(s.cache, step.request, k);
    } else {
      assert Next(cfg, s, step).cache == s.cache;
    }
  }

  function Sum(xs: seq<int>): (r: int) {
    if xs == [] then 0 else Sum(xs[..|xs| - 1]) + xs[|xs| - 1]
  }

  /**
   The waits follow the counter: while a request stays resident, each retry adds one wait
   of one to ten seconds, so the total grows by that much per retry.
   */
  lemma {:induction false} WaitsFollowCounter(cfg: Config, s: State, steps: seq<Step>, k: Key)
    requires cfg.Valid() && CacheOk(cfg, s.cache) && Executable(cfg, s, steps) && Resident(cfg, s, steps, k)
    ensures var q := Exec(cfg, s, steps);
            && k in q.cache.table
            && var n := q.cache.table[k].pendingRetries - s.cache.table[k].pendingRetries;
               1_000 * n <= Sum(DelaysOf(q.delays, k)) - Sum(DelaysOf(s.delays, k)) <= 10_000 * n
    decreases |steps|
  {
    if steps == [] {
    } else {
      var s1, n := Next(cfg, s, steps[0]), s.cache.table[k].pendingRetries;
      DelayStep(cfg, s, steps[0], k);
      if s1.cache.table[k].pendingRetries != n {
        var ms := Backoff.ComputeBackoff(AskedOf(s, steps[0], k).value, n);
        Backoff.WithinBand(AskedOf(s, steps[0], k).value, n);
        assert (DelaysOf(s.delays, k) + [ms])[..|DelaysOf(s.delays, k)|] == DelaysOf(s.delays, k);
      }
      StepCache(cfg, s, steps[0]);
      WaitsFollowCounter(cfg, s1, steps[1..], k);
    }
  }

  /** The total wait of a whole budget: at most ten seconds for each retry the counter leaves. */
  lemma TotalWaitIsBounded(cfg: Config, cap: nat, before: seq<Step>, steps: seq<Step>, k: Key)
    requires cfg.Valid() && 0 < cap && Executable(cfg, Init(cap), before)
    requires Executable(cfg, Exec(cfg, Init(cap), before), steps)
    requires Resident(cfg, Exec(cfg, Init(cap), before), steps, k)
    ensures var s := Exec(cfg, Init(cap), before);
            var q := Exec(cfg, s, steps);
            Sum(DelaysOf(q.delays, k)) - Sum(DelaysOf(s.delays, k))
            <= 10_000 * (cfg.maxPendingRetries - s.cache.table[k].pendingRetries)
  {
    RunKeeps(cfg, Init(cap), before, k);
    var s := Exec(cfg, Init(cap), before);
    RunKeeps(cfg, s, steps, k);
    WaitsFollowCounter(cfg, s, steps, k);
  }

  /** Every `-32043` for `k` in the run carries the same `retry_after`. */
  ghost predicate ConstantAsk(cfg: Config, s: State, steps: seq<Step>, k: Key, secs: nat)
    requires cfg.Valid() && Executable(cfg, s, steps)
    decreases |steps|
  {
    steps == [] ||
    (AskedOf(s, steps[0], k) in {None, Some(secs)} && ConstantAsk(cfg, Next(cfg, s, steps[0]), steps[1..], k, secs))
  }

  /** The waits a whole budget would be given for a constant `retry_after`, by counter. */
  function Table(cfg: Config, secs: nat): (r: seq<int>)
    requires cfg.Valid()
  {
    seq(cfg.maxPendingRetries, i requires 0 <= i < cfg.maxPendingRetries => Backoff.ComputeBackoff(secs, i))
  }

  lemma TableAt(cfg: Config, secs: nat, n: nat)
    requires cfg.Valid() && n < cfg.maxPendingRetries
    ensures Table(cfg, secs)[n] == Backoff.ComputeBackoff(secs, n)
  {
  }

  lemma SliceStep(cfg: Config, s: State, step: Step, k: Key, secs: nat)
    requires cfg.Valid() && CacheOk(cfg, s.cache) && Enabled(s, step) && k in s.cache.table
    requires k in Next(cfg, s, step).cache.table && AskedOf(s, step, k) in {None, Some(secs)}
    ensures var q, n := Next(cfg, s, step), s.cache.table[k].pendingRetries;
            || (DelaysOf(q.delays, k) == DelaysOf(s.delays, k) && q.cache.table[k].pendingRetries == n)
            || (n < cfg.maxPendingRetries && q.cache.table[k].pendingRetries == n + 1
                && DelaysOf(q.delays, k) == DelaysOf(s.delays, k) + [Table(cfg, secs)[n]])
  {
    DelayStep(cfg, s, step, k);
    if s.cache.table[k].pendingRetries < cfg.maxPendingRetries {
      TableAt(cfg, secs, s.cache.table[k].pendingRetries);
    }
  }

  lemma SliceJoin(d: seq<int>, d1: seq<int>, d2: seq<int>, table: seq<int>, n: nat, m: nat)
    requires n < m <= |table| && d1 == d + [table[n]] && d2 == d1 + table[n + 1..m]
    ensures d2 == d + table[n..m]
  {
    assert table[n..m] == [table[n]] + table[n + 1..m];
  }

  lemma {:induction false} SlicesFollowCounter(cfg: Config, s: State, steps: seq<Step>, k: Key, secs: nat) returns (m: nat)
    requires cfg.Valid() && CacheOk(cfg, s.cache) && Executable(cfg, s, steps) && Resident(cfg, s, steps, k)
    requires ConstantAsk(cfg, s, steps, k, secs)
    ensures k in Exec(cfg, s, steps).cache.table && m == Exec(cfg, s, steps).cache.table[k].pendingRetries
    ensures s.cache.table[k].pendingRetries <= m <= cfg.maxPendingRetries
    ensures DelaysOf(Exec(cfg, s, steps).delays, k)
            == DelaysOf(s.delays, k) + Table(cfg, secs)[s.cache.table[k].pendingRetries..m]
    decreases |steps|
  {
    var n := s.cache.table[k].pendingRetries;
    if steps == [] {
      m := n;
    } else {
      var s1 := Next(cfg, s, steps[0]);
      SliceStep(cfg, s, steps[0], k, secs);
      StepCache(cfg, s, steps[0]);
      m := SlicesFollowCounter(cfg, s1, steps[1..], k, secs);
      if s1.cache.table[k].pendingRetries != n {
        SliceJoin(DelaysOf(s.delays, k), DelaysOf(s1.delays, k), DelaysOf(Exec(cfg, s, steps).delays, k),
                  Table(cfg, secs), n, m);
      }
    }
  }

  lemma SliceGrows(cfg: Config, secs: nat, n: nat, m: nat)
    requires cfg.maxPendingRetries <= 0x8000_0000 && n <= m <= cfg.maxPendingRetries
    ensures Grows(Table(cfg, secs)[n..m])
  {
    var waits := Table(cfg, secs)[n..m];
    forall i, j | 0 <= i < j < |waits| ensures waits[i] <= waits[j] {
      Backoff.NonDecreasing(secs, n + i, n + j);
    }
  }

  predicate Grows(waits: seq<int>) {
    forall i, j :: 0 <= i < j < |waits| ==> waits[i] <= waits[j]
  }

  /**
   While a request stays resident and every `-32043` carries the same `retry_after`, the
   waits it is given are the backoff sequence from its counter on, entry by entry; so if
   the budget fits the signed cast they never shrink.
   */
  lemma WaitsNeverShrink(cfg: Config, cap: nat, before: seq<Step>, steps: seq<Step>, k: Key, secs: nat) returns (m: nat)
    requires cfg.Valid() && 0 < cap && Executable(cfg, Init(cap), before)
    requires Executable(cfg, Exec(cfg, Init(cap), before), steps)
    requires Resident(cfg, Exec(cfg, Init(cap), before), steps, k)
    requires ConstantAsk(cfg, Exec(cfg, Init(cap), before), steps, k, secs)
    ensures var s := Exec(cfg, Init(cap), before);
            && s.cache.table[k].pendingRetries <= m <= cfg.maxPendingRetries
            && var waits := Table(cfg, secs)[s.cache.table[k].pendingRetries..m];
               && DelaysOf(Exec(cfg, s, steps).delays, k) == DelaysOf(s.delays, k) + waits
               && (cfg.maxPendingRetries <= 0x8000_0000 ==> Grows(waits))
  {
    RunKeeps(cfg, Init(cap), before, k);
    var s := Exec(cfg, Init(cap), before);
    m := SlicesFollowCounter(cfg, s, steps, k, secs);
    if cfg.maxPendingRetries <= 0x8000_0000 {
      SliceGrows(cfg, secs, s.cache.table[k].pendingRetries, m);
    }
  }

  // ---------- Retries repeat the request ----------

  /** The application never reuses an id for a different request: `book` says which one each id stands for. */
  predicate NoIdReuse(steps: seq<Step>, book: map<Key, Request>) {
    forall step :: step in steps && step.AppSend? ==>
      step.request.id in book && book[step.request.id] == step.request
  }

  predicate AllBooked(s: seq<Request>, book: map<Key, Request>) {
    forall r :: r in s ==> r.id in book && book[r.id] == r
  }

  ghost predicate CacheBooked(c: Cache<Cached>, book: map<Key, Request>) {
    forall k :: k in c.table ==> c.table[k].request.id == k && k in book && book[k] == c.table[k].request
  }

  ghost predicate Booked(s: State, book: map<Key, Request>) {
    && AllBooked(s.outstanding, book) && AllBooked(s.paying, book) && AllBooked(s.waiting, book)
    && CacheBooked(s.cache, book)
  }

  lemma DropIsSubset(s: seq<Request>, i: nat)
    requires i < |s|
    ensures forall r :: r in Drop(s, i) ==> r in s
  {
  }

  lemma ReactedBooked(cfg: Config, c: Cache<Cached>, k: Key, t: Terminal, book: map<Key, Request>)
    requires cfg.Valid() && CacheBooked(c, book)
    ensures CacheBooked(Reacted(cfg, c, k, t).0, book)
    ensures var reaction := Reacted(cfg, c, k, t).1;
            !reaction.Deliver? ==> reaction.request.id in book && book[reaction.request.id] == reaction.request
  {
  }

  lemma PushBooked(s: seq<Request>, r: Request, book: map<Key, Request>)
    requires AllBooked(s, book) && r.id in book && book[r.id] == r
    ensures AllBooked(s + [r], book)
  {
  }

  lemma BookedAnswer(cfg: Config, s: State, i: nat, t: Terminal, book: map<Key, Request>)
    requires cfg.Valid() && Booked(s, book) && i < |s.outstanding|
    ensures Booked(Answered(cfg, s, i, t), book)
  {
    DropIsSubset(s.outstanding, i);
    ReactedBooked(cfg, s.cache, s.outstanding[i].id, t, book);
    match Reacted(cfg, s.cache, s.outstanding[i].id, t).1
    case Deliver =>
    case Pay(r) => PushBooked(s.paying, r, book);
    case RetryAfter(r, _) => PushBooked(s.waiting, r, book);
  }

  lemma BookedStep(cfg: Config, s: State, step: Step, book: map<Key, Request>)
    requires cfg.Valid() && Enabled(s, step) && Booked(s, book) && NoIdReuse([step], book)
    ensures Booked(Next(cfg, s, step), book)
  {
    match step
    case AppSend(r, _) => assert step in [step];
    case Answer(i, t) => BookedAnswer(cfg, s, i, t, book);
    case Swept(i) => DropIsSubset(s.outstanding, i);
    case CallbackReturns(i, _) =>
      DropIsSubset(s.paying, i);
      assert s.paying[i] in s.paying;
    case TimerFires(i, _) =>
      DropIsSubset(s.waiting, i);
      assert s.waiting[i] in s.waiting;
    case TimerCancelled(i) => DropIsSubset(s.waiting, i);
  }

  lemma {:induction false} BookedRun(cfg: Config, s: State, steps: seq<Step>, book: map<Key, Request>)
    requires cfg.Valid() && Executable(cfg, s, steps) && Booked(s, book) && NoIdReuse(steps, book)
    ensures Booked(Exec(cfg, s, steps), book)
    decreases |steps|
  {
    if steps == [] {
    } else {
      assert steps[0] in steps;
      BookedStep(cfg, s, steps[0], book);
      BookedRun(cfg, Next(cfg, s, steps[0]), steps[1..], book);
    }
  }

  /** If ids are not reused for different requests, every event on the wire repeats what was sent under its id. */
  lemma RetriesRepeatTheRequest(cfg: Config, cap: nat, steps: seq<Step>, book: map<Key, Request>)
    requires cfg.Valid() && 0 < cap && Executable(cfg, Init(cap), steps) && NoIdReuse(steps, book)
    ensures forall r :: r in Exec(cfg, Init(cap), steps).outstanding ==> r.id in book && book[r.id] == r
  {
    BookedRun(cfg, Init(cap), steps, book);
  }
}
