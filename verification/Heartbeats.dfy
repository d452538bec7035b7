/**
 The shared synthetic-progress scheduler of the client engine: heartbeat entries and a
 running flag under one lock, registrars that insert and then make sure a scheduler
 runs, and scheduler tasks that stop themselves when no entry is left.
 */
module Heartbeats {
  import opened Lru

  /** The state under the lock: a stop instant per token, and the scheduler flag. */
  datatype Board = Board(entries: map<Key, int>, running: bool)

  /** Track a token, unless it is tracked already. */
  function Tracked(b: Board, token: Key, stopAt: int): (r: (Board, bool)) {
    if token in b.entries then (b, false) else (b.(entries := b.entries[token := stopAt]), true)
  }

  /** Claim the flag, and with it the duty to spawn, if nobody holds it and there is work. */
  function Ensured(b: Board): (r: (Board, bool)) {
    if b.running || b.entries == map[] then (b, false) else (b.(running := true), true)
  }

  function Stopped(b: Board, token: Key): (r: Board) {
    b.(entries := b.entries - {token})
  }

  function Retained(entries: map<Key, int>, now: int): (r: map<Key, int>) {
    map k | k in entries && now < entries[k] :: entries[k]
  }

  /** A scheduler tick: drop expired entries and stop when none is left. */
  function Ticked(b: Board, now: int): (r: (Board, bool)) {
    var kept := Retained(b.entries, now);
    if kept == map[] then (Board(kept, false), true) else (b.(entries := kept), false)
  }

  class HeartbeatState {
    var entries: map<Key, int>
    var schedulerRunning: bool

    function Contents(): (b: Board)
      reads this
    {
      Board(entries, schedulerRunning)
    }

    constructor ()
      ensures Contents() == Board(map[], false)
    {
      entries, schedulerRunning := map[], false;
    }

    /** First half of a registration; a token already tracked is left alone. */
    method Insert(token: Key, stopAt: int) returns (inserted: bool)
      modifies this
      ensures (Contents(), inserted) == Tracked(old(Contents()), token, stopAt)
      ensures inserted <==> token !in old(entries)
      ensures schedulerRunning == old(schedulerRunning)
      ensures entries == if inserted then old(entries)[token := stopAt] else old(entries)
    {
      if token in entries {
        return false;
      }
      entries := entries[token := stopAt];
      inserted := true;
    }

    /** Second half: claim the flag, and with it the duty to spawn the scheduler. */
    method EnsureScheduler() returns (spawn: bool)
      modifies this
      ensures (Contents(), spawn) == Ensured(old(Contents()))
      ensures spawn <==> !old(schedulerRunning) && old(entries) != map[]
      ensures entries == old(entries) && (schedulerRunning <==> old(schedulerRunning) || spawn)
    {
      if schedulerRunning || entries == map[] {
        return false;
      }
      schedulerRunning := true;
      spawn := true;
    }

    method Tick(now: int) returns (stop: bool)
      modifies this
      ensures (Contents(), stop) == Ticked(old(Contents()), now)
      ensures forall k :: k in entries <==> k in old(entries) && now < old(entries)[k]
      ensures forall k :: k in entries ==> entries[k] == old(entries)[k]
      ensures (stop <==> entries == map[]) && (schedulerRunning <==> old(schedulerRunning) && !stop)
    {
      entries := Retained(entries, now);
      stop := entries == map[];
      if stop {
        schedulerRunning := false;
      }
    }

    method Stop(token: Key)
      modifies this
      ensures Contents() == Stopped(old(Contents()), token)
      ensures entries == old(entries) - {token} && schedulerRunning == old(schedulerRunning)
    {
      entries := entries - {token};
    }
  }

  // ---------- The protocol ----------

  /** A registrar between its two halves, one about to spawn, a live scheduler, or a finished task. */
  datatype Task = Inserted | Spawning | Scheduling | Finished

  /** `disposed` is the engine's cancellation token. */
  datatype State = State(board: Board, tasks: seq<Task>, disposed: bool)

  const INIT := State(Board(map[], false), [], false)

  datatype Step =
    | Register(token: Key, stopAt: int)
    | Ensure(task: nat)
    | Spawn(task: nat)
    | Tick(task: nat, now: int)
    | Stop(token: Key)
    | Dispose
    | Cancelled(task: nat)

  predicate Enabled(s: State, step: Step) {
    match step
    case Ensure(i) => i < |s.tasks| && s.tasks[i].Inserted?
    case Spawn(i) => i < |s.tasks| && s.tasks[i].Spawning?
    case Tick(i, _) => i < |s.tasks| && s.tasks[i].Scheduling?
    case Cancelled(i) => i < |s.tasks| && s.tasks[i].Scheduling? && s.disposed
    case _ => true
  }

  function Next(s: State, step: Step): (r: State)
    requires Enabled(s, step)
  {
    match step
    case Register(token, stopAt) =>
      var (board, inserted) := Tracked(s.board, token, stopAt);
      if inserted then s.(board := board, tasks := s.tasks + [Inserted]) else s
    case Ensure(i) =>
      var (board, spawn) := Ensured(s.board);
      s.(board := board, tasks := s.tasks[i := if spawn then Spawning else Finished])
    case Spawn(i) => s.(tasks := s.tasks[i := Scheduling])
    case Tick(i, now) =>
      var (board, stop) := Ticked(s.board, now);
      s.(board := board, tasks := if stop then s.tasks[i := Finished] else s.tasks)
    case Stop(token) => s.(board := Stopped(s.board, token))
    case Dispose => s.(disposed := true)
    case Cancelled(i) => s.(board := s.board.(running := false), tasks := s.tasks[i := Finished])
  }

  ghost predicate Executable(s: State, steps: seq<Step>)
    decreases |steps|
  {
    steps == [] || (Enabled(s, steps[0]) && Executable(Next(s, steps[0]), steps[1..]))
  }

  ghost function Exec(s: State, steps: seq<Step>): (r: State)
    requires Executable(s, steps)
    decreases |steps|
  {
    if steps == [] then s else Exec(Next(s, steps[0]), steps[1..])
  }

  /** The schedulers that are live or already owed a spawn. */
  function Schedulers(s: State): (r: set<nat>) {
    set i: nat | i < |s.tasks| && (s.tasks[i].Spawning? || s.tasks[i].Scheduling?)
  }

  function Registrars(s: State): (r: set<nat>) {
    set i: nat | i < |s.tasks| && s.tasks[i].Inserted?
  }

  ghost predicate Inv(s: State) {
    && (s.board.running <==> Schedulers(s) != {})
    && (forall i, j :: i in Schedulers(s) && j in Schedulers(s) ==> i == j)
    && (s.board.entries != map[] ==> s.disposed || s.board.running || Registrars(s) != {})
  }

  lemma InvRegister(s: State, token: Key, stopAt: int)
    requires Inv(s)
    ensures Inv(Next(s, Register(token, stopAt)))
  {
    var s' := Next(s, Register(token, stopAt));
    if token !in s.board.entries {
      assert Schedulers(s') == Schedulers(s);
      assert |s.tasks| in Registrars(s');
    }
  }

  lemma InvEnsure(s: State, i: nat)
    requires Inv(s) && Enabled(s, Ensure(i))
    ensures Inv(Next(s, Ensure(i)))
  {
    var s' := Next(s, Ensure(i));
    if s.board.running || s.board.entries == map[] {
      assert Schedulers(s') == Schedulers(s);
    } else {
      assert Schedulers(s') == {i};
    }
  }

  lemma InvTick(s: State, i: nat, now: int)
    requires Inv(s) && Enabled(s, Tick(i, now))
    ensures Inv(Next(s, Tick(i, now)))
  {
    var s' := Next(s, Tick(i, now));
    assert i in Schedulers(s);
    if Ticked(s.board, now).1 {
      assert Schedulers(s') == Schedulers(s) - {i} == {};
    } else {
      assert Schedulers(s') == Schedulers(s);
    }
  }

  lemma InvCancelled(s: State, i: nat)
    requires Inv(s) && Enabled(s, Cancelled(i))
    ensures Inv(Next(s, Cancelled(i)))
  {
    assert i in Schedulers(s);
    assert Schedulers(Next(s, Cancelled(i))) == Schedulers(s) - {i} == {};
  }

  lemma {:induction false} InvRun(s: State, steps: seq<Step>)
    requires Inv(s) && Executable(s, steps)
    ensures Inv(Exec(s, steps))
    decreases |steps|
  {
    if steps == [] {
    } else {
      var s' := Next(s, steps[0]);
      match steps[0] {
        case Register(token, stopAt) => InvRegister(s, token, stopAt);
        case Ensure(i) => InvEnsure(s, i);
        case Spawn(i) =>
          assert Schedulers(s') == Schedulers(s) && Registrars(s') == Registrars(s);
        case Tick(i, now) => InvTick(s, i, now);
        case Stop(_) =>
          assert Schedulers(s') == Schedulers(s) && Registrars(s') == Registrars(s);
        case Dispose =>
          assert Schedulers(s') == Schedulers(s) && Registrars(s') == Registrars(s);
        case Cancelled(i) => InvCancelled(s, i);
      }
      InvRun(s', steps[1..]);
    }
  }

  /**
   No lost wakeup: in every interleaving of registrations, stops, ticks and disposal, the
   flag is set exactly when one scheduler is live and clear exactly when there is none;
   and until disposal a nonempty heartbeat map means the flag is set or some registrar is
   between its insert and its `ensure_scheduler`.
   */
  lemma NoLostWakeup(steps: seq<Step>)
    requires Executable(INIT, steps)
    ensures var s := Exec(INIT, steps);
            && (s.board.entries != map[] && !s.disposed ==> s.board.running || Registrars(s) != {})
            && (s.board.running <==> |Schedulers(s)| == 1)
            && (!s.board.running <==> Schedulers(s) == {})
  {
    assert Schedulers(INIT) == {};
    InvRun(INIT, steps);
    var s := Exec(INIT, steps);
    if s.board.running {
      var i :| i in Schedulers(s);
      assert Schedulers(s) == {i};
    }
  }

  /** The registrar that is still on its way repairs the gap: after its second half the flag is set. */
  lemma EnsureStartsScheduler(steps: seq<Step>, i: nat)
    requires Executable(INIT, steps) && Enabled(Exec(INIT, steps), Ensure(i))
    requires Exec(INIT, steps).board.entries != map[]
    ensures var s' := Next(Exec(INIT, steps), Ensure(i)); s'.board.running && |Schedulers(s')| == 1
  {
    NoLostWakeup(steps);
    var s := Exec(INIT, steps);
    var s' := Next(s, Ensure(i));
    if s.board.running {
      assert Schedulers(s') == Schedulers(s);
    } else {
      assert Schedulers(s') == {i};
    }
  }

  // ---------- Which tokens beat ----------

  /** What one step does to one token's deadline, seen on its own. */
  function Then(deadline: Option<int>, step: Step, token: Key): (r: Option<int>) {
    match step
    case Register(k, stopAt) => if k == token && deadline.None? then Some(stopAt) else deadline
    case Stop(k) => if k == token then None else deadline
    case Tick(_, now) => if deadline.Some? && deadline.value <= now then None else deadline
    case _ => deadline
  }

  function Deadline(deadline: Option<int>, steps: seq<Step>, token: Key): (r: Option<int>)
    decreases |steps|
  {
    if steps == [] then deadline else Deadline(Then(deadline, steps[0], token), steps[1..], token)
  }

  function Lookup(entries: map<Key, int>, token: Key): (r: Option<int>) {
    if token in entries then Some(entries[token]) else None
  }

  lemma DeadlineStep(s: State, step: Step, token: Key)
    requires Enabled(s, step)
    ensures Lookup(Next(s, step).board.entries, token) == Then(Lookup(s.board.entries, token), step, token)
  {
  }

  lemma {:induction false} DeadlineRun(s: State, steps: seq<Step>, token: Key)
    requires Executable(s, steps)
    ensures Lookup(Exec(s, steps).board.entries, token) == Deadline(Lookup(s.board.entries, token), steps, token)
    decreases |steps|
  {
    if steps == [] {
    } else {
      DeadlineStep(s, steps[0], token);
      DeadlineRun(Next(s, steps[0]), steps[1..], token);
    }
  }

  /**
   In every interleaving each token beats on its own: from its first registration, whose
   deadline later ones leave alone, until it is stopped or a tick finds the deadline
   reached, whatever happens to other tokens and to the schedulers.
   */
  lemma TokensBeatIndependently(steps: seq<Step>, token: Key)
    requires Executable(INIT, steps)
    ensures Lookup(Exec(INIT, steps).board.entries, token) == Deadline(None, steps, token)
  {
    DeadlineRun(INIT, steps, token);
  }
}
