/**
 The ready-token protocol of `handler_scheduler.go` and of the handler half of
 `endpoint.go`. A connection with work holds one token, which travels through
 the ready channel to a worker and back.

 A step is one critical section or one channel operation. `lock` says how far a
 goroutine that holds a connection's handler mutex has come inside `enqueue`.
 Connections are numbered; only the length of a handler queue matters here.
 */
module Scheduler {
  import opened Prelude

  const QUANTUM: nat := 32

  /** Where the holder of a connection's handler mutex stands in `enqueue`. */
  datatype Lock =
    | Free
    | Entering     // item accepted and handlerScheduled set, scheduler not yet asked
    | Sending      // work counted, ready channel not yet tried

  datatype Conn = Conn(queued: nat, scheduled: bool, lock: Lock)

  datatype Worker =
    | Idle
    | Running(conn: nat, count: nat)   // count callbacks of this quantum begun
    | Yielding(conn: nat)              // sending its token back to the ready channel
    | Retiring                         // token given up, work counter not yet lowered
    | Stopped

  datatype State = State(conns: seq<Conn>, ready: seq<nat>, capacity: nat, workers: seq<Worker>,
                         work: int, accepting: bool, cancelled: bool, callbacks: nat)

  datatype Step =
    | Connect
    | Accept(o: nat)             // enqueueHandler / enqueueReservedReliableHandler up to scheduler.enqueue
    | Count(o: nat)              // enqueue: the section under scheduler.mu
    | Send(o: nat, sent: bool)   // enqueue: the select on the ready channel
    | Drop(o: nat)               // dropQueuedHandlers
    | Pick(w: nat)               // run: receive from the ready channel
    | Callback(w: nat)           // runHandlerQuantum: pop and invoke, or find nothing
    | EndQuantum(w: nat)         // runHandlerQuantum: after 32 callbacks
    | Requeue(w: nat)            // runHandlerQuantum: the blocking send
    | Done(w: nat)               // work.Done
    | Close                      // close: stop accepting
    | Cancel                     // close: work.Wait returned
    | Quit(w: nat)               // run: context done

  predicate Unlocked(s: State, o: nat) {
    o < |s.conns| && s.conns[o].lock == Free
  }

  predicate Enabled(s: State, step: Step) {
    match step
    case Connect => true
    case Accept(o) => Unlocked(s, o)
    case Count(o) => o < |s.conns| && s.conns[o].lock == Entering
    case Send(o, sent) => o < |s.conns| && s.conns[o].lock == Sending
                          && (if sent then |s.ready| < s.capacity else |s.ready| >= s.capacity || s.cancelled)
    case Drop(o) => Unlocked(s, o)
    case Pick(w) => w < |s.workers| && s.workers[w] == Idle && s.ready != []
    case Callback(w) =>
      w < |s.workers| && s.workers[w].Running? && s.workers[w].count < QUANTUM && Unlocked(s, s.workers[w].conn)
    case EndQuantum(w) =>
      w < |s.workers| && s.workers[w].Running? && s.workers[w].count == QUANTUM && Unlocked(s, s.workers[w].conn)
    case Requeue(w) => w < |s.workers| && s.workers[w].Yielding? && |s.ready| < s.capacity
    case Done(w) => w < |s.workers| && s.workers[w] == Retiring
    case Close => true
    case Cancel => !s.accepting && s.work == 0
    case Quit(w) => w < |s.workers| && s.workers[w] == Idle && s.cancelled
  }

  function SetConn(s: State, o: nat, c: Conn): State
    requires o < |s.conns|
  {
    s.(conns := s.conns[o := c])
  }

  function SetWorker(s: State, w: nat, worker: Worker): State
    requires w < |s.workers|
  {
    s.(workers := s.workers[w := worker])
  }

  /** Takes the head item back out and gives the token up. */
  function Undone(c: Conn): Conn {
    Conn(if c.queued == 0 then 0 else c.queued - 1, false, Free)
  }

  function Next(s: State, step: Step): State
    requires Enabled(s, step)
  {
    match step
    case Connect => s.(conns := s.conns + [Conn(0, false, Free)])
    case Accept(o) =>
      var c := s.conns[o];
      SetConn(s, o, if c.scheduled then c.(queued := c.queued + 1) else Conn(c.queued + 1, true, Entering))
    case Count(o) =>
      if s.accepting then SetConn(s, o, s.conns[o].(lock := Sending)).(work := s.work + 1)
      else SetConn(s, o, Undone(s.conns[o]))
    case Send(o, sent) =>
      if sent then SetConn(s, o, s.conns[o].(lock := Free)).(ready := s.ready + [o])
      else SetConn(s, o, Undone(s.conns[o])).(work := s.work - 1)
    case Drop(o) => SetConn(s, o, s.conns[o].(queued := 0))
    case Pick(w) => SetWorker(s, w, Running(s.ready[0], 0)).(ready := s.ready[1..])
    case Callback(w) =>
      var o := s.workers[w].conn;
      var c := s.conns[o];
      if c.queued == 0 then SetWorker(SetConn(s, o, c.(scheduled := false)), w, Retiring)
      else
        var popped := SetConn(s, o, c.(queued := c.queued - 1)).(callbacks := s.callbacks + 1);
        SetWorker(popped, w, Running(o, s.workers[w].count + 1))
    case EndQuantum(w) =>
      var o := s.workers[w].conn;
      if s.conns[o].queued > 0 && s.accepting then SetWorker(s, w, Yielding(o))
      else SetWorker(SetConn(s, o, s.conns[o].(scheduled := false)), w, Retiring)
    case Requeue(w) => SetWorker(s, w, Idle).(ready := s.ready + [s.workers[w].conn])
    case Done(w) => SetWorker(s, w, Idle).(work := s.work - 1)
    case Close => s.(accepting := false)
    case Cancel => s.(cancelled := true)
    case Quit(w) => SetWorker(s, w, Stopped)
  }

  predicate Init(s: State) {
    && s.conns == [] && s.ready == [] && s.work == 0 && s.accepting && !s.cancelled && s.callbacks == 0
    && forall w :: 0 <= w < |s.workers| ==> s.workers[w] == Idle
  }

  ghost predicate Run(states: seq<State>, steps: seq<Step>) {
    && |states| == |steps| + 1 && Init(states[0])
    && forall i :: 0 <= i < |steps| ==> Enabled(states[i], steps[i]) && states[i + 1] == Next(states[i], steps[i])
  }

  // ------------------------------------------------------------------- counts

  predicate Holds(worker: Worker, o: nat) {
    (worker.Running? || worker.Yielding?) && worker.conn == o
  }

  predicate Busy(worker: Worker) {
    worker.Running? || worker.Yielding? || worker.Retiring?
  }

  function Holders(workers: seq<Worker>, o: nat): nat {
    if workers == [] then 0 else (if Holds(workers[0], o) then 1 else 0) + Holders(workers[1..], o)
  }

  function BusyWorkers(workers: seq<Worker>): nat {
    if workers == [] then 0 else (if Busy(workers[0]) then 1 else 0) + BusyWorkers(workers[1..])
  }

  function Senders(conns: seq<Conn>): nat {
    if conns == [] then 0 else (if conns[0].lock == Sending then 1 else 0) + Senders(conns[1..])
  }

  /** Tokens of connection `o`: in the ready channel, at a worker, or being enqueued. */
  function Tokens(s: State, o: nat): nat {
    multiset(s.ready)[o] + Holders(s.workers, o) + if o < |s.conns| && s.conns[o].lock != Free then 1 else 0
  }

  // --------------------------------------------------------------- invariant

  /** One token exactly while handlerScheduled is set, never more. */
  ghost predicate OneToken(s: State) {
    forall o: nat :: TokenRight(s, o)
  }

  predicate WorkCounted(s: State) {
    s.work == |s.ready| + BusyWorkers(s.workers) + Senders(s.conns)
  }

  /** While the scheduler accepts, a connection without a token has no work. */
  predicate NoLostWork(s: State) {
    forall o :: 0 <= o < |s.conns| ==>
      && (s.conns[o].lock != Free ==> s.conns[o].queued >= 1)
      && (s.accepting && s.conns[o].lock != Free ==> s.conns[o].queued == 1)
      && (s.accepting && !s.conns[o].scheduled ==> s.conns[o].queued == 0)
  }

  ghost predicate Inv(s: State) {
    && OneToken(s) && WorkCounted(s) && NoLostWork(s)
    && (s.cancelled ==> !s.accepting && s.work == 0)
    && |s.ready| <= s.capacity
    && (forall w :: 0 <= w < |s.workers| && s.workers[w].Running? ==> s.workers[w].count <= QUANTUM)
  }

  lemma {:induction false} SchedulerInv(states: seq<State>, steps: seq<Step>, n: nat)
    requires Run(states, steps) && n <= |steps|
    ensures Inv(states[n])
  {
    if n == 0 {
      InitInv(states[0]);
    } else {
      SchedulerInv(states, steps, n - 1);
      assert states[n - 1 + 1] == Next(states[n - 1], steps[n - 1]);
      NextInv(states[n - 1], steps[n - 1]);
    }
  }

  /** In every reachable state a connection has at most one token, held exactly
      while it is scheduled; so two workers never serve the same connection. */
  lemma CallbacksAreSerial(states: seq<State>, steps: seq<Step>, n: nat, w: nat, v: nat, o: nat)
    requires Run(states, steps) && n <= |steps|
    requires w < |states[n].workers| && v < |states[n].workers|
    requires Holds(states[n].workers[w], o) && Holds(states[n].workers[v], o)
    ensures w == v && o !in states[n].ready && o < |states[n].conns| && states[n].conns[o].scheduled
  {
    var s := states[n];
    SchedulerInv(states, steps, n);
    assert TokenRight(s, o);
    HoldersAtLeast(s.workers, o, w);
    if w < v {
      TwoHolders(s.workers, o, w, v);
    } else if v < w {
      TwoHolders(s.workers, o, v, w);
    }
  }

  // ------------------------------------------------------ serial per session

  /** A run of an endpoint with one session: before its next connection is made, the
      epoch of every earlier one has been stopped and its queue dropped. */
  ghost predicate OneSession(states: seq<State>, steps: seq<Step>) {
    && Run(states, steps)
    && forall i, o :: 0 <= i < |steps| && steps[i] == Connect && 0 <= o < |states[i].conns| ==> Dropped(steps, i, o)
  }

  ghost predicate Dropped(steps: seq<Step>, i: nat, o: nat) {
    exists j :: 0 <= j < i <= |steps| && steps[j] == Drop(o)
  }

  /** Inside a callback, or between two of them. */
  predicate InCallbacks(worker: Worker) {
    worker.Running? && worker.count >= 1
  }

  ghost predicate Overlap(states: seq<State>, steps: seq<Step>, n: nat, w: nat, v: nat) {
    && n <= |steps| < |states| && w < v < |states[n].workers|
    && InCallbacks(states[n].workers[w]) && InCallbacks(states[n].workers[v])
  }

  /** A run of one session on a scheduler of this size. */
  ghost predicate Sized(states: seq<State>, steps: seq<Step>, capacity: nat, workers: nat) {
    OneSession(states, steps) && states[0].capacity == capacity && |states[0].workers| == workers
  }

  /** No such run has two callbacks at once. */
  ghost predicate SerialPerSession(capacity: nat, workers: nat) {
    forall states: seq<State>, steps: seq<Step>, n: nat, w: nat, v: nat ::
      Sized(states, steps, capacity, workers) ==> !Overlap(states, steps, n, w, v)
  }

  /** The scheduler's own comment promises that callbacks of one session never
      overlap. The token is the connection's, though, and a callback of a superseded
      connection may still run when its successor's first begins: the promise holds
      exactly with one worker, as a client has; a server has two at least. */
  lemma SerialPerSessionExactly(capacity: nat, workers: nat)
    requires capacity >= 1
    ensures SerialPerSession(capacity, workers) <==> workers <= 1
  {
    if workers <= 1 {
      forall states: seq<State>, steps: seq<Step>, n: nat, w: nat, v: nat | Sized(states, steps, capacity, workers)
        ensures !Overlap(states, steps, n, w, v)
      {
        if Overlap(states, steps, n, w, v) {
          CapacityFixed(states, steps, n);
        }
      }
    } else {
      var states, steps := Overlapping(capacity, workers);
      assert Sized(states, steps, capacity, workers);
      assert Overlap(states, steps, |steps|, 0, 1);
    }
  }

  predicate Together(session: map<nat, nat>, o: nat, o': nat) {
    o in session && o' in session && session[o] == session[o']
  }

  /** With any number of workers it holds of a session that has one scheduled connection. */
  lemma SerialWhileOneScheduled(states: seq<State>, steps: seq<Step>, n: nat, w: nat, v: nat, session: map<nat, nat>)
    requires Run(states, steps) && n <= |steps| && w < |states[n].workers| && v < |states[n].workers|
    requires forall o, o' :: o in Scheduled(states[n]) && o' in Scheduled(states[n]) && Together(session, o, o') ==>
               o == o'
    requires states[n].workers[w].Running? && states[n].workers[v].Running?
    requires Together(session, states[n].workers[w].conn, states[n].workers[v].conn)
    ensures w == v
  {
    CallbacksAreSerial(states, steps, n, w, w, states[n].workers[w].conn);
    CallbacksAreSerial(states, steps, n, v, v, states[n].workers[v].conn);
    CallbacksAreSerial(states, steps, n, w, v, states[n].workers[w].conn);
  }

  /** A callback of the first connection is under way when the second's begins. */
  lemma Overlapping(capacity: nat, workers: nat) returns (states: seq<State>, steps: seq<Step>)
    requires capacity >= 1 && workers >= 2
    ensures Sized(states, steps, capacity, workers) && Overlap(states, steps, |steps|, 0, 1)
  {
    states, steps := FirstCallback(capacity, workers);
    states, steps := Superseded(states, steps);
    states, steps := Enqueued(states, steps, 1);
    hide OneSession, Run;
    states, steps := Then(states, steps, Pick(1));
    states, steps := Then(states, steps, Callback(1));
  }

  lemma FirstCallback(capacity: nat, workers: nat) returns (states: seq<State>, steps: seq<Step>)
    requires capacity >= 1 && workers >= 1
    ensures OneSession(states, steps) && states[0] == Start(capacity, workers)
    ensures states[|steps|] == Serving(capacity, workers, 0, 1)
  {
    states, steps := [Start(capacity, workers)], [];
    states, steps := Then(states, steps, Connect);
    states, steps := Enqueued(states, steps, 0);
    hide Run;
    states, steps := Then(states, steps, Pick(0));
    states, steps := Then(states, steps, Callback(0));
  }

  /** Cancellation happens only when nothing is left: no ready token is stranded,
      no worker is busy, and an enqueue never sees the context done. */
  lemma CancellationStrandsNothing(states: seq<State>, steps: seq<Step>, n: nat)
    requires Run(states, steps) && n <= |steps| && states[n].cancelled
    ensures states[n].ready == []
    ensures forall w :: 0 <= w < |states[n].workers| ==> !Busy(states[n].workers[w])
    ensures forall o :: 0 <= o < |states[n].conns| ==> states[n].conns[o].lock != Sending
  {
    var s := states[n];
    SchedulerInv(states, steps, n);
    forall w | 0 <= w < |s.workers| ensures !Busy(s.workers[w]) {
      BusyAtLeast(s.workers, w);
    }
    forall o | 0 <= o < |s.conns| ensures s.conns[o].lock != Sending {
      SendersAtLeast(s.conns, o);
    }
  }

  /** A yielding worker finds room whenever the token holders fit the ready channel. */
  lemma RequeueNeverBlocks(states: seq<State>, steps: seq<Step>, n: nat, w: nat)
    requires Run(states, steps) && n <= |steps|
    requires w < |states[n].workers| && states[n].workers[w].Yielding?
    requires |Scheduled(states[n])| <= states[n].capacity
    ensures Enabled(states[n], Requeue(w))
  {
    var s := states[n];
    SchedulerInv(states, steps, n);
    var o := s.workers[w].conn;
    HoldersAtLeast(s.workers, o, w);
    assert TokenRight(s, o);
    var waiting := set i | 0 <= i < |s.ready| :: s.ready[i];
    forall i, j | 0 <= i < j < |s.ready| ensures s.ready[i] != s.ready[j] {
      assert TokenRight(s, s.ready[i]);
      TwoReady(s.ready, i, j);
    }
    DistinctSize(s.ready);
    forall x | x in waiting + {o} ensures x in Scheduled(s) {
      assert TokenRight(s, x);
    }
    SubsetSize(waiting + {o}, Scheduled(s));
  }

  function Scheduled(s: State): set<nat> {
    set o | 0 <= o < |s.conns| && s.conns[o].scheduled :: o
  }

  // -------------------------------------------------- when requeueing blocks

  /** A run of a scheduler of this size that reaches state `n` with worker `w` yielding. */
  ghost predicate Yields(states: seq<State>, steps: seq<Step>, n: nat, w: nat, capacity: nat, workers: nat) {
    && Run(states, steps) && n <= |steps| && states[0].capacity == capacity && |states[0].workers| == workers
    && w < |states[n].workers| && states[n].workers[w].Yielding?
  }

  /** Up to state `n` no more than `k` connections ever hold tokens at once. */
  ghost predicate TokensWithin(states: seq<State>, n: nat, k: nat) {
    forall i :: 0 <= i <= n && i < |states| ==> |Scheduled(states[i])| <= k
  }

  /** No run with at most `k` tokens at a time ever leaves a yielding worker waiting. */
  ghost predicate NeverBlocks(capacity: nat, workers: nat, k: nat) {
    forall states: seq<State>, steps: seq<Step>, n: nat, w: nat ::
      Yields(states, steps, n, w, capacity, workers) && TokensWithin(states, n, k) ==> Enabled(states[n], Requeue(w))
  }

  /** The comment in `runHandlerQuantum` that a token cannot be rejected holds
      exactly while no more connections hold tokens at once than there are ready
      slots. Sessions are limited to that number, but the superseded connection of a
      session can hold a token beside its successor's. */
  lemma RequeueExactly(capacity: nat, workers: nat, k: nat)
    requires capacity >= 1 && workers >= 1
    ensures NeverBlocks(capacity, workers, k) <==> k <= capacity
  {
    if k <= capacity {
      forall states: seq<State>, steps: seq<Step>, n: nat, w: nat |
        Yields(states, steps, n, w, capacity, workers) && TokensWithin(states, n, k)
        ensures Enabled(states[n], Requeue(w))
      {
        CapacityFixed(states, steps, n);
        RequeueNeverBlocks(states, steps, n, w);
      }
    } else {
      var states, steps := Blocked(capacity, workers);
      var n := |steps|;
      forall i | 0 <= i <= n ensures |Scheduled(states[i])| <= k {
        ConnectionsStay(states, steps, i, n);
        ScheduledSize(states[i].conns, |states[i].conns|);
      }
      assert Yields(states, steps, n, 0, capacity, workers) && !Enabled(states[n], Requeue(0));
    }
  }

  lemma {:induction false} ConnectionsStay(states: seq<State>, steps: seq<Step>, i: nat, n: nat)
    requires Run(states, steps) && i <= n <= |steps|
    ensures |states[i].conns| <= |states[n].conns|
  {
    hide Next, Enabled, Init;
    if i < n {
      ConnectionsStay(states, steps, i, n - 1);
      assert states[n - 1 + 1] == Next(states[n - 1], steps[n - 1]);
      ConnectionStays(states[n - 1], steps[n - 1]);
    }
  }

  lemma ConnectionStays(s: State, step: Step)
    requires Enabled(s, step)
    ensures |s.conns| <= |Next(s, step).conns|
  {
  }

  lemma {:induction false} CapacityFixed(states: seq<State>, steps: seq<Step>, n: nat)
    requires Run(states, steps) && n <= |steps|
    ensures states[n].capacity == states[0].capacity && |states[n].workers| == |states[0].workers|
  {
    if n > 0 {
      CapacityFixed(states, steps, n - 1);
      assert states[n - 1 + 1] == Next(states[n - 1], steps[n - 1]);
    }
  }

  lemma {:induction false} ScheduledSize(conns: seq<Conn>, n: nat)
    requires n <= |conns|
    ensures |set o | 0 <= o < n && conns[o].scheduled :: o| <= n
  {
    if n > 0 {
      ScheduledSize(conns, n - 1);
      var front := set o | 0 <= o < n - 1 && conns[o].scheduled :: o;
      var all := set o | 0 <= o < n && conns[o].scheduled :: o;
      assert all <= front + {n - 1};
      SubsetSize(all, front + {n - 1});
    }
  }

  lemma Extend(states: seq<State>, steps: seq<Step>, step: Step)
    requires Run(states, steps) && Enabled(states[|steps|], step)
    ensures Run(states + [Next(states[|steps|], step)], steps + [step])
  {
    hide Next, Enabled, Init;
  }

  /** The run continued by one step. */
  lemma Then(states: seq<State>, steps: seq<Step>, step: Step) returns (states': seq<State>, steps': seq<Step>)
    requires Run(states, steps) && Enabled(states[|steps|], step)
    ensures Run(states', steps') && Continues(states, steps, states', steps') && steps' == steps + [step]
    ensures states'[|steps'|] == Next(states[|steps|], step)
    ensures OneSession(states, steps) && step != Connect ==> OneSession(states', steps')
  {
    Extend(states, steps, step);
    states', steps' := states + [Next(states[|steps|], step)], steps + [step];
    hide Next, Enabled, Init;
    if OneSession(states, steps) && step != Connect {
      StillOneSession(states, steps, states', steps');
    }
  }

  /** One run begins as another does. */
  predicate Continues(states: seq<State>, steps: seq<Step>, states': seq<State>, steps': seq<Step>) {
    states <= states' && steps <= steps'
  }

  lemma StillOneSession(states: seq<State>, steps: seq<Step>, states': seq<State>, steps': seq<Step>)
    requires OneSession(states, steps) && Run(states', steps') && Continues(states, steps, states', steps')
    requires forall i :: |steps| <= i < |steps'| ==> steps'[i] != Connect
    ensures OneSession(states', steps')
  {
    hide Next, Enabled, Init;
    forall i, o | 0 <= i < |steps'| && steps'[i] == Connect && 0 <= o < |states'[i].conns|
      ensures Dropped(steps', i, o)
    {
      assert i < |steps|;
      assert steps[i] == Connect && states[i] == states'[i];
      assert Dropped(steps, i, o);
      var j :| 0 <= j < i && steps[j] == Drop(o);
      assert steps'[j] == Drop(o);
    }
  }

  /** One connection spends its quantum, then its epoch is stopped and its queue
      dropped; the connections made after that fill the channel; and an event its
      reader had reserved room for is committed late, so that it has work left. */
  lemma Blocked(capacity: nat, workers: nat) returns (states: seq<State>, steps: seq<Step>)
    requires capacity >= 1 && workers >= 1
    ensures Run(states, steps) && states[0].capacity == capacity && |states[0].workers| == workers
    ensures exists d :: 0 <= d < |steps| && steps[d] == Drop(0) && |states[d].conns| == 1
    ensures capacity == 1 ==> OneSession(states, steps)
    ensures var s := states[|steps|];
            && |s.conns| == capacity + 1 && |s.workers| == workers
            && s.workers[0].Yielding? && |s.ready| == capacity == s.capacity
  {
    states, steps := Spent(capacity, workers);
    ghost var d := |steps|;
    states, steps := Superseded(states, steps);
    states, steps := Enqueued(states, steps, 1);
    states, steps := Crowded(states, steps, capacity);
    states, steps := Then(states, steps, Accept(0));
    states, steps := Then(states, steps, EndQuantum(0));
    assert steps[d] == Drop(0) && |states[d].conns| == 1;
  }

  function Start(capacity: nat, workers: nat): State {
    State([], [], capacity, seq(workers, i => Idle), 0, true, false, 0)
  }

  /** One connection, with `queued` items and its token at worker 0, `count` callbacks into the quantum. */
  function Serving(capacity: nat, workers: nat, queued: nat, count: nat): State
    requires workers >= 1
  {
    var crew := seq(workers, i => Idle)[0 := Running(0, count)];
    State([Conn(queued, true, Free)], [], capacity, crew, 1, true, false, count)
  }

  lemma Spent(capacity: nat, workers: nat) returns (states: seq<State>, steps: seq<Step>)
    requires capacity >= 1 && workers >= 1
    ensures OneSession(states, steps) && states[0] == Start(capacity, workers)
    ensures states[|steps|] == Serving(capacity, workers, 0, QUANTUM)
  {
    states, steps := Loaded(capacity, workers);
    states, steps := Then(states, steps, Pick(0));
    var n := 0;
    while n < QUANTUM
      invariant n <= QUANTUM
      invariant OneSession(states, steps) && states[0] == Start(capacity, workers)
      invariant states[|steps|] == Serving(capacity, workers, QUANTUM - n, n)
    {
      states, steps := Then(states, steps, Callback(0));
      n := n + 1;
    }
  }

  lemma Loaded(capacity: nat, workers: nat) returns (states: seq<State>, steps: seq<Step>)
    requires capacity >= 1
    ensures OneSession(states, steps) && states[0] == Start(capacity, workers)
    ensures states[|steps|] == Start(capacity, workers).(conns := [Conn(QUANTUM, true, Free)], ready := [0], work := 1)
  {
    states, steps := [Start(capacity, workers)], [];
    states, steps := Then(states, steps, Connect);
    states, steps := Enqueued(states, steps, 0);
    var n := 1;
    while n < QUANTUM
      invariant 1 <= n <= QUANTUM
      invariant OneSession(states, steps) && states[0] == Start(capacity, workers)
      invariant states[|steps|] == Start(capacity, workers).(conns := [Conn(n, true, Free)], ready := [0], work := 1)
    {
      states, steps := Then(states, steps, Accept(0));
      n := n + 1;
    }
  }

  /** The session's connection is dropped and its successor made. */
  lemma Superseded(states: seq<State>, steps: seq<Step>) returns (states': seq<State>, steps': seq<Step>)
    requires OneSession(states, steps) && |states[|steps|].conns| == 1 && states[|steps|].conns[0].lock == Free
    ensures OneSession(states', steps') && Continues(states, steps, states', steps')
    ensures steps' == steps + [Drop(0), Connect]
    ensures var s := states[|steps|];
            states'[|steps'|] == s.(conns := [s.conns[0].(queued := 0), Conn(0, false, Free)])
  {
    var dropped, more := Then(states, steps, Drop(0));
    states', steps' := Then(dropped, more, Connect);
    hide Run, Next;
    assert steps' == steps + [Drop(0), Connect];
    forall i, o | 0 <= i < |steps'| && steps'[i] == Connect && 0 <= o < |states'[i].conns|
      ensures Dropped(steps', i, o)
    {
      if i < |more| {
        assert more[i] == Connect && dropped[i] == states'[i];
        assert Dropped(more, i, o);
        var j :| 0 <= j < i && more[j] == Drop(o);
        assert steps'[j] == Drop(o);
      } else {
        assert states'[i] == dropped[|more|] && o == 0;
        assert steps'[|steps|] == Drop(0);
      }
    }
  }

  lemma Crowded(states: seq<State>, steps: seq<Step>, capacity: nat) returns (states': seq<State>, steps': seq<Step>)
    requires OneSession(states, steps) && capacity >= 1
    requires var s := states[|steps|];
             && |s.conns| == 2 && s.conns[0] == Conn(0, true, Free) && |s.ready| == 1 && s.capacity == capacity
             && s.accepting && |s.workers| >= 1 && s.workers[0] == Running(0, QUANTUM)
    ensures Run(states', steps') && Continues(states, steps, states', steps')
    ensures capacity == 1 ==> OneSession(states', steps')
    ensures var s := states'[|steps'|];
            && |s.conns| == capacity + 1 && s.conns[0] == Conn(0, true, Free) && |s.ready| == capacity == s.capacity
            && s.accepting && s.workers == states[|steps|].workers
  {
    states', steps' := states, steps;
    var k := 1;
    while k < capacity
      invariant 1 <= k <= capacity
      invariant Run(states', steps') && Continues(states, steps, states', steps')
      invariant k == 1 ==> states' == states && steps' == steps
      invariant var s := states'[|steps'|];
                && |s.conns| == k + 1 && s.conns[0] == Conn(0, true, Free)
                && |s.ready| == k && s.capacity == capacity && s.accepting && s.workers == states[|steps|].workers
    {
      states', steps' := Then(states', steps', Connect);
      states', steps' := Enqueued(states', steps', k + 1);
      k := k + 1;
    }
  }

  /** The three steps of a first successful enqueue. */
  lemma Enqueued(states: seq<State>, steps: seq<Step>, o: nat) returns (states': seq<State>, steps': seq<Step>)
    requires Run(states, steps)
    requires var s := states[|steps|];
             o < |s.conns| && s.conns[o] == Conn(0, false, Free) && s.accepting && |s.ready| < s.capacity
    ensures Run(states', steps') && Continues(states, steps, states', steps')
    ensures OneSession(states, steps) ==> OneSession(states', steps')
    ensures var s := states[|steps|];
            states'[|steps'|]
            == s.(conns := s.conns[o := Conn(1, true, Free)], ready := s.ready + [o], work := s.work + 1)
  {
    hide OneSession, Run;
    states', steps' := Then(states, steps, Accept(o));
    states', steps' := Then(states', steps', Count(o));
    states', steps' := Then(states', steps', Send(o, true));
  }

  /** Every worker waits for a ready slot and none will ever come free. */
  predicate Stuck(s: State) {
    |s.ready| >= s.capacity && forall w :: 0 <= w < |s.workers| ==> s.workers[w].Yielding?
  }

  /** The blocked send is final: no callback is ever made again. */
  lemma {:induction false} StuckForever(states: seq<State>, steps: seq<Step>, i: nat, j: nat)
    requires Run(states, steps) && i <= j <= |steps| && Stuck(states[i])
    ensures Stuck(states[j]) && states[j].callbacks == states[i].callbacks
  {
    hide Next, Enabled, Init, Stuck;
    if i < j {
      StuckForever(states, steps, i, j - 1);
      assert states[j - 1 + 1] == Next(states[j - 1], steps[j - 1]);
      StillStuck(states[j - 1], steps[j - 1]);
    }
  }

  lemma StillStuck(s: State, step: Step)
    requires Stuck(s) && Enabled(s, step)
    ensures Stuck(Next(s, step)) && Next(s, step).callbacks == s.callbacks
  {
  }

  /** A client's scheduler has one worker and one ready slot. The second connection of
      its session, made after the first was dropped, takes the slot, and an event
      committed late on the first leaves that one with work when its quantum ends. */
  lemma ClientSchedulerCanStick() returns (states: seq<State>, steps: seq<Step>)
    ensures OneSession(states, steps) && states[0].capacity == 1 && |states[0].workers| == 1
    ensures |states[|steps|].conns| == 2 && Stuck(states[|steps|])
  {
    states, steps := Blocked(1, 1);
  }

  // ------------------------------------------------------------ bounded wait

  function Position(ready: seq<nat>, o: nat): nat {
    if ready == [] || ready[0] == o then 0 else 1 + Position(ready[1..], o)
  }

  /** Callbacks a running quantum may still make. */
  function Left(worker: Worker): nat {
    if worker.Running? && worker.count <= QUANTUM then QUANTUM - worker.count else 0
  }

  function Remaining(workers: seq<Worker>): nat {
    if workers == [] then 0 else Left(workers[0]) + Remaining(workers[1..])
  }

  function Ahead(s: State, o: nat): nat {
    QUANTUM * Position(s.ready, o) + Remaining(s.workers)
  }

  /** A token waiting in the ready channel at position p is picked after at most
      32 * (p + workers) callbacks. */
  lemma BoundedWait(states: seq<State>, steps: seq<Step>, i: nat, j: nat, o: nat)
    requires Run(states, steps) && i <= j <= |steps|
    requires forall k :: i <= k <= j ==> o in states[k].ready
    ensures states[j].callbacks - states[i].callbacks <= 32 * (Position(states[i].ready, o) + |states[i].workers|)
  {
    WaitBudget(states, steps, i, j, o);
    RemainingBound(states[i].workers);
  }

  lemma {:induction false} WaitBudget(states: seq<State>, steps: seq<Step>, i: nat, j: nat, o: nat)
    requires Run(states, steps) && i <= j <= |steps|
    requires forall k :: i <= k <= j ==> o in states[k].ready
    ensures states[j].callbacks + Ahead(states[j], o) <= states[i].callbacks + Ahead(states[i], o)
    decreases j
  {
    hide Ahead, Next, Enabled, Inv, Init;
    if i < j {
      WaitBudget(states, steps, i, j - 1, o);
      SchedulerInv(states, steps, j - 1);
      assert o in states[j - 1].ready && o in states[j - 1 + 1].ready;
      assert states[j - 1 + 1] == Next(states[j - 1], steps[j - 1]);
      StepWithinBudget(states[j - 1], steps[j - 1], o);
    }
  }

  lemma StepWithinBudget(s: State, step: Step, o: nat)
    requires Inv(s) && Enabled(s, step) && o in s.ready && o in Next(s, step).ready
    ensures Next(s, step).callbacks + Ahead(Next(s, step), o) <= s.callbacks + Ahead(s, o)
  {
    hide Remaining, Tokens, OneToken, WorkCounted, NoLostWork;
    var s' := Next(s, step);
    match step
    case Send(c, sent) => PositionAppend(s.ready, c, o);
    case Pick(w) => PickWithinBudget(s, w, o);
    case Callback(w) => RemainingUpdate(s.workers, w, s'.workers[w]);
    case EndQuantum(w) => RemainingUpdate(s.workers, w, s'.workers[w]);
    case Requeue(w) =>
      RemainingUpdate(s.workers, w, s'.workers[w]);
      PositionAppend(s.ready, s.workers[w].conn, o);
    case Done(w) => RemainingUpdate(s.workers, w, s'.workers[w]);
    case Quit(w) => RemainingUpdate(s.workers, w, s'.workers[w]);
    case _ =>
  }

  /** Whoever is picked was ahead of a token that stays, and brings one quantum. */
  lemma PickWithinBudget(s: State, w: nat, o: nat)
    requires OneToken(s) && Enabled(s, Pick(w)) && o in s.ready && o in s.ready[1..]
    ensures Ahead(Next(s, Pick(w)), o) <= Ahead(s, o)
  {
    RemainingUpdate(s.workers, w, Running(s.ready[0], 0));
    assert s.ready == [s.ready[0]] + s.ready[1..];
    assert s.ready[0] != o by {
      assert TokenRight(s, o);
    }
  }

  lemma {:induction false} PositionAppend(ready: seq<nat>, c: nat, o: nat)
    requires o in ready
    ensures Position(ready + [c], o) == Position(ready, o)
  {
    if ready[0] != o {
      assert (ready + [c])[1..] == ready[1..] + [c];
      assert ready == [ready[0]] + ready[1..];
      PositionAppend(ready[1..], c, o);
    }
  }

  lemma {:induction false} RemainingUpdate(workers: seq<Worker>, w: nat, worker: Worker)
    requires w < |workers|
    ensures Remaining(workers[w := worker]) == Remaining(workers) - Left(workers[w]) + Left(worker)
  {
    if w == 0 {
      assert workers[0 := worker][1..] == workers[1..];
    } else {
      assert workers[w := worker][1..] == workers[1..][w - 1 := worker];
      RemainingUpdate(workers[1..], w - 1, worker);
    }
  }

  lemma {:induction false} RemainingBound(workers: seq<Worker>)
    ensures Remaining(workers) <= QUANTUM * |workers|
  {
    if workers != [] {
      RemainingBound(workers[1..]);
    }
  }

  // -------------------------------------------------- one step, one invariant

  lemma InitInv(s: State)
    requires Init(s)
    ensures Inv(s)
  {
    forall o: nat ensures TokenRight(s, o) {
      NoHolders(s.workers, o);
    }
    NoHolders(s.workers, 0);
  }

  lemma {:induction false} NoHolders(workers: seq<Worker>, o: nat)
    requires forall w :: 0 <= w < |workers| ==> workers[w] == Idle
    ensures Holders(workers, o) == 0 && BusyWorkers(workers) == 0
  {
    if workers != [] {
      NoHolders(workers[1..], o);
    }
  }

  lemma NextInv(s: State, step: Step)
    requires Inv(s) && Enabled(s, step)
    ensures Inv(Next(s, step))
  {
    NextTokens(s, step);
    NextWork(s, step);
    NextNoLostWork(s, step);
    NextRest(s, step);
  }

  lemma NextTokens(s: State, step: Step)
    requires OneToken(s) && Enabled(s, step)
    ensures OneToken(Next(s, step))
  {
    hide Tokens, Next, Enabled;
    forall o: nat ensures TokenRight(Next(s, step), o) {
      assert TokenRight(s, o);
      if step.Pick? || step.Callback? || step.EndQuantum? || step.Requeue? || step.Done? || step.Quit? {
        WorkerTokens(s, step, o);
      } else {
        ConnTokens(s, step, o);
      }
    }
  }

  predicate TokenRight(s: State, o: nat) {
    Tokens(s, o) == if o < |s.conns| && s.conns[o].scheduled then 1 else 0
  }

  /** Steps that leave the workers alone. */
  lemma ConnTokens(s: State, step: Step, o: nat)
    requires TokenRight(s, o) && Enabled(s, step)
    requires step.Connect? || step.Accept? || step.Count? || step.Send? || step.Drop? || step.Close? || step.Cancel?
    ensures TokenRight(Next(s, step), o)
  {
    hide Holders;
  }

  lemma WorkerTokens(s: State, step: Step, o: nat)
    requires OneToken(s) && Enabled(s, step)
    requires step.Pick? || step.Callback? || step.EndQuantum? || step.Requeue? || step.Done? || step.Quit?
    ensures TokenRight(Next(s, step), o)
  {
    assert TokenRight(s, o);
    if step.Callback? || step.EndQuantum? {
      HolderToken(s, step.w);
      QuantumTokens(s, step, o);
    } else {
      ChannelTokens(s, step, o);
    }
  }

  lemma ChannelTokens(s: State, step: Step, o: nat)
    requires TokenRight(s, o) && Enabled(s, step)
    requires step.Pick? || step.Requeue? || step.Done? || step.Quit?
    ensures TokenRight(Next(s, step), o)
  {
    hide Holders;
    var s', w := Next(s, step), step.w;
    HoldersUpdate(s.workers, w, s'.workers[w], o);
    if step.Pick? {
      assert s.ready == [s.ready[0]] + s.ready[1..];
    }
  }

  lemma QuantumTokens(s: State, step: Step, o: nat)
    requires TokenRight(s, o) && Enabled(s, step) && (step.Callback? || step.EndQuantum?)
    requires TokenRight(s, s.workers[step.w].conn) && s.conns[s.workers[step.w].conn].scheduled
    ensures TokenRight(Next(s, step), o)
  {
    hide Tokens;
    var w := step.w;
    var c := s.conns[s.workers[w].conn];
    var s' := s.(callbacks := Next(s, step).callbacks);
    SameTokens(s, s', o);
    SameTokens(s, s', s.workers[w].conn);
    HandledTokens(s', w, Next(s, step).workers[w], Next(s, step).conns[s.workers[w].conn], o);
    assert s.conns[s.workers[w].conn := c] == s.conns;
  }

  lemma SameTokens(s: State, s': State, o: nat)
    requires s'.ready == s.ready && s'.workers == s.workers && s'.conns == s.conns
    ensures Tokens(s', o) == Tokens(s, o)
  {
  }

  /** A worker keeps the token of its connection or gives it up with the flag. */
  lemma HandledTokens(s: State, w: nat, worker: Worker, c: Conn, o: nat)
    requires w < |s.workers| && s.workers[w].Running? && Unlocked(s, s.workers[w].conn) && c.lock == Free
    requires TokenRight(s, o) && TokenRight(s, s.workers[w].conn) && s.conns[s.workers[w].conn].scheduled
    requires c.scheduled <==> Holds(worker, s.workers[w].conn)
    requires Holds(worker, o) ==> o == s.workers[w].conn
    ensures TokenRight(SetWorker(SetConn(s, s.workers[w].conn, c), w, worker), o)
  {
    hide Holders;
    HoldersUpdate(s.workers, w, worker, o);
  }

  /** A worker's connection is scheduled and has no other token. */
  lemma HolderToken(s: State, w: nat)
    requires OneToken(s) && w < |s.workers| && s.workers[w].Running?
    ensures var o := s.workers[w].conn;
            && o < |s.conns| && s.conns[o].scheduled && Holders(s.workers, o) == 1 && Tokens(s, o) == 1
  {
    var o := s.workers[w].conn;
    HoldersAtLeast(s.workers, o, w);
    assert TokenRight(s, o);
  }

  lemma NextWork(s: State, step: Step)
    requires WorkCounted(s) && Enabled(s, step)
    ensures WorkCounted(Next(s, step))
  {
    hide Senders, BusyWorkers;
    if step.Connect? {
      SendersAppend(s.conns, Conn(0, false, Free));
    } else if step.Accept? || step.Count? || step.Send? || step.Drop? {
      SendersUpdate(s.conns, step.o, Next(s, step).conns[step.o]);
    } else if step.Callback? || step.EndQuantum? {
      QuantumWork(s, step);
    } else if step.Pick? || step.Requeue? || step.Done? || step.Quit? {
      BusyUpdate(s.workers, step.w, Next(s, step).workers[step.w]);
    }
  }

  lemma QuantumWork(s: State, step: Step)
    requires WorkCounted(s) && Enabled(s, step) && (step.Callback? || step.EndQuantum?)
    ensures WorkCounted(Next(s, step))
  {
    hide Senders, BusyWorkers;
    var s', o := Next(s, step), s.workers[step.w].conn;
    BusyUpdate(s.workers, step.w, s'.workers[step.w]);
    SendersUpdate(s.conns, o, s'.conns[o]);
    assert s.conns[o := s.conns[o]] == s.conns;
  }

  lemma NextNoLostWork(s: State, step: Step)
    requires NoLostWork(s) && OneToken(s) && Enabled(s, step)
    ensures NoLostWork(Next(s, step))
  {
    hide Tokens;
    if step.Callback? {
      HolderToken(s, step.w);
    } else if step.EndQuantum? {
      HolderToken(s, step.w);
    }
  }

  lemma NextRest(s: State, step: Step)
    requires Inv(s) && Enabled(s, step)
    ensures var s' := Next(s, step);
            && (s'.cancelled ==> !s'.accepting && s'.work == 0)
            && |s'.ready| <= s'.capacity
            && (forall w :: 0 <= w < |s'.workers| && s'.workers[w].Running? ==> s'.workers[w].count <= QUANTUM)
  {
    hide OneToken, NoLostWork, Senders, BusyWorkers;
    match step
    case Send(o, _) => SendersAtLeast(s.conns, o);
    case Done(w) => BusyAtLeast(s.workers, w);
    case _ =>
  }

  // ----------------------------------------------------------------- counting

  lemma {:induction false} HoldersUpdate(workers: seq<Worker>, w: nat, worker: Worker, o: nat)
    requires w < |workers|
    ensures Holders(workers[w := worker], o)
         == Holders(workers, o) - (if Holds(workers[w], o) then 1 else 0) + (if Holds(worker, o) then 1 else 0)
  {
    if w == 0 {
      assert workers[0 := worker][1..] == workers[1..];
    } else {
      assert workers[w := worker][1..] == workers[1..][w - 1 := worker];
      HoldersUpdate(workers[1..], w - 1, worker, o);
    }
  }

  lemma {:induction false} BusyUpdate(workers: seq<Worker>, w: nat, worker: Worker)
    requires w < |workers|
    ensures BusyWorkers(workers[w := worker])
         == BusyWorkers(workers) - (if Busy(workers[w]) then 1 else 0) + (if Busy(worker) then 1 else 0)
  {
    if w == 0 {
      assert workers[0 := worker][1..] == workers[1..];
    } else {
      assert workers[w := worker][1..] == workers[1..][w - 1 := worker];
      BusyUpdate(workers[1..], w - 1, worker);
    }
  }

  lemma {:induction false} SendersUpdate(conns: seq<Conn>, o: nat, c: Conn)
    requires o < |conns|
    ensures Senders(conns[o := c])
         == Senders(conns) - (if conns[o].lock == Sending then 1 else 0) + (if c.lock == Sending then 1 else 0)
  {
    if o == 0 {
      assert conns[0 := c][1..] == conns[1..];
    } else {
      assert conns[o := c][1..] == conns[1..][o - 1 := c];
      SendersUpdate(conns[1..], o - 1, c);
    }
  }

  lemma {:induction false} SendersAppend(conns: seq<Conn>, c: Conn)
    ensures Senders(conns + [c]) == Senders(conns) + if c.lock == Sending then 1 else 0
  {
    if conns == [] {
      assert conns + [c] == [c];
      assert Senders([c]) == (if c.lock == Sending then 1 else 0) + Senders([]);
    } else {
      assert (conns + [c])[1..] == conns[1..] + [c];
      SendersAppend(conns[1..], c);
    }
  }

  lemma {:induction false} HoldersAtLeast(workers: seq<Worker>, o: nat, w: nat)
    requires w < |workers| && Holds(workers[w], o)
    ensures Holders(workers, o) >= 1
  {
    if w > 0 {
      HoldersAtLeast(workers[1..], o, w - 1);
    }
  }

  lemma {:induction false} TwoHolders(workers: seq<Worker>, o: nat, w: nat, v: nat)
    requires w < v < |workers| && Holds(workers[w], o) && Holds(workers[v], o)
    ensures Holders(workers, o) >= 2
  {
    if w > 0 {
      TwoHolders(workers[1..], o, w - 1, v - 1);
    } else {
      HoldersAtLeast(workers[1..], o, v - 1);
    }
  }

  lemma {:induction false} BusyAtLeast(workers: seq<Worker>, w: nat)
    requires w < |workers|
    ensures Busy(workers[w]) ==> BusyWorkers(workers) >= 1
  {
    if w > 0 {
      BusyAtLeast(workers[1..], w - 1);
    }
  }

  lemma {:induction false} SendersAtLeast(conns: seq<Conn>, o: nat)
    requires o < |conns|
    ensures conns[o].lock == Sending ==> Senders(conns) >= 1
  {
    if o > 0 {
      SendersAtLeast(conns[1..], o - 1);
    }
  }

  lemma TwoReady(ready: seq<nat>, i: nat, j: nat)
    requires i < j < |ready|
    ensures ready[i] == ready[j] ==> multiset(ready)[ready[i]] >= 2
  {
    assert ready == ready[..j] + [ready[j]] + ready[j + 1..];
    assert ready[i] == ready[..j][i];
  }

  lemma {:induction false} DistinctSize(ready: seq<nat>)
    requires forall i, j :: 0 <= i < j < |ready| ==> ready[i] != ready[j]
    ensures |set i | 0 <= i < |ready| :: ready[i]| == |ready|
  {
    if ready != [] {
      var last := |ready| - 1;
      DistinctSize(ready[..last]);
      var front := set i | 0 <= i < |ready[..last]| :: ready[..last][i];
      var all := set i | 0 <= i < |ready| :: ready[i];
      assert all == front + {ready[last]} && ready[last] !in front;
    }
  }

  // ----------------------------------------------- an enqueue or quantum as a whole

  /** The ready channel after `enqueue` has offered it a token, and whether it took it. */
  function Offered(ready: seq<nat>, capacity: nat, accepting: bool, o: nat): (seq<nat>, bool) {
    if accepting && |ready| < capacity then (ready + [o], true) else (ready, false)
  }

  /** What a quantum left to itself makes of a connection with its token at a worker. */
  datatype Outcome = Outcome(conn: Conn, ready: seq<nat>, work: int, invoked: nat, waiting: bool)

  function AfterQuantum(c: Conn, o: nat, count: nat, ready: seq<nat>, capacity: nat, accepting: bool, work: int)
    : Outcome
    requires count <= QUANTUM
  {
    var invoked := if c.queued < QUANTUM - count then c.queued else QUANTUM - count;
    var left := c.queued - invoked;
    if left == 0 || !accepting then Outcome(Conn(left, false, c.lock), ready, work - 1, invoked, false)
    else if |ready| < capacity then Outcome(Conn(left, true, c.lock), ready + [o], work, invoked, false)
    else Outcome(Conn(left, true, c.lock), ready, work, invoked, true)
  }

  /** A stretch of a run, from any state. */
  ghost predicate Path(states: seq<State>, steps: seq<Step>) {
    && |states| == |steps| + 1
    && forall i :: 0 <= i < |steps| ==> Enabled(states[i], steps[i]) && states[i + 1] == Next(states[i], steps[i])
  }

  /** `enqueue` as a whole: its two critical operations, undisturbed. */
  lemma EnqueueRuns(s: State, o: nat) returns (states: seq<State>, steps: seq<Step>)
    requires o < |s.conns| && s.conns[o].lock == Entering
    ensures Path(states, steps) && states[0] == s
    ensures forall i :: 0 <= i < |steps| ==> steps[i] == Count(o) || (steps[i].Send? && steps[i].o == o)
    ensures var (ready, ok) := Offered(s.ready, s.capacity, s.accepting, o);
            var c := if ok then s.conns[o].(lock := Free) else Undone(s.conns[o]);
            states[|steps|] == s.(conns := s.conns[o := c], ready := ready, work := s.work + if ok then 1 else 0)
  {
    var s1 := Next(s, Count(o));
    if !s.accepting {
      return [s, s1], [Count(o)];
    }
    var sent := |s.ready| < s.capacity;
    var s2 := Next(s1, Send(o, sent));
    return [s, s1, s2], [Count(o), Send(o, sent)];
  }

  predicate OfWorker(step: Step, w: nat) {
    step == Callback(w) || step == EndQuantum(w) || step == Requeue(w) || step == Done(w)
  }

  predicate MidQuantum(s: State, w: nat) {
    && w < |s.workers| && s.workers[w].Running? && s.workers[w].count <= QUANTUM
    && Unlocked(s, s.workers[w].conn) && s.conns[s.workers[w].conn].scheduled
  }

  function QuantumResult(s: State, w: nat): State
    requires MidQuantum(s, w)
  {
    var o := s.workers[w].conn;
    var r := AfterQuantum(s.conns[o], o, s.workers[w].count, s.ready, s.capacity, s.accepting, s.work);
    s.(conns := s.conns[o := r.conn], ready := r.ready, work := r.work,
       workers := s.workers[w := if r.waiting then Yielding(o) else Idle], callbacks := s.callbacks + r.invoked)
  }

  /** `runHandlerQuantum` as a whole: the steps of a worker that nobody disturbs, up to
      a send it may have to wait at. */
  lemma {:induction false} QuantumRuns(s: State, w: nat) returns (states: seq<State>, steps: seq<Step>)
    requires MidQuantum(s, w)
    ensures Path(states, steps) && states[0] == s && states[|steps|] == QuantumResult(s, w)
    ensures forall i :: 0 <= i < |steps| ==> OfWorker(steps[i], w)
    decreases QUANTUM - s.workers[w].count
  {
    if s.workers[w].count == QUANTUM {
      states, steps := QuantumEnds(s, w);
    } else if s.conns[s.workers[w].conn].queued == 0 {
      states, steps := QuantumDries(s, w);
    } else {
      CallbackCalls(s, w);
      hide Next, Enabled, QuantumResult;
      var later, more := QuantumRuns(Called(s, w), w);
      states, steps := [s] + later, [Callback(w)] + more;
      Prepended(s, Callback(w), later, more);
    }
  }

  lemma Prepended(s: State, step: Step, later: seq<State>, more: seq<Step>)
    requires Path(later, more) && Enabled(s, step) && later[0] == Next(s, step)
    ensures Path([s] + later, [step] + more) && ([s] + later)[|more| + 1] == later[|more|]
  {
    hide Next, Enabled;
    var states, steps := [s] + later, [step] + more;
    forall i | 0 <= i < |steps| ensures Enabled(states[i], steps[i]) && states[i + 1] == Next(states[i], steps[i]) {
      if i > 0 {
        assert states[i] == later[i - 1] && states[i + 1] == later[i - 1 + 1] && steps[i] == more[i - 1];
      }
    }
  }

  function Called(s: State, w: nat): State
    requires w < |s.workers| && s.workers[w].Running? && s.workers[w].conn < |s.conns|
    requires s.conns[s.workers[w].conn].queued > 0
  {
    var o := s.workers[w].conn;
    s.(conns := s.conns[o := s.conns[o].(queued := s.conns[o].queued - 1)],
       workers := s.workers[w := Running(o, s.workers[w].count + 1)], callbacks := s.callbacks + 1)
  }

  lemma CallbackCalls(s: State, w: nat)
    requires MidQuantum(s, w) && s.workers[w].count < QUANTUM && s.conns[s.workers[w].conn].queued > 0
    ensures Enabled(s, Callback(w)) && Next(s, Callback(w)) == Called(s, w)
    ensures MidQuantum(Called(s, w), w) && QuantumResult(Called(s, w), w) == QuantumResult(s, w)
  {
  }

  /** After 32 callbacks. */
  lemma QuantumEnds(s: State, w: nat) returns (states: seq<State>, steps: seq<Step>)
    requires MidQuantum(s, w) && s.workers[w].count == QUANTUM
    ensures Path(states, steps) && states[0] == s && states[|steps|] == QuantumResult(s, w)
    ensures forall i :: 0 <= i < |steps| ==> OfWorker(steps[i], w)
  {
    var s1 := Next(s, EndQuantum(w));
    if s1.workers[w] == Retiring {
      return [s, s1, Next(s1, Done(w))], [EndQuantum(w), Done(w)];
    } else if |s.ready| < s.capacity {
      return [s, s1, Next(s1, Requeue(w))], [EndQuantum(w), Requeue(w)];
    }
    return [s, s1], [EndQuantum(w)];
  }

  /** With nothing left before. */
  lemma QuantumDries(s: State, w: nat) returns (states: seq<State>, steps: seq<Step>)
    requires MidQuantum(s, w) && s.workers[w].count < QUANTUM && s.conns[s.workers[w].conn].queued == 0
    ensures Path(states, steps) && states[0] == s && states[|steps|] == QuantumResult(s, w)
    ensures forall i :: 0 <= i < |steps| ==> OfWorker(steps[i], w)
  {
    var s1 := Next(s, Callback(w));
    return [s, s1, Next(s1, Done(w))], [Callback(w), Done(w)];
  }

  // ------------------------------------------------------------- source form

  class HandlerScheduler {
    var ready: seq<nat>
    const capacity: nat
    var accepting: bool
    var work: int

    /** `newHandlerScheduler` has at least one ready slot. */
    constructor (maxReady: int)
      ensures ready == [] && accepting && work == 0 && capacity >= 1 && capacity >= maxReady
    {
      ready, accepting, work := [], true, 0;
      capacity := if maxReady < 1 then 1 else maxReady;
    }

    /** `enqueue`, undisturbed: the work counter moves exactly when a token does. */
    method Enqueue(o: nat) returns (ok: bool)
      modifies this
      ensures (ready, ok) == Offered(old(ready), capacity, old(accepting), o) && accepting == old(accepting)
      ensures work - old(work) == |ready| - |old(ready)|
    {
      if !accepting {
        return false;
      }
      work := work + 1;
      if |ready| < capacity {
        ready := ready + [o];
        return true;
      }
      work := work - 1;
      return false;
    }

    method Shut()
      modifies this`accepting
      ensures !accepting
    {
      accepting := false;
    }
  }

  class Connection<T> {
    const id: nat
    var queue: seq<T>
    var scheduled: bool

    /** The connection as the token protocol sees it, its handler mutex free. */
    ghost function View(): Conn
      reads this
    {
      Conn(|queue|, scheduled, Free)
    }

    constructor (id: nat)
      ensures this.id == id && queue == [] && !scheduled
    {
      this.id, queue, scheduled := id, [], false;
    }

    /** `runHandlerQuantum`, undisturbed: the first 32 items in order, then the
        token goes back to the channel or is given up with its work count. With the
        channel full it is left waiting at the send, the token still its own. */
    method RunHandlerQuantum(scheduler: HandlerScheduler) returns (invoked: seq<T>, waiting: bool)
      requires scheduled
      modifies this, scheduler
      ensures invoked + queue == old(queue) && scheduler.accepting == old(scheduler.accepting)
      ensures Outcome(View(), scheduler.ready, scheduler.work, |invoked|, waiting)
           == AfterQuantum(old(View()), id, 0, old(scheduler.ready), scheduler.capacity, scheduler.accepting,
                           old(scheduler.work))
    {
      invoked, waiting := [], false;
      var count := 0;
      while count < QUANTUM
        invariant count == |invoked| <= QUANTUM
        invariant invoked + queue == old(queue) && scheduled
        invariant scheduler.ready == old(scheduler.ready) && scheduler.work == old(scheduler.work)
        invariant scheduler.accepting == old(scheduler.accepting) && !waiting
      {
        if |queue| == 0 {
          scheduled := false;
          scheduler.work := scheduler.work - 1;
          return;
        }
        assert queue == [queue[0]] + queue[1..];
        invoked := invoked + [queue[0]];
        queue := queue[1..];
        count := count + 1;
      }
      if |queue| > 0 && scheduler.accepting {
        waiting := |scheduler.ready| >= scheduler.capacity;
        if !waiting {
          scheduler.ready := scheduler.ready + [id];
        }
        return;
      }
      scheduled := false;
      scheduler.work := scheduler.work - 1;
    }
  }

  // ---------------------------------------------------------- what must happen

  /** What every step does to the queue of a connection: an accepted item is one more,
      taken back only when the scheduler would not have the token; a callback is one
      less; a drop empties it; nothing else touches it. */
  lemma QueueMoves(states: seq<State>, steps: seq<Step>, n: nat, o: nat)
    requires Run(states, steps) && n < |steps| && o < |states[n].conns|
    ensures o < |states[n + 1].conns|
    ensures var before, after := states[n].conns[o].queued, states[n + 1].conns[o].queued;
            if steps[n] == Accept(o) then after == before + 1
            else if steps[n] == Drop(o) then after == 0
            else if Serves(states[n], steps[n], o) then
              after == before - 1 && states[n + 1].callbacks == states[n].callbacks + 1
            else if Refuses(states[n], steps[n], o) then after == before - 1 && !states[n + 1].conns[o].scheduled
            else after == before
  {
    SchedulerInv(states, steps, n);
    assert states[n + 1] == Next(states[n], steps[n]);
    hide OneToken, WorkCounted;
    QueueMove(states[n], steps[n], o);
  }

  predicate Serves(s: State, step: Step, o: nat) {
    && step.Callback? && step.w < |s.workers| && s.workers[step.w].Running? && s.workers[step.w].conn == o
    && o < |s.conns| && s.conns[o].queued > 0
  }

  /** The scheduler has stopped accepting, or the ready channel is full. */
  predicate Refuses(s: State, step: Step, o: nat) {
    (step == Count(o) && !s.accepting) || (step.Send? && step.o == o && !step.sent)
  }

  lemma QueueMove(s: State, step: Step, o: nat)
    requires NoLostWork(s) && Enabled(s, step) && o < |s.conns|
    ensures o < |Next(s, step).conns|
    ensures var before, after := s.conns[o].queued, Next(s, step).conns[o].queued;
            if step == Accept(o) then after == before + 1
            else if step == Drop(o) then after == 0
            else if Serves(s, step, o) then after == before - 1 && Next(s, step).callbacks == s.callbacks + 1
            else if Refuses(s, step, o) then after == before - 1 && !Next(s, step).conns[o].scheduled
            else after == before
  {
  }

  /** From every reachable state, a connection without a token that is given an item by a
      scheduler that accepts and has a free slot and an idle worker gets it served. */
  lemma ItemCanBeServed(states: seq<State>, steps: seq<Step>, n: nat, o: nat, w: nat)
    returns (path: seq<State>, taken: seq<Step>)
    requires Run(states, steps) && n <= |steps| && o < |states[n].conns| && w < |states[n].workers|
    requires states[n].conns[o] == Conn(0, false, Free) && states[n].accepting && states[n].workers[w] == Idle
    requires states[n].ready == [] && states[n].capacity >= 1
    ensures Path(path, taken) && path[0] == states[n]
    ensures taken == [Accept(o), Count(o), Send(o, true), Pick(w), Callback(w), Callback(w), Done(w)]
    ensures path[7] == states[n].(callbacks := states[n].callbacks + 1)
  {
    var s := states[n];
    var one := s.(conns := s.conns[o := Conn(1, true, Free)], work := s.work + 1);
    var s1 := s.(conns := s.conns[o := Conn(1, true, Entering)]);
    var s2 := one.(conns := s.conns[o := Conn(1, true, Sending)]);
    var s3 := one.(ready := [o]);
    var s4 := one.(workers := s.workers[w := Running(o, 0)]);
    var s5 := one.(conns := s.conns[o := Conn(0, true, Free)], workers := s.workers[w := Running(o, 1)],
                   callbacks := s.callbacks + 1);
    var s6 := one.(conns := s.conns, workers := s.workers[w := Retiring], callbacks := s.callbacks + 1);
    var s7 := s.(callbacks := s.callbacks + 1);
    taken := [Accept(o), Count(o), Send(o, true), Pick(w), Callback(w), Callback(w), Done(w)];
    path := [s, s1, s2, s3, s4, s5, s6, s7];
    ItemOffered(s, o);
    ItemTaken(s, o, w);
    hide Next, Enabled;
  }

  lemma ItemOffered(s: State, o: nat)
    requires o < |s.conns| && s.conns[o] == Conn(0, false, Free) && s.accepting && s.ready == [] && s.capacity >= 1
    ensures var one := s.(conns := s.conns[o := Conn(1, true, Free)], work := s.work + 1);
            var s1 := s.(conns := s.conns[o := Conn(1, true, Entering)]);
            var s2 := one.(conns := s.conns[o := Conn(1, true, Sending)]);
            && Leads(s, Accept(o), s1) && Leads(s1, Count(o), s2) && Leads(s2, Send(o, true), one.(ready := [o]))
  {
    assert s.conns[o := Conn(1, true, Entering)][o := Conn(1, true, Sending)] == s.conns[o := Conn(1, true, Sending)];
    assert s.conns[o := Conn(1, true, Sending)][o := Conn(1, true, Free)] == s.conns[o := Conn(1, true, Free)];
    assert [] + [o] == [o];
  }

  predicate Leads(s: State, step: Step, s': State) {
    Enabled(s, step) && s' == Next(s, step)
  }

  lemma ItemTaken(s: State, o: nat, w: nat)
    requires o < |s.conns| && w < |s.workers| && s.conns[o] == Conn(0, false, Free) && s.workers[w] == Idle
    requires s.ready == []
    ensures var one := s.(conns := s.conns[o := Conn(1, true, Free)], work := s.work + 1);
            var s4 := one.(workers := s.workers[w := Running(o, 0)]);
            var s5 := one.(conns := s.conns[o := Conn(0, true, Free)], workers := s.workers[w := Running(o, 1)],
                           callbacks := s.callbacks + 1);
            var s6 := one.(conns := s.conns, workers := s.workers[w := Retiring], callbacks := s.callbacks + 1);
            && Leads(one.(ready := [o]), Pick(w), s4) && Leads(s4, Callback(w), s5)
            && Leads(s5, Callback(w), s6) && Leads(s6, Done(w), s.(callbacks := s.callbacks + 1))
  {
    var c := Conn(0, true, Free);
    assert [o][1..] == [];
    assert s.conns[o := Conn(1, true, Free)][o := c] == s.conns[o := c];
    assert s.conns[o := c][o := Conn(0, false, Free)] == s.conns;
    assert s.workers[w := Running(o, 0)][w := Running(o, 1)] == s.workers[w := Running(o, 1)];
    assert s.workers[w := Running(o, 1)][w := Retiring] == s.workers[w := Retiring];
    assert s.workers[w := Retiring][w := Idle] == s.workers;
  }

  /** A worker that has just picked a token makes 32 callbacks, or as many as there are items. */
  lemma QuantumServes(s: State, w: nat) returns (states: seq<State>, steps: seq<Step>)
    requires MidQuantum(s, w) && s.workers[w].count == 0
    ensures Path(states, steps) && states[0] == s && forall i :: 0 <= i < |steps| ==> OfWorker(steps[i], w)
    ensures var o, last := s.workers[w].conn, states[|steps|];
            var served := if s.conns[o].queued < 32 then s.conns[o].queued else 32;
            && o < |last.conns| && last.conns[o].queued == s.conns[o].queued - served
            && last.callbacks == s.callbacks + served
  {
    states, steps := QuantumRuns(s, w);
  }

  // ------------------------------------------------------------------ shutdown

  /** The context is cancelled and every worker has returned. */
  predicate Down(s: State) {
    s.cancelled && forall w :: 0 <= w < |s.workers| ==> s.workers[w].Stopped?
  }

  ghost predicate CanGoDown(s: State) {
    exists path: seq<State>, taken: seq<Step> :: Path(path, taken) && path[0] == s && Down(path[|taken|])
  }

  /** `close` can always be carried to its end, unless every worker waits for a ready slot
      that none of them will free; then it never is. */
  lemma ShutdownExactly(states: seq<State>, steps: seq<Step>, n: nat)
    requires Run(states, steps) && n <= |steps| && |states[n].workers| >= 1 && states[n].capacity >= 1
    ensures CanGoDown(states[n]) <==> states[n].cancelled || !Stuck(states[n])
  {
    hide Stuck, Next, Enabled, Init;
    var s := states[n];
    SchedulerInv(states, steps, n);
    NoneStopped(states, steps, n);
    hide Run, Inv;
    if s.cancelled {
      var path, taken := AllQuit(s, 0);
      assert CanGoDown(s);
    } else if !Stuck(s) {
      var path, taken := ShutDown(s);
      assert CanGoDown(s);
    } else if CanGoDown(s) {
      var path: seq<State>, taken: seq<Step> :| Path(path, taken) && path[0] == s && Down(path[|taken|]);
      StuckStays(path, taken, |taken|);
      assert false;
    }
  }

  lemma {:induction false} StuckStays(path: seq<State>, taken: seq<Step>, i: nat)
    requires Path(path, taken) && i <= |taken| && |path[0].workers| >= 1
    requires Inv(path[0]) && Stuck(path[0]) && !path[0].cancelled
    ensures Inv(path[i]) && Stuck(path[i]) && !path[i].cancelled && |path[i].workers| >= 1
  {
    hide Next, Enabled, Inv, Stuck;
    if i > 0 {
      StuckStays(path, taken, i - 1);
      assert path[i - 1 + 1] == Next(path[i - 1], taken[i - 1]) && Enabled(path[i - 1], taken[i - 1]);
      NextInv(path[i - 1], taken[i - 1]);
      StillStuck(path[i - 1], taken[i - 1]);
      StuckIsBusy(path[i - 1], taken[i - 1]);
    }
  }

  lemma StuckIsBusy(s: State, step: Step)
    requires Inv(s) && Stuck(s) && |s.workers| >= 1 && Enabled(s, step)
    ensures step != Cancel && Next(s, step).cancelled == s.cancelled && |Next(s, step).workers| == |s.workers|
  {
    hide OneToken, NoLostWork;
    BusyAtLeast(s.workers, 0);
  }

  predicate NoStopped(s: State) {
    s.cancelled || forall w :: 0 <= w < |s.workers| ==> !s.workers[w].Stopped?
  }

  lemma {:induction false} NoneStopped(states: seq<State>, steps: seq<Step>, n: nat)
    requires Run(states, steps) && n <= |steps|
    ensures NoStopped(states[n])
  {
    if n > 0 {
      NoneStopped(states, steps, n - 1);
      assert states[n - 1 + 1] == Next(states[n - 1], steps[n - 1]);
    }
  }

  /** What is left to do before `close` may cancel. */
  function Weight(worker: Worker): nat {
    match worker
    case Idle => 0
    case Running(_, _) => Left(worker) + 2
    case Yielding(_) => QUANTUM + 5
    case Retiring => 1
    case Stopped => 0
  }

  function Weights(workers: seq<Worker>): nat {
    if workers == [] then 0 else Weight(workers[0]) + Weights(workers[1..])
  }

  function Hold(c: Conn): nat {
    match c.lock
    case Free => 0
    case Entering => 1
    case Sending => QUANTUM + 6
  }

  function Locked(conns: seq<Conn>): nat {
    if conns == [] then 0 else Hold(conns[0]) + Locked(conns[1..])
  }

  function Load(s: State): nat {
    Weights(s.workers) + Locked(s.conns) + (QUANTUM + 4) * |s.ready|
  }

  lemma {:induction false} WeightsUpdate(workers: seq<Worker>, w: nat, worker: Worker)
    requires w < |workers|
    ensures Weights(workers[w := worker]) == Weights(workers) - Weight(workers[w]) + Weight(worker)
  {
    hide Weight;
    if w == 0 {
      assert workers[0 := worker][1..] == workers[1..];
    } else {
      assert workers[w := worker][1..] == workers[1..][w - 1 := worker];
      WeightsUpdate(workers[1..], w - 1, worker);
    }
  }

  lemma {:induction false} LockedUpdate(conns: seq<Conn>, o: nat, c: Conn)
    requires o < |conns|
    ensures Locked(conns[o := c]) == Locked(conns) - Hold(conns[o]) + Hold(c)
  {
    hide Hold;
    if o == 0 {
      assert conns[0 := c][1..] == conns[1..];
    } else {
      assert conns[o := c][1..] == conns[1..][o - 1 := c];
      LockedUpdate(conns[1..], o - 1, c);
    }
  }

  lemma {:induction false} NoneBusy(workers: seq<Worker>)
    requires forall w :: 0 <= w < |workers| ==> workers[w] == Idle
    ensures BusyWorkers(workers) == 0
  {
    if workers != [] {
      NoneBusy(workers[1..]);
    }
  }

  lemma {:induction false} NoneSending(conns: seq<Conn>)
    requires forall o :: 0 <= o < |conns| ==> conns[o].lock == Free
    ensures Senders(conns) == 0
  {
    if conns != [] {
      NoneSending(conns[1..]);
    }
  }

  ghost predicate Settling(s: State) {
    Inv(s) && NoStopped(s) && !s.accepting && !s.cancelled && !Stuck(s) && |s.workers| >= 1 && s.capacity >= 1
  }

  /** `close` is called, everything under way is finished, and the context is cancelled. */
  lemma ShutDown(s: State) returns (path: seq<State>, taken: seq<Step>)
    requires Inv(s) && NoStopped(s) && !s.cancelled && !Stuck(s) && |s.workers| >= 1 && s.capacity >= 1
    ensures Path(path, taken) && path[0] == s && Down(path[|taken|])
  {
    var s' := Next(s, Close);
    NextInv(s, Close);
    hide Inv;
    assert Settling(s');
    hide Next, Settling;
    var later, more := Settled(s');
    Prepended(s, Close, later, more);
    return [s] + later, [Close] + more;
  }

  lemma {:induction false} Settled(s: State) returns (path: seq<State>, taken: seq<Step>)
    requires Settling(s)
    ensures Path(path, taken) && path[0] == s && Down(path[|taken|])
    decreases Load(s)
  {
    var step := Progress(s);
    NextInv(s, step);
    hide Inv, Settling, Load, Down;
    var later: seq<State>, more: seq<Step>;
    if step == Cancel {
      later, more := AllQuit(Next(s, Cancel), 0);
    } else {
      hide Next, Enabled;
      later, more := Settled(Next(s, step));
    }
    Prepended(s, step, later, more);
    return [s] + later, [step] + more;
  }

  /** After cancellation no worker is busy, and each returns. */
  lemma {:induction false} AllQuit(s: State, k: nat) returns (path: seq<State>, taken: seq<Step>)
    requires Inv(s) && s.cancelled && k <= |s.workers| && forall w :: 0 <= w < k ==> s.workers[w].Stopped?
    ensures Path(path, taken) && path[0] == s && Down(path[|taken|])
    decreases |s.workers| - k
  {
    if k == |s.workers| {
      path, taken := [s], [];
    } else if s.workers[k].Stopped? {
      path, taken := AllQuit(s, k + 1);
    } else {
      BusyAtLeast(s.workers, k);
      NextInv(s, Quit(k));
      var s' := Next(s, Quit(k));
      hide Inv, Down;
      var later, more := AllQuit(s', k + 1);
      hide Next;
      Prepended(s, Quit(k), later, more);
      path, taken := [s] + later, [Quit(k)] + more;
    }
  }

  /** The step of `w` that lightens the load. */
  function Turn(s: State, w: nat): Step
    requires w < |s.workers|
  {
    match s.workers[w]
    case Idle => Pick(w)
    case Running(_, count) => if count < QUANTUM then Callback(w) else EndQuantum(w)
    case Yielding(_) => Requeue(w)
    case Retiring => Done(w)
    case Stopped => Quit(w)
  }

  /** A worker that is not waiting for something to do or for a slot. */
  predicate CanTurn(s: State, w: nat) {
    && w < |s.workers|
    && (s.workers[w] == Idle ==> s.ready != [])
    && (s.workers[w].Yielding? ==> |s.ready| < s.capacity)
  }

  lemma Progress(s: State) returns (step: Step)
    requires Settling(s)
    ensures Enabled(s, step)
    ensures step != Cancel ==> Settling(Next(s, step)) && Load(Next(s, step)) < Load(s)
  {
    if w :| CanTurn(s, w) {
      step := Turn(s, w);
      TurnProgress(s, w);
    } else if o :| 0 <= o < |s.conns| && s.conns[o].lock != Free {
      AllIdle(s);
      step := if s.conns[o].lock == Entering then Count(o) else Send(o, true);
      LockProgress(s, o);
    } else {
      AllIdle(s);
      step := Cancel;
      NoneBusy(s.workers);
      NoneSending(s.conns);
    }
  }

  lemma AllIdle(s: State)
    requires Settling(s) && forall w :: !CanTurn(s, w)
    ensures s.ready == [] && forall w :: 0 <= w < |s.workers| ==> s.workers[w] == Idle
  {
    hide OneToken, WorkCounted, NoLostWork;
    assert !CanTurn(s, 0);
    if s.workers[0].Yielding? {
      var w := SomeTurn(s);
      assert false;
    }
    forall w | 0 <= w < |s.workers| ensures s.workers[w] == Idle {
      assert !CanTurn(s, w);
    }
  }

  lemma SomeTurn(s: State) returns (w: nat)
    requires Settling(s) && s.workers[0].Yielding?
    ensures CanTurn(s, w)
  {
    hide OneToken, WorkCounted, NoLostWork;
    w := 0;
    if |s.ready| >= s.capacity {
      w :| w < |s.workers| && !s.workers[w].Yielding?;
    }
  }

  lemma TurnProgress(s: State, w: nat)
    requires Settling(s) && CanTurn(s, w)
    ensures Enabled(s, Turn(s, w)) && Settling(Next(s, Turn(s, w))) && Load(Next(s, Turn(s, w))) < Load(s)
  {
    var step := Turn(s, w);
    if s.workers[w].Running? {
      HolderToken(s, w);
      RunningTurn(s, w);
    } else {
      OtherTurn(s, w);
    }
    NextInv(s, step);
    hide Inv, Load;
    TurnSettles(s, w);
    hide Next, Enabled, Turn, CanTurn, Stuck;
  }

  lemma TurnSettles(s: State, w: nat)
    requires CanTurn(s, w) && Enabled(s, Turn(s, w)) && NoStopped(s) && !s.accepting && !s.cancelled
    ensures var s' := Next(s, Turn(s, w));
            && NoStopped(s') && !s'.accepting && !s'.cancelled && !Stuck(s')
            && |s'.workers| == |s.workers| && s'.capacity == s.capacity
  {
    assert !Next(s, Turn(s, w)).workers[w].Yielding?;
  }

  lemma RunningTurn(s: State, w: nat)
    requires !s.accepting && w < |s.workers| && s.workers[w].Running? && s.workers[w].count <= QUANTUM
    requires Unlocked(s, s.workers[w].conn)
    ensures Enabled(s, Turn(s, w)) && Load(Next(s, Turn(s, w))) < Load(s)
  {
    hide Weights, Locked;
    var o, s' := s.workers[w].conn, Next(s, Turn(s, w));
    WeightsUpdate(s.workers, w, s'.workers[w]);
    LockedUpdate(s.conns, o, s'.conns[o]);
    assert s.conns[o := s.conns[o]] == s.conns;
  }

  lemma OtherTurn(s: State, w: nat)
    requires CanTurn(s, w) && !s.workers[w].Running? && !s.workers[w].Stopped?
    ensures Enabled(s, Turn(s, w)) && Load(Next(s, Turn(s, w))) < Load(s)
  {
    hide Weights, Locked;
    WeightsUpdate(s.workers, w, Next(s, Turn(s, w)).workers[w]);
  }

  lemma LockProgress(s: State, o: nat)
    requires Settling(s) && o < |s.conns| && s.conns[o].lock != Free && s.ready == []
    requires forall w :: 0 <= w < |s.workers| ==> s.workers[w] == Idle
    ensures var step := if s.conns[o].lock == Entering then Count(o) else Send(o, true);
            Enabled(s, step) && Settling(Next(s, step)) && Load(Next(s, step)) < Load(s)
  {
    var step := if s.conns[o].lock == Entering then Count(o) else Send(o, true);
    NextInv(s, step);
    hide Inv, Weights, Locked;
    var s' := Next(s, step);
    assert s'.workers[0] == Idle;
    LockedUpdate(s.conns, o, s'.conns[o]);
  }
}
