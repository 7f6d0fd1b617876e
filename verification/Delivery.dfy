/**
 One connection in handler mode, from the bytes its peer sent to the callbacks
 its router saw (`endpoint.go`, dispatch half).

 A step is one critical section. The network may lose, repeat and reorder
 datagrams at will and delivers a growing prefix of each reliable stream.
 `current` is lost once and for ever (see SessionProtocol), and with it, or
 with the last token of a scheduler that no longer accepts, the connection
 stops invoking handlers.
 */
module Delivery {
  import opened Prelude
  import Q = BoundedQueue
  import Frames

  datatype Msg =
    | Reliable(channel: nat, event: Frames.Event)
    | Sequenced(channel: nat, sequence: nat)
    | Other(lifecycle: bool)           // unreliable event, request or lifecycle notice

  /** A goroutine in `readReliableStream`, one per bound reliable channel. */
  datatype Reader = Reader(next: nat, reserved: Option<int>, stopped: bool)

  datatype State = State(
    sent: map<nat, seq<Frames.Event>>,  // per reliable channel, in the order written
    sequences: map<nat, nat>,           // last sequence number given out per channel
    onWire: set<(nat, nat)>,            // sequenced datagrams (channel, sequence) ever transmitted
    readers: map<nat, Reader>,
    received: map<nat, nat>,            // highest sequence number seen per channel
    pending: Option<(nat, nat)>,        // past the stale check, not yet dispatched
    queue: Q.State<Msg>,
    scheduled: bool,
    running: bool,                      // a worker holds the token
    inHand: Option<Msg>,                // popped, before invoke checks currency
    accepting: bool,
    current: bool,
    log: seq<Msg>)                      // what handlers were given

  function At<T>(m: map<nat, seq<T>>, c: nat): seq<T> {
    if c in m then m[c] else []
  }

  function Mark(m: map<nat, nat>, c: nat): nat {
    if c in m then m[c] else 0
  }

  function KeyOf(m: Msg): nat {
    if m.Sequenced? then m.channel + 1 else 0
  }

  datatype Step =
    | SendReliable(channel: nat, event: Frames.Event)
    | SendSequenced(channel: nat, transmitted: bool)
    | OpenReader(channel: nat)
    | ReserveEvent(channel: nat, bytes: int)
    | StopReader(channel: nat)
    | CommitEvent(channel: nat, enqueued: bool)
    | Receive(channel: nat, sequence: nat)
    | DispatchDatagram(admitted: bool, bytes: int, enqueued: bool)   // current when asked, and charged
    | PushOther(lifecycle: bool, bytes: int, enqueued: bool)
    | Pick
    | Pop
    | Invoke
    | Yield                              // token back to the ready channel
    | Retire                             // token given up
    | Lose                               // superseded, suspended or closed
    | DropQueued                         // stopEpoch
    | CloseScheduler

  predicate Enabled(s: State, step: Step) {
    match step
    case SendReliable(_, _) | SendSequenced(_, _) | Lose | CloseScheduler => true
    case OpenReader(c) => c !in s.readers
    case ReserveEvent(c, bytes) =>
      c in s.readers && !s.readers[c].stopped && s.readers[c].reserved.None?
      && s.readers[c].next < |At(s.sent, c)| && Q.Reserves(s.queue, bytes)
    case StopReader(c) => c in s.readers && !s.readers[c].stopped
    case CommitEvent(c, enqueued) =>
      c in s.readers && !s.readers[c].stopped && s.readers[c].reserved.Some?
      && s.readers[c].next < |At(s.sent, c)| && (enqueued ==> s.accepting)
    case Receive(c, n) => (c, n) in s.onWire && s.pending.None?
    case DispatchDatagram(_, _, enqueued) => s.pending.Some? && (enqueued ==> s.accepting)
    case PushOther(_, _, enqueued) => enqueued ==> s.accepting
    case Pick => s.scheduled && !s.running
    case Pop => s.running && s.inHand.None? && s.queue.items != []
    case Invoke => s.running && s.inHand.Some?
    case Yield => s.running && s.inHand.None? && s.accepting
    case Retire => s.running && s.inHand.None? && (s.queue.items == [] || !s.accepting)
    case DropQueued => !s.current
  }

  /** An item is in the queue: keep it if the connection is or becomes scheduled,
      otherwise take the head back out. */
  function Settle(s: State, enqueued: bool): (r: State)
    ensures r == s.(queue := r.queue, scheduled := s.scheduled || enqueued)
  {
    if s.scheduled then s
    else if enqueued then s.(scheduled := true)
    else s.(queue := Q.Pop(s.queue))
  }

  /** The reader of `c` is done with its reservation: past the event, or stopped. */
  function Advanced(s: State, c: nat, passed: bool): (readers: map<nat, Reader>)
    requires c in s.readers
    ensures forall x :: x in readers <==> x in s.readers
    ensures forall x :: x in s.readers && x != c ==> readers[x] == s.readers[x]
  {
    var r := s.readers[c];
    s.readers[c := if passed then Reader(r.next + 1, None, false) else r.(reserved := None, stopped := true)]
  }

  /** `enqueueReservedReliableHandler`; a closed queue takes no item. */
  function Committed(s: State, c: nat, enqueued: bool): (r: State)
    requires c in s.readers && s.readers[c].reserved.Some? && s.readers[c].next < |At(s.sent, c)|
    ensures r == s.(queue := r.queue, scheduled := r.scheduled, readers := r.readers)
  {
    var bytes := s.readers[c].reserved.value;
    var item := Q.Item(Reliable(c, At(s.sent, c)[s.readers[c].next]), bytes, 0);
    var s' := s.(queue := Q.Finish(s.queue, bytes, Some(item)));
    if s.queue.closed then s'.(readers := Advanced(s, c, false))
    else Settle(s', enqueued).(readers := Advanced(s, c, s.scheduled || enqueued))
  }

  /** `enqueueHandler` of a sequenced datagram. */
  function Dispatched(s: State, admitted: bool, bytes: int, enqueued: bool): (r: State)
    requires s.pending.Some?
    ensures r == s.(queue := r.queue, scheduled := r.scheduled, pending := None)
  {
    var (c, n) := s.pending.value;
    var item := Q.Item(Sequenced(c, n), bytes, c + 1);
    var s' := s.(pending := None);
    if !admitted || !Q.Replaces(s.queue, item) then s'
    else Settle(s'.(queue := Q.Replace(s.queue, item)), enqueued)
  }

  /** `enqueueHandler` of anything without a sequence number. */
  function PushedOther(s: State, lifecycle: bool, bytes: int, enqueued: bool): (r: State)
    ensures r == s.(queue := r.queue, scheduled := r.scheduled)
  {
    var item := Q.Item(Other(lifecycle), bytes, 0);
    if !Q.Pushes(s.queue, item) then s else Settle(s.(queue := Q.Push(s.queue, item)), enqueued)
  }

  function Next(s: State, step: Step): State
    requires Enabled(s, step)
  {
    match step
    case SendReliable(c, event) => s.(sent := s.sent[c := At(s.sent, c) + [event]])
    case SendSequenced(c, transmitted) =>
      var n := Mark(s.sequences, c) + 1;
      s.(sequences := s.sequences[c := n], onWire := if transmitted then s.onWire + {(c, n)} else s.onWire)
    case OpenReader(c) => s.(readers := s.readers[c := Reader(0, None, false)])
    case ReserveEvent(c, bytes) =>
      s.(queue := Q.Reserve(s.queue, bytes), readers := s.readers[c := s.readers[c].(reserved := Some(bytes))])
    case StopReader(c) =>
      var q := if s.readers[c].reserved.Some? then Q.Finish(s.queue, s.readers[c].reserved.value, None) else s.queue;
      s.(queue := q, readers := s.readers[c := s.readers[c].(reserved := None, stopped := true)])
    case CommitEvent(c, enqueued) => Committed(s, c, enqueued)
    case Receive(c, n) =>
      if n <= Mark(s.received, c) then s
      else s.(received := s.received[c := n], pending := Some((c, n)))
    case DispatchDatagram(admitted, bytes, enqueued) => Dispatched(s, admitted, bytes, enqueued)
    case PushOther(lifecycle, bytes, enqueued) => PushedOther(s, lifecycle, bytes, enqueued)
    case Pick => s.(running := true)
    case Pop => s.(queue := Q.Pop(s.queue), inHand := Some(s.queue.items[0].value))
    case Invoke =>
      var m := s.inHand.value;
      s.(inHand := None, log := if s.current || (m.Other? && m.lifecycle) then s.log + [m] else s.log)
    case Yield => s.(running := false)
    case Retire => s.(running := false, scheduled := false)
    case Lose => s.(current := false)
    case DropQueued => s.(queue := s.queue.(items := [], bytes := 0))
    case CloseScheduler => s.(accepting := false)
  }

  predicate Init(s: State) {
    && s.sent == map[] && s.sequences == map[] && s.onWire == {} && s.readers == map[] && s.received == map[]
    && s.pending.None? && s.queue.items == [] && !s.scheduled && !s.running && s.inHand.None?
    && s.accepting && s.current && s.log == []
  }

  ghost predicate Run(states: seq<State>, steps: seq<Step>) {
    && |states| == |steps| + 1 && Init(states[0])
    && forall i :: 0 <= i < |steps| ==> Enabled(states[i], steps[i]) && states[i + 1] == Next(states[i], steps[i])
  }

  // ------------------------------------------------------------ sequenced events

  predicate Older(a: Msg, b: Msg) {
    a.Sequenced? && b.Sequenced? && a.channel == b.channel ==> a.sequence < b.sequence
  }

  /** Transmitted, and no newer than anything accepted since. */
  predicate Accounted(s: State, m: Msg) {
    m.Sequenced? ==>
      && (m.channel, m.sequence) in s.onWire
      && m.sequence <= Mark(s.received, m.channel)
      && (s.pending.Some? && s.pending.value.0 == m.channel ==> m.sequence < s.pending.value.1)
  }

  predicate LogOrdered(log: seq<Msg>) {
    forall i, j :: 0 <= i < j < |log| ==> Older(log[i], log[j])
  }

  /** Whatever is logged is older than what is in hand, and both than what is queued. */
  predicate StagesOrdered(log: seq<Msg>, inHand: Option<Msg>, items: seq<Q.Item<Msg>>) {
    && (inHand.Some? ==> forall i :: 0 <= i < |log| ==> Older(log[i], inHand.value))
    && (forall i, k :: 0 <= i < |log| && 0 <= k < |items| ==> Older(log[i], items[k].value))
    && (inHand.Some? ==> forall k :: 0 <= k < |items| ==> Older(inHand.value, items[k].value))
  }

  predicate QueueKeyed(items: seq<Q.Item<Msg>>) {
    && Q.KeysUnique(items)
    && forall k :: 0 <= k < |items| ==> items[k].key == KeyOf(items[k].value)
  }

  predicate AllAccounted(s: State) {
    && (forall i :: 0 <= i < |s.log| ==> Accounted(s, s.log[i]))
    && (s.inHand.Some? ==> Accounted(s, s.inHand.value))
    && (forall k :: 0 <= k < |s.queue.items| ==> Accounted(s, s.queue.items[k].value))
    && (s.pending.Some? ==> s.pending.value in s.onWire && s.pending.value.1 == Mark(s.received, s.pending.value.0))
  }

  predicate SequencedInv(s: State) {
    && LogOrdered(s.log) && StagesOrdered(s.log, s.inHand, s.queue.items) && QueueKeyed(s.queue.items)
    && AllAccounted(s)
  }

  /** Sequence numbers handed to handlers on a sequenced channel are strictly
      increasing and were all transmitted, whatever the network does. */
  lemma SequencedDelivery(states: seq<State>, steps: seq<Step>, n: nat)
    requires Run(states, steps) && n <= |steps|
    ensures forall i, j :: 0 <= i < j < |states[n].log| ==> Older(states[n].log[i], states[n].log[j])
    ensures forall i :: 0 <= i < |states[n].log| && states[n].log[i].Sequenced? ==>
              (states[n].log[i].channel, states[n].log[i].sequence) in states[n].onWire
  {
    SequencedRun(states, steps, n);
    forall i | 0 <= i < |states[n].log| && states[n].log[i].Sequenced?
      ensures (states[n].log[i].channel, states[n].log[i].sequence) in states[n].onWire
    {
      assert Accounted(states[n], states[n].log[i]);
    }
  }

  lemma {:induction false} SequencedRun(states: seq<State>, steps: seq<Step>, n: nat)
    requires Run(states, steps) && n <= |steps|
    ensures SequencedInv(states[n])
  {
    hide Next, Enabled;
    if n > 0 {
      SequencedRun(states, steps, n - 1);
      assert states[n - 1 + 1] == Next(states[n - 1], steps[n - 1]);
      SequencedStep(states[n - 1], steps[n - 1]);
    }
  }

  /** Items are only ever removed from a queue whose order is not disturbed. */
  predicate Fewer(s: State, s': State) {
    && s'.log == s.log && s'.inHand == s.inHand
    && |s'.queue.items| <= |s.queue.items|
    && s'.queue.items == s.queue.items[|s.queue.items| - |s'.queue.items|..]
  }

  lemma FewerKept(s: State, s': State)
    requires SequencedInv(s) && Fewer(s, s')
    requires s'.received == s.received && s'.onWire >= s.onWire && (s'.pending == s.pending || s'.pending.None?)
    ensures SequencedInv(s')
  {
    var d := |s.queue.items| - |s'.queue.items|;
    forall k | 0 <= k < |s'.queue.items| ensures s'.queue.items[k] == s.queue.items[k + d] { }
    forall m | Accounted(s, m) ensures Accounted(s', m) { }
  }

  lemma SequencedStep(s: State, step: Step)
    requires SequencedInv(s) && Enabled(s, step)
    ensures SequencedInv(Next(s, step))
  {
    hide SequencedInv, Next, Enabled;
    match step
    case CommitEvent(c, enqueued) => CommitSequenced(s, c, enqueued);
    case Receive(c, n) => ReceiveSequenced(s, c, n);
    case DispatchDatagram(admitted, bytes, enqueued) => DispatchSequenced(s, admitted, bytes, enqueued);
    case PushOther(lifecycle, bytes, enqueued) => PushSequenced(s, lifecycle, bytes, enqueued);
    case Pop => PopSequenced(s);
    case Invoke => InvokeSequenced(s);
    case DropQueued => DropSequenced(s);
    case _ =>
      AsideStep(s, step);
      AsideSequenced(s, Next(s, step));
  }

  /** Nothing of what orders sequenced datagrams has changed but what was transmitted. */
  predicate Aside(s: State, s': State) {
    && s'.log == s.log && s'.inHand == s.inHand && s'.queue.items == s.queue.items
    && s'.received == s.received && s'.pending == s.pending && s'.onWire >= s.onWire
  }

  lemma AsideStep(s: State, step: Step)
    requires Enabled(s, step) && !step.CommitEvent? && !step.Receive? && !step.DispatchDatagram?
    requires !step.PushOther? && !step.Pop? && !step.Invoke? && !step.DropQueued?
    ensures Aside(s, Next(s, step))
  {
    hide Q.Sum, At, Mark;
    match step
    case SendSequenced(_, _) =>
    case ReserveEvent(_, _) =>
    case StopReader(_) =>
    case _ =>
  }

  lemma AsideSequenced(s: State, s': State)
    requires SequencedInv(s) && Aside(s, s')
    ensures SequencedInv(s')
  {
    hide LogOrdered, StagesOrdered, QueueKeyed;
    forall m | Accounted(s, m) ensures Accounted(s', m) { }
  }

  lemma DropSequenced(s: State)
    requires SequencedInv(s) && Enabled(s, DropQueued)
    ensures SequencedInv(Next(s, DropQueued))
  {
    hide SequencedInv;
    FewerKept(s, Next(s, DropQueued));
  }

  lemma SettleSequenced(s: State, enqueued: bool)
    requires SequencedInv(s)
    ensures SequencedInv(Settle(s, enqueued))
  {
    hide SequencedInv;
    FewerKept(s, Settle(s, enqueued));
  }

  /** Appending an item that carries no sequence number. */
  lemma AppendSequenced(s: State, s': State, item: Q.Item<Msg>)
    requires SequencedInv(s) && !item.value.Sequenced? && item.key == 0
    requires s'.queue.items == s.queue.items + [item]
    requires s'.log == s.log && s'.inHand == s.inHand && s'.received == s.received && s'.onWire == s.onWire
    requires s'.pending == s.pending
    ensures SequencedInv(s')
  {
    forall k | 0 <= k < |s.queue.items| ensures s'.queue.items[k] == s.queue.items[k] { }
    forall m | Accounted(s, m) ensures Accounted(s', m) { }
  }

  lemma CommitSequenced(s: State, c: nat, enqueued: bool)
    requires SequencedInv(s) && Enabled(s, CommitEvent(c, enqueued))
    ensures SequencedInv(Next(s, CommitEvent(c, enqueued)))
  {
    hide SequencedInv;
    var r := s.readers[c];
    var item := Q.Item(Reliable(c, At(s.sent, c)[r.next]), r.reserved.value, 0);
    var mid := s.(queue := Q.Finish(s.queue, r.reserved.value, Some(item)));
    var s' := Next(s, CommitEvent(c, enqueued));
    if s.queue.closed {
      FewerKept(s, s');
    } else {
      AppendSequenced(s, mid, item);
      SettleSequenced(mid, enqueued);
      FewerKept(Settle(mid, enqueued), s');
    }
  }

  lemma PushSequenced(s: State, lifecycle: bool, bytes: int, enqueued: bool)
    requires SequencedInv(s) && Enabled(s, PushOther(lifecycle, bytes, enqueued))
    ensures SequencedInv(Next(s, PushOther(lifecycle, bytes, enqueued)))
  {
    hide SequencedInv;
    var item := Q.Item(Other(lifecycle), bytes, 0);
    if Q.Pushes(s.queue, item) {
      var mid := s.(queue := Q.Push(s.queue, item));
      AppendSequenced(s, mid, item);
      SettleSequenced(mid, enqueued);
    }
  }

  lemma ReceiveSequenced(s: State, c: nat, n: nat)
    requires SequencedInv(s) && Enabled(s, Receive(c, n))
    ensures SequencedInv(Next(s, Receive(c, n)))
  {
    hide LogOrdered, StagesOrdered, QueueKeyed, Accounted;
    if n > Mark(s.received, c) {
      var s' := s.(received := s.received[c := n], pending := Some((c, n)));
      forall i | 0 <= i < |s.log| ensures Accounted(s', s.log[i]) {
        FreshAccounted(s, s', c, n, s.log[i]);
      }
      forall k | 0 <= k < |s.queue.items| ensures Accounted(s', s.queue.items[k].value) {
        FreshAccounted(s, s', c, n, s.queue.items[k].value);
      }
      if s.inHand.Some? {
        FreshAccounted(s, s', c, n, s.inHand.value);
      }
      assert AllAccounted(s');
    }
  }

  lemma FreshAccounted(s: State, s': State, c: nat, n: nat, m: Msg)
    requires Accounted(s, m) && n > Mark(s.received, c) && s.pending.None?
    requires s' == s.(received := s.received[c := n], pending := Some((c, n)))
    ensures Accounted(s', m)
  {
  }

  /** A fresh datagram is newer than everything of its channel, so it may replace
      the queued one or join the tail. */
  lemma DispatchSequenced(s: State, admitted: bool, bytes: int, enqueued: bool)
    requires SequencedInv(s) && Enabled(s, DispatchDatagram(admitted, bytes, enqueued))
    ensures SequencedInv(Next(s, DispatchDatagram(admitted, bytes, enqueued)))
  {
    hide SequencedInv, Dispatched;
    DispatchedSequenced(s, admitted, bytes, enqueued);
  }

  lemma DispatchedSequenced(s: State, admitted: bool, bytes: int, enqueued: bool)
    requires SequencedInv(s) && s.pending.Some?
    ensures SequencedInv(Dispatched(s, admitted, bytes, enqueued))
  {
    hide SequencedInv, Settle, Q.FirstKey, Q.Replace, Q.Replaces;
    var (c, n) := s.pending.value;
    var item := Q.Item(Sequenced(c, n), bytes, c + 1);
    if admitted && Q.Replaces(s.queue, item) {
      var mid := s.(pending := None, queue := Q.Replace(s.queue, item));
      ReplaceSequenced(s, item, mid);
      SettleSequenced(mid, enqueued);
    } else {
      ForgetSequenced(s);
    }
  }

  lemma ForgetSequenced(s: State)
    requires SequencedInv(s)
    ensures SequencedInv(s.(pending := None))
  {
    hide SequencedInv;
    FewerKept(s, s.(pending := None));
  }

  lemma ReplaceSequenced(s: State, item: Q.Item<Msg>, mid: State)
    requires SequencedInv(s) && s.pending.Some? && Q.Replaces(s.queue, item)
    requires item.value == Sequenced(s.pending.value.0, s.pending.value.1) && item.key == s.pending.value.0 + 1
    requires mid == s.(pending := None, queue := Q.Replace(s.queue, item))
    ensures SequencedInv(mid)
  {
    hide Q.FirstKey, Q.Sum;
    var i := Q.FirstKey(s.queue.items, item.key);
    forall m | Accounted(s, m) ensures Accounted(mid, m) && Older(m, item.value) { }
    assert forall k :: 0 <= k < |mid.queue.items| ==>
      || (k < |s.queue.items| && k != i && mid.queue.items[k] == s.queue.items[k])
      || (k == i && mid.queue.items[k] == item);
    assert Q.KeysUnique(mid.queue.items);
  }

  lemma PopSequenced(s: State)
    requires SequencedInv(s) && Enabled(s, Step.Pop)
    ensures SequencedInv(Next(s, Step.Pop))
  {
    var s' := Next(s, Step.Pop);
    forall k | 0 <= k < |s'.queue.items| ensures s'.queue.items[k] == s.queue.items[k + 1] { }
    forall m | Accounted(s, m) ensures Accounted(s', m) { }
    forall k | 0 <= k < |s'.queue.items| ensures Older(s.queue.items[0].value, s'.queue.items[k].value) {
      assert s.queue.items[0].key == s.queue.items[k + 1].key ==> s.queue.items[0].key == 0;
    }
  }

  lemma InvokeSequenced(s: State)
    requires SequencedInv(s) && Enabled(s, Invoke)
    ensures SequencedInv(Next(s, Invoke))
  {
    var s' := Next(s, Invoke);
    forall m | Accounted(s, m) ensures Accounted(s', m) { }
  }

  // -------------------------------------------------------------- reliable events

  /** The events of channel `c` among the messages, in order. */
  function On(msgs: seq<Msg>, c: nat): seq<Frames.Event> {
    if msgs == [] then []
    else if msgs[0].Reliable? && msgs[0].channel == c then [msgs[0].event] + On(msgs[1..], c)
    else On(msgs[1..], c)
  }

  function Values(items: seq<Q.Item<Msg>>): seq<Msg> {
    if items == [] then [] else [items[0].value] + Values(items[1..])
  }

  /** Everything between the reader and the handlers, oldest first. */
  function Pipeline(s: State): seq<Msg> {
    s.log + (if s.inHand.Some? then [s.inHand.value] else []) + Values(s.queue.items)
  }

  /** Handlers can still be invoked. */
  predicate Live(s: State) {
    s.current && (s.accepting || s.scheduled)
  }

  /** A worker holds the token of what is in hand, and while accepting nothing waits without one. */
  predicate Tidy(s: State, c: nat) {
    && (s.inHand.Some? ==> s.running) && (s.running ==> s.scheduled)
    && (s.accepting && !s.scheduled ==> s.queue.items == [])
    && (c in s.readers ==> s.readers[c].next <= |At(s.sent, c)|)
  }

  predicate ReliableInv(s: State, c: nat) {
    && Tidy(s, c)
    && (if Live(s) then On(Pipeline(s), c) == At(s.sent, c)[..Read(s.sent, s.readers, c)]
        else On(s.log, c) <= At(s.sent, c))
  }

  /** How many events of channel `c` its reader has passed on. */
  function Read(sent: map<nat, seq<Frames.Event>>, readers: map<nat, Reader>, c: nat): (n: nat)
    ensures n <= |At(sent, c)|
  {
    if c in readers && readers[c].next <= |At(sent, c)| then readers[c].next else 0
  }

  /** Handlers see a prefix of the events sent on a reliable channel, in order. */
  lemma ReliableDelivery(states: seq<State>, steps: seq<Step>, n: nat, c: nat)
    requires Run(states, steps) && n <= |steps|
    ensures On(states[n].log, c) <= At(states[n].sent, c)
  {
    ReliableRun(states, steps, n, c);
    LogPrefix(states[n], c);
  }

  lemma {:induction false} ReliableRun(states: seq<State>, steps: seq<Step>, n: nat, c: nat)
    requires Run(states, steps) && n <= |steps|
    ensures ReliableInv(states[n], c)
  {
    hide Next, Enabled;
    if n == 0 {
      assert Pipeline(states[0]) == [];
    } else {
      ReliableRun(states, steps, n - 1, c);
      assert states[n - 1 + 1] == Next(states[n - 1], steps[n - 1]);
      SequencedRun(states, steps, n - 1);
      ReliableStep(states[n - 1], steps[n - 1], c);
    }
  }

  lemma {:induction false} OnConcat(a: seq<Msg>, b: seq<Msg>, c: nat)
    ensures On(a + b, c) == On(a, c) + On(b, c)
  {
    if a == [] {
      assert a + b == b;
    } else {
      assert (a + b)[1..] == a[1..] + b;
      OnConcat(a[1..], b, c);
    }
  }

  lemma {:induction false} ValuesConcat(a: seq<Q.Item<Msg>>, b: seq<Q.Item<Msg>>)
    ensures Values(a + b) == Values(a) + Values(b)
  {
    if a == [] {
      assert a + b == b;
    } else {
      assert (a + b)[1..] == a[1..] + b;
      ValuesConcat(a[1..], b);
    }
  }

  lemma LogPrefix(s: State, c: nat)
    requires ReliableInv(s, c)
    ensures On(s.log, c) <= At(s.sent, c)
  {
    hide On, Values, Pipeline, Tidy, Read;
    if Live(s) {
      PipelineSplit(s, c);
    }
  }

  /** A step that adds nothing of channel `c` and moves nothing to the log. */
  lemma Carry(s: State, s': State, c: nat)
    requires ReliableInv(s, c) && Tidy(s', c)
    requires s'.log == s.log && (Live(s') ==> Live(s))
    requires s'.sent == s.sent || At(s.sent, c) <= At(s'.sent, c)
    requires Live(s') ==> && s'.inHand == s.inHand && Read(s'.sent, s'.readers, c) == Read(s.sent, s.readers, c)
                          && On(Values(s'.queue.items), c) == On(Values(s.queue.items), c)
    ensures ReliableInv(s', c)
  {
    hide On, Values;
    LogPrefix(s, c);
    PipelineSplit(s, c);
    PipelineSplit(s', c);
  }

  lemma PipelineSplit(s: State, c: nat)
    ensures On(Pipeline(s), c)
         == On(s.log, c) + On(if s.inHand.Some? then [s.inHand.value] else [], c) + On(Values(s.queue.items), c)
  {
    var hand := if s.inHand.Some? then [s.inHand.value] else [];
    OnConcat(s.log + hand, Values(s.queue.items), c);
    OnConcat(s.log, hand, c);
  }

  lemma ReliableStep(s: State, step: Step, c: nat)
    requires ReliableInv(s, c) && QueueKeyed(s.queue.items) && Enabled(s, step)
    ensures ReliableInv(Next(s, step), c)
  {
    hide On, Values, ReliableInv, QueueKeyed;
    var s' := Next(s, step);
    match step
    case CommitEvent(ch, enqueued) => CommitReliable(s, ch, enqueued, c);
    case DispatchDatagram(admitted, bytes, enqueued) => DispatchReliable(s, admitted, bytes, enqueued, c);
    case PushOther(lifecycle, bytes, enqueued) => PushReliable(s, lifecycle, bytes, enqueued, c);
    case Pop => PopReliable(s, c);
    case Invoke => InvokeReliable(s, c);
    case SendReliable(_, _) => PeerReliable(s, step, c);
    case SendSequenced(_, _) => PeerReliable(s, step, c);
    case OpenReader(_) => PeerReliable(s, step, c);
    case ReserveEvent(_, _) => PeerReliable(s, step, c);
    case StopReader(_) => PeerReliable(s, step, c);
    case Receive(ch, n) => ReceiveReliable(s, ch, n, c);
    case Pick => LocalReliable(s, step, c);
    case Yield => LocalReliable(s, step, c);
    case _ => EndingReliable(s, step, c);
  }

  lemma PeerReliable(s: State, step: Step, c: nat)
    requires ReliableInv(s, c) && Enabled(s, step)
    requires step.SendReliable? || step.SendSequenced? || step.OpenReader? || step.ReserveEvent? || step.StopReader?
    ensures ReliableInv(Next(s, step), c)
  {
    hide On, Values, Pipeline;
    Carry(s, Next(s, step), c);
  }

  lemma ReceiveReliable(s: State, ch: nat, n: nat, c: nat)
    requires ReliableInv(s, c) && Enabled(s, Receive(ch, n))
    ensures ReliableInv(Next(s, Receive(ch, n)), c)
  {
    hide On, Values, Pipeline, Read, Q.Sum, Mark;
    if n > Mark(s.received, ch) {
      Carry(s, s.(received := s.received[ch := n], pending := Some((ch, n))), c);
    }
  }

  lemma LocalReliable(s: State, step: Step, c: nat)
    requires ReliableInv(s, c) && Enabled(s, step)
    requires step.Pick? || step.Yield?
    ensures ReliableInv(Next(s, step), c)
  {
    hide On, Values, Pipeline, Read, Q.Sum;
    Carry(s, Next(s, step), c);
  }

  /** Steps after which the connection may have stopped invoking handlers. */
  lemma EndingReliable(s: State, step: Step, c: nat)
    requires ReliableInv(s, c) && Enabled(s, step)
    requires step.Retire? || step.Lose? || step.DropQueued? || step.CloseScheduler?
    ensures ReliableInv(Next(s, step), c)
  {
    hide On, Values, Pipeline, Read, Q.Sum;
    Carry(s, Next(s, step), c);
  }

  /** A queued item either stays with a token or is the one taken back out. */
  lemma SettleReliable(s: State, mid: State, item: Q.Item<Msg>, enqueued: bool, c: nat)
    requires ReliableInv(s, c) && !(item.value.Reliable? && item.value.channel == c)
    requires enqueued ==> s.accepting
    requires mid.log == s.log && mid.inHand == s.inHand && mid.sent == s.sent && mid.readers == s.readers
    requires mid.running == s.running && mid.scheduled == s.scheduled && mid.accepting == s.accepting
    requires mid.current == s.current
    requires On(Values(mid.queue.items), c) == On(Values(s.queue.items), c)
    requires s.queue.items == [] ==> mid.queue.items == [item]
    ensures ReliableInv(Settle(mid, enqueued), c)
  {
    hide On, Values, Pipeline, Read, Q.Sum;
    NoValues(c);
    Carry(s, Settle(mid, enqueued), c);
  }

  lemma NoValues(c: nat)
    ensures On(Values([]), c) == []
  {
  }

  lemma SingleValue(item: Q.Item<Msg>, c: nat)
    ensures On(Values([item]), c) == if item.value.Reliable? && item.value.channel == c then [item.value.event] else []
  {
    assert Values([item]) == [item.value] + Values([]);
    SingleOn(item.value, c);
  }

  lemma SingleOn(m: Msg, c: nat)
    ensures On([m], c) == if m.Reliable? && m.channel == c then [m.event] else []
  {
    assert On([m][1..], c) == [];
  }

  lemma AppendOn(items: seq<Q.Item<Msg>>, item: Q.Item<Msg>, c: nat)
    ensures On(Values(items + [item]), c)
         == On(Values(items), c) + if item.value.Reliable? && item.value.channel == c then [item.value.event] else []
  {
    ValuesConcat(items, [item]);
    OnConcat(Values(items), Values([item]), c);
    SingleValue(item, c);
  }

  lemma CommitReliable(s: State, ch: nat, enqueued: bool, c: nat)
    requires ReliableInv(s, c) && Enabled(s, CommitEvent(ch, enqueued))
    ensures ReliableInv(Next(s, CommitEvent(ch, enqueued)), c)
  {
    hide On, Values, Pipeline, ReliableInv;
    if ch == c && Live(s) && !s.queue.closed && (s.scheduled || enqueued) {
      CommitOwn(s, enqueued, c);
    } else {
      CommitOther(s, ch, enqueued, c);
    }
  }

  /** The event joins the pipeline as its reader moves past it. */
  lemma CommitOwn(s: State, enqueued: bool, c: nat)
    requires ReliableInv(s, c) && Enabled(s, CommitEvent(c, enqueued))
    requires Live(s) && !s.queue.closed && (s.scheduled || enqueued)
    ensures ReliableInv(Next(s, CommitEvent(c, enqueued)), c)
  {
    hide On, Values, Pipeline;
    var s' := Next(s, CommitEvent(c, enqueued));
    var r := s.readers[c];
    var event := At(s.sent, c)[r.next];
    AppendOn(s.queue.items, Q.Item(Reliable(c, event), r.reserved.value, 0), c);
    PipelineSplit(s, c);
    PipelineSplit(s', c);
    assert At(s.sent, c)[..r.next + 1] == At(s.sent, c)[..r.next] + [event];
  }

  /** Another channel's event, an event taken back out, or a connection past invoking. */
  lemma CommitOther(s: State, ch: nat, enqueued: bool, c: nat)
    requires ReliableInv(s, c) && Enabled(s, CommitEvent(ch, enqueued))
    requires ch != c || !Live(s) || s.queue.closed || !(s.scheduled || enqueued)
    ensures ReliableInv(Next(s, CommitEvent(ch, enqueued)), c)
  {
    hide On, Values, Pipeline, Next, Enabled, Read, Tidy, Live, At;
    CommitTidy(s, ch, enqueued, c);
    if Live(s) && !s.queue.closed {
      CommitSame(s, ch, enqueued, c);
    }
    Carry(s, Next(s, CommitEvent(ch, enqueued)), c);
  }

  lemma CommitTidy(s: State, ch: nat, enqueued: bool, c: nat)
    requires Tidy(s, c) && Enabled(s, CommitEvent(ch, enqueued))
    requires ch != c || !Live(s) || s.queue.closed || !(s.scheduled || enqueued)
    ensures var s' := Next(s, CommitEvent(ch, enqueued));
            && Tidy(s', c) && s'.log == s.log && s'.inHand == s.inHand && s'.sent == s.sent && (Live(s') ==> Live(s))
            && (Live(s') ==> Read(s'.sent, s'.readers, c) == Read(s.sent, s.readers, c))
            && (s.queue.closed ==> s'.queue.items == s.queue.items)
  {
    var s' := Committed(s, ch, enqueued);
    CommittedQueue(s, ch, enqueued);
    hide Committed, At;
  }

  /** What becomes of the queue, the token and the reader. */
  lemma CommittedQueue(s: State, c: nat, enqueued: bool)
    requires Enabled(s, CommitEvent(c, enqueued))
    ensures var s' := Committed(s, c, enqueued);
            && (s.queue.closed ==> s'.queue.items == s.queue.items)
            && (s.queue.closed ==> s'.scheduled == s.scheduled && s'.readers == Advanced(s, c, false))
            && (!s.queue.closed ==>
                  s'.scheduled == (s.scheduled || enqueued) && s'.readers == Advanced(s, c, s'.scheduled))
            && (!s.queue.closed && !s'.scheduled && s.queue.items == [] ==> s'.queue.items == [])
  {
    hide Q.Sum, Advanced;
  }

  lemma CommitSame(s: State, ch: nat, enqueued: bool, c: nat)
    requires Tidy(s, c) && Enabled(s, CommitEvent(ch, enqueued)) && Live(s) && !s.queue.closed
    requires ch != c || !(s.scheduled || enqueued)
    ensures On(Values(Next(s, CommitEvent(ch, enqueued)).queue.items), c) == On(Values(s.queue.items), c)
  {
    hide On, Values, Q.Sum;
    var r := s.readers[ch];
    var item := Q.Item(Reliable(ch, At(s.sent, ch)[r.next]), r.reserved.value, 0);
    var items := Next(s, CommitEvent(ch, enqueued)).queue.items;
    if s.scheduled || enqueued {
      AppendOn(s.queue.items, item, c);
      assert items == s.queue.items + [item];
      assert On(Values(s.queue.items), c) + [] == On(Values(s.queue.items), c);
    } else {
      assert s.queue.items == [];
      assert items == (s.queue.items + [item])[1..] == [];
    }
  }

  lemma DispatchReliable(s: State, admitted: bool, bytes: int, enqueued: bool, c: nat)
    requires ReliableInv(s, c) && QueueKeyed(s.queue.items) && Enabled(s, DispatchDatagram(admitted, bytes, enqueued))
    ensures ReliableInv(Next(s, DispatchDatagram(admitted, bytes, enqueued)), c)
  {
    hide On, Values, Q.FirstKey, Q.Replace, Q.Replaces, QueueKeyed, ReliableInv, Settle;
    var (ch, n) := s.pending.value;
    var item := Q.Item(Sequenced(ch, n), bytes, ch + 1);
    if admitted && Q.Replaces(s.queue, item) {
      ReplaceOn(s.queue, item, c);
      SettleReliable(s, s.(pending := None, queue := Q.Replace(s.queue, item)), item, enqueued, c);
    } else {
      ForgetReliable(s, c);
    }
  }

  lemma ForgetReliable(s: State, c: nat)
    requires ReliableInv(s, c)
    ensures ReliableInv(s.(pending := None), c)
  {
    hide On, Values, Pipeline;
    Carry(s, s.(pending := None), c);
  }

  lemma ReplaceOn(q: Q.State<Msg>, item: Q.Item<Msg>, c: nat)
    requires QueueKeyed(q.items) && item.value.Sequenced? && item.key != 0 && Q.Replaces(q, item)
    ensures On(Values(Q.Replace(q, item).items), c) == On(Values(q.items), c)
    ensures q.items == [] ==> Q.Replace(q, item).items == [item]
  {
    hide On, Values;
    var i := Q.FirstKey(q.items, item.key);
    if i < |q.items| {
      UpdateOn(q.items, i, item, c);
    } else {
      AppendOn(q.items, item, c);
    }
  }

  /** Replacing one unreliable item by another leaves the reliable events alone. */
  lemma UpdateOn(items: seq<Q.Item<Msg>>, i: nat, item: Q.Item<Msg>, c: nat)
    requires i < |items| && !items[i].value.Reliable? && !item.value.Reliable?
    ensures On(Values(items[i := item]), c) == On(Values(items), c)
  {
    var a, z := items[..i], items[i + 1..];
    assert items == (a + [items[i]]) + z && items[i := item] == (a + [item]) + z;
    ValuesConcat(a + [items[i]], z);
    ValuesConcat(a + [item], z);
    OnConcat(Values(a + [items[i]]), Values(z), c);
    OnConcat(Values(a + [item]), Values(z), c);
    AppendOn(a, items[i], c);
    AppendOn(a, item, c);
  }

  lemma PushReliable(s: State, lifecycle: bool, bytes: int, enqueued: bool, c: nat)
    requires ReliableInv(s, c) && Enabled(s, PushOther(lifecycle, bytes, enqueued))
    ensures ReliableInv(Next(s, PushOther(lifecycle, bytes, enqueued)), c)
  {
    hide On, Values, Pipeline;
    var item := Q.Item(Other(lifecycle), bytes, 0);
    if Q.Pushes(s.queue, item) {
      AppendOn(s.queue.items, item, c);
      SettleReliable(s, s.(queue := Q.Push(s.queue, item)), item, enqueued, c);
    }
  }

  lemma PopReliable(s: State, c: nat)
    requires ReliableInv(s, c) && Enabled(s, Step.Pop)
    ensures ReliableInv(Next(s, Step.Pop), c)
  {
    hide On;
    var s' := Next(s, Step.Pop);
    assert Values(s.queue.items) == [s.queue.items[0].value] + Values(s'.queue.items);
    assert Pipeline(s') == Pipeline(s);
  }

  lemma InvokeReliable(s: State, c: nat)
    requires ReliableInv(s, c) && Enabled(s, Invoke)
    ensures ReliableInv(Next(s, Invoke), c)
  {
    hide Values;
    var s' := Next(s, Invoke);
    if Live(s) {
      assert Pipeline(s') == Pipeline(s);
    } else {
      OnConcat(s.log, [s.inHand.value], c);
      SingleOn(s.inHand.value, c);
    }
  }

  // ---------------------------------------------------------- what must happen

  predicate Leads(s: State, step: Step, s': State) {
    Enabled(s, step) && s' == Next(s, step)
  }

  /** Sequence numbers on the wire have been given out, from 1 up. */
  ghost predicate Numbered(s: State) {
    forall c, q :: (c, q) in s.onWire ==> 1 <= q <= Mark(s.sequences, c)
  }

  lemma NumberedStep(s: State, step: Step)
    requires Numbered(s) && Enabled(s, step)
    ensures Numbered(Next(s, step))
    ensures forall c :: Mark(s.received, c) <= Mark(Next(s, step).received, c)
    ensures forall c :: Mark(Next(s, step).received, c) != Mark(s.received, c) ==>
              step == Receive(c, Mark(Next(s, step).received, c))
    ensures step.Receive? ==> step.sequence <= Mark(Next(s, step).received, step.channel)
  {
    hide Next, Enabled;
    if step.SendSequenced? {
      SendNumbered(s, step);
    } else if step.Receive? {
      ReceiveNumbered(s, step);
    } else {
      NumbersStay(s, step);
    }
  }

  lemma SendNumbered(s: State, step: Step)
    requires Numbered(s) && Enabled(s, step) && step.SendSequenced?
    ensures Numbered(Next(s, step)) && Next(s, step).received == s.received
  {
  }

  lemma ReceiveNumbered(s: State, step: Step)
    requires Enabled(s, step) && step.Receive?
    ensures Next(s, step).onWire == s.onWire && Next(s, step).sequences == s.sequences
    ensures var received := Next(s, step).received;
            if step.sequence <= Mark(s.received, step.channel) then received == s.received
            else received == s.received[step.channel := step.sequence]
  {
  }

  lemma NumbersStay(s: State, step: Step)
    requires Enabled(s, step) && !step.SendSequenced? && !step.Receive?
    ensures var s' := Next(s, step); s'.onWire == s.onWire && s'.sequences == s.sequences && s'.received == s.received
  {
    hide Committed, Dispatched, PushedOther, At, Mark, Q.Reserves, Q.Reserve, Q.Finish, Q.Pop;
    match step
    case CommitEvent(_, _) =>
    case DispatchDatagram(_, _, _) =>
    case PushOther(_, _, _) =>
    case ReserveEvent(_, _) =>
    case StopReader(_) =>
    case _ =>
  }

  lemma {:induction false} NumberedRun(states: seq<State>, steps: seq<Step>, n: nat)
    requires Run(states, steps) && n <= |steps|
    ensures Numbered(states[n])
  {
    hide Next, Enabled;
    if n > 0 {
      NumberedRun(states, steps, n - 1);
      assert states[n - 1 + 1] == Next(states[n - 1], steps[n - 1]);
      NumberedStep(states[n - 1], steps[n - 1]);
    }
  }

  /** Every sequenced datagram sent carries the next number of its channel, which no earlier one carries. */
  lemma SequencesAreFresh(states: seq<State>, steps: seq<Step>, n: nat, c: nat)
    requires Run(states, steps) && n < |steps| && steps[n] == SendSequenced(c, true)
    ensures var q := Mark(states[n].sequences, c) + 1;
            && (c, q) !in states[n].onWire && states[n + 1].onWire == states[n].onWire + {(c, q)}
            && Mark(states[n + 1].sequences, c) == q
  {
    NumberedRun(states, steps, n);
    assert states[n + 1] == Next(states[n], steps[n]);
  }

  /** The stale mark of a channel is at least every sequence number received on it ... */
  lemma {:induction false} ReceivedIsRemembered(states: seq<State>, steps: seq<Step>, i: nat, n: nat, c: nat, q: nat)
    requires Run(states, steps) && i < n <= |steps| && steps[i] == Receive(c, q)
    ensures q <= Mark(states[n].received, c)
  {
    hide Next, Enabled;
    NumberedRun(states, steps, n - 1);
    assert states[n - 1 + 1] == Next(states[n - 1], steps[n - 1]);
    NumberedStep(states[n - 1], steps[n - 1]);
    if i < n - 1 {
      ReceivedIsRemembered(states, steps, i, n - 1, c, q);
    }
  }

  /** ... and is one of them, or zero. */
  lemma {:induction false} MarkWasReceived(states: seq<State>, steps: seq<Step>, n: nat, c: nat)
    requires Run(states, steps) && n <= |steps|
    ensures Mark(states[n].received, c) == 0
            || exists i :: 0 <= i < n && steps[i] == Receive(c, Mark(states[n].received, c))
  {
    hide Next, Enabled;
    if n > 0 {
      MarkWasReceived(states, steps, n - 1, c);
      NumberedRun(states, steps, n - 1);
      assert states[n - 1 + 1] == Next(states[n - 1], steps[n - 1]);
      NumberedStep(states[n - 1], steps[n - 1]);
    }
  }

  /** A datagram newer than all received before on its channel is taken, whatever was
      lost in between; any other is dropped. */
  lemma NewerIsTaken(states: seq<State>, steps: seq<Step>, n: nat, c: nat, q: nat)
    requires Run(states, steps) && n < |steps| && steps[n] == Receive(c, q)
    ensures (forall i :: 0 <= i < n && steps[i].Receive? && steps[i].channel == c ==> steps[i].sequence < q)
       <==> states[n + 1].pending == Some((c, q))
    ensures states[n + 1].pending != Some((c, q)) ==> states[n + 1] == states[n]
  {
    hide LogOrdered;
    NumberedRun(states, steps, n);
    MarkWasReceived(states, steps, n, c);
    assert states[n + 1] == Next(states[n], steps[n]);
    assert (c, q) in states[n].onWire;
    forall i | 0 <= i < n && steps[i].Receive? && steps[i].channel == c
      ensures steps[i].sequence <= Mark(states[n].received, c)
    {
      ReceivedIsRemembered(states, steps, i, n, c, steps[i].sequence);
    }
  }

  /** A datagram that is admitted and for which the queue has room is queued under its
      channel's key, in place of the one queued before, if the connection holds or gets a token. */
  lemma AdmittedIsQueued(states: seq<State>, steps: seq<Step>, n: nat, bytes: int, enqueued: bool)
    requires Run(states, steps) && n < |steps| && steps[n] == DispatchDatagram(true, bytes, enqueued)
    requires states[n].pending.Some? && (states[n].scheduled || enqueued)
    requires var (c, q) := states[n].pending.value; Q.Replaces(states[n].queue, Q.Item(Sequenced(c, q), bytes, c + 1))
    ensures var (c, q) := states[n].pending.value;
            && Q.Item(Sequenced(c, q), bytes, c + 1) in states[n + 1].queue.items
            && states[n + 1].scheduled && states[n + 1].pending.None?
  {
    hide Q.Replaces, Q.Sum;
    var s, s' := states[n], states[n + 1];
    var (c, q) := s.pending.value;
    assert s' == Next(s, steps[n]);
    var i := Q.FirstKey(s.queue.items, c + 1);
    hide Q.FirstKey;
    assert s'.queue.items[i] == Q.Item(Sequenced(c, q), bytes, c + 1);
  }

  /** A worker takes the oldest item; a current connection hands what it took to its
      handler, any other only a lifecycle notice. */
  lemma OldestIsInvoked(states: seq<State>, steps: seq<Step>, n: nat)
    requires Run(states, steps) && n < |steps|
    ensures steps[n] == Step.Pop ==>
              && states[n].queue.items != [] && states[n + 1].inHand == Some(states[n].queue.items[0].value)
              && states[n + 1].queue.items == states[n].queue.items[1..]
    ensures steps[n] == Invoke ==>
              && states[n].inHand.Some? && states[n + 1].inHand.None?
              && states[n + 1].log
                 == states[n].log + if states[n].current || states[n].inHand.value == Other(true)
                                    then [states[n].inHand.value] else []
  {
    assert states[n + 1] == Next(states[n], steps[n]);
  }

  /** Nothing read is lost: while handlers can be invoked, what was logged, is in hand
      and is queued of a channel are exactly the events its reader has passed on. */
  lemma NothingReadIsLost(states: seq<State>, steps: seq<Step>, n: nat, c: nat)
    requires Run(states, steps) && n <= |steps| && c in states[n].readers
    requires states[n].current && (states[n].accepting || states[n].scheduled)
    ensures states[n].readers[c].next <= |At(states[n].sent, c)|
    ensures On(Pipeline(states[n]), c) == At(states[n].sent, c)[..states[n].readers[c].next]
    ensures states[n].inHand.None? && states[n].queue.items == [] ==>
              On(states[n].log, c) == At(states[n].sent, c)[..states[n].readers[c].next]
  {
    ReliableRun(states, steps, n, c);
    hide On;
    if states[n].inHand.None? && states[n].queue.items == [] {
      assert states[n].log + [] + [] == states[n].log;
    }
  }

  /** A reserved event commits on an open queue whose connection holds or gets a token,
      and its reader goes on to the next. */
  lemma CommitAdvances(states: seq<State>, steps: seq<Step>, n: nat, c: nat, enqueued: bool)
    requires Run(states, steps) && n < |steps| && steps[n] == CommitEvent(c, enqueued)
    requires !states[n].queue.closed && (states[n].scheduled || enqueued)
    ensures var s, s' := states[n], states[n + 1];
            && c in s.readers && s.readers[c].next < |At(s.sent, c)| && c in s'.readers
            && s'.readers[c] == Reader(s.readers[c].next + 1, None, false) && s'.scheduled
            && |s'.queue.items| == |s.queue.items| + 1
            && s'.queue.items[|s.queue.items|].value == Reliable(c, At(s.sent, c)[s.readers[c].next])
            && s'.queue.items[..|s.queue.items|] == s.queue.items
  {
    assert states[n + 1] == Next(states[n], steps[n]) && Enabled(states[n], steps[n]);
  }

  /** From every reachable state of a current connection with nothing in the pipeline, a
      datagram on the wire newer than what was received can be received, dispatched,
      picked up and handed to the handler. */
  lemma DatagramCanBeDelivered(states: seq<State>, steps: seq<Step>, n: nat, c: nat, q: nat, bytes: int)
    returns (path: seq<State>)
    requires Run(states, steps) && n <= |steps| && Quiet(states[n])
    requires (c, q) in states[n].onWire && q > Mark(states[n].received, c)
    requires Q.Replaces(states[n].queue, Q.Item(Sequenced(c, q), bytes, c + 1))
    ensures |path| == 6 && path[0] == states[n]
    ensures Leads(path[0], Receive(c, q), path[1]) && Leads(path[1], DispatchDatagram(true, bytes, true), path[2])
    ensures Leads(path[2], Pick, path[3]) && Leads(path[3], Step.Pop, path[4]) && Leads(path[4], Invoke, path[5])
    ensures path[5].log == states[n].log + [Sequenced(c, q)]
  {
    hide Q.Replaces, Q.Sum;
    var s := states[n];
    var s1 := Next(s, Receive(c, q));
    var s2 := Next(s1, DispatchDatagram(true, bytes, true));
    assert s2.queue.items == [Q.Item(Sequenced(c, q), bytes, c + 1)];
    path := Served(s2, Sequenced(c, q));
    path := [s, s1] + path;
  }

  /** Nothing between the wire and the handlers of a current, accepting connection. */
  predicate Quiet(s: State) {
    && s.current && s.accepting && !s.scheduled && !s.running
    && s.inHand.None? && s.pending.None? && s.queue.items == []
  }

  /** The only item of a scheduled connection reaches the handler. */
  lemma Served(s: State, m: Msg) returns (path: seq<State>)
    requires s.scheduled && !s.running && s.inHand.None? && s.current
    requires |s.queue.items| == 1 && s.queue.items[0].value == m
    ensures |path| == 4 && path[0] == s && Leads(path[0], Pick, path[1])
    ensures Leads(path[1], Step.Pop, path[2]) && Leads(path[2], Invoke, path[3])
    ensures path[3] == s.(running := true, queue := Q.Pop(s.queue), log := s.log + [m]) && path[3].queue.items == []
  {
    hide Q.Sum;
    var s1 := Next(s, Pick);
    var s2 := Next(s1, Step.Pop);
    path := [s, s1, s2, Next(s2, Invoke)];
  }

  /** Likewise the next event of a reliable channel whose reader has room. */
  lemma EventCanBeDelivered(states: seq<State>, steps: seq<Step>, n: nat, c: nat, bytes: int)
    returns (path: seq<State>)
    requires Run(states, steps) && n <= |steps| && Quiet(states[n]) && c in states[n].readers
    requires !states[n].readers[c].stopped && states[n].readers[c].reserved.None?
    requires states[n].readers[c].next < |At(states[n].sent, c)|
    requires Q.Reserves(states[n].queue, bytes) && !states[n].queue.closed
    ensures |path| == 6 && path[0] == states[n]
    ensures Leads(path[0], ReserveEvent(c, bytes), path[1]) && Leads(path[1], CommitEvent(c, true), path[2])
    ensures Leads(path[2], Pick, path[3]) && Leads(path[3], Step.Pop, path[4]) && Leads(path[4], Invoke, path[5])
    ensures path[5].log == states[n].log + [Reliable(c, At(states[n].sent, c)[states[n].readers[c].next])]
  {
    path := EventServed(states[n], c, bytes);
  }

  lemma EventServed(s: State, c: nat, bytes: int) returns (path: seq<State>)
    requires Quiet(s) && c in s.readers && !s.readers[c].stopped && s.readers[c].reserved.None?
    requires s.readers[c].next < |At(s.sent, c)| && Q.Reserves(s.queue, bytes) && !s.queue.closed
    ensures |path| == 6 && path[0] == s
    ensures Leads(path[0], ReserveEvent(c, bytes), path[1]) && Leads(path[1], CommitEvent(c, true), path[2])
    ensures Leads(path[2], Pick, path[3]) && Leads(path[3], Step.Pop, path[4]) && Leads(path[4], Invoke, path[5])
    ensures path[5].log == s.log + [Reliable(c, At(s.sent, c)[s.readers[c].next])]
    ensures Quiet(path[5].(scheduled := false, running := false)) && path[5].running && path[5].queue.items == []
  {
    hide Q.Reserves, Q.Sum;
    var s1 := Next(s, ReserveEvent(c, bytes));
    var s2 := Next(s1, CommitEvent(c, true));
    path := Served(s2, Reliable(c, At(s.sent, c)[s.readers[c].next]));
    path := [s, s1] + path;
  }

  /** An event, a request or a lifecycle notice with room in the queue and a token or a ready
      slot goes to the end of the queue; one without room changes nothing. */
  lemma OtherIsQueued(states: seq<State>, steps: seq<Step>, n: nat, lifecycle: bool, bytes: int, enqueued: bool)
    requires Run(states, steps) && n < |steps| && steps[n] == PushOther(lifecycle, bytes, enqueued)
    ensures Q.Pushes(states[n].queue, Q.Item(Other(lifecycle), bytes, 0)) && (states[n].scheduled || enqueued) ==>
              && states[n + 1].queue.items == states[n].queue.items + [Q.Item(Other(lifecycle), bytes, 0)]
              && states[n + 1].scheduled
    ensures !Q.Pushes(states[n].queue, Q.Item(Other(lifecycle), bytes, 0)) ==> states[n + 1] == states[n]
  {
    hide Q.Pushes;
    assert states[n + 1] == Next(states[n], steps[n]);
  }

  /** Once a connection has lost its session no handler is given anything more of it, except
      lifecycle notices, whatever is still queued, in hand or arriving. */
  lemma {:induction false} LostIsSilent(states: seq<State>, steps: seq<Step>, i: nat, j: nat)
    requires Run(states, steps) && i < j <= |steps| && steps[i] == Lose
    ensures !states[j].current && states[i].log <= states[j].log
    ensures forall k :: |states[i].log| <= k < |states[j].log| ==> states[j].log[k] == Other(true)
  {
    assert states[j - 1 + 1] == Next(states[j - 1], steps[j - 1]);
    if i + 1 < j {
      hide Next, Enabled;
      LostIsSilent(states, steps, i, j - 1);
      SilentStep(states[j - 1], steps[j - 1]);
    }
  }

  lemma SilentStep(s: State, step: Step)
    requires Enabled(s, step) && !s.current
    ensures !Next(s, step).current
    ensures Next(s, step).log == s.log || Next(s, step).log == s.log + [Other(true)]
  {
    hide Committed, Dispatched, PushedOther, At, Mark, Q.Reserves, Q.Reserve, Q.Finish, Q.Pop;
  }

  /** What the steps at the two ends of the pipeline do: what is sent is there to be read, a reader
      starts with the first event, a stopped one reads no more, a token goes back or is given up. */
  lemma EndsOfThePipeline(states: seq<State>, steps: seq<Step>, n: nat, c: nat)
    requires Run(states, steps) && n < |steps|
    ensures var s, s' := states[n], states[n + 1];
            match steps[n]
            case SendReliable(x, e) => At(s'.sent, c) == At(s.sent, c) + if c == x then [e] else []
            case OpenReader(x) => s'.readers == s.readers[x := Reader(0, None, false)]
            case StopReader(x) =>
              && x in s.readers && s'.readers == s.readers[x := Reader(s.readers[x].next, None, true)]
              && s'.queue.items == s.queue.items
            case Yield => s' == s.(running := false)
            case Retire => s' == s.(running := false, scheduled := false)
            case DropQueued => s'.queue.items == [] && s'.queue.bytes == 0
            case CloseScheduler => s' == s.(accepting := false)
            case _ => s'.sent == s.sent
  {
    hide Q.Reserves, Q.Reserve, Q.Pop;
    assert states[n + 1] == Next(states[n], steps[n]) && Enabled(states[n], steps[n]);
    assert At(states[n].sent, c) + [] == At(states[n].sent, c);
  }

  /** From every reachable state in which nothing is under way, the first event of a new channel
      can be sent, read, queued and handed to its handler, after which again nothing is under way. */
  lemma FirstEventCanBeDelivered(states: seq<State>, steps: seq<Step>, n: nat, c: nat, event: Frames.Event, bytes: int)
    returns (sent: State, path: seq<State>, last: State)
    requires Run(states, steps) && n <= |steps| && Quiet(states[n])
    requires c !in states[n].readers && At(states[n].sent, c) == []
    requires Q.Reserves(states[n].queue, bytes)
    ensures |path| == 6 && Leads(states[n], SendReliable(c, event), sent) && Leads(sent, OpenReader(c), path[0])
    ensures Leads(path[0], ReserveEvent(c, bytes), path[1]) && Leads(path[1], CommitEvent(c, true), path[2])
    ensures Leads(path[2], Pick, path[3]) && Leads(path[3], Step.Pop, path[4]) && Leads(path[4], Invoke, path[5])
    ensures Leads(path[5], Retire, last) && Quiet(last) && last.log == states[n].log + [Reliable(c, event)]
  {
    assert !states[n].queue.closed;
    hide Leads, Next, Enabled, Q.Reserves;
    var ready: State;
    sent, ready := Announced(states[n], c, event);
    path := EventServed(ready, c, bytes);
    last := Rested(path[5]);
  }

  lemma Announced(s: State, c: nat, event: Frames.Event) returns (s1: State, s2: State)
    requires c !in s.readers && At(s.sent, c) == []
    ensures Leads(s, SendReliable(c, event), s1) && Leads(s1, OpenReader(c), s2)
    ensures s2 == s.(sent := s2.sent, readers := s2.readers) && At(s2.sent, c) == [event]
    ensures c in s2.readers && s2.readers[c] == Reader(0, None, false)
  {
    s1 := Next(s, SendReliable(c, event));
    s2 := Next(s1, OpenReader(c));
  }

  /** A worker that has emptied the queue gives its token up. */
  lemma Rested(s: State) returns (s': State)
    requires s.running && s.queue.items == [] && Quiet(s.(scheduled := false, running := false))
    ensures Leads(s, Retire, s') && Quiet(s') && s'.log == s.log
  {
    s' := Next(s, Retire);
  }

  /** A connection can be lost at any moment, and its queue then be dropped. */
  lemma LossAtAnyTime(states: seq<State>, steps: seq<Step>, n: nat) returns (s1: State, s2: State)
    requires Run(states, steps) && n <= |steps|
    ensures Leads(states[n], Lose, s1) && Leads(s1, DropQueued, s2)
    ensures !s2.current && s2.queue.items == [] && s2.log == states[n].log
  {
    s1 := Next(states[n], Lose);
    s2 := Next(s1, DropQueued);
  }
}
