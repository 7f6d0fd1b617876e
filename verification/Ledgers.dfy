/**
 Byte ledgers: `internal/runtime/budget.go`, the once-only envelope of `api.go`,
 and the charging protocol of `endpoint.go` around them.

 Every mutex section is one step and steps of any number of goroutines
 interleave freely. What a goroutine, a reservation or an envelope still owes is
 kept on its holder, as the release closures of the source do.
 */
module Ledgers {
  import opened Prelude
  import Q = BoundedQueue

  // ------------------------------------------------------------------ budget

  /** `Budget`; a release the source answers with a panic returns false. */
  class Budget {
    const max: nat
    var used: int

    constructor (max: nat)
      ensures this.max == max && used == 0
    {
      this.max, used := max, 0;
    }

    method Acquire(bytes: int) returns (ok: bool)
      modifies this
      ensures ok == CanAcquire(max, old(used), bytes)
      ensures used == if ok then old(used) + bytes else old(used)
    {
      if bytes < 0 || bytes > max - used {
        return false;
      }
      used := used + bytes;
      return true;
    }

    method Release(bytes: int) returns (ok: bool)
      modifies this
      ensures ok == CanRelease(old(used), bytes)
      ensures used == if ok then old(used) - bytes else old(used)
    {
      if bytes < 0 || bytes > used {
        return false;
      }
      used := used - bytes;
      return true;
    }
  }

  predicate CanAcquire(max: int, used: int, bytes: int) {
    0 <= bytes <= max - used
  }

  predicate CanRelease(used: int, bytes: int) {
    0 <= bytes <= used
  }

  // ---------------------------------------------------------------- envelope

  datatype Charge = Charge(ledger: nat, bytes: int)

  /** The budgets a holder is charged to are different ones and cover what it owes. */
  ghost predicate Covered(held: seq<Charge>, budgets: seq<Budget>)
    reads budgets
  {
    && (forall a, b :: 0 <= a < b < |budgets| ==> budgets[a] != budgets[b])
    && (forall i :: 0 <= i < |held| ==> held[i].bytes >= 0 && held[i].ledger < |budgets|)
    && (forall b :: 0 <= b < |budgets| ==> Owed(held, b) <= budgets[b].used)
  }

  /** The once-only parts of `Incoming`. */
  class Incoming {
    var held: seq<Charge>
    var released: bool
    var responded: bool
    ghost var phase: Phase

    ghost predicate Valid()
      reads this
    {
      released <==> phase == Releasing
    }

    /** The holder that the charging protocol makes of it. */
    ghost function View(): Holder
      reads this
    {
      Holder(held, phase)
    }

    constructor ()
      ensures Valid() && View() == Holder([], Building) && !responded
    {
      held, released, responded, phase := [], false, false, Building;
    }

    /** `attachCharge`, for each budget it names: one more charge for the release to hand back. */
    method Attach(charge: Charge)
      requires Valid() && !released
      modifies this`held
      ensures View() == old(View()).(held := old(held) + [charge]) && Valid()
    {
      held := held + [charge];
    }

    /** The first call hands every charge back to its budget; later ones find nothing to do. */
    method Release(budgets: seq<Budget>)
      requires Valid() && Covered(held, budgets)
      modifies this, budgets
      ensures Valid() && released && phase == Releasing && responded == old(responded)
      ensures View() == if old(released) then old(View()) else Holder([], Releasing)
      ensures forall b :: 0 <= b < |budgets| ==>
                budgets[b].used == old(budgets[b].used) - if old(released) then 0 else Owed(old(held), b)
    {
      if released {
        return;
      }
      released, phase := true, Releasing;
      while held != []
        invariant Valid() && released && responded == old(responded) && Covered(held, budgets)
        invariant forall b :: 0 <= b < |budgets| ==>
                    budgets[b].used - Owed(held, b) == old(budgets[b].used) - Owed(old(held), b)
        decreases |held|
      {
        ReturnFirst(budgets);
      }
    }

    /** One `Budget.Release` of a running release. */
    method ReturnFirst(budgets: seq<Budget>)
      requires Valid() && released && held != [] && Covered(held, budgets)
      modifies this`held, budgets
      ensures held == old(held)[1..] && Covered(held, budgets)
      ensures forall b :: 0 <= b < |budgets| ==>
                budgets[b].used - Owed(held, b) == old(budgets[b].used) - Owed(old(held), b)
    {
      var charge := held[0];
      ghost var before := held;
      OwedNonNegative(held[1..], charge.ledger);
      var ok := budgets[charge.ledger].Release(charge.bytes);
      held := held[1..];
      assert forall b :: 0 <= b < |budgets| ==>
          Owed(before, b) == (if charge.ledger == b then charge.bytes else 0) + Owed(held, b);
    }

    /** `respond`: a failed attempt may be retried, a successful one not. */
    method Respond(sent: bool) returns (ok: bool)
      modifies this`responded
      ensures ok == (!old(responded) && sent)
      ensures responded == (old(responded) || sent)
    {
      if responded {
        return false;
      }
      if !sent {
        return false;
      }
      responded := true;
      return true;
    }
  }

  lemma {:induction false} OwedNonNegative(held: seq<Charge>, b: nat)
    requires forall i :: 0 <= i < |held| ==> held[i].bytes >= 0
    ensures Owed(held, b) >= 0
  {
    if held != [] {
      OwedNonNegative(held[1..], b);
    }
  }

  // ----------------------------------------------------------------- protocol

  /**
   Who may act on a holder: the goroutine building it, the queue, whoever took
   it out of the queue, or the one release that is handing its charges back.
   */
  datatype Phase = Building | Queued | Handed | Releasing

  datatype Holder = Holder(held: seq<Charge>, phase: Phase)

  datatype Ledger = Ledger(max: int, used: int)

  /** Holders are numbered as they are made; the queue carries their numbers. In
      handler mode every connection has a queue of its own on the shared application
      ledger: limits here are arbitrary and `Discard` can take out any item, so one
      queue with the items of all connections covers that. */
  datatype State = State(ledgers: seq<Ledger>, holders: seq<Holder>, queue: Q.State<nat>)

  datatype Step =
    | New                                           // an Incoming, a reservation or a directional hold
    | Acquire(h: nat, charge: Charge)               // Budget.Acquire, whether or not it succeeds
    | GiveBack(h: nat)                              // the second ledger refused: undo the first
    | Push(h: nat, bytes: int)                      // TryPush
    | Coalesce(h: nat, bytes: int, key: nat)        // ReplaceWith
    | Reserve(bytes: int)                           // capacity held in the queue
    | Commit(r: nat, h: nat, bytes: int)            // reliableIncomingReservation.Commit
    | Cancel(r: nat, bytes: int)                    // reliableIncomingReservation.Cancel
    | Take                                          // Pop by a worker, Next, Close or dropQueuedHandlers
    | Discard(remove: Q.Item<nat> -> bool)          // discardEpoch
    | Close                                         // Queue.Close
    | Release(h: nat)                               // first Incoming.Release, or the once of a hold
    | Return(h: nat, i: nat)                        // one Budget.Release of a running release

  predicate Enabled(s: State, step: Step) {
    match step
    case New | Reserve(_) | Discard(_) | Close | Take => true
    case Acquire(h, charge) => h < |s.holders| && s.holders[h].phase == Building && charge.ledger < |s.ledgers|
    case GiveBack(h) => h < |s.holders| && s.holders[h].phase == Building && s.holders[h].held != []
    case Push(h, _) => h < |s.holders| && s.holders[h].phase == Building
    case Coalesce(h, _, _) => h < |s.holders| && s.holders[h].phase == Building
    case Commit(r, h, _) => r < |s.holders| && h < |s.holders| && r != h
                            && s.holders[r].phase == Building && s.holders[h].phase == Building
    case Cancel(r, _) => r < |s.holders| && s.holders[r].phase == Building
    case Release(h) => h < |s.holders| && s.holders[h].phase != Releasing
    case Return(h, i) => h < |s.holders| && s.holders[h].phase == Releasing && i < |s.holders[h].held|
  }

  function SetHolder(s: State, h: nat, holder: Holder): State
    requires h < |s.holders|
  {
    s.(holders := s.holders[h := holder])
  }

  function SetUsed(s: State, ledger: nat, used: int): State {
    if ledger < |s.ledgers| then s.(ledgers := s.ledgers[ledger := s.ledgers[ledger].(used := used)]) else s
  }

  function Phased(s: State, h: nat, phase: Phase): State {
    if h < |s.holders| then SetHolder(s, h, s.holders[h].(phase := phase)) else s
  }

  /** Marks the holders of items that left the queue, unless already being released. */
  function HandOver(s: State, items: seq<Q.Item<nat>>): State
    decreases |items|
  {
    if items == [] then s
    else
      var h := items[0].value;
      var s' := if h < |s.holders| && s.holders[h].phase == Queued then Phased(s, h, Handed) else s;
      HandOver(s', items[1..])
  }

  function Next(s: State, step: Step): State
    requires Enabled(s, step)
  {
    match step
    case New => s.(holders := s.holders + [Holder([], Building)])
    case Acquire(h, charge) =>
      var l := s.ledgers[charge.ledger];
      if CanAcquire(l.max, l.used, charge.bytes)
      then
        var charged := SetUsed(s, charge.ledger, l.used + charge.bytes);
        SetHolder(charged, h, Holder(s.holders[h].held + [charge], Building))
      else s
    case GiveBack(h) => Returned(s, h, |s.holders[h].held| - 1)
    case Push(h, bytes) =>
      var item := Q.Item(h, bytes, 0);
      if Q.Pushes(s.queue, item) then Phased(s.(queue := Q.Push(s.queue, item)), h, Queued) else s
    case Coalesce(h, bytes, key) =>
      var item := Q.Item(h, bytes, key);
      var i := Q.FirstKey(s.queue.items, key);
      if !Q.Replaces(s.queue, item) then s
      else
        var older := if i < |s.queue.items| then [s.queue.items[i]] else [];
        Phased(HandOver(s.(queue := Q.Replace(s.queue, item)), older), h, Queued)
    case Reserve(bytes) => s.(queue := Q.Reserve(s.queue, bytes))
    case Commit(r, h, bytes) =>
      var item := Q.Item(h, bytes, 0);
      var s' := s.(queue := Q.Finish(s.queue, bytes, Some(item)));
      if s.queue.closed then Phased(s', r, Releasing)
      else SetHolder(SetHolder(s', h, Holder(s.holders[h].held + s.holders[r].held, Queued)), r, Holder([], Releasing))
    case Cancel(r, bytes) => Phased(s.(queue := Q.Finish(s.queue, bytes, None)), r, Releasing)
    case Take =>
      if s.queue.items == [] then s else HandOver(s.(queue := Q.Pop(s.queue)), s.queue.items[..1])
    case Discard(remove) =>
      HandOver(s.(queue := Q.RemoveWhere(s.queue, remove)), Q.Select(s.queue.items, remove, true))
    case Close => s.(queue := s.queue.(closed := true))
    case Release(h) => Phased(s, h, Releasing)
    case Return(h, i) => Returned(s, h, i)
  }

  /** `Budget.Release` of the `i`-th charge of `h`. */
  function Returned(s: State, h: nat, i: nat): State
    requires h < |s.holders| && i < |s.holders[h].held|
  {
    var charge, held := s.holders[h].held[i], s.holders[h].held;
    var left := s.holders[h].(held := held[..i] + held[i + 1..]);
    if charge.ledger < |s.ledgers|
    then SetHolder(SetUsed(s, charge.ledger, s.ledgers[charge.ledger].used - charge.bytes), h, left)
    else SetHolder(s, h, left)
  }

  // --------------------------------------------------------------- conservation

  function Owed(held: seq<Charge>, ledger: nat): int {
    if held == [] then 0
    else (if held[0].ledger == ledger then held[0].bytes else 0) + Owed(held[1..], ledger)
  }

  function TotalOwed(holders: seq<Holder>, ledger: nat): int {
    if holders == [] then 0 else Owed(holders[0].held, ledger) + TotalOwed(holders[1..], ledger)
  }

  predicate Backed(s: State, held: seq<Charge>) {
    forall i :: 0 <= i < |held| ==> held[i].bytes >= 0 && held[i].ledger < |s.ledgers|
  }

  predicate QueuedIn(s: State, h: nat) {
    exists i :: 0 <= i < |s.queue.items| && s.queue.items[i].value == h
  }

  /** Each ledger's `used` is exactly what unreleased holders still owe it. */
  predicate Conserved(s: State) {
    forall b :: 0 <= b < |s.ledgers| ==>
      s.ledgers[b].used == TotalOwed(s.holders, b) && s.ledgers[b].used <= s.ledgers[b].max
  }

  predicate AllBacked(s: State) {
    forall h :: 0 <= h < |s.holders| ==> Backed(s, s.holders[h].held)
  }

  predicate Inv(s: State) {
    Conserved(s) && AllBacked(s) && Tracked(s)
  }

  /** Queue and phases agree: a holder is queued at most once, and only when built. */
  predicate Tracked(s: State) {
    && (forall h :: 0 <= h < |s.holders| && s.holders[h].phase == Queued ==> QueuedIn(s, h))
    && (forall i :: 0 <= i < |s.queue.items| ==>
          s.queue.items[i].value < |s.holders| && s.holders[s.queue.items[i].value].phase != Building)
    && Distinct(s.queue.items)
  }

  predicate Distinct(items: seq<Q.Item<nat>>) {
    forall i, j :: 0 <= i < j < |items| ==> items[i].value != items[j].value
  }

  predicate Init(s: State) {
    && s.holders == [] && s.queue.items == []
    && forall b :: 0 <= b < |s.ledgers| ==> s.ledgers[b].used == 0 <= s.ledgers[b].max
  }

  ghost predicate Run(states: seq<State>, steps: seq<Step>) {
    && |states| == |steps| + 1 && Init(states[0])
    && forall i :: 0 <= i < |steps| ==> Enabled(states[i], steps[i]) && states[i + 1] == Next(states[i], steps[i])
  }

  /** In every reachable state each ledger reads exactly what unreleased envelopes
      and unfinished reservations still owe it, and stays within its maximum. */
  lemma {:induction false} ChargeConservation(states: seq<State>, steps: seq<Step>, n: nat)
    requires Run(states, steps) && n <= |steps|
    ensures forall b :: 0 <= b < |states[n].ledgers| ==>
              states[n].ledgers[b].used == TotalOwed(states[n].holders, b) <= states[n].ledgers[b].max
    ensures Inv(states[n])
  {
    if n == 0 {
      forall b | 0 <= b < |states[0].ledgers| ensures TotalOwed(states[0].holders, b) == 0 { }
    } else {
      ChargeConservation(states, steps, n - 1);
      assert states[n - 1 + 1] == Next(states[n - 1], steps[n - 1]);
      NextInv(states[n - 1], steps[n - 1]);
    }
  }

  /** The state after a release of `h` has returned all its charges. */
  function AllReturned(s: State, h: nat): State
    requires h < |s.holders|
    decreases |s.holders[h].held|
  {
    if s.holders[h].held == [] then s else AllReturned(Returned(s, h, 0), h)
  }

  /** What `Incoming.Release` does in one call, the protocol does in a `Release` step
      and one `Return` for each charge: the holder ends empty, each ledger reads less
      by what it was owed, and nothing else changes. */
  lemma {:induction false} ReleaseReturnsAll(s: State, h: nat)
    requires h < |s.holders| && s.holders[h].phase == Releasing && Backed(s, s.holders[h].held)
    ensures var r := AllReturned(s, h);
            && r.holders == s.holders[h := Holder([], Releasing)] && r.queue == s.queue && |r.ledgers| == |s.ledgers|
            && forall b :: 0 <= b < |s.ledgers| ==>
                 r.ledgers[b] == s.ledgers[b].(used := s.ledgers[b].used - Owed(s.holders[h].held, b))
    decreases |s.holders[h].held|
  {
    var held := s.holders[h].held;
    if held == [] {
      assert s.holders[h := Holder([], Releasing)] == s.holders;
    } else {
      var s' := Returned(s, h, 0);
      FirstReturned(s, h);
      hide Returned;
      ReleaseReturnsAll(s', h);
      assert s'.holders[h := Holder([], Releasing)] == s.holders[h := Holder([], Releasing)];
    }
  }

  lemma FirstReturned(s: State, h: nat)
    requires h < |s.holders| && s.holders[h].phase == Releasing && Backed(s, s.holders[h].held)
    requires s.holders[h].held != []
    ensures var held, s' := s.holders[h].held, Returned(s, h, 0);
            && Enabled(s, Return(h, 0)) && s' == Next(s, Return(h, 0))
            && s'.holders == s.holders[h := Holder(held[1..], Releasing)] && s'.queue == s.queue
            && |s'.ledgers| == |s.ledgers| && Backed(s', held[1..])
            && forall b :: 0 <= b < |s.ledgers| ==>
                 && s'.ledgers[b].max == s.ledgers[b].max
                 && s'.ledgers[b].used - Owed(held[1..], b) == s.ledgers[b].used - Owed(held, b)
  {
    var held := s.holders[h].held;
    assert held[..0] + held[1..] == held[1..];
  }

  /** The panic of `Budget.Release` is unreachable. */
  lemma ReleaseNeverPanics(states: seq<State>, steps: seq<Step>, n: nat, h: nat, i: nat)
    requires Run(states, steps) && n <= |steps|
    requires h < |states[n].holders| && i < |states[n].holders[h].held|
    ensures var charge := states[n].holders[h].held[i];
            && charge.ledger < |states[n].ledgers|
            && CanRelease(states[n].ledgers[charge.ledger].used, charge.bytes)
  {
    var s := states[n];
    ChargeConservation(states, steps, n);
    var charge := s.holders[h].held[i];
    assert Backed(s, s.holders[h].held);
    OwedAtLeast(s, s.holders[h].held, i);
    TotalAtLeast(s, h, charge.ledger);
  }

  /** Nothing leaks: with the queue empty, nothing under construction, nothing
      taken out and unreleased, and every started release finished, all ledgers
      read zero. */
  lemma QuiescentLedgersAreEmpty(states: seq<State>, steps: seq<Step>, n: nat, b: nat)
    requires Run(states, steps) && n <= |steps| && b < |states[n].ledgers|
    requires states[n].queue.items == []
    requires forall h :: 0 <= h < |states[n].holders| ==>
               var holder := states[n].holders[h];
               holder.phase == Queued || (holder.phase == Releasing && holder.held == [])
    ensures states[n].ledgers[b].used == 0
  {
    var s := states[n];
    ChargeConservation(states, steps, n);
    forall h | 0 <= h < |s.holders| ensures s.holders[h].held == [] {
      assert !QueuedIn(s, h);
    }
    NothingOwed(s.holders, b);
  }

  // --------------------------------------------------- one step keeps the invariant

  lemma NextInv(s: State, step: Step)
    requires Inv(s) && Enabled(s, step)
    ensures Inv(Next(s, step))
  {
    NextConserved(s, step);
    NextTracked(s, step);
  }

  predicate SameHeld(s: State, s': State) {
    && s'.ledgers == s.ledgers && |s'.holders| == |s.holders|
    && forall h :: 0 <= h < |s.holders| ==> s'.holders[h].held == s.holders[h].held
  }

  lemma {:induction false} SameTotal(a: seq<Holder>, b: seq<Holder>, ledger: nat)
    requires |a| == |b| && forall h :: 0 <= h < |a| ==> a[h].held == b[h].held
    ensures TotalOwed(a, ledger) == TotalOwed(b, ledger)
  {
    if a != [] {
      assert a[0].held == b[0].held;
      SameTotal(a[1..], b[1..], ledger);
    }
  }

  lemma SameConserved(s: State, s': State)
    requires Conserved(s) && AllBacked(s) && SameHeld(s, s')
    ensures Conserved(s') && AllBacked(s')
  {
    forall b | 0 <= b < |s.ledgers| ensures TotalOwed(s'.holders, b) == TotalOwed(s.holders, b) {
      SameTotal(s'.holders, s.holders, b);
    }
    forall h | 0 <= h < |s'.holders| ensures Backed(s', s'.holders[h].held) {
      assert Backed(s, s.holders[h].held);
    }
  }

  /** Handing items over changes phases from Queued to Handed, exactly for those items. */
  lemma {:induction false} HandOverEffect(s: State, items: seq<Q.Item<nat>>)
    ensures var s' := HandOver(s, items);
            && SameHeld(s, s') && s'.queue == s.queue
            && forall h :: 0 <= h < |s.holders| ==>
                 s'.holders[h].phase ==
                   if s.holders[h].phase == Queued && (exists i :: 0 <= i < |items| && items[i].value == h) then Handed
                   else s.holders[h].phase
    decreases |items|
  {
    if items != [] {
      var h0 := items[0].value;
      var mid := if h0 < |s.holders| && s.holders[h0].phase == Queued then Phased(s, h0, Handed) else s;
      HandOverEffect(mid, items[1..]);
      var s' := HandOver(s, items);
      forall h | 0 <= h < |s.holders|
        ensures s'.holders[h].phase ==
                  if s.holders[h].phase == Queued && (exists i :: 0 <= i < |items| && items[i].value == h) then Handed
                  else s.holders[h].phase
      {
        if s.holders[h].phase == Queued && h != h0 {
          if i :| 0 <= i < |items| && items[i].value == h {
            assert items[1..][i - 1].value == h;
          }
          if i :| 0 <= i < |items| - 1 && items[1..][i].value == h {
            assert items[i + 1].value == h;
          }
        } else if h == h0 {
          assert items[0].value == h;
        }
      }
    }
  }

  lemma NextConserved(s: State, step: Step)
    requires Conserved(s) && AllBacked(s) && Enabled(s, step)
    ensures Conserved(Next(s, step)) && AllBacked(Next(s, step))
  {
    hide TotalOwed, Owed, Q.Select, Q.FirstKey, Q.Sum, HandOver;
    var s' := Next(s, step);
    match step
    case New =>
      forall b | 0 <= b < |s.ledgers| ensures TotalOwed(s'.holders, b) == TotalOwed(s.holders, b) {
        TotalAppend(s.holders, Holder([], Building), b);
        NoCharges(b);
      }
      forall h | 0 <= h < |s'.holders| ensures Backed(s', s'.holders[h].held) {
        if h < |s.holders| {
          assert Backed(s, s.holders[h].held);
        }
      }
    case Acquire(h, charge) => AcquireConserved(s, h, charge);
    case GiveBack(h) => ReturnConserved(s, h, |s.holders[h].held| - 1);
    case Return(h, i) => ReturnConserved(s, h, i);
    case Commit(r, h, bytes) =>
      if s.queue.closed {
        SameConserved(s, s');
      } else {
        CommitConserved(s, r, h, bytes);
      }
    case Coalesce(h, bytes, key) =>
      var i := Q.FirstKey(s.queue.items, key);
      var older := if i < |s.queue.items| then [s.queue.items[i]] else [];
      HandOverEffect(s.(queue := Q.Replace(s.queue, Q.Item(h, bytes, key))), older);
      SameConserved(s, s');
    case Take =>
      if s.queue.items != [] {
        HandOverEffect(s.(queue := Q.Pop(s.queue)), s.queue.items[..1]);
      }
      SameConserved(s, s');
    case Discard(remove) =>
      HandOverEffect(s.(queue := Q.RemoveWhere(s.queue, remove)), Q.Select(s.queue.items, remove, true));
      SameConserved(s, s');
    case Push(_, _) => SameConserved(s, s');
    case Reserve(_) => SameConserved(s, s');
    case Cancel(_, _) => SameConserved(s, s');
    case Close => SameConserved(s, s');
    case Release(_) => SameConserved(s, s');
  }

  lemma NoCharges(b: nat)
    ensures Owed([], b) == 0
  {
  }

  lemma AcquireConserved(s: State, h: nat, charge: Charge)
    requires Conserved(s) && AllBacked(s) && Enabled(s, Acquire(h, charge))
    ensures Conserved(Next(s, Acquire(h, charge))) && AllBacked(Next(s, Acquire(h, charge)))
  {
    hide TotalOwed, Owed;
    var s' := Next(s, Acquire(h, charge));
    var l := s.ledgers[charge.ledger];
    if CanAcquire(l.max, l.used, charge.bytes) {
      forall b | 0 <= b < |s.ledgers|
        ensures TotalOwed(s'.holders, b) == TotalOwed(s.holders, b) + if b == charge.ledger then charge.bytes else 0
      {
        TotalUpdate(s.holders, h, s'.holders[h], b);
        OwedConcat(s.holders[h].held, [charge], b);
        OwedSingle(charge, b);
      }
      forall k | 0 <= k < |s'.holders| ensures Backed(s', s'.holders[k].held) {
        assert Backed(s, s.holders[k].held);
      }
    }
  }

  lemma ReturnConserved(s: State, h: nat, i: nat)
    requires Conserved(s) && AllBacked(s) && h < |s.holders| && i < |s.holders[h].held|
    ensures Conserved(Returned(s, h, i)) && AllBacked(Returned(s, h, i))
  {
    hide TotalOwed, Owed;
    var s' := Returned(s, h, i);
    var charge := s.holders[h].held[i];
    assert Backed(s, s.holders[h].held);
    forall b | 0 <= b < |s.ledgers|
      ensures TotalOwed(s'.holders, b) == TotalOwed(s.holders, b) - if b == charge.ledger then charge.bytes else 0
    {
      TotalUpdate(s.holders, h, s'.holders[h], b);
      OwedRemove(s.holders[h].held, i, b);
    }
    forall k | 0 <= k < |s'.holders| ensures Backed(s', s'.holders[k].held) {
      assert Backed(s, s.holders[k].held);
    }
  }

  lemma CommitConserved(s: State, r: nat, h: nat, bytes: int)
    requires Conserved(s) && AllBacked(s) && Enabled(s, Commit(r, h, bytes)) && !s.queue.closed
    ensures Conserved(Next(s, Commit(r, h, bytes))) && AllBacked(Next(s, Commit(r, h, bytes)))
  {
    hide TotalOwed, Owed;
    var s' := Next(s, Commit(r, h, bytes));
    var full := Holder(s.holders[h].held + s.holders[r].held, Queued);
    var mid := s.holders[h := full];
    forall b | 0 <= b < |s.ledgers| ensures TotalOwed(s'.holders, b) == TotalOwed(s.holders, b) {
      TotalUpdate(s.holders, h, full, b);
      OwedConcat(s.holders[h].held, s.holders[r].held, b);
      TotalUpdate(mid, r, Holder([], Releasing), b);
      NoCharges(b);
    }
    assert Backed(s, s.holders[h].held) && Backed(s, s.holders[r].held);
    forall k | 0 <= k < |s'.holders| ensures Backed(s', s'.holders[k].held) {
      assert Backed(s, s.holders[k].held);
    }
  }

  lemma NextTracked(s: State, step: Step)
    requires Tracked(s) && Enabled(s, step)
    ensures Tracked(Next(s, step))
  {
    hide Q.Select, Q.FirstKey, Q.Sum, HandOver;
    match step
    case Coalesce(h, bytes, key) => CoalesceTracked(s, h, bytes, key);
    case Take => TakeTracked(s);
    case Discard(remove) => DiscardTracked(s, remove);
    case New => StillQueued(s, Next(s, step));
    case Acquire(_, _) => StillQueued(s, Next(s, step));
    case GiveBack(_) => StillQueued(s, Next(s, step));
    case Push(h, bytes) => PushTracked(s, h, bytes);
    case Commit(r, h, bytes) => CommitTracked(s, r, h, bytes);
    case Reserve(_) => StillQueued(s, Next(s, step));
    case Cancel(_, _) => StillQueued(s, Next(s, step));
    case Close => StillQueued(s, Next(s, step));
    case Release(_) => StillQueued(s, Next(s, step));
    case Return(_, _) => StillQueued(s, Next(s, step));
  }

  /** The queue is untouched and no holder is newly queued or under construction again. */
  lemma StillQueued(s: State, s': State)
    requires Tracked(s) && s'.queue.items == s.queue.items && |s.holders| <= |s'.holders|
    requires forall h :: 0 <= h < |s'.holders| && s'.holders[h].phase == Queued ==>
               h < |s.holders| && s.holders[h].phase == Queued
    requires forall h :: 0 <= h < |s.holders| && s.holders[h].phase != Building ==> s'.holders[h].phase != Building
    ensures Tracked(s')
  {
    forall h | 0 <= h < |s'.holders| && s'.holders[h].phase == Queued ensures QueuedIn(s', h) {
      assert QueuedIn(s, h);
      var i :| 0 <= i < |s.queue.items| && s.queue.items[i].value == h;
      assert s'.queue.items[i].value == h;
    }
  }

  /** A holder leaves construction by being appended to the queue. */
  lemma AppendTracked(s: State, items: seq<Q.Item<nat>>, h: nat, s': State)
    requires Tracked(s) && h < |s.holders| && s.holders[h].phase == Building
    requires |items| == |s.queue.items| + 1 && items[..|s.queue.items|] == s.queue.items
    requires items[|s.queue.items|].value == h
    requires s'.queue.items == items && |s'.holders| == |s.holders| && s'.holders[h].phase == Queued
    requires forall k :: 0 <= k < |s.holders| && k != h ==>
               || s'.holders[k].phase == s.holders[k].phase
               || (s.holders[k].phase == Building && s'.holders[k].phase == Releasing)
    ensures Tracked(s')
  {
    forall k | 0 <= k < |s'.holders| && s'.holders[k].phase == Queued ensures QueuedIn(s', k) {
      if k == h {
        assert items[|s.queue.items|].value == h;
      } else {
        assert QueuedIn(s, k);
        var i :| 0 <= i < |s.queue.items| && s.queue.items[i].value == k;
        assert items[..|s.queue.items|][i] == items[i];
      }
    }
    assert forall i :: 0 <= i < |s.queue.items| ==> items[i] == items[..|s.queue.items|][i];
  }

  lemma PushTracked(s: State, h: nat, bytes: int)
    requires Tracked(s) && Enabled(s, Push(h, bytes))
    ensures Tracked(Next(s, Push(h, bytes)))
  {
    var item := Q.Item(h, bytes, 0);
    if Q.Pushes(s.queue, item) {
      AppendTracked(s, s.queue.items + [item], h, Next(s, Push(h, bytes)));
    }
  }

  lemma CommitTracked(s: State, r: nat, h: nat, bytes: int)
    requires Tracked(s) && Enabled(s, Commit(r, h, bytes))
    ensures Tracked(Next(s, Commit(r, h, bytes)))
  {
    var s' := Next(s, Commit(r, h, bytes));
    if s.queue.closed {
      StillQueued(s, s');
    } else {
      AppendTracked(s, s.queue.items + [Q.Item(h, bytes, 0)], h, s');
    }
  }

  lemma CoalesceTracked(s: State, h: nat, bytes: int, key: nat)
    requires Tracked(s) && Enabled(s, Coalesce(h, bytes, key))
    ensures Tracked(Next(s, Coalesce(h, bytes, key)))
  {
    hide Q.FirstKey, Q.Sum, Tracked, QueuedIn, Distinct;
    var item := Q.Item(h, bytes, key);
    var i := Q.FirstKey(s.queue.items, key);
    var s' := Next(s, Coalesce(h, bytes, key));
    if Q.Replaces(s.queue, item) {
      var mid := s.(queue := Q.Replace(s.queue, item));
      if i < |s.queue.items| {
        QueuedIsBuilt(s, i);
        HandOverEffect(mid, [s.queue.items[i]]);
        ReplaceTracked(s, s', i, h);
      } else {
        assert HandOver(mid, []) == mid;
        AppendTracked(s, s.queue.items + [item], h, s');
      }
    }
  }

  lemma QueuedIsBuilt(s: State, i: nat)
    requires Tracked(s) && i < |s.queue.items|
    ensures s.queue.items[i].value < |s.holders| && s.holders[s.queue.items[i].value].phase != Building
  {
  }

  /** A built holder takes the place of a queued one, which is handed over. */
  lemma ReplaceTracked(s: State, s': State, i: nat, h: nat)
    requires Tracked(s) && i < |s.queue.items| && h < |s.holders| == |s'.holders| && s.holders[h].phase == Building
    requires |s'.queue.items| == |s.queue.items| && s'.queue.items[i].value == h && s'.holders[h].phase == Queued
    requires forall j :: 0 <= j < |s.queue.items| && j != i ==> s'.queue.items[j] == s.queue.items[j]
    requires forall k :: 0 <= k < |s.holders| && k != h && k != s.queue.items[i].value ==>
               s'.holders[k].phase == s.holders[k].phase
    requires var k := s.queue.items[i].value;
             k < |s.holders| && k != h ==> s'.holders[k].phase != Queued && s'.holders[k].phase != Building
    ensures Tracked(s')
  {
    forall k | 0 <= k < |s'.holders| && s'.holders[k].phase == Queued ensures QueuedIn(s', k) {
      if k == h {
        assert s'.queue.items[i].value == h;
      } else {
        assert QueuedIn(s, k);
        var j :| 0 <= j < |s.queue.items| && s.queue.items[j].value == k;
        assert s'.queue.items[j].value == k;
      }
    }
  }

  lemma TakeTracked(s: State)
    requires Tracked(s)
    ensures Tracked(Next(s, Take))
  {
    if s.queue.items != [] {
      var s' := Next(s, Take);
      var taken := s.queue.items[..1];
      HandOverEffect(s.(queue := Q.Pop(s.queue)), taken);
      forall k | 0 <= k < |s'.holders| && s'.holders[k].phase == Queued ensures QueuedIn(s', k) {
        assert QueuedIn(s, k);
        var j :| 0 <= j < |s.queue.items| && s.queue.items[j].value == k;
        assert taken[0].value != k;
        assert s'.queue.items[j - 1].value == k;
      }
    }
  }

  lemma DiscardTracked(s: State, remove: Q.Item<nat> -> bool)
    requires Tracked(s)
    ensures Tracked(Next(s, Discard(remove)))
  {
    hide Q.Select, Q.Sum, HandOver;
    var s' := Next(s, Discard(remove));
    var items := s.queue.items;
    var kept, gone := Q.Select(items, remove, false), Q.Select(items, remove, true);
    HandOverEffect(s.(queue := Q.RemoveWhere(s.queue, remove)), gone);
    forall k | 0 <= k < |s'.holders| && s'.holders[k].phase == Queued ensures QueuedIn(s', k) {
      assert QueuedIn(s, k);
      var j :| 0 <= j < |items| && items[j].value == k;
      var i := SelectKeeps(items, remove, j);
      assert Q.Select(items, remove, remove(items[j]))[i].value == k;
      assert !remove(items[j]);
      assert s'.queue.items[i].value == k;
    }
    forall i | 0 <= i < |kept| ensures kept[i].value < |s'.holders| && s'.holders[kept[i].value].phase != Building {
      var k := Q.SelectOrigin(items, remove, false, i);
      assert items[k].value < |s.holders|;
    }
    SelectDistinct(items, remove);
  }

  /** Every item is found among those with its own verdict. */
  lemma {:induction false} SelectKeeps(items: seq<Q.Item<nat>>, p: Q.Item<nat> -> bool, j: nat) returns (i: nat)
    requires j < |items|
    ensures i < |Q.Select(items, p, p(items[j]))| && Q.Select(items, p, p(items[j]))[i] == items[j]
  {
    if j == 0 {
      return 0;
    }
    i := SelectKeeps(items[1..], p, j - 1);
    if p(items[0]) == p(items[j]) {
      i := i + 1;
    }
  }

  lemma {:induction false} SelectDistinct(items: seq<Q.Item<nat>>, p: Q.Item<nat> -> bool)
    requires Distinct(items)
    ensures Distinct(Q.Select(items, p, false))
  {
    if items != [] {
      var tail := items[1..];
      SelectDistinct(tail, p);
      var kept := Q.Select(tail, p, false);
      forall j | 0 <= j < |kept| ensures kept[j].value != items[0].value {
        var k := Q.SelectOrigin(tail, p, false, j);
        assert tail[k] == items[k + 1];
      }
    }
  }

  // ------------------------------------------------------------------- sums

  lemma {:induction false} NothingOwed(holders: seq<Holder>, b: nat)
    requires forall h :: 0 <= h < |holders| ==> holders[h].held == []
    ensures TotalOwed(holders, b) == 0
  {
    if holders != [] {
      assert holders[0].held == [];
      NothingOwed(holders[1..], b);
    }
  }

  lemma {:induction false} OwedAtLeast(s: State, held: seq<Charge>, i: nat)
    requires Backed(s, held) && i < |held|
    ensures Owed(held, held[i].ledger) >= held[i].bytes
  {
    if i == 0 {
      OwedNonNegative(held[1..], held[0].ledger);
    } else {
      OwedAtLeast(s, held[1..], i - 1);
    }
  }

  lemma TotalAtLeast(s: State, h: nat, b: nat)
    requires h < |s.holders| && forall k :: 0 <= k < |s.holders| ==> Backed(s, s.holders[k].held)
    ensures TotalOwed(s.holders, b) >= Owed(s.holders[h].held, b)
  {
    PartialAtLeast(s, s.holders, h, b);
  }

  lemma {:induction false} PartialAtLeast(s: State, holders: seq<Holder>, h: nat, b: nat)
    requires h < |holders| && forall k :: 0 <= k < |holders| ==> Backed(s, holders[k].held)
    ensures TotalOwed(holders, b) >= Owed(holders[h].held, b)
  {
    OwedNonNegative(holders[0].held, b);
    if h > 0 {
      PartialAtLeast(s, holders[1..], h - 1, b);
    } else {
      TotalNonNegative(s, holders[1..], b);
    }
  }

  lemma {:induction false} TotalNonNegative(s: State, holders: seq<Holder>, b: nat)
    requires forall k :: 0 <= k < |holders| ==> Backed(s, holders[k].held)
    ensures TotalOwed(holders, b) >= 0
  {
    if holders != [] {
      OwedNonNegative(holders[0].held, b);
      TotalNonNegative(s, holders[1..], b);
    }
  }

  lemma {:induction false} TotalUpdate(holders: seq<Holder>, h: nat, holder: Holder, b: nat)
    requires h < |holders|
    ensures TotalOwed(holders[h := holder], b)
         == TotalOwed(holders, b) - Owed(holders[h].held, b) + Owed(holder.held, b)
  {
    if h == 0 {
      assert holders[0 := holder][1..] == holders[1..];
    } else {
      assert holders[h := holder][1..] == holders[1..][h - 1 := holder];
      TotalUpdate(holders[1..], h - 1, holder, b);
    }
  }

  lemma {:induction false} TotalAppend(holders: seq<Holder>, holder: Holder, b: nat)
    ensures TotalOwed(holders + [holder], b) == TotalOwed(holders, b) + Owed(holder.held, b)
  {
    if holders == [] {
      assert holders + [holder] == [holder];
      assert TotalOwed([holder], b) == Owed(holder.held, b) + TotalOwed([], b);
    } else {
      assert (holders + [holder])[1..] == holders[1..] + [holder];
      TotalAppend(holders[1..], holder, b);
    }
  }

  lemma {:induction false} OwedConcat(x: seq<Charge>, y: seq<Charge>, b: nat)
    ensures Owed(x + y, b) == Owed(x, b) + Owed(y, b)
  {
    if x == [] {
      assert x + y == y;
    } else {
      assert (x + y)[1..] == x[1..] + y;
      OwedConcat(x[1..], y, b);
    }
  }

  lemma OwedSingle(charge: Charge, b: nat)
    ensures Owed([charge], b) == if charge.ledger == b then charge.bytes else 0
  {
    assert Owed([charge], b) == (if charge.ledger == b then charge.bytes else 0) + Owed([], b);
  }

  lemma OwedRemove(held: seq<Charge>, i: nat, b: nat)
    requires i < |held|
    ensures Owed(held[..i] + held[i + 1..], b) == Owed(held, b) - if held[i].ledger == b then held[i].bytes else 0
  {
    OwedConcat(held[..i], held[i + 1..], b);
    OwedConcat(held[..i], held[i..], b);
    assert held == held[..i] + held[i..];
    OwedConcat([held[i]], held[i + 1..], b);
    assert held[i..] == [held[i]] + held[i + 1..];
    OwedSingle(held[i], b);
  }

  // ----------------------------------------------------------- what is accepted

  /** In every reachable state a charge is taken exactly when it is not negative and fits
      beside what all unreleased holders owe that ledger, to the last byte. */
  lemma AcquiresExactly(states: seq<State>, steps: seq<Step>, n: nat, h: nat, charge: Charge)
    requires Run(states, steps) && n < |steps| && steps[n] == Acquire(h, charge)
    ensures h < |states[n].holders| == |states[n + 1].holders| && charge.ledger < |states[n].ledgers|
    ensures var owed, max := TotalOwed(states[n].holders, charge.ledger), states[n].ledgers[charge.ledger].max;
            states[n + 1].holders[h].held
            == states[n].holders[h].held + if 0 <= charge.bytes && owed + charge.bytes <= max then [charge] else []
  {
    ChargeConservation(states, steps, n);
    assert states[n + 1] == Next(states[n], steps[n]) && Enabled(states[n], steps[n]);
    hide TotalOwed;
    assert states[n].holders[h].held + [] == states[n].holders[h].held;
  }

  /** What enters the queue is queued, with all it owes; a reservation passes what it owes to the
      holder it commits, and keeps nothing, or is itself released when the queue has closed. */
  lemma QueuedKeepsCharges(states: seq<State>, steps: seq<Step>, n: nat)
    requires Run(states, steps) && n < |steps|
    ensures steps[n].Push? && Q.Pushes(states[n].queue, Q.Item(steps[n].h, steps[n].bytes, 0)) ==>
              && steps[n].h < |states[n].holders| == |states[n + 1].holders|
              && states[n + 1].holders[steps[n].h] == Holder(states[n].holders[steps[n].h].held, Queued)
              && states[n + 1].queue.items == states[n].queue.items + [Q.Item(steps[n].h, steps[n].bytes, 0)]
    ensures steps[n].Commit? && !states[n].queue.closed ==>
              && steps[n].h < |states[n].holders| == |states[n + 1].holders| && steps[n].r < |states[n].holders|
              && states[n + 1].holders[steps[n].h]
                 == Holder(states[n].holders[steps[n].h].held + states[n].holders[steps[n].r].held, Queued)
              && states[n + 1].holders[steps[n].r] == Holder([], Releasing)
              && states[n + 1].queue.items == states[n].queue.items + [Q.Item(steps[n].h, steps[n].bytes, 0)]
    ensures steps[n].Commit? && states[n].queue.closed ==>
              && steps[n].r < |states[n].holders| == |states[n + 1].holders|
              && states[n + 1].holders
                 == states[n].holders[steps[n].r := Holder(states[n].holders[steps[n].r].held, Releasing)]
              && states[n + 1].queue.items == states[n].queue.items
  {
    assert states[n + 1] == Next(states[n], steps[n]) && Enabled(states[n], steps[n]);
  }

  // ------------------------------------------------------------- what can happen

  /** A stretch of a run, from any state. */
  ghost predicate Path(states: seq<State>, steps: seq<Step>) {
    && |states| == |steps| + 1
    && forall i :: 0 <= i < |steps| ==> Enabled(states[i], steps[i]) && states[i + 1] == Next(states[i], steps[i])
  }

  lemma Onward(s: State, step: Step, later: seq<State>, more: seq<Step>)
    requires Path(later, more) && Enabled(s, step) && later[0] == Next(s, step)
    ensures Path([s] + later, [step] + more) && ([s] + later)[|more| + 1] == later[|more|]
  {
    hide Next, Enabled;
    var states, steps := [s] + later, [step] + more;
    forall i | 0 <= i < |steps| ensures Enabled(states[i], steps[i]) && states[i + 1] == Next(states[i], steps[i]) {
      if i > 0 {
        assert states[i] == later[i - 1] && states[i + 1] == later[i - 1 + 1] && steps[i] == more[i - 1];
      }
    }
  }

  predicate AllReleased(s: State, k: nat) {
    forall h :: 0 <= h < k && h < |s.holders| ==> s.holders[h] == Holder([], Releasing)
  }

  /** From every reachable state, releasing what is held and returning its charges alone
      brings every ledger to zero. */
  lemma EverythingCanBeReturned(states: seq<State>, steps: seq<Step>, n: nat)
    returns (path: seq<State>, taken: seq<Step>)
    requires Run(states, steps) && n <= |steps|
    ensures Path(path, taken) && path[0] == states[n]
    ensures forall i :: 0 <= i < |taken| ==> taken[i].Release? || taken[i].Return?
    ensures forall b :: 0 <= b < |path[|taken|].ledgers| ==> path[|taken|].ledgers[b].used == 0
  {
    ChargeConservation(states, steps, n);
    path, taken := AllGivenBack(states[n], 0);
  }

  lemma {:induction false} AllGivenBack(s: State, k: nat) returns (path: seq<State>, taken: seq<Step>)
    requires Inv(s) && k <= |s.holders| && AllReleased(s, k)
    ensures Path(path, taken) && path[0] == s
    ensures forall i :: 0 <= i < |taken| ==> taken[i].Release? || taken[i].Return?
    ensures forall b :: 0 <= b < |path[|taken|].ledgers| ==> path[|taken|].ledgers[b].used == 0
    decreases |s.holders| - k,
              if k == |s.holders| || s.holders[k].phase == Releasing then 0 else 1,
              if k == |s.holders| then 0 else |s.holders[k].held|
  {
    if k == |s.holders| {
      forall b | 0 <= b < |s.ledgers| ensures s.ledgers[b].used == 0 {
        NothingOwed(s.holders, b);
      }
      path, taken := [s], [];
    } else if s.holders[k] == Holder([], Releasing) {
      path, taken := AllGivenBack(s, k + 1);
    } else {
      var step := if s.holders[k].phase == Releasing then Return(k, 0) else Release(k);
      NextInv(s, step);
      hide Inv;
      var later, more := AllGivenBack(Next(s, step), k);
      hide Next;
      Onward(s, step, later, more);
      path, taken := [s] + later, [step] + more;
    }
  }

  predicate Leads(s: State, step: Step, s': State) {
    Enabled(s, step) && s' == Next(s, step)
  }

  /** A new holder, given a charge that fits. */
  function Charged(s: State, charge: Charge): State
    requires charge.ledger < |s.ledgers|
  {
    SetUsed(s, charge.ledger, s.ledgers[charge.ledger].used + charge.bytes)
      .(holders := s.holders + [Holder([charge], Building)])
  }

  lemma ChargeTaken(s: State, charge: Charge)
    requires charge.ledger < |s.ledgers|
    requires CanAcquire(s.ledgers[charge.ledger].max, s.ledgers[charge.ledger].used, charge.bytes)
    ensures var s1 := s.(holders := s.holders + [Holder([], Building)]);
            Leads(s, New, s1) && Leads(s1, Acquire(|s.holders|, charge), Charged(s, charge))
  {
    var h, s1 := |s.holders|, s.(holders := s.holders + [Holder([], Building)]);
    assert [] + [charge] == [charge];
    assert s1.holders[h := Holder([charge], Building)] == s.holders + [Holder([charge], Building)];
  }

  /** The one charge of the last holder goes back. */
  lemma ChargeReturned(s: State, charge: Charge, phase: Phase)
    requires charge.ledger < |s.ledgers|
    ensures var s' := Charged(s, charge).(holders := s.holders + [Holder([charge], phase)]);
            Returned(s', |s.holders|, 0) == s.(holders := s.holders + [Holder([], phase)])
  {
    var h, b := |s.holders|, charge.ledger;
    assert [charge][..0] + [charge][1..] == [];
    assert (s.holders + [Holder([charge], phase)])[h := Holder([], phase)] == s.holders + [Holder([], phase)];
    assert s.ledgers[b := s.ledgers[b].(used := s.ledgers[b].used + charge.bytes)][b := s.ledgers[b]] == s.ledgers;
  }

  /** Capacity taken and not needed is given back: when the second ledger refuses, the first is as it was. */
  lemma RefusedChargeIsUndone(states: seq<State>, steps: seq<Step>, n: nat, charge: Charge) returns (path: seq<State>)
    requires Run(states, steps) && n <= |steps| && charge.ledger < |states[n].ledgers|
    requires var l := states[n].ledgers[charge.ledger]; CanAcquire(l.max, l.used, charge.bytes)
    ensures |path| == 4 && path[0] == states[n] && Leads(path[0], New, path[1])
    ensures Leads(path[1], Acquire(|states[n].holders|, charge), path[2])
    ensures Leads(path[2], GiveBack(|states[n].holders|), path[3])
    ensures path[3].ledgers == states[n].ledgers && path[3].queue == states[n].queue
  {
    var s := states[n];
    ChargeTaken(s, charge);
    ChargeReturned(s, charge, Building);
    var s2 := Charged(s, charge);
    hide Returned;
    path := [s, s.(holders := s.holders + [Holder([], Building)]), s2, Next(s2, GiveBack(|s.holders|))];
  }

  /** An envelope that fits is charged, queued, taken out and released, after which every
      ledger and the queue are as they were. */
  lemma EnvelopeRoundTrip(states: seq<State>, steps: seq<Step>, n: nat, charge: Charge, bytes: int)
    returns (path: seq<State>)
    requires Run(states, steps) && n <= |steps| && charge.ledger < |states[n].ledgers| && states[n].queue.items == []
    requires var l := states[n].ledgers[charge.ledger]; CanAcquire(l.max, l.used, charge.bytes)
    requires Q.Pushes(states[n].queue, Q.Item(|states[n].holders|, bytes, 0))
    ensures var h := |states[n].holders|;
            && |path| == 7 && path[0] == states[n] && Leads(path[0], New, path[1])
            && Leads(path[1], Acquire(h, charge), path[2]) && Leads(path[2], Push(h, bytes), path[3])
            && Leads(path[3], Take, path[4]) && Leads(path[4], Release(h), path[5])
            && Leads(path[5], Return(h, 0), path[6])
    ensures path[6].ledgers == states[n].ledgers && path[6].queue == states[n].queue
  {
    var s, h := states[n], |states[n].holders|;
    var s1, s2 := s.(holders := s.holders + [Holder([], Building)]), Charged(s, charge);
    var item := Q.Item(h, bytes, 0);
    var s3 := s2.(queue := Q.Append(s.queue, item), holders := s.holders + [Holder([charge], Queued)]);
    var s4 := s2.(holders := s.holders + [Holder([charge], Handed)]);
    var s5 := s2.(holders := s.holders + [Holder([charge], Releasing)]);
    var s6 := s.(holders := s.holders + [Holder([], Releasing)]);
    hide Next, Enabled, Leads, Q.Append, Charged, Q.Pushes;
    ChargeTaken(s, charge);
    EnvelopePasses(s, charge, item);
    LastReturned(s, charge);
    path := [s, s1, s2, s3, s4, s5, s6];
  }

  lemma LastReturned(s: State, charge: Charge)
    requires charge.ledger < |s.ledgers|
    ensures Leads(Charged(s, charge).(holders := s.holders + [Holder([charge], Releasing)]), Return(|s.holders|, 0),
                  s.(holders := s.holders + [Holder([], Releasing)]))
  {
    ChargeReturned(s, charge, Releasing);
    hide Returned;
  }

  lemma EnvelopePasses(s: State, charge: Charge, item: Q.Item<nat>)
    requires charge.ledger < |s.ledgers| && s.queue.items == [] && item.value == |s.holders| && item.key == 0
    requires Q.Pushes(s.queue, item)
    ensures var s2 := Charged(s, charge);
            var s3 := s2.(queue := Q.Append(s.queue, item), holders := s.holders + [Holder([charge], Queued)]);
            var s4 := s2.(holders := s.holders + [Holder([charge], Handed)]);
            var s5 := s2.(holders := s.holders + [Holder([charge], Releasing)]);
            && Leads(s2, Push(item.value, item.bytes), s3) && Leads(s3, Take, s4) && Leads(s4, Release(item.value), s5)
  {
    var s2 := Charged(s, charge);
    var h, q := |s.holders|, Q.Append(s.queue, item);
    assert s2.holders[h := Holder([charge], Queued)] == s.holders + [Holder([charge], Queued)];
    var s3 := s2.(queue := q, holders := s.holders + [Holder([charge], Queued)]);
    assert q.items == [item] && q.items[..1] == [item] && [item][1..] == [];
    assert Q.Pop(q) == s.queue;
    assert s3.holders[h := Holder([charge], Handed)] == s.holders + [Holder([charge], Handed)];
    var s4 := s2.(holders := s.holders + [Holder([charge], Handed)]);
    assert HandOver(s4, []) == s4;
    assert s4.holders[h := Holder([charge], Releasing)] == s.holders + [Holder([charge], Releasing)];
  }

  /** A reservation that is cancelled gives back its place in the queue and its charge. */
  lemma ReservationRoundTrip(states: seq<State>, steps: seq<Step>, n: nat, charge: Charge, bytes: int)
    returns (path: seq<State>)
    requires Run(states, steps) && n <= |steps| && charge.ledger < |states[n].ledgers|
    requires var l := states[n].ledgers[charge.ledger]; CanAcquire(l.max, l.used, charge.bytes)
    requires Q.Reserves(states[n].queue, bytes)
    ensures var h := |states[n].holders|;
            && |path| == 6 && path[0] == states[n] && Leads(path[0], New, path[1])
            && Leads(path[1], Acquire(h, charge), path[2]) && Leads(path[2], Reserve(bytes), path[3])
            && Leads(path[3], Cancel(h, bytes), path[4]) && Leads(path[4], Return(h, 0), path[5])
    ensures path[3].queue.reservedItems == states[n].queue.reservedItems + 1
    ensures path[3].queue.reservedBytes == states[n].queue.reservedBytes + bytes
    ensures path[5].ledgers == states[n].ledgers && path[5].queue == states[n].queue
  {
    var s, h := states[n], |states[n].holders|;
    ChargeTaken(s, charge);
    ChargeReturned(s, charge, Releasing);
    var s1, s2 := s.(holders := s.holders + [Holder([], Building)]), Charged(s, charge);
    hide Returned;
    var s3 := s2.(queue := Q.Reserve(s.queue, bytes));
    assert s2.holders[h := Holder([charge], Releasing)] == s.holders + [Holder([charge], Releasing)];
    var s4 := s2.(holders := s.holders + [Holder([charge], Releasing)]);
    path := [s, s1, s2, s3, s4, Next(s4, Return(h, 0))];
  }

  /** Closing closes the queue: nothing is pushed, replaced or reserved from then on. */
  lemma {:induction false} ClosedQueueOnlyEmpties(states: seq<State>, steps: seq<Step>, i: nat, j: nat)
    requires Run(states, steps) && i < j <= |steps| && steps[i] == Close
    ensures states[j].queue.closed && |states[j].queue.items| <= |states[i].queue.items|
  {
    assert states[j - 1 + 1] == Next(states[j - 1], steps[j - 1]);
    if i + 1 < j {
      hide Next, Enabled;
      ClosedQueueOnlyEmpties(states, steps, i, j - 1);
      ClosedStep(states[j - 1], steps[j - 1]);
    }
  }

  lemma ClosedStep(s: State, step: Step)
    requires Enabled(s, step) && s.queue.closed
    ensures Next(s, step).queue.closed && |Next(s, step).queue.items| <= |s.queue.items|
  {
    hide Returned;
    match step
    case Take => HandOverEffect(s.(queue := Q.Pop(s.queue)), s.queue.items[..if s.queue.items == [] then 0 else 1]);
    case Discard(remove) =>
      HandOverEffect(s.(queue := Q.RemoveWhere(s.queue, remove)), Q.Select(s.queue.items, remove, true));
      SelectShorter(s.queue.items, remove, false);
    case GiveBack(h) => ReturnedQueue(s, h, |s.holders[h].held| - 1);
    case Return(h, i) => ReturnedQueue(s, h, i);
    case _ =>
  }

  lemma ReturnedQueue(s: State, h: nat, i: nat)
    requires h < |s.holders| && i < |s.holders[h].held|
    ensures Returned(s, h, i).queue == s.queue
  {
  }

  lemma {:induction false} SelectShorter(items: seq<Q.Item<nat>>, p: Q.Item<nat> -> bool, wanted: bool)
    ensures |Q.Select(items, p, wanted)| <= |items|
  {
    if items != [] {
      SelectShorter(items[1..], p, wanted);
    }
  }

  /** A newer envelope under the same key takes the place of the queued one, which is handed to
      whoever replaced it for release; both keep what they owe. */
  lemma CoalescingHandsOver(states: seq<State>, steps: seq<Step>, n: nat, h: nat, bytes: int, i: nat)
    returns (s': State)
    requires Run(states, steps) && n <= |steps| && h < |states[n].holders| && states[n].holders[h].phase == Building
    requires i < |states[n].queue.items| && i == Q.FirstKey(states[n].queue.items, states[n].queue.items[i].key)
    requires Q.Replaces(states[n].queue, Q.Item(h, bytes, states[n].queue.items[i].key))
    requires states[n].queue.items[i].value < |states[n].holders|
    requires states[n].holders[states[n].queue.items[i].value].phase == Queued
    ensures var s, older := states[n], states[n].queue.items[i];
            && Leads(s, Coalesce(h, bytes, older.key), s')
            && s'.queue.items == s.queue.items[i := Q.Item(h, bytes, older.key)]
            && s'.holders == s.holders[older.value := Holder(s.holders[older.value].held, Handed)]
                                      [h := Holder(s.holders[h].held, Queued)]
            && s'.ledgers == s.ledgers
  {
    var s, older := states[n], states[n].queue.items[i];
    var item := Q.Item(h, bytes, older.key);
    assert Q.Replace(s.queue, item).items == s.queue.items[i := item];
    hide Q.FirstKey, Q.Replace, Q.Replaces;
    var mid := s.(queue := Q.Replace(s.queue, item));
    var moved := Phased(mid, older.value, Handed);
    assert [older][1..] == [] && HandOver(moved, []) == moved;
    assert HandOver(mid, [older]) == moved;
    s' := Next(s, Coalesce(h, bytes, older.key));
  }
}
