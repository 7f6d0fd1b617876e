/**
 `internal/runtime/queue.go`: a FIFO bounded in bytes and items, whose capacity
 can be reserved before a value exists, and whose keyed items coalesce.

 `State` is the value of a queue under its mutex and each critical section is a
 function on it; the class below is the source's own form, proved against them.
 */
module BoundedQueue {
  import opened Prelude

  /** Key 0 marks work that is never coalesced. */
  datatype Item<T> = Item(value: T, bytes: int, key: nat)

  datatype State<T> = State(items: seq<Item<T>>, maxBytes: nat, maxItems: nat, bytes: int,
                            reservedBytes: int, reservedItems: int, closed: bool)
  {
    predicate Room(more: int) {
      && |items| + reservedItems < maxItems
      && more <= maxBytes - bytes - reservedBytes
    }
  }

  function Sum<T>(items: seq<Item<T>>): int {
    if items == [] then 0 else items[0].bytes + Sum(items[1..])
  }

  // ------------------------------------------------------- critical sections

  predicate Pushes<T>(q: State<T>, item: Item<T>) {
    !q.closed && item.bytes >= 0 && q.Room(item.bytes)
  }

  function Append<T>(q: State<T>, item: Item<T>): State<T> {
    q.(items := q.items + [item], bytes := q.bytes + item.bytes)
  }

  function Push<T>(q: State<T>, item: Item<T>): State<T> {
    if Pushes(q, item) then Append(q, item) else q
  }

  predicate Reserves<T>(q: State<T>, bytes: int) {
    bytes >= 0 && !q.closed && q.Room(bytes)
  }

  function Reserve<T>(q: State<T>, bytes: int): State<T> {
    if Reserves(q, bytes) then q.(reservedItems := q.reservedItems + 1, reservedBytes := q.reservedBytes + bytes) else q
  }

  /** Ends a reservation, turning it into `item` when the queue is still open. */
  function Finish<T>(q: State<T>, bytes: int, item: Option<Item<T>>): State<T> {
    var freed := q.(reservedItems := q.reservedItems - 1, reservedBytes := q.reservedBytes - bytes);
    if item.Some? && !q.closed then Append(freed, item.value) else freed
  }

  function Pop<T>(q: State<T>): State<T> {
    if q.items == [] then q else q.(items := q.items[1..], bytes := q.bytes - q.items[0].bytes)
  }

  /** The items on which `p` has the wanted value, in order. */
  function Select<T>(items: seq<Item<T>>, p: Item<T> -> bool, wanted: bool): seq<Item<T>> {
    if items == [] then []
    else if p(items[0]) == wanted then [items[0]] + Select(items[1..], p, wanted)
    else Select(items[1..], p, wanted)
  }

  function RemoveWhere<T>(q: State<T>, remove: Item<T> -> bool): State<T> {
    var kept := Select(q.items, remove, false);
    q.(items := kept, bytes := Sum(kept))
  }

  /** Position of the first item under `key`, or the length of the list. */
  function FirstKey<T>(items: seq<Item<T>>, key: nat): (i: nat)
    ensures i <= |items|
    ensures i < |items| ==> items[i].key == key
    ensures forall j :: 0 <= j < i ==> items[j].key != key
  {
    if items == [] || items[0].key == key then 0 else 1 + FirstKey(items[1..], key)
  }

  predicate Replaces<T>(q: State<T>, item: Item<T>) {
    var i := FirstKey(q.items, item.key);
    && !q.closed && item.bytes >= 0
    && if i < |q.items| then item.bytes <= q.maxBytes - (q.bytes - q.items[i].bytes) - q.reservedBytes
       else q.Room(item.bytes)
  }

  function Replace<T>(q: State<T>, item: Item<T>): State<T> {
    var i := FirstKey(q.items, item.key);
    if !Replaces(q, item) then q
    else if i < |q.items| then q.(items := q.items[i := item], bytes := q.bytes + item.bytes - q.items[i].bytes)
    else Append(q, item)
  }

  // -------------------------------------------------------------- invariants

  /** Committed and reserved charges are accounted for and within the bounds. */
  predicate Sound<T>(q: State<T>) {
    && (forall i :: 0 <= i < |q.items| ==> q.items[i].bytes >= 0)
    && q.bytes == Sum(q.items) >= 0 && q.reservedBytes >= 0 && q.reservedItems >= 0
    && q.bytes + q.reservedBytes <= q.maxBytes
    && |q.items| + q.reservedItems <= q.maxItems
  }

  /** No key other than 0 occurs twice. */
  predicate KeysUnique<T>(items: seq<Item<T>>) {
    forall i, j :: 0 <= i < j < |items| && items[i].key == items[j].key ==> items[i].key == 0
  }

  lemma {:induction false} SumAppend<T>(a: seq<Item<T>>, b: seq<Item<T>>)
    ensures Sum(a + b) == Sum(a) + Sum(b)
  {
    if a == [] {
      assert a + b == b;
    } else {
      assert (a + b)[1..] == a[1..] + b;
      SumAppend(a[1..], b);
    }
  }

  lemma AppendSum<T>(items: seq<Item<T>>, item: Item<T>)
    ensures Sum(items + [item]) == Sum(items) + item.bytes
  {
    SumAppend(items, [item]);
    assert Sum([item]) == item.bytes + Sum<T>([]);
  }

  lemma {:induction false} UpdateSum<T>(items: seq<Item<T>>, i: nat, item: Item<T>)
    requires i < |items|
    ensures Sum(items[i := item]) == Sum(items) - items[i].bytes + item.bytes
  {
    if i == 0 {
      assert items[0 := item][1..] == items[1..];
    } else {
      assert items[i := item][1..] == items[1..][i - 1 := item];
      UpdateSum(items[1..], i - 1, item);
    }
  }

  lemma {:induction false} SumNonNegative<T>(items: seq<Item<T>>)
    requires forall i :: 0 <= i < |items| ==> items[i].bytes >= 0
    ensures Sum(items) >= 0
  {
    if items != [] {
      SumNonNegative(items[1..]);
    }
  }

  /** Where the `j`-th selected item came from. */
  lemma {:induction false} SelectOrigin<T>(items: seq<Item<T>>, p: Item<T> -> bool, wanted: bool, j: nat)
    returns (k: nat)
    requires j < |Select(items, p, wanted)|
    ensures k < |items| && items[k] == Select(items, p, wanted)[j] && p(items[k]) == wanted
  {
    if p(items[0]) == wanted {
      if j == 0 {
        return 0;
      }
      k := SelectOrigin(items[1..], p, wanted, j - 1);
    } else {
      k := SelectOrigin(items[1..], p, wanted, j);
    }
    k := k + 1;
  }

  lemma NothingSelected<T>(p: Item<T> -> bool)
    ensures Select([], p, true) == [] && Select([], p, false) == [] && Sum<T>([]) == 0
  {
  }

  /** Selecting from position `i` is deciding about that item and going on. */
  lemma SelectAt<T>(items: seq<Item<T>>, p: Item<T> -> bool, i: nat)
    requires i < |items|
    ensures forall wanted :: Select(items[i..], p, wanted)
                          == (if p(items[i]) == wanted then [items[i]] else []) + Select(items[i + 1..], p, wanted)
  {
    assert items[i..][1..] == items[i + 1..];
  }

  /** Selection keeps the order: a selected item stands before another only where it did already. */
  lemma {:induction false} SelectOrder<T>(items: seq<Item<T>>, p: Item<T> -> bool, wanted: bool, i: nat, j: nat)
    returns (k: nat, l: nat)
    requires i < j < |Select(items, p, wanted)|
    ensures k < l < |items| && p(items[k]) == p(items[l]) == wanted
    ensures items[k] == Select(items, p, wanted)[i] && items[l] == Select(items, p, wanted)[j]
  {
    var tail := items[1..];
    if p(items[0]) != wanted {
      k, l := SelectOrder(tail, p, wanted, i, j);
      k, l := k + 1, l + 1;
    } else if i > 0 {
      k, l := SelectOrder(tail, p, wanted, i - 1, j - 1);
      k, l := k + 1, l + 1;
    } else {
      l := SelectOrigin(tail, p, wanted, j - 1);
      k, l := 0, l + 1;
    }
  }

  lemma {:induction false} SelectSize<T>(items: seq<Item<T>>, p: Item<T> -> bool, wanted: bool)
    ensures |Select(items, p, wanted)| <= |items|
  {
    if items != [] {
      SelectSize(items[1..], p, wanted);
    }
  }

  lemma {:induction false} SelectSum<T>(items: seq<Item<T>>, p: Item<T> -> bool, wanted: bool)
    requires forall i :: 0 <= i < |items| ==> items[i].bytes >= 0
    ensures 0 <= Sum(Select(items, p, wanted)) <= Sum(items)
  {
    if items != [] {
      SelectSum(items[1..], p, wanted);
    }
  }

  lemma {:induction false} SelectKeys<T>(items: seq<Item<T>>, p: Item<T> -> bool, wanted: bool)
    requires KeysUnique(items)
    ensures KeysUnique(Select(items, p, wanted))
  {
    if items != [] {
      var tail := items[1..];
      assert forall i, j :: 0 <= i < j < |tail| ==> tail[i] == items[i + 1] && tail[j] == items[j + 1];
      SelectKeys(tail, p, wanted);
      var kept := Select(tail, p, wanted);
      forall j | 0 <= j < |kept| && items[0].key != 0 ensures kept[j].key != items[0].key {
        var k := SelectOrigin(tail, p, wanted, j);
        assert items[k + 1] == kept[j];
      }
    }
  }

  /** Kept and removed items together are the old items, with their charges. */
  lemma {:induction false} SelectPartitions<T>(items: seq<Item<T>>, p: Item<T> -> bool)
    ensures multiset(items) == multiset(Select(items, p, true)) + multiset(Select(items, p, false))
    ensures Sum(items) == Sum(Select(items, p, true)) + Sum(Select(items, p, false))
  {
    if items != [] {
      SelectPartitions(items[1..], p);
      assert items == [items[0]] + items[1..];
    }
  }

  // ----------------------------------------------------- every critical section

  datatype Op<!T> =
    | PushOp(item: Item<T>)
    | ReserveOp(bytes: int)
    | CommitOp(item: Item<T>)          // of a live reservation of item.bytes
    | CancelOp(bytes: int)             // of a live reservation of these bytes
    | PopOp
    | RemoveOp(remove: Item<T> -> bool)
    | ReplaceOp(item: Item<T>)
    | CloseOp

  /** A queue with the byte counts of its outstanding reservations. */
  datatype Ledger<T> = Ledger(q: State<T>, live: seq<int>)

  function Total(live: seq<int>): int {
    if live == [] then 0 else live[0] + Total(live[1..])
  }

  function Without(live: seq<int>, bytes: int): seq<int> {
    if live == [] then []
    else if live[0] == bytes then live[1..]
    else [live[0]] + Without(live[1..], bytes)
  }

  /** Commit and Cancel act on an outstanding reservation; anything else is always allowed. */
  predicate Enabled<T>(l: Ledger<T>, op: Op<T>) {
    match op
    case CommitOp(item) => item.bytes in l.live
    case CancelOp(bytes) => bytes in l.live
    case _ => true
  }

  function Apply<T>(l: Ledger<T>, op: Op<T>): Ledger<T> {
    match op
    case PushOp(item) => l.(q := Push(l.q, item))
    case ReserveOp(bytes) => if Reserves(l.q, bytes) then Ledger(Reserve(l.q, bytes), l.live + [bytes]) else l
    case CommitOp(item) => Ledger(Finish(l.q, item.bytes, Some(item)), Without(l.live, item.bytes))
    case CancelOp(bytes) => Ledger(Finish(l.q, bytes, None), Without(l.live, bytes))
    case PopOp => l.(q := Pop(l.q))
    case RemoveOp(remove) => l.(q := RemoveWhere(l.q, remove))
    case ReplaceOp(item) => l.(q := Replace(l.q, item))
    case CloseOp => l.(q := l.q.(closed := true))
  }

  predicate LedgerSound<T>(l: Ledger<T>) {
    && Sound(l.q)
    && l.q.reservedItems == |l.live| && l.q.reservedBytes == Total(l.live)
    && forall i :: 0 <= i < |l.live| ==> l.live[i] >= 0
  }

  /** Keyed items enter only through Replace, and Replace takes keyed items only. */
  predicate KeyDiscipline<T>(op: Op<T>) {
    match op
    case PushOp(item) => item.key == 0
    case CommitOp(item) => item.key == 0
    case ReplaceOp(item) => item.key != 0
    case _ => true
  }

  ghost predicate Run<T>(states: seq<Ledger<T>>, ops: seq<Op<T>>) {
    && |states| == |ops| + 1
    && states[0].live == [] && states[0].q.items == [] && states[0].q.bytes == 0
    && states[0].q.reservedItems == 0 && states[0].q.reservedBytes == 0 && !states[0].q.closed
    && forall i :: 0 <= i < |ops| ==> Enabled(states[i], ops[i]) && states[i + 1] == Apply(states[i], ops[i])
  }

  /** After every sequence of operations the counts are exact and within bounds,
      and under the key discipline no key is queued twice. */
  lemma {:induction false} QueueSafety<T>(states: seq<Ledger<T>>, ops: seq<Op<T>>, n: nat)
    requires Run(states, ops) && n <= |ops|
    ensures LedgerSound(states[n])
    ensures (forall i :: 0 <= i < n ==> KeyDiscipline(ops[i])) ==> KeysUnique(states[n].q.items)
  {
    if n > 0 {
      QueueSafety(states, ops, n - 1);
      assert states[n - 1 + 1] == Apply(states[n - 1], ops[n - 1]);
      ApplySound(states[n - 1], ops[n - 1]);
      if forall i :: 0 <= i < n ==> KeyDiscipline(ops[i]) {
        assert KeyDiscipline(ops[n - 1]);
        ApplyKeys(states[n - 1], ops[n - 1]);
      }
    }
  }

  /** A live reservation on an open queue always becomes an item, at the tail. */
  lemma LiveReservationCommits<T>(states: seq<Ledger<T>>, ops: seq<Op<T>>, n: nat, item: Item<T>)
    requires Run(states, ops) && n <= |ops|
    requires item.bytes in states[n].live && !states[n].q.closed
    ensures Apply(states[n], CommitOp(item)).q.items == states[n].q.items + [item]
    ensures LedgerSound(Apply(states[n], CommitOp(item)))
  {
    QueueSafety(states, ops, n);
    ApplySound(states[n], CommitOp(item));
  }

  lemma ApplySound<T>(l: Ledger<T>, op: Op<T>)
    requires LedgerSound(l) && Enabled(l, op)
    ensures LedgerSound(Apply(l, op))
  {
    hide Sum, FirstKey, Select, Total, Without;
    match op
    case PushOp(item) =>
      if Pushes(l.q, item) {
        AppendSound(l.q, item);
      }
    case ReserveOp(bytes) => TotalAppend(l.live, bytes);
    case CommitOp(item) =>
      WithoutTotal(l.live, item.bytes);
      var freed := Finish(l.q, item.bytes, None);
      AppendSound(freed, item);
    case CancelOp(bytes) => WithoutTotal(l.live, bytes);
    case PopOp => PopSound(l.q);
    case RemoveOp(remove) => RemoveSound(l.q, remove);
    case ReplaceOp(item) => ReplaceSound(l.q, item);
    case CloseOp =>
  }

  lemma AppendSound<T>(q: State<T>, item: Item<T>)
    requires Sound(q) && 0 <= item.bytes && q.Room(item.bytes)
    ensures Sound(Append(q, item))
  {
    AppendSum(q.items, item);
  }

  lemma RemoveSound<T>(q: State<T>, remove: Item<T> -> bool)
    requires Sound(q)
    ensures Sound(RemoveWhere(q, remove))
  {
    var kept := Select(q.items, remove, false);
    SelectSize(q.items, remove, false);
    SelectSum(q.items, remove, false);
    forall i | 0 <= i < |kept| ensures kept[i].bytes >= 0 {
      var k := SelectOrigin(q.items, remove, false, i);
    }
  }

  lemma ReplaceSound<T>(q: State<T>, item: Item<T>)
    requires Sound(q)
    ensures Sound(Replace(q, item))
  {
    var i := FirstKey(q.items, item.key);
    if Replaces(q, item) {
      if i < |q.items| {
        UpdateSum(q.items, i, item);
        SumNonNegative(q.items[i := item]);
      } else {
        AppendSound(q, item);
      }
    }
  }

  lemma PopSound<T>(q: State<T>)
    requires Sound(q)
    ensures Sound(Pop(q))
  {
    if q.items != [] {
      SumNonNegative(q.items[1..]);
    }
  }

  lemma ApplyKeys<T>(l: Ledger<T>, op: Op<T>)
    requires KeysUnique(l.q.items) && KeyDiscipline(op)
    ensures KeysUnique(Apply(l, op).q.items)
  {
    if op.RemoveOp? {
      SelectKeys(l.q.items, op.remove, false);
    }
  }

  lemma {:induction false} TotalAppend(live: seq<int>, bytes: int)
    ensures Total(live + [bytes]) == Total(live) + bytes
  {
    if live == [] {
      assert live + [bytes] == [bytes];
      assert Total([bytes]) == bytes + Total([]);
    } else {
      assert (live + [bytes])[1..] == live[1..] + [bytes];
      TotalAppend(live[1..], bytes);
    }
  }

  lemma {:induction false} WithoutTotal(live: seq<int>, bytes: int)
    requires bytes in live && forall i :: 0 <= i < |live| ==> live[i] >= 0
    ensures |Without(live, bytes)| == |live| - 1
    ensures Total(Without(live, bytes)) == Total(live) - bytes >= 0
    ensures forall i :: 0 <= i < |live| - 1 ==> Without(live, bytes)[i] >= 0
  {
    if live[0] != bytes {
      WithoutTotal(live[1..], bytes);
      var w := Without(live, bytes);
      assert w[1..] == Without(live[1..], bytes);
    } else {
      TotalNonNegative(live[1..]);
    }
  }

  lemma {:induction false} TotalNonNegative(live: seq<int>)
    requires forall i :: 0 <= i < |live| ==> live[i] >= 0
    ensures Total(live) >= 0
  {
    if live != [] {
      TotalNonNegative(live[1..]);
    }
  }

  // ------------------------------------------------------------ source form

  class Queue<T(0)> {
    var items: seq<Item<T>>
    const maxBytes: nat
    const maxItems: nat
    var bytes: int
    var reservedBytes: int
    var reservedItems: int
    var closed: bool

    ghost function View(): State<T> reads this {
      State(items, maxBytes, maxItems, bytes, reservedBytes, reservedItems, closed)
    }

    constructor (maxBytes: nat, maxItems: nat)
      ensures View() == State([], maxBytes, maxItems, 0, 0, 0, false)
    {
      this.maxBytes, this.maxItems := maxBytes, maxItems;
      items, bytes, reservedBytes, reservedItems, closed := [], 0, 0, 0, false;
    }

    method TryPush(item: Item<T>) returns (accepted: bool)
      modifies this
      ensures accepted == Pushes(old(View()), item)
      ensures View() == Push(old(View()), item)
    {
      if closed || item.bytes < 0 || |items| + reservedItems >= maxItems
         || item.bytes > maxBytes - bytes - reservedBytes
      {
        return false;
      }
      items := items + [item];
      bytes := bytes + item.bytes;
      return true;
    }

    method TryReserve(n: int) returns (reservation: Reservation?<T>)
      modifies this
      ensures reservation != null <==> Reserves(old(View()), n)
      ensures View() == Reserve(old(View()), n)
      ensures reservation != null ==>
                fresh(reservation) && reservation.queue == this && reservation.bytes == n && !reservation.done
    {
      if n < 0 {
        return null;
      }
      if closed || |items| + reservedItems >= maxItems || n > maxBytes - bytes - reservedBytes {
        return null;
      }
      reservedItems := reservedItems + 1;
      reservedBytes := reservedBytes + n;
      reservation := new Reservation(this, n);
    }

    /** `Pop` shifts the remaining items down. */
    method TryPop() returns (item: Option<Item<T>>)
      modifies this
      ensures View() == Pop(old(View()))
      ensures item == if old(items) == [] then None else Some(old(items)[0])
    {
      if |items| == 0 {
        return None;
      }
      item := Some(items[0]);
      items := items[1..];
      bytes := bytes - item.value.bytes;
    }

    /** `Remove` compacts the kept items in place and returns the others. */
    method Remove(remove: Item<T> -> bool) returns (removed: seq<Item<T>>)
      modifies this
      ensures View() == RemoveWhere(old(View()), remove)
      ensures removed == Select(old(items), remove, true)
    {
      hide Select, Sum;
      var kept: seq<Item<T>> := [];
      var total := 0;
      removed := [];
      var i := 0;
      NothingSelected(remove);
      assert items[0..] == items && [] + Select(items, remove, false) == Select(items, remove, false);
      assert [] + Select(items, remove, true) == Select(items, remove, true);
      while i < |items|
        invariant 0 <= i <= |items| && View() == old(View())
        invariant Select(items, remove, false) == kept + Select(items[i..], remove, false)
        invariant Select(items, remove, true) == removed + Select(items[i..], remove, true)
        invariant total == Sum(kept)
      {
        SelectAt(items, remove, i);
        if remove(items[i]) {
          removed := removed + [items[i]];
        } else {
          AppendSum(kept, items[i]);
          kept := kept + [items[i]];
          total := total + items[i].bytes;
        }
        i := i + 1;
      }
      assert items[i..] == [] && kept + [] == kept && removed + [] == removed;
      items, bytes := kept, total;
    }

    /** `ReplaceWith`: a refused larger replacement leaves the older item queued. */
    method ReplaceWith(item: Item<T>) returns (accepted: bool, previous: Option<Item<T>>, replaced: bool)
      modifies this
      ensures accepted == Replaces(old(View()), item)
      ensures View() == Replace(old(View()), item)
      ensures var i := FirstKey(old(items), item.key);
              && replaced == (!old(closed) && item.bytes >= 0 && i < |old(items)|)
              && previous == if accepted && i < |old(items)| then Some(old(items)[i]) else None
    {
      if closed || item.bytes < 0 {
        return false, None, false;
      }
      var i := 0;
      while i < |items|
        invariant 0 <= i <= |items| && View() == old(View())
        invariant forall j :: 0 <= j < i ==> items[j].key != item.key
      {
        var older := items[i];
        if older.key == item.key {
          assert i == FirstKey(items, item.key);
          if item.bytes > maxBytes - (bytes - older.bytes) - reservedBytes {
            return false, None, true;
          }
          items := items[i := item];
          bytes := bytes + item.bytes - older.bytes;
          return true, Some(older), true;
        }
        i := i + 1;
      }
      assert FirstKey(items, item.key) == |items|;
      if |items| + reservedItems >= maxItems || item.bytes > maxBytes - bytes - reservedBytes {
        return false, None, false;
      }
      items := items + [item];
      bytes := bytes + item.bytes;
      return true, None, false;
    }

    method Close()
      modifies this
      ensures View() == old(View()).(closed := true)
    {
      closed := true;
    }
  }

  class Reservation<T(0)> {
    const queue: Queue<T>
    const bytes: int
    var done: bool

    constructor (queue: Queue<T>, bytes: int)
      ensures this.queue == queue && this.bytes == bytes && !done
    {
      this.queue, this.bytes, done := queue, bytes, false;
    }

    /** Single use: only the first Commit or Cancel reaches the queue. */
    method Commit(item: Item<T>) returns (committed: bool)
      modifies this, queue
      ensures committed == (item.bytes == bytes && !old(done) && !old(queue.closed))
      ensures done == (old(done) || item.bytes == bytes)
      ensures queue.View() == if item.bytes == bytes && !old(done) then Finish(old(queue.View()), bytes, Some(item))
              else old(queue.View())
    {
      if item.bytes != bytes || done {
        return false;
      }
      done := true;
      queue.reservedItems := queue.reservedItems - 1;
      queue.reservedBytes := queue.reservedBytes - bytes;
      if !queue.closed {
        queue.items := queue.items + [item];
        queue.bytes := queue.bytes + item.bytes;
        return true;
      }
      return false;
    }

    method Cancel()
      modifies this, queue
      ensures done
      ensures queue.View() == if old(done) then old(queue.View()) else Finish(old(queue.View()), bytes, None)
    {
      if !done {
        done := true;
        queue.reservedItems := queue.reservedItems - 1;
        queue.reservedBytes := queue.reservedBytes - bytes;
      }
    }
  }

  // ----------------------------------------------------------- what is accepted

  /** Room for one more item of so many bytes beside what is queued and reserved. */
  predicate HasRoom<T>(l: Ledger<T>, more: int) {
    && !l.q.closed && more >= 0 && |l.q.items| + |l.live| + 1 <= l.q.maxItems
    && Sum(l.q.items) + Total(l.live) + more <= l.q.maxBytes
  }

  /** After any operations, an item is pushed and a reservation made exactly when there is room for it. */
  lemma QueueAccepts<T>(states: seq<Ledger<T>>, ops: seq<Op<T>>, n: nat)
    requires Run(states, ops) && n < |ops|
    ensures ops[n].PushOp? ==>
              && states[n + 1].live == states[n].live
              && states[n + 1].q.items
                 == states[n].q.items + if HasRoom(states[n], ops[n].item.bytes) then [ops[n].item] else []
    ensures ops[n].ReserveOp? ==>
              && states[n + 1].q.items == states[n].q.items
              && states[n + 1].live == states[n].live + if HasRoom(states[n], ops[n].bytes) then [ops[n].bytes] else []
  {
    hide Sum, Total;
    QueueSafety(states, ops, n);
    assert states[n + 1] == Apply(states[n], ops[n]);
    assert states[n].q.items + [] == states[n].q.items && states[n].live + [] == states[n].live;
  }

  /** A keyed item replaces the queued one of its key in place exactly when the queue
      can hold it instead; without one of that key it is pushed like any other. */
  lemma ReplacementIsExact<T>(states: seq<Ledger<T>>, ops: seq<Op<T>>, n: nat, item: Item<T>)
    requires Run(states, ops) && n < |ops| && ops[n] == ReplaceOp(item)
    ensures var l, items := states[n], states[n + 1].q.items;
            var i := FirstKey(l.q.items, item.key);
            if i == |l.q.items| then items == l.q.items + if HasRoom(l, item.bytes) then [item] else []
            else if && !l.q.closed && item.bytes >= 0
                    && Sum(l.q.items) - l.q.items[i].bytes + item.bytes + Total(l.live) <= l.q.maxBytes
            then items == l.q.items[i := item] else items == l.q.items
  {
    hide Sum, Total, FirstKey;
    QueueSafety(states, ops, n);
    assert states[n + 1] == Apply(states[n], ops[n]);
    assert states[n].q.items + [] == states[n].q.items;
  }

  /** Taking, committing, cancelling and closing do what they say, and the bounds are never moved. */
  lemma QueueEffects<T>(states: seq<Ledger<T>>, ops: seq<Op<T>>, n: nat)
    requires Run(states, ops) && n < |ops|
    ensures states[n + 1].q.maxItems == states[n].q.maxItems && states[n + 1].q.maxBytes == states[n].q.maxBytes
    ensures states[n + 1].q.closed <==> states[n].q.closed || ops[n].CloseOp?
    ensures ops[n].PopOp? ==>
              states[n + 1].q.items == if states[n].q.items == [] then [] else states[n].q.items[1..]
    ensures ops[n].CommitOp? ==>
              && states[n + 1].q.items == states[n].q.items + (if states[n].q.closed then [] else [ops[n].item])
              && |states[n + 1].live| == |states[n].live| - 1
              && Total(states[n + 1].live) == Total(states[n].live) - ops[n].item.bytes
    ensures ops[n].CancelOp? ==>
              && states[n + 1].q.items == states[n].q.items && |states[n + 1].live| == |states[n].live| - 1
              && Total(states[n + 1].live) == Total(states[n].live) - ops[n].bytes
  {
    hide Sum, Total, FirstKey, Without;
    QueueSafety(states, ops, n);
    assert states[n + 1] == Apply(states[n], ops[n]) && Enabled(states[n], ops[n]);
    if ops[n].CommitOp? {
      WithoutTotal(states[n].live, ops[n].item.bytes);
    }
    if ops[n].CancelOp? {
      WithoutTotal(states[n].live, ops[n].bytes);
    }
    assert states[n].q.items + [] == states[n].q.items;
  }
}
