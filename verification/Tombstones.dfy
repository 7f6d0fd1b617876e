/**
 Why a closed group stays closed: a ticket lives at most 30 seconds
 (`placement/placement.go`) and the owner remembers a committed closure for 35
 (`endpoint.go`).

 One group and its owner, with synchronised clocks. A bootstrap reads the
 assignment, later stamps an expiry and signs; the owner checks the expiry and
 later looks the group up. Whatever the two delays leave of the five seconds
 between the two constants is the margin this module is about.
 */
module Tombstones {
  import opened Prelude

  const TICKET_LIFE: real := 30.0
  const TOMBSTONE_LIFE: real := 35.0

  datatype Ticket = Ticket(readAt: real, stampAt: real, expires: real)

  /** A connection past the expiry check of `authorizeAdmission` and not yet at the group table. */
  datatype Check = Check(ticket: Ticket, at: real)

  /** The owner's entry for the group; `since` is when its closure was retained. */
  datatype Entry = Absent | Present(gen: nat, closed: bool, since: Option<real>)

  datatype Closer = Closer(gen: nat, remaining: set<nat>, committed: bool)

  datatype State = State(
    clock: real,
    closedAt: Option<real>,      // when the store closed the assignment
    readers: map<nat, real>,       // bootstraps that have read an open assignment, and when
    tickets: set<Ticket>,
    checks: map<nat, Check>,
    entry: Entry,
    gens: nat,                   // group objects made so far
    live: set<nat>,
    closers: map<nat, Closer>)

  datatype Step =
    | Tick(now: real)
    | Read(p: nat)                              // Get or Assign answers with an open assignment
    | Stamp(p: nat, expires: real)              // expiry stamped, ticket signed
    | CheckExpiry(a: nat, ticket: Ticket)
    | LookUp(a: nat, room: bool)                // without room the entry is made all the same
    | End(a: nat)                               // a session closes
    | BeginClose(c: nat)
    | CloseNext(c: nat, a: nat)
    | Commit(c: nat, stored: bool, ok: bool)    // an error may hide a commit that took effect
    | Retain(c: nat)
    | Lift                                      // the tombstone's timer

  predicate Enabled(s: State, step: Step) {
    match step
    case Tick(now) => s.clock <= now
    case Read(p) => s.closedAt.None? && p !in s.readers
    case Stamp(p, expires) => p in s.readers && s.clock < expires <= s.clock + TICKET_LIFE
    case CheckExpiry(a, ticket) => a !in s.checks && a !in s.live && ticket in s.tickets && s.clock < ticket.expires
    case LookUp(a, _) => a in s.checks && a !in s.live
    case End(_) => true
    case BeginClose(c) => c !in s.closers
    case CloseNext(c, a) => c in s.closers && a in s.closers[c].remaining
    case Commit(c, stored, ok) => c in s.closers && s.closers[c].remaining == {} && (ok ==> stored)
    case Retain(c) => c in s.closers && s.closers[c].committed
    case Lift =>
      && s.entry.Present? && s.entry.closed && s.entry.since.Some?
      && s.clock >= s.entry.since.value + TOMBSTONE_LIFE
  }

  /** The entry, made if there is none. */
  function Opened(s: State): (r: State)
    ensures r == s.(entry := r.entry, gens := r.gens) && r.entry.Present?
  {
    if s.entry.Present? then s else s.(entry := Present(s.gens, false, None), gens := s.gens + 1)
  }

  function Next(s: State, step: Step): State
    requires Enabled(s, step)
  {
    match step
    case Tick(now) => s.(clock := now)
    case Read(p) => s.(readers := s.readers[p := s.clock])
    case Stamp(p, expires) =>
      s.(readers := s.readers - {p}, tickets := s.tickets + {Ticket(s.readers[p], s.clock, expires)})
    case CheckExpiry(a, ticket) => s.(checks := s.checks[a := Check(ticket, s.clock)])
    case LookUp(a, room) =>
      var s' := Opened(s).(checks := s.checks - {a});
      if s'.entry.closed || !room then s' else s'.(live := s.live + {a})
    case End(a) => s.(live := s.live - {a})
    case BeginClose(c) =>
      var s' := Opened(s);
      s'.(entry := s'.entry.(closed := true), closers := s.closers[c := Closer(s'.entry.gen, s.live, false)])
    case CloseNext(c, a) =>
      s.(live := s.live - {a}, closers := s.closers[c := s.closers[c].(remaining := s.closers[c].remaining - {a})])
    case Commit(c, stored, ok) =>
      s.(closedAt := if stored && s.closedAt.None? then Some(s.clock) else s.closedAt,
         closers := if ok then s.closers[c := s.closers[c].(committed := true)] else s.closers - {c})
    case Retain(c) =>
      var done := s.(closers := s.closers - {c});
      if s.entry.Present? && s.entry.gen == s.closers[c].gen && s.entry.closed && s.entry.since.None?
      then done.(entry := s.entry.(since := Some(s.clock))) else done
    case Lift => s.(entry := Absent)
  }

  predicate Init(s: State) {
    s == State(s.clock, None, map[], {}, map[], Absent, 0, {}, map[])
  }

  ghost predicate Run(states: seq<State>, steps: seq<Step>) {
    && |states| == |steps| + 1 && Init(states[0])
    && forall i :: 0 <= i < |steps| ==> Enabled(states[i], steps[i]) && states[i + 1] == Next(states[i], steps[i])
  }

  /** The delay from store read to expiry stamp plus that from expiry check to group lookup. */
  function Delay(s: State, a: nat): real
    requires a in s.checks
  {
    (s.checks[a].ticket.stampAt - s.checks[a].ticket.readAt) + (s.clock - s.checks[a].at)
  }

  ghost predicate Timely(states: seq<State>, steps: seq<Step>, d: real)
    requires Run(states, steps)
  {
    forall i :: 0 <= i < |steps| && steps[i].LookUp? ==> Delay(states[i], steps[i].a) <= d
  }

  // --------------------------------------------------------------- invariant

  predicate Genuine(s: State, t: Ticket) {
    t.readAt <= t.stampAt <= s.clock && t.expires <= t.stampAt + TICKET_LIFE
    && (s.closedAt.Some? ==> t.readAt <= s.closedAt.value)
  }

  ghost predicate Dated(s: State) {
    && (s.closedAt.Some? ==> s.closedAt.value <= s.clock)
    && (forall p :: p in s.readers ==>
          s.readers[p] <= s.clock && (s.closedAt.Some? ==> s.readers[p] <= s.closedAt.value))
    && (forall t :: t in s.tickets ==> Genuine(s, t))
    && (forall a :: a in s.checks ==>
          Genuine(s, s.checks[a].ticket) && s.checks[a].at <= s.clock && s.checks[a].at < s.checks[a].ticket.expires)
  }

  /** A running CloseGroup whose group object is still the current one has every live session on its list. */
  predicate Covers(s: State, c: Closer) {
    && c.gen < s.gens
    && (c.committed ==> s.closedAt.Some? && c.remaining == {})
    && (s.closedAt.None? ==> s.entry.Present? && s.entry.gen == c.gen)
    && (s.entry.Present? && s.entry.gen == c.gen ==> s.entry.closed && s.live <= c.remaining)
  }

  ghost predicate Closing(s: State) {
    forall c :: c in s.closers ==> Covers(s, s.closers[c])
  }

  /** After the store has closed, the group is fenced or the time for which its
      closure had to be remembered is over. */
  predicate Shut(s: State) {
    && (s.entry.Absent? ==> s.live == {})
    && (s.entry.Present? ==> s.entry.gen < s.gens)
    && (s.entry.Present? && s.entry.since.Some? ==>
          s.entry.closed && s.live == {} && s.closedAt.Some? && s.closedAt.value <= s.entry.since.value)
    && (s.closedAt.Some? ==>
          if s.entry.Absent? then s.clock >= s.closedAt.value + TOMBSTONE_LIFE else s.entry.closed)
  }

  ghost predicate Inv(s: State) {
    Dated(s) && Closing(s) && Shut(s)
  }

  /** The heart of it: no ticket read before the closure is still good when the tombstone goes. */
  lemma TicketsAreStale(s: State, a: nat)
    requires Dated(s) && a in s.checks && Delay(s, a) <= TOMBSTONE_LIFE - TICKET_LIFE && s.closedAt.Some?
    ensures s.clock < s.closedAt.value + TOMBSTONE_LIFE
  {
    assert Genuine(s, s.checks[a].ticket);
  }

  lemma InvStep(s: State, step: Step)
    requires Inv(s) && Enabled(s, step) && (step.LookUp? ==> Delay(s, step.a) <= TOMBSTONE_LIFE - TICKET_LIFE)
    ensures Inv(Next(s, step))
    ensures s.closedAt.Some? ==> Next(s, step).live <= s.live && Next(s, step).closedAt.Some?
  {
    DatedStep(s, step);
    hide Dated;
    match step
    case LookUp(a, room) => LookUpInv(s, a, room);
    case BeginClose(c) => BeginCloseInv(s, c);
    case Commit(c, stored, ok) => CommitInv(s, c, stored, ok);
    case Retain(c) => RetainInv(s, c);
    case CloseNext(c, a) =>
      forall x | x in Next(s, step).closers ensures Covers(Next(s, step), Next(s, step).closers[x]) {
        assert Covers(s, s.closers[x]);
      }
    case _ =>
      forall x | x in s.closers ensures Covers(Next(s, step), s.closers[x]) {
        assert Covers(s, s.closers[x]);
      }
  }

  lemma DatedStep(s: State, step: Step)
    requires Dated(s) && Enabled(s, step)
    ensures Dated(Next(s, step))
  {
    if step.Tick? || step.Commit? {
      TimePasses(s, step);
    } else if step.Read? || step.Stamp? || step.CheckExpiry? {
      PaperInv(s, step);
    }
  }

  lemma TimePasses(s: State, step: Step)
    requires Dated(s) && Enabled(s, step) && (step.Tick? || step.Commit?)
    ensures Dated(Next(s, step))
  {
    forall t | Genuine(s, t) ensures Genuine(Next(s, step), t) { }
  }

  lemma PaperInv(s: State, step: Step)
    requires Dated(s) && Enabled(s, step) && (step.Read? || step.Stamp? || step.CheckExpiry?)
    ensures Dated(Next(s, step))
  {
  }

  lemma LookUpInv(s: State, a: nat, room: bool)
    requires Dated(s) && Closing(s) && Shut(s) && Enabled(s, LookUp(a, room))
    requires Delay(s, a) <= TOMBSTONE_LIFE - TICKET_LIFE
    ensures Closing(Next(s, LookUp(a, room))) && Shut(Next(s, LookUp(a, room)))
    ensures s.closedAt.Some? ==> Next(s, LookUp(a, room)).live <= s.live
  {
    if s.closedAt.Some? {
      TicketsAreStale(s, a);
    }
    forall x | x in s.closers ensures Covers(Next(s, LookUp(a, room)), s.closers[x]) {
      assert Covers(s, s.closers[x]);
    }
  }

  lemma BeginCloseInv(s: State, c: nat)
    requires Closing(s) && Shut(s) && Enabled(s, BeginClose(c))
    ensures Closing(Next(s, BeginClose(c))) && Shut(Next(s, BeginClose(c)))
  {
    var s' := Next(s, BeginClose(c));
    forall x | x in s'.closers ensures Covers(s', s'.closers[x]) {
      if x != c {
        assert Covers(s, s.closers[x]);
      }
    }
  }

  lemma CommitInv(s: State, c: nat, stored: bool, ok: bool)
    requires Closing(s) && Shut(s) && Enabled(s, Commit(c, stored, ok))
    ensures Closing(Next(s, Commit(c, stored, ok))) && Shut(Next(s, Commit(c, stored, ok)))
  {
    assert Covers(s, s.closers[c]);
    var s' := Next(s, Commit(c, stored, ok));
    forall x | x in s'.closers ensures Covers(s', s'.closers[x]) {
      assert Covers(s, s.closers[x]);
    }
  }

  lemma RetainInv(s: State, c: nat)
    requires Dated(s) && Closing(s) && Shut(s) && Enabled(s, Retain(c))
    ensures Closing(Next(s, Retain(c))) && Shut(Next(s, Retain(c)))
  {
    assert Covers(s, s.closers[c]);
    var s' := Next(s, Retain(c));
    forall x | x in s'.closers ensures Covers(s', s'.closers[x]) {
      assert Covers(s, s.closers[x]);
    }
  }

  lemma {:induction false} InvRun(states: seq<State>, steps: seq<Step>, n: nat)
    requires Run(states, steps) && n <= |steps| && Timely(states, steps, TOMBSTONE_LIFE - TICKET_LIFE)
    ensures Inv(states[n])
  {
    hide Next, Delay;
    if n > 0 {
      InvRun(states, steps, n - 1);
      assert states[n - 1 + 1] == Next(states[n - 1], steps[n - 1]);
      assert steps[n - 1].LookUp? ==> Delay(states[n - 1], steps[n - 1].a) <= TOMBSTONE_LIFE - TICKET_LIFE;
      InvStep(states[n - 1], steps[n - 1]);
    }
  }

  // ----------------------------------------------------------------- theorems

  /** `CloseGroup` has succeeded here: its closure is committed and retained. */
  predicate Retained(s: State) {
    s.entry.Present? && s.entry.since.Some?
  }

  /** While the delays stay within the margin, a group its owner has closed has no
      session then or ever after, even once the tombstone is gone. */
  lemma {:induction false} ClosedForGood(states: seq<State>, steps: seq<Step>, i: nat, j: nat)
    requires Run(states, steps) && i <= j <= |steps| && Timely(states, steps, TOMBSTONE_LIFE - TICKET_LIFE)
    requires Retained(states[i])
    ensures states[j].live == {} && states[j].closedAt.Some?
  {
    hide Next, Delay;
    InvRun(states, steps, i);
    if i < j {
      ClosedForGood(states, steps, i, j - 1);
      InvRun(states, steps, j - 1);
      assert states[j - 1 + 1] == Next(states[j - 1], steps[j - 1]);
      InvStep(states[j - 1], steps[j - 1]);
    }
  }

  /** A run with delays at most `d` in which a `CloseGroup` has succeeded by state `i`. */
  ghost predicate ClosedAt(states: seq<State>, steps: seq<Step>, i: nat, d: real) {
    Run(states, steps) && Timely(states, steps, d) && i <= |steps| && Retained(states[i])
  }

  /** With the delays of every lookup at most `d`, a closed group stays without sessions. */
  ghost predicate Safe(d: real) {
    forall states: seq<State>, steps: seq<Step>, i: nat, j: nat ::
      ClosedAt(states, steps, i, d) && i <= j <= |steps| ==> states[j].live == {}
  }

  /** Five seconds is exactly the margin. */
  lemma MarginIsExact(d: real)
    ensures Safe(d) <==> d <= 5.0
  {
    if d <= TOMBSTONE_LIFE - TICKET_LIFE {
      forall states: seq<State>, steps: seq<Step>, i: nat, j: nat | ClosedAt(states, steps, i, d) && i <= j <= |steps|
        ensures states[j].live == {}
      {
        ClosedForGood(states, steps, i, j);
      }
    } else {
      var states, steps := LateTicket(d);
      assert ClosedAt(states, steps, 4, d) && states[10].live != {};
    }
  }

  /** A bootstrap that dawdles more than five seconds between its read and its
      stamp gets a session into a group closed 35 seconds before. */
  lemma LateTicket(d: real) returns (states: seq<State>, steps: seq<Step>)
    requires d > TOMBSTONE_LIFE - TICKET_LIFE
    ensures Run(states, steps) && Timely(states, steps, d) && |steps| == 10
    ensures Retained(states[4]) && states[10].live == {0}
  {
    var e := if d > 10.0 then 10.0 else d;
    var before, closing := Closure();
    var after, entering := Return(e);
    hide Next, Enabled;
    states, steps := before[..4] + after, closing + entering;
    forall i | 0 <= i < |steps| ensures Enabled(states[i], steps[i]) && states[i + 1] == Next(states[i], steps[i]) {
      if i >= 4 {
        assert states[i + 1] == after[i - 4 + 1];
      }
    }
  }

  const CLOSED: State := State(0.0, Some(0.0), map[0 := 0.0], {}, map[], Present(0, true, Some(0.0)), 1, {}, map[])

  ghost predicate Path(states: seq<State>, steps: seq<Step>) {
    && |states| == |steps| + 1
    && forall i :: 0 <= i < |steps| ==> Enabled(states[i], steps[i]) && states[i + 1] == Next(states[i], steps[i])
  }

  /** A bootstrap reads the assignment just before its owner closes the group. */
  lemma Closure() returns (states: seq<State>, steps: seq<Step>)
    ensures Path(states, steps) && |steps| == 4 && Init(states[0]) && states[4] == CLOSED
    ensures forall i :: 0 <= i < 4 ==> !steps[i].LookUp?
  {
    steps := [Read(0), BeginClose(0), Commit(0, true, true), Retain(0)];
    var s0 := State(0.0, None, map[], {}, map[], Absent, 0, {}, map[]);
    var s1 := s0.(readers := map[0 := 0.0]);
    var s2 := s1.(entry := Present(0, true, None), gens := 1, closers := map[0 := Closer(0, {}, false)]);
    var s3 := s2.(closedAt := Some(0.0), closers := map[0 := Closer(0, {}, true)]);
    states := [s0, s1, s2, s3, CLOSED];
    assert map[0 := Closer(0, {}, true)] - {0} == map[];
  }

  /** Its ticket, stamped `e` seconds later, is still good when the tombstone has gone. */
  lemma Return(e: real) returns (states: seq<State>, steps: seq<Step>)
    requires TOMBSTONE_LIFE - TICKET_LIFE < e <= 10.0
    ensures Path(states, steps) && |steps| == 6 && states[0] == CLOSED && states[6].live == {0}
    ensures forall i :: 0 <= i < 5 ==> !steps[i].LookUp?
    ensures steps[5] == LookUp(0, true) && Delay(states[5], 0) == e
  {
    var t := Ticket(0.0, e, e + TICKET_LIFE);
    steps := [Tick(e), Stamp(0, e + TICKET_LIFE), Tick(TOMBSTONE_LIFE), Lift, CheckExpiry(0, t), LookUp(0, true)];
    var s1 := CLOSED.(clock := e);
    var s2 := s1.(readers := map[], tickets := {t});
    var s3 := s2.(clock := TOMBSTONE_LIFE);
    var s4 := s3.(entry := Absent);
    var s5 := s4.(checks := map[0 := Check(t, TOMBSTONE_LIFE)]);
    var s6 := s5.(entry := Present(1, false, None), gens := 2, checks := map[], live := {0});
    states := [CLOSED, s1, s2, s3, s4, s5, s6];
    assert map[0 := 0.0] - {0} == map[] && map[0 := Check(t, TOMBSTONE_LIFE)] - {0} == map[];
  }

  /** The two lives: a ticket expires at most 30 seconds after its stamp, and the
      tombstone of a retained closure goes 35 seconds after it, not sooner. */
  lemma Lives(s: State, p: nat, expires: real)
    ensures Enabled(s, Stamp(p, expires)) <==> p in s.readers && s.clock < expires && expires <= s.clock + 30.0
    ensures Enabled(s, Lift) <==>
              s.entry.Present? && s.entry.closed && s.entry.since.Some? && s.clock >= s.entry.since.value + 35.0
  {
  }

  /** A checked ticket gets its bearer in exactly when the group is not fenced and there is room. */
  lemma LookUpIsExact(states: seq<State>, steps: seq<Step>, n: nat, a: nat, room: bool)
    requires Run(states, steps) && n < |steps| && steps[n] == LookUp(a, room)
    ensures a in states[n + 1].live <==> room && (states[n].entry.Absent? || !states[n].entry.closed)
    ensures states[n + 1].live == states[n].live + if a in states[n + 1].live then {a} else {}
  {
    assert states[n + 1] == Next(states[n], steps[n]);
  }

  predicate Current(s: State, c: Closer) {
    s.entry.Present? && s.entry.closed && s.entry.gen == c.gen
  }

  /** Closing fences the group at once; a committed closure of the current group object is retained. */
  lemma ClosureTakesEffect(states: seq<State>, steps: seq<Step>, n: nat, c: nat)
    requires Run(states, steps) && n < |steps|
    ensures steps[n] == BeginClose(c) ==>
              && states[n + 1].entry.Present? && states[n + 1].entry.closed
              && c in states[n + 1].closers && states[n + 1].closers[c].remaining == states[n].live
    ensures steps[n] == Retain(c) && c in states[n].closers && Current(states[n], states[n].closers[c]) ==>
              Retained(states[n + 1])
    ensures steps[n] == Commit(c, true, true) ==> states[n + 1].closedAt.Some?
  {
    assert states[n + 1] == Next(states[n], steps[n]);
  }

  /** A session that closes is live no more; no other session is touched. */
  lemma EndsAlone(states: seq<State>, steps: seq<Step>, n: nat)
    requires Run(states, steps) && n < |steps|
    ensures steps[n].End? || steps[n].CloseNext? ==> states[n + 1].live == states[n].live - {steps[n].a}
    ensures !steps[n].End? && !steps[n].CloseNext? ==> states[n].live <= states[n + 1].live
  {
    assert states[n + 1] == Next(states[n], steps[n]);
  }

  predicate Leads(s: State, step: Step, s': State) {
    Enabled(s, step) && s' == Next(s, step)
  }

  /** As long as the assignment is open and the owner has not fenced the group, a player can at
      any time read it, be given a ticket of the full 30 seconds, have it checked and get in. */
  lemma OpenGroupCanBeJoined(states: seq<State>, steps: seq<Step>, n: nat, p: nat, a: nat)
    returns (s1: State, s2: State, s3: State, s4: State)
    requires Run(states, steps) && n <= |steps| && states[n].closedAt.None? && p !in states[n].readers
    requires a !in states[n].checks && a !in states[n].live
    requires states[n].entry.Present? ==> !states[n].entry.closed
    ensures var now := states[n].clock;
            && Leads(states[n], Read(p), s1) && Leads(s1, Stamp(p, now + 30.0), s2)
            && Leads(s2, CheckExpiry(a, Ticket(now, now, now + 30.0)), s3) && Leads(s3, LookUp(a, true), s4)
    ensures s4.live == states[n].live + {a} && s4.entry.Present? && !s4.entry.closed
    ensures s4.readers == states[n].readers && s4.checks == states[n].checks
  {
    var s := states[n];
    s1 := Next(s, Read(p));
    s2 := Next(s1, Stamp(p, s.clock + 30.0));
    s3 := Next(s2, CheckExpiry(a, Ticket(s.clock, s.clock, s.clock + 30.0)));
    s4 := Next(s3, LookUp(a, true));
    assert s1.readers - {p} == s.readers;
    assert s3.checks - {a} == s.checks;
  }
}
