/**
 Group placement: the first-writer-wins assignment store
 (`placement/memory/memory.go`), the bootstraps that resolve groups against it
 (`placement/placement.go`) and the owner check of a game server's admission
 (`endpoint.go`).

 Any number of bootstraps share the store. Reading, choosing, assigning and
 signing are separate steps of each, and the registry is whatever it was when a
 bootstrap looked. A verified ticket carries the fields that were signed.
 */
module Placement {
  import opened Prelude
  import opened Varint

  const DEFAULT_MAX_ASSIGNMENTS: nat := 100000

  datatype App = App(id: Bytes, version: Bytes)
  datatype Owner = Owner(id: Bytes, incarnation: Bytes, address: Bytes, serverName: Bytes)
  datatype GroupId = GroupId(app: App, key: Bytes)
  datatype Assignment = Assignment(group: GroupId, owner: Owner, closed: bool)
  datatype OwnerStatus = OwnerStatus(owner: Owner, healthy: bool, draining: bool, hasCapacity: bool)

  datatype Failure =
    | InvalidArgument | NotFound | UnsupportedVersion | GroupClosed | ResourceExhausted | Forbidden
    | ServerUnavailable | ServerDraining | Unauthenticated

  datatype Outcome<+T> = Done(value: T) | Failed(error: Failure)

  /** Assignments are keyed by application and group, not by version. */
  type Key = (Bytes, Bytes)
  type Table = map<Key, Assignment>

  // ------------------------------------------------------------------- store

  function KeyOf(g: GroupId): Key {
    (g.app.id, g.key)
  }

  predicate ValidGroup(g: GroupId) {
    g.app.id != [] && g.app.version != [] && g.key != []
  }

  predicate ValidOwner(o: Owner) {
    o.id != [] && o.address != [] && o.serverName != []
  }

  predicate SameIncarnation(a: Owner, b: Owner) {
    a.id == b.id && a.incarnation == b.incarnation
  }

  function Lookup(t: Table, g: GroupId): Outcome<Assignment> {
    if !ValidGroup(g) then Failed(InvalidArgument)
    else if KeyOf(g) !in t then Failed(NotFound)
    else if t[KeyOf(g)].group.app.version != g.app.version then Failed(UnsupportedVersion)
    else Done(t[KeyOf(g)])
  }

  function Assigned(t: Table, max: nat, g: GroupId, candidate: Owner): (Table, Outcome<Assignment>) {
    if !ValidGroup(g) || !ValidOwner(candidate) then (t, Failed(InvalidArgument))
    else
      var found := Lookup(t, g);
      if found.Done? && found.value.closed then (t, Failed(GroupClosed))
      else if found != Failed(NotFound) then (t, found)
      else if |t| >= max then (t, Failed(ResourceExhausted))
      else (t[KeyOf(g) := Assignment(g, candidate, false)], Done(Assignment(g, candidate, false)))
  }

  function ClosedBy(t: Table, g: GroupId, expected: Owner): (Table, Outcome<()>) {
    if !ValidGroup(g) || !ValidOwner(expected) then (t, Failed(InvalidArgument))
    else
      var found := Lookup(t, g);
      if found.Failed? then (t, Failed(found.error))
      else if !SameIncarnation(found.value.owner, expected) then (t, Failed(Forbidden))
      else (t[KeyOf(g) := found.value.(closed := true)], Done(()))
  }

  class Store {
    const max: nat
    var assignments: Table

    constructor (maxRecords: Option<int>)
      ensures assignments == map[] && max >= 1
      ensures max == match maxRecords case None => DEFAULT_MAX_ASSIGNMENTS case Some(n) => if n < 1 then 1 else n
    {
      var n := match maxRecords case None => DEFAULT_MAX_ASSIGNMENTS case Some(n) => n;
      if n < 1 {
        n := 1;
      }
      max, assignments := n, map[];
    }

    method Assign(g: GroupId, candidate: Owner) returns (r: Outcome<Assignment>)
      modifies this
      ensures (assignments, r) == Assigned(old(assignments), max, g, candidate)
    {
      if !ValidGroup(g) || !ValidOwner(candidate) {
        return Failed(InvalidArgument);
      }
      if KeyOf(g) in assignments {
        var existing := assignments[KeyOf(g)];
        if existing.group.app.version != g.app.version {
          return Failed(UnsupportedVersion);
        }
        if existing.closed {
          return Failed(GroupClosed);
        }
        return Done(existing);
      }
      if |assignments| >= max {
        return Failed(ResourceExhausted);
      }
      var assignment := Assignment(g, candidate, false);
      assignments := assignments[KeyOf(g) := assignment];
      return Done(assignment);
    }

    method Get(g: GroupId) returns (r: Outcome<Assignment>)
      ensures r == Lookup(assignments, g)
    {
      if !ValidGroup(g) {
        return Failed(InvalidArgument);
      }
      if KeyOf(g) !in assignments {
        return Failed(NotFound);
      }
      var assignment := assignments[KeyOf(g)];
      if assignment.group.app.version != g.app.version {
        return Failed(UnsupportedVersion);
      }
      return Done(assignment);
    }

    method Close(g: GroupId, expected: Owner) returns (r: Outcome<()>)
      modifies this
      ensures (assignments, r) == ClosedBy(old(assignments), g, expected)
    {
      if !ValidGroup(g) || !ValidOwner(expected) {
        return Failed(InvalidArgument);
      }
      if KeyOf(g) !in assignments {
        return Failed(NotFound);
      }
      var assignment := assignments[KeyOf(g)];
      if assignment.group.app.version != g.app.version {
        return Failed(UnsupportedVersion);
      }
      if assignment.owner.id != expected.id || assignment.owner.incarnation != expected.incarnation {
        return Failed(Forbidden);
      }
      assignments := assignments[KeyOf(g) := assignment.(closed := true)];
      return Done(());
    }
  }

  /** The first entry with the owner's identifier and incarnation. */
  function MatchingStatus(owner: Owner, statuses: seq<OwnerStatus>): Option<OwnerStatus> {
    if statuses == [] then None
    else if SameIncarnation(statuses[0].owner, owner) then Some(statuses[0])
    else MatchingStatus(owner, statuses[1..])
  }

  method FindStatus(owner: Owner, statuses: seq<OwnerStatus>) returns (r: Option<OwnerStatus>)
    ensures r == MatchingStatus(owner, statuses)
    ensures r.Some? ==> r.value in statuses && SameIncarnation(r.value.owner, owner)
    ensures r.None? ==> forall i :: 0 <= i < |statuses| ==> !SameIncarnation(statuses[i].owner, owner)
  {
    var i := 0;
    while i < |statuses|
      invariant 0 <= i <= |statuses|
      invariant MatchingStatus(owner, statuses) == MatchingStatus(owner, statuses[i..])
      invariant forall k :: 0 <= k < i ==> !SameIncarnation(statuses[k].owner, owner)
    {
      if SameIncarnation(statuses[i].owner, owner) {
        return Some(statuses[i]);
      }
      i := i + 1;
    }
    return None;
  }

  // ----------------------------------------------------------------- machine

  datatype Principal = Principal(issuer: Bytes, subject: Bytes)

  datatype Ticket = Ticket(app: App, principal: Principal, key: Bytes, owner: Owner)

  /** How far a `Resolve` has come; `key` is empty for a session without a group. */
  datatype Progress =
    | Looking
    | Choosing
    | Assigning(candidate: Owner)
    | Chosen(owner: Owner)

  datatype Resolver = Resolver(app: App, principal: Principal, key: Bytes, statuses: seq<OwnerStatus>,
                               progress: Progress)

  datatype Server = Server(app: App, owner: Owner, requireAdmission: bool)

  datatype Session = Session(app: App, owner: Owner, key: Bytes)

  /** An admission or a resume, as the server that granted it saw it. */
  datatype Grant = Grant(app: App, owner: Owner, key: Bytes)

  datatype State = State(
    table: Table,
    max: nat,
    resolvers: map<nat, Resolver>,
    tickets: set<Ticket>,
    sessions: map<nat, Session>,
    grants: seq<Grant>)

  datatype Step =
    | Begin(p: nat, app: App, principal: Principal, key: Bytes, statuses: seq<OwnerStatus>)
    | Read(p: nat)
    | Choose(p: nat, candidate: Owner)      // selectOwner, or whatever a custom selector answers
    | AssignTo(p: nat)
    | Sign(p: nat)
    | CloseGroup(group: GroupId, owner: Owner)
    | Admit(server: Server, id: nat, principal: Principal, key: Bytes, ticket: Option<Ticket>)
    | Resume(server: Server, id: nat)

  /** What `authorizeAdmission` of a game server accepts; expiry only narrows it. */
  predicate Admissible(server: Server, principal: Principal, key: Bytes, ticket: Option<Ticket>) {
    server.requireAdmission || key != [] ==> ticket == Some(Ticket(server.app, principal, key, server.owner))
  }

  predicate Usable(owner: Owner, statuses: seq<OwnerStatus>) {
    var status := MatchingStatus(owner, statuses);
    status.Some? && status.value.healthy && status.value.hasCapacity && !status.value.draining
  }

  predicate Enabled(s: State, step: Step) {
    match step
    case Begin(p, app, _, _, _) => p !in s.resolvers && app.id != [] && app.version != []
    case Read(p) => p in s.resolvers && s.resolvers[p].progress == Looking
    case Choose(p, _) => p in s.resolvers && s.resolvers[p].progress == Choosing
    case AssignTo(p) => p in s.resolvers && s.resolvers[p].progress.Assigning?
    case Sign(p) => p in s.resolvers && s.resolvers[p].progress.Chosen?
    case CloseGroup(_, _) => true
    case Admit(_, id, _, _, ticket) => id !in s.sessions && (ticket.Some? ==> ticket.value in s.tickets)
    case Resume(server, id) =>
      id in s.sessions && s.sessions[id].app == server.app && s.sessions[id].owner == server.owner
  }

  /** A resolver goes on with `found` or gives up with its error. */
  function Follow(s: State, p: nat, found: Outcome<Assignment>): State
    requires p in s.resolvers
  {
    if found.Done? && !found.value.closed
    then s.(resolvers := s.resolvers[p := s.resolvers[p].(progress := Chosen(found.value.owner))])
    else s.(resolvers := s.resolvers - {p})
  }

  function Next(s: State, step: Step): State
    requires Enabled(s, step)
  {
    match step
    case Begin(p, app, principal, key, statuses) =>
      var progress := if key == [] then Choosing else Looking;
      s.(resolvers := s.resolvers[p := Resolver(app, principal, key, statuses, progress)])
    case Read(p) =>
      var r := s.resolvers[p];
      var found := Lookup(s.table, GroupId(r.app, r.key));
      if found == Failed(NotFound) then s.(resolvers := s.resolvers[p := r.(progress := Choosing)])
      else Follow(s, p, found)
    case Choose(p, candidate) =>
      var r := s.resolvers[p];
      s.(resolvers := s.resolvers[p := r.(progress := if r.key == [] then Chosen(candidate) else Assigning(candidate))])
    case AssignTo(p) =>
      var r := s.resolvers[p];
      var (table, found) := Assigned(s.table, s.max, GroupId(r.app, r.key), r.progress.candidate);
      Follow(s.(table := table), p, found)
    case Sign(p) =>
      var r := s.resolvers[p];
      var ended := s.(resolvers := s.resolvers - {p});
      var ticket := Ticket(r.app, r.principal, r.key, r.progress.owner);
      if Usable(r.progress.owner, r.statuses) then ended.(tickets := s.tickets + {ticket}) else ended
    case CloseGroup(group, owner) => s.(table := ClosedBy(s.table, group, owner).0)
    case Admit(server, id, principal, key, ticket) =>
      if !Admissible(server, principal, key, ticket) then s
      else s.(sessions := s.sessions[id := Session(server.app, server.owner, key)],
              grants := s.grants + [Grant(server.app, server.owner, key)])
    case Resume(server, id) => s.(grants := s.grants + [Grant(server.app, server.owner, s.sessions[id].key)])
  }

  predicate Init(s: State) {
    s == State(map[], s.max, map[], {}, map[], []) && s.max >= 1
  }

  ghost predicate Run(states: seq<State>, steps: seq<Step>) {
    && |states| == |steps| + 1 && Init(states[0])
    && forall i :: 0 <= i < |steps| ==> Enabled(states[i], steps[i]) && states[i + 1] == Next(states[i], steps[i])
  }

  // --------------------------------------------------------------- invariant

  /** The store says that `owner` has the group `key` of application `app`. */
  predicate Owns(t: Table, app: App, key: Bytes, owner: Owner) {
    (app.id, key) in t && t[(app.id, key)].owner == owner && t[(app.id, key)].group.app == app
  }

  predicate Sure(t: Table, r: Resolver) {
    r.key != [] && r.progress.Chosen? ==> Owns(t, r.app, r.key, r.progress.owner)
  }

  ghost predicate Backed(t: Table, resolvers: map<nat, Resolver>, tickets: set<Ticket>) {
    && (forall p :: p in resolvers ==> Sure(t, resolvers[p]))
    && (forall k :: k in tickets && k.key != [] ==> Owns(t, k.app, k.key, k.owner))
  }

  ghost predicate Held(t: Table, sessions: map<nat, Session>, grants: seq<Grant>) {
    && (forall id :: id in sessions && sessions[id].key != [] ==>
          Owns(t, sessions[id].app, sessions[id].key, sessions[id].owner))
    && (forall i :: 0 <= i < |grants| && grants[i].key != [] ==> Owns(t, grants[i].app, grants[i].key, grants[i].owner))
  }

  ghost predicate Filed(t: Table, max: nat) {
    |t| <= max && forall k :: k in t ==> KeyOf(t[k].group) == k && ValidGroup(t[k].group) && ValidOwner(t[k].owner)
  }

  ghost predicate Inv(s: State) {
    Filed(s.table, s.max) && Backed(s.table, s.resolvers, s.tickets) && Held(s.table, s.sessions, s.grants)
  }

  /** Every assignment is still there with its owner and version; a closed one stays closed. */
  ghost predicate Extends(t: Table, later: Table) {
    forall k :: k in t ==>
      k in later && later[k].group == t[k].group && later[k].owner == t[k].owner && (t[k].closed ==> later[k].closed)
  }

  lemma ExtendsInv(s: State, later: Table)
    requires Backed(s.table, s.resolvers, s.tickets) && Held(s.table, s.sessions, s.grants) && Extends(s.table, later)
    ensures Backed(later, s.resolvers, s.tickets) && Held(later, s.sessions, s.grants)
  {
  }

  lemma AssignedExtends(t: Table, max: nat, g: GroupId, candidate: Owner)
    requires Filed(t, max)
    ensures var r := Assigned(t, max, g, candidate);
            && Extends(t, r.0) && Filed(r.0, max)
            && (r.1.Done? ==> !r.1.value.closed && Owns(r.0, g.app, g.key, r.1.value.owner))
  {
    hide Owns, Lookup, ValidGroup, ValidOwner;
    LookupOwns(t, max, g);
    if Lookup(t, g) == Failed(NotFound) && ValidOwner(candidate) && |t| < max {
      Inserted(t, max, g, candidate);
    }
  }

  lemma LookupOwns(t: Table, max: nat, g: GroupId)
    requires Filed(t, max)
    ensures var found := Lookup(t, g); found.Done? ==> Owns(t, g.app, g.key, found.value.owner) && ValidGroup(g)
    ensures Lookup(t, g) == Failed(NotFound) ==> KeyOf(g) !in t && ValidGroup(g)
  {
  }

  lemma Inserted(t: Table, max: nat, g: GroupId, candidate: Owner)
    requires Filed(t, max) && KeyOf(g) !in t && |t| < max && ValidGroup(g) && ValidOwner(candidate)
    ensures var later := t[KeyOf(g) := Assignment(g, candidate, false)];
            Extends(t, later) && Filed(later, max) && Owns(later, g.app, g.key, candidate)
  {
    hide ValidGroup, ValidOwner;
  }

  lemma ClosedExtends(t: Table, max: nat, g: GroupId, expected: Owner)
    requires Filed(t, max)
    ensures Extends(t, ClosedBy(t, g, expected).0) && Filed(ClosedBy(t, g, expected).0, max)
  {
    hide ValidGroup, ValidOwner, SameIncarnation;
    var found := Lookup(t, g);
    if found.Done? {
      var later := t[KeyOf(g) := found.value.(closed := true)];
      assert later.Keys == t.Keys;
      assert |later| == |t|;
    }
  }

  lemma InvStep(s: State, step: Step)
    requires Inv(s) && Enabled(s, step)
    ensures Inv(Next(s, step)) && Extends(s.table, Next(s, step).table)
  {
    match step
    case AssignTo(p) => AssignInv(s, p);
    case CloseGroup(group, owner) =>
      ClosedExtends(s.table, s.max, group, owner);
      ExtendsInv(s, Next(s, step).table);
    case Admit(_, _, _, _, _) => ServerInv(s, step);
    case Resume(_, _) => ServerInv(s, step);
    case _ => ResolverInv(s, step);
  }

  lemma AssignInv(s: State, p: nat)
    requires Inv(s) && Enabled(s, AssignTo(p))
    ensures Inv(Next(s, AssignTo(p))) && Extends(s.table, Next(s, AssignTo(p)).table)
  {
    hide Held, Extends, Filed, Assigned, Owns;
    var r := s.resolvers[p];
    AssignedExtends(s.table, s.max, GroupId(r.app, r.key), r.progress.candidate);
    ExtendsInv(s, Next(s, AssignTo(p)).table);
  }

  lemma ResolverInv(s: State, step: Step)
    requires Inv(s) && Enabled(s, step) && (step.Begin? || step.Read? || step.Choose? || step.Sign?)
    ensures Inv(Next(s, step)) && Extends(s.table, Next(s, step).table)
  {
    hide Held, Filed, Usable, Lookup, Owns, Extends;
    assert Extends(s.table, s.table) by {
      ExtendsSelf(s.table);
    }
    match step
    case Begin(p, _, _, _, _) =>
    case Read(p) => LookupOwns(s.table, s.max, GroupId(s.resolvers[p].app, s.resolvers[p].key));
    case Choose(p, _) =>
    case Sign(p) => assert Sure(s.table, s.resolvers[p]);
  }

  lemma ExtendsSelf(t: Table)
    ensures Extends(t, t)
  {
  }

  lemma ServerInv(s: State, step: Step)
    requires Inv(s) && Enabled(s, step) && (step.Admit? || step.Resume?)
    ensures Inv(Next(s, step)) && Extends(s.table, Next(s, step).table)
  {
    hide Filed;
  }

  lemma {:induction false} InvRun(states: seq<State>, steps: seq<Step>, n: nat)
    requires Run(states, steps) && n <= |steps|
    ensures Inv(states[n])
  {
    hide Next, Enabled;
    if n > 0 {
      InvRun(states, steps, n - 1);
      assert states[n - 1 + 1] == Next(states[n - 1], steps[n - 1]);
      InvStep(states[n - 1], steps[n - 1]);
    }
  }

  // ----------------------------------------------------------------- theorems

  /** First writer wins: an assignment never changes its owner, version or group
      and never goes away; closing it is for good; the store stays within its size. */
  lemma {:induction false} AssignmentsAreFinal(states: seq<State>, steps: seq<Step>, i: nat, j: nat)
    requires Run(states, steps) && i <= j <= |steps|
    ensures Extends(states[i].table, states[j].table) && |states[j].table| <= states[j].max == states[i].max
  {
    hide Next, Enabled, Inv;
    if i == j {
      InvRun(states, steps, i);
      StoreFits(states[i]);
    } else {
      AssignmentsAreFinal(states, steps, i, j - 1);
      InvRun(states, steps, j - 1);
      assert states[j - 1 + 1] == Next(states[j - 1], steps[j - 1]);
      InvStep(states[j - 1], steps[j - 1]);
      StoreFits(states[j]);
      SameMax(states[j - 1], steps[j - 1]);
    }
  }

  lemma StoreFits(s: State)
    requires Inv(s)
    ensures |s.table| <= s.max
  {
  }

  lemma SameMax(s: State, step: Step)
    requires Enabled(s, step)
    ensures Next(s, step).max == s.max
  {
  }

  /** No split ownership: whatever the bootstraps, the registry and the servers do,
      all tickets signed for one group of one application name one owner and one
      version, and every admission to it and every resume in it, on any game
      server, was granted by that owner. */
  lemma NoSplitOwnership(states: seq<State>, steps: seq<Step>, n: nat)
    requires Run(states, steps) && n <= |steps|
    ensures forall a, b :: a in states[n].tickets && b in states[n].tickets && SameGroup(a.app, a.key, b.app, b.key) ==>
              a.owner == b.owner && a.app == b.app
    ensures var g := states[n].grants;
            forall i, j :: 0 <= i < |g| && 0 <= j < |g| && SameGroup(g[i].app, g[i].key, g[j].app, g[j].key) ==>
              g[i].owner == g[j].owner && g[i].app == g[j].app
    ensures var g := states[n].grants;
            forall k, i :: k in states[n].tickets && 0 <= i < |g| && SameGroup(k.app, k.key, g[i].app, g[i].key) ==>
              k.owner == g[i].owner
  {
    InvRun(states, steps, n);
  }

  predicate SameGroup(app: App, key: Bytes, app': App, key': Bytes) {
    app.id == app'.id && key == key' && key != []
  }

  /** Every ticket was signed by a bootstrap for its own principal and application,
      and names an owner its snapshot showed healthy, with capacity and not draining. */
  lemma {:induction false} TicketsNameUsableOwners(states: seq<State>, steps: seq<Step>, n: nat, t: Ticket)
    returns (j: nat)
    requires Run(states, steps) && n <= |steps| && t in states[n].tickets
    ensures j < n && steps[j].Sign? && steps[j].p in states[j].resolvers
    ensures var r := states[j].resolvers[steps[j].p];
            && r.progress == Chosen(t.owner) && Usable(t.owner, r.statuses)
            && r.app == t.app && r.principal == t.principal && r.key == t.key
  {
    hide Usable;
    assert n > 0;
    assert states[n - 1 + 1] == Next(states[n - 1], steps[n - 1]) && Enabled(states[n - 1], steps[n - 1]);
    if t in states[n - 1].tickets {
      j := TicketsNameUsableOwners(states, steps, n - 1, t);
    } else {
      j := n - 1;
    }
  }

  /** Once the store has closed a group, no bootstrap that has yet to read it signs a ticket for it. */
  lemma ClosedGroupIsRefused(states: seq<State>, steps: seq<Step>, i: nat, j: nat, p: nat)
    requires Run(states, steps) && i <= j < |steps| && p in states[j].resolvers && Enabled(states[j], steps[j])
    requires steps[j] == Read(p) || steps[j] == AssignTo(p)
    requires var r := states[j].resolvers[p];
             (r.app.id, r.key) in states[i].table && states[i].table[(r.app.id, r.key)].closed && r.key != []
    ensures p !in Next(states[j], steps[j]).resolvers
  {
    AssignmentsAreFinal(states, steps, i, j);
  }

  // ---------------------------------------------------------- what must happen

  predicate Leads(s: State, step: Step, s': State) {
    Enabled(s, step) && s' == Next(s, step)
  }

  /** Closing closes: an open assignment is closed by a step exactly when that step is
      the closing of its group, application and version by its own incarnation. */
  lemma ClosingIsExact(states: seq<State>, steps: seq<Step>, n: nat, k: Key)
    requires Run(states, steps) && n < |steps| && k in states[n].table && !states[n].table[k].closed
    ensures k in states[n + 1].table
    ensures states[n + 1].table[k].closed <==>
              var a := states[n].table[k];
              && steps[n].CloseGroup? && steps[n].group == GroupId(a.group.app, k.1) && ValidOwner(steps[n].owner)
              && steps[n].owner.id == a.owner.id && steps[n].owner.incarnation == a.owner.incarnation
  {
    InvRun(states, steps, n);
    var s, step := states[n], steps[n];
    assert states[n + 1] == Next(s, step) && KeyOf(s.table[k].group) == k && ValidGroup(s.table[k].group);
    if step.AssignTo? {
      var r := s.resolvers[step.p];
      OnlyItsKey(s.table, s.max, GroupId(r.app, r.key), r.progress.candidate, k);
    }
  }

  lemma OnlyItsKey(t: Table, max: nat, g: GroupId, candidate: Owner, k: Key)
    requires k in t
    ensures k in Assigned(t, max, g, candidate).0 && Assigned(t, max, g, candidate).0[k] == t[k]
  {
  }

  /** A step changes no assignment but the one it closes and adds none but the one it assigns. */
  lemma OtherAssignmentsStay(states: seq<State>, steps: seq<Step>, n: nat, k: Key)
    requires Run(states, steps) && n < |steps|
    requires steps[n].CloseGroup? ==> KeyOf(steps[n].group) != k
    requires steps[n].AssignTo? && steps[n].p in states[n].resolvers ==>
               var r := states[n].resolvers[steps[n].p]; (r.app.id, r.key) != k
    ensures k in states[n + 1].table <==> k in states[n].table
    ensures k in states[n].table ==> states[n + 1].table[k] == states[n].table[k]
  {
    assert states[n + 1] == Next(states[n], steps[n]);
  }

  /** From the step that closes a group for its owner, no bootstrap that reads or
      assigns it afterwards gets any further. */
  lemma ClosedByItsOwner(states: seq<State>, steps: seq<Step>, i: nat, j: nat, g: GroupId, o: Owner, p: nat)
    requires Run(states, steps) && i < j < |steps| && steps[i] == CloseGroup(g, o) && ValidGroup(g) && ValidOwner(o)
    requires Owns(states[i].table, g.app, g.key, o)
    requires steps[j] == Read(p) || steps[j] == AssignTo(p)
    requires p in states[j].resolvers
    requires states[j].resolvers[p].app.id == g.app.id && states[j].resolvers[p].key == g.key
    ensures p !in states[j + 1].resolvers
  {
    assert states[j + 1] == Next(states[j], steps[j]) && states[i + 1] == Next(states[i], steps[i]);
    InvRun(states, steps, i);
    var k := (g.app.id, g.key);
    assert states[i + 1].table[k].closed;
    ClosedGroupIsRefused(states, steps, i + 1, j, p);
  }

  /** A bootstrap that finds an open assignment of its version follows it; one that
      finds none goes on to choose. */
  lemma ReadFollows(states: seq<State>, steps: seq<Step>, n: nat, p: nat)
    requires Run(states, steps) && n < |steps| && steps[n] == Read(p)
    requires p in states[n].resolvers && states[n].resolvers[p].key != []
    ensures var r, t, rs := states[n].resolvers[p], states[n].table, states[n + 1].resolvers;
            var k := (r.app.id, r.key);
            if k !in t then p in rs && rs[p].progress == Choosing
            else if t[k].group.app == r.app && !t[k].closed then p in rs && rs[p].progress == Chosen(t[k].owner)
            else p !in rs
  {
    InvRun(states, steps, n);
    RequestsAreValid(states, steps, n, p);
    var s := states[n];
    var k := (s.resolvers[p].app.id, s.resolvers[p].key);
    assert states[n + 1] == Next(s, steps[n]);
    assert k in s.table ==> KeyOf(s.table[k].group) == k;
  }

  lemma {:induction false} RequestsAreValid(states: seq<State>, steps: seq<Step>, n: nat, p: nat)
    requires Run(states, steps) && n <= |steps| && p in states[n].resolvers
    ensures states[n].resolvers[p].app.id != [] && states[n].resolvers[p].app.version != []
  {
    if n > 0 {
      assert states[n - 1 + 1] == Next(states[n - 1], steps[n - 1]);
      if p in states[n - 1].resolvers {
        RequestsAreValid(states, steps, n - 1, p);
        StillValid(states[n - 1], steps[n - 1], p);
      }
    }
  }

  lemma StillValid(s: State, step: Step, p: nat)
    requires Enabled(s, step) && p in s.resolvers && p in Next(s, step).resolvers
    ensures Next(s, step).resolvers[p].app == s.resolvers[p].app
  {
  }

  /** The first writer wins and the others follow: assigning to a valid candidate
      yields the open assignment there is, or the candidate where there is none and room. */
  lemma AssignFollows(states: seq<State>, steps: seq<Step>, n: nat, p: nat, candidate: Owner)
    requires Run(states, steps) && n < |steps| && steps[n] == AssignTo(p)
    requires p in states[n].resolvers && states[n].resolvers[p].key != [] && ValidOwner(candidate)
    requires states[n].resolvers[p].progress == Assigning(candidate)
    ensures var r, t, rs := states[n].resolvers[p], states[n].table, states[n + 1].resolvers;
            var k := (r.app.id, r.key);
            if k in t then
              if t[k].group.app == r.app && !t[k].closed then p in rs && rs[p].progress == Chosen(t[k].owner)
              else p !in rs
            else if |t| < states[n].max then
              && p in rs && rs[p].progress == Chosen(candidate)
              && states[n + 1].table == t[k := Assignment(GroupId(r.app, r.key), candidate, false)]
            else p !in rs
  {
    InvRun(states, steps, n);
    RequestsAreValid(states, steps, n, p);
    var s := states[n];
    var k := (s.resolvers[p].app.id, s.resolvers[p].key);
    assert states[n + 1] == Next(s, steps[n]);
    assert k in s.table ==> KeyOf(s.table[k].group) == k;
  }

  /** An owner is usable when the first entry of its incarnation says healthy, with capacity, not draining. */
  lemma {:induction false} UsableMeans(owner: Owner, statuses: seq<OwnerStatus>)
    ensures Usable(owner, statuses) <==> exists i :: UsableAt(owner, statuses, i)
  {
    if statuses != [] {
      var rest := statuses[1..];
      if statuses[0].owner.id == owner.id && statuses[0].owner.incarnation == owner.incarnation {
        if Usable(owner, statuses) {
          assert UsableAt(owner, statuses, 0);
        }
        if i :| UsableAt(owner, statuses, i) {
          assert i == 0;
        }
      } else {
        UsableMeans(owner, rest);
        if i :| UsableAt(owner, rest, i) {
          assert UsableAt(owner, statuses, i + 1);
        }
        if i :| UsableAt(owner, statuses, i) {
          assert i > 0 && UsableAt(owner, rest, i - 1);
        }
      }
    }
  }

  predicate UsableAt(owner: Owner, statuses: seq<OwnerStatus>, i: int) {
    && 0 <= i < |statuses| && statuses[i].owner.id == owner.id && statuses[i].owner.incarnation == owner.incarnation
    && statuses[i].healthy && statuses[i].hasCapacity && !statuses[i].draining
    && forall k :: 0 <= k < i ==> statuses[k].owner.id != owner.id || statuses[k].owner.incarnation != owner.incarnation
  }

  /** From every reachable state a group that nobody has yet, with room in the store, can
      be placed on any usable valid owner and joined there; the steps are those of
      one `Resolve` and one admission. */
  lemma GroupCanBePlaced(states: seq<State>, steps: seq<Step>, n: nat, p: nat, request: Resolver, o: Owner, id: nat)
    returns (path: seq<State>)
    requires Run(states, steps) && n <= |steps| && p !in states[n].resolvers && id !in states[n].sessions
    requires request.app.id != [] && request.app.version != [] && request.key != [] && ValidOwner(o)
    requires Usable(o, request.statuses)
    requires (request.app.id, request.key) !in states[n].table && |states[n].table| < states[n].max
    ensures |path| == 7 && path[0] == states[n]
    ensures Leads(path[0], Begin(p, request.app, request.principal, request.key, request.statuses), path[1])
    ensures Leads(path[1], Read(p), path[2]) && Leads(path[2], Choose(p, o), path[3])
    ensures Leads(path[3], AssignTo(p), path[4]) && Leads(path[4], Sign(p), path[5])
    ensures var ticket := Ticket(request.app, request.principal, request.key, o);
            var server := Server(request.app, o, true);
            && ticket in path[5].tickets
            && Leads(path[5], Admit(server, id, request.principal, request.key, Some(ticket)), path[6])
            && id in path[6].sessions && path[6].sessions[id] == Session(request.app, o, request.key)
            && Owns(path[6].table, request.app, request.key, o)
  {
    hide Next, Enabled, Usable;
    var s := states[n];
    var ticket := Ticket(request.app, request.principal, request.key, o);
    var s1 := At(s, p, request.(progress := Looking));
    var s2 := At(s, p, request.(progress := Choosing));
    var s3 := At(s, p, request.(progress := Assigning(o)));
    var s4 := At(Given(s, request, o), p, request.(progress := Chosen(o)));
    var s5 := Given(s, request, o).(resolvers := s4.resolvers - {p}, tickets := s.tickets + {ticket});
    Asked(s, p, request, o);
    Answered(s, p, request, o);
    var s6 := Joined(s5, id, request, o);
    path := [s, s1, s2, s3, s4, s5, s6];
  }

  /** `s` with resolver `p` at `r`. */
  function At(s: State, p: nat, r: Resolver): State {
    s.(resolvers := s.resolvers[p := r])
  }

  /** `s` with the group of `request` assigned to `o`. */
  function Given(s: State, request: Resolver, o: Owner): State {
    s.(table := s.table[(request.app.id, request.key) := Assignment(GroupId(request.app, request.key), o, false)])
  }

  lemma Asked(s: State, p: nat, request: Resolver, o: Owner)
    requires p !in s.resolvers && request.app.id != [] && request.app.version != [] && request.key != []
    requires (request.app.id, request.key) !in s.table
    ensures Leads(s, Begin(p, request.app, request.principal, request.key, request.statuses),
                  At(s, p, request.(progress := Looking)))
    ensures Leads(At(s, p, request.(progress := Looking)), Read(p), At(s, p, request.(progress := Choosing)))
    ensures Leads(At(s, p, request.(progress := Choosing)), Choose(p, o), At(s, p, request.(progress := Assigning(o))))
  {
    Overwrites(s, p, request.(progress := Looking), request.(progress := Choosing));
    Overwrites(s, p, request.(progress := Choosing), request.(progress := Assigning(o)));
  }

  lemma Overwrites(s: State, p: nat, a: Resolver, b: Resolver)
    ensures At(At(s, p, a), p, b) == At(s, p, b)
  {
    assert s.resolvers[p := a][p := b] == s.resolvers[p := b];
  }

  lemma Answered(s: State, p: nat, request: Resolver, o: Owner)
    requires request.app.id != [] && request.app.version != [] && request.key != [] && ValidOwner(o)
    requires (request.app.id, request.key) !in s.table && |s.table| < s.max && Usable(o, request.statuses)
    ensures var s4 := At(Given(s, request, o), p, request.(progress := Chosen(o)));
            var ticket := Ticket(request.app, request.principal, request.key, o);
            var s5 := Given(s, request, o).(resolvers := s4.resolvers - {p}, tickets := s.tickets + {ticket});
            && Leads(At(s, p, request.(progress := Assigning(o))), AssignTo(p), s4)
            && Leads(s4, Sign(p), s5)
  {
    hide Usable;
    var waiting, chosen := request.(progress := Assigning(o)), request.(progress := Chosen(o));
    Overwrites(Given(s, request, o), p, waiting, chosen);
  }

  lemma Joined(s: State, id: nat, request: Resolver, o: Owner) returns (s': State)
    requires id !in s.sessions && Ticket(request.app, request.principal, request.key, o) in s.tickets
    ensures var ticket := Ticket(request.app, request.principal, request.key, o);
            var server := Server(request.app, o, true);
            Leads(s, Admit(server, id, request.principal, request.key, Some(ticket)), s')
    ensures id in s'.sessions && s'.sessions[id] == Session(request.app, o, request.key) && s'.table == s.table
  {
    var ticket := Ticket(request.app, request.principal, request.key, o);
    s' := Next(s, Admit(Server(request.app, o, true), id, request.principal, request.key, Some(ticket)));
  }

  /** A game server admits exactly whom it may: without a group and without a demand
      for tickets anybody, otherwise the bearer of a ticket for just this application,
      principal, group and owner; and it then holds the session. */
  lemma AdmitsExactly(states: seq<State>, steps: seq<Step>, n: nat)
    requires Run(states, steps) && n < |steps| && steps[n].Admit?
    ensures var server, id := steps[n].server, steps[n].id;
            var ticket := Ticket(server.app, steps[n].principal, steps[n].key, server.owner);
            if (steps[n].key == [] && !server.requireAdmission) || steps[n].ticket == Some(ticket)
            then && id in states[n + 1].sessions
                 && states[n + 1].sessions[id] == Session(server.app, server.owner, steps[n].key)
                 && states[n + 1].grants == states[n].grants + [Grant(server.app, server.owner, steps[n].key)]
            else states[n + 1] == states[n]
  {
    assert states[n + 1] == Next(states[n], steps[n]);
  }

  /** How the store answers, cause by cause: what it says is what it did. */
  lemma StoreAnswers(t: Table, max: nat, g: GroupId, o: Owner)
    requires g.app.id != [] && g.app.version != [] && g.key != [] && o.id != [] && o.address != [] && o.serverName != []
    ensures var k, closing, assigning := (g.app.id, g.key), ClosedBy(t, g, o).1, Assigned(t, max, g, o).1;
            if k !in t then
              && Lookup(t, g) == Failed(NotFound) && closing == Failed(NotFound)
              && assigning == if |t| < max then Done(Assignment(g, o, false)) else Failed(ResourceExhausted)
            else if t[k].group.app.version != g.app.version then
              && Lookup(t, g) == Failed(UnsupportedVersion)
              && closing == Failed(UnsupportedVersion) && assigning == Failed(UnsupportedVersion)
            else
              && Lookup(t, g) == Done(t[k])
              && assigning == (if t[k].closed then Failed(GroupClosed) else Done(t[k]))
              && closing == if t[k].owner.id == o.id && t[k].owner.incarnation == o.incarnation then Done(())
                            else Failed(Forbidden)
    ensures ClosedBy(t, g, o).1.Failed? ==> ClosedBy(t, g, o).0 == t
    ensures ClosedBy(t, g, o).1.Done? ==>
              KeyOf(g) in t && ClosedBy(t, g, o).0 == t[(g.app.id, g.key) := t[(g.app.id, g.key)].(closed := true)]
  {
  }

  /** A group or owner with an empty part is refused before anything else is looked at. */
  lemma InvalidIsRefused(t: Table, max: nat, g: GroupId, o: Owner)
    ensures g.app.id == [] || g.app.version == [] || g.key == [] ==>
              && Lookup(t, g) == Failed(InvalidArgument) && Assigned(t, max, g, o) == (t, Failed(InvalidArgument))
              && ClosedBy(t, g, o) == (t, Failed(InvalidArgument))
    ensures o.id == [] || o.address == [] || o.serverName == [] ==>
              && Assigned(t, max, g, o) == (t, Failed(InvalidArgument))
              && ClosedBy(t, g, o) == (t, Failed(InvalidArgument))
  {
  }

  /** A resume at the session's own server renews its grant and changes nothing else. */
  lemma ResumeIsGranted(states: seq<State>, steps: seq<Step>, n: nat, server: Server, id: nat)
    requires Run(states, steps) && n < |steps| && steps[n] == Resume(server, id)
    ensures id in states[n].sessions
    ensures var session := states[n].sessions[id];
            && session.app == server.app && session.owner == server.owner
            && states[n + 1]
               == states[n].(grants := states[n].grants + [Grant(session.app, session.owner, session.key)])
  {
    assert states[n + 1] == Next(states[n], steps[n]) && Enabled(states[n], steps[n]);
  }

  /** Without a group no assignment is asked for: from every reachable state a player can be given
      any usable owner and be let in, with the ticket where one is demanded and without it elsewhere. */
  lemma LonePlayerCanJoin(states: seq<State>, steps: seq<Step>, n: nat, p: nat, request: Resolver, o: Owner, id: nat,
                          demanded: bool)
    returns (path: seq<State>)
    requires Run(states, steps) && n <= |steps| && p !in states[n].resolvers && id !in states[n].sessions
    requires request.app.id != [] && request.app.version != [] && request.key == [] && Usable(o, request.statuses)
    ensures |path| == 6 && path[0] == states[n]
    ensures Leads(path[0], Begin(p, request.app, request.principal, [], request.statuses), path[1])
    ensures Leads(path[1], Choose(p, o), path[2]) && Leads(path[2], Sign(p), path[3])
    ensures var ticket := if demanded then Some(Ticket(request.app, request.principal, [], o)) else None;
            var server := Server(request.app, o, demanded);
            && Leads(path[3], Admit(server, id, request.principal, [], ticket), path[4])
            && Leads(path[4], Resume(server, id), path[5])
            && id in path[5].sessions && path[5].sessions[id] == Session(request.app, o, [])
    ensures path[5].table == states[n].table
  {
    hide Usable;
    var s := states[n];
    var ticket := if demanded then Some(Ticket(request.app, request.principal, [], o)) else None;
    var server := Server(request.app, o, demanded);
    var s1 := Next(s, Begin(p, request.app, request.principal, [], request.statuses));
    var s2 := Next(s1, Choose(p, o));
    var s3 := Next(s2, Sign(p));
    var s4 := Next(s3, Admit(server, id, request.principal, [], ticket));
    path := [s, s1, s2, s3, s4, Next(s4, Resume(server, id))];
  }
}
