/**
 The server's registry (`endpoint.go`): admission, capacity, group closure with
 tombstones, the terminal-identifier cache, drain and revoke.

 A step is a critical section. Admission and the resume commit hold the group
 mutex throughout, so each is one step; `CloseGroup`, `Revoke`, a refresh and
 the removal of a closed session let go of their locks and are split where they
 do. Sessions and group objects are numbered as they are made; session
 identifiers are drawn fresh.
 */
module Registry {
  import opened Prelude

  const TERMINAL_TTL: nat := 30

  const NORMAL: nat := 0
  const FORBIDDEN: nat := 5
  const SESSION_NOT_FOUND: nat := 7
  const SESSION_EXPIRED: nat := 8
  const SERVER_DRAINING: nat := 10
  const GROUP_CLOSED: nat := 19
  const RESOURCE_EXHAUSTED: nat := 20

  datatype Limits = Limits(maxSessions: nat, maxActiveGroups: nat)

  datatype Session = Session(issuer: string, subject: string, group: string, handle: nat, closed: bool, code: nat,
                             epoch: nat)

  /** `members` is the source's set; `ever` also remembers those removed from it. */
  datatype Group = Group(key: string, closed: bool, persisted: bool, members: set<nat>, ever: set<nat>)

  datatype Terminal = Terminal(code: nat, expires: int)

  /** A running `CloseGroup`: its group object and the sessions of its snapshot not yet closed. */
  datatype Closer = Closer(handle: nat, remaining: set<nat>, committed: bool)

  /** A running `Revoke`; `before` is every session admitted when it took its snapshot. */
  datatype Revoker = Revoker(issuer: string, subject: string, before: set<nat>, remaining: set<nat>)

  /** A credential `handleRefresh` has compared with the principal and not stored yet. */
  datatype Refresh = Refresh(id: nat, issuer: string, subject: string)

  datatype State = State(
    limits: Limits,
    all: map<nat, Session>,        // every session ever admitted
    table: set<nat>,               // the source's `sessions`
    groups: map<string, nat>,      // key to current group object
    objects: map<nat, Group>,
    terminals: map<nat, Terminal>,
    draining: bool,
    closers: map<nat, Closer>,
    revokers: map<nat, Revoker>,
    refreshes: set<Refresh>)

  datatype Step =
    | Admit(id: nat, issuer: string, subject: string, group: string, handle: nat)
    | Resume(id: nat, issuer: string, subject: string)
    | CheckRefresh(refresh: Refresh)
    | StoreRefresh(refresh: Refresh)
    | CloseSession(id: nat, code: nat)
    | LeaveGroup(id: nat)                          // removeSession under groupMu
    | LeaveTable(id: nat, now: int, victim: nat)   // removeSession under mu
    | ExpireTerminals(now: int)
    | BeginClose(p: nat, group: string, handle: nat)
    | CloseNext(p: nat, id: nat)
    | CommitClose(p: nat, ok: bool)
    | Retain(p: nat)
    | ExpireTombstone(group: string)
    | BeginDrain
    | BeginRevoke(p: nat, issuer: string, subject: string)
    | RevokeNext(p: nat, id: nat)
    | EndRevoke(p: nat)

  // -------------------------------------------------------- critical sections

  function TerminalCapacity(l: Limits): nat {
    if l.maxSessions > MAX_INT / 2 then MAX_INT else 2 * l.maxSessions
  }

  /** The group object of `group`, made on first use; nothing when no more may be made. */
  function Opened(s: State, group: string, handle: nat): (r: State)
    ensures r == s.(groups := r.groups, objects := r.objects)
  {
    if group in s.groups || |s.groups| >= s.limits.maxActiveGroups then s
    else s.(groups := s.groups[group := handle], objects := s.objects[handle := Group(group, false, false, {}, {})])
  }

  predicate GroupOpen(groups: map<string, nat>, objects: map<nat, Group>, group: string) {
    group != "" ==> group in groups && groups[group] in objects && !objects[groups[group]].closed
  }

  predicate Admits(s: State, group: string) {
    GroupOpen(s.groups, s.objects, group) && !s.draining && |s.table| < s.limits.maxSessions
  }

  function Joined(g: Group, id: nat): Group {
    g.(members := g.members + {id}, ever := g.ever + {id})
  }

  function Registered(s: State, id: nat, issuer: string, subject: string, group: string): (r: State)
    requires Admits(s, group)
    ensures r == s.(all := r.all, table := r.table, terminals := r.terminals, objects := r.objects)
  {
    var g := if group == "" then 0 else s.groups[group];
    s.(all := s.all[id := Session(issuer, subject, group, g, false, 0, 1)],
       table := s.table + {id},
       terminals := s.terminals - {id},
       objects := if group == "" then s.objects else s.objects[g := Joined(s.objects[g], id)])
  }

  function Admitted(s: State, id: nat, issuer: string, subject: string, group: string, handle: nat): (r: State)
    ensures r == s.(all := r.all, table := r.table, terminals := r.terminals, groups := r.groups, objects := r.objects)
  {
    var s' := if group == "" then s else Opened(s, group, handle);
    if Admits(s', group) then Registered(s', id, issuer, subject, group) else s'
  }

  /** The code that goes with each cause, in the order in which the source looks for them. */
  function Refusal(s: State, group: string, handle: nat): nat {
    var s' := if group == "" then s else Opened(s, group, handle);
    if group != "" && group !in s'.groups then RESOURCE_EXHAUSTED
    else if !GroupOpen(s'.groups, s'.objects, group) then GROUP_CLOSED
    else if s.draining then SERVER_DRAINING
    else if |s.table| >= s.limits.maxSessions then RESOURCE_EXHAUSTED
    else NORMAL
  }

  /** A resume refused for its secret, its limits or an expired principal is no step at all. */
  predicate ResumeAllowed(s: State, id: nat, issuer: string, subject: string) {
    && id in s.all && !s.all[id].closed && s.all[id].issuer == issuer && s.all[id].subject == subject
    && s.all[id].epoch != MAX_EPOCH && GroupOpen(s.groups, s.objects, s.all[id].group)
  }

  /** `sessionRecord.Close`. */
  function Shut(all: map<nat, Session>, id: nat, code: nat): map<nat, Session> {
    if id in all && !all[id].closed then all[id := all[id].(closed := true, code := code)] else all
  }

  function Unexpired(terminals: map<nat, Terminal>, now: int): map<nat, Terminal> {
    map id | id in terminals && terminals[id].expires > now :: terminals[id]
  }

  /** `victim` has the earliest expiry; ties fall to the iteration order of the map. */
  predicate Oldest(terminals: map<nat, Terminal>, victim: nat) {
    victim in terminals && forall id :: id in terminals ==> terminals[victim].expires <= terminals[id].expires
  }

  predicate Full(kept: map<nat, Terminal>, capacity: nat, id: nat) {
    id !in kept && |kept| >= capacity
  }

  function Recorded(terminals: map<nat, Terminal>, capacity: nat, id: nat, code: nat, now: int, victim: nat)
    : map<nat, Terminal>
  {
    var kept := Unexpired(terminals, now);
    var room := if Full(kept, capacity, id) then kept - {victim} else kept;
    room[id := Terminal(code, now + TERMINAL_TTL)]
  }

  predicate Evicts(terminals: map<nat, Terminal>, capacity: nat, id: nat, now: int, victim: nat) {
    var kept := Unexpired(terminals, now);
    Full(kept, capacity, id) ==> Oldest(kept, victim)
  }

  predicate IsTombstone(s: State, group: string) {
    && group in s.groups && s.groups[group] in s.objects
    && s.objects[s.groups[group]].closed && s.objects[s.groups[group]].persisted
  }

  /** What `retainClosedGroup` asks before it marks a group object persisted. */
  predicate Retains(s: State, g: nat) {
    && g in s.objects && s.objects[g].key in s.groups && s.groups[s.objects[g].key] == g
    && s.objects[g].closed && !s.objects[g].persisted
  }

  function Matching(s: State, issuer: string, subject: string): set<nat> {
    set id | id in s.table && id in s.all && s.all[id].issuer == issuer && s.all[id].subject == subject
  }

  function Resumed(s: State, id: nat, issuer: string, subject: string): (r: State)
    ensures r == s.(all := r.all)
  {
    if ResumeAllowed(s, id, issuer, subject)
    then s.(all := s.all[id := s.all[id].(epoch := s.all[id].epoch + 1, issuer := issuer, subject := subject)]) else s
  }

  function RefreshChecked(s: State, c: Refresh): (r: State)
    ensures r == s.(refreshes := r.refreshes)
  {
    if c.id in s.all && s.all[c.id].issuer == c.issuer && s.all[c.id].subject == c.subject
    then s.(refreshes := s.refreshes + {c}) else s
  }

  function RefreshStored(s: State, c: Refresh): (r: State)
    ensures r == s.(all := r.all, refreshes := r.refreshes)
  {
    var done := s.(refreshes := s.refreshes - {c});
    if c.id in s.all then done.(all := s.all[c.id := s.all[c.id].(issuer := c.issuer, subject := c.subject)]) else done
  }

  /** `removeSession` under the group mutex: it leaves the current object of the key, whichever that is. */
  function LeftGroup(s: State, id: nat): (r: State)
    requires id in s.all
    ensures r == s.(objects := r.objects)
  {
    var group := s.all[id].group;
    if group == "" || group !in s.groups || s.groups[group] !in s.objects then s
    else
      var g := s.groups[group];
      s.(objects := s.objects[g := s.objects[g].(members := s.objects[g].members - {id})])
  }

  function LeftTable(s: State, id: nat, now: int, victim: nat): (r: State)
    requires id in s.all
    ensures r == s.(table := r.table, terminals := r.terminals)
  {
    if id !in s.table then s
    else if !s.all[id].closed then s.(table := s.table - {id})
    else s.(table := s.table - {id},
            terminals := Recorded(s.terminals, TerminalCapacity(s.limits), id, s.all[id].code, now, victim))
  }

  function CloseBegun(s: State, p: nat, group: string, handle: nat): (r: State)
    ensures r == s.(groups := r.groups, objects := r.objects, closers := r.closers)
  {
    var s' := Opened(s, group, handle);
    if group !in s'.groups || s'.groups[group] !in s'.objects then s'
    else
      var g := s'.groups[group];
      s'.(objects := s'.objects[g := s'.objects[g].(closed := true)],
          closers := s'.closers[p := Closer(g, s'.objects[g].members, false)])
  }

  function Retained(s: State, p: nat): (r: State)
    requires p in s.closers
    ensures r == s.(objects := r.objects, closers := r.closers)
  {
    var g := s.closers[p].handle;
    var done := s.(closers := s.closers - {p});
    if Retains(s, g) then done.(objects := s.objects[g := s.objects[g].(persisted := true)]) else done
  }

  predicate Enabled(s: State, step: Step) {
    match step
    case Admit(id, _, _, _, handle) => id !in s.all && handle !in s.objects
    case Resume(_, _, _) | CheckRefresh(_) | CloseSession(_, _) => true
    case ExpireTerminals(_) | ExpireTombstone(_) | BeginDrain => true
    case StoreRefresh(refresh) => refresh in s.refreshes
    case LeaveGroup(id) => id in s.all && s.all[id].closed
    case LeaveTable(id, now, victim) => id in s.all && s.all[id].closed
      && Evicts(s.terminals, TerminalCapacity(s.limits), id, now, victim)
    case BeginClose(p, group, handle) => p !in s.closers && group != "" && handle !in s.objects
    case CloseNext(p, id) => p in s.closers && id in s.closers[p].remaining
    case CommitClose(p, _) => p in s.closers && s.closers[p].remaining == {}
    case Retain(p) => p in s.closers && s.closers[p].committed
    case BeginRevoke(p, _, _) => p !in s.revokers
    case RevokeNext(p, id) => p in s.revokers && id in s.revokers[p].remaining
    case EndRevoke(p) => p in s.revokers && s.revokers[p].remaining == {}
  }

  function Next(s: State, step: Step): State
    requires Enabled(s, step)
  {
    match step
    case Admit(id, issuer, subject, group, handle) => Admitted(s, id, issuer, subject, group, handle)
    case Resume(id, issuer, subject) => Resumed(s, id, issuer, subject)
    case CheckRefresh(r) => RefreshChecked(s, r)
    case StoreRefresh(r) => RefreshStored(s, r)
    case CloseSession(id, code) => s.(all := Shut(s.all, id, code))
    case LeaveGroup(id) => LeftGroup(s, id)
    case LeaveTable(id, now, victim) => LeftTable(s, id, now, victim)
    case ExpireTerminals(now) => s.(terminals := Unexpired(s.terminals, now))
    case BeginClose(p, group, handle) => CloseBegun(s, p, group, handle)
    case CloseNext(p, id) =>
      s.(all := Shut(s.all, id, GROUP_CLOSED),
         closers := s.closers[p := s.closers[p].(remaining := s.closers[p].remaining - {id})])
    case CommitClose(p, ok) =>
      s.(closers := if ok then s.closers[p := s.closers[p].(committed := true)] else s.closers - {p})
    case Retain(p) => Retained(s, p)
    case ExpireTombstone(group) => s.(groups := if IsTombstone(s, group) then s.groups - {group} else s.groups)
    case BeginDrain => s.(draining := true)
    case BeginRevoke(p, issuer, subject) =>
      s.(revokers := s.revokers[p := Revoker(issuer, subject, s.all.Keys, Matching(s, issuer, subject))])
    case RevokeNext(p, id) =>
      s.(all := Shut(s.all, id, FORBIDDEN),
         revokers := s.revokers[p := s.revokers[p].(remaining := s.revokers[p].remaining - {id})])
    case EndRevoke(p) => s.(revokers := s.revokers - {p})
  }

  predicate Init(s: State) {
    && s.limits.maxSessions >= 1
    && s.all == map[] && s.table == {} && s.groups == map[] && s.objects == map[] && s.terminals == map[]
    && !s.draining && s.closers == map[] && s.revokers == map[] && s.refreshes == {}
  }

  ghost predicate Run(states: seq<State>, steps: seq<Step>) {
    && |states| == |steps| + 1 && Init(states[0])
    && forall i :: 0 <= i < |steps| ==> Enabled(states[i], steps[i]) && states[i + 1] == Next(states[i], steps[i])
  }

  // ------------------------------------------------------------- source form

  /** The registry fields of `serverEndpoint`, each method one critical section. */
  class ServerEndpoint {
    const limits: Limits
    var sessions: set<nat>
    var records: map<nat, Session>
    var terminals: map<nat, Terminal>
    var groups: map<string, nat>
    var objects: map<nat, Group>
    var draining: bool

    ghost function View(): State
      reads this
    {
      State(limits, records, sessions, groups, objects, terminals, draining, map[], map[], {})
    }

    constructor (limits: Limits)
      requires limits.maxSessions >= 1
      ensures Init(View()) && this.limits == limits
    {
      this.limits, sessions, records, terminals := limits, {}, map[], map[];
      groups, objects, draining := map[], map[], false;
    }

    method ExpireTerminals(now: int)
      modifies this`terminals
      ensures terminals == Unexpired(old(terminals), now)
    {
      var left := terminals.Keys;
      while left != {}
        invariant left <= old(terminals).Keys
        invariant forall id :: id in terminals <==>
                    id in old(terminals) && (id in left || old(terminals)[id].expires > now)
        invariant forall id :: id in terminals ==> terminals[id] == old(terminals)[id]
        decreases |left|
      {
        var id :| id in left;
        left := left - {id};
        if terminals[id].expires <= now {
          terminals := terminals - {id};
        }
      }
    }

    /** The search for the entry to give up in `recordTerminalLocked`. */
    method FindOldest() returns (oldest: nat)
      requires terminals != map[]
      ensures Oldest(terminals, oldest)
    {
      var first :| first in terminals;
      oldest := first;
      var left := terminals.Keys - {first};
      while left != {}
        invariant oldest in terminals && left <= terminals.Keys
        invariant forall id :: id in terminals && id !in left ==> terminals[oldest].expires <= terminals[id].expires
        decreases |left|
      {
        var id :| id in left;
        left := left - {id};
        if terminals[id].expires < terminals[oldest].expires {
          oldest := id;
        }
      }
    }

    method RecordTerminal(id: nat, code: nat, now: int) returns (ghost victim: nat)
      requires limits.maxSessions >= 1
      modifies this`terminals
      ensures Evicts(old(terminals), TerminalCapacity(limits), id, now, victim)
      ensures terminals == Recorded(old(terminals), TerminalCapacity(limits), id, code, now, victim)
    {
      ExpireTerminals(now);
      victim := 0;
      if id !in terminals && |terminals| >= TerminalCapacity(limits) {
        assert |terminals| > 0;
        var oldest := FindOldest();
        victim := oldest;
        terminals := terminals - {oldest};
      }
      terminals := terminals[id := Terminal(code, now + TERMINAL_TTL)];
    }

    /** A resume finds its session in the table, or learns whether it expired lately. */
    method LookupSession(id: nat, now: int) returns (found: bool, code: nat)
      modifies this`terminals
      ensures terminals == Unexpired(old(terminals), now) && found == (id in sessions)
      ensures code == if found then NORMAL
                      else if id in terminals && terminals[id].code == SESSION_EXPIRED then SESSION_EXPIRED
                      else SESSION_NOT_FOUND
    {
      ExpireTerminals(now);
      if id in sessions {
        return true, NORMAL;
      }
      if id in terminals && terminals[id].code == SESSION_EXPIRED {
        return false, SESSION_EXPIRED;
      }
      return false, SESSION_NOT_FOUND;
    }

    method RemoveSession(id: nat, now: int) returns (ghost victim: nat)
      requires limits.maxSessions >= 1 && id in records && Keyed(groups, objects)
      modifies this
      ensures id in old(sessions) && old(records)[id].closed ==>
                Evicts(old(terminals), TerminalCapacity(limits), id, now, victim)
      ensures View() == LeftTable(LeftGroup(old(View()), id), id, now, victim)
    {
      var group := records[id].group;
      if group != "" && group in groups {
        var g := groups[group];
        objects := objects[g := objects[g].(members := objects[g].members - {id})];
      }
      victim := 0;
      if id in sessions {
        sessions := sessions - {id};
        if records[id].closed {
          victim := RecordTerminal(id, records[id].code, now);
        }
      }
    }

    /** The entry of `group`, made if there is none and room for one. */
    method OpenGroup(group: string, handle: nat) returns (ok: bool)
      modifies this`groups, this`objects
      ensures View() == Opened(old(View()), group, handle) && ok == (group in groups)
    {
      if group !in groups {
        if |groups| >= limits.maxActiveGroups {
          return false;
        }
        groups, objects := groups[group := handle], objects[handle := Group(group, false, false, {}, {})];
      }
      return true;
    }

    /** The critical section of a new connection; `handle` names the group object it may have to make. */
    method Admit(id: nat, issuer: string, subject: string, group: string, handle: nat) returns (code: nat)
      requires Enabled(View(), Step.Admit(id, issuer, subject, group, handle)) && Keyed(groups, objects)
      modifies this
      ensures View() == Admitted(old(View()), id, issuer, subject, group, handle)
      ensures code == Refusal(old(View()), group, handle) && (code == NORMAL <==> id in records)
    {
      if group != "" {
        var ok := OpenGroup(group, handle);
        if !ok {
          return RESOURCE_EXHAUSTED;
        }
        if objects[groups[group]].closed {
          return GROUP_CLOSED;
        }
      }
      if draining {
        return SERVER_DRAINING;
      }
      if |sessions| >= limits.maxSessions {
        return RESOURCE_EXHAUSTED;
      }
      hide Opened;
      Register(id, issuer, subject, group);
      return NORMAL;
    }

    method Register(id: nat, issuer: string, subject: string, group: string)
      requires Admits(View(), group)
      modifies this
      ensures View() == Registered(old(View()), id, issuer, subject, group)
    {
      var g := if group == "" then 0 else groups[group];
      records := records[id := Session(issuer, subject, group, g, false, 0, 1)];
      sessions, terminals := sessions + {id}, terminals - {id};
      if group != "" {
        objects := objects[g := Joined(objects[g], id)];
      }
    }

    /** `CloseGroup` up to the release of the group mutex; without a group when none may be made. */
    method BeginCloseGroup(group: string, handle: nat) returns (target: Option<nat>, snapshot: set<nat>)
      requires Enabled(View(), Step.BeginClose(0, group, handle)) && Keyed(groups, objects)
      modifies this
      ensures var r := CloseBegun(old(View()), 0, group, handle);
              && View() == r.(closers := map[])
              && r.closers == if target.None? then map[] else map[0 := Closer(target.value, snapshot, false)]
    {
      var ok := OpenGroup(group, handle);
      if !ok {
        return None, {};
      }
      var g := groups[group];
      objects := objects[g := objects[g].(closed := true)];
      return Some(g), objects[g].members;
    }

    method RetainClosedGroup(g: nat)
      requires g in objects
      modifies this
      ensures var kept := old(objects)[g := old(objects)[g].(persisted := true)];
              View() == if Retains(old(View()), g) then old(View()).(objects := kept) else old(View())
    {
      var key := objects[g].key;
      if key !in groups || groups[key] != g || !objects[g].closed || objects[g].persisted {
        return;
      }
      objects := objects[g := objects[g].(persisted := true)];
    }

    /** The snapshot `Revoke` takes of the table. */
    method MatchingSessions(issuer: string, subject: string) returns (matching: set<nat>)
      requires sessions <= records.Keys
      ensures matching == Matching(View(), issuer, subject)
    {
      matching := {};
      var left := sessions;
      while left != {}
        invariant left <= sessions
        invariant matching == set id | id in sessions - left && id in records
                                       && records[id].issuer == issuer && records[id].subject == subject
        decreases |left|
      {
        var id :| id in left;
        left := left - {id};
        if records[id].issuer == issuer && records[id].subject == subject {
          matching := matching + {id};
        }
      }
    }
  }

  // --------------------------------------------------------------- invariant

  predicate Live(all: map<nat, Session>, id: nat) {
    id in all && !all[id].closed
  }

  /** A session that is not closed is in the table and in its group's current object. */
  ghost predicate Reachable(all: map<nat, Session>, table: set<nat>, groups: map<string, nat>,
                            objects: map<nat, Group>)
  {
    forall id :: Live(all, id) ==>
      && id in table
      && (all[id].group != "" ==>
            && all[id].group in groups && groups[all[id].group] == all[id].handle
            && all[id].handle in objects && id in objects[all[id].handle].members)
  }

  ghost predicate Bounded(limits: Limits, all: map<nat, Session>, table: set<nat>, groups: map<string, nat>,
                          terminals: map<nat, Terminal>)
  {
    && |table| <= limits.maxSessions && |groups| <= limits.maxActiveGroups
    && |terminals| <= TerminalCapacity(limits) && limits.maxSessions >= 1
    && table <= all.Keys && terminals.Keys <= all.Keys && table !! terminals.Keys
  }

  ghost predicate Keyed(groups: map<string, nat>, objects: map<nat, Group>) {
    forall k :: k in groups ==> groups[k] in objects && objects[groups[k]].key == k
  }

  /** The sessions a group object has ever had name it as theirs. */
  ghost predicate Rosters(all: map<nat, Session>, objects: map<nat, Group>) {
    forall g :: g in objects ==> Roster(all, objects[g], g)
  }

  ghost predicate Roster(all: map<nat, Session>, group: Group, g: nat) {
    && group.key != "" && group.members <= group.ever
    && forall id :: id in group.ever ==> id in all && all[id].handle == g && all[id].group == group.key
  }

  /** A session with a group is among those its object has ever had. */
  ghost predicate Homes(all: map<nat, Session>, objects: map<nat, Group>) {
    forall id :: id in all && all[id].group != "" ==> all[id].handle in objects && id in objects[all[id].handle].ever
  }

  /** A persisted tombstone has outlived every session of its group object. */
  ghost predicate Outlived(all: map<nat, Session>, objects: map<nat, Group>) {
    forall g :: g in objects && objects[g].persisted ==> objects[g].closed && NoneLive(all, objects[g].ever)
  }

  ghost predicate NoneLive(all: map<nat, Session>, ids: set<nat>) {
    forall id :: id in ids ==> !Live(all, id)
  }

  /** What a running CloseGroup has not closed yet is still on its list. */
  ghost predicate Covers(all: map<nat, Session>, objects: map<nat, Group>, c: Closer) {
    && c.handle in objects && objects[c.handle].closed && (c.committed ==> c.remaining == {})
    && forall id :: id in objects[c.handle].ever && Live(all, id) ==> id in c.remaining
  }

  ghost predicate Closing(all: map<nat, Session>, objects: map<nat, Group>, closers: map<nat, Closer>) {
    forall p :: p in closers ==> Covers(all, objects, closers[p])
  }

  /** What a running Revoke has to close and has not closed is still on its list. */
  ghost predicate Pursues(all: map<nat, Session>, r: Revoker) {
    && r.before <= all.Keys
    && forall id :: id in r.before && Live(all, id) && all[id].issuer == r.issuer && all[id].subject == r.subject ==>
         id in r.remaining
  }

  ghost predicate Revoking(all: map<nat, Session>, revokers: map<nat, Revoker>) {
    forall p :: p in revokers ==> Pursues(all, revokers[p])
  }

  ghost predicate Checked(all: map<nat, Session>, refreshes: set<Refresh>) {
    forall r :: r in refreshes ==> r.id in all && all[r.id].issuer == r.issuer && all[r.id].subject == r.subject
  }

  ghost predicate Inv(s: State) {
    && Reachable(s.all, s.table, s.groups, s.objects)
    && Bounded(s.limits, s.all, s.table, s.groups, s.terminals)
    && Keyed(s.groups, s.objects) && Rosters(s.all, s.objects) && Homes(s.all, s.objects)
    && Outlived(s.all, s.objects)
    && Closing(s.all, s.objects, s.closers)
    && Revoking(s.all, s.revokers)
    && Checked(s.all, s.refreshes)
  }

  /** `later` has the same sessions with the same identities, some of them closed since. */
  ghost predicate Ages(all: map<nat, Session>, later: map<nat, Session>) {
    && all.Keys == later.Keys
    && forall id :: id in all ==>
         && later[id].issuer == all[id].issuer && later[id].subject == all[id].subject
         && later[id].group == all[id].group && later[id].handle == all[id].handle
         && (all[id].closed ==> later[id].closed && later[id].code == all[id].code && later[id].epoch == all[id].epoch)
  }

  lemma AgesInv(s: State, later: map<nat, Session>)
    requires Inv(s) && Ages(s.all, later)
    ensures Inv(s.(all := later))
  {
    hide Reachable, Bounded, Rosters, Homes, Outlived, Closing, Revoking, Checked, Ages;
    AgesReachable(s.all, later, s.table, s.groups, s.objects);
    AgesLinks(s.all, later, s.objects);
    AgesClosing(s.all, later, s.objects, s.closers);
    AgesRevoking(s.all, later, s.revokers);
    AgesOutlived(s.all, later, s.objects);
    AgesChecked(s.limits, s.all, later, s.table, s.groups, s.terminals, s.refreshes);
  }

  lemma AgesReachable(all: map<nat, Session>, later: map<nat, Session>, table: set<nat>, groups: map<string, nat>,
                      objects: map<nat, Group>)
    requires Reachable(all, table, groups, objects) && Ages(all, later)
    ensures Reachable(later, table, groups, objects)
  {
    forall id | Live(later, id) ensures Live(all, id) { }
  }

  lemma AgesLinks(all: map<nat, Session>, later: map<nat, Session>, objects: map<nat, Group>)
    requires Rosters(all, objects) && Homes(all, objects) && Ages(all, later)
    ensures Rosters(later, objects) && Homes(later, objects)
  {
    forall g | g in objects ensures Roster(later, objects[g], g) {
      assert Roster(all, objects[g], g);
    }
  }

  lemma AgesClosing(all: map<nat, Session>, later: map<nat, Session>, objects: map<nat, Group>,
                    closers: map<nat, Closer>)
    requires Closing(all, objects, closers) && Ages(all, later)
    ensures Closing(later, objects, closers)
  {
    forall p | p in closers ensures Covers(later, objects, closers[p]) {
      assert Covers(all, objects, closers[p]);
      forall id | Live(later, id) ensures Live(all, id) { }
    }
  }

  lemma AgesRevoking(all: map<nat, Session>, later: map<nat, Session>, revokers: map<nat, Revoker>)
    requires Revoking(all, revokers) && Ages(all, later)
    ensures Revoking(later, revokers)
  {
    forall p | p in revokers ensures Pursues(later, revokers[p]) {
      assert Pursues(all, revokers[p]);
      forall id | Live(later, id) ensures Live(all, id) { }
    }
  }

  lemma AgesOutlived(all: map<nat, Session>, later: map<nat, Session>, objects: map<nat, Group>)
    requires Outlived(all, objects) && Ages(all, later)
    ensures Outlived(later, objects)
  {
    forall id | Live(later, id) ensures Live(all, id) { }
    forall g | g in objects && objects[g].persisted ensures NoneLive(later, objects[g].ever) {
      assert NoneLive(all, objects[g].ever);
    }
  }

  lemma AgesChecked(limits: Limits, all: map<nat, Session>, later: map<nat, Session>, table: set<nat>,
                    groups: map<string, nat>, terminals: map<nat, Terminal>, refreshes: set<Refresh>)
    requires Ages(all, later)
    ensures Checked(all, refreshes) ==> Checked(later, refreshes)
    ensures Bounded(limits, all, table, groups, terminals) ==> Bounded(limits, later, table, groups, terminals)
  {
  }

  lemma ShutAges(all: map<nat, Session>, id: nat, code: nat)
    ensures Ages(all, Shut(all, id, code)) && !Live(Shut(all, id, code), id)
  {
  }

  /** `later` has the same group objects: members may have left, a flag may have been set. */
  ghost predicate Tends(all: map<nat, Session>, objects: map<nat, Group>, later: map<nat, Group>) {
    && objects.Keys == later.Keys
    && forall g :: g in objects ==>
         && later[g].key == objects[g].key && later[g].ever == objects[g].ever && later[g].members <= objects[g].members
         && (objects[g].closed ==> later[g].closed)
         && (forall id :: id in objects[g].members && Live(all, id) ==> id in later[g].members)
  }

  lemma TendsInv(s: State, later: map<nat, Group>)
    requires Inv(s) && Tends(s.all, s.objects, later) && Outlived(s.all, later)
    ensures Inv(s.(objects := later))
  {
    hide Reachable, Bounded, Keyed, Rosters, Homes, Outlived, Closing, Revoking, Checked, Tends;
    TendsReachable(s, later);
    TendsLinks(s, later);
    TendsClosing(s, later);
  }

  lemma TendsReachable(s: State, later: map<nat, Group>)
    requires Reachable(s.all, s.table, s.groups, s.objects) && Tends(s.all, s.objects, later)
    ensures Reachable(s.all, s.table, s.groups, later)
  {
  }

  lemma TendsLinks(s: State, later: map<nat, Group>)
    requires Keyed(s.groups, s.objects) && Rosters(s.all, s.objects) && Homes(s.all, s.objects)
    requires Tends(s.all, s.objects, later)
    ensures Keyed(s.groups, later) && Rosters(s.all, later) && Homes(s.all, later)
  {
    forall g | g in later ensures Roster(s.all, later[g], g) {
      assert Roster(s.all, s.objects[g], g);
    }
  }

  lemma TendsClosing(s: State, later: map<nat, Group>)
    requires Closing(s.all, s.objects, s.closers) && Tends(s.all, s.objects, later)
    ensures Closing(s.all, later, s.closers)
  {
    forall p | p in s.closers ensures Covers(s.all, later, s.closers[p]) {
      assert Covers(s.all, s.objects, s.closers[p]);
    }
  }

  // ---------------------------------------------------------------- admission

  lemma OpenedInv(s: State, group: string, handle: nat)
    requires Inv(s) && handle !in s.objects && group != ""
    ensures Inv(Opened(s, group, handle))
  {
    hide Reachable, Keyed, Rosters, Homes, Outlived, Closing, Revoking, Checked;
    if group !in s.groups && |s.groups| < s.limits.maxActiveGroups {
      OpenedReachable(s, group, handle);
      OpenedLinks(s, group, handle);
      OpenedClosing(s, group, handle);
    }
  }

  lemma OpenedReachable(s: State, group: string, handle: nat)
    requires Reachable(s.all, s.table, s.groups, s.objects) && handle !in s.objects && group !in s.groups
    ensures var later := s.objects[handle := Group(group, false, false, {}, {})];
            Reachable(s.all, s.table, s.groups[group := handle], later)
  {
  }

  lemma OpenedLinks(s: State, group: string, handle: nat)
    requires Keyed(s.groups, s.objects) && Rosters(s.all, s.objects) && Homes(s.all, s.objects)
    requires handle !in s.objects && group !in s.groups && group != ""
    ensures var later := s.objects[handle := Group(group, false, false, {}, {})];
            Keyed(s.groups[group := handle], later) && Rosters(s.all, later) && Homes(s.all, later)
  {
    var later := s.objects[handle := Group(group, false, false, {}, {})];
    forall g | g in later ensures Roster(s.all, later[g], g) {
      assert g != handle ==> Roster(s.all, s.objects[g], g);
    }
  }

  lemma OpenedClosing(s: State, group: string, handle: nat)
    requires Closing(s.all, s.objects, s.closers) && Outlived(s.all, s.objects) && handle !in s.objects
    ensures var later := s.objects[handle := Group(group, false, false, {}, {})];
            Closing(s.all, later, s.closers) && Outlived(s.all, later)
  {
    hide NoneLive;
    var later := s.objects[handle := Group(group, false, false, {}, {})];
    forall p | p in s.closers ensures Covers(s.all, later, s.closers[p]) {
      assert Covers(s.all, s.objects, s.closers[p]);
    }
  }

  lemma RegisteredInv(s: State, id: nat, issuer: string, subject: string, group: string)
    requires Inv(s) && id !in s.all && Admits(s, group)
    ensures Inv(Registered(s, id, issuer, subject, group))
  {
    hide Reachable, Bounded, Keyed, Rosters, Homes, Outlived, Closing, Revoking, Checked, Admits, Joined;
    RegisteredBounded(s, id, issuer, subject, group);
    RegisteredReachable(s, id, issuer, subject, group);
    RegisteredLinks(s, id, issuer, subject, group);
    RegisteredClosing(s, id, issuer, subject, group);
    RegisteredRevoking(s, id, issuer, subject, group);
  }

  lemma RegisteredBounded(s: State, id: nat, issuer: string, subject: string, group: string)
    requires Bounded(s.limits, s.all, s.table, s.groups, s.terminals) && id !in s.all && Admits(s, group)
    ensures var s' := Registered(s, id, issuer, subject, group);
            Bounded(s'.limits, s'.all, s'.table, s'.groups, s'.terminals)
  {
    assert (s.terminals - {id}).Keys == s.terminals.Keys - {id};
    SubsetSize(s.terminals.Keys - {id}, s.terminals.Keys);
    assert s.table * {id} == {};
  }

  lemma RegisteredReachable(s: State, id: nat, issuer: string, subject: string, group: string)
    requires Reachable(s.all, s.table, s.groups, s.objects) && id !in s.all && Admits(s, group)
    ensures var s' := Registered(s, id, issuer, subject, group); Reachable(s'.all, s'.table, s'.groups, s'.objects)
  {
    var s' := Registered(s, id, issuer, subject, group);
    forall x | Live(s'.all, x) && x != id ensures Live(s.all, x) { }
  }

  lemma RegisteredLinks(s: State, id: nat, issuer: string, subject: string, group: string)
    requires Keyed(s.groups, s.objects) && Rosters(s.all, s.objects) && Homes(s.all, s.objects) && id !in s.all
    requires Admits(s, group)
    ensures var s' := Registered(s, id, issuer, subject, group);
            Keyed(s'.groups, s'.objects) && Rosters(s'.all, s'.objects) && Homes(s'.all, s'.objects)
  {
    hide Roster;
    var s' := Registered(s, id, issuer, subject, group);
    forall g | g in s'.objects ensures Roster(s'.all, s'.objects[g], g) {
      assert Roster(s.all, s.objects[g], g);
      RosterGrows(s.all, s.objects[g], g, id, s'.all[id]);
    }
  }

  lemma RosterGrows(all: map<nat, Session>, group: Group, g: nat, id: nat, session: Session)
    requires Roster(all, group, g) && id !in all
    ensures Roster(all[id := session], group, g)
    ensures session.handle == g && session.group == group.key ==> Roster(all[id := session], Joined(group, id), g)
  {
  }

  /** Admission needs an open group object, so it adds nothing to one being closed or already persisted. */
  lemma RegisteredClosing(s: State, id: nat, issuer: string, subject: string, group: string)
    requires Rosters(s.all, s.objects) && Closing(s.all, s.objects, s.closers) && Outlived(s.all, s.objects)
    requires id !in s.all && Admits(s, group)
    ensures var s' := Registered(s, id, issuer, subject, group);
            Closing(s'.all, s'.objects, s.closers) && Outlived(s'.all, s'.objects)
  {
    hide Rosters;
    var s' := Registered(s, id, issuer, subject, group);
    forall g | g in s.objects && s.objects[g].closed
      ensures s'.objects[g] == s.objects[g] && id !in s.objects[g].ever
    {
      RosterKnown(s.all, s.objects, g);
    }
    forall x | x != id && Live(s'.all, x) ensures Live(s.all, x) { }
    forall p | p in s.closers ensures Covers(s'.all, s'.objects, s.closers[p]) {
      assert Covers(s.all, s.objects, s.closers[p]);
    }
    forall g | g in s'.objects && s'.objects[g].persisted
      ensures s'.objects[g].closed && NoneLive(s'.all, s'.objects[g].ever)
    {
      assert s.objects[g].closed && NoneLive(s.all, s.objects[g].ever);
    }
  }

  lemma RosterKnown(all: map<nat, Session>, objects: map<nat, Group>, g: nat)
    requires Rosters(all, objects) && g in objects
    ensures objects[g].ever <= all.Keys
  {
    assert Roster(all, objects[g], g);
  }

  lemma RegisteredRevoking(s: State, id: nat, issuer: string, subject: string, group: string)
    requires Revoking(s.all, s.revokers) && Checked(s.all, s.refreshes) && id !in s.all && Admits(s, group)
    ensures var s' := Registered(s, id, issuer, subject, group);
            Revoking(s'.all, s.revokers) && Checked(s'.all, s.refreshes)
  {
    var s' := Registered(s, id, issuer, subject, group);
    forall p | p in s.revokers ensures Pursues(s'.all, s.revokers[p]) {
      assert Pursues(s.all, s.revokers[p]);
      forall x | x != id && Live(s'.all, x) ensures Live(s.all, x) { }
    }
  }

  // -------------------------------------------------------------- other steps

  lemma AdmitInv(s: State, step: Step)
    requires Inv(s) && step.Admit? && Enabled(s, step)
    ensures Inv(Next(s, step))
  {
    hide Inv, Registered, Opened, Admits;
    var s' := if step.group == "" then s else Opened(s, step.group, step.handle);
    if step.group != "" {
      OpenedInv(s, step.group, step.handle);
    }
    assert s'.all == s.all by {
      OpenedKeeps(s, step.group, step.handle);
    }
    if Admits(s', step.group) {
      RegisteredInv(s', step.id, step.issuer, step.subject, step.group);
    }
  }

  lemma OpenedKeeps(s: State, group: string, handle: nat)
    ensures var s' := Opened(s, group, handle);
            s'.all == s.all && s'.closers == s.closers && s'.draining == s.draining && s'.table == s.table
  {
  }

  /** Steps that only age session records. */
  lemma SessionInv(s: State, step: Step)
    requires Inv(s) && Enabled(s, step) && (step.Resume? || step.CloseSession?)
    ensures Inv(Next(s, step))
  {
    hide Inv;
    assert Ages(s.all, Next(s, step).all);
    AgesInv(s, Next(s, step).all);
  }

  lemma CheckRefreshInv(s: State, r: Refresh)
    requires Inv(s)
    ensures Inv(Next(s, CheckRefresh(r)))
  {
    hide Reachable, Bounded, Keyed, Rosters, Homes, Outlived, Closing, Revoking;
  }

  /** The principal may have been replaced since the comparison, but only by one with the same identity. */
  lemma StoreRefreshInv(s: State, r: Refresh)
    requires Inv(s) && r in s.refreshes
    ensures Inv(Next(s, StoreRefresh(r)))
  {
    hide Reachable, Bounded, Keyed, Rosters, Homes, Outlived, Closing, Revoking;
    var later := Next(s, StoreRefresh(r)).all;
    assert Ages(s.all, later);
    AgesInv(s, later);
  }

  lemma CloseNextInv(s: State, p: nat, id: nat)
    requires Inv(s) && Enabled(s, CloseNext(p, id))
    ensures Inv(Next(s, CloseNext(p, id)))
  {
    hide Reachable, Bounded, Keyed, Rosters, Homes, Outlived, Revoking, Checked, Ages, Shut, Live;
    var s' := Next(s, CloseNext(p, id));
    ShutAges(s.all, id, GROUP_CLOSED);
    AgesInv(s, s'.all);
    forall q | q in s'.closers ensures Covers(s'.all, s.objects, s'.closers[q]) {
      assert Covers(s'.all, s.objects, s.closers[q]);
    }
  }

  lemma RevokeNextInv(s: State, p: nat, id: nat)
    requires Inv(s) && Enabled(s, RevokeNext(p, id))
    ensures Inv(Next(s, RevokeNext(p, id)))
  {
    hide Reachable, Bounded, Keyed, Rosters, Homes, Outlived, Closing, Checked, Ages, Shut, Live;
    var s' := Next(s, RevokeNext(p, id));
    ShutAges(s.all, id, FORBIDDEN);
    AgesInv(s, s'.all);
    forall q | q in s'.revokers ensures Pursues(s'.all, s'.revokers[q]) {
      assert Pursues(s'.all, s.revokers[q]);
    }
  }

  lemma LeaveGroupInv(s: State, id: nat)
    requires Inv(s) && Enabled(s, LeaveGroup(id))
    ensures Inv(Next(s, LeaveGroup(id)))
  {
    hide Reachable, Bounded, Keyed, Rosters, Homes, Closing, Revoking, Checked, NoneLive;
    TendsInv(s, Next(s, LeaveGroup(id)).objects);
  }

  lemma LeaveTableInv(s: State, id: nat, now: int, victim: nat)
    requires Inv(s) && Enabled(s, LeaveTable(id, now, victim))
    ensures Inv(Next(s, LeaveTable(id, now, victim)))
  {
    hide Bounded, Keyed, Rosters, Homes, Outlived, Closing, Revoking, Checked, Recorded, Evicts;
    if id in s.table {
      RecordedBounded(s, id, now, victim);
    }
  }

  /** The terminal cache never outgrows twice the session limit: a full cache loses its oldest entry first. */
  lemma RecordedBounded(s: State, id: nat, now: int, victim: nat)
    requires Bounded(s.limits, s.all, s.table, s.groups, s.terminals) && id in s.table && id in s.all
    requires Evicts(s.terminals, TerminalCapacity(s.limits), id, now, victim)
    ensures Bounded(s.limits, s.all, s.table - {id}, s.groups,
                    Recorded(s.terminals, TerminalCapacity(s.limits), id, s.all[id].code, now, victim))
  {
    var kept := Unexpired(s.terminals, now);
    SubsetSize(kept.Keys, s.terminals.Keys);
    SubsetSize(s.table - {id}, s.table);
    assert (kept - {victim}).Keys == kept.Keys - {victim};
  }

  lemma ExpireInv(s: State, now: int)
    requires Inv(s)
    ensures Inv(s.(terminals := Unexpired(s.terminals, now)))
  {
    hide Reachable, Keyed, Rosters, Homes, Outlived, Closing, Revoking, Checked;
    SubsetSize(Unexpired(s.terminals, now).Keys, s.terminals.Keys);
  }

  lemma BeginCloseInv(s: State, p: nat, group: string, handle: nat)
    requires Inv(s) && Enabled(s, BeginClose(p, group, handle))
    ensures Inv(Next(s, BeginClose(p, group, handle)))
  {
    hide Inv, Opened;
    OpenedInv(s, group, handle);
    OpenedKeeps(s, group, handle);
    var s' := Opened(s, group, handle);
    if group in s'.groups && s'.groups[group] in s'.objects {
      SnapshotInv(s', p, s'.groups[group]);
    }
  }

  /** The snapshot of a group object has every session that is still live in it. */
  lemma SnapshotInv(s: State, p: nat, g: nat)
    requires Inv(s) && g in s.objects && p !in s.closers
    ensures Inv(s.(objects := s.objects[g := s.objects[g].(closed := true)],
                   closers := s.closers[p := Closer(g, s.objects[g].members, false)]))
  {
    hide Bounded, Keyed, Homes, Revoking, Checked, NoneLive;
    var later := s.objects[g := s.objects[g].(closed := true)];
    TendsInv(s, later);
    assert Covers(s.all, later, Closer(g, s.objects[g].members, false)) by {
      assert Roster(s.all, s.objects[g], g);
    }
  }

  lemma RetainInv(s: State, p: nat)
    requires Inv(s) && Enabled(s, Retain(p))
    ensures Inv(Next(s, Retain(p)))
  {
    hide Reachable, Bounded, Keyed, Rosters, Homes, Outlived, Covers, Revoking, Checked, Tends, Retains;
    if Retains(s, s.closers[p].handle) {
      PersistedInv(s, p);
    }
  }

  lemma PersistedInv(s: State, p: nat)
    requires Inv(s) && Enabled(s, Retain(p)) && Retains(s, s.closers[p].handle)
    ensures var g := s.closers[p].handle; Inv(s.(objects := s.objects[g := s.objects[g].(persisted := true)]))
  {
    hide Reachable, Bounded, Keyed, Rosters, Homes, Revoking, Checked;
    var g := s.closers[p].handle;
    assert Covers(s.all, s.objects, s.closers[p]);
    TendsInv(s, s.objects[g := s.objects[g].(persisted := true)]);
  }

  lemma TombstoneInv(s: State, group: string)
    requires Inv(s)
    ensures Inv(Next(s, ExpireTombstone(group)))
  {
    hide Reachable, Rosters, Outlived, Closing, Revoking, Checked;
    if IsTombstone(s, group) {
      assert (s.groups - {group}).Keys == s.groups.Keys - {group};
      SubsetSize(s.groups.Keys - {group}, s.groups.Keys);
      TombstoneReachable(s, group);
    }
  }

  lemma TombstoneReachable(s: State, group: string)
    requires IsTombstone(s, group) && Homes(s.all, s.objects) && Outlived(s.all, s.objects)
    requires Reachable(s.all, s.table, s.groups, s.objects)
    ensures Reachable(s.all, s.table, s.groups - {group}, s.objects)
  {
    assert NoneLive(s.all, s.objects[s.groups[group]].ever);
  }

  lemma BeginRevokeInv(s: State, p: nat, issuer: string, subject: string)
    requires Inv(s) && Enabled(s, BeginRevoke(p, issuer, subject))
    ensures Inv(Next(s, BeginRevoke(p, issuer, subject)))
  {
    hide Bounded, Keyed, Rosters, Homes, Outlived, Closing, Checked;
    assert Pursues(s.all, Revoker(issuer, subject, s.all.Keys, Matching(s, issuer, subject)));
  }

  lemma CommitCloseInv(s: State, p: nat, ok: bool)
    requires Inv(s) && Enabled(s, CommitClose(p, ok))
    ensures Inv(Next(s, CommitClose(p, ok)))
  {
    hide Reachable, Bounded, Keyed, Rosters, Homes, Outlived, Revoking, Checked;
    assert Covers(s.all, s.objects, s.closers[p]);
  }

  lemma InvStep(s: State, step: Step)
    requires Inv(s) && Enabled(s, step)
    ensures Inv(Next(s, step))
  {
    hide Reachable, Bounded, Keyed, Rosters, Homes, Outlived, Closing, Pursues, Checked;
    match step
    case Admit(_, _, _, _, _) => AdmitInv(s, step);
    case LeaveGroup(id) => LeaveGroupInv(s, id);
    case LeaveTable(id, now, victim) => LeaveTableInv(s, id, now, victim);
    case ExpireTerminals(now) => ExpireInv(s, now);
    case BeginClose(p, group, handle) => BeginCloseInv(s, p, group, handle);
    case CloseNext(p, id) => CloseNextInv(s, p, id);
    case Retain(p) => RetainInv(s, p);
    case ExpireTombstone(group) => TombstoneInv(s, group);
    case BeginRevoke(p, issuer, subject) => BeginRevokeInv(s, p, issuer, subject);
    case RevokeNext(p, id) => RevokeNextInv(s, p, id);
    case CommitClose(p, ok) => CommitCloseInv(s, p, ok);
    case EndRevoke(_) =>
    case BeginDrain =>
    case Resume(_, _, _) => SessionInv(s, step);
    case CheckRefresh(r) => CheckRefreshInv(s, r);
    case StoreRefresh(r) => StoreRefreshInv(s, r);
    case CloseSession(_, _) => SessionInv(s, step);
  }

  lemma {:induction false} InvRun(states: seq<State>, steps: seq<Step>, n: nat)
    requires Run(states, steps) && n <= |steps|
    ensures Inv(states[n])
  {
    hide Next, Enabled;
    if n > 0 {
      hide Inv;
      InvRun(states, steps, n - 1);
      assert states[n - 1 + 1] == Next(states[n - 1], steps[n - 1]);
      InvStep(states[n - 1], steps[n - 1]);
    }
  }

  // ----------------------------------------------------------------- theorems

  /** In every reachable state the tables respect their limits, live and terminal
      identifiers are disjoint, every session not yet closed can be found in the
      table and in the current object of its group, and so the live sessions of
      one group key share one group object. */
  lemma RegistryInvariant(states: seq<State>, steps: seq<Step>, n: nat)
    requires Run(states, steps) && n <= |steps|
    ensures var s := states[n];
            && |s.table| <= s.limits.maxSessions && |s.groups| <= s.limits.maxActiveGroups
            && |s.terminals| <= TerminalCapacity(s.limits) && s.table !! s.terminals.Keys
    ensures var s := states[n]; forall id :: Live(s.all, id) ==>
              id in s.table && (s.all[id].group != "" ==>
                s.all[id].group in s.groups && s.groups[s.all[id].group] in s.objects
                && id in s.objects[s.groups[s.all[id].group]].members)
    ensures var s := states[n];
            forall a, b :: Live(s.all, a) && Live(s.all, b) && s.all[a].group == s.all[b].group != "" ==>
              s.all[a].handle == s.all[b].handle
  {
    InvRun(states, steps, n);
  }

  /** A session keeps its identity and its group for good; once closed it does not change at all. */
  ghost predicate Aged(all: map<nat, Session>, later: map<nat, Session>) {
    forall id :: id in all ==> id in later && Same(all[id], later[id])
  }

  predicate Same(a: Session, b: Session) {
    && a.issuer == b.issuer && a.subject == b.subject && a.group == b.group && a.handle == b.handle
    && a.epoch <= b.epoch && (a.closed ==> b == a)
  }

  /** A closed group object gains no session and never opens again. */
  ghost predicate Frozen(objects: map<nat, Group>, later: map<nat, Group>) {
    forall g :: g in objects && objects[g].closed ==> g in later && Stiff(objects[g], later[g])
  }

  predicate Stiff(a: Group, b: Group) {
    b.closed && b.key == a.key && b.ever == a.ever && (a.persisted ==> b.persisted)
  }

  lemma AgedOne(all: map<nat, Session>, id: nat, session: Session)
    requires id in all ==> Same(all[id], session)
    ensures Aged(all, all[id := session])
  {
  }

  lemma AgedTransitive(a: map<nat, Session>, b: map<nat, Session>, c: map<nat, Session>)
    requires Aged(a, b) && Aged(b, c)
    ensures Aged(a, c)
  {
  }

  lemma Reflexive(all: map<nat, Session>, objects: map<nat, Group>)
    ensures Aged(all, all) && Frozen(objects, objects)
  {
  }

  lemma ShutAged(all: map<nat, Session>, id: nat, code: nat)
    ensures Aged(all, Shut(all, id, code))
  {
  }

  lemma AgedStep(s: State, step: Step)
    requires Checked(s.all, s.refreshes) && Enabled(s, step)
    ensures Aged(s.all, Next(s, step).all)
  {
    hide Aged, Frozen, Admitted, Resumed, RefreshChecked, RefreshStored, LeftGroup, LeftTable, CloseBegun, Retained,
      Shut, Unexpired, Matching;
    Reflexive(s.all, s.objects);
    match step
    case Admit(id, issuer, subject, group, handle) => AdmittedAged(s, id, issuer, subject, group, handle);
    case Resume(id, issuer, subject) => ResumedAged(s, id, issuer, subject);
    case StoreRefresh(r) => StoredAged(s, r);
    case CloseSession(id, code) => ShutAged(s.all, id, code);
    case CloseNext(_, id) => ShutAged(s.all, id, GROUP_CLOSED);
    case RevokeNext(_, id) => ShutAged(s.all, id, FORBIDDEN);
    case _ =>
  }

  lemma ResumedAged(s: State, id: nat, issuer: string, subject: string)
    ensures Aged(s.all, Resumed(s, id, issuer, subject).all)
  {
  }

  lemma StoredAged(s: State, r: Refresh)
    requires Checked(s.all, s.refreshes) && r in s.refreshes
    ensures Aged(s.all, RefreshStored(s, r).all)
  {
  }

  lemma AdmittedAged(s: State, id: nat, issuer: string, subject: string, group: string, handle: nat)
    requires id !in s.all
    ensures Aged(s.all, Admitted(s, id, issuer, subject, group, handle).all)
    ensures s.draining ==> var s' := Admitted(s, id, issuer, subject, group, handle); s'.draining && s'.table == s.table
  {
    hide Aged, Frozen, Opened, GroupOpen, Joined;
    Reflexive(s.all, s.objects);
    OpenedKeeps(s, group, handle);
    var s' := if group == "" then s else Opened(s, group, handle);
    if Admits(s', group) {
      AgedOne(s.all, id, Registered(s', id, issuer, subject, group).all[id]);
    }
  }

  lemma FrozenOne(objects: map<nat, Group>, g: nat, group: Group)
    requires g in objects && objects[g].closed ==> Stiff(objects[g], group)
    ensures Frozen(objects, objects[g := group])
  {
  }

  lemma FrozenTransitive(a: map<nat, Group>, b: map<nat, Group>, c: map<nat, Group>)
    requires Frozen(a, b) && Frozen(b, c)
    ensures Frozen(a, c)
  {
  }

  lemma OpenedFrozen(s: State, group: string, handle: nat)
    requires handle !in s.objects
    ensures Frozen(s.objects, Opened(s, group, handle).objects)
  {
  }

  lemma AdmittedFrozen(s: State, id: nat, issuer: string, subject: string, group: string, handle: nat)
    requires handle !in s.objects
    ensures Frozen(s.objects, Admitted(s, id, issuer, subject, group, handle).objects)
  {
    hide Aged, Frozen, Opened;
    Reflexive(s.all, s.objects);
    if group != "" {
      OpenedFrozen(s, group, handle);
      var s' := Opened(s, group, handle);
      if Admits(s', group) {
        var g := s'.groups[group];
        FrozenOne(s'.objects, g, Joined(s'.objects[g], id));
        FrozenTransitive(s.objects, s'.objects, s'.objects[g := Joined(s'.objects[g], id)]);
      }
    }
  }

  lemma CloseBegunFrozen(s: State, p: nat, group: string, handle: nat)
    requires handle !in s.objects
    ensures Frozen(s.objects, CloseBegun(s, p, group, handle).objects)
  {
    hide Frozen, Opened;
    OpenedFrozen(s, group, handle);
    var s' := Opened(s, group, handle);
    if group in s'.groups && s'.groups[group] in s'.objects {
      var g := s'.groups[group];
      FrozenOne(s'.objects, g, s'.objects[g].(closed := true));
      FrozenTransitive(s.objects, s'.objects, s'.objects[g := s'.objects[g].(closed := true)]);
    }
  }

  lemma FrozenStep(s: State, step: Step)
    requires Enabled(s, step)
    ensures Frozen(s.objects, Next(s, step).objects)
  {
    hide Aged, Frozen, Admitted, Resumed, RefreshChecked, RefreshStored, LeftGroup, LeftTable, CloseBegun, Retained,
      Shut, Unexpired, Matching;
    Reflexive(s.all, s.objects);
    match step
    case Admit(id, issuer, subject, group, handle) => AdmittedFrozen(s, id, issuer, subject, group, handle);
    case BeginClose(p, group, handle) => CloseBegunFrozen(s, p, group, handle);
    case LeaveGroup(id) => LeftGroupFrozen(s, id);
    case Retain(p) => RetainedFrozen(s, p);
    case _ =>
  }

  lemma LeftGroupFrozen(s: State, id: nat)
    requires id in s.all
    ensures Frozen(s.objects, LeftGroup(s, id).objects)
  {
  }

  lemma RetainedFrozen(s: State, p: nat)
    requires p in s.closers
    ensures Frozen(s.objects, Retained(s, p).objects)
  {
  }

  lemma DrainingStep(s: State, step: Step)
    requires Enabled(s, step) && s.draining
    ensures Next(s, step).draining && Next(s, step).table <= s.table
  {
    hide Aged, Frozen, Admitted, Resumed, RefreshChecked, RefreshStored, LeftGroup, CloseBegun, Retained, Shut,
      Unexpired, Matching, Recorded;
    match step
    case Admit(id, issuer, subject, group, handle) => AdmittedAged(s, id, issuer, subject, group, handle);
    case _ =>
  }

  /** Over any stretch of any run: no session changes its issuer, subject or group,
      a closed one does not change at all, and a closed group object stays closed
      and is joined by no further session. */
  lemma {:induction false} HistoryRun(states: seq<State>, steps: seq<Step>, i: nat, j: nat)
    requires Run(states, steps) && i <= j <= |steps|
    ensures Aged(states[i].all, states[j].all) && Frozen(states[i].objects, states[j].objects)
  {
    hide Next, Enabled, Inv, Aged, Frozen;
    if i == j {
      Reflexive(states[i].all, states[i].objects);
    } else {
      HistoryRun(states, steps, i, j - 1);
      CheckedRun(states, steps, j - 1);
      assert states[j - 1 + 1] == Next(states[j - 1], steps[j - 1]);
      AgedStep(states[j - 1], steps[j - 1]);
      FrozenStep(states[j - 1], steps[j - 1]);
      AgedTransitive(states[i].all, states[j - 1].all, states[j].all);
      FrozenTransitive(states[i].objects, states[j - 1].objects, states[j].objects);
    }
  }

  lemma CheckedRun(states: seq<State>, steps: seq<Step>, n: nat)
    requires Run(states, steps) && n <= |steps|
    ensures Checked(states[n].all, states[n].refreshes)
  {
    InvRun(states, steps, n);
  }

  /** What the terminal cache remembers of a session is the code it was closed with. */
  ghost predicate Recalls(all: map<nat, Session>, terminals: map<nat, Terminal>) {
    forall id :: id in terminals ==> id in all && all[id].closed && terminals[id].code == all[id].code
  }

  lemma RecallsStep(s: State, step: Step)
    requires Enabled(s, step) && Recalls(s.all, s.terminals) && Aged(s.all, Next(s, step).all)
    ensures Recalls(Next(s, step).all, Next(s, step).terminals)
  {
    hide Admitted, Resumed, RefreshChecked, RefreshStored, LeftGroup, LeftTable, CloseBegun, Retained, Shut, Unexpired,
      Matching, Evicts, Recalls, Aged;
    RecallsAged(s.all, Next(s, step).all, s.terminals);
    match step
    case Admit(id, issuer, subject, group, handle) =>
      AdmittedForgets(s, id, issuer, subject, group, handle);
      RecallsLess(Next(s, step).all, s.terminals, s.terminals - {id});
    case LeaveTable(id, now, victim) => LeftTableRecalls(s, id, now, victim);
    case ExpireTerminals(now) => UnexpiredLess(s.terminals, now);
      RecallsLess(s.all, s.terminals, Unexpired(s.terminals, now));
    case _ =>
  }

  lemma RecallsAged(all: map<nat, Session>, later: map<nat, Session>, terminals: map<nat, Terminal>)
    requires Recalls(all, terminals) && Aged(all, later)
    ensures Recalls(later, terminals)
  {
  }

  ghost predicate Less(fewer: map<nat, Terminal>, terminals: map<nat, Terminal>) {
    forall id :: id in fewer ==> id in terminals && fewer[id] == terminals[id]
  }

  lemma RecallsLess(all: map<nat, Session>, terminals: map<nat, Terminal>, fewer: map<nat, Terminal>)
    requires Recalls(all, terminals) && Less(fewer, terminals)
    ensures Recalls(all, fewer)
  {
  }

  lemma UnexpiredLess(terminals: map<nat, Terminal>, now: int)
    ensures Less(Unexpired(terminals, now), terminals)
  {
  }

  lemma LeftTableRecalls(s: State, id: nat, now: int, victim: nat)
    requires Recalls(s.all, s.terminals) && id in s.all && s.all[id].closed
    ensures Recalls(s.all, LeftTable(s, id, now, victim).terminals)
  {
  }

  lemma AdmittedForgets(s: State, id: nat, issuer: string, subject: string, group: string, handle: nat)
    ensures var t := Admitted(s, id, issuer, subject, group, handle).terminals;
            t == s.terminals || t == s.terminals - {id}
  {
    hide Joined;
  }

  /** In every reachable state a terminal entry carries the code its session was closed with,
      so a late resume is told that it expired only if it did. */
  lemma {:induction false} TerminalsRecall(states: seq<State>, steps: seq<Step>, n: nat)
    requires Run(states, steps) && n <= |steps|
    ensures Recalls(states[n].all, states[n].terminals)
  {
    hide Next, Enabled, Inv, Aged;
    if n > 0 {
      TerminalsRecall(states, steps, n - 1);
      CheckedRun(states, steps, n - 1);
      assert states[n - 1 + 1] == Next(states[n - 1], steps[n - 1]);
      AgedStep(states[n - 1], steps[n - 1]);
      RecallsStep(states[n - 1], steps[n - 1]);
    }
  }

  /** Once draining, the table only shrinks; so once empty, as when `Drain` returns nil, it stays empty. */
  lemma {:induction false} DrainOnlyShrinks(states: seq<State>, steps: seq<Step>, i: nat, j: nat)
    requires Run(states, steps) && i <= j <= |steps| && states[i].draining
    ensures states[j].draining && states[j].table <= states[i].table
    ensures states[i].table == {} ==>
              states[j].table == {} && forall id :: id in states[j].all ==> states[j].all[id].closed
  {
    hide Next, Enabled;
    InvRun(states, steps, j);
    if i < j {
      DrainOnlyShrinks(states, steps, i, j - 1);
      assert states[j - 1 + 1] == Next(states[j - 1], steps[j - 1]);
      DrainingStep(states[j - 1], steps[j - 1]);
    }
    assert forall id :: id in states[j].all && !states[j].all[id].closed ==> Live(states[j].all, id);
  }

  /** The group `key` is fenced: its current group object is closed. */
  predicate Fenced(s: State, key: string) {
    key in s.groups && s.groups[key] in s.objects && s.objects[s.groups[key]].closed
  }

  /** The one way to lift a fence is to delete a tombstone whose closure was committed. */
  lemma FenceStep(s: State, step: Step, key: string)
    requires Keyed(s.groups, s.objects) && Enabled(s, step) && Fenced(s, key)
    ensures var s' := Next(s, step);
            || (Fenced(s', key) && s'.groups[key] == s.groups[key])
            || (step == ExpireTombstone(key) && s.objects[s.groups[key]].persisted && key !in s'.groups)
  {
    hide Frozen, Keyed, Admitted, Resumed, RefreshChecked, RefreshStored, LeftGroup, LeftTable, CloseBegun, Retained,
      Shut, Unexpired, Matching;
    FrozenStep(s, step);
    FrozenAt(s.objects, Next(s, step).objects, s.groups[key]);
    match step
    case Admit(id, issuer, subject, group, handle) => EntryStays(s, step, key);
    case BeginClose(p, group, handle) => EntryStays(s, step, key);
    case _ =>
  }

  lemma EntryStays(s: State, step: Step, key: string)
    requires Enabled(s, step) && (step.Admit? || step.BeginClose?) && key in s.groups
    ensures key in Next(s, step).groups && Next(s, step).groups[key] == s.groups[key]
  {
    hide Opened, Joined, GroupOpen;
    OpenedEntry(s, step.group, step.handle, key);
  }

  lemma OpenedEntry(s: State, group: string, handle: nat, key: string)
    requires key in s.groups
    ensures var s' := Opened(s, group, handle); key in s'.groups && s'.groups[key] == s.groups[key]
  {
  }

  lemma FrozenAt(objects: map<nat, Group>, later: map<nat, Group>, g: nat)
    requires Frozen(objects, later) && g in objects && objects[g].closed
    ensures g in later && Stiff(objects[g], later[g])
  {
  }

  /** The sessions of group `key` are those it had, at the epochs they had. */
  ghost predicate Still(all: map<nat, Session>, later: map<nat, Session>, key: string) {
    forall id :: id in later && later[id].group == key ==>
      id in all && all[id].group == key && later[id].epoch == all[id].epoch
  }

  /** No step admits or resumes a session of a fenced group. */
  lemma FencedStep(s: State, step: Step, key: string)
    requires Enabled(s, step) && Fenced(s, key) && key != ""
    ensures Still(s.all, Next(s, step).all, key)
  {
    hide Admitted, Resumed, RefreshChecked, RefreshStored, LeftGroup, LeftTable, CloseBegun, Retained, Shut, Unexpired,
      Matching, Still;
    ShutStill(s.all, 0, 0, key);
    match step
    case Admit(id, issuer, subject, group, handle) => FencedAdmit(s, id, issuer, subject, group, handle, key);
    case Resume(id, issuer, subject) => FencedResume(s, id, issuer, subject, key);
    case StoreRefresh(r) => FencedRefresh(s, r, key);
    case CloseSession(id, code) => ShutStill(s.all, id, code, key);
    case CloseNext(_, id) => ShutStill(s.all, id, GROUP_CLOSED, key);
    case RevokeNext(_, id) => ShutStill(s.all, id, FORBIDDEN, key);
    case _ =>
  }

  lemma ShutStill(all: map<nat, Session>, id: nat, code: nat, key: string)
    ensures Still(all, all, key) && Still(all, Shut(all, id, code), key)
  {
  }

  lemma FencedRefresh(s: State, r: Refresh, key: string)
    ensures Still(s.all, RefreshStored(s, r).all, key)
  {
  }

  lemma FencedAdmit(s: State, id: nat, issuer: string, subject: string, group: string, handle: nat, key: string)
    requires Fenced(s, key) && key != "" && handle !in s.objects
    ensures Still(s.all, Admitted(s, id, issuer, subject, group, handle).all, key)
  {
    hide Joined;
  }

  lemma FencedResume(s: State, id: nat, issuer: string, subject: string, key: string)
    requires Fenced(s, key) && key != ""
    ensures Still(s.all, Resumed(s, id, issuer, subject).all, key)
  {
  }

  /** From the moment `CloseGroup` sets `closed` and for as long as the key has an
      entry, no session of the group is admitted and none resumed: the group's
      sessions are the ones it had, at the epochs they had. */
  lemma {:induction false} GroupCloseFence(states: seq<State>, steps: seq<Step>, i: nat, j: nat, key: string)
    requires Run(states, steps) && i <= j <= |steps| && key != "" && Fenced(states[i], key)
    requires forall k :: i <= k <= j ==> key in states[k].groups
    ensures Fenced(states[j], key) && states[j].groups[key] == states[i].groups[key]
    ensures Still(states[i].all, states[j].all, key)
  {
    hide Next, Enabled, Inv, Fenced;
    if i < j {
      GroupCloseFence(states, steps, i, j - 1, key);
      KeyedRun(states, steps, j - 1);
      assert states[j - 1 + 1] == Next(states[j - 1], steps[j - 1]);
      FenceStep(states[j - 1], steps[j - 1], key);
      FencedStep(states[j - 1], steps[j - 1], key);
    }
  }

  lemma KeyedRun(states: seq<State>, steps: seq<Step>, n: nat)
    requires Run(states, steps) && n <= |steps|
    ensures Keyed(states[n].groups, states[n].objects)
  {
    InvRun(states, steps, n);
  }

  /** A fence whose closure was never committed is never lifted, whatever other
      `CloseGroup` calls and commit failures the run contains. */
  lemma {:induction false} UncommittedFenceStays(states: seq<State>, steps: seq<Step>, i: nat, j: nat, key: string)
    requires Run(states, steps) && i <= j <= |steps| && Fenced(states[i], key)
    requires var g := states[i].groups[key]; g in states[j].objects ==> !states[j].objects[g].persisted
    ensures Fenced(states[j], key) && states[j].groups[key] == states[i].groups[key]
  {
    hide Next, Enabled, Inv, Keyed, Aged, Frozen;
    if i < j {
      var g := states[i].groups[key];
      HistoryRun(states, steps, i, j - 1);
      FrozenAt(states[i].objects, states[j - 1].objects, g);
      HistoryRun(states, steps, j - 1, j);
      FrozenAt(states[j - 1].objects, states[j].objects, g);
      UncommittedFenceStays(states, steps, i, j - 1, key);
      KeyedRun(states, steps, j - 1);
      assert states[j - 1 + 1] == Next(states[j - 1], steps[j - 1]);
      FenceStep(states[j - 1], steps[j - 1], key);
    }
  }

  /** When `persisted` holds, every session ever registered in that group object is
      closed, and stays so. */
  lemma PersistedMeansClosed(states: seq<State>, steps: seq<Step>, i: nat, j: nat, g: nat)
    requires Run(states, steps) && i <= j <= |steps| && g in states[i].objects && states[i].objects[g].persisted
    ensures g in states[j].objects && states[j].objects[g].ever == states[i].objects[g].ever
    ensures forall id :: id in states[j].all && states[j].all[id].group != "" && states[j].all[id].handle == g ==>
              id in states[i].objects[g].ever && states[j].all[id].closed
  {
    InvRun(states, steps, i);
    InvRun(states, steps, j);
    HistoryRun(states, steps, i, j);
    hide Reachable, Bounded, Keyed, Rosters, Closing, Revoking, Checked;
    var s := states[j];
    assert s.objects[g].persisted;
    forall id | id in s.all && s.all[id].group != "" && s.all[id].handle == g
      ensures id in s.objects[g].ever && s.all[id].closed
    {
      assert NoneLive(s.all, s.objects[g].ever);
      assert !Live(s.all, id);
    }
  }

  lemma RevokerStep(s: State, step: Step, p: nat)
    requires Enabled(s, step) && p in s.revokers && step != EndRevoke(p)
    ensures p in Next(s, step).revokers
    ensures var a, b := s.revokers[p], Next(s, step).revokers[p];
            b.issuer == a.issuer && b.subject == a.subject && b.before == a.before
  {
    hide Admitted, Resumed, RefreshChecked, RefreshStored, LeftGroup, LeftTable, CloseBegun, Retained, Shut, Unexpired,
      Matching;
  }

  lemma {:induction false} RevokerKeeps(states: seq<State>, steps: seq<Step>, i: nat, j: nat, p: nat)
    requires Run(states, steps) && i <= j <= |steps| && p in states[i].revokers
    requires forall k :: i <= k < j ==> steps[k] != EndRevoke(p)
    ensures p in states[j].revokers
    ensures var a, b := states[i].revokers[p], states[j].revokers[p];
            b.issuer == a.issuer && b.subject == a.subject && b.before == a.before
  {
    hide Next, Enabled;
    if i < j {
      RevokerKeeps(states, steps, i, j - 1, p);
      assert states[j - 1 + 1] == Next(states[j - 1], steps[j - 1]);
      RevokerStep(states[j - 1], steps[j - 1], p);
    }
  }

  /** When `Revoke` returns, every session the server had admitted for that issuer
      and subject before it began is closed, whatever was refreshed or resumed meanwhile. */
  lemma RevokeCompletes(states: seq<State>, steps: seq<Step>, k: nat, i: nat, j: nat, admit: Step, p: nat)
    requires Run(states, steps) && k < i < j < |steps| && admit.Admit? && steps[k] == admit
    requires admit.id in states[k + 1].all
    requires steps[i] == BeginRevoke(p, admit.issuer, admit.subject) && steps[j] == EndRevoke(p)
    requires forall x :: i < x < j ==> steps[x] != EndRevoke(p)
    ensures admit.id in states[j].all && states[j].all[admit.id].closed
  {
    hide Next, Enabled, Aged, Frozen, Inv;
    AdmissionIsRecorded(states, steps, k);
    HistoryRun(states, steps, k + 1, i);
    AgedAt(states[k + 1].all, states[i].all, admit.id);
    RevokeCloses(states, steps, i, j, p, admit.issuer, admit.subject, admit.id);
  }

  lemma RevokeCloses(states: seq<State>, steps: seq<Step>, i: nat, j: nat, p: nat, issuer: string, subject: string,
                     id: nat)
    requires Run(states, steps) && i < j < |steps|
    requires steps[i] == BeginRevoke(p, issuer, subject) && steps[j] == EndRevoke(p)
    requires forall k :: i < k < j ==> steps[k] != EndRevoke(p)
    requires id in states[i].all && states[i].all[id].issuer == issuer && states[i].all[id].subject == subject
    ensures id in states[j].all && states[j].all[id].closed
  {
    hide Next, Enabled, Aged, Frozen, Inv, Matching;
    assert states[i + 1] == Next(states[i], steps[i]) && Enabled(states[j], steps[j]);
    RevokeBegins(states[i], p, issuer, subject);
    RevokerKeeps(states, steps, i + 1, j, p);
    HistoryRun(states, steps, i, j);
    AgedAt(states[i].all, states[j].all, id);
    InvRun(states, steps, j);
    RevokeEnds(states[j], p, id);
  }

  lemma AgedAt(all: map<nat, Session>, later: map<nat, Session>, id: nat)
    requires Aged(all, later) && id in all
    ensures id in later && Same(all[id], later[id])
  {
  }

  lemma RevokeBegins(s: State, p: nat, issuer: string, subject: string)
    requires Enabled(s, BeginRevoke(p, issuer, subject))
    ensures var s' := Next(s, BeginRevoke(p, issuer, subject));
            p in s'.revokers && s'.revokers[p] == Revoker(issuer, subject, s.all.Keys, Matching(s, issuer, subject))
  {
  }

  lemma RevokeEnds(s: State, p: nat, id: nat)
    requires Inv(s) && Enabled(s, EndRevoke(p)) && id in s.revokers[p].before && id in s.all
    requires s.all[id].issuer == s.revokers[p].issuer && s.all[id].subject == s.revokers[p].subject
    ensures s.all[id].closed
  {
    hide Reachable, Bounded, Keyed, Rosters, Homes, Outlived, Closing, Checked;
    assert Pursues(s.all, s.revokers[p]);
    assert !Live(s.all, id);
  }

  // ---------------------------------------------------------- what must happen

  predicate Leads(s: State, step: Step, s': State) {
    Enabled(s, step) && s' == Next(s, step)
  }

  /** The server is not draining, has room for a session and, for a group, an open entry or room for one. */
  predicate CanAdmit(s: State, group: string) {
    && !s.draining && |s.table| < s.limits.maxSessions
    && (group != "" && group in s.groups ==> s.groups[group] in s.objects && !s.objects[s.groups[group]].closed)
    && (group != "" && group !in s.groups ==> |s.groups| < s.limits.maxActiveGroups)
  }

  /** The session of admission `a` is on record as it was admitted: open, at epoch 1, in
      the table and among the members of its group's current object. */
  predicate OnRecord(s: State, a: Step)
    requires a.Admit?
  {
    && a.id in s.all && a.id in s.table
    && s.all[a.id].issuer == a.issuer && s.all[a.id].subject == a.subject && s.all[a.id].group == a.group
    && !s.all[a.id].closed && s.all[a.id].epoch == 1
    && (a.group != "" ==>
          && a.group in s.groups && s.groups[a.group] == s.all[a.id].handle
          && s.all[a.id].handle in s.objects && a.id in s.objects[s.all[a.id].handle].members)
  }

  /** A new connection is admitted exactly when it can be, and is then on record as it was admitted. */
  lemma AdmissionIsRecorded(states: seq<State>, steps: seq<Step>, n: nat)
    requires Run(states, steps) && n < |steps| && steps[n].Admit?
    ensures CanAdmit(states[n], steps[n].group) <==> steps[n].id in states[n + 1].all
    ensures CanAdmit(states[n], steps[n].group) <==> OnRecord(states[n + 1], steps[n])
  {
    hide Next, Enabled, CanAdmit, OnRecord;
    assert states[n + 1] == Next(states[n], steps[n]);
    AdmittedExactly(states[n], steps[n]);
  }

  lemma AdmittedExactly(s: State, a: Step)
    requires a.Admit? && Enabled(s, a)
    ensures CanAdmit(s, a.group) <==> a.id in Next(s, a).all
    ensures CanAdmit(s, a.group) <==> OnRecord(Next(s, a), a)
  {
    hide Opened, OnRecord, Registered, CanAdmit;
    var s' := if a.group == "" then s else Opened(s, a.group, a.handle);
    OpenedOpens(s, a.group, a.handle);
    if Admits(s', a.group) {
      RegisteredRecords(s', a);
    } else {
      assert !OnRecord(s', a) by {
        Unrecorded(s', a);
      }
    }
  }

  lemma Unrecorded(s: State, a: Step)
    requires a.Admit? && a.id !in s.all
    ensures !OnRecord(s, a)
  {
  }

  lemma OpenedOpens(s: State, group: string, handle: nat)
    requires handle !in s.objects
    ensures CanAdmit(s, group) <==> Admits(if group == "" then s else Opened(s, group, handle), group)
  {
  }

  lemma RegisteredRecords(s: State, a: Step)
    requires a.Admit? && a.id !in s.all && Admits(s, a.group)
    ensures OnRecord(Registered(s, a.id, a.issuer, a.subject, a.group), a)
  {
  }

  /** A resume by its own issuer and subject commits exactly when the session is open, below
      the last epoch, and its group, if any, has an open entry; nothing else changes. */
  lemma ResumeIsExact(states: seq<State>, steps: seq<Step>, n: nat, id: nat, issuer: string, subject: string)
    requires Run(states, steps) && n < |steps| && steps[n] == Resume(id, issuer, subject)
    ensures var s, s' := states[n], states[n + 1];
            if && id in s.all && !s.all[id].closed && s.all[id].issuer == issuer && s.all[id].subject == subject
               && s.all[id].epoch != 0xFFFF_FFFF_FFFF_FFFF
               && (s.all[id].group == ""
                   || (s.all[id].group in s.groups && s.groups[s.all[id].group] in s.objects
                       && !s.objects[s.groups[s.all[id].group]].closed))
            then s' == s.(all := s.all[id := s.all[id].(epoch := s.all[id].epoch + 1)])
            else s' == s
  {
    assert states[n + 1] == Next(states[n], steps[n]);
  }

  /** Closing, by whoever, closes an open session with that code. */
  lemma ClosingCloses(states: seq<State>, steps: seq<Step>, n: nat, id: nat)
    requires Run(states, steps) && n < |steps| && id in states[n].all && !states[n].all[id].closed
    requires steps[n].CloseSession? || steps[n].CloseNext? || steps[n].RevokeNext?
    requires steps[n].id == id
    ensures id in states[n + 1].all && states[n + 1].all[id].closed
    ensures states[n + 1].all[id].code
         == if steps[n].CloseNext? then 19 else if steps[n].RevokeNext? then 5 else steps[n].code
  {
    assert states[n + 1] == Next(states[n], steps[n]);
  }

  /** A closed session leaves the table for the terminal cache, where its code is kept for 30 seconds. */
  lemma LeavingIsRecorded(states: seq<State>, steps: seq<Step>, n: nat, id: nat, now: int, victim: nat)
    requires Run(states, steps) && n < |steps| && steps[n] == LeaveTable(id, now, victim) && id in states[n].table
    ensures var s, s' := states[n], states[n + 1];
            && id in s.all && s'.table == s.table - {id}
            && id in s'.terminals && s'.terminals[id] == Terminal(s.all[id].code, now + 30)
            && forall x :: x in s.terminals && s.terminals[x].expires > now && x != id ==>
                 x in s'.terminals || (x == victim && |s.terminals| >= 2 * s.limits.maxSessions)
                 || s.limits.maxSessions > 0x3FFF_FFFF_FFFF_FFFF
  {
    assert states[n + 1] == Next(states[n], steps[n]);
    var kept := Unexpired(states[n].terminals, now);
    SubsetSize(kept.Keys, states[n].terminals.Keys);
  }

  /** An entry not yet expired is kept by expiry, and one expired is not. */
  lemma ExpiryIsExact(states: seq<State>, steps: seq<Step>, n: nat, now: int, id: nat)
    requires Run(states, steps) && n < |steps| && steps[n] == ExpireTerminals(now)
    ensures id in states[n + 1].terminals <==> id in states[n].terminals && now < states[n].terminals[id].expires
  {
    assert states[n + 1] == Next(states[n], steps[n]);
  }

  /** `CloseGroup` fences the group at once, whether it had an entry or there was room for one, and
      has every session still live in it on its list. */
  lemma ClosingFences(states: seq<State>, steps: seq<Step>, n: nat, p: nat, group: string, handle: nat)
    requires Run(states, steps) && n < |steps| && steps[n] == BeginClose(p, group, handle)
    requires group in states[n].groups || |states[n].groups| < states[n].limits.maxActiveGroups
    ensures Fenced(states[n + 1], group) && p in states[n + 1].closers
    ensures states[n + 1].closers[p].handle == states[n + 1].groups[group]
    ensures forall id :: Live(states[n].all, id) && states[n].all[id].group == group ==>
              id in states[n + 1].closers[p].remaining
  {
    InvRun(states, steps, n);
    assert states[n + 1] == Next(states[n], steps[n]);
    hide Next, Enabled, Inv;
    CloseBegunFences(states[n], p, group, handle);
  }

  lemma CloseBegunFences(s: State, p: nat, group: string, handle: nat)
    requires Inv(s) && Enabled(s, BeginClose(p, group, handle))
    requires group in s.groups || |s.groups| < s.limits.maxActiveGroups
    ensures var s' := Next(s, BeginClose(p, group, handle));
            && Fenced(s', group) && p in s'.closers && s'.closers[p].handle == s'.groups[group]
            && forall id :: Live(s.all, id) && s.all[id].group == group ==> id in s'.closers[p].remaining
  {
    hide Bounded, Rosters, Homes, Outlived, Closing, Revoking, Checked;
    var before, s' := Opened(s, group, handle), Next(s, BeginClose(p, group, handle));
    hide Opened;
    OpenedHas(s, group, handle);
    forall id | Live(s.all, id) && s.all[id].group == group ensures id in s'.closers[p].remaining {
      assert before.groups[group] == s.all[id].handle;
    }
  }

  lemma OpenedHas(s: State, group: string, handle: nat)
    requires Keyed(s.groups, s.objects)
    requires group in s.groups || |s.groups| < s.limits.maxActiveGroups
    ensures var r := Opened(s, group, handle);
            && group in r.groups && r.groups[group] in r.objects
            && (group in s.groups ==> r == s)
  {
  }

  /** A committed closure whose group object is still current is retained, and a retained one can be deleted. */
  lemma CommittedIsRetained(states: seq<State>, steps: seq<Step>, n: nat, p: nat)
    requires Run(states, steps) && n < |steps| && steps[n] == Retain(p) && p in states[n].closers
    requires var g := states[n].closers[p].handle;
             g in states[n].objects && states[n].objects[g].key in states[n].groups
             && states[n].groups[states[n].objects[g].key] == g
    ensures var g := states[n].closers[p].handle; g in states[n + 1].objects && states[n + 1].objects[g].persisted
    ensures var key := states[n].objects[states[n].closers[p].handle].key;
            key !in Next(states[n + 1], ExpireTombstone(key)).groups
  {
    InvRun(states, steps, n);
    assert states[n + 1] == Next(states[n], steps[n]);
    hide Reachable, Bounded, Rosters, Homes, Outlived, Revoking, Checked;
    assert Covers(states[n].all, states[n].objects, states[n].closers[p]);
  }

  // ------------------------------------------------------- what must not happen

  /** A running CloseGroup has only sessions of its own, closed, group object on its list. */
  predicate AimsAt(objects: map<nat, Group>, c: Closer) {
    c.handle in objects && objects[c.handle].closed && c.remaining <= objects[c.handle].ever
  }

  /** A running Revoke has only sessions of its issuer and subject on its list. */
  ghost predicate Hunts(all: map<nat, Session>, r: Revoker) {
    forall id :: id in r.remaining ==> id in all && all[id].issuer == r.issuer && all[id].subject == r.subject
  }

  ghost predicate Aimed(s: State) {
    && (forall p :: p in s.closers ==> AimsAt(s.objects, s.closers[p]))
    && (forall p :: p in s.revokers ==> Hunts(s.all, s.revokers[p]))
  }

  ghost predicate FewerClosers(closers: map<nat, Closer>, later: map<nat, Closer>) {
    forall p :: p in later ==>
      p in closers && later[p].handle == closers[p].handle && later[p].remaining <= closers[p].remaining
  }

  ghost predicate FewerRevokers(revokers: map<nat, Revoker>, later: map<nat, Revoker>) {
    forall p :: p in later ==>
      && p in revokers && later[p].issuer == revokers[p].issuer && later[p].subject == revokers[p].subject
      && later[p].remaining <= revokers[p].remaining
  }

  lemma ClosersKept(objects: map<nat, Group>, later: map<nat, Group>, closers: map<nat, Closer>,
                    fewer: map<nat, Closer>)
    requires Frozen(objects, later) && FewerClosers(closers, fewer)
    requires forall p :: p in closers ==> AimsAt(objects, closers[p])
    ensures forall p :: p in fewer ==> AimsAt(later, fewer[p])
  {
    forall p | p in fewer ensures AimsAt(later, fewer[p]) {
      assert AimsAt(objects, closers[p]);
    }
  }

  lemma RevokersKept(all: map<nat, Session>, later: map<nat, Session>, revokers: map<nat, Revoker>,
                     fewer: map<nat, Revoker>)
    requires Aged(all, later) && FewerRevokers(revokers, fewer)
    requires forall p :: p in revokers ==> Hunts(all, revokers[p])
    ensures forall p :: p in fewer ==> Hunts(later, fewer[p])
  {
    forall p | p in fewer ensures Hunts(later, fewer[p]) {
      assert Hunts(all, revokers[p]);
    }
  }

  lemma AimedClosers(s: State, step: Step)
    requires Inv(s) && Aimed(s) && Enabled(s, step)
    ensures forall p :: p in Next(s, step).closers ==> AimsAt(Next(s, step).objects, Next(s, step).closers[p])
  {
    FrozenStep(s, step);
    hide Inv, Frozen, AimsAt, Hunts, FewerClosers;
    if step.BeginClose? {
      BeginCloseAims(s, step.p, step.group, step.handle);
    } else {
      CloserMoves(s, step);
      hide Next;
      ClosersKept(s.objects, Next(s, step).objects, s.closers, Next(s, step).closers);
    }
  }

  lemma CloserMoves(s: State, step: Step)
    requires Enabled(s, step) && !step.BeginClose?
    ensures FewerClosers(s.closers, Next(s, step).closers)
  {
    hide Admitted, Resumed, RefreshChecked, RefreshStored, LeftGroup, LeftTable, CloseBegun, Shut, Unexpired, Matching,
      Retains, IsTombstone;
  }

  lemma BeginCloseAims(s: State, p: nat, group: string, handle: nat)
    requires Inv(s) && Aimed(s) && Enabled(s, BeginClose(p, group, handle))
    ensures var s' := CloseBegun(s, p, group, handle); forall q :: q in s'.closers ==> AimsAt(s'.objects, s'.closers[q])
  {
    CloseBegunFrozen(s, p, group, handle);
    OpenedInv(s, group, handle);
    hide Frozen, AimsAt, Hunts, Reachable, Bounded, Homes, Outlived, Closing, Revoking, Checked, Opened;
    var before, s' := Opened(s, group, handle), CloseBegun(s, p, group, handle);
    ClosersKept(s.objects, s'.objects, s.closers, s.closers);
    if group in before.groups && before.groups[group] in before.objects {
      var g := before.groups[group];
      assert Roster(before.all, before.objects[g], g);
      assert AimsAt(s'.objects, Closer(g, before.objects[g].members, false)) by {
        SnapshotAims(before.objects, g);
      }
    }
  }

  lemma SnapshotAims(objects: map<nat, Group>, g: nat)
    requires g in objects && objects[g].members <= objects[g].ever
    ensures AimsAt(objects[g := objects[g].(closed := true)], Closer(g, objects[g].members, false))
  {
  }

  lemma AimedRevokers(s: State, step: Step)
    requires Inv(s) && Aimed(s) && Enabled(s, step)
    ensures forall p :: p in Next(s, step).revokers ==> Hunts(Next(s, step).all, Next(s, step).revokers[p])
  {
    AgedStep(s, step);
    hide Inv, Aged, AimsAt, Hunts, FewerRevokers, Matching;
    if step.BeginRevoke? {
      MatchingHunts(s, step.issuer, step.subject);
    } else {
      RevokerMoves(s, step);
      hide Next;
      RevokersKept(s.all, Next(s, step).all, s.revokers, Next(s, step).revokers);
    }
  }

  lemma RevokerMoves(s: State, step: Step)
    requires Enabled(s, step) && !step.BeginRevoke?
    ensures FewerRevokers(s.revokers, Next(s, step).revokers)
  {
    hide Admitted, Resumed, RefreshChecked, RefreshStored, LeftGroup, LeftTable, CloseBegun, Retained, Shut, Unexpired,
      Matching, IsTombstone;
  }

  lemma MatchingHunts(s: State, issuer: string, subject: string)
    ensures Hunts(s.all, Revoker(issuer, subject, s.all.Keys, Matching(s, issuer, subject)))
  {
  }

  lemma {:induction false} AimedRun(states: seq<State>, steps: seq<Step>, n: nat)
    requires Run(states, steps) && n <= |steps|
    ensures Aimed(states[n])
  {
    hide Next, Enabled, Inv, AimsAt, Hunts;
    if n > 0 {
      AimedRun(states, steps, n - 1);
      InvRun(states, steps, n - 1);
      assert states[n - 1 + 1] == Next(states[n - 1], steps[n - 1]);
      AimedClosers(states[n - 1], steps[n - 1]);
      AimedRevokers(states[n - 1], steps[n - 1]);
    }
  }

  /** `step` has cause to close session `id`: it was asked to, or the session is of the closed
      group object or of the issuer and subject that a running CloseGroup or Revoke is for. */
  predicate MayClose(s: State, step: Step, id: nat)
    requires id in s.all
  {
    var session := s.all[id];
    match step
    case CloseSession(x, _) => x == id
    case CloseNext(p, x) =>
      x == id && p in s.closers && session.handle == s.closers[p].handle && Fenced(s, session.group)
    case RevokeNext(p, x) =>
      && x == id && p in s.revokers
      && session.issuer == s.revokers[p].issuer && session.subject == s.revokers[p].subject
    case _ => false
  }

  /** Nothing touches a session but its own resume and a closing that has cause to: a Revoke closes
      nobody else's sessions and a CloseGroup none of another group. */
  lemma OthersAreUntouched(states: seq<State>, steps: seq<Step>, n: nat, id: nat)
    requires Run(states, steps) && n < |steps| && id in states[n].all
    ensures id in states[n + 1].all
    ensures states[n + 1].all[id] == states[n].all[id]
         || (steps[n].Resume? && steps[n].id == id)
         || (Live(states[n].all, id) && MayClose(states[n], steps[n], id))
  {
    hide Next, Enabled, Inv, Aimed, MayClose;
    AimedRun(states, steps, n);
    InvRun(states, steps, n);
    assert states[n + 1] == Next(states[n], steps[n]);
    TouchedStep(states[n], steps[n], id);
  }

  lemma TouchedStep(s: State, step: Step, id: nat)
    requires Inv(s) && Aimed(s) && Enabled(s, step) && id in s.all
    ensures id in Next(s, step).all
    ensures Next(s, step).all[id] == s.all[id] || (step.Resume? && step.id == id)
         || (Live(s.all, id) && MayClose(s, step, id))
  {
    hide Inv, AimsAt, Hunts, MayClose, Admitted, RefreshChecked, RefreshStored, LeftGroup, LeftTable,
      CloseBegun, Retained, Unexpired, Matching;
    match step
    case Admit(x, issuer, subject, group, handle) => AdmittedLeaves(s, x, issuer, subject, group, handle, id);
    case StoreRefresh(r) => StoredLeaves(s, r, id);
    case CloseSession(x, code) => AskedCloses(s, x, code);
    case CloseNext(p, x) => CloserCloses(s, p, x);
    case RevokeNext(p, x) => RevokerCloses(s, p, x);
    case _ =>
  }

  lemma AdmittedLeaves(s: State, x: nat, issuer: string, subject: string, group: string, handle: nat, id: nat)
    requires x !in s.all && id in s.all
    ensures var s' := Admitted(s, x, issuer, subject, group, handle); id in s'.all && s'.all[id] == s.all[id]
  {
    hide Opened, GroupOpen, Joined;
  }

  lemma StoredLeaves(s: State, r: Refresh, id: nat)
    requires Inv(s) && r in s.refreshes && id in s.all
    ensures var s' := RefreshStored(s, r); id in s'.all && s'.all[id] == s.all[id]
  {
    hide Reachable, Bounded, Keyed, Rosters, Homes, Outlived, Closing, Revoking;
  }

  lemma AskedCloses(s: State, id: nat, code: nat)
    ensures id in s.all ==> MayClose(s, CloseSession(id, code), id)
  {
  }

  lemma CloserCloses(s: State, p: nat, id: nat)
    requires Inv(s) && Aimed(s) && Enabled(s, CloseNext(p, id))
    ensures Live(s.all, id) ==> MayClose(s, CloseNext(p, id), id)
  {
    hide Bounded, Homes, Outlived, Closing, Revoking, Checked, Hunts;
    var g := s.closers[p].handle;
    assert AimsAt(s.objects, s.closers[p]);
    assert Roster(s.all, s.objects[g], g);
  }

  lemma RevokerCloses(s: State, p: nat, id: nat)
    requires Aimed(s) && Enabled(s, RevokeNext(p, id))
    ensures Live(s.all, id) ==> MayClose(s, RevokeNext(p, id), id)
  {
    assert Hunts(s.all, s.revokers[p]);
  }

  /** Draining begins at once; leaving takes one session off the current object of its group and no other. */
  lemma SmallSteps(states: seq<State>, steps: seq<Step>, n: nat)
    requires Run(states, steps) && n < |steps|
    ensures steps[n].BeginDrain? ==> states[n + 1] == states[n].(draining := true)
    ensures steps[n].LeaveGroup? ==>
              forall key, id :: key in states[n].groups && id in states[n].all ==>
                var g := states[n].groups[key];
                && key in states[n + 1].groups && states[n + 1].groups[key] == g && g in states[n + 1].objects
                && (id in states[n + 1].objects[g].members <==>
                      && g in states[n].objects && id in states[n].objects[g].members
                      && !(id == steps[n].id && states[n].all[id].group == key))
    ensures steps[n].CheckRefresh? ==>
              var r := steps[n].refresh;
              (r in states[n + 1].refreshes <==>
                 r.id in states[n].all && states[n].all[r.id].issuer == r.issuer
                 && states[n].all[r.id].subject == r.subject)
  {
    assert states[n + 1] == Next(states[n], steps[n]);
    InvRun(states, steps, n);
    hide Reachable, Bounded, Rosters, Homes, Outlived, Closing, Revoking;
  }

  // ------------------------------------------------------------- what can happen

  /** A stretch of a run, from any state. */
  ghost predicate Path(states: seq<State>, steps: seq<Step>) {
    && |states| == |steps| + 1
    && forall i :: 0 <= i < |steps| ==> Leads(states[i], steps[i], states[i + 1])
  }

  lemma Onward(s: State, step: Step, states: seq<State>, steps: seq<Step>)
    requires Path(states, steps) && Leads(s, step, states[0])
    ensures Path([s] + states, [step] + steps)
  {
    hide Leads;
    var all, moves := [s] + states, [step] + steps;
    forall i | 0 <= i < |moves| ensures Leads(all[i], moves[i], all[i + 1]) {
      if i > 0 {
        assert Leads(states[i - 1], steps[i - 1], states[i]);
      }
    }
  }

  /** A path keeps the invariant. */
  lemma {:induction false} PathInv(states: seq<State>, steps: seq<Step>, i: nat)
    requires Path(states, steps) && i <= |steps| && Inv(states[0])
    ensures Inv(states[i])
  {
    hide Inv, Next, Enabled;
    if i > 0 {
      PathInv(states, steps, i - 1);
      assert Leads(states[i - 1], steps[i - 1], states[i - 1 + 1]);
      InvStep(states[i - 1], steps[i - 1]);
    }
  }

  predicate Named(all: map<nat, Session>, id: nat, issuer: string, subject: string) {
    id in all && all[id].issuer == issuer && all[id].subject == subject
  }

  /** From every reachable state, `Revoke` can be called and carried to its end, and then every
      session admitted for that issuer and subject is closed. */
  lemma RevokeCanRun(before: seq<State>, taken: seq<Step>, n: nat, p: nat, issuer: string, subject: string)
    returns (states: seq<State>, steps: seq<Step>, last: State)
    requires Run(before, taken) && n <= |taken| && p !in before[n].revokers
    ensures Path(states, steps) && Leads(before[n], BeginRevoke(p, issuer, subject), states[0])
    ensures forall i :: 0 <= i < |steps| ==> steps[i].RevokeNext? && steps[i].p == p
    ensures Leads(states[|steps|], EndRevoke(p), last) && p !in last.revokers
    ensures forall id :: Named(before[n].all, id, issuer, subject) ==> !Live(last.all, id)
  {
    var s, step := before[n], BeginRevoke(p, issuer, subject);
    InvRun(before, taken, n);
    InvStep(s, step);
    RevokeBegins(s, p, issuer, subject);
    var s' := Next(s, step);
    assert s'.all == s.all;
    hide Inv, Matching, Aged;
    states, steps := RevokeCanFinish(s', p);
    PathInv(states, steps, |steps|);
    hide Path;
    last := RevokeLast(states[|steps|], p, s.all);
  }

  lemma RevokeLast(s: State, p: nat, before: map<nat, Session>) returns (last: State)
    requires Inv(s) && p in s.revokers && s.revokers[p].remaining == {} && s.revokers[p].before == before.Keys
    requires Aged(before, s.all)
    ensures Leads(s, EndRevoke(p), last) && p !in last.revokers
    ensures forall id :: Named(before, id, s.revokers[p].issuer, s.revokers[p].subject) ==> !Live(last.all, id)
  {
    last := Next(s, EndRevoke(p));
    assert Enabled(s, EndRevoke(p)) && last.all == s.all;
    hide Inv, Next, Enabled, Aged;
    forall id | Named(before, id, s.revokers[p].issuer, s.revokers[p].subject) ensures !Live(last.all, id) {
      AgedAt(before, s.all, id);
      RevokeEnds(s, p, id);
    }
  }

  lemma {:induction false} RevokeCanFinish(s: State, p: nat) returns (states: seq<State>, steps: seq<Step>)
    requires p in s.revokers
    ensures Path(states, steps) && states[0] == s
    ensures forall i :: 0 <= i < |steps| ==> steps[i].RevokeNext? && steps[i].p == p
    ensures var end := states[|steps|];
            p in end.revokers && end.revokers[p] == s.revokers[p].(remaining := {}) && Aged(s.all, end.all)
    decreases s.revokers[p].remaining
  {
    hide Aged, Next, Enabled;
    if s.revokers[p].remaining == {} {
      Reflexive(s.all, s.objects);
      states, steps := [s], [];
    } else {
      var id :| id in s.revokers[p].remaining;
      var step := RevokeNext(p, id);
      RevokingStep(s, p, id);
      var after, moves := RevokeCanFinish(Next(s, step), p);
      AgedTransitive(s.all, Next(s, step).all, after[|moves|].all);
      Onward(s, step, after, moves);
      hide Path, Leads;
      states, steps := [s] + after, [step] + moves;
    }
  }

  lemma RevokingStep(s: State, p: nat, id: nat)
    requires p in s.revokers && id in s.revokers[p].remaining
    ensures var s' := Next(s, RevokeNext(p, id));
            && Enabled(s, RevokeNext(p, id)) && p in s'.revokers && Aged(s.all, s'.all)
            && s'.revokers[p] == s.revokers[p].(remaining := s.revokers[p].remaining - {id})
  {
    hide Aged, Shut;
    ShutAged(s.all, id, FORBIDDEN);
  }

  /** From every reachable state, `CloseGroup` can be called for a group that has an entry, or for
      which there is room, and carried to its end: the closure is then retained, unless it was
      already, and every session the group's object has ever had is closed. */
  lemma CloseGroupCanRun(before: seq<State>, taken: seq<Step>, n: nat, p: nat, group: string, handle: nat)
    returns (states: seq<State>, steps: seq<Step>)
    requires Run(before, taken) && n <= |taken| && p !in before[n].closers && group != ""
    requires handle !in before[n].objects
    requires group in before[n].groups || |before[n].groups| < before[n].limits.maxActiveGroups
    ensures Path(states, steps) && states[0] == before[n] && p !in states[|steps|].closers
    ensures |steps| >= 1 && steps[0] == BeginClose(p, group, handle)
    ensures forall i :: 0 < i < |steps| ==> OfCloser(steps[i], p)
    ensures var last := states[|steps|];
            && Fenced(last, group) && last.objects[last.groups[group]].persisted
            && forall id :: Live(last.all, id) ==> last.all[id].group != group
  {
    var s, step := before[n], BeginClose(p, group, handle);
    InvRun(before, taken, n);
    assert Enabled(s, step);
    InvStep(s, step);
    CloseBegunFences(s, p, group, handle);
    hide Inv, Next, Enabled, Fenced;
    var after, moves := FencedFinish(Next(s, step), p, group);
    Onward(s, step, after, moves);
    states, steps := [s] + after, [step] + moves;
    assert states[|steps|] == after[|moves|];
  }

  lemma FencedFinish(s: State, p: nat, group: string) returns (states: seq<State>, steps: seq<Step>)
    requires Inv(s) && Fenced(s, group) && group != "" && p in s.closers && s.closers[p].handle == s.groups[group]
    ensures Path(states, steps) && states[0] == s && p !in states[|steps|].closers
    ensures forall i :: 0 <= i < |steps| ==> OfCloser(steps[i], p)
    ensures var last := states[|steps|];
            && Fenced(last, group) && last.objects[last.groups[group]].persisted
            && forall id :: Live(last.all, id) ==> last.all[id].group != group
  {
    CloserCurrent(s, p, group);
    hide Inv, Next, Enabled;
    states, steps := CloseCanFinish(s, p);
    PathInv(states, steps, |steps|);
    hide Path;
    NobodyLeft(states[|steps|], group);
  }

  /** The object of a fenced group is under its own key. */
  lemma CloserCurrent(s: State, p: nat, group: string)
    requires Inv(s) && Fenced(s, group) && p in s.closers && s.closers[p].handle == s.groups[group]
    ensures Retains(s, s.groups[group]) || s.objects[s.groups[group]].persisted
  {
    hide Reachable, Bounded, Rosters, Homes, Outlived, Closing, Revoking, Checked;
  }

  lemma NobodyLeft(s: State, group: string)
    requires Inv(s) && Fenced(s, group) && s.objects[s.groups[group]].persisted && group != ""
    ensures forall id :: Live(s.all, id) ==> s.all[id].group != group
  {
    hide Bounded, Keyed, Rosters, Closing, Revoking, Checked;
    var g := s.groups[group];
    assert NoneLive(s.all, s.objects[g].ever);
  }

  predicate OfCloser(step: Step, p: nat) {
    step == Retain(p) || step == CommitClose(p, true) || (step.CloseNext? && step.p == p)
  }

  lemma {:induction false} CloseCanFinish(s: State, p: nat) returns (states: seq<State>, steps: seq<Step>)
    requires p in s.closers
    ensures Path(states, steps) && states[0] == s && p !in states[|steps|].closers
    ensures forall i :: 0 <= i < |steps| ==> OfCloser(steps[i], p)
    ensures var g, last := s.closers[p].handle, states[|steps|];
            && last.groups == s.groups
            && last.objects == if Retains(s, g) then s.objects[g := s.objects[g].(persisted := true)] else s.objects
    decreases if s.closers[p].committed then 0 else 1, s.closers[p].remaining
  {
    if s.closers[p].committed {
      states, steps := [s, Next(s, Retain(p))], [Retain(p)];
    } else {
      var step := ClosingStep(s, p);
      hide Next, Enabled;
      var after, moves := CloseCanFinish(Next(s, step), p);
      Onward(s, step, after, moves);
      states, steps := [s] + after, [step] + moves;
    }
  }

  lemma ClosingStep(s: State, p: nat) returns (step: Step)
    requires p in s.closers && !s.closers[p].committed
    ensures Enabled(s, step) && p in Next(s, step).closers
    ensures OfCloser(step, p)
    ensures var s' := Next(s, step);
            && s'.groups == s.groups && s'.objects == s.objects && s'.closers[p].handle == s.closers[p].handle
            && (s'.closers[p].committed || s'.closers[p].remaining < s.closers[p].remaining)
  {
    hide Shut;
    if s.closers[p].remaining == {} {
      step := CommitClose(p, true);
    } else {
      var id :| id in s.closers[p].remaining;
      step := CloseNext(p, id);
    }
  }

  /** Draining can begin, a session be closed and a refresh be checked at any time. */
  lemma AtAnyTime(s: State, id: nat, code: nat, refresh: Refresh)
    ensures Enabled(s, BeginDrain) && Enabled(s, CloseSession(id, code)) && Enabled(s, CheckRefresh(refresh))
    ensures Live(s.all, id) ==> !Live(Next(s, CloseSession(id, code)).all, id)
    ensures Next(s, BeginDrain).draining
  {
  }

  /** A closed session can leave the table at any time, for a victim with the earliest expiry. */
  lemma ClosedCanLeave(states: seq<State>, steps: seq<Step>, n: nat, id: nat, now: int) returns (victim: nat)
    requires Run(states, steps) && n <= |steps| && id in states[n].all && states[n].all[id].closed
    ensures Enabled(states[n], LeaveGroup(id)) && Enabled(states[n], LeaveTable(id, now, victim))
  {
    InvRun(states, steps, n);
    var kept := Unexpired(states[n].terminals, now);
    victim := 0;
    if kept != map[] {
      victim := EarliestOf(kept, kept.Keys);
    }
  }

  lemma {:induction false} EarliestOf(terminals: map<nat, Terminal>, ids: set<nat>) returns (victim: nat)
    requires ids <= terminals.Keys && ids != {}
    ensures victim in ids && forall id :: id in ids ==> terminals[victim].expires <= terminals[id].expires
    decreases ids
  {
    victim :| victim in ids;
    if ids != {victim} {
      var other := EarliestOf(terminals, ids - {victim});
      if terminals[other].expires < terminals[victim].expires {
        victim := other;
      }
    }
  }

  /** The code a refused connection is told, cause by cause; it is zero exactly for one that can be admitted. */
  lemma RefusalsAreTold(s: State, group: string, handle: nat)
    requires handle !in s.objects && Keyed(s.groups, s.objects)
    ensures Refusal(s, group, handle) == 0 <==> CanAdmit(s, group)
    ensures group != "" && group !in s.groups && |s.groups| >= s.limits.maxActiveGroups ==>
              Refusal(s, group, handle) == 20
    ensures Fenced(s, group) && group != "" ==> Refusal(s, group, handle) == 19
    ensures s.draining && (group == "" || GroupOpen(s.groups, s.objects, group)) ==> Refusal(s, group, handle) == 10
    ensures !s.draining && (group == "" || GroupOpen(s.groups, s.objects, group)) ==>
              Refusal(s, group, handle) == if |s.table| >= s.limits.maxSessions then 20 else 0
  {
  }
}
