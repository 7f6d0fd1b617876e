/**
 The logical session of `session.go` and the resume exchange of `endpoint.go`.

 A server record and a client record are joined by connections that come and
 go. Each resume the server commits takes the next epoch and is announced by a
 WELCOME that may be lost; a HELLO may arrive long after its sender gave up.
 Closing is not fenced: either side may close at any moment from any connection.
 */
module SessionProtocol {
  import opened Prelude

  const SESSION_SUPERSEDED: nat := 17

  datatype Status = Active | Suspended | Closed

  /** Connections are numbered; `conn` is the connection whose operations the
      session holds, and `terminals` every terminal code ever stored. */
  datatype Record = Record(status: Status, epoch: nat, conn: nat, terminals: seq<nat>)

  // ----------------------------------------------------- critical sections

  function Opened(conn: nat): Record {
    Record(Active, 1, conn, [])
  }

  function Ended(r: Record, code: nat): Record {
    if r.status == Closed then r else r.(status := Closed, terminals := r.terminals + [code])
  }

  function Lost(r: Record, conn: nat): Record {
    if r.conn == conn && r.status == Active then r.(status := Suspended) else r
  }

  /** `replaceConnectionAt` refuses a closed session and any epoch not beyond its own. */
  predicate Attaches(r: Record, epoch: nat) {
    r.status != Closed && epoch > r.epoch
  }

  function Attached(r: Record, conn: nat, epoch: nat): Record {
    if Attaches(r, epoch) then r.(status := Active, epoch := epoch, conn := conn) else r
  }

  /** The commit of `resumeConnection`, its credential checks being `authorised`. */
  predicate Resumes(r: Record, authorised: bool) {
    r.status != Closed && authorised && r.epoch != MAX_EPOCH
  }

  predicate Current(r: Record, conn: nat, opsEpoch: nat) {
    r.conn == conn && r.status == Active && r.epoch == opsEpoch
  }

  // ------------------------------------------------------------- source form

  /** The epoch field of a `connectionOperations`. */
  class Operations {
    const conn: nat
    var epoch: nat

    constructor (conn: nat)
      ensures this.conn == conn && epoch == 0
    {
      this.conn, epoch := conn, 0;
    }
  }

  class SessionRecord {
    var state: Status
    var epoch: nat
    var operations: Operations
    var terminal: Option<nat>
    ghost var terminals: seq<nat>

    ghost function View(): Record
      reads this
    {
      Record(state, epoch, operations.conn, terminals)
    }

    constructor (operations: Operations)
      ensures View() == Opened(operations.conn) && this.operations == operations && terminal == None
    {
      state, epoch, this.operations, terminal, terminals := Active, 1, operations, None, [];
    }

    /** `Close`; the code of a superseded connection is not a session's to use. */
    method Close(code: nat) returns (closed: bool)
      modifies this
      ensures closed == (code != SESSION_SUPERSEDED && old(state) != Closed)
      ensures View() == if code == SESSION_SUPERSEDED then old(View()) else Ended(old(View()), code)
      ensures terminal == (if closed then Some(code) else old(terminal)) && operations == old(operations)
    {
      if code == SESSION_SUPERSEDED {
        return false;
      }
      if state == Closed {
        return false;
      }
      state := Closed;
      terminal, terminals := Some(code), terminals + [code];
      return true;
    }

    method CloseRemote(code: nat) returns (closed: bool)
      modifies this
      ensures closed == (old(state) != Closed)
      ensures View() == Ended(old(View()), code) && operations == old(operations)
      ensures terminal == if closed then Some(code) else old(terminal)
    {
      if state == Closed {
        return false;
      }
      state := Closed;
      terminal, terminals := Some(code), terminals + [code];
      return true;
    }

    method SuspendIfCurrent(ops: Operations) returns (suspended: bool)
      requires ops.conn == operations.conn ==> ops == operations
      modifies this
      ensures suspended == (View() != old(View()))
      ensures View() == Lost(old(View()), ops.conn) && operations == old(operations) && terminal == old(terminal)
    {
      if operations != ops || state != Active {
        return false;
      }
      state := Suspended;
      return true;
    }

    method IsCurrent(ops: Operations) returns (current: bool)
      requires ops.conn == operations.conn ==> ops == operations
      ensures current == Current(View(), ops.conn, ops.epoch)
    {
      return operations == ops && state == Active && epoch == ops.epoch;
    }

    method ReplaceConnectionAt(ops: Operations, at: nat) returns (ok: bool)
      modifies this, ops
      ensures ok == Attaches(old(View()), at)
      ensures View() == Attached(old(View()), ops.conn, at) && terminal == old(terminal)
      ensures ops.epoch == if ok then at else old(ops.epoch)
    {
      if state == Closed {
        return false;
      }
      if at <= epoch || at == 0 {
        return false;
      }
      epoch := at;
      ops.epoch := at;
      state := Active;
      operations := ops;
      return true;
    }

    /** The critical section of `resumeConnection`. */
    method CommitResume(ops: Operations, authorised: bool) returns (ok: bool)
      modifies this, ops
      ensures ok == Resumes(old(View()), authorised)
      ensures View() == if ok then Attached(old(View()), ops.conn, old(epoch) + 1) else old(View())
      ensures terminal == old(terminal)
      ensures ops.epoch == if ok then old(epoch) + 1 else old(ops.epoch)
    {
      if state == Closed || !authorised {
        return false;
      }
      if epoch == MAX_EPOCH {
        return false;
      }
      epoch := epoch + 1;
      ops.epoch := epoch;
      state := Active;
      operations := ops;
      return true;
    }
  }

  // ---------------------------------------------------------------- protocol

  datatype State = State(
    server: Record,
    client: Option<Record>,
    serverOps: map<nat, nat>,   // epoch field of the server's operations, per connection
    clientOps: map<nat, nat>,
    commits: seq<nat>,          // connection committed at each epoch, in order
    dialled: set<nat>,          // every connection ever opened
    hellos: set<nat>,           // resume HELLOs not yet handled
    welcomes: map<nat, nat>)    // WELCOMEs written, with their epoch

  datatype Step =
    | WriteWelcome(c: nat)
    | Accept                                // Dial receives the first WELCOME
    | Redial(c: nat)                        // openResume sends a HELLO on a new connection
    | Resume(c: nat, authorised: bool)      // the server handles that HELLO
    | Attach(c: nat)                        // attachResume reads the WELCOME
    | ServerLoss(c: nat)                    // finishConnection
    | ClientLoss(c: nat)                    // transportLost
    | ServerClose(code: nat)
    | ClientClose(code: nat)

  predicate Enabled(s: State, step: Step) {
    match step
    case WriteWelcome(c) => c in s.serverOps && c !in s.welcomes
    case Accept => s.client.None? && s.commits != [] && s.commits[0] in s.welcomes
    case Redial(c) => s.client.Some? && c !in s.dialled
    case Resume(c, _) => c in s.hellos
    case Attach(c) => s.client.Some? && c in s.welcomes && s.commits != [] && c != s.commits[0]
    case ServerLoss(_) | ServerClose(_) => true
    case ClientLoss(_) | ClientClose(_) => s.client.Some?
  }

  function Next(s: State, step: Step): State
    requires Enabled(s, step)
  {
    match step
    case WriteWelcome(c) => s.(welcomes := s.welcomes[c := s.serverOps[c]])
    case Accept =>
      var c := s.commits[0];
      s.(client := Some(Opened(c)), clientOps := s.clientOps[c := 1])
    case Redial(c) => s.(dialled := s.dialled + {c}, hellos := s.hellos + {c})
    case Resume(c, authorised) =>
      var handled := s.(hellos := s.hellos - {c});
      if !Resumes(s.server, authorised) then handled
      else
        var epoch := s.server.epoch + 1;
        handled.(server := Attached(s.server, c, epoch),
                 serverOps := s.serverOps[c := epoch], commits := s.commits + [c])
    case Attach(c) =>
      var epoch := s.welcomes[c];
      if !Attaches(s.client.value, epoch) then s
      else s.(client := Some(Attached(s.client.value, c, epoch)), clientOps := s.clientOps[c := epoch])
    case ServerLoss(c) => s.(server := Lost(s.server, c))
    case ClientLoss(c) => s.(client := Some(Lost(s.client.value, c)))
    case ServerClose(code) => s.(server := Ended(s.server, code))
    case ClientClose(code) => s.(client := Some(Ended(s.client.value, code)))
  }

  /** The server has admitted a new session on connection `c`. */
  predicate Init(s: State, c: nat) {
    s == State(Opened(c), None, map[c := 1], map[], [c], {c}, {}, map[])
  }

  ghost predicate Run(states: seq<State>, steps: seq<Step>) {
    && |states| == |steps| + 1 && states[0].commits != [] && Init(states[0], states[0].commits[0])
    && forall i :: 0 <= i < |steps| ==> Enabled(states[i], steps[i]) && states[i + 1] == Next(states[i], steps[i])
  }

  predicate ServerCurrent(s: State, c: nat) {
    c in s.serverOps && Current(s.server, c, s.serverOps[c])
  }

  predicate ClientCurrent(s: State, c: nat) {
    c in s.clientOps && s.client.Some? && Current(s.client.value, c, s.clientOps[c])
  }

  // ---------------------------------------------------------------- invariant

  /** Epoch `i + 1` belongs to connection `commits[i]` and to no other; a HELLO
      still waiting is on a connection without an epoch. */
  predicate Numbered(commits: seq<nat>, ops: map<nat, nat>, dialled: set<nat>, hellos: set<nat>) {
    && (forall i :: 0 <= i < |commits| ==> commits[i] in ops && ops[commits[i]] == i + 1)
    && (forall c :: c in ops ==> 1 <= ops[c] <= |commits| && commits[ops[c] - 1] == c)
    && (forall c :: c in ops ==> c in dialled && c !in hellos)
    && hellos <= dialled
  }

  /** A record holds the connection committed at its epoch. */
  predicate Agrees(commits: seq<nat>, r: Record) {
    && 1 <= r.epoch <= |commits| && r.conn == commits[r.epoch - 1]
    && |r.terminals| == if r.status == Closed then 1 else 0
  }

  predicate Announced(welcomes: map<nat, nat>, ops: map<nat, nat>) {
    forall c :: c in welcomes ==> c in ops && welcomes[c] == ops[c]
  }

  /** The client's connections carry epochs the server gave them, none beyond its own. */
  predicate Follows(client: Option<Record>, clientOps: map<nat, nat>, ops: map<nat, nat>) {
    && Announced(clientOps, ops)
    && (forall c :: c in clientOps ==> client.Some? && clientOps[c] <= client.value.epoch)
    && (client.Some? ==> client.value.conn in clientOps)
  }

  predicate Inv(s: State) {
    && Numbered(s.commits, s.serverOps, s.dialled, s.hellos)
    && Agrees(s.commits, s.server) && s.server.epoch == |s.commits| <= MAX_EPOCH
    && Announced(s.welcomes, s.serverOps)
    && Follows(s.client, s.clientOps, s.serverOps)
    && (s.client.Some? ==> Agrees(s.commits, s.client.value))
  }

  lemma InvStep(s: State, step: Step)
    requires Inv(s) && Enabled(s, step)
    ensures Inv(Next(s, step))
  {
    match step
    case Resume(c, authorised) => ResumeInv(s, c, authorised);
    case Attach(c) => AttachInv(s, c);
    case Accept => AcceptInv(s);
    case WriteWelcome(_) => NetworkInv(s, step);
    case Redial(_) => NetworkInv(s, step);
    case _ => RecordInv(s, step);
  }

  lemma ResumeInv(s: State, c: nat, authorised: bool)
    requires Inv(s) && Enabled(s, Resume(c, authorised))
    ensures Inv(Next(s, Resume(c, authorised)))
  {
    hide Numbered;
    RejectedHello(s, c);
    if Resumes(s.server, authorised) {
      NumberedNext(s.commits, s.serverOps, s.dialled, s.hellos, c);
    }
  }

  lemma RejectedHello(s: State, c: nat)
    requires Numbered(s.commits, s.serverOps, s.dialled, s.hellos)
    ensures Numbered(s.commits, s.serverOps, s.dialled, s.hellos - {c})
    ensures c in s.hellos ==> c !in s.serverOps
  {
  }

  lemma NumberedNext(commits: seq<nat>, ops: map<nat, nat>, dialled: set<nat>, hellos: set<nat>, c: nat)
    requires Numbered(commits, ops, dialled, hellos) && c in hellos
    ensures Numbered(commits + [c], ops[c := |commits| + 1], dialled, hellos - {c})
  {
    assert c !in ops;
    forall i | 0 <= i < |commits| ensures (commits + [c])[i] != c {
      assert commits[i] in ops;
    }
  }

  lemma AttachInv(s: State, c: nat)
    requires Inv(s) && Enabled(s, Attach(c))
    ensures Inv(Next(s, Attach(c)))
  {
    assert s.welcomes[c] == s.serverOps[c] && s.commits[s.serverOps[c] - 1] == c;
  }

  lemma AcceptInv(s: State)
    requires Inv(s) && Enabled(s, Accept)
    ensures Inv(Next(s, Accept))
  {
    assert s.serverOps[s.commits[0]] == 1;
  }

  /** Steps that change the state of one record only. */
  lemma RecordInv(s: State, step: Step)
    requires Inv(s) && Enabled(s, step)
    requires step.ServerLoss? || step.ClientLoss? || step.ServerClose? || step.ClientClose?
    ensures Inv(Next(s, step))
  {
    hide Numbered, Announced;
  }

  lemma NetworkInv(s: State, step: Step)
    requires Inv(s) && Enabled(s, step) && (step.WriteWelcome? || step.Redial?)
    ensures Inv(Next(s, step))
  {
    hide Agrees, Follows;
  }

  lemma {:induction false} InvRun(states: seq<State>, steps: seq<Step>, n: nat)
    requires Run(states, steps) && n <= |steps|
    ensures Inv(states[n])
  {
    hide Next, Enabled;
    if n > 0 {
      InvRun(states, steps, n - 1);
      assert states[n - 1 + 1] == Next(states[n - 1], steps[n - 1]);
      InvStep(states[n - 1], steps[n - 1]);
    }
  }

  // ----------------------------------------------------------------- theorems

  /** Over every run: the server's epochs are 1, 2, 3, ... without a gap; the
      client's epoch is one of them; and two sides at the same epoch hold the two
      ends of the same connection. */
  lemma EpochAgreement(states: seq<State>, steps: seq<Step>, n: nat)
    requires Run(states, steps) && n <= |steps|
    ensures states[n].server.epoch == |states[n].commits| >= 1
    ensures states[n].commits[states[n].server.epoch - 1] == states[n].server.conn
    ensures forall i, j :: 0 <= i < j < |states[n].commits| ==> states[n].commits[i] != states[n].commits[j]
    ensures states[n].client.Some? ==>
              var r := states[n].client.value;
              && 1 <= r.epoch <= states[n].server.epoch && states[n].commits[r.epoch - 1] == r.conn
              && (r.epoch == states[n].server.epoch ==> r.conn == states[n].server.conn)
  {
    InvRun(states, steps, n);
    var s := states[n];
    forall i, j | 0 <= i < j < |s.commits| ensures s.commits[i] != s.commits[j] {
      assert s.serverOps[s.commits[i]] == i + 1 && s.serverOps[s.commits[j]] == j + 1;
    }
  }

  /** History is never rewritten: a later state has committed the same epochs and perhaps more. */
  lemma {:induction false} CommitsGrow(states: seq<State>, steps: seq<Step>, i: nat, j: nat)
    requires Run(states, steps) && i <= j <= |steps|
    ensures states[i].commits <= states[j].commits
    ensures states[i].server.epoch <= states[j].server.epoch
    ensures states[i].client.Some? ==>
              states[j].client.Some? && states[i].client.value.epoch <= states[j].client.value.epoch
  {
    hide Next, Enabled;
    if i < j {
      CommitsGrow(states, steps, i, j - 1);
      assert states[j - 1 + 1] == Next(states[j - 1], steps[j - 1]);
      CommitsStep(states[j - 1], steps[j - 1]);
    }
  }

  lemma CommitsStep(s: State, step: Step)
    requires Enabled(s, step)
    ensures var s' := Next(s, step);
            && s.commits <= s'.commits && s.server.epoch <= s'.server.epoch
            && (s.client.Some? ==> s'.client.Some? && s.client.value.epoch <= s'.client.value.epoch)
  {
  }

  /** Fencing: when the client is behind, nothing it sends on the connection it
      believes current is dispatched; when both sides have a current connection
      and the client is not behind, it is the same connection. */
  lemma Fencing(states: seq<State>, steps: seq<Step>, n: nat, c: nat)
    requires Run(states, steps) && n <= |steps| && ClientCurrent(states[n], c)
    ensures states[n].client.value.epoch < states[n].server.epoch ==> !ServerCurrent(states[n], c)
    ensures states[n].client.value.epoch == states[n].server.epoch && states[n].server.status == Active ==>
              ServerCurrent(states[n], c)
  {
    InvRun(states, steps, n);
  }

  /** Each connection is current during one stretch only, on either side. */
  lemma OneShotCurrency(states: seq<State>, steps: seq<Step>, i: nat, j: nat, k: nat, c: nat)
    requires Run(states, steps) && i <= j <= k <= |steps|
    ensures ServerCurrent(states[i], c) && !ServerCurrent(states[j], c) ==> !ServerCurrent(states[k], c)
    ensures ClientCurrent(states[i], c) && !ClientCurrent(states[j], c) ==> !ClientCurrent(states[k], c)
  {
    if ServerCurrent(states[i], c) && !ServerCurrent(states[j], c) {
      Known(states, steps, i, j, c);
      ServerPast(states, steps, j, k, c);
    }
    if ClientCurrent(states[i], c) && !ClientCurrent(states[j], c) {
      Known(states, steps, i, j, c);
      ClientPast(states, steps, j, k, c);
    }
  }

  lemma {:induction false} Known(states: seq<State>, steps: seq<Step>, i: nat, j: nat, c: nat)
    requires Run(states, steps) && i <= j <= |steps|
    ensures c in states[i].serverOps ==> c in states[j].serverOps
    ensures c in states[i].clientOps ==> c in states[j].clientOps
    ensures states[i].client.Some? ==> states[j].client.Some?
  {
    if i < j {
      Known(states, steps, i, j - 1, c);
      assert states[j - 1 + 1] == Next(states[j - 1], steps[j - 1]);
    }
  }

  /** A connection the server has committed and that is not current never is again. */
  lemma {:induction false} ServerPast(states: seq<State>, steps: seq<Step>, j: nat, k: nat, c: nat)
    requires Run(states, steps) && j <= k <= |steps|
    requires c in states[j].serverOps && !ServerCurrent(states[j], c)
    ensures c in states[k].serverOps && !ServerCurrent(states[k], c)
  {
    hide Next, Enabled, Inv, ServerCurrent;
    if j < k {
      ServerPast(states, steps, j, k - 1, c);
      InvRun(states, steps, k - 1);
      assert states[k - 1 + 1] == Next(states[k - 1], steps[k - 1]);
      ServerPastStep(states[k - 1], steps[k - 1], c);
    }
  }

  lemma ServerPastStep(s: State, step: Step, c: nat)
    requires Inv(s) && Enabled(s, step) && c in s.serverOps && !ServerCurrent(s, c)
    ensures c in Next(s, step).serverOps && !ServerCurrent(Next(s, step), c)
  {
    if step.Resume? {
      assert step.c !in s.serverOps;
    }
  }

  lemma {:induction false} ClientPast(states: seq<State>, steps: seq<Step>, j: nat, k: nat, c: nat)
    requires Run(states, steps) && j <= k <= |steps|
    requires c in states[j].clientOps && states[j].client.Some? && !ClientCurrent(states[j], c)
    ensures c in states[k].clientOps && states[k].client.Some? && !ClientCurrent(states[k], c)
  {
    hide Next, Enabled, Inv, ClientCurrent;
    if j < k {
      ClientPast(states, steps, j, k - 1, c);
      InvRun(states, steps, k - 1);
      assert states[k - 1 + 1] == Next(states[k - 1], steps[k - 1]);
      ClientPastStep(states[k - 1], steps[k - 1], c);
    }
  }

  /** A WELCOME can be attached once: its epoch is then the client's own. */
  lemma ClientPastStep(s: State, step: Step, c: nat)
    requires Inv(s) && Enabled(s, step) && c in s.clientOps && s.client.Some? && !ClientCurrent(s, c)
    ensures var s' := Next(s, step); c in s'.clientOps && s'.client.Some? && !ClientCurrent(s', c)
  {
  }

  /** The late loss of a superseded connection changes nothing, on either side. */
  lemma LateLossIsHarmless(states: seq<State>, steps: seq<Step>, n: nat, c: nat)
    requires Run(states, steps) && n <= |steps|
    ensures var s := states[n]; c in s.serverOps && s.serverOps[c] < s.server.epoch ==> Next(s, ServerLoss(c)) == s
    ensures var s := states[n];
            c in s.clientOps && s.client.Some? && s.clientOps[c] < s.client.value.epoch ==> Next(s, ClientLoss(c)) == s
  {
    InvRun(states, steps, n);
    var s := states[n];
    assert s.serverOps[s.commits[s.server.epoch - 1]] == s.server.epoch;
    if s.client.Some? {
      assert s.serverOps[s.commits[s.client.value.epoch - 1]] == s.client.value.epoch;
    }
  }

  /** Closed is absorbing on both sides, and its code is stored exactly once. */
  lemma {:induction false} ClosedIsAbsorbing(states: seq<State>, steps: seq<Step>, i: nat, j: nat)
    requires Run(states, steps) && i <= j <= |steps|
    ensures states[i].server.status == Closed ==>
              states[j].server == states[i].server && |states[i].server.terminals| == 1
    ensures states[i].client.Some? && states[i].client.value.status == Closed ==>
              states[j].client == states[i].client && |states[i].client.value.terminals| == 1
  {
    hide Next, Enabled;
    InvRun(states, steps, i);
    if i < j {
      ClosedIsAbsorbing(states, steps, i, j - 1);
      assert states[j - 1 + 1] == Next(states[j - 1], steps[j - 1]);
      ClosedStep(states[j - 1], steps[j - 1]);
    }
  }

  lemma ClosedStep(s: State, step: Step)
    requires Enabled(s, step)
    ensures s.server.status == Closed ==> Next(s, step).server == s.server
    ensures s.client.Some? && s.client.value.status == Closed ==> Next(s, step).client == s.client
  {
  }

  // ---------------------------------------------------------- what must happen

  /** An authorised resume of an open session takes effect: the next epoch is the
      server's, on that connection, which is current from then on. */
  lemma ResumeTakesOver(states: seq<State>, steps: seq<Step>, n: nat, c: nat)
    requires Run(states, steps) && n < |steps| && steps[n] == Resume(c, true)
    requires states[n].server.status != Closed && states[n].server.epoch < 0xFFFF_FFFF_FFFF_FFFF
    ensures ServerCurrent(states[n + 1], c) && states[n + 1].server.status == Active
    ensures states[n + 1].server.epoch == states[n].server.epoch + 1 == states[n + 1].serverOps[c]
    ensures states[n + 1].commits == states[n].commits + [c]
  {
    assert states[n + 1] == Next(states[n], steps[n]);
  }

  /** A WELCOME beyond the client's epoch takes effect on an open session, and no other does. */
  lemma AttachTakesOver(states: seq<State>, steps: seq<Step>, n: nat, c: nat)
    requires Run(states, steps) && n < |steps| && steps[n] == Attach(c)
    ensures var s, s' := states[n], states[n + 1];
            && s.client.Some? && c in s.welcomes
            && if s.client.value.status != Closed && s.client.value.epoch < s.welcomes[c]
               then ClientCurrent(s', c) && s'.client.value.epoch == s.welcomes[c] else s' == s
  {
    assert states[n + 1] == Next(states[n], steps[n]);
  }

  /** Losing the current connection suspends that side, at the epoch it had. */
  lemma LossSuspends(states: seq<State>, steps: seq<Step>, n: nat, c: nat)
    requires Run(states, steps) && n < |steps|
    ensures steps[n] == ServerLoss(c) && ServerCurrent(states[n], c) ==>
              && states[n + 1].server.status == Suspended && !ServerCurrent(states[n + 1], c)
              && states[n + 1].server.epoch == states[n].server.epoch
    ensures steps[n] == ClientLoss(c) && ClientCurrent(states[n], c) ==>
              && states[n + 1].client.value.status == Suspended && !ClientCurrent(states[n + 1], c)
              && states[n + 1].client.value.epoch == states[n].client.value.epoch
  {
    assert states[n + 1] == Next(states[n], steps[n]);
  }

  /** Closing an open side closes it, with that code. */
  lemma CloseTakesEffect(states: seq<State>, steps: seq<Step>, n: nat, code: nat)
    requires Run(states, steps) && n < |steps|
    ensures steps[n] == ServerClose(code) && states[n].server.status != Closed ==>
              states[n + 1].server.status == Closed && states[n + 1].server.terminals == [code]
    ensures steps[n] == ClientClose(code) && states[n].client.value.status != Closed ==>
              states[n + 1].client.value.status == Closed && states[n + 1].client.value.terminals == [code]
  {
    InvRun(states, steps, n);
    assert states[n + 1] == Next(states[n], steps[n]);
  }

  /** From every reachable state in which neither side is closed, whatever was lost
      before, one resume that gets through makes both sides active at the same
      epoch on the new connection. */
  lemma RecoveryIsPossible(states: seq<State>, steps: seq<Step>, n: nat, c: nat)
    returns (s1: State, s2: State, s3: State, s4: State)
    requires Run(states, steps) && n <= |steps| && c !in states[n].dialled && states[n].client.Some?
    requires states[n].client.value.status != Closed && states[n].server.status != Closed
    requires states[n].server.epoch < 0xFFFF_FFFF_FFFF_FFFF
    ensures Leads(states[n], Redial(c), s1) && Leads(s1, Resume(c, true), s2)
    ensures Leads(s2, WriteWelcome(c), s3) && Leads(s3, Attach(c), s4)
    ensures ServerCurrent(s4, c) && ClientCurrent(s4, c)
    ensures s4.server.epoch == s4.client.value.epoch == states[n].server.epoch + 1
  {
    InvRun(states, steps, n);
    var s := states[n];
    assert c !in s.serverOps && c !in s.welcomes && c != s.commits[0];
    s1 := Next(s, Redial(c));
    s2 := Next(s1, Resume(c, true));
    s3 := Next(s2, WriteWelcome(c));
    s4 := Next(s3, Attach(c));
  }

  predicate Leads(s: State, step: Step, s': State) {
    Enabled(s, step) && s' == Next(s, step)
  }

  /** The first WELCOME makes the client active at epoch 1 on the admitted connection. */
  lemma AcceptTakesOver(states: seq<State>, steps: seq<Step>, n: nat)
    requires Run(states, steps) && n < |steps| && steps[n] == Accept
    ensures var s := states[n + 1];
            s.commits != [] && ClientCurrent(s, s.commits[0]) && s.client.value.epoch == 1
  {
    assert states[n + 1] == Next(states[n], steps[n]);
  }

  /** In every reachable state in which the client has not heard of its session, the WELCOME can be
      written, or has been, and accepted, and the client is then current on the first connection. */
  lemma FirstContactIsPossible(states: seq<State>, steps: seq<Step>, n: nat) returns (s1: State, s2: State)
    requires Run(states, steps) && n <= |steps| && states[n].client.None?
    ensures states[n].commits != []
    ensures s1 == states[n] || Leads(states[n], WriteWelcome(states[n].commits[0]), s1)
    ensures Leads(s1, Accept, s2) && ClientCurrent(s2, states[n].commits[0]) && s2.client.value.epoch == 1
    ensures s2.server == states[n].server
  {
    InvRun(states, steps, n);
    var s := states[n];
    var c := s.commits[0];
    s1 := if c in s.welcomes then s else Next(s, WriteWelcome(c));
    s2 := Next(s1, Accept);
  }
}
