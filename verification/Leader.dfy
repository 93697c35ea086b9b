/**
 `scheduler/leader.py`: leader election by a session-level advisory lock. Sessions may die at
 any time, and connecting, executing and closing may fail, with or without effect on the server.
 */
module Leader {
  import opened Runs

  type SessionId = nat

  /** The database: its live sessions and the one that holds the advisory lock. */
  datatype Server = Server(live: set<SessionId>, holder: Option<SessionId>, next: SessionId)

  /** A replica's `_conn` and `is_leader`. */
  datatype Replica = Replica(conn: Option<SessionId>, isLeader: bool)

  /**
   What goes wrong during one call. `locked`: a lock attempt that raised had reached the
   server; `closeAgain`: closing the connection that was opened in this call.
   */
  datatype Faults = Faults(ping: bool, connect: bool, execute: bool, locked: bool, close: bool, closeAgain: bool)

  function Connect(s: Server): Server {
    s.(live := s.live + {s.next}, next := s.next + 1)
  }

  /** pg_try_advisory_lock */
  function TryLock(s: Server, c: SessionId): Server {
    if s.holder.None? then s.(holder := Some(c)) else s
  }

  /** pg_advisory_unlock */
  function Unlock(s: Server, c: SessionId): Server {
    if s.holder == Some(c) then s.(holder := None) else s
  }

  /** A session ends, and with it its locks. */
  function Drop(s: Server, c: SessionId): Server {
    s.(live := s.live - {c}, holder := if s.holder == Some(c) then None else s.holder)
  }

  function Alive(s: Server, r: Replica, f: Faults): bool {
    r.conn.Some? && r.conn.value in s.live && !f.ping
  }

  /** `_reset`: a failing close leaves the session to the server. */
  function Reset(s: Server, r: Replica, closeFails: bool): (Server, Replica) {
    (if r.conn.Some? && !closeFails then Drop(s, r.conn.value) else s, Replica(None, false))
  }

  /** `acquire` and its answer. */
  function Acquire(s: Server, r: Replica, f: Faults): (Server, Replica, bool) {
    if r.isLeader && Alive(s, r, f) then (s, r, true)
    else
      var (s1, r1) := Reset(s, r, f.close);
      if f.connect then (s1, r1, false)
      else
        var c := s1.next;
        var s2 := Connect(s1);
        if f.execute then
          var s3 := if f.locked then TryLock(s2, c) else s2;
          var (s4, r4) := Reset(s3, Replica(Some(c), false), f.closeAgain);
          (s4, r4, false)
        else
          var s3 := TryLock(s2, c);
          if s3.holder == Some(c) then (s3, Replica(Some(c), true), true)
          else
            var (s4, r4) := Reset(s3, Replica(Some(c), false), f.closeAgain);
            (s4, r4, false)
  }

  /** `release` */
  function Release(s: Server, r: Replica, f: Faults): (Server, Replica) {
    var s1 := if r.conn.Some? && r.isLeader && r.conn.value in s.live && !f.execute then Unlock(s, r.conn.value) else s;
    Reset(s1, r, f.close)
  }

  // ------------------------------------------------------- any number of replicas

  datatype Election = Election(server: Server, replicas: seq<Replica>)

  datatype Event =
    | Acquiring(replica: nat, faults: Faults)
    | Releasing(replica: nat, faults: Faults)
    | SessionDies(session: SessionId)

  function Start(n: nat): Election {
    Election(Server({}, None, 0), seq(n, i => Replica(None, false)))
  }

  function Happen(e: Election, ev: Event): Election {
    match ev
    case Acquiring(i, f) =>
      if i < |e.replicas| then
        var (s, r, _) := Acquire(e.server, e.replicas[i], f);
        Election(s, e.replicas[i := r])
      else e
    case Releasing(i, f) =>
      if i < |e.replicas| then
        var (s, r) := Release(e.server, e.replicas[i], f);
        Election(s, e.replicas[i := r])
      else e
    case SessionDies(c) => e.(server := Drop(e.server, c))
  }

  function HappenAll(n: nat, evs: seq<Event>): Election {
    if evs == [] then Start(n) else Happen(HappenAll(n, evs[..|evs| - 1]), evs[|evs| - 1])
  }

  ghost predicate ServerOk(s: Server) {
    (s.holder.Some? ==> s.holder.value in s.live) && forall c :: c in s.live ==> c < s.next
  }

  /** A replica has a session exactly if it is leader, and if that session lives it holds the lock. */
  ghost predicate ReplicaOk(s: Server, r: Replica) {
    && (r.conn.Some? ==> r.conn.value < s.next && r.isLeader)
    && (r.isLeader ==> r.conn.Some? && (r.conn.value in s.live ==> s.holder == r.conn))
  }

  ghost predicate Safe(e: Election) {
    && ServerOk(e.server)
    && (forall i :: 0 <= i < |e.replicas| ==> ReplicaOk(e.server, e.replicas[i]))
    && (forall i, k :: 0 <= i < k < |e.replicas| && e.replicas[i].conn.Some? ==>
          e.replicas[k].conn != e.replicas[i].conn)
  }

  /** What one replica's call may do to the server: only to its own, or a new, session. */
  ghost predicate Polite(s: Server, r: Replica, s': Server) {
    && s.next <= s'.next
    && (forall c :: c in s.live && r.conn != Some(c) ==> c in s'.live)
    && (forall c :: c in s'.live ==> c in s.live || s.next <= c < s'.next)
    && (s.holder.Some? && s.holder != r.conn ==> s'.holder == s.holder)
    && (s'.holder.Some? && s'.holder != s.holder ==> s'.holder.value >= s.next)
  }

  lemma AcquireOk(s: Server, r: Replica, f: Faults)
    requires ServerOk(s) && ReplicaOk(s, r)
    ensures var (s', r', ok) := Acquire(s, r, f);
            && ServerOk(s') && ReplicaOk(s', r') && Polite(s, r, s')
            && r'.isLeader == ok
            && (ok ==> r'.conn.Some? && r'.conn.value in s'.live && s'.holder == r'.conn)
            && (r'.conn.Some? ==> (r'.conn == r.conn && !f.ping) || r'.conn.value >= s.next)
  {}

  lemma ReleaseOk(s: Server, r: Replica, f: Faults)
    requires ServerOk(s) && ReplicaOk(s, r)
    ensures var (s', r') := Release(s, r, f);
            && ServerOk(s') && ReplicaOk(s', r') && Polite(s, r, s')
            && r' == Replica(None, false)
            && (!f.close || !f.execute ==> r.isLeader ==> s'.holder != r.conn)
  {}

  /** Another replica's invariant survives a polite call. */
  lemma OthersOk(s: Server, r: Replica, s': Server, other: Replica)
    requires ServerOk(s) && ReplicaOk(s, other) && Polite(s, r, s')
    requires other.conn.Some? ==> other.conn != r.conn
    ensures ReplicaOk(s', other)
  {}

  lemma SafeStep(e: Election, ev: Event)
    requires Safe(e)
    ensures Safe(Happen(e, ev))
  {
    var e' := Happen(e, ev);
    if (ev.Acquiring? || ev.Releasing?) && ev.replica < |e.replicas| {
      var i, r := ev.replica, e.replicas[ev.replica];
      if ev.Acquiring? { AcquireOk(e.server, r, ev.faults); } else { ReleaseOk(e.server, r, ev.faults); }
      forall k | 0 <= k < |e.replicas| ensures ReplicaOk(e'.server, e'.replicas[k]) {
        if k != i { OthersOk(e.server, r, e'.server, e.replicas[k]); }
      }
    }
  }

  lemma {:induction false} AlwaysSafe(n: nat, evs: seq<Event>)
    ensures Safe(HappenAll(n, evs)) && |HappenAll(n, evs).replicas| == n
  {
    if evs != [] {
      AlwaysSafe(n, evs[..|evs| - 1]);
      SafeStep(HappenAll(n, evs[..|evs| - 1]), evs[|evs| - 1]);
    }
  }

  /**
   For any number of replicas and any history of calls, faults and dying sessions: at most one
   replica is a leader with a live session, and that session holds the lock.
   */
  lemma {:induction false} SingleLeader(n: nat, evs: seq<Event>, i: nat, k: nat)
    requires i < n && k < n
    ensures |HappenAll(n, evs).replicas| == n
    ensures var e := HappenAll(n, evs); var a, b := e.replicas[i], e.replicas[k];
            a.isLeader && b.isLeader ==>
              a.conn.Some? && b.conn.Some? && (a.conn.value in e.server.live && b.conn.value in e.server.live ==>
                    i == k)
  {
    AlwaysSafe(n, evs);
    var e := HappenAll(n, evs);
    assert ReplicaOk(e.server, e.replicas[i]) && ReplicaOk(e.server, e.replicas[k]);
  }

  /**
   After any history, `acquire` answers True only with the caller's own live session holding the
   lock; its flag then equals the answer, so a stale flag is corrected; it keeps its session only
   if that answers; and it takes no lock and ends no session of another replica.
   */
  lemma {:induction false} AcquireTellsTheTruth(n: nat, evs: seq<Event>, i: nat, f: Faults)
    requires i < n
    ensures |HappenAll(n, evs).replicas| == n
    ensures var e := HappenAll(n, evs); var r := e.replicas[i]; var (s', r', ok) := Acquire(e.server, r, f);
            && r'.isLeader == ok
            && (ok ==> r'.conn.Some? && r'.conn.value in s'.live && s'.holder == r'.conn)
            && (r'.conn.Some? ==> (r'.conn == r.conn && !f.ping) || r'.conn.value >= e.server.next)
            && Polite(e.server, r, s')
  {
    AlwaysSafe(n, evs);
    AcquireOk(HappenAll(n, evs).server, HappenAll(n, evs).replicas[i], f);
  }

  /**
   `release` steps down and never drops another replica's lock; the caller's own lock is freed
   unless both unlocking and closing fail, and its session ends unless closing fails.
   */
  lemma {:induction false} ReleaseIsPolite(n: nat, evs: seq<Event>, i: nat, f: Faults)
    requires i < n
    ensures |HappenAll(n, evs).replicas| == n
    ensures var e := HappenAll(n, evs); var r := e.replicas[i]; var (s', r') := Release(e.server, r, f);
            && r' == Replica(None, false) && Polite(e.server, r, s')
            && (r.conn.Some? && (!f.execute || !f.close) ==> s'.holder != r.conn)
            && (r.conn.Some? && !f.close ==> r.conn.value !in s'.live)
  {
    AlwaysSafe(n, evs);
    ReleaseOk(HappenAll(n, evs).server, HappenAll(n, evs).replicas[i], f);
  }

  /** Failover: once the lock is free, the next fault-free `acquire` wins it. */
  lemma {:induction false} Failover(n: nat, evs: seq<Event>, i: nat, f: Faults)
    requires i < n && !f.ping && !f.connect && !f.execute && !f.close
    requires HappenAll(n, evs).server.holder.None?
    ensures |HappenAll(n, evs).replicas| == n
    ensures var e := HappenAll(n, evs); Acquire(e.server, e.replicas[i], f).2
  {
    AlwaysSafe(n, evs);
  }

  /**
   After any history: a leader whose session lives and answers stays leader, and the call changes
   nothing.
   */
  lemma {:induction false} LeaderStays(n: nat, evs: seq<Event>, i: nat, f: Faults)
    requires i < n
    ensures |HappenAll(n, evs).replicas| == n
    ensures var e := HappenAll(n, evs); var r := e.replicas[i];
            r.isLeader && r.conn.Some? && r.conn.value in e.server.live && !f.ping ==>
              Acquire(e.server, r, f) == (e.server, r, true)
  {
    AlwaysSafe(n, evs);
  }

  const NO_FAULTS := Faults(false, false, false, false, false, false)

  /** After any history, a call without failures answers True if and only if the lock was free or the caller's own. */
  lemma {:induction false} AcquireIff(n: nat, evs: seq<Event>, i: nat)
    requires i < n
    ensures |HappenAll(n, evs).replicas| == n
    ensures var e := HappenAll(n, evs); var r := e.replicas[i];
            Acquire(e.server, r, NO_FAULTS).2 <==> e.server.holder.None? || e.server.holder == r.conn
  {
    AlwaysSafe(n, evs);
    assert ReplicaOk(HappenAll(n, evs).server, HappenAll(n, evs).replicas[i]);
  }

  ghost predicate ClosesFine(ev: Event) {
    ev.Acquiring? || ev.Releasing? ==> !ev.faults.close && !ev.faults.closeAgain
  }

  ghost predicate Owned(e: Election, c: SessionId) {
    exists i :: 0 <= i < |e.replicas| && e.replicas[i].conn == Some(c)
  }

  lemma OwnedStep(e: Election, ev: Event)
    requires Safe(e) && ClosesFine(ev) && forall c :: c in e.server.live ==> Owned(e, c)
    ensures forall c :: c in Happen(e, ev).server.live ==> Owned(Happen(e, ev), c)
  {
    var e' := Happen(e, ev);
    forall c | c in e'.server.live ensures Owned(e', c) {
      if (ev.Acquiring? || ev.Releasing?) && ev.replica < |e.replicas| {
        if c in e.server.live {
          var i :| 0 <= i < |e.replicas| && e.replicas[i].conn == Some(c);
          if i != ev.replica { assert e'.replicas[i].conn == Some(c); }
          else { assert e'.replicas[ev.replica].conn == Some(c); }
        } else {
          assert e'.replicas[ev.replica].conn == Some(c);
        }
      } else {
        assert c in e.server.live;
        var i :| 0 <= i < |e.replicas| && e.replicas[i].conn == Some(c);
        assert e'.replicas[i].conn == Some(c);
      }
    }
  }

  /** While closing does not fail, no session is left behind: every live one is some replica's own. */
  lemma {:induction false} NoSessionLeaks(n: nat, evs: seq<Event>, c: SessionId)
    requires forall k :: 0 <= k < |evs| ==> ClosesFine(evs[k])
    requires c in HappenAll(n, evs).server.live
    ensures Owned(HappenAll(n, evs), c)
  {
    if evs != [] {
      var front := evs[..|evs| - 1];
      AlwaysSafe(n, front);
      forall d | d in HappenAll(n, front).server.live ensures Owned(HappenAll(n, front), d) {
        NoSessionLeaks(n, front, d);
      }
      OwnedStep(HappenAll(n, front), evs[|evs| - 1]);
    }
  }

  // ------------------------------------------------------- the code

  class LockServer {
    var state: Server

    constructor ()
      ensures state == Server({}, None, 0)
    {
      state := Server({}, None, 0);
    }
  }

  class LeaderElection {
    const server: LockServer
    var conn: Option<SessionId>
    var isLeader: bool

    constructor (server: LockServer)
      ensures this.server == server && View() == Replica(None, false)
    {
      this.server, conn, isLeader := server, None, false;
    }

    ghost function View(): Replica
      reads this
    {
      Replica(conn, isLeader)
    }

    method ConnectionAlive(f: Faults) returns (alive: bool)
      ensures alive == Alive(server.state, View(), f)
    {
      if conn.None? { return false; }
      alive := conn.value in server.state.live && !f.ping;
    }

    method DoReset(closeFails: bool)
      modifies this, server
      ensures (server.state, View()) == Reset(old(server.state), old(View()), closeFails)
    {
      isLeader := false;
      if conn.Some? && !closeFails {
        server.state := Drop(server.state, conn.value);
      }
      conn := None;
    }

    method DoAcquire(f: Faults) returns (ok: bool)
      modifies this, server
      ensures (server.state, View(), ok) == Acquire(old(server.state), old(View()), f)
    {
      var alive := ConnectionAlive(f);
      if isLeader && alive { return true; }
      DoReset(f.close);
      if f.connect { return false; }
      conn := Some(server.state.next);
      server.state := Connect(server.state);
      if f.execute {
        if f.locked { server.state := TryLock(server.state, conn.value); }
        DoReset(f.closeAgain);
        return false;
      }
      server.state := TryLock(server.state, conn.value);
      isLeader := server.state.holder == conn;
      ok := isLeader;
      if !isLeader { DoReset(f.closeAgain); }
    }

    method DoRelease(f: Faults)
      modifies this, server
      ensures (server.state, View()) == Release(old(server.state), old(View()), f)
    {
      if conn.Some? && isLeader && conn.value in server.state.live && !f.execute {
        server.state := Unlock(server.state, conn.value);
      }
      DoReset(f.close);
    }
  }
}
