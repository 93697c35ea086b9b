/**
 `redis_queue.py`: the delayed set (a sorted set of run ids scored by ready time) and the
 Lua script that moves every due member onto the dispatch stream.
 */
module Delayed {
  import opened Collections
  import opened Runs

  type Zset = map<RunId, real>

  function Due(z: Zset, now: real): set<RunId> {
    set r | r in z && z[r] <= now
  }

  /** A reply of ZRANGEBYSCORE -inf now: every due member once, by ascending score. */
  ghost predicate ZRange(z: Zset, now: real, due: seq<RunId>) {
    && (forall r :: r in due <==> r in z && z[r] <= now)
    && NoDuplicates(due)
    && (forall i, k :: 0 <= i < k < |due| ==> z[due[i]] <= z[due[k]])
  }

  class RedisQueue {
    var delayed: Zset
    var stream: seq<RunId>

    constructor ()
      ensures delayed == map[] && stream == []
    {
      delayed, stream := map[], [];
    }

    /** `schedule_delayed`: ZADD overwrites the score of a member that is already there. */
    method ScheduleDelayed(r: RunId, readyAt: real)
      modifies this`delayed
      ensures delayed == old(delayed)[r := readyAt]
    {
      delayed := delayed[r := readyAt];
    }

    /** The Lua script; `due` is its ZRANGEBYSCORE reply, moved one member at a time. */
    method PromoteDueDelayed(now: real, due: seq<RunId>) returns (count: nat)
      requires ZRange(delayed, now, due)
      modifies this
      ensures stream == old(stream) + due
      ensures delayed == old(delayed) - Due(old(delayed), now)
      ensures count == |Due(old(delayed), now)|
      ensures forall r :: r in delayed ==> delayed[r] > now
    {
      ReplyIsDue(delayed, now, due);
      for i := 0 to |due|
        invariant stream == old(stream) + due[..i]
        invariant delayed == old(delayed) - Elems(due[..i])
      {
        assert Elems(due[..i + 1]) == Elems(due[..i]) + {due[i]};
        delayed := delayed - {due[i]};
        stream := stream + [due[i]];
      }
      assert due[..|due|] == due;
      count := |due|;
    }
  }

  lemma ReplyIsDue(z: Zset, now: real, due: seq<RunId>)
    requires ZRange(z, now, due)
    ensures Elems(due) == Due(z, now) && |due| == |Due(z, now)|
  {
    CountElems(due);
    assert Elems(due) == Due(z, now);
  }

  lemma MinScore(z: Zset, s: set<RunId>) returns (m: RunId)
    requires s != {} && s <= z.Keys
    ensures m in s && forall x :: x in s ==> z[m] <= z[x]
    decreases s
  {
    m :| m in s;
    if s != {m} {
      var rest := MinScore(z, s - {m});
      if z[rest] < z[m] { m := rest; }
    }
  }

  /** Redis always has such a reply. */
  lemma SortedReplyExists(z: Zset, now: real) returns (due: seq<RunId>)
    ensures ZRange(z, now, due)
    decreases z.Keys
  {
    if Due(z, now) == {} {
      due := [];
    } else {
      var m := MinScore(z, Due(z, now));
      var rest := SortedReplyExists(z - {m}, now);
      due := [m] + rest;
    }
  }

  // ------------------------------------------------------- conservation over every history

  /** A registration by some worker, or a promotion by some leader with some clock reading. */
  datatype Op = Register(run: RunId, readyAt: real) | Promote(now: real, due: seq<RunId>)

  ghost function After(ops: seq<Op>): Zset {
    if ops == [] then map[]
    else
      var z := After(ops[..|ops| - 1]);
      match ops[|ops| - 1]
      case Register(r, at) => z[r := at]
      case Promote(now, _) => z - Due(z, now)
  }

  ghost predicate Legal(ops: seq<Op>) {
    ops != [] ==>
      && Legal(ops[..|ops| - 1])
      && (ops[|ops| - 1].Promote? ==>
            ZRange(After(ops[..|ops| - 1]), ops[|ops| - 1].now, ops[|ops| - 1].due))
  }

  ghost function Registered(ops: seq<Op>, r: RunId): nat {
    if ops == [] then 0
    else Registered(ops[..|ops| - 1], r)
         + if ops[|ops| - 1].Register? && ops[|ops| - 1].run == r then 1 else 0
  }

  /** Registrations that found the run still waiting and only moved its ready time. */
  ghost function Overwritten(ops: seq<Op>, r: RunId): nat {
    if ops == [] then 0
    else Overwritten(ops[..|ops| - 1], r)
         + if ops[|ops| - 1].Register? && ops[|ops| - 1].run == r && r in After(ops[..|ops| - 1]) then 1 else 0
  }

  /** How many stream entries promotions made for `r`. */
  ghost function Promoted(ops: seq<Op>, r: RunId): nat {
    if ops == [] then 0
    else Promoted(ops[..|ops| - 1], r)
         + if ops[|ops| - 1].Promote? then multiset(ops[|ops| - 1].due)[r] else 0
  }

  lemma {:induction false} DistinctMultiplicity(s: seq<RunId>, r: RunId)
    requires NoDuplicates(s)
    ensures multiset(s)[r] == if r in s then 1 else 0
  {
    if s != [] {
      DistinctMultiplicity(s[..|s| - 1], r);
      assert s == s[..|s| - 1] + [s[|s| - 1]];
    }
  }

  /**
   Whatever the interleaving of registrations and promotions and whatever their clocks:
   a registration is promoted once, is still waiting, or was overwritten while waiting.
   */
  lemma {:induction false} Conservation(ops: seq<Op>, r: RunId)
    requires Legal(ops)
    ensures Registered(ops, r) == Promoted(ops, r) + Overwritten(ops, r) + if r in After(ops) then 1 else 0
  {
    if ops != [] {
      var op := ops[|ops| - 1];
      var z := After(ops[..|ops| - 1]);
      Conservation(ops[..|ops| - 1], r);
      if op.Promote? {
        DistinctMultiplicity(op.due, r);
      }
    }
  }

  /** A retry that is registered at most once is promoted at most once, by whichever leader. */
  lemma {:induction false} PromotedAtMostOnce(ops: seq<Op>, r: RunId)
    requires Legal(ops) && Registered(ops, r) <= 1
    ensures Promoted(ops, r) <= 1
    ensures Registered(ops, r) == 1 ==> (Promoted(ops, r) == 1 <==> r !in After(ops))
  {
    Conservation(ops, r);
    if Overwritten(ops, r) > 0 { OverwrittenNeedsTwo(ops, r); }
  }

  lemma {:induction false} OverwrittenNeedsTwo(ops: seq<Op>, r: RunId)
    requires Legal(ops)
    ensures Registered(ops, r) >= Overwritten(ops, r)
    ensures r in After(ops) ==> Registered(ops, r) >= Overwritten(ops, r) + 1
    ensures Overwritten(ops, r) > 0 ==> Registered(ops, r) >= Overwritten(ops, r) + 1
  {
    if ops != [] { OverwrittenNeedsTwo(ops[..|ops| - 1], r); }
  }
}
