/**
 `run` in `worker/main.py`: one worker's read loop, its tasks under a semaphore, and the map by
 which the cancel listener finds them. Each event is the code between two awaits.
 */
module WorkerLoop {
  import opened Collections
  import opened Runs

  type TaskId = nat

  /** Queued on the semaphore; inside `process_run`; in the `finally` block; returned. */
  datatype Phase = Waiting | Processing | Acking | Finished

  datatype Handle = Handle(run: RunId, phase: Phase, cancelRequested: bool)

  /** Where the read loop is, and how many messages the last reply may still hold. */
  datatype LoopPc = Top | Reclaiming(count: nat, left: nat) | Reading(left: nat)

  /** `worker_concurrency` and `worker_read_batch` */
  datatype Limits = Limits(concurrency: nat, batch: nat)

  datatype Worker = Worker(
    handles: seq<Handle>,
    inflight: set<TaskId>,
    byRun: map<RunId, TaskId>,
    permits: int,
    gauge: int,
    pc: LoopPc)

  datatype Event =
    | Measure             // compute capacity
    | Spawn(run: RunId)   // one message of the reply
    | NextRead            // the reply is used up
    | Enter(task: TaskId)
    | Leave(task: TaskId)
    | Acked(task: TaskId)
    | Discard(task: TaskId)
    | CancelMessage(run: RunId)

  function Idle(lim: Limits): Worker {
    Worker([], {}, map[], lim.concurrency, 0, Top)
  }

  function SetPhase(handles: seq<Handle>, t: TaskId, p: Phase): seq<Handle>
    requires t < |handles|
  {
    handles[t := handles[t].(phase := p)]
  }

  predicate At(w: Worker, t: TaskId, p: Phase) {
    t < |w.handles| && w.handles[t].phase == p
  }

  predicate Enabled(w: Worker, ev: Event) {
    match ev
    case Measure => w.pc.Top?
    case Spawn(_) => !w.pc.Top? && w.pc.left > 0
    case NextRead => !w.pc.Top?
    case Enter(t) => At(w, t, Waiting) && w.permits > 0
    case Leave(t) => At(w, t, Processing)
    case Acked(t) => At(w, t, Acking)
    case Discard(t) => At(w, t, Finished)
    case CancelMessage(_) => true
  }

  function Happen(lim: Limits, w: Worker, ev: Event): Worker
    requires Enabled(w, ev)
  {
    match ev
    case Measure =>
      var capacity := lim.concurrency - |w.inflight|;
      if capacity <= 0 then w
      else w.(pc := Reclaiming(Min(capacity, lim.batch), Min(capacity, lim.batch)))
    case Spawn(r) =>
      w.(handles := w.handles + [Handle(r, Waiting, false)], inflight := w.inflight + {|w.handles|},
         pc := if w.pc.Reclaiming? then w.pc.(left := w.pc.left - 1) else Reading(w.pc.left - 1))
    case NextRead => w.(pc := if w.pc.Reclaiming? then Reading(w.pc.count) else Top)
    case Enter(t) =>
      w.(handles := SetPhase(w.handles, t, Processing), byRun := w.byRun[w.handles[t].run := t],
         permits := w.permits - 1, gauge := w.gauge + 1)
    case Leave(t) =>
      var r := w.handles[t].run;
      w.(handles := SetPhase(w.handles, t, Acking), gauge := w.gauge - 1,
         byRun := if r in w.byRun && w.byRun[r] == t then w.byRun - {r} else w.byRun)
    case Acked(t) => w.(handles := SetPhase(w.handles, t, Finished), permits := w.permits + 1)
    case Discard(t) => w.(inflight := w.inflight - {t})
    case CancelMessage(r) =>
      if r in w.byRun && w.byRun[r] < |w.handles| && w.handles[w.byRun[r]].phase != Finished
      then w.(handles := w.handles[w.byRun[r] := w.handles[w.byRun[r]].(cancelRequested := true)])
      else w
  }

  ghost predicate Next(lim: Limits, w: Worker, ev: Event, w': Worker) {
    Enabled(w, ev) && w' == Happen(lim, w, ev)
  }

  ghost predicate StepAt(lim: Limits, ws: seq<Worker>, evs: seq<Event>, i: nat) {
    i < |evs| && i + 1 < |ws| && Next(lim, ws[i], evs[i], ws[i + 1])
  }

  ghost predicate Behavior(lim: Limits, ws: seq<Worker>, evs: seq<Event>) {
    && |ws| == |evs| + 1 && ws[0] == Idle(lim)
    && (forall i :: 0 <= i < |evs| ==> StepAt(lim, ws, evs, i))
  }

  // ------------------------------------------------------- the invariant

  predicate Holds(p: Phase) { p.Processing? || p.Acking? }

  /** Tasks inside the semaphore, and those inside `process_run`. */
  function Holding(handles: seq<Handle>): nat {
    if handles == [] then 0
    else Holding(handles[..|handles| - 1]) + if Holds(handles[|handles| - 1].phase) then 1 else 0
  }

  function InProcess(handles: seq<Handle>): nat {
    if handles == [] then 0
    else InProcess(handles[..|handles| - 1]) + if handles[|handles| - 1].phase.Processing? then 1 else 0
  }

  lemma {:induction false} CountUpdate(hs: seq<Handle>, t: TaskId, h: Handle)
    requires t < |hs|
    ensures Holding(hs[t := h])
         == Holding(hs) + (if Holds(h.phase) then 1 else 0) - if Holds(hs[t].phase) then 1 else 0
    ensures InProcess(hs[t := h])
         == InProcess(hs) + (if h.phase.Processing? then 1 else 0) - if hs[t].phase.Processing? then 1 else 0
  {
    var n := |hs| - 1;
    if t == n {
      assert hs[t := h][..n] == hs[..n];
    } else {
      assert hs[t := h][..n] == hs[..n][t := h];
      CountUpdate(hs[..n], t, h);
    }
  }

  lemma {:induction false} CountAppend(hs: seq<Handle>, h: Handle)
    ensures Holding(hs + [h]) == Holding(hs) + if Holds(h.phase) then 1 else 0
    ensures InProcess(hs + [h]) == InProcess(hs) + if h.phase.Processing? then 1 else 0
  {
    assert (hs + [h])[..|hs|] == hs;
  }

  lemma {:induction false} ProcessingHold(hs: seq<Handle>)
    ensures InProcess(hs) <= Holding(hs)
  {
    if hs != [] { ProcessingHold(hs[..|hs| - 1]); }
  }

  function Bound(lim: Limits): int { lim.concurrency + Min(lim.concurrency, lim.batch) }

  /** How many more tasks may be spawned before the loop looks at its capacity again. */
  function Promised(pc: LoopPc): int {
    match pc case Top => 0 case Reclaiming(count, left) => count + left case Reading(left) => left
  }

  function Committed(w: Worker): int {
    |w.inflight| + Promised(w.pc)
  }

  /** The map entry of run `r` is a task that processes that very run. */
  ghost predicate MapEntryOk(w: Worker, r: RunId)
    requires r in w.byRun
  {
    At(w, w.byRun[r], Processing) && w.handles[w.byRun[r]].run == r
  }

  ghost predicate WorkerOk(lim: Limits, w: Worker) {
    && 0 <= w.permits == lim.concurrency - Holding(w.handles)
    && w.gauge == InProcess(w.handles)
    && Committed(w) <= Bound(lim)
    && (forall t :: t in w.inflight ==> t < |w.handles|)
    && (forall t :: 0 <= t < |w.handles| && w.handles[t].phase != Finished ==> t in w.inflight)
    && (forall r :: r in w.byRun ==> MapEntryOk(w, r))
  }

  lemma StepCounts(lim: Limits, w: Worker, ev: Event, w': Worker)
    requires Next(lim, w, ev, w') && WorkerOk(lim, w)
    ensures 0 <= w'.permits == lim.concurrency - Holding(w'.handles)
    ensures w'.gauge == InProcess(w'.handles)
  {
    match ev
    case Spawn(r) => CountAppend(w.handles, Handle(r, Waiting, false));
    case Enter(t) => CountUpdate(w.handles, t, w'.handles[t]);
    case Leave(t) => CountUpdate(w.handles, t, w'.handles[t]);
    case Acked(t) => CountUpdate(w.handles, t, w'.handles[t]);
    case CancelMessage(r) => if r in w.byRun { CountUpdate(w.handles, w.byRun[r], w'.handles[w.byRun[r]]); }
    case _ =>
  }

  lemma StepMap(lim: Limits, w: Worker, ev: Event, w': Worker, r: RunId)
    requires Next(lim, w, ev, w') && WorkerOk(lim, w) && r in w'.byRun
    ensures MapEntryOk(w', r)
  {
    if r in w.byRun { assert MapEntryOk(w, r); }
  }

  lemma StepSize(lim: Limits, w: Worker, ev: Event, w': Worker)
    requires Next(lim, w, ev, w')
    ensures |w'.inflight| <= |w.inflight| + if ev.Spawn? then 1 else 0
  {
    match ev
    case Spawn(_) => if |w.handles| in w.inflight { assert w'.inflight == w.inflight; }
    case Discard(t) => if t !in w.inflight { assert w'.inflight == w.inflight; }
    case _ => assert w'.inflight == w.inflight;
  }

  lemma StepPc(lim: Limits, w: Worker, ev: Event, w': Worker)
    requires Next(lim, w, ev, w')
    ensures w'.pc == w.pc || ev.Spawn?
         || (ev.Measure? && w.pc.Top? && |w.inflight| < lim.concurrency
             && Promised(w'.pc) == 2 * Min(lim.concurrency - |w.inflight|, lim.batch))
         || (ev.NextRead? && Promised(w'.pc) <= Promised(w.pc))
    ensures ev.Spawn? ==> Promised(w'.pc) == Promised(w.pc) - 1
  {}

  lemma StepCommitted(lim: Limits, w: Worker, ev: Event, w': Worker)
    requires Next(lim, w, ev, w') && Committed(w) <= Bound(lim)
    ensures Committed(w') <= Bound(lim)
  {
    StepSize(lim, w, ev, w');
    StepPc(lim, w, ev, w');
  }

  lemma StepInflight(lim: Limits, w: Worker, ev: Event, w': Worker)
    requires Next(lim, w, ev, w')
    requires forall t :: t in w.inflight ==> t < |w.handles|
    requires forall t :: 0 <= t < |w.handles| && w.handles[t].phase != Finished ==> t in w.inflight
    ensures forall t :: t in w'.inflight ==> t < |w'.handles|
    ensures forall t :: 0 <= t < |w'.handles| && w'.handles[t].phase != Finished ==> t in w'.inflight
  {
    match ev
    case Spawn(_) => assert forall t :: 0 <= t < |w.handles| ==> w'.handles[t] == w.handles[t];
    case Discard(_) =>
    case _ => assert w'.inflight == w.inflight;
  }

  lemma WorkerOkStep(lim: Limits, w: Worker, ev: Event, w': Worker)
    requires Next(lim, w, ev, w') && WorkerOk(lim, w)
    ensures WorkerOk(lim, w')
  {
    StepCounts(lim, w, ev, w');
    StepCommitted(lim, w, ev, w');
    StepInflight(lim, w, ev, w');
    forall r | r in w'.byRun ensures MapEntryOk(w', r) { StepMap(lim, w, ev, w', r); }
  }

  lemma {:induction false} AlwaysOk(lim: Limits, ws: seq<Worker>, evs: seq<Event>, i: nat)
    requires Behavior(lim, ws, evs) && i < |ws|
    ensures WorkerOk(lim, ws[i])
  {
    if i > 0 {
      AlwaysOk(lim, ws, evs, i - 1);
      assert StepAt(lim, ws, evs, i - 1);
      WorkerOkStep(lim, ws[i - 1], evs[i - 1], ws[i]);
    }
  }

  /** At most C tasks hold a permit, at most C + min(C, B) are in flight, and the gauge tells the truth. */
  lemma BoundedConcurrency(lim: Limits, ws: seq<Worker>, evs: seq<Event>, i: nat)
    requires Behavior(lim, ws, evs) && i < |ws|
    ensures ws[i].gauge == InProcess(ws[i].handles) <= Holding(ws[i].handles) <= lim.concurrency
    ensures |ws[i].inflight| <= lim.concurrency + Min(lim.concurrency, lim.batch)
  {
    AlwaysOk(lim, ws, evs, i);
    ProcessingHold(ws[i].handles);
  }

  // ------------------------------------------------------- the cancel map

  /**
   A cancel message reaches at most one task, and that task is inside `process_run` with that
   very run; a task that has begun to ack and delete is never touched, and leaves that phase
   only by completing it.
   */
  lemma CancelNeverHitsAck(lim: Limits, ws: seq<Worker>, evs: seq<Event>, i: nat, t: TaskId)
    requires Behavior(lim, ws, evs) && i < |evs| && t < |ws[i].handles|
    ensures t < |ws[i + 1].handles|
    ensures ws[i + 1].handles[t].cancelRequested && !ws[i].handles[t].cancelRequested ==>
              evs[i] == CancelMessage(ws[i].handles[t].run) && ws[i].handles[t].phase == Processing
    ensures ws[i].handles[t].phase == Acking ==>
              ws[i + 1].handles[t] == ws[i].handles[t] || (evs[i] == Acked(t) && ws[i + 1].handles[t].phase == Finished)
  {
    AlwaysOk(lim, ws, evs, i);
    assert StepAt(lim, ws, evs, i);
    if evs[i].CancelMessage? && evs[i].run in ws[i].byRun { assert MapEntryOk(ws[i], evs[i].run); }
  }

  /** A later `handle` of the same run entered the semaphore between events `i` and `n`. */
  ghost predicate Shadowed(ws: seq<Worker>, evs: seq<Event>, i: nat, n: nat, r: RunId)
    requires n <= |evs| <= |ws|
  {
    exists k :: i < k < n && Enters(ws[k], evs[k], r)
  }

  lemma ShadowedStep(ws: seq<Worker>, evs: seq<Event>, i: nat, n: nat, r: RunId)
    requires i < n - 1 && n <= |evs| <= |ws|
    ensures Shadowed(ws, evs, i, n, r) <==> Shadowed(ws, evs, i, n - 1, r) || Enters(ws[n - 1], evs[n - 1], r)
  {}

  ghost predicate Enters(w: Worker, ev: Event, r: RunId) {
    ev.Enter? && ev.task < |w.handles| && w.handles[ev.task].run == r
  }

  ghost predicate Mapped(w: Worker, t: TaskId, r: RunId) {
    r in w.byRun && w.byRun[r] == t
  }

  /** What one event does to the map entry of a task that is still processing afterwards. */
  lemma MappedStep(lim: Limits, w: Worker, ev: Event, w': Worker, t: TaskId)
    requires Next(lim, w, ev, w') && At(w, t, Processing) && At(w', t, Processing)
    ensures w'.handles[t].run == w.handles[t].run
    ensures Mapped(w', t, w.handles[t].run) <==>
              Mapped(w, t, w.handles[t].run) && !Enters(w, ev, w.handles[t].run)
  {}

  lemma PhaseBack(lim: Limits, w: Worker, ev: Event, w': Worker, t: TaskId)
    requires Next(lim, w, ev, w') && At(w', t, Processing) && t < |w.handles|
    ensures At(w, t, Processing) || ev == Enter(t)
    ensures w'.handles[t].run == w.handles[t].run
    ensures ev.Enter? ==> At(w, ev.task, Waiting)
  {}

  /** A task that has entered the semaphore never waits again. */
  lemma {:induction false} EnteredOnce(lim: Limits, ws: seq<Worker>, evs: seq<Event>, i: nat, n: nat)
    requires Behavior(lim, ws, evs) && i < n <= |evs| && evs[i].Enter?
    ensures evs[i].task < |ws[n].handles| && !ws[n].handles[evs[i].task].phase.Waiting?
  {
    assert StepAt(lim, ws, evs, n - 1);
    if n > i + 1 { EnteredOnce(lim, ws, evs, i, n - 1); }
  }

  /**
   A task inside `process_run` can be found by the cancel listener if and only if no later
   delivery of the same run has entered since.
   */
  lemma {:induction false} CancelReachesIff(lim: Limits, ws: seq<Worker>, evs: seq<Event>, i: nat, n: nat)
    requires Behavior(lim, ws, evs) && i < n <= |evs| && evs[i].Enter? && At(ws[n], evs[i].task, Processing)
    ensures var t := evs[i].task; var r := ws[n].handles[t].run;
            && At(ws[i], t, Waiting) && ws[i].handles[t].run == r
            && (Mapped(ws[n], t, r) <==> !Shadowed(ws, evs, i, n, r))
  {
    var t := evs[i].task;
    assert StepAt(lim, ws, evs, n - 1);
    if n > i + 1 {
      EnteredOnce(lim, ws, evs, i, n - 1);
      PhaseBack(lim, ws[n - 1], evs[n - 1], ws[n], t);
      CancelReachesIff(lim, ws, evs, i, n - 1);
      MappedStep(lim, ws[n - 1], evs[n - 1], ws[n], t);
      ShadowedStep(ws, evs, i, n, ws[n].handles[t].run);
    }
  }

  /** A cancel message marks the task the map names, which is always an unfinished one, and nothing else. */
  lemma CancelMarksMapped(lim: Limits, ws: seq<Worker>, evs: seq<Event>, i: nat)
    requires Behavior(lim, ws, evs) && i < |evs| && evs[i].CancelMessage?
    ensures var r := evs[i].run;
            if r in ws[i].byRun
            then ws[i].byRun[r] < |ws[i].handles| && ws[i].handles[ws[i].byRun[r]].phase != Finished
                 && ws[i + 1] == ws[i].(handles :=
                      ws[i].handles[ws[i].byRun[r] := ws[i].handles[ws[i].byRun[r]].(cancelRequested := true)])
            else ws[i + 1] == ws[i]
  {
    AlwaysOk(lim, ws, evs, i);
    assert StepAt(lim, ws, evs, i);
    if evs[i].run in ws[i].byRun { assert MapEntryOk(ws[i], evs[i].run); }
  }

  /**
   A cancel message for the run of a task inside `process_run` cancels that task if and only if
   no later delivery of the same run has entered since.
   */
  lemma CancelsIff(lim: Limits, ws: seq<Worker>, evs: seq<Event>, i: nat, n: nat)
    requires Behavior(lim, ws, evs) && i < n < |evs| && evs[i].Enter? && At(ws[n], evs[i].task, Processing)
    requires evs[n] == CancelMessage(ws[n].handles[evs[i].task].run) && !ws[n].handles[evs[i].task].cancelRequested
    ensures var t := evs[i].task;
            && t < |ws[n + 1].handles|
            && (ws[n + 1].handles[t].cancelRequested <==> !Shadowed(ws, evs, i, n, ws[n].handles[t].run))
  {
    CancelReachesIff(lim, ws, evs, i, n);
    CancelMarksMapped(lim, ws, evs, n);
  }

  /** The event was the callback that drops task `t` from the in-flight set. */
  ghost predicate Dropped(evs: seq<Event>, n: nat, t: TaskId)
    requires n <= |evs|
  {
    exists k :: 0 <= k < n && evs[k] == Discard(t)
  }

  lemma InflightStep(lim: Limits, w: Worker, ev: Event, w': Worker, t: TaskId)
    requires Next(lim, w, ev, w') && WorkerOk(lim, w)
    ensures t in w'.inflight <==> (t in w.inflight || (ev.Spawn? && t == |w.handles|)) && ev != Discard(t)
    ensures t < |w'.handles| <==> t < |w.handles| || (ev.Spawn? && t == |w.handles|)
    ensures ev == Discard(t) ==> t < |w.handles|
  {}

  /** In flight are exactly the spawned tasks whose callback has not run: capacity comes back. */
  lemma {:induction false} InflightIff(lim: Limits, ws: seq<Worker>, evs: seq<Event>, n: nat, t: TaskId)
    requires Behavior(lim, ws, evs) && n <= |evs|
    ensures t in ws[n].inflight <==> t < |ws[n].handles| && !Dropped(evs, n, t)
    ensures Dropped(evs, n, t) ==> t < |ws[n].handles|
  {
    if n > 0 {
      InflightIff(lim, ws, evs, n - 1, t);
      AlwaysOk(lim, ws, evs, n - 1);
      assert StepAt(lim, ws, evs, n - 1);
      InflightStep(lim, ws[n - 1], evs[n - 1], ws[n], t);
      assert Dropped(evs, n, t) <==> Dropped(evs, n - 1, t) || evs[n - 1] == Discard(t);
    }
  }

  // ------------------------------------------------------- the bound is reached

  ghost predicate Reaches(lim: Limits, ws: seq<Worker>, evs: seq<Event>, w: Worker) {
    Behavior(lim, ws, evs) && ws[|evs|] == w
  }

  ghost predicate Reachable(lim: Limits, w: Worker) {
    exists ws, evs :: Reaches(lim, ws, evs, w)
  }

  lemma IdleReachable(lim: Limits)
    ensures Reachable(lim, Idle(lim))
  {
    assert Reaches(lim, [Idle(lim)], [], Idle(lim));
  }

  lemma ReachableStep(lim: Limits, w: Worker, ev: Event)
    requires Reachable(lim, w) && Enabled(w, ev)
    ensures Reachable(lim, Happen(lim, w, ev))
  {
    var ws, evs :| Reaches(lim, ws, evs, w);
    var w' := Happen(lim, w, ev);
    var ws', evs' := ws + [w'], evs + [ev];
    forall i | 0 <= i < |evs'| ensures StepAt(lim, ws', evs', i) {
      if i < |evs| { assert StepAt(lim, ws, evs, i); }
    }
    assert Reaches(lim, ws', evs', w');
  }

  lemma ReachableOk(lim: Limits, w: Worker)
    requires Reachable(lim, w)
    ensures WorkerOk(lim, w)
  {
    var ws, evs :| Reaches(lim, ws, evs, w);
    AlwaysOk(lim, ws, evs, |evs|);
  }

  /** The messages of one reply, spawned one after the other. */
  function Spawns(lim: Limits, w: Worker, reply: seq<RunId>): (w': Worker)
    requires !w.pc.Top? && |reply| <= w.pc.left
    ensures |w'.handles| == |w.handles| + |reply| && w.handles <= w'.handles
    ensures forall i :: 0 <= i < |reply| ==> w'.handles[|w.handles| + i] == Handle(reply[i], Waiting, false)
    ensures forall t :: |w.handles| <= t < |w'.handles| ==> t in w'.inflight
    ensures w'.byRun == w.byRun && w'.permits == w.permits && w'.gauge == w.gauge
    ensures w'.pc == if w.pc.Reclaiming? then w.pc.(left := w.pc.left - |reply|) else Reading(w.pc.left - |reply|)
  {
    if reply == [] then w else Happen(lim, Spawns(lim, w, reply[..|reply| - 1]), Spawn(reply[|reply| - 1]))
  }

  lemma {:induction false} SpawnsReachable(lim: Limits, w: Worker, reply: seq<RunId>)
    requires Reachable(lim, w) && !w.pc.Top? && |reply| <= w.pc.left
    ensures Reachable(lim, Spawns(lim, w, reply)) && |Spawns(lim, w, reply).inflight| == |w.inflight| + |reply|
  {
    if reply != [] {
      var v := Spawns(lim, w, reply[..|reply| - 1]);
      SpawnsReachable(lim, w, reply[..|reply| - 1]);
      ReachableOk(lim, v);
      ReachableStep(lim, v, Spawn(reply[|reply| - 1]));
    }
  }

  /** One round of the loop, answered with `a` reclaimed and `b` new messages. */
  lemma Round(lim: Limits, w: Worker, a: nat, b: nat) returns (w': Worker)
    requires Reachable(lim, w) && w.pc == Top && |w.inflight| < lim.concurrency
    requires var count := Min(lim.concurrency - |w.inflight|, lim.batch); a <= count && b <= count
    ensures Reachable(lim, w') && w'.pc == Top && |w'.inflight| == |w.inflight| + a + b
  {
    ReachableStep(lim, w, Measure);
    SpawnsReachable(lim, Happen(lim, w, Measure), seq(a, i => 0));
    var w1 := Spawns(lim, Happen(lim, w, Measure), seq(a, i => 0));
    ReachableStep(lim, w1, NextRead);
    SpawnsReachable(lim, Happen(lim, w1, NextRead), seq(b, i => 0));
    var w2 := Spawns(lim, Happen(lim, w1, NextRead), seq(b, i => 0));
    ReachableStep(lim, w2, NextRead);
    w' := Happen(lim, w2, NextRead);
  }

  lemma {:induction false} FillTo(lim: Limits, n: nat) returns (w: Worker)
    requires n < lim.concurrency && lim.batch > 0
    ensures Reachable(lim, w) && w.pc == Top && |w.inflight| == n
  {
    if n == 0 {
      IdleReachable(lim);
      w := Idle(lim);
    } else {
      var v := FillTo(lim, n - 1);
      w := Round(lim, v, 1, 0);
    }
  }

  /** The bound on tasks in flight is exact for every concurrency and batch size. */
  lemma BoundIsReached(lim: Limits) returns (w: Worker)
    requires lim.concurrency > 0 && lim.batch > 0
    ensures Reachable(lim, w) && |w.inflight| == lim.concurrency + Min(lim.concurrency, lim.batch)
  {
    var m := Min(lim.concurrency, lim.batch);
    var v := FillTo(lim, lim.concurrency - m);
    w := Round(lim, v, m, m);
  }

  // ------------------------------------------------------- the code

  class WorkerProcess {
    const limits: Limits
    var handles: seq<Handle>
    var inflight: set<TaskId>
    var inflightByRun: map<RunId, TaskId>
    var permits: int
    var gauge: int
    var pc: LoopPc

    ghost function View(): Worker
      reads this
    {
      Worker(handles, inflight, inflightByRun, permits, gauge, pc)
    }

    constructor (limits: Limits)
      ensures this.limits == limits && View() == Idle(limits)
    {
      this.limits, handles, inflight, inflightByRun, permits, gauge, pc :=
        limits, [], {}, map[], limits.concurrency, 0, Top;
    }

    method MeasureCapacity()
      requires Enabled(View(), Measure)
      modifies this`pc
      ensures View() == Happen(limits, old(View()), Measure)
    {
      var capacity := limits.concurrency - |inflight|;
      if capacity <= 0 { return; }
      var count := Min(capacity, limits.batch);
      pc := Reclaiming(count, count);
    }

    /** The message loops of `_reclaim_stale` and of the stream reply: one `spawn` per readable message. */
    method SpawnAll(reply: seq<RunId>)
      requires !pc.Top? && |reply| <= pc.left
      modifies this
      ensures View() == Spawns(limits, old(View()), reply)
      ensures |handles| == |old(handles)| + |reply|
      ensures forall i :: 0 <= i < |reply| ==> handles[|old(handles)| + i] == Handle(reply[i], Waiting, false)
    {
      for k := 0 to |reply|
        invariant View() == Spawns(limits, old(View()), reply[..k])
      {
        assert reply[..k + 1][..k] == reply[..k];
        SpawnOne(reply[k]);
      }
      assert reply[..|reply|] == reply;
    }

    method SpawnOne(run: RunId)
      requires Enabled(View(), Spawn(run))
      modifies this
      ensures View() == Happen(limits, old(View()), Spawn(run))
    {
      handles := handles + [Handle(run, Waiting, false)];
      inflight := inflight + {|handles| - 1};
      pc := if pc.Reclaiming? then pc.(left := pc.left - 1) else Reading(pc.left - 1);
    }

    method EnterProcessing(task: TaskId)
      requires Enabled(View(), Enter(task))
      modifies this
      ensures View() == Happen(limits, old(View()), Enter(task))
    {
      permits := permits - 1;
      inflightByRun := inflightByRun[handles[task].run := task];
      gauge := gauge + 1;
      handles := SetPhase(handles, task, Processing);
    }

    method LeaveProcessing(task: TaskId)
      requires Enabled(View(), Leave(task))
      modifies this
      ensures View() == Happen(limits, old(View()), Leave(task))
    {
      var run := handles[task].run;
      if run in inflightByRun && inflightByRun[run] == task { inflightByRun := inflightByRun - {run}; }
      gauge := gauge - 1;
      handles := SetPhase(handles, task, Acking);
    }

    method OnCancelMessage(run: RunId)
      modifies this`handles
      ensures View() == Happen(limits, old(View()), CancelMessage(run))
    {
      if run !in inflightByRun { return; }
      var task := inflightByRun[run];
      if task < |handles| && handles[task].phase != Finished {
        handles := handles[task := handles[task].(cancelRequested := true)];
      }
    }
  }
}
