/**
 A PENDING run that meets the condition of `Stranded` can finish without help from a user.

 The continuation works in rounds. First everything that can still succeed is made to succeed,
 and its task is held just before it reads its dependents; then all held tasks read, and all
 fan-out lists are worked off. Each round brings the run one level of the graph nearer.
 */
module Promotion {
  import opened Runs
  import opened Store
  import opened Protocol
  import opened Lifecycle
  import opened Claims
  import opened NoLoss
  import opened Recovery
  import opened Stranded
  import Delayed

  // ------------------------------------------------------- paths

  /** A worker that registers a retry reads the clock after it has created it. */
  ghost predicate Prompt(w: World, s: Step) {
    s.Advance? && s.task < |w.tasks| && w.tasks[s.task].pc.Delaying? && w.tasks[s.task].pc.next < |w.runs| ==>
      w.runs[w.tasks[s.task].pc.next].createdAt <= s.now
  }

  ghost predicate Path(cfg: Config, w: World, w': World, ws: seq<World>, ss: seq<Step>) {
    && Continuation(cfg, ws, ss, false) && ws[0] == w && ws[|ss|] == w'
    && forall i :: 0 <= i < |ss| ==> Prompt(ws[i], ss[i])
  }

  /** Schedulers and workers alone can bring the system from `w` to `w'`. */
  ghost predicate Leads(cfg: Config, w: World, w': World) {
    exists ws, ss :: Path(cfg, w, w', ws, ss)
  }

  lemma LeadsNowhere(cfg: Config, w: World)
    ensures Leads(cfg, w, w)
  {
    assert Path(cfg, w, w, [w], []);
  }

  lemma LeadsStep(cfg: Config, w: World, s: Step, w': World)
    requires Next(cfg, w, s, w') && Automatic(s) && Prompt(w, s)
    ensures Leads(cfg, w, w')
  {
    assert Path(cfg, w, w', [w, w'], [s]);
  }

  lemma LeadsOn(cfg: Config, w0: World, w1: World, w2: World)
    requires Leads(cfg, w0, w1) && Leads(cfg, w1, w2)
    ensures Leads(cfg, w0, w2)
  {
    var ws1, ss1 :| Path(cfg, w0, w1, ws1, ss1);
    var ws2, ss2 :| Path(cfg, w1, w2, ws2, ss2);
    PathsJoin(cfg, w0, w1, w2, ws1, ss1, ws2, ss2);
  }

  lemma PathsJoin(cfg: Config, w0: World, w1: World, w2: World,
      ws1: seq<World>, ss1: seq<Step>, ws2: seq<World>, ss2: seq<Step>)
    requires Path(cfg, w0, w1, ws1, ss1) && Path(cfg, w1, w2, ws2, ss2)
    ensures Path(cfg, w0, w2, ws1 + ws2[1..], ss1 + ss2)
  {
    var ws, ss := ws1 + ws2[1..], ss1 + ss2;
    forall i | 0 <= i < |ss| ensures StepAt(cfg, ws, ss, i) {
      if i < |ss1| {
        assert StepAt(cfg, ws1, ss1, i);
      } else {
        assert StepAt(cfg, ws2, ss2, i - |ss1|);
        JoinedAt(ws1, ss1, ws2, ss2, i - |ss1|);
      }
    }
    forall i | 0 <= i < |ss| ensures Automatic(ss[i]) && Prompt(ws[i], ss[i]) {
      if i >= |ss1| { JoinedAt(ws1, ss1, ws2, ss2, i - |ss1|); }
    }
  }

  lemma JoinedAt(ws1: seq<World>, ss1: seq<Step>, ws2: seq<World>, ss2: seq<Step>, k: nat)
    requires |ws1| == |ss1| + 1 && |ws2| == |ss2| + 1 && ws1[|ss1|] == ws2[0] && k < |ss2|
    ensures (ws1 + ws2[1..])[|ss1| + k] == ws2[k] && (ws1 + ws2[1..])[|ss1| + k + 1] == ws2[k + 1]
    ensures (ss1 + ss2)[|ss1| + k] == ss2[k]
  {}

  lemma LeadsToFinish(cfg: Config, w: World, w': World, r: RunId)
    requires Leads(cfg, w, w') && CanFinish(cfg, w', r, false)
    ensures CanFinish(cfg, w, r, false)
  {
    var ws, ss :| Path(cfg, w, w', ws, ss);
    FinishBefore(cfg, ws, ss, 0, r);
  }

  lemma {:induction false} FinishBefore(cfg: Config, ws: seq<World>, ss: seq<Step>, i: nat, r: RunId)
    requires Continuation(cfg, ws, ss, false) && i <= |ss| && CanFinish(cfg, ws[|ss|], r, false)
    ensures CanFinish(cfg, ws[i], r, false)
    decreases |ss| - i
  {
    if i < |ss| {
      FinishBefore(cfg, ws, ss, i + 1, r);
      assert StepAt(cfg, ws, ss, i);
      FinishAfter(cfg, ws[i], ss[i], r, false);
    }
  }

  // ------------------------------------------------------- gentle steps

  /** Steps that spoil no success and drop no reference to a run. */
  ghost predicate Harmless(w: World, s: Step) {
    match s
    case Execute(_, result) => result == Succeeded
    case Advance(t, _) =>
      && Live(w, t) && w.tasks[t].run < |w.runs|
      && (match w.tasks[t].pc
          case Start => Claimable(w.runs[w.tasks[t].run].status, w.tasks[t].allowRunning)
          case Checking(_) => w.runs[w.tasks[t].run].status != Canceled
          case Finishing(result) =>
            || result == Succeeded
            || (w.runs[w.tasks[t].run].status == Running && !Winnable(w, w.tasks[t].run))
          case Acking => false
          case Deleting => false
          case _ => true)
    case _ => Automatic(s)
  }

  /** Those that use up no fan-out either. */
  ghost predicate Gentle(w: World, s: Step) {
    && Harmless(w, s)
    && (s.Advance? ==> !w.tasks[s.task].pc.Reading? && !w.tasks[s.task].pc.FanOut? && !w.tasks[s.task].pc.LateFanOut?)
  }

  ghost predicate RefKept(w: World, w': World, x: RunId) {
    || x in w'.outbox || x in w'.delayed
    || (exists m :: Pointed(w', m, x)) || (exists t :: Returns(w', t, x)) || (exists t :: Wins(w', t, x))
  }

  lemma EntryKept(cfg: Config, w: World, s: Step, w': World, m: MsgId, x: RunId)
    requires Next(cfg, w, s, w') && Harmless(w, s) && Pointed(w, m, x)
    ensures Pointed(w', m, x)
  {}

  lemma OutboxKept(cfg: Config, w: World, s: Step, w': World, x: RunId)
    requires Next(cfg, w, s, w') && Harmless(w, s) && x in w.outbox
    ensures x in w'.outbox || exists m :: Pointed(w', m, x)
  {
    if s == Publish(x) { assert Pointed(w', |w.stream|, x); }
  }

  lemma DelayedKept(cfg: Config, w: World, s: Step, w': World, x: RunId)
    requires Next(cfg, w, s, w') && Harmless(w, s) && x in w.delayed
    ensures x in w'.delayed || exists m :: Pointed(w', m, x)
  {
    if s.PromoteDelayed? && x !in w'.delayed {
      var i :| 0 <= i < |s.due| && s.due[i] == x;
      assert Pointed(w', |w.stream| + i, x);
    }
  }

  lemma ReturnsKept(cfg: Config, w: World, s: Step, w': World, t: TaskId, x: RunId)
    requires Next(cfg, w, s, w') && Harmless(w, s) && AutoStep(cfg, w, s, w') && Returns(w, t, x)
    ensures RefKept(w, w', x)
  {
    if s.Advance? && s.task == t {
      ReturnMoves(cfg, w, t, s.now, w', x);
    } else {
      assert TaskFrom(cfg, w, s, w', t);
      assert Returns(w', t, x);
    }
  }

  lemma ReturnMoves(cfg: Config, w: World, t: TaskId, now: real, w': World, x: RunId)
    requires Next(cfg, w, Advance(t, now), w') && Harmless(w, Advance(t, now)) && Returns(w, t, x)
    ensures RefKept(w, w', x)
  {
    if w.tasks[t].pc.Sending? { assert Pointed(w', |w.stream|, x); }
    else if w.tasks[t].pc == Start { assert Wins(w', t, x); }
  }

  lemma WinsKept(cfg: Config, w: World, s: Step, w': World, t: TaskId, x: RunId)
    requires Next(cfg, w, s, w') && Harmless(w, s) && AutoStep(cfg, w, s, w') && Wins(w, t, x)
    ensures x < |w'.runs| && w'.runs[x].job == w.runs[x].job
    ensures Wins(w', t, x) || (w'.runs[x].status == Succeeded && TokenAt(w', t, w.runs[x].job))
  {
    assert RowFrom(cfg, w, s, w', x);
    if s.Advance? && s.task == t { WinMoves(cfg, w, t, s.now, w', x); } else { assert TaskFrom(cfg, w, s, w', t); }
  }

  lemma WinMoves(cfg: Config, w: World, t: TaskId, now: real, w': World, x: RunId)
    requires Next(cfg, w, Advance(t, now), w') && Wins(w, t, x) && x < |w'.runs|
    ensures Wins(w', t, x) || (w'.runs[x].status == Succeeded && TokenAt(w', t, w.runs[x].job))
  {}

  // ------------------------------------------------------- what gentle steps keep

  /** Job `d` has succeeded, and one of its tasks is still going to fan out. */
  ghost predicate Won(w: World, d: JobId) {
    HasSucceeded(w.runs, d) && Token(w, d)
  }

  ghost predicate CalmRow(w: World, w': World, x: RunId)
    requires x < |w'.runs|
  {
    if x < |w.runs| then
      && w'.runs[x].job == w.runs[x].job
      && (w'.runs[x].status == Pending <==> w.runs[x].status == Pending)
      && (w.runs[x].status == Succeeded ==> w'.runs[x].status == Succeeded)
    else w'.runs[x].status != Pending
  }

  ghost predicate CalmRows(w: World, w': World) {
    |w.runs| <= |w'.runs| && forall x :: 0 <= x < |w'.runs| ==> CalmRow(w, w', x)
  }

  ghost predicate CalmTasks(cfg: Config, w: World, w': World) {
    && (forall t: TaskId, d :: NamesAt(w, t, d) <==> NamesAt(w', t, d))
    && (forall t: TaskId, d :: TokenAt(w, t, d) ==> TokenAt(w', t, d))
    && (forall t: TaskId, d :: Retrier(cfg, w', t, d) ==> Retrier(cfg, w, t, d))
  }

  ghost predicate Sound(w: World, x: RunId) {
    x < |w.runs| && w.runs[x].status == Running ==> Winnable(w, x)
  }

  /** No run is lost or found, and every run that starts running can be won. */
  ghost predicate CalmRunning(w: World, w': World) {
    && (forall x: RunId, d :: LostAt(w, x, d) <==> LostAt(w', x, d))
    && (forall x: RunId :: Sound(w, x) ==> Sound(w', x))
  }

  ghost predicate CalmSources(cfg: Config, w: World, w': World) {
    forall d :: Source(cfg, w, d) ==> Source(cfg, w', d) || Won(w', d)
  }

  ghost predicate Calm(cfg: Config, w: World, w': World) {
    && InFlightKnown(w') && CalmRows(w, w') && CalmTasks(cfg, w, w') && CalmRunning(w, w') && CalmSources(cfg, w, w')
  }

  lemma SucceededKept(w: World, w': World, d: JobId)
    requires CalmRows(w, w') && HasSucceeded(w.runs, d)
    ensures HasSucceeded(w'.runs, d)
  {
    var x :| 0 <= x < |w.runs| && w.runs[x].job == d && w.runs[x].status == Succeeded;
    assert CalmRow(w, w', x);
  }

  lemma WonKept(cfg: Config, w: World, w': World, d: JobId)
    requires CalmRows(w, w') && CalmTasks(cfg, w, w') && Won(w, d)
    ensures Won(w', d)
  {
    SucceededKept(w, w', d);
    var t: TaskId :| TokenAt(w, t, d);
    assert TokenAt(w', t, d);
  }

  lemma CalmOn(cfg: Config, w0: World, w1: World, w2: World)
    requires Calm(cfg, w0, w1) && Calm(cfg, w1, w2)
    ensures Calm(cfg, w0, w2)
  {
    assert CalmRows(w0, w2) by {
      forall x | 0 <= x < |w2.runs| ensures CalmRow(w0, w2, x) {
        assert CalmRow(w1, w2, x);
        if x < |w1.runs| { assert CalmRow(w0, w1, x); }
      }
    }
    forall d | Source(cfg, w0, d) ensures Source(cfg, w2, d) || Won(w2, d) {
      if Won(w1, d) { WonKept(cfg, w1, w2, d); }
    }
  }

  lemma GentleRows(cfg: Config, w: World, s: Step, w': World)
    requires AutoStep(cfg, w, s, w') && Gentle(w, s)
    ensures CalmRows(w, w')
  {
    if s.Advance? { assert TaskKnown(w.runs, w.stream, w.tasks[s.task]); }
    forall x | 0 <= x < |w'.runs| ensures CalmRow(w, w', x) {
      assert RowFrom(cfg, w, s, w', x);
    }
  }

  lemma NamesKept(cfg: Config, w: World, s: Step, w': World, t: TaskId, d: JobId)
    requires Next(cfg, w, s, w') && Gentle(w, s) && AutoStep(cfg, w, s, w') && NamesAt(w, t, d)
    ensures NamesAt(w', t, d)
  {
    if s.Advance? && s.task == t { SendingMoves(cfg, w, t, s.now, w'); }
    assert TaskFrom(cfg, w, s, w', t);
  }

  lemma SendingMoves(cfg: Config, w: World, t: TaskId, now: real, w': World)
    requires Next(cfg, w, Advance(t, now), w') && w.tasks[t].pc.Sending?
    ensures |w'.tasks| == |w.tasks| && w'.tasks[t] == w.tasks[t].(pc := FanOut(w.tasks[t].pc.todo))
  {}

  lemma TokenKept(cfg: Config, w: World, s: Step, w': World, t: TaskId, d: JobId)
    requires Next(cfg, w, s, w') && Gentle(w, s) && AutoStep(cfg, w, s, w') && TokenAt(w, t, d)
    ensures TokenAt(w', t, d)
  {
    if s.Advance? && s.task == t { TokenMoves(cfg, w, t, s.now, w'); }
    assert TaskFrom(cfg, w, s, w', t);
  }

  lemma TokenMoves(cfg: Config, w: World, t: TaskId, now: real, w': World)
    requires Next(cfg, w, Advance(t, now), w') && t < |w.tasks| && w.tasks[t].pc == Finishing(Succeeded)
    ensures |w'.tasks| == |w.tasks| && w'.tasks[t] == w.tasks[t].(pc := Reading)
  {}

  lemma NamesOld(cfg: Config, w: World, s: Step, w': World, t: TaskId, d: JobId)
    requires AutoStep(cfg, w, s, w') && Gentle(w, s) && NamesAt(w', t, d)
    ensures NamesAt(w, t, d)
  {
    assert TaskFrom(cfg, w, s, w', t);
  }

  lemma RetrierOld(cfg: Config, w: World, s: Step, w': World, t: TaskId, d: JobId)
    requires AutoStep(cfg, w, s, w') && Gentle(w, s) && Retrier(cfg, w', t, d)
    ensures Retrier(cfg, w, t, d)
  {
    assert TaskFrom(cfg, w, s, w', t);
    WorksBack(cfg, w, s, w', t, d);
  }

  lemma GentleTasks(cfg: Config, w: World, s: Step, w': World)
    requires Next(cfg, w, s, w') && Gentle(w, s) && AutoStep(cfg, w, s, w')
    ensures CalmTasks(cfg, w, w')
  {
    forall t: TaskId, d | NamesAt(w, t, d) ensures NamesAt(w', t, d) { NamesKept(cfg, w, s, w', t, d); }
    forall t: TaskId, d | NamesAt(w', t, d) ensures NamesAt(w, t, d) { NamesOld(cfg, w, s, w', t, d); }
    forall t: TaskId, d | TokenAt(w, t, d) ensures TokenAt(w', t, d) { TokenKept(cfg, w, s, w', t, d); }
    forall t: TaskId, d | Retrier(cfg, w', t, d) ensures Retrier(cfg, w, t, d) { RetrierOld(cfg, w, s, w', t, d); }
  }

  /** A reference to a run is kept, or its run is now executed. */
  lemma InPlayKept(cfg: Config, w: World, s: Step, w': World, x: RunId)
    requires Next(cfg, w, s, w') && Harmless(w, s) && AutoStep(cfg, w, s, w')
    requires x in w.outbox || x in w.delayed || (exists m :: Pointed(w, m, x)) || (exists t :: Returns(w, t, x))
    ensures RefKept(w, w', x)
  {
    if x in w.outbox { OutboxKept(cfg, w, s, w', x); }
    else if x in w.delayed { DelayedKept(cfg, w, s, w', x); }
    else if m: MsgId :| Pointed(w, m, x) { EntryKept(cfg, w, s, w', m, x); }
    else { var t: TaskId :| Returns(w, t, x); ReturnsKept(cfg, w, s, w', t, x); }
  }

  lemma SoundKept(cfg: Config, w: World, s: Step, w': World, x: RunId)
    requires Next(cfg, w, s, w') && Harmless(w, s) && AutoStep(cfg, w, s, w') && Sound(w, x)
    ensures Sound(w', x)
  {
    if x < |w'.runs| && w'.runs[x].status == Running {
      assert RowFrom(cfg, w, s, w', x);
      if w.runs[x].status == Running {
        if t: TaskId :| Wins(w, t, x) { WinsKept(cfg, w, s, w', t, x); } else { InPlayKept(cfg, w, s, w', x); }
      } else {
        ClaimWins(cfg, w, s, w', x);
      }
    }
  }

  lemma ClaimWins(cfg: Config, w: World, s: Step, w': World, x: RunId)
    requires Next(cfg, w, s, w') && ClaimsRun(w, s, x)
    ensures Wins(w', s.task, x)
  {}

  /** A live task past the claim stays there until the run is no longer RUNNING. */
  lemma PreFinishKept(cfg: Config, w: World, s: Step, w': World, t: TaskId, x: RunId)
    requires Next(cfg, w, s, w') && Harmless(w, s) && AutoStep(cfg, w, s, w')
    requires Live(w, t) && w.tasks[t].run == x < |w.runs| && PreFinish(w.tasks[t].pc) && w.runs[x].status == Running
    ensures |w.runs| <= |w'.runs| && (w'.runs[x].status == Running ==> Carries(w', t, x))
  {
    if s.Advance? && s.task == t { PreFinishMoves(cfg, w, t, s.now, w', x); }
    else { assert TaskFrom(cfg, w, s, w', t); }
  }

  lemma PreFinishMoves(cfg: Config, w: World, t: TaskId, now: real, w': World, x: RunId)
    requires Next(cfg, w, Advance(t, now), w') && Live(w, t) && w.tasks[t].run == x < |w.runs| <= |w'.runs|
    requires PreFinish(w.tasks[t].pc) && w.runs[x].status == Running
    ensures w'.runs[x].status == Running ==> Carries(w', t, x)
  {}

  lemma LostOld(cfg: Config, w: World, s: Step, w': World, x: RunId, d: JobId)
    requires Next(cfg, w, s, w') && Harmless(w, s) && AutoStep(cfg, w, s, w') && LostAt(w', x, d)
    ensures LostAt(w, x, d)
  {
    assert RowFrom(cfg, w, s, w', x);
    if w.runs[x].status != Running {
      ClaimWins(cfg, w, s, w', x);
      assert Carries(w', s.task, x);
    } else if Recoverable(w, x) {
      if t: TaskId :| Carries(w, t, x) && w.tasks[t].run == x && PreFinish(w.tasks[t].pc) {
        PreFinishKept(cfg, w, s, w', t, x);
      } else {
        CarriesReturns(w, x);
        InPlayKept(cfg, w, s, w', x);
        KeptIsRecoverable(w, w', x);
      }
    }
  }

  lemma CarriesReturns(w: World, x: RunId)
    requires Recoverable(w, x)
    requires forall t: TaskId :: Carries(w, t, x) ==> !(w.tasks[t].run == x && PreFinish(w.tasks[t].pc))
    ensures x in w.outbox || x in w.delayed || (exists m :: Pointed(w, m, x)) || (exists t :: Returns(w, t, x))
  {
    if t: TaskId :| Carries(w, t, x) { assert Returns(w, t, x); }
  }

  lemma KeptIsRecoverable(w: World, w': World, x: RunId)
    requires RefKept(w, w', x)
    ensures Recoverable(w', x)
  {
    if t: TaskId :| Returns(w', t, x) { assert Carries(w', t, x); }
    else if t: TaskId :| Wins(w', t, x) { assert Carries(w', t, x); }
  }

  lemma HarmlessRunning(cfg: Config, w: World, s: Step, w': World)
    requires Next(cfg, w, s, w') && Harmless(w, s) && AutoStep(cfg, w, s, w')
    ensures CalmRunning(w, w')
  {
    forall x: RunId, d | LostAt(w, x, d) ensures LostAt(w', x, d) {
      LostStep(cfg, w, s, w', x);
      assert RowFrom(cfg, w, s, w', x);
    }
    forall x: RunId, d | LostAt(w', x, d) ensures LostAt(w, x, d) { LostOld(cfg, w, s, w', x, d); }
    forall x: RunId | Sound(w, x) ensures Sound(w', x) { SoundKept(cfg, w, s, w', x); }
  }

  /** A task that finishes successfully has won its job. */
  lemma FinishWins(cfg: Config, w: World, s: Step, w': World, x: RunId, d: JobId)
    requires Next(cfg, w, s, w') && Gentle(w, s) && AutoStep(cfg, w, s, w') && x < |w.runs| && w.runs[x].job == d
    requires w.runs[x].status == Queued || (w.runs[x].status == Running && Winnable(w, x))
    requires w'.runs[x].status != Queued && w'.runs[x].status != Running
    ensures Won(w', d)
  {
    assert RowFrom(cfg, w, s, w', x);
    var t := s.task;
    assert w.tasks[t].run == x && w.tasks[t].pc == Finishing(Succeeded);
    assert w'.runs[x].job == d && w'.runs[x].status == Succeeded;
    TokenKept(cfg, w, s, w', t, d);
  }

  lemma RowSourceKept(cfg: Config, w: World, s: Step, w': World, x: RunId, d: JobId)
    requires Next(cfg, w, s, w') && Gentle(w, s) && AutoStep(cfg, w, s, w') && WinnableRow(w, x, d)
    ensures Source(cfg, w', d) || Won(w', d)
  {
    assert RowFrom(cfg, w, s, w', x);
    if w'.runs[x].status == Queued {
      assert WinnableRow(w', x, d);
    } else if w'.runs[x].status == Running {
      if w.runs[x].status == Running { SoundKept(cfg, w, s, w', x); } else { ClaimWins(cfg, w, s, w', x); }
      assert WinnableRow(w', x, d);
    } else {
      FinishWins(cfg, w, s, w', x, d);
    }
  }

  lemma RetrierKept(cfg: Config, w: World, s: Step, w': World, t: TaskId, d: JobId)
    requires Next(cfg, w, s, w') && Gentle(w, s) && AutoStep(cfg, w, s, w') && Retrier(cfg, w, t, d)
    ensures Retrier(cfg, w', t, d) || WinnableRow(w', |w.runs|, d)
  {
    if s.Advance? && s.task == t {
      RetrierMoves(cfg, w, t, s.now, w', d);
    } else {
      assert TaskFrom(cfg, w, s, w', t) && RowFrom(cfg, w, s, w', w.tasks[t].run);
    }
  }

  lemma RetrierMoves(cfg: Config, w: World, t: TaskId, now: real, w': World, d: JobId)
    requires Next(cfg, w, Advance(t, now), w') && Retrier(cfg, w, t, d)
    ensures Retrier(cfg, w', t, d) || WinnableRow(w', |w.runs|, d)
  {}

  lemma WinningKept(cfg: Config, w: World, s: Step, w': World, t: TaskId, d: JobId)
    requires Next(cfg, w, s, w') && Gentle(w, s) && AutoStep(cfg, w, s, w') && Winning(w, t, d)
    ensures Source(cfg, w', d) || Won(w', d)
  {
    var x := w.tasks[t].run;
    WinsKept(cfg, w, s, w', t, x);
    if Wins(w', t, x) { assert Winning(w', t, d); }
  }

  lemma SourceKept(cfg: Config, w: World, s: Step, w': World, d: JobId)
    requires Next(cfg, w, s, w') && Gentle(w, s) && AutoStep(cfg, w, s, w') && Source(cfg, w, d)
    ensures Source(cfg, w', d) || Won(w', d)
  {
    if x: RunId :| WinnableRow(w, x, d) { RowSourceKept(cfg, w, s, w', x, d); }
    else if t: TaskId :| Winning(w, t, d) { WinningKept(cfg, w, s, w', t, d); }
    else { var t: TaskId :| Retrier(cfg, w, t, d); RetrierKept(cfg, w, s, w', t, d); }
  }

  lemma GentleSources(cfg: Config, w: World, s: Step, w': World)
    requires Next(cfg, w, s, w') && Gentle(w, s) && AutoStep(cfg, w, s, w')
    ensures CalmSources(cfg, w, w')
  {
    forall d | Source(cfg, w, d) ensures Source(cfg, w', d) || Won(w', d) { SourceKept(cfg, w, s, w', d); }
  }

  lemma GentleCalm(cfg: Config, w: World, s: Step, w': World)
    requires Next(cfg, w, s, w') && Automatic(s) && Gentle(w, s) && InFlightKnown(w)
    ensures Calm(cfg, w, w')
  {
    Summary(cfg, w, s, w');
    GentleRows(cfg, w, s, w');
    GentleTasks(cfg, w, s, w');
    HarmlessRunning(cfg, w, s, w');
    GentleSources(cfg, w, s, w');
  }

  // ------------------------------------------------------- moves

  /** A path of gentle steps. */
  ghost predicate Moves(cfg: Config, w: World, w': World) {
    Leads(cfg, w, w') && Calm(cfg, w, w')
  }

  lemma MovesNowhere(cfg: Config, w: World)
    requires InFlightKnown(w)
    ensures Moves(cfg, w, w)
  {
    LeadsNowhere(cfg, w);
  }

  lemma MovesStep(cfg: Config, w: World, s: Step, w': World)
    requires Next(cfg, w, s, w') && Automatic(s) && Gentle(w, s) && Prompt(w, s) && InFlightKnown(w)
    ensures Moves(cfg, w, w')
  {
    LeadsStep(cfg, w, s, w');
    GentleCalm(cfg, w, s, w');
  }

  lemma MovesOn(cfg: Config, w0: World, w1: World, w2: World)
    requires Moves(cfg, w0, w1) && Moves(cfg, w1, w2)
    ensures Moves(cfg, w0, w2)
  {
    LeadsOn(cfg, w0, w1, w2);
    CalmOn(cfg, w0, w1, w2);
  }

  // ------------------------------------------------------- bringing a run to success

  /** The executing task finishes successfully and stops before it reads its dependents. */
  lemma Fire(cfg: Config, w: World, t: TaskId, x: RunId) returns (w': World)
    requires InFlightKnown(w) && Wins(w, t, x)
    ensures Moves(cfg, w, w') && w'.runs == SetStatus(w.runs, x, Succeeded) && w'.tasks == Goto(w.tasks, t, Reading)
    decreases match w.tasks[t].pc case Executing => 2 case Checking(_) => 1 case _ => 0
  {
    var s := if w.tasks[t].pc == Executing then Execute(t, Succeeded) else Advance(t, 0.0);
    var w1 := Apply(cfg, w, s);
    MovesStep(cfg, w, s, w1);
    if w.tasks[t].pc.Finishing? {
      w' := w1;
    } else {
      w' := Fire(cfg, w1, t, x);
      MovesOn(cfg, w, w1, w');
    }
  }

  ghost predicate RowWon(cfg: Config, w: World, x: RunId, w': World) {
    x < |w.runs| && Moves(cfg, w, w') && w'.runs == SetStatus(w.runs, x, Succeeded)
  }

  lemma RowWonAfter(cfg: Config, w: World, s: Step, w1: World, x: RunId, w': World)
    requires Next(cfg, w, s, w1) && Automatic(s) && Gentle(w, s) && Prompt(w, s) && InFlightKnown(w)
    requires RowWon(cfg, w1, x, w') && (w1.runs == w.runs || (x < |w.runs| && w1.runs == SetStatus(w.runs, x, Running)))
    ensures RowWon(cfg, w, x, w')
  {
    MovesStep(cfg, w, s, w1);
    MovesOn(cfg, w, w1, w');
  }

  lemma ClaimWin(cfg: Config, w: World, t: TaskId, x: RunId) returns (w': World)
    requires InFlightKnown(w) && Live(w, t) && w.tasks[t].run == x < |w.runs| && w.tasks[t].pc == Start
    requires Dispatched(w.runs[x].status) && w.tasks[t].allowRunning
    ensures RowWon(cfg, w, x, w')
  {
    var s := Advance(t, 0.0);
    var w1 := Apply(cfg, w, s);
    MovesStep(cfg, w, s, w1);
    w' := Fire(cfg, w1, t, x);
    RowWonAfter(cfg, w, s, w1, x, w');
  }

  lemma HeldWin(cfg: Config, w: World, m: MsgId, x: RunId) returns (w': World)
    requires InFlightKnown(w) && x < |w.runs| && Dispatched(w.runs[x].status)
    requires m < |w.stream| && w.stream[m].run == x && w.stream[m].state.Held?
    ensures RowWon(cfg, w, x, w')
  {
    var k := FreshWorker(w);
    var s := Reclaim(m, k);
    var w1 := Apply(cfg, w, s);
    MovesStep(cfg, w, s, w1);
    w' := ClaimWin(cfg, w1, |w.tasks|, x);
    RowWonAfter(cfg, w, s, w1, x, w');
  }

  lemma UnreadWin(cfg: Config, w: World, m: MsgId, x: RunId) returns (w': World)
    requires InFlightKnown(w) && x < |w.runs| && Dispatched(w.runs[x].status)
    requires m < |w.stream| && w.stream[m] == Entry(x, Unread)
    ensures RowWon(cfg, w, x, w')
  {
    var k := FreshWorker(w);
    var s := Deliver(m, k);
    var w1 := Apply(cfg, w, s);
    MovesStep(cfg, w, s, w1);
    w' := HeldWin(cfg, w1, m, x);
    RowWonAfter(cfg, w, s, w1, x, w');
  }

  lemma OutboxWin(cfg: Config, w: World, x: RunId) returns (w': World)
    requires InFlightKnown(w) && x < |w.runs| && Dispatched(w.runs[x].status) && x in w.outbox
    ensures RowWon(cfg, w, x, w')
  {
    var s := Publish(x);
    var w1 := Apply(cfg, w, s);
    MovesStep(cfg, w, s, w1);
    w' := UnreadWin(cfg, w1, |w.stream|, x);
    RowWonAfter(cfg, w, s, w1, x, w');
  }

  lemma QueuedWin(cfg: Config, w: World, x: RunId) returns (w': World)
    requires InFlightKnown(w) && x < |w.runs| && w.runs[x].status == Queued
    ensures RowWon(cfg, w, x, w')
  {
    var s := RequeueOrphans(w.runs[x].createdAt + ORPHAN_AFTER + 1.0);
    assert x in OrphanIds(w.runs, s.now);
    var w1 := Apply(cfg, w, s);
    MovesStep(cfg, w, s, w1);
    w' := OutboxWin(cfg, w1, x);
    RowWonAfter(cfg, w, s, w1, x, w');
  }

  lemma DelayedWin(cfg: Config, w: World, x: RunId) returns (w': World)
    requires InFlightKnown(w) && x < |w.runs| && Dispatched(w.runs[x].status) && x in w.delayed
    ensures RowWon(cfg, w, x, w')
  {
    var due := Delayed.SortedReplyExists(w.delayed, w.delayed[x]);
    var s := PromoteDelayed(w.delayed[x], due);
    var i :| 0 <= i < |due| && due[i] == x;
    var w1 := Apply(cfg, w, s);
    MovesStep(cfg, w, s, w1);
    w' := UnreadWin(cfg, w1, |w.stream| + i, x);
    RowWonAfter(cfg, w, s, w1, x, w');
  }

  lemma ReturnedWin(cfg: Config, w: World, t: TaskId, x: RunId) returns (w': World)
    requires InFlightKnown(w) && x < |w.runs| && Dispatched(w.runs[x].status) && Returns(w, t, x)
    ensures RowWon(cfg, w, x, w')
  {
    if w.tasks[t].pc == Start {
      w' := ClaimWin(cfg, w, t, x);
    } else {
      assert TaskKnown(w.runs, w.stream, w.tasks[t]);
      var s := Advance(t, w.runs[x].createdAt);
      var w1 := Apply(cfg, w, s);
      MovesStep(cfg, w, s, w1);
      if w.tasks[t].pc.Sending? {
        w' := UnreadWin(cfg, w1, |w.stream|, x);
      } else {
        w' := DelayedWin(cfg, w1, x);
      }
      RowWonAfter(cfg, w, s, w1, x, w');
    }
  }

  /** Every QUEUED run, and every RUNNING one that can be won, is won. */
  lemma RowWin(cfg: Config, w: World, x: RunId, d: JobId) returns (w': World)
    requires InFlightKnown(w) && WinnableRow(w, x, d)
    ensures RowWon(cfg, w, x, w')
  {
    if w.runs[x].status == Queued { w' := QueuedWin(cfg, w, x); }
    else if x in w.outbox { w' := OutboxWin(cfg, w, x); }
    else if x in w.delayed { w' := DelayedWin(cfg, w, x); }
    else if m: MsgId :| Pointed(w, m, x) {
      if w.stream[m].state.Held? { w' := HeldWin(cfg, w, m, x); } else { w' := UnreadWin(cfg, w, m, x); }
    } else if t: TaskId :| Returns(w, t, x) { w' := ReturnedWin(cfg, w, t, x); }
    else {
      var t: TaskId :| Wins(w, t, x);
      w' := Fire(cfg, w, t, x);
    }
  }
}
