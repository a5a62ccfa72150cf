/**
  The runner's side of the fence.  A start request may be lost, delayed, repeated,
  or applied with its reply lost; the same lease may be executed by several runner
  processes; leases expire and jobs are handed out again.  Still no job ever has two
  workers, because a worker is launched only after its start was acknowledged.
*/
module Launch {
  import opened Tables
  import opened Leases
  import opened LeaseInvariants
  import opened StoreRuns

  datatype Phase = Preparing | Asking | Acknowledged | Launched | Over

  /** One call of `execute`, named by the fresh run id it generates. */
  datatype Exec = Exec(ws: WorkspaceId, lease: Lease, phase: Phase)

  datatype Request = Request(ws: WorkspaceId, lease: Lease, refs: Refs)

  datatype World = World(
    db: Db, execs: map<RunId, Exec>, requests: set<Request>, accepted: set<Request>, launches: seq<RunId>)

  datatype Act =
    | Controller(step: Step)
    | Begin(run: RunId, ws: WorkspaceId, lease: Lease)
    | Send(refs: Refs)            // first request, retry, or the mid-run session upgrade
    | Arrive(request: Request)    // any request ever sent, any number of times
    | Hear(request: Request)      // an accepting reply reaches the executor
    | LaunchWorker(run: RunId)
    | End(run: RunId)             // rejection, cancellation, failure, completion, or process death

  predicate Live(w: World, run: RunId, phase: Phase) {
    run in w.execs && w.execs[run].phase == phase
  }

  ghost predicate Moves(w: World, act: Act, now: Time, v: World) {
    match act
    case Controller(step) => v == w.(db := v.db) && Next(w.db, step, now, v.db)
    case Begin(run, ws, lease) => run !in w.execs && v == w.(execs := w.execs[run := Exec(ws, lease, Preparing)])
    case Send(refs) =>
      && refs.run in w.execs && w.execs[refs.run].phase != Acknowledged && w.execs[refs.run].phase != Over
      && var x := w.execs[refs.run];
      v == w.(requests := w.requests + {Request(x.ws, x.lease, refs)},
              execs := if x.phase == Preparing then w.execs[refs.run := x.(phase := Asking)] else w.execs)
    case Arrive(request) =>
      && request in w.requests
      && var o := Started(w.db, request.ws, request.lease, request.refs, now);
      v == w.(db := o.Commit(w.db), accepted := if o.Done? then w.accepted + {request} else w.accepted)
    case Hear(request) =>
      && request in w.accepted && Live(w, request.refs.run, Asking)
      && v == w.(execs := w.execs[request.refs.run := w.execs[request.refs.run].(phase := Acknowledged)])
    case LaunchWorker(run) =>
      && Live(w, run, Acknowledged)
      && v == w.(execs := w.execs[run := w.execs[run].(phase := Launched)], launches := w.launches + [run])
    case End(run) => run in w.execs && v == w.(execs := w.execs[run := w.execs[run].(phase := Over)])
  }

  function Idle(workspaces: map<WorkspaceId, Workspace>): World {
    World(Initial(workspaces), map[], {}, {}, [])
  }

  // ---- run rows are never deleted and never change hands

  ghost predicate RunsPersist(d: Db, e: Db) {
    forall r :: r in d.runs ==> r in e.runs && e.runs[r].job == d.runs[r].job
  }

  lemma LeaseStepsKeepRuns(d: Db, step: Step, now: Time, e: Db)
    requires Next(d, step, now, e) && LeaseStep(step)
    ensures RunsPersist(d, e)
  {
    match step
    case Claim(_, _, _) =>
    case Start(ws, lease, refs) => StartPersists(d, ws, lease, refs, now);
    case Beat(_, _, _) =>
    case Complete(ws, lease, done) => CompletePersists(d, ws, lease, done, now);
    case FailEarly(_, _, _) =>
    case Reap =>
  }

  lemma StartPersists(d: Db, ws: WorkspaceId, lease: Lease, refs: Refs, now: Time)
    ensures RunsPersist(d, Started(d, ws, lease, refs, now).Commit(d))
  {
  }

  lemma CompletePersists(d: Db, ws: WorkspaceId, lease: Lease, done: Completion, now: Time)
    ensures RunsPersist(d, Completed(d, ws, lease, done, now).Commit(d))
  {
  }

  lemma StepKeepsRuns(d: Db, step: Step, now: Time, e: Db)
    requires Next(d, step, now, e)
    ensures RunsPersist(d, e)
  {
    if LeaseStep(step) {
      LeaseStepsKeepRuns(d, step, now, e);
    } else {
      OtherStepsFrame(d, step, now, e);
      forall r | r in d.runs ensures r in e.runs && e.runs[r].job == d.runs[r].job {
        assert SameRun(d.runs[r], e.runs[r]);
      }
    }
  }

  // ---- the invariant

  predicate Owns(d: Db, run: RunId, job: JobId) {
    run in d.runs && d.runs[run].job == job
  }

  predicate Sound(w: World) {
    && (forall q :: q in w.requests ==> q.refs.run in w.execs && q.lease == w.execs[q.refs.run].lease)
    && w.accepted <= w.requests
    && (forall q :: q in w.accepted ==> Owns(w.db, q.refs.run, q.lease.job))
    && (forall r :: r in w.execs && (w.execs[r].phase == Acknowledged || w.execs[r].phase == Launched) ==>
          Owns(w.db, r, w.execs[r].lease.job))
    && (forall i :: 0 <= i < |w.launches| ==>
          w.launches[i] in w.execs && Owns(w.db, w.launches[i], w.execs[w.launches[i]].lease.job)
          && (w.execs[w.launches[i]].phase == Launched || w.execs[w.launches[i]].phase == Over))
    && (forall i, k :: 0 <= i < k < |w.launches| ==> w.launches[i] != w.launches[k])
  }

  lemma DbMoveKeepsSound(w: World, e: Db)
    requires Sound(w) && RunsPersist(w.db, e)
    ensures Sound(w.(db := e))
  {
  }

  /** Whatever the reply says, an accepted start means the run row is this run's. */
  lemma AcceptedOwns(d: Db, ws: WorkspaceId, lease: Lease, refs: Refs, now: Time)
    requires Started(d, ws, lease, refs, now).Done?
    ensures Owns(Started(d, ws, lease, refs, now).db, refs.run, lease.job)
  {
  }

  lemma ArriveKeepsSound(w: World, request: Request, now: Time, v: World)
    requires Sound(w) && Moves(w, Arrive(request), now, v)
    ensures Sound(v)
  {
    StartPersists(w.db, request.ws, request.lease, request.refs, now);
    DbMoveKeepsSound(w, v.db);
    if Started(w.db, request.ws, request.lease, request.refs, now).Done? {
      AcceptedOwns(w.db, request.ws, request.lease, request.refs, now);
    }
  }

  lemma ExecutorKeepsSound(w: World, act: Act, now: Time, v: World)
    requires Sound(w) && Moves(w, act, now, v) && !act.Controller? && !act.Arrive?
    ensures Sound(v)
  {
  }

  lemma MoveKeepsSound(w: World, act: Act, now: Time, v: World)
    requires Sound(w) && Valid(w.db) && Moves(w, act, now, v)
    ensures Sound(v) && Valid(v.db)
  {
    match act
    case Controller(step) =>
      StepKeepsRuns(w.db, step, now, v.db);
      DbMoveKeepsSound(w, v.db);
      NextKeepsValid(w.db, step, now, v.db);
    case Arrive(request) =>
      ArriveKeepsSound(w, request, now, v);
      StartKeepsValid(w.db, request.ws, request.lease, request.refs, now);
    case _ => ExecutorKeepsSound(w, act, now, v);
  }

  ghost predicate MoveAt(worlds: seq<World>, acts: seq<Act>, times: seq<Time>, i: nat)
    requires |worlds| == |acts| + 1 && |times| == |acts| && i < |acts|
  {
    Moves(worlds[i], acts[i], times[i], worlds[i + 1])
  }

  ghost predicate IsHistory(worlds: seq<World>, acts: seq<Act>, times: seq<Time>) {
    && |worlds| == |acts| + 1 && |times| == |acts|
    && (exists workspaces :: worlds[0] == Idle(workspaces))
    && (forall i :: 0 <= i < |acts| ==> MoveAt(worlds, acts, times, i))
  }

  lemma {:induction false} HistoryIsSound(worlds: seq<World>, acts: seq<Act>, times: seq<Time>, n: nat)
    requires IsHistory(worlds, acts, times) && n <= |acts|
    ensures Sound(worlds[n]) && Valid(worlds[n].db)
  {
    if n == 0 {
      var workspaces :| worlds[0] == Idle(workspaces);
      InitialValid(workspaces);
    } else {
      HistoryIsSound(worlds, acts, times, n - 1);
      assert MoveAt(worlds, acts, times, n - 1);
      MoveKeepsSound(worlds[n - 1], acts[n - 1], times[n - 1], worlds[n]);
    }
  }

  /** The controller acknowledges the starts of at most one run id for a job, ever. */
  lemma AtMostOneRunAcknowledged(
    worlds: seq<World>, acts: seq<Act>, times: seq<Time>, n: nat, p: Request, q: Request)
    requires IsHistory(worlds, acts, times) && n <= |acts|
    requires p in worlds[n].accepted && q in worlds[n].accepted && p.lease.job == q.lease.job
    ensures p.refs.run == q.refs.run
  {
    HistoryIsSound(worlds, acts, times, n);
    assert Owns(worlds[n].db, p.refs.run, p.lease.job) && Owns(worlds[n].db, q.refs.run, q.lease.job);
    assert RunBacked(worlds[n].db.jobs, worlds[n].db.runs[p.refs.run]);
  }

  /** At most one worker is ever launched for a job, and a job with a worker is never
      queued or handed out again. */
  lemma AtMostOneWorkerPerJob(worlds: seq<World>, acts: seq<Act>, times: seq<Time>, n: nat, i: nat, k: nat)
    requires IsHistory(worlds, acts, times) && n <= |acts|
    requires i < |worlds[n].launches| && k < |worlds[n].launches|
    ensures var w := worlds[n];
            && w.launches[i] in w.execs && w.launches[k] in w.execs
            && var j := w.execs[w.launches[i]].lease.job;
            && j in w.db.jobs && (w.db.jobs[j].state == Running || Terminal(w.db.jobs[j].state))
            && (w.execs[w.launches[k]].lease.job == j ==> i == k)
  {
    HistoryIsSound(worlds, acts, times, n);
    var w := worlds[n];
    assert Owns(w.db, w.launches[i], w.execs[w.launches[i]].lease.job);
    assert Owns(w.db, w.launches[k], w.execs[w.launches[k]].lease.job);
    assert RunBacked(w.db.jobs, w.db.runs[w.launches[i]]);
  }
}
