/**
  WorkspaceExecutor and the client it calls: requests are retried blindly over a
  channel that may lose them, or lose the reply of one that was applied.  What the
  methods do is a run of the moves in Launch, to which its theorem therefore applies.
*/
module Executors {
  import opened Basics
  import opened Tables
  import opened Leases
  import opened StoreRuns
  import opened Launch
  import opened Store

  const RETRIES := 4

  datatype Answer = Accepted | Stale | Unavailable

  /** What goes wrong on the runner's own side. */
  datatype Trouble = Trouble(
    cancelledBefore: bool, unprepared: Option<Failure>, cancelledAfter: bool, unlaunched: Option<Failure>)

  // ---- runs of moves

  ghost predicate Chain(worlds: seq<World>, acts: seq<Launch.Act>, times: seq<Time>) {
    && |worlds| == |acts| + 1 && |times| == |acts|
    && forall i :: 0 <= i < |acts| ==> MoveAt(worlds, acts, times, i)
  }

  ghost predicate Links(w: World, v: World, worlds: seq<World>, acts: seq<Launch.Act>, times: seq<Time>) {
    Chain(worlds, acts, times) && worlds[0] == w && worlds[|acts|] == v
  }

  ghost predicate Leads(w: World, v: World) {
    exists worlds, acts, times :: Links(w, v, worlds, acts, times)
  }

  lemma LeadsNowhere(w: World)
    ensures Leads(w, w)
  {
    assert Links(w, w, [w], [], []);
  }

  lemma LeadsByMove(w: World, v: World, act: Launch.Act, now: Time, u: World)
    requires Leads(w, v) && Launch.Moves(v, act, now, u)
    ensures Leads(w, u)
  {
    var worlds, acts, times :| Links(w, v, worlds, acts, times);
    var worlds2, acts2, times2 := worlds + [u], acts + [act], times + [now];
    forall i | 0 <= i < |acts2| ensures MoveAt(worlds2, acts2, times2, i) {
      if i < |acts| { assert MoveAt(worlds, acts, times, i); }
    }
    assert Links(w, u, worlds2, acts2, times2);
  }

  // ---- what settles a report, and what a watch may send

  predicate RunsUnder(d: Db, ws: WorkspaceId, lease: Lease, now: Time) {
    && Named(d, lease, ws) && d.jobs[lease.job].state == Running
    && HasRun(d.runs, lease.job, lease.generation) && Unexpired(d.jobs[lease.job], now)
  }

  /** Once a report has been answered, accepted or refused, the job does not run under the lease. */
  lemma AnsweredNoLongerRuns(d: Db, ws: WorkspaceId, lease: Lease, done: Completion, now: Time)
    ensures !RunsUnder(Completed(d, ws, lease, done, now).Commit(d), ws, lease, now)
  {
  }

  /** At most one more request, for the session file of a run that was started without one. */
  ghost predicate UpgradesOnce(before: set<Request>, after: set<Request>, ws: WorkspaceId, lease: Lease, refs: Refs) {
    || after == before
    || (refs.session == None && exists s :: after == before + {Request(ws, lease, refs.(session := Some(s)))})
  }

  class WorkspaceExecutor {
    const store: ControllerStore
    const ws: WorkspaceId
    // The world outside: what every executor is doing, and the workers launched so far.
    ghost var execs: map<RunId, Exec>
    ghost var requests: set<Request>
    ghost var accepted: set<Request>
    var launches: seq<RunId>

    constructor (store: ControllerStore, ws: WorkspaceId)
      ensures this.store == store && this.ws == ws && World() == Launch.World(store.Contents(), map[], {}, {}, [])
    {
      this.store, this.ws := store, ws;
      execs, requests, accepted, launches := map[], {}, {}, [];
    }

    ghost function World(): World
      reads this, store
    {
      Launch.World(store.Contents(), execs, requests, accepted, launches)
    }

    ghost predicate Phased(run: RunId, lease: Lease, phase: Phase)
      reads this
    {
      run in execs && execs[run] == Exec(ws, lease, phase)
    }

    method End(run: RunId, lease: Lease, ghost start: World)
      requires run in execs && Leads(start, World())
      modifies this`execs
      ensures Leads(start, World()) && execs == old(execs)[run := old(execs)[run].(phase := Over)]
    {
      ghost var before := World();
      execs := execs[run := execs[run].(phase := Over)];
      LeadsByMove(start, before, Launch.End(run), 0.0, World());
    }

    /** One attempt: the request may be lost, and so may the reply. */
    method AskOnce(lease: Lease, refs: Refs, phase: Phase, ghost start: World) returns (answer: Answer)
      requires Leads(start, World()) && Phased(refs.run, lease, phase)
                 && (phase == Preparing || phase == Asking || phase == Launched)
      modifies this`execs, this`requests, this`accepted, store`jobs, store`runs, store`convs, store`outbox
      ensures Leads(start, World())
      ensures execs == old(execs)[refs.run := Exec(ws, lease, if phase == Preparing then Asking else phase)]
      ensures old(accepted) <= accepted && requests == old(requests) + {Request(ws, lease, refs)}
      ensures answer == Accepted ==> Request(ws, lease, refs) in accepted
    {
      ghost var before := World();
      ghost var request := Request(ws, lease, refs);
      requests := requests + {request};
      execs := execs[refs.run := Exec(ws, lease, if phase == Preparing then Asking else phase)];
      assert phase != Preparing ==> execs == before.execs;
      LeadsByMove(start, before, Send(refs), 0.0, World());
      if * { return Unavailable; }
      ghost var sent := World();
      var now: Time := *;
      var reply := store.MarkStarted(ws, lease, refs, now);
      if reply.Ok? { accepted := accepted + {request}; }
      LeadsByMove(start, sent, Arrive(request), now, World());
      if * { return Unavailable; }
      answer := if reply.Ok? then Accepted else if reply.error == StaleLease then Stale else Unavailable;
    }

    /** RunnerClient.started: tried again after a failure, not after a refusal. */
    method AskStarted(lease: Lease, refs: Refs, phase: Phase, ghost start: World)
      returns (answer: Answer, attempt: nat)
      requires Leads(start, World()) && Phased(refs.run, lease, phase) && (phase == Preparing || phase == Launched)
      modifies this`execs, this`requests, this`accepted, store`jobs, store`runs, store`convs, store`outbox
      ensures Leads(start, World())
      ensures execs == old(execs)[refs.run := Exec(ws, lease, if phase == Preparing then Asking else phase)]
      ensures old(accepted) <= accepted && requests == old(requests) + {Request(ws, lease, refs)}
      ensures answer == Accepted ==> Request(ws, lease, refs) in accepted
      ensures 1 <= attempt <= 4 && (answer == Unavailable ==> attempt == 4)
    {
      ghost var asking := if phase == Preparing then Asking else phase;
      ghost var before := execs;
      answer := AskOnce(lease, refs, phase, start);
      attempt := 1;
      while answer == Unavailable && attempt < RETRIES
        invariant Leads(start, World()) && Phased(refs.run, lease, asking) && 1 <= attempt <= RETRIES
        invariant execs == before[refs.run := Exec(ws, lease, asking)]
        invariant old(accepted) <= accepted && requests == old(requests) + {Request(ws, lease, refs)}
        invariant answer == Accepted ==> Request(ws, lease, refs) in accepted
        decreases RETRIES - attempt
      {
        answer := AskOnce(lease, refs, if phase == Preparing then Asking else phase, start);
        attempt := attempt + 1;
      }
    }

    /** A report is repeated for ever; here, until the runner dies after `patience` attempts.
        It is settled only by an answer of the controller, and then the controller no longer
        has the job running under this lease. */
    method UploadTerminal(lease: Lease, done: Completion, patience: nat, ghost start: World)
      returns (settled: bool, ghost at: Time)
      requires Leads(start, World())
      modifies store`jobs, store`runs, store`convs, store`outbox
      ensures Leads(start, World())
      ensures settled ==>
                && !RunsUnder(store.Contents(), ws, lease, at)
                && exists d ::
                     && Leads(start, World().(db := d))
                     && store.Contents() == Completed(d, ws, lease, done, at).Commit(d)
    {
      for attempt := 0 to patience
        invariant Leads(start, World())
      {
        if * {
          ghost var before := World();
          var now: Time := *;
          var reply := store.CompleteJob(ws, lease, done, now);
          LeadsByMove(start, before, Controller(Complete(ws, lease, done)), now, World());
          if * {  // accepted, or refused as stale: either ends it
            AnsweredNoLongerRuns(before.db, ws, lease, done, now);
            assert World().(db := before.db) == before;
            return true, now;
          }
        }
      }
      settled, at := false, 0.0;
    }

    method FailBeforeStart(lease: Lease, error: Failure, ghost start: World)
      requires Leads(start, World())
      modifies store`jobs, store`convs, store`outbox
      ensures Leads(start, World())
    {
      if * {
        ghost var before := World();
        var now: Time := *;
        var reply := store.FailUnstarted(ws, lease, error, now);
        LeadsByMove(start, before, Controller(FailEarly(ws, lease, error)), now, World());
      }
    }

    /** Polls for the worker's artifacts; once, it may report a session file it has found. */
    method Watch(lease: Lease, refs: Refs, polls: nat, ghost start: World)
      requires Leads(start, World()) && Phased(refs.run, lease, Launched)
      modifies this`execs, this`requests, this`accepted, store`jobs, store`runs, store`convs, store`outbox
      ensures Leads(start, World()) && old(accepted) <= accepted
      ensures UpgradesOnce(old(requests), requests, ws, lease, refs)
    {
      var upgraded := refs.session.Some?;
      for poll := 0 to polls
        invariant Leads(start, World()) && Phased(refs.run, lease, Launched) && old(accepted) <= accepted
        invariant UpgradesOnce(old(requests), requests, ws, lease, refs)
        invariant !upgraded ==> requests == old(requests) && refs.session == None
      {
        if * { break; }  // cancelled
        if * {           // an artifact, a timeout or a vanished pane
          var done: Completion, patience: nat := *, *;
          var settled, at := UploadTerminal(lease, done, patience, start);
          break;
        }
        var found: Option<nat> := *;
        if !upgraded && found.Some? {
          upgraded := true;
          var answer, attempt := AskStarted(lease, refs.(session := found), Launched, start);
        }
      }
      End(refs.run, lease, start);
    }

    /** The worker is launched exactly if nothing goes wrong: the execution is not cancelled before
        its start or after it, the run can be prepared, the controller acknowledges this run's
        start, and tmux takes the worker. */
    method Execute(
        lease: Lease, refs: Refs, polls: nat, trouble: Trouble) returns (launched: bool, answer: Option<Answer>)
      requires refs.run !in execs
      modifies this, store
      ensures Leads(old(World()), World())
      ensures launches == if launched then old(launches) + [refs.run] else old(launches)
      ensures answer.Some? <==> !trouble.cancelledBefore && trouble.unprepared == None
      ensures answer == Some(Accepted) ==> Request(ws, lease, refs) in accepted
      ensures launched <==> answer == Some(Accepted) && !trouble.cancelledAfter && trouble.unlaunched == None
      ensures if launched then UpgradesOnce(old(requests) + {Request(ws, lease, refs)}, requests, ws, lease, refs)
              else if answer.Some? then requests == old(requests) + {Request(ws, lease, refs)}
              else requests == old(requests)
    {
      ghost var start := World();
      LeadsNowhere(start);
      launched, answer := false, None;
      if trouble.cancelledBefore { return; }
      execs := execs[refs.run := Exec(ws, lease, Preparing)];
      LeadsByMove(start, start, Begin(refs.run, ws, lease), 0.0, World());
      if trouble.unprepared.Some? {
        FailBeforeStart(lease, trouble.unprepared.value, start);
        End(refs.run, lease, start);
        return;
      }
      var reply, attempt := AskStarted(lease, refs, Preparing, start);
      answer := Some(reply);
      if reply != Accepted {
        if reply == Unavailable {
          FailBeforeStart(lease, Failure("start-ack", "controller request failed"), start);
        }
        End(refs.run, lease, start);
        return;
      }
      ghost var before := World();
      execs := execs[refs.run := Exec(ws, lease, Acknowledged)];
      LeadsByMove(start, before, Hear(Request(ws, lease, refs)), 0.0, World());
      if trouble.cancelledAfter {
        End(refs.run, lease, start);
        return;
      }
      if trouble.unlaunched.Some? {  // the launch fails, and with it the job
        var patience: nat := *;
        var settled, at := UploadTerminal(lease, Completion(false, None, trouble.unlaunched), patience, start);
        End(refs.run, lease, start);
        return;
      }
      before := World();
      launches := launches + [refs.run];
      execs := execs[refs.run := Exec(ws, lease, Launched)];
      LeadsByMove(start, before, LaunchWorker(refs.run), 0.0, World());
      launched := true;
      Watch(lease, refs, polls, start);
      assert Request(ws, lease, refs) in accepted;
    }
  }
}
