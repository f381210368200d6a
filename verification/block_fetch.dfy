/** server/service/backend/pchain/block.go: fetching the dependencies of a block with one worker for each,
    all of them sending to a buffered channel that is closed and drained once they have returned. */
module BlockFetch {
  import opened Rosetta
  import opened PChain
  import opened PChainDependency

  datatype Answer = Found(tx: Tx, rewards: seq<Utxo>) | Failed

  /** What one worker asks for and what it is answered; another worker may get another answer for the same id. */
  datatype Request = Request(id: Id, answer: Answer)

  /** One request for each worker, in the order in which they are started. */
  datatype Job = Job(requests: seq<Request>)
  {
    predicate Good(i: nat)
      requires i < |requests|
    {
      requests[i].answer.Found?
    }

    predicate AllGood() {
      forall i :: 0 <= i < |requests| ==> Good(i)
    }

    function Dependency(i: nat): Dep
      requires i < |requests| && Good(i)
    {
      Dep(Some(requests[i].answer.tx), requests[i].answer.rewards)
    }

    function Key(i: nat): Id
      requires i < |requests| && Good(i)
    {
      requests[i].answer.tx.id
    }
  }

  datatype Worker = Pending | Sent | Succeeded | GaveUp

  datatype Main = Waiting | Errored | Draining(deps: Dependencies) | Finished(deps: Dependencies)

  /** A send on a closed channel would panic. */
  datatype State = State(workers: seq<Worker>, channel: seq<Dep>, closed: bool, main: Main, panicked: bool)

  function Capacity(job: Job): nat {
    |job.requests|
  }

  function Init(job: Job): State {
    State(seq(|job.requests|, _ => Pending), [], false, Waiting, false)
  }

  predicate Cancelled(s: State) {
    exists i :: 0 <= i < |s.workers| && s.workers[i] == GaveUp
  }

  predicate AllReturned(s: State) {
    forall i :: 0 <= i < |s.workers| ==> s.workers[i] == Succeeded || s.workers[i] == GaveUp
  }

  /** The next worker or main step, if it can run: a full channel blocks the sender. */
  datatype Action = Send(worker: nat) | GiveUp(worker: nat) | Return(worker: nat) | FinishWaiting | Receive | Finish

  ghost predicate Enabled(job: Job, s: State, a: Action) {
    && !s.panicked && |s.workers| == |job.requests|
    && match a
       case Send(i) => i < |s.workers| && s.workers[i] == Pending && job.Good(i) && |s.channel| < Capacity(job)
       case GiveUp(i) => i < |s.workers| && s.workers[i] == Pending && (!job.Good(i) || Cancelled(s))
       case Return(i) => i < |s.workers| && s.workers[i] == Sent
       case FinishWaiting => s.main == Waiting && AllReturned(s)
       case Receive => s.main.Draining? && s.channel != []
       case Finish => s.main.Draining? && s.channel == [] && s.closed
  }

  ghost function Perform(job: Job, s: State, a: Action): State
    requires Enabled(job, s, a)
  {
    match a
    case Send(i) =>
      if s.closed then s.(panicked := true)
      else s.(workers := s.workers[i := Sent], channel := s.channel + [job.Dependency(i)])
    case GiveUp(i) => s.(workers := s.workers[i := GaveUp])
    case Return(i) => s.(workers := s.workers[i := Succeeded])
    case FinishWaiting => if Cancelled(s) then s.(main := Errored) else s.(closed := true, main := Draining(map[]))
    case Receive =>
      var dep := s.channel[0];
      if dep.tx.None? then s.(panicked := true)
      else s.(channel := s.channel[1..], main := Draining(s.main.deps[dep.tx.value.id := dep]))
    case Finish => s.(main := Finished(s.main.deps))
  }

  ghost predicate Next(job: Job, s: State, t: State) {
    exists a :: Enabled(job, s, a) && t == Perform(job, s, a)
  }

  /** A run of the system under some schedule. */
  ghost predicate IsRun(job: Job, run: seq<State>) {
    && run != [] && run[0] == Init(job)
    && forall k :: 0 <= k < |run| - 1 ==> Next(job, run[k], run[k + 1])
  }

  /** No action can run any more. */
  ghost predicate Stuck(job: Job, s: State) {
    forall a :: !Enabled(job, s, a)
  }

  // ----- what a sequential fetch gives -----

  function Sequential(job: Job, n: nat): Dependencies
    requires n <= |job.requests| && job.AllGood()
  {
    if n == 0 then map[] else Sequential(job, n - 1)[job.Key(n - 1) := job.Dependency(n - 1)]
  }

  /** Answers with the same transaction id are the same. */
  ghost predicate Consistent(job: Job) {
    forall i, j | 0 <= i < |job.requests| && 0 <= j < |job.requests| && job.Good(i) && job.Good(j) ::
      job.Key(i) == job.Key(j) ==> job.Dependency(i) == job.Dependency(j)
  }

  lemma {:induction false} SequentialHas(job: Job, n: nat)
    requires n <= |job.requests| && job.AllGood() && Consistent(job)
    ensures forall i :: 0 <= i < n ==> job.Key(i) in Sequential(job, n) && Sequential(job, n)[job.Key(i)] == job.Dependency(i)
    ensures forall k <- Sequential(job, n) :: exists i :: 0 <= i < n && k == job.Key(i)
  {
    if n > 0 {
      SequentialHas(job, n - 1);
    }
  }

  // ----- the invariant -----

  function HasSent(w: Worker): bool {
    w == Sent || w == Succeeded
  }

  function SentCount(workers: seq<Worker>): nat {
    if workers == [] then 0
    else SentCount(workers[..|workers| - 1]) + if HasSent(workers[|workers| - 1]) then 1 else 0
  }

  lemma {:induction false} SentCountUpdate(workers: seq<Worker>, i: nat, w: Worker)
    requires i < |workers|
    ensures SentCount(workers[i := w]) ==
      SentCount(workers) + (if HasSent(w) then 1 else 0) - (if HasSent(workers[i]) then 1 else 0)
  {
    var n := |workers| - 1;
    if i == n {
      assert workers[i := w][..n] == workers[..n];
    } else {
      assert workers[i := w][..n] == workers[..n][i := w];
      SentCountUpdate(workers[..n], i, w);
    }
  }

  lemma {:induction false} SentCountBound(workers: seq<Worker>)
    ensures SentCount(workers) <= |workers|
    ensures (exists i :: 0 <= i < |workers| && !HasSent(workers[i])) ==> SentCount(workers) < |workers|
    ensures (forall i :: 0 <= i < |workers| ==> !HasSent(workers[i])) ==> SentCount(workers) == 0
  {
    if workers != [] {
      var n := |workers| - 1;
      SentCountBound(workers[..n]);
      if i: nat :| i < n && !HasSent(workers[i]) {
        assert !HasSent(workers[..n][i]);
      }
      assert forall i :: 0 <= i < n ==> workers[..n][i] == workers[i];
    }
  }

  /** A dependency that some worker fetched. */
  ghost predicate Fetched(job: Job, dep: Dep) {
    exists i :: 0 <= i < |job.requests| && job.Good(i) && dep == job.Dependency(i)
  }

  ghost predicate Drained(job: Job, deps: Dependencies) {
    forall k <- deps :: Fetched(job, deps[k]) && deps[k].tx.value.id == k
  }

  /** What worker i fetched is still in the channel or already in the map. */
  ghost predicate Delivered(job: Job, channel: seq<Dep>, deps: Dependencies, i: nat)
    requires i < |job.requests| && job.Good(i)
  {
    job.Dependency(i) in channel || job.Key(i) in deps
  }

  ghost predicate Inv(job: Job, s: State) {
    && !s.panicked && |s.workers| == |job.requests|
    && (forall dep <- s.channel :: Fetched(job, dep))
    && (forall i :: 0 <= i < |s.workers| && HasSent(s.workers[i]) ==> job.Good(i))
    && (job.AllGood() ==> !Cancelled(s) && s.main != Errored)
    && match s.main
       case Waiting =>
         && !s.closed && |s.channel| == SentCount(s.workers)
         && (forall i :: 0 <= i < |s.workers| && HasSent(s.workers[i]) ==> job.Dependency(i) in s.channel)
       case Errored => !s.closed && AllReturned(s) && Cancelled(s)
       case Draining(deps) =>
         && s.closed && job.AllGood() && AllReturned(s) && Drained(job, deps)
         && (forall i :: 0 <= i < |job.requests| ==> Delivered(job, s.channel, deps, i))
       case Finished(deps) =>
         && s.closed && job.AllGood() && AllReturned(s) && Drained(job, deps)
         && (forall i :: 0 <= i < |job.requests| ==> job.Key(i) in deps)
  }

  lemma InitInv(job: Job)
    ensures Inv(job, Init(job))
  {
    SentCountBound(Init(job).workers);
  }

  lemma SendInv(job: Job, s: State, i: nat)
    requires Inv(job, s) && Enabled(job, s, Send(i))
    ensures Inv(job, Perform(job, s, Send(i)))
  {
    SentCountUpdate(s.workers, i, Sent);
  }

  lemma WorkerEndInv(job: Job, s: State, a: Action)
    requires Inv(job, s) && Enabled(job, s, a) && (a.GiveUp? || a.Return?)
    ensures Inv(job, Perform(job, s, a))
  {
    var w := if a.GiveUp? then GaveUp else Succeeded;
    SentCountUpdate(s.workers, a.worker, w);
    var t := Perform(job, s, a);
    if job.AllGood() && Cancelled(t) {
      assert Cancelled(s);
    }
  }

  lemma FinishWaitingInv(job: Job, s: State)
    requires Inv(job, s) && Enabled(job, s, FinishWaiting)
    ensures Inv(job, Perform(job, s, FinishWaiting))
  {
    if !Cancelled(s) {
      forall i | 0 <= i < |job.requests| ensures job.Good(i) && job.Dependency(i) in s.channel {
        assert s.workers[i] != GaveUp;
        assert HasSent(s.workers[i]);
      }
    } else {
      var i :| 0 <= i < |s.workers| && s.workers[i] == GaveUp;
      assert !job.AllGood();
    }
  }

  lemma ReceiveInv(job: Job, s: State)
    requires Inv(job, s) && Enabled(job, s, Receive)
    ensures Inv(job, Perform(job, s, Receive))
  {
    var dep := s.channel[0];
    assert Fetched(job, dep);
    var deps := s.main.deps[dep.tx.value.id := dep];
    forall i | 0 <= i < |job.requests| ensures Delivered(job, s.channel[1..], deps, i) {
      assert Delivered(job, s.channel, s.main.deps, i);
      if job.Dependency(i) != dep && job.Dependency(i) in s.channel {
        var k :| 0 <= k < |s.channel| && s.channel[k] == job.Dependency(i);
        assert s.channel[1..][k - 1] == job.Dependency(i);
      }
    }
  }

  lemma FinishInv(job: Job, s: State)
    requires Inv(job, s) && Enabled(job, s, Finish)
    ensures Inv(job, Perform(job, s, Finish))
  {
    forall i | 0 <= i < |job.requests| ensures job.Key(i) in s.main.deps {
      assert Delivered(job, s.channel, s.main.deps, i);
    }
  }

  lemma StepInv(job: Job, s: State, t: State)
    requires Inv(job, s) && Next(job, s, t)
    ensures Inv(job, t)
  {
    hide Inv;
    var a :| Enabled(job, s, a) && t == Perform(job, s, a);
    match a {
      case Send(i) => SendInv(job, s, i);
      case GiveUp(_) => WorkerEndInv(job, s, a);
      case Return(_) => WorkerEndInv(job, s, a);
      case FinishWaiting => FinishWaitingInv(job, s);
      case Receive => ReceiveInv(job, s);
      case Finish => FinishInv(job, s);
    }
  }

  lemma {:induction false} RunInv(job: Job, run: seq<State>, k: nat)
    requires IsRun(job, run) && k < |run|
    ensures Inv(job, run[k])
    decreases k
  {
    if k == 0 {
      InitInv(job);
    } else {
      RunInv(job, run, k - 1);
      assert Next(job, run[k - 1], run[k - 1 + 1]);
      StepInv(job, run[k - 1], run[k]);
    }
  }

  /** Main result: under every schedule, a worker that is about to send finds the channel open and with room. */
  lemma NoSendBlocksOrPanics(job: Job, run: seq<State>, k: nat, i: nat)
    requires IsRun(job, run) && k < |run|
    requires i < |job.requests| && |run[k].workers| == |job.requests| && run[k].workers[i] == Pending
    ensures !run[k].panicked && !run[k].closed && |run[k].channel| < Capacity(job)
  {
    RunInv(job, run, k);
    SentCountBound(run[k].workers);
  }

  /** While the main routine waits or drains, some step can run. */
  lemma SomeEnabled(job: Job, s: State) returns (a: Action)
    requires Inv(job, s) && (s.main.Waiting? || s.main.Draining?)
    ensures Enabled(job, s, a)
  {
    if s.main.Draining? {
      return if s.channel == [] then Finish else Receive;
    }
    if AllReturned(s) {
      return FinishWaiting;
    }
    var i: nat :| i < |s.workers| && s.workers[i] != Succeeded && s.workers[i] != GaveUp;
    if s.workers[i] == Sent {
      return Return(i);
    }
    SentCountBound(s.workers);
    return if job.Good(i) then Send(i) else GiveUp(i);
  }

  /** Only the two final states are stuck: there is no deadlock. */
  lemma StuckIsFinal(job: Job, s: State)
    requires Inv(job, s)
    ensures Stuck(job, s) ==> s.main.Errored? || s.main.Finished?
  {
    if s.main.Waiting? || s.main.Draining? {
      var a := SomeEnabled(job, s);
    }
  }

  lemma DrainedIsSequential(job: Job, deps: Dependencies)
    requires job.AllGood() && Consistent(job) && Drained(job, deps)
    requires forall i :: 0 <= i < |job.requests| ==> job.Key(i) in deps
    ensures deps == Sequential(job, |job.requests|)
  {
    hide Consistent;
    var n := |job.requests|;
    SequentialHas(job, n);
    hide Sequential;
    forall k ensures k in deps <==> k in Sequential(job, n) {
      if k in deps {
        var i :| 0 <= i < n && job.Good(i) && deps[k] == job.Dependency(i);
        assert k == job.Key(i);
      }
    }
    forall k | k in deps ensures deps[k] == Sequential(job, n)[k] {
      var i :| 0 <= i < n && job.Good(i) && deps[k] == job.Dependency(i);
      assert k == job.Key(i);
    }
  }

  /** Main result: a run that stops has the outcome of a sequential fetch, whatever the schedule. */
  lemma OutcomeIsSequential(job: Job, run: seq<State>)
    requires IsRun(job, run) && Consistent(job) && Stuck(job, run[|run| - 1])
    ensures run[|run| - 1].main ==
      if job.AllGood() then Finished(Sequential(job, |job.requests|)) else Errored
  {
    hide Stuck, Next, Consistent;
    var s := run[|run| - 1];
    RunInv(job, run, |run| - 1);
    StuckIsFinal(job, s);
    if s.main.Finished? {
      DrainedIsSequential(job, s.main.deps);
    }
  }

  // ----- every run stops -----

  function WorkerRank(w: Worker): nat {
    match w case Pending => 3 case Sent => 1 case Succeeded => 0 case GaveUp => 0
  }

  function WorkersRank(workers: seq<Worker>): nat {
    if workers == [] then 0 else WorkersRank(workers[..|workers| - 1]) + WorkerRank(workers[|workers| - 1])
  }

  function Rank(s: State): nat {
    WorkersRank(s.workers) + |s.channel|
    + match s.main case Waiting => 2 case Errored => 0 case Draining(_) => 1 case Finished(_) => 0
  }

  lemma {:induction false} WorkersRankUpdate(workers: seq<Worker>, i: nat, w: Worker)
    requires i < |workers|
    ensures WorkersRank(workers[i := w]) == WorkersRank(workers) + WorkerRank(w) - WorkerRank(workers[i])
  {
    var n := |workers| - 1;
    if i == n {
      assert workers[i := w][..n] == workers[..n];
    } else {
      assert workers[i := w][..n] == workers[..n][i := w];
      WorkersRankUpdate(workers[..n], i, w);
    }
  }

  lemma WorkerStepDescends(job: Job, s: State, a: Action)
    requires Inv(job, s) && Enabled(job, s, a) && (a.Send? || a.GiveUp? || a.Return?)
    ensures Rank(Perform(job, s, a)) < Rank(s)
  {
    hide Cancelled, AllReturned, SentCount, Fetched, Drained, Delivered;
    assert !Perform(job, s, a).panicked by { StepInv(job, s, Perform(job, s, a)); }
    WorkersRankUpdate(s.workers, a.worker, if a.Send? then Sent else if a.GiveUp? then GaveUp else Succeeded);
  }

  lemma MainStepDescends(job: Job, s: State, a: Action)
    requires Inv(job, s) && Enabled(job, s, a) && (a.FinishWaiting? || a.Receive? || a.Finish?)
    ensures Rank(Perform(job, s, a)) < Rank(s)
  {
    hide Cancelled, AllReturned, SentCount, Drained, Delivered, WorkersRank;
    if a.Receive? {
      assert s.main.Draining? && s.channel != [];
      assert Fetched(job, s.channel[0]);
    }
  }

  lemma StepDescends(job: Job, s: State, t: State)
    requires Inv(job, s) && Next(job, s, t)
    ensures Rank(t) < Rank(s)
  {
    hide Inv, Enabled, Perform, Rank;
    var a :| Enabled(job, s, a) && t == Perform(job, s, a);
    if a.Send? || a.GiveUp? || a.Return? {
      WorkerStepDescends(job, s, a);
    } else {
      MainStepDescends(job, s, a);
    }
  }

  /** Main result: no run is longer than three steps for each worker and two for the main routine. */
  lemma {:induction false} RunsAreBounded(job: Job, run: seq<State>)
    requires IsRun(job, run)
    ensures |run| - 1 + Rank(run[|run| - 1]) <= 3 * |job.requests| + 2
    decreases |run|
  {
    var n := |run| - 1;
    if n == 0 {
      InitRank(Init(job).workers);
    } else {
      assert IsRun(job, run[..n]);
      RunsAreBounded(job, run[..n]);
      RunInv(job, run, n - 1);
      assert Next(job, run[n - 1], run[n - 1 + 1]);
      StepDescends(job, run[n - 1], run[n]);
    }
  }

  lemma {:induction false} InitRank(workers: seq<Worker>)
    requires forall i :: 0 <= i < |workers| ==> workers[i] == Pending
    ensures WorkersRank(workers) == 3 * |workers|
  {
    if workers != [] {
      InitRank(workers[..|workers| - 1]);
    }
  }

  // ----- when the schedule makes a difference -----

  /** The workers before k have sent, except for worker m. */
  ghost predicate SentBut(job: Job, s: State, m: nat, k: nat) {
    && s.main == Waiting && |s.workers| == |job.requests|
    && forall i :: 0 <= i < |s.workers| ==> s.workers[i] == if i < k && i != m then Sent else Pending
  }

  /** Everyone but worker m can go first. */
  lemma {:induction false} SendAllBut(job: Job, m: nat, k: nat) returns (run: seq<State>)
    requires job.AllGood() && m < |job.requests| && k <= |job.requests|
    ensures IsRun(job, run) && SentBut(job, run[|run| - 1], m, k)
  {
    if k == 0 {
      run := [Init(job)];
    } else {
      run := SendAllBut(job, m, k - 1);
      if k - 1 != m {
        var s := run[|run| - 1];
        NoSendBlocksOrPanics(job, run, |run| - 1, k - 1);
        assert Enabled(job, s, Send(k - 1));
        run := run + [Perform(job, s, Send(k - 1))];
      }
    }
  }

  /** What worker m fetched is the last to be drained, or has been the last. */
  ghost predicate DrainsLast(job: Job, s: State, m: nat)
    requires m < |job.requests| && job.Good(m)
  {
    && (forall i :: 0 <= i < |s.workers| ==> HasSent(s.workers[i]))
    && (s.channel != [] ==> s.channel[|s.channel| - 1] == job.Dependency(m))
    && match s.main
       case Waiting => s.channel != []
       case Errored => false
       case Draining(deps) => s.channel == [] ==> job.Key(m) in deps && deps[job.Key(m)] == job.Dependency(m)
       case Finished(deps) => job.Key(m) in deps && deps[job.Key(m)] == job.Dependency(m)
  }

  lemma DrainsLastStays(job: Job, s: State, a: Action, m: nat)
    requires m < |job.requests| && job.Good(m)
    requires Inv(job, s) && Enabled(job, s, a) && DrainsLast(job, s, m)
    ensures DrainsLast(job, Perform(job, s, a), m)
  {
    hide SentCount, Drained, Delivered;
    match a {
      case Send(_) =>
      case GiveUp(_) =>
      case Return(_) =>
      case FinishWaiting =>
      case Receive => assert Fetched(job, s.channel[0]);
      case Finish =>
    }
  }

  lemma FinalIsStuck(job: Job, s: State)
    requires Inv(job, s) && (s.main.Errored? || s.main.Finished?)
    ensures Stuck(job, s)
  {
  }

  /** Every run can be continued until it stops. */
  lemma {:induction false} Complete(job: Job, run: seq<State>, m: nat) returns (full: seq<State>)
    requires m < |job.requests| && job.Good(m)
    requires IsRun(job, run) && DrainsLast(job, run[|run| - 1], m)
    ensures IsRun(job, full) && Stuck(job, full[|full| - 1]) && DrainsLast(job, full[|full| - 1], m)
    decreases Rank(run[|run| - 1])
  {
    hide Stuck, Perform, Rank, DrainsLast;
    var s := run[|run| - 1];
    RunInv(job, run, |run| - 1);
    if s.main.Errored? || s.main.Finished? {
      FinalIsStuck(job, s);
      full := run;
    } else {
      var a := SomeEnabled(job, s);
      var t := Perform(job, s, a);
      DrainsLastStays(job, s, a, m);
      assert Next(job, s, t);
      StepDescends(job, s, t);
      full := Complete(job, run + [t], m);
    }
  }

  /** Some schedule lets the answer of any given worker win. */
  lemma AnyWorkerCanWin(job: Job, m: nat) returns (run: seq<State>)
    requires job.AllGood() && m < |job.requests|
    ensures IsRun(job, run) && Stuck(job, run[|run| - 1]) && run[|run| - 1].main.Finished?
    ensures var deps := run[|run| - 1].main.deps; job.Key(m) in deps && deps[job.Key(m)] == job.Dependency(m)
  {
    hide Stuck;
    assert job.Good(m);
    run := SendAllBut(job, m, |job.requests|);
    var s := run[|run| - 1];
    NoSendBlocksOrPanics(job, run, |run| - 1, m);
    assert Enabled(job, s, Send(m));
    run := run + [Perform(job, s, Send(m))];
    run := Complete(job, run, m);
    RunInv(job, run, |run| - 1);
    StuckIsFinal(job, run[|run| - 1]);
  }

  lemma {:induction false} SequentialKeys(job: Job, n: nat)
    requires n <= |job.requests| && job.AllGood()
    ensures forall i :: 0 <= i < n ==> job.Key(i) in Sequential(job, n)
  {
    if n > 0 {
      SequentialKeys(job, n - 1);
    }
  }

  /** Main result: when all requests are answered, every schedule has the outcome of the sequential fetch exactly when
      requests answered with one transaction id are answered alike. */
  lemma ScheduleIndependentIff(job: Job)
    requires job.AllGood()
    ensures Consistent(job) <==>
      forall run: seq<State> :: IsRun(job, run) && Stuck(job, run[|run| - 1]) ==>
        run[|run| - 1].main == Finished(Sequential(job, |job.requests|))
  {
    hide Stuck, Next;
    if Consistent(job) {
      forall run: seq<State> | IsRun(job, run) && Stuck(job, run[|run| - 1])
        ensures run[|run| - 1].main == Finished(Sequential(job, |job.requests|))
      {
        OutcomeIsSequential(job, run);
      }
    } else {
      var i: nat, j: nat :| i < |job.requests| && j < |job.requests| && job.Good(i) && job.Good(j)
        && job.Key(i) == job.Key(j) && job.Dependency(i) != job.Dependency(j);
      SequentialKeys(job, |job.requests|);
      var sequential := Sequential(job, |job.requests|);
      var m := if sequential[job.Key(i)] == job.Dependency(i) then j else i;
      var run := AnyWorkerCanWin(job, m);
      assert run[|run| - 1].main != Finished(sequential);
    }
  }
}
