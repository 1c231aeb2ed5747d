/** Workers that drain off, and a queue of tasks. */
module ThreadPool {

  type Task = nat

  /** Where a worker stands in its loop; Empty is a slot of the vector without a thread. */
  datatype Slot =
    | AtQueue
    | Working(task: Task)
    | AtCheck
    | Done
    | Empty

  predicate Live(w: Slot) {
    w.AtQueue? || w.Working? || w.AtCheck?
  }

  datatype State = State(threads: seq<Slot>, numThreads: int, numActive: int, queue: seq<Task>,
                         started: seq<Task>, finished: multiset<Task>)

  // ---------------------------------------------------------------- the steps, one per critical section

  /** The slots that are kept when finished workers are erased. */
  function Kept(threads: seq<Slot>): seq<Slot> {
    if threads == [] then []
    else Kept(threads[..|threads| - 1]) + if threads[|threads| - 1].Done? then [] else [threads[|threads| - 1]]
  }

  /** std::vector::resize: the end is cut off, or empty slots are added. */
  function Resized(threads: seq<Slot>, n: nat): (r: seq<Slot>)
    ensures |r| == n
  {
    if n <= |threads| then threads[..n] else threads + seq(n - |threads|, _ => Empty)
  }

  /** Slots from i on are given new workers. */
  function Started(threads: seq<Slot>, i: nat): (r: seq<Slot>)
    requires i <= |threads|
    ensures |r| == |threads|
  {
    threads[..i] + seq(|threads| - i, _ => AtQueue)
  }

  function SetNumThreads(s: State, n: int): State
    requires s.numActive >= 0
  {
    var kept := Kept(s.threads);
    if s.numThreads == n then s.(threads := kept)
    else if n > s.numActive then
      s.(threads := Started(Resized(kept, n), s.numActive), numActive := n, numThreads := n)
    else s.(threads := kept, numThreads := n)
  }

  function Submit(s: State, task: Task): State {
    s.(queue := s.queue + [task])
  }

  /** A worker takes the task at the front of the queue, if there is one. */
  function Poll(s: State, w: nat): State
    requires w < |s.threads|
  {
    if s.queue == [] then s.(threads := s.threads[w := AtCheck])
    else s.(threads := s.threads[w := Working(s.queue[0])], queue := s.queue[1..], started := s.started + [s.queue[0]])
  }

  function Finish(s: State, w: nat): State
    requires w < |s.threads| && s.threads[w].Working?
  {
    s.(threads := s.threads[w := AtCheck], finished := s.finished + multiset{s.threads[w].task})
  }

  /** A worker leaves its loop if the pool has more workers than it should. */
  function Check(s: State, w: nat): State
    requires w < |s.threads|
  {
    if s.numActive > s.numThreads then s.(threads := s.threads[w := Done], numActive := s.numActive - 1)
    else s.(threads := s.threads[w := AtQueue])
  }

  datatype Step = SetStep(n: int) | SubmitStep(task: Task) | PollStep(w: nat) | FinishStep(w: nat) | CheckStep(w: nat)

  predicate Enabled(s: State, step: Step) {
    match step
    case SetStep(_) => s.numActive >= 0
    case SubmitStep(_) => true
    case PollStep(w) => w < |s.threads| && s.threads[w].AtQueue?
    case FinishStep(w) => w < |s.threads| && s.threads[w].Working?
    case CheckStep(w) => w < |s.threads| && s.threads[w].AtCheck?
  }

  function After(s: State, step: Step): State
    requires Enabled(s, step)
  {
    match step
    case SetStep(n) => SetNumThreads(s, n)
    case SubmitStep(task) => Submit(s, task)
    case PollStep(w) => Poll(s, w)
    case FinishStep(w) => Finish(s, w)
    case CheckStep(w) => Check(s, w)
  }

  /** The constructor: num_active_threads starts at 0, and every slot is given a worker. */
  function Initial(hardware: nat): State {
    State(seq(hardware, _ => AtQueue), hardware, hardware, [], [], multiset{})
  }

  datatype Outcome = Reached(state: State) | Impossible

  /** The state after a run of the pool: any sequence of steps, each enabled when it happens. */
  function RunSteps(s: State, steps: seq<Step>): Outcome
    decreases |steps|
  {
    if steps == [] then Reached(s)
    else
      match RunSteps(s, steps[..|steps| - 1])
      case Impossible => Impossible
      case Reached(u) =>
        if Enabled(u, steps[|steps| - 1]) then Reached(After(u, steps[|steps| - 1])) else Impossible
  }

  // ---------------------------------------------------------------- the invariant

  function LiveCount(threads: seq<Slot>): (c: nat)
    ensures c <= |threads|
  {
    if threads == [] then 0
    else LiveCount(threads[..|threads| - 1]) + if Live(threads[|threads| - 1]) then 1 else 0
  }

  /** The tasks that workers have taken and not finished. */
  function Held(threads: seq<Slot>): multiset<Task> {
    if threads == [] then multiset{}
    else Held(threads[..|threads| - 1]) + TaskOf(threads[|threads| - 1])
  }

  predicate NoneEmpty(threads: seq<Slot>) {
    forall w :: 0 <= w < |threads| ==> threads[w] != Empty
  }

  /**
   * num_active_threads counts the live workers, at least as many as requested; there are no empty
   * slots; and every task that was started is with one worker or finished.
   */
  ghost predicate Inv(s: State) {
    && LiveCount(s.threads) == s.numActive >= s.numThreads
    && NoneEmpty(s.threads)
    && multiset(s.started) == Held(s.threads) + s.finished
  }

  function TaskOf(slot: Slot): multiset<Task> {
    if slot.Working? then multiset{slot.task} else multiset{}
  }

  lemma {:induction false} LiveUpdate(threads: seq<Slot>, w: nat, slot: Slot)
    requires w < |threads|
    ensures LiveCount(threads[w := slot])
         == LiveCount(threads) - (if Live(threads[w]) then 1 else 0) + if Live(slot) then 1 else 0
    decreases |threads|
  {
    var m := |threads| - 1;
    if w == m {
      assert threads[w := slot][..m] == threads[..m];
    } else {
      assert threads[w := slot][..m] == threads[..m][w := slot];
      LiveUpdate(threads[..m], w, slot);
    }
  }

  lemma HeldSnoc(threads: seq<Slot>, x: Task)
    requires threads != []
    ensures Held(threads)[x] == Held(threads[..|threads| - 1])[x] + TaskOf(threads[|threads| - 1])[x]
  {}

  lemma {:induction false} HeldUpdateAt(threads: seq<Slot>, w: nat, slot: Slot, x: Task)
    requires w < |threads|
    ensures Held(threads[w := slot])[x] + TaskOf(threads[w])[x] == Held(threads)[x] + TaskOf(slot)[x]
    decreases |threads|
  {
    var m := |threads| - 1;
    var updated := threads[w := slot];
    HeldSnoc(updated, x);
    HeldSnoc(threads, x);
    if w == m {
      assert updated[..m] == threads[..m];
    } else {
      assert updated[..m] == threads[..m][w := slot];
      HeldUpdateAt(threads[..m], w, slot, x);
    }
  }

  lemma HeldUpdate(threads: seq<Slot>, w: nat, slot: Slot)
    requires w < |threads|
    ensures Held(threads[w := slot]) + TaskOf(threads[w]) == Held(threads) + TaskOf(slot)
  {
    forall x
      ensures (Held(threads[w := slot]) + TaskOf(threads[w]))[x] == (Held(threads) + TaskOf(slot))[x]
    {
      HeldUpdateAt(threads, w, slot, x);
    }
  }

  /** Erasing finished workers keeps the live ones, in order, and all of them only if no slot is empty. */
  lemma {:induction false} KeptCounts(threads: seq<Slot>)
    requires NoneEmpty(threads)
    ensures |Kept(threads)| == LiveCount(Kept(threads)) == LiveCount(threads)
    ensures forall w :: 0 <= w < |Kept(threads)| ==> Live(Kept(threads)[w])
    ensures Held(Kept(threads)) == Held(threads)
  {
    if threads != [] {
      var m := |threads| - 1;
      var init := Kept(threads[..m]);
      KeptCounts(threads[..m]);
      if threads[m].Done? {
        assert Kept(threads) == init;
      } else {
        assert Kept(threads) == init + [threads[m]];
        assert (init + [threads[m]])[..|init|] == init;
      }
    }
  }

  lemma {:induction false} NewWorkers(threads: seq<Slot>, k: nat)
    ensures LiveCount(threads + seq(k, _ => AtQueue)) == LiveCount(threads) + k
    ensures Held(threads + seq(k, _ => AtQueue)) == Held(threads)
    decreases k
  {
    var more := threads + seq(k, _ => AtQueue);
    if k == 0 {
      assert more == threads;
    } else {
      assert more[..|more| - 1] == threads + seq(k - 1, _ => AtQueue);
      NewWorkers(threads, k - 1);
    }
  }

  /** Growing adds workers behind the live ones: resize cuts none off, and no live slot is overwritten. */
  lemma GrowKeepsWorkers(s: State, n: int)
    requires Inv(s) && n > s.numActive
    ensures Started(Resized(Kept(s.threads), n), s.numActive) == Kept(s.threads) + seq(n - s.numActive, _ => AtQueue)
  {
    KeptCounts(s.threads);
  }

  lemma SetKeepsInv(s: State, n: int)
    requires Inv(s)
    ensures Inv(SetNumThreads(s, n))
  {
    KeptCounts(s.threads);
    if s.numThreads != n && n > s.numActive {
      GrowKeepsWorkers(s, n);
      GrownInv(s, Kept(s.threads), n - s.numActive, SetNumThreads(s, n));
    }
  }

  lemma GrownInv(s: State, kept: seq<Slot>, more: nat, t: State)
    requires multiset(s.started) == Held(kept) + s.finished && LiveCount(kept) == |kept|
    requires forall w :: 0 <= w < |kept| ==> Live(kept[w])
    requires t.threads == kept + seq(more, _ => AtQueue) && t.started == s.started && t.finished == s.finished
    requires t.numActive == t.numThreads == |kept| + more
    ensures Inv(t)
  {
    NewWorkers(kept, more);
    NewNotEmpty(kept, more);
    assert Held(t.threads) == Held(kept);
  }

  lemma NewNotEmpty(kept: seq<Slot>, more: nat)
    requires forall w :: 0 <= w < |kept| ==> Live(kept[w])
    ensures NoneEmpty(kept + seq(more, _ => AtQueue))
  {}

  lemma Balance(started: multiset<Task>, held: multiset<Task>, finished: multiset<Task>,
                started': multiset<Task>, held': multiset<Task>, finished': multiset<Task>, p: multiset<Task>, q: multiset<Task>)
    requires started == held + finished && held' + p == held + q
    requires started' + p + finished == started + q + finished'
    ensures started' == held' + finished'
  {
    forall x
      ensures started'[x] == (held' + finished')[x]
    {
      assert (held' + p)[x] == (held + q)[x];
      assert (started' + p + finished)[x] == (started + q + finished')[x];
    }
  }

  /** One worker moves on: counts and tasks stay balanced. */
  lemma UpdateKeepsInv(s: State, t: State, w: nat, slot: Slot)
    requires Inv(s) && w < |s.threads| && slot != Empty && t.threads == s.threads[w := slot]
    requires t.numActive == s.numActive - (if Live(s.threads[w]) then 1 else 0) + (if Live(slot) then 1 else 0)
    requires t.numActive >= t.numThreads
    requires multiset(t.started) + TaskOf(s.threads[w]) + s.finished == multiset(s.started) + TaskOf(slot) + t.finished
    ensures Inv(t)
  {
    LiveUpdate(s.threads, w, slot);
    HeldUpdate(s.threads, w, slot);
    Balance(multiset(s.started), Held(s.threads), s.finished, multiset(t.started), Held(t.threads), t.finished,
            TaskOf(s.threads[w]), TaskOf(slot));
  }

  lemma PollKeepsInv(s: State, w: nat)
    requires Inv(s) && w < |s.threads| && s.threads[w].AtQueue?
    ensures Inv(Poll(s, w))
  {
    if s.queue == [] {
      UpdateKeepsInv(s, Poll(s, w), w, AtCheck);
    } else {
      assert multiset(s.started + [s.queue[0]]) == multiset(s.started) + multiset{s.queue[0]};
      UpdateKeepsInv(s, Poll(s, w), w, Working(s.queue[0]));
    }
  }

  lemma StepKeepsInv(s: State, step: Step)
    requires Inv(s) && Enabled(s, step)
    ensures Inv(After(s, step))
  {
    match step
    case SetStep(n) => SetKeepsInv(s, n);
    case SubmitStep(_) =>
    case PollStep(w) => PollKeepsInv(s, w);
    case FinishStep(w) => UpdateKeepsInv(s, Finish(s, w), w, AtCheck);
    case CheckStep(w) => UpdateKeepsInv(s, Check(s, w), w, if s.numActive > s.numThreads then Done else AtQueue);
  }

  lemma {:induction false} InitialInv(hardware: nat)
    ensures Inv(Initial(hardware))
  {
    NewWorkers([], hardware);
    assert [] + seq(hardware, _ => AtQueue) == seq(hardware, _ => AtQueue);
  }

  lemma {:induction false} RunKeepsInv(s: State, steps: seq<Step>)
    requires Inv(s)
    ensures RunSteps(s, steps).Reached? ==> Inv(RunSteps(s, steps).state)
    decreases |steps|
  {
    if steps != [] {
      var init := RunSteps(s, steps[..|steps| - 1]);
      RunKeepsInv(s, steps[..|steps| - 1]);
      if init.Reached? && Enabled(init.state, steps[|steps| - 1]) {
        StepKeepsInv(init.state, steps[|steps| - 1]);
      }
    }
  }

  /** Safety over whole runs: whatever the interleaving, the invariant holds. */
  lemma ReachableInv(hardware: nat, steps: seq<Step>)
    ensures var r := RunSteps(Initial(hardware), steps); r.Reached? ==> Inv(r.state)
  {
    InitialInv(hardware);
    RunKeepsInv(Initial(hardware), steps);
  }

  /** What was submitted in a run, in order. */
  function Submitted(steps: seq<Step>): seq<Task> {
    if steps == [] then []
    else Submitted(steps[..|steps| - 1]) + if steps[|steps| - 1].SubmitStep? then [steps[|steps| - 1].task] else []
  }

  /** One step appends what it submits to what has been started and what waits. */
  lemma StepQueues(s: State, step: Step)
    requires Enabled(s, step)
    ensures After(s, step).started + After(s, step).queue
         == s.started + s.queue + if step.SubmitStep? then [step.task] else []
  {
    if step.PollStep? && s.queue != [] {
      assert s.queue == [s.queue[0]] + s.queue[1..];
    }
  }

  /** Tasks are started in the order of submission, each exactly once. */
  lemma {:induction false} StartedInOrder(hardware: nat, steps: seq<Step>)
    ensures var r := RunSteps(Initial(hardware), steps); r.Reached? ==> Submitted(steps) == r.state.started + r.state.queue
    decreases |steps|
  {
    if steps != [] {
      var init := RunSteps(Initial(hardware), steps[..|steps| - 1]);
      StartedInOrder(hardware, steps[..|steps| - 1]);
      if init.Reached? && Enabled(init.state, steps[|steps| - 1]) {
        StepQueues(init.state, steps[|steps| - 1]);
      }
    }
  }

  /** No task is lost or duplicated: each waits, is with one worker, or is finished. */
  lemma TasksConserved(hardware: nat, steps: seq<Step>)
    ensures var r := RunSteps(Initial(hardware), steps);
            r.Reached? ==> multiset(Submitted(steps)) == multiset(r.state.queue) + Held(r.state.threads) + r.state.finished
  {
    var r := RunSteps(Initial(hardware), steps);
    ReachableInv(hardware, steps);
    StartedInOrder(hardware, steps);
    if r.Reached? {
      assert multiset(r.state.started + r.state.queue) == multiset(r.state.started) + multiset(r.state.queue);
    }
  }

  /** Changing the number of threads never drops a live worker: the live ones stay, in order, in front. */
  lemma SetNumThreadsKeepsLive(hardware: nat, steps: seq<Step>, n: int)
    ensures var r := RunSteps(Initial(hardware), steps);
            r.Reached? ==>
              && r.state.numActive >= 0
              && Kept(r.state.threads) <= SetNumThreads(r.state, n).threads
              && LiveCount(SetNumThreads(r.state, n).threads) == if n > r.state.numActive then n else r.state.numActive
  {
    var r := RunSteps(Initial(hardware), steps);
    ReachableInv(hardware, steps);
    if r.Reached? {
      KeptCounts(r.state.threads);
      SetKeepsInv(r.state, n);
      if r.state.numThreads != n && n > r.state.numActive { GrowKeepsWorkers(r.state, n); }
    }
  }

  // ---------------------------------------------------------------- draining

  predicate NoSet(steps: seq<Step>) {
    forall step :: step in steps ==> !step.SetStep?
  }

  /** While the number of threads is not changed: the surplus shrinks, and as long as there is one, checking ends a worker. */
  lemma {:induction false} Drains(s: State, steps: seq<Step>)
    requires NoSet(steps) && RunSteps(s, steps).Reached?
    ensures var t := RunSteps(s, steps).state;
            && t.numThreads == s.numThreads && t.numActive <= s.numActive && |t.threads| == |s.threads|
            && (forall w :: 0 <= w < |s.threads| && !Live(s.threads[w]) ==> !Live(t.threads[w]))
            && (t.numActive <= t.numThreads || forall w :: 0 <= w < |s.threads| && CheckStep(w) in steps ==> !Live(t.threads[w]))
    decreases |steps|
  {
    if steps != [] {
      var m := |steps| - 1;
      assert steps == steps[..m] + [steps[m]];
      assert steps[m] in steps;
      Drains(s, steps[..m]);
    }
  }

  lemma {:induction false} NoneLive(threads: seq<Slot>)
    requires forall w :: 0 <= w < |threads| ==> !Live(threads[w])
    ensures LiveCount(threads) == 0
  {
    if threads != [] { NoneLive(threads[..|threads| - 1]); }
  }

  /** Once every live worker has passed a check, as many are left as were asked for. */
  lemma DrainedToSize(s: State, steps: seq<Step>)
    requires Inv(s) && NoSet(steps) && RunSteps(s, steps).Reached?
    requires forall w :: 0 <= w < |s.threads| && Live(s.threads[w]) ==> CheckStep(w) in steps
    ensures var t := RunSteps(s, steps).state; t.numActive == if s.numThreads < 0 then 0 else s.numThreads
  {
    var t := RunSteps(s, steps).state;
    Drains(s, steps);
    RunKeepsInv(s, steps);
    if t.numActive > t.numThreads { NoneLive(t.threads); }
  }

  /** A run goes on from the state that its first part reaches. */
  lemma {:induction false} RunSplit(s: State, first: seq<Step>, rest: seq<Step>)
    ensures RunSteps(s, first + rest)
         == match RunSteps(s, first) case Impossible => Impossible case Reached(u) => RunSteps(u, rest)
    decreases |rest|
  {
    if rest == [] {
      assert first + rest == first;
    } else {
      var m := |rest| - 1;
      assert (first + rest)[..|first| + m] == first + rest[..m];
      RunSplit(s, first, rest[..m]);
    }
  }

  /**
   * Asking for n threads leaves n: in any run, after a request that no later one follows, and once every worker
   * that was live then has passed a check, n workers are left, or none if n is negative.
   */
  lemma SetAndDrained(hardware: nat, before: seq<Step>, n: int, after: seq<Step>)
    requires NoSet(after)
    ensures var requested := RunSteps(Initial(hardware), before + [SetStep(n)]);
            var r := RunSteps(Initial(hardware), before + [SetStep(n)] + after);
            r.Reached? ==>
              && requested.Reached? && r.state.numThreads == n
              && ((forall w :: 0 <= w < |requested.state.threads| && Live(requested.state.threads[w]) ==> CheckStep(w) in after) ==>
                    r.state.numActive == LiveCount(r.state.threads) == if n < 0 then 0 else n)
  {
    var first := before + [SetStep(n)];
    var requested, r := RunSteps(Initial(hardware), first), RunSteps(Initial(hardware), first + after);
    RunSplit(Initial(hardware), first, after);
    if r.Reached? {
      assert first[..|before|] == before;
      ReachableInv(hardware, first);
      ReachableInv(hardware, first + after);
      Drains(requested.state, after);
      if forall w :: 0 <= w < |requested.state.threads| && Live(requested.state.threads[w]) ==> CheckStep(w) in after {
        DrainedToSize(requested.state, after);
      }
    }
  }

  // ---------------------------------------------------------------- every task is run

  predicate NoSubmit(steps: seq<Step>) {
    forall step :: step in steps ==> !step.SubmitStep?
  }

  function Polls(steps: seq<Step>): nat {
    if steps == [] then 0 else Polls(steps[..|steps| - 1]) + if steps[|steps| - 1].PollStep? then 1 else 0
  }

  /** A worker that polls is given the task that has waited longest, and no other worker is concerned. */
  lemma PollTakesFront(s: State, w: nat)
    requires Enabled(s, PollStep(w)) && s.queue != []
    ensures var t := After(s, PollStep(w));
            && t.threads[w] == Working(s.queue[0]) && [s.queue[0]] + t.queue == s.queue
            && |t.threads| == |s.threads| && forall v :: 0 <= v < |s.threads| && v != w ==> t.threads[v] == s.threads[v]
  {
    assert [s.queue[0]] + s.queue[1..] == s.queue;
  }

  /** While nothing is submitted, every poll starts the next task until none is left. */
  lemma {:induction false} PollsStart(s: State, steps: seq<Step>)
    requires NoSubmit(steps) && RunSteps(s, steps).Reached?
    ensures var t, k := RunSteps(s, steps).state, if Polls(steps) < |s.queue| then Polls(steps) else |s.queue|;
            t.started == s.started + s.queue[..k] && t.queue == s.queue[k..]
    decreases |steps|
  {
    if steps != [] {
      var m := |steps| - 1;
      assert steps == steps[..m] + [steps[m]];
      assert steps[m] in steps;
      PollsStart(s, steps[..m]);
      var k := if Polls(steps[..m]) < |s.queue| then Polls(steps[..m]) else |s.queue|;
      StepStarts(s.started, s.queue, k, RunSteps(s, steps[..m]).state, steps[m]);
    }
  }

  lemma StepStarts(started: seq<Task>, queue: seq<Task>, k: nat, u: State, step: Step)
    requires k <= |queue| && Enabled(u, step) && !step.SubmitStep?
    requires u.started == started + queue[..k] && u.queue == queue[k..]
    ensures var t, j := After(u, step), if step.PollStep? && k < |queue| then k + 1 else k;
            t.started == started + queue[..j] && t.queue == queue[j..]
  {
    if step.PollStep? && k < |queue| {
      assert queue[..k + 1] == queue[..k] + [queue[k]];
    }
  }

  /** When as many polls follow as tasks wait, every task of the run has been started, in order. */
  lemma AllStarted(hardware: nat, before: seq<Step>, after: seq<Step>)
    requires NoSubmit(after)
    ensures var middle, r := RunSteps(Initial(hardware), before), RunSteps(Initial(hardware), before + after);
            r.Reached? ==>
              middle.Reached? && (Polls(after) >= |middle.state.queue| ==>
                r.state.queue == [] && r.state.started == Submitted(before + after) == Submitted(before))
  {
    var middle, r := RunSteps(Initial(hardware), before), RunSteps(Initial(hardware), before + after);
    RunSplit(Initial(hardware), before, after);
    if r.Reached? {
      PollsStart(middle.state, after);
      StartedInOrder(hardware, before);
      StartedInOrder(hardware, before + after);
    }
  }

  lemma {:induction false} NoneHeld(threads: seq<Slot>)
    requires forall w :: 0 <= w < |threads| ==> !threads[w].Working?
    ensures Held(threads) == multiset{}
  {
    if threads != [] { NoneHeld(threads[..|threads| - 1]); }
  }

  /** An idle pool with nothing waiting has finished every submitted task, each exactly once. */
  lemma AllFinished(hardware: nat, steps: seq<Step>)
    ensures var r := RunSteps(Initial(hardware), steps);
            r.Reached? && r.state.queue == [] && (forall w :: 0 <= w < |r.state.threads| ==> !r.state.threads[w].Working?) ==>
              r.state.finished == multiset(Submitted(steps))
  {
    var r := RunSteps(Initial(hardware), steps);
    TasksConserved(hardware, steps);
    if r.Reached? && forall w :: 0 <= w < |r.state.threads| ==> !r.state.threads[w].Working? {
      NoneHeld(r.state.threads);
    }
  }

  // ---------------------------------------------------------------- set_num_threads_internal

  class Pool {
    var threads: seq<Slot>
    var numThreads: int
    var numActive: int

    /** A new worker; the caller holds the lock. */
    method InitialiseThread() returns (slot: Slot)
      modifies this`numActive
      ensures slot == AtQueue && numActive == old(numActive) + 1
    {
      numActive := numActive + 1;
      slot := AtQueue;
    }

    /** Everything that happens in one hold of the lock: erase, and then grow, shrink or leave. */
    method SetNumThreadsInternal(n: int)
      requires numActive >= 0
      modifies this
      ensures forall s: State :: s.threads == old(threads) && s.numThreads == old(numThreads) && s.numActive == old(numActive) ==>
                var t := SetNumThreads(s, n); threads == t.threads && numThreads == t.numThreads && numActive == t.numActive
      ensures numThreads == n
    {
      EraseFinished();
      if numThreads == n { return; }
      if n > numActive {
        threads := if n <= |threads| then threads[..n] else threads + seq(n - |threads|, _ => Empty);
        StartThreads();
      }
      numThreads := n;
    }

    /** New workers from the number of active ones up to the end of the vector. */
    method StartThreads()
      requires 0 <= numActive <= |threads|
      modifies this`threads, this`numActive
      ensures threads == Started(old(threads), old(numActive)) && numActive == |old(threads)|
    {
      var first, n := numActive, |threads|;
      for i := first to n
        invariant numActive == i && |threads| == n
        invariant forall w :: 0 <= w < n ==> threads[w] == if first <= w < i then AtQueue else old(threads)[w]
      {
        var slot := InitialiseThread();
        threads := threads[i := slot];
      }
    }

    method EraseFinished()
      modifies this`threads
      ensures threads == Kept(old(threads))
    {
      var kept := [];
      for i := 0 to |threads|
        invariant threads == old(threads) && kept == Kept(threads[..i])
      {
        assert threads[..i + 1][..i] == threads[..i];
        if !threads[i].Done? {
          kept := kept + [threads[i]];
        }
      }
      assert threads[..|threads|] == threads;
      threads := kept;
    }
  }
}
