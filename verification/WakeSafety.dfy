/** The wake flag: no wake-up is lost, and stop() always returns. */
module WakeSafety {
  import opened Wrappers
  import opened StoreTables
  import opened Controller

  ghost predicate HasQueued(queue: seq<QueueRow>) {
    exists r :: r in queue && r.status == Queued
  }

  predicate AboutToWait(p: Process) {
    p.worker == CheckingStop || p.worker == Waiting
  }

  ghost predicate WakeInv(queue: seq<QueueRow>, p: Process) {
    && (AboutToWait(p) && !p.wake && !p.stop && HasQueued(queue) ==> p.setting != {})
    && (p.worker == Waiting && p.stop && !p.wake ==> p.manager == RaisingWake)
    && (p.manager == RaisingWake || p.manager == Joining ==> p.stop)
    && (p.manager == Recovering || p.manager == ClearingStop || p.manager == SettingWake || p.manager == Spawning
        ==> p.worker == NotRunning)
    && (p.manager == SettingWake ==> !p.stop)
    && (p.manager == Spawning ==> p.wake && !p.stop)
    && (p.worker != NotRunning && p.stop ==> p.manager == RaisingWake || p.manager == Joining)
    && (p.worker.InReceive? <==> p.holder.Receiving? && p.holder.byWorker)
    && (p.holder.Receiving? && p.holder.byWorker ==> !p.holder.pc.Recording?)
  }

  ghost predicate Awake(s: State) {
    s.process.Some? ==> WakeInv(s.tables.queue, s.process.value)
  }

  lemma NothingToClaim(t: Tables)
    requires Claim(t).1.None?
    ensures !HasQueued(t.queue)
  {
    forall r | r in t.queue ensures r.status != Queued {
      var i :| 0 <= i < |t.queue| && t.queue[i] == r;
    }
  }

  lemma DuplicateQueuesNothing(t: Tables, event: Event)
    ensures var (after, reply) := StoreTables.Enqueue(t, event); reply.duplicate ==> after == t
  {
  }

  /** The flags and threads are as before, except that the worker leaves _receive_event when it lets go of the lock. */
  predicate OnlyReceiverMoved(p: Process, q: Process)
    requires p.holder.Receiving?
  {
    && q.wake == p.wake && q.stop == p.stop && q.setting == p.setting && q.manager == p.manager
    && (q.holder == Free || (q.holder.Receiving? && q.holder.byWorker == p.holder.byWorker
                             && (q.holder.byWorker ==> !q.holder.pc.Recording?)))
    && (if p.holder.byWorker && q.holder == Free then q.worker.Finishing? else q.worker == p.worker)
  }

  lemma ReceiveLeavesFlags(t: Tables, p: Process, choice: ReceiveChoice)
    requires p.holder.Receiving? && ReceiveNext(t, p, choice).Some?
    requires p.holder.byWorker ==> !p.holder.pc.Recording?
    ensures OnlyReceiverMoved(p, ReceiveNext(t, p, choice).value)
  {
    if choice != Raise {
      match p.holder.pc
      case Validating =>
      case EvaluatingPolicy(_, _) =>
      case _ =>
    }
  }

  lemma WorkerKeepsAwake(s: State, p: Process)
    requires Awake(s) && s.process == Some(p) && WorkerStepFrom(s, p).Some?
    ensures Awake(WorkerStepFrom(s, p).value)
  {
    if p.worker == Claiming && Claim(s.tables).1.None? { NothingToClaim(s.tables); }
  }

  lemma ManagerKeepsAwake(s: State, p: Process)
    requires Awake(s) && s.process == Some(p) && ManagerStepFrom(s, p).Some?
    ensures Awake(ManagerStepFrom(s, p).value)
  {
  }

  lemma ReceiveKeepsAwake(s: State, p: Process, choice: ReceiveChoice)
    requires Awake(s) && s.process == Some(p) && p.holder.Receiving? && ReceiveStepFrom(s, p, choice).Some?
    ensures Awake(ReceiveStepFrom(s, p, choice).value)
  {
    ReceiveLeavesFlags(s.tables, p, choice);
    ReceiveLeavesQueue(s.tables, p.holder, choice);
  }

  lemma ApproveKeepsAwake(s: State, p: Process, decision: ApproveChoice)
    requires Awake(s) && s.process == Some(p) && p.holder.Approving? && ApproveStepFrom(s, p, decision).Some?
    ensures Awake(ApproveStepFrom(s, p, decision).value)
  {
  }

  lemma StepKeepsAwake(s: State, a: Action)
    requires Awake(s) && Step(s, a).Some?
    ensures Awake(Step(s, a).value)
  {
    if s.process.Some? {
      var p := s.process.value;
      match a
      case WorkerStep => WorkerKeepsAwake(s, p);
      case ManagerStep => ManagerKeepsAwake(s, p);
      case Enqueue(client, event) => DuplicateQueuesNothing(s.tables, event);
      case ReceiveStep(choice) => ReceiveKeepsAwake(s, p, choice);
      case ApproveStep(decision) => ApproveKeepsAwake(s, p, decision);
      case _ =>
    }
  }

  lemma {:induction false} RunKeepsAwake(s: State, actions: seq<Action>)
    requires Awake(s) && Run(s, actions).Some?
    ensures Awake(Run(s, actions).value)
    decreases |actions|
  {
    if actions != [] {
      StepKeepsAwake(s, actions[0]);
      RunKeepsAwake(Step(s, actions[0]).value, actions[1..]);
    }
  }

  /** No lost wake-up: while an event is queued and the worker is blocked on a clear flag, some thread has committed
      its event and is about to set the flag, or stop() is. */
  lemma NoLostWakeUp(wild: set<PolicyId>, actions: seq<Action>)
    requires Run(Initial(wild), actions).Some?
    ensures var s := Run(Initial(wild), actions).value;
            s.process.Some? && s.process.value.worker == Waiting && !s.process.value.wake
                && HasQueued(s.tables.queue) ==>
              s.process.value.setting != {} || s.process.value.manager == RaisingWake
  {
    RunKeepsAwake(Initial(wild), actions);
  }

  // ----- stop() returns

  /** At most this many steps are left to the worker once stop() waits for it. */
  function StepsLeft(w: WorkerPc): nat {
    match w
    case NotRunning => 0
    case CheckingStop => 1
    case Draining => 2
    case Woken => 3
    case Finishing(_, _) => 3
    case Waiting => 4
    case InReceive(_) => 4
    case Reserved(_) => 5
    case Claiming => 6
  }

  predicate Stopping(s: State) {
    s.process.Some? && s.process.value.manager == Joining
  }

  function WorkerSteps(actions: seq<Action>): nat {
    if actions == [] then 0 else (if actions[0].WorkerStep? then 1 else 0) + WorkerSteps(actions[1..])
  }

  lemma StepWhileStopping(s: State, a: Action)
    requires Awake(s) && Stopping(s) && Step(s, a).Some? && !a.Crash? && !a.ManagerStep?
    ensures var next := Step(s, a).value;
            && Stopping(next) && Awake(next)
            && StepsLeft(next.process.value.worker) + (if a.WorkerStep? then 1 else 0)
               <= StepsLeft(s.process.value.worker)
  {
    var p := s.process.value;
    StepKeepsAwake(s, a);
    if a.ReceiveStep? {
      ReceiveLeavesFlags(s.tables, p, a.choice);
    }
  }

  lemma {:induction false} WorkerStepsBounded(s: State, actions: seq<Action>)
    requires Awake(s) && Stopping(s) && Run(s, actions).Some?
    requires forall a :: a in actions ==> !a.Crash? && !a.ManagerStep?
    ensures var next := Run(s, actions).value;
            && Stopping(next) && Awake(next)
            && WorkerSteps(actions) + StepsLeft(next.process.value.worker) <= StepsLeft(s.process.value.worker)
    decreases |actions|
  {
    if actions != [] {
      assert actions[0] in actions;
      StepWhileStopping(s, actions[0]);
      WorkerStepsBounded(Step(s, actions[0]).value, actions[1..]);
    }
  }

  /** Once stop() waits for the worker, in whatever way the other threads go on: the worker is never blocked except
      while another thread holds the event lock or it handles its last event itself, it takes at most six more
      steps of its loops, and when it is done the join returns. */
  lemma StopReturns(wild: set<PolicyId>, before: seq<Action>, after: seq<Action>)
    requires Run(Initial(wild), before).Some? && Stopping(Run(Initial(wild), before).value)
    requires Run(Run(Initial(wild), before).value, after).Some?
    requires forall a :: a in after ==> !a.Crash? && !a.ManagerStep?
    ensures WorkerSteps(after) <= 6
    ensures var s := Run(Run(Initial(wild), before).value, after).value;
            && s.process.Some?
            && var p := s.process.value;
               match p.worker
               case NotRunning => Step(s, ManagerStep).Some? && Step(s, ManagerStep).value.process.value.manager == Idle
               case Reserved(_) => p.holder == Free ==> Step(s, WorkerStep).Some?
               case InReceive(_) => p.holder.Receiving? && Step(s, ReceiveStep(Raise)).Some?
               case _ => Step(s, WorkerStep).Some?
  {
    RunKeepsAwake(Initial(wild), before);
    WorkerStepsBounded(Run(Initial(wild), before).value, after);
  }
}
