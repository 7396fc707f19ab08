/**
 The job protocol as a state machine: the API, the orchestrator and any number of judge workers share a
 Redis list of submission ids, one global shutdown key and three keys per worker.

 A worker is named by its position in `procs`; the source's identifier is that position plus one.

 What one attempt at a submission comes to is a parameter, `judge`: a function of the id and of the
 `World` the attempt finds outside. Attempts at one id may find different worlds.
 */
module JobProtocol {
  import opened JudgeTypes
  import opened Records
  import Pipeline

  type Id = nat

  type Evaluation = (Id, Pipeline.World) -> Outcome<Recorded>

  /** What an id about to be pushed back in the `except Exception` branch stands for. */
  datatype Origin =
    | Keyed    // the job in hand; the worker's submission key names it
    | Unkeyed  // the job in hand; setting the submission key is what failed
    | Stale    // nothing in hand: brpop failed and `submission_id` is the previous iteration's

  /** Where a worker process stands in `_consume_from_list` and `run`. */
  datatype Pc =
    | Head                                   // about to read the global shutdown key
    | HeadLocal                              // about to read its own shutdown key
    | Beating                                // about to set its heartbeat
    | Popping                                // in brpop
    | Popped(job: Id)                        // popped, submission key not yet set
    | Running(job: Id)                       // key set, process_submission called
    | Judging(job: Id, outcome: Outcome<Recorded>)  // row, problem and testcases read; what judging comes to
    | Written(job: Id)                       // process_submission has returned
    | Retrying(job: Id, origin: Origin)      // about to push the job back
    | Leaving                                // out of the loop, shutdown key not yet deleted
    | LeavingBeat                            // heartbeat key not yet deleted
    | Gone                                   // `run` has returned
    | Dead                                   // killed or crashed

  /** `late` counts the jobs taken after the global shutdown key was set. */
  datatype Proc = Proc(pc: Pc, local: Option<Id>, late: nat)

  datatype ReapStage = KeyRead | Requeued | KeysDeleted

  datatype Orchestrator =
    | Free
    | Starting(worker: nat)                                     // process started, not yet on the list
    | Spawning(worker: nat, unstopped: bool)                    // on the list, keys not all set
    | Stopping(worker: nat)                                     // taken off the list, key not yet set
    | Joining(worker: nat)                                      // waiting up to five seconds
    | JoiningGone(worker: nat)                                  // unbounded join on a worker found stopped
    | Reaping(worker: nat, key: Option<Id>, stage: ReapStage)   // handling a frozen worker
    | ShuttingDown
    | Ended

  /** A row was read in order to judge it. */
  datatype Loading = Loading(job: Id, world: Pipeline.World)

  datatype State = State(
    jobs: seq<Id>,             // the Redis job list, left end first
    flag: bool,                // the global shutdown key is "1"
    procs: seq<Proc>,
    stopKeys: set<nat>,        // workers whose shutdown key is "1"
    beats: set<nat>,           // workers whose heartbeat key exists
    current: map<nat, Id>,     // submission keys
    listed: seq<nat>,          // the orchestrator's `workers`
    orch: Orchestrator,
    managerGone: bool,         // the sandbox manager process has exited
    rows: map<Id, Recorded>,
    deleted: set<Id>,          // rows committed once and deleted since
    awaiting: set<Id>,         // committed by the API, not yet enqueued
    enqueued: set<Id>,
    dropped: set<Id>,          // given up in the ValueError branch
    pushed: seq<Id>,           // every push to the job list, oldest first
    popped: seq<Id>,           // every pop from it
    reaped: multiset<Id>,      // pushes made for a frozen worker
    stale: multiset<Id>,       // pushes of a stale local id
    loads: seq<Loading>        // every attempt that found its row, oldest first
  )

  datatype WorkerOp =
    | ReadFlag | ReadStop | SetBeat
    | Pop | PopEmpty | PopError
    | SetKey | SetKeyError
    | Load(world: Pipeline.World) | MissingRow | RaiseValueError | RaiseOther | Write
    | ClearKey | ClearKeyError
    | Repush | RepushError
    | Interrupt            // KeyboardInterrupt is delivered
    | LeaveStop | LeaveBeat
    | Die                  // the process is killed from outside or crashes

  datatype OrchOp =
    | SpawnStart | SpawnAppend | SpawnStopKey | SpawnBeat(worker: nat)
    | StopBegin | StopSignal(worker: nat) | StopJoined | StopKill
    | FindGone(worker: nat) | JoinGone
    | ReapRead(worker: nat) | ReapPush | ReapDelete(worker: nat) | ReapKill
    | BeginShutdown | ManagerExit | FinishShutdown

  datatype ApiOp = Commit(id: Id) | Enqueue(id: Id) | DeleteRow(id: Id)

  datatype Step = Worker(w: nat, op: WorkerOp) | Orch(orchOp: OrchOp) | Api(apiOp: ApiOp)

  predicate Over(pc: Pc) { pc.Gone? || pc.Dead? }

  /** The job a live worker holds. */
  function Hand(pc: Pc): Option<Id> {
    match pc
    case Popped(x) => Some(x)
    case Running(x) => Some(x)
    case Judging(x, _) => Some(x)
    case Written(x) => Some(x)
    case Retrying(x, o) => if o == Stale then None else Some(x)
    case _ => None
  }

  /** The statements inside the `try` of `_consume_from_list`, where KeyboardInterrupt ends the loop. */
  predicate InTry(pc: Pc) {
    pc.Popping? || pc.Popped? || pc.Running? || pc.Judging? || pc.Written?
  }

  // ----- worker steps -----

  predicate WorkerEnabled(s: State, w: nat, op: WorkerOp) {
    w < |s.procs| &&
    var p := s.procs[w];
    match op
    case ReadFlag => p.pc.Head?
    case ReadStop => p.pc.HeadLocal?
    case SetBeat => p.pc.Beating?
    case Pop => p.pc.Popping? && s.jobs != []
    case PopEmpty => p.pc.Popping? && s.jobs == []
    case PopError => p.pc.Popping?
    case SetKey => p.pc.Popped?
    case SetKeyError => p.pc.Popped?
    case Load(_) => p.pc.Running? && p.pc.job in s.rows
    case MissingRow => p.pc.Running? && p.pc.job !in s.rows
    case RaiseValueError => p.pc.Running? || (p.pc.Judging? && p.pc.outcome != Raised(OtherError))
    case RaiseOther => p.pc.Running? || (p.pc.Judging? && p.pc.outcome != Raised(ValueError))
    case Write => p.pc.Judging? && p.pc.outcome.Returned?
    case ClearKey => p.pc.Written?
    case ClearKeyError => p.pc.Written?
    case Repush => p.pc.Retrying?
    case RepushError => p.pc.Retrying?
    case Interrupt => !Over(p.pc)
    case LeaveStop => p.pc.Leaving?
    case LeaveBeat => p.pc.LeavingBeat?
    case Die => !Over(p.pc)
  }

  function LastJob(s: State): Id
    requires s.jobs != []
  {
    s.jobs[|s.jobs| - 1]
  }

  /** Where the worker stands after the step. */
  function NextPc(judge: Evaluation, s: State, w: nat, op: WorkerOp): Pc
    requires WorkerEnabled(s, w, op)
  {
    var p := s.procs[w];
    match op
    case ReadFlag => if s.flag then Leaving else HeadLocal
    case ReadStop => if w in s.stopKeys then Leaving else Beating
    case SetBeat => Popping
    case Pop => Popped(LastJob(s))
    case PopEmpty => Head
    case PopError => if p.local.Some? then Retrying(p.local.value, Stale) else Dead
    case SetKey => Running(p.pc.job)
    case SetKeyError => Retrying(p.pc.job, Unkeyed)
    case Load(world) => Judging(p.pc.job, judge(p.pc.job, world))
    case MissingRow => Head
    case RaiseValueError => Head
    case RaiseOther => Retrying(p.pc.job, Keyed)
    case Write => Written(p.pc.job)
    case ClearKey => Head
    case ClearKeyError => Retrying(p.pc.job, Keyed)
    case Repush => Head
    case RepushError => Dead
    case Interrupt => if InTry(p.pc) then Leaving else Dead
    case LeaveStop => LeavingBeat
    case LeaveBeat => Gone
    case Die => Dead
  }

  function NextProc(judge: Evaluation, s: State, w: nat, op: WorkerOp): Proc
    requires WorkerEnabled(s, w, op)
  {
    var p := s.procs[w].(pc := NextPc(judge, s, w, op));
    if op.Pop? then p.(local := Some(LastJob(s)), late := p.late + (if s.flag then 1 else 0)) else p
  }

  function PushLeft(s: State, x: Id): State { s.(jobs := [x] + s.jobs, pushed := s.pushed + [x]) }

  /** What the step does to Redis and the database. */
  function WorkerEffect(s: State, w: nat, op: WorkerOp): State
    requires WorkerEnabled(s, w, op)
  {
    var pc := s.procs[w].pc;
    match op
    case SetBeat => s.(beats := s.beats + {w})
    case Pop => s.(jobs := s.jobs[..|s.jobs| - 1], popped := s.popped + [LastJob(s)])
    case SetKey => s.(current := s.current[w := pc.job])
    case Load(world) => s.(loads := s.loads + [Loading(pc.job, world)])
    case MissingRow => s.(dropped := s.dropped + {pc.job})
    case RaiseValueError => s.(dropped := s.dropped + {pc.job})
    case Write => s.(rows := if pc.job in s.rows then s.rows[pc.job := pc.outcome.value] else s.rows)
    case ClearKey => s.(current := s.current - {w})
    case Repush =>
      PushLeft(s, pc.job).(stale := if pc.origin == Stale then s.stale + multiset{pc.job} else s.stale)
    case LeaveStop => s.(stopKeys := s.stopKeys - {w})
    case LeaveBeat => s.(beats := s.beats - {w})
    case _ => s
  }

  function ApplyWorker(judge: Evaluation, s: State, w: nat, op: WorkerOp): State
    requires WorkerEnabled(s, w, op)
  {
    WorkerEffect(s, w, op).(procs := s.procs[w := NextProc(judge, s, w, op)])
  }

  // ----- orchestrator steps -----

  function Without(ws: seq<nat>, w: nat): seq<nat> {
    if ws == [] then [] else if ws[0] == w then Without(ws[1..], w) else [ws[0]] + Without(ws[1..], w)
  }

  predicate AllOver(s: State, ws: seq<nat>) {
    forall i | 0 <= i < |ws| :: ws[i] < |s.procs| ==> Over(s.procs[ws[i]].pc)
  }

  predicate OrchEnabled(s: State, op: OrchOp) {
    match op
    case SpawnStart => s.orch.Free?
    case SpawnAppend => s.orch.Starting?
    case SpawnStopKey => s.orch.Spawning? && !s.orch.unstopped
    case SpawnBeat(w) => s.orch == Spawning(w, true)
    case StopBegin => s.orch.Free? && s.listed != []
    case StopSignal(w) => s.orch == Stopping(w)
    case StopJoined => s.orch.Joining? && s.orch.worker < |s.procs| && Over(s.procs[s.orch.worker].pc)
    case StopKill => s.orch.Joining? && s.orch.worker < |s.procs| && !Over(s.procs[s.orch.worker].pc)
    case FindGone(w) =>
      s.orch.Free? && w in s.listed && w < |s.procs| && (Over(s.procs[w].pc) || w !in s.beats)
    case JoinGone => s.orch.JoiningGone? && s.orch.worker < |s.procs| && Over(s.procs[s.orch.worker].pc)
    case ReapRead(w) => s.orch.Free? && w in s.listed && w < |s.procs| && w in s.beats && !s.procs[w].pc.Dead?
    case ReapPush => s.orch.Reaping? && s.orch.stage == KeyRead
    case ReapDelete(w) => s.orch.Reaping? && s.orch.stage == Requeued && s.orch.worker == w
    case ReapKill => s.orch.Reaping? && s.orch.stage == KeysDeleted && s.orch.worker < |s.procs|
    case BeginShutdown => !s.orch.ShuttingDown? && !s.orch.Ended?
    case ManagerExit => true
    case FinishShutdown => s.orch.ShuttingDown? && AllOver(s, s.listed) && s.managerGone
  }

  /** terminate has no effect on a process that is already over. */
  function Kill(s: State, w: nat): State
    requires w < |s.procs|
  {
    if Over(s.procs[w].pc) then s else s.(procs := s.procs[w := s.procs[w].(pc := Dead)])
  }

  function NextOrch(s: State, op: OrchOp): Orchestrator
    requires OrchEnabled(s, op)
  {
    match op
    case SpawnStart => Starting(|s.procs|)
    case SpawnAppend => Spawning(s.orch.worker, false)
    case SpawnStopKey => Spawning(s.orch.worker, true)
    case StopBegin => Stopping(s.listed[|s.listed| - 1])
    case StopSignal(w) => Joining(w)
    case FindGone(w) => JoiningGone(w)
    case ReapRead(w) => Reaping(w, if w in s.current then Some(s.current[w]) else None, KeyRead)
    case ReapPush => s.orch.(stage := Requeued)
    case ReapDelete(_) => s.orch.(stage := KeysDeleted)
    case BeginShutdown => ShuttingDown
    case ManagerExit => s.orch
    case FinishShutdown => Ended
    case _ => Free
  }

  function NextListed(s: State, op: OrchOp): seq<nat>
    requires OrchEnabled(s, op)
  {
    match op
    case SpawnAppend => s.listed + [s.orch.worker]
    case StopBegin => s.listed[..|s.listed| - 1]
    case FindGone(w) => Without(s.listed, w)
    case ReapKill => Without(s.listed, s.orch.worker)
    case _ => s.listed
  }

  /** What the step does to the processes, the Redis keys and the job list. */
  function OrchEffect(s: State, op: OrchOp): State
    requires OrchEnabled(s, op)
  {
    match op
    case SpawnStart => s.(procs := s.procs + [Proc(Head, None, 0)])
    case SpawnStopKey => s.(stopKeys := s.stopKeys - {s.orch.worker})
    case SpawnBeat(w) => s.(beats := s.beats + {w})
    case StopSignal(w) => s.(stopKeys := s.stopKeys + {w})
    case StopKill => Kill(s, s.orch.worker)
    case ReapPush =>
      (match s.orch.key
       case None => s
       case Some(x) => PushLeft(s, x).(reaped := s.reaped + multiset{x}))
    case ReapDelete(w) =>
      s.(stopKeys := s.stopKeys - {w}, beats := s.beats - {w}, current := s.current - {w})
    case ReapKill => Kill(s, s.orch.worker)
    case BeginShutdown => s.(flag := true)
    case ManagerExit => s.(managerGone := true)
    case FinishShutdown => s.(flag := false)
    case _ => s
  }

  function ApplyOrch(s: State, op: OrchOp): State
    requires OrchEnabled(s, op)
  {
    OrchEffect(s, op).(orch := NextOrch(s, op), listed := NextListed(s, op))
  }

  // ----- API steps -----

  predicate ApiEnabled(s: State, op: ApiOp) {
    match op
    case Commit(x) => x !in s.rows && x !in s.deleted
    case Enqueue(x) => x in s.awaiting
    case DeleteRow(x) => x in s.rows
  }

  function ApplyApi(s: State, op: ApiOp): State
    requires ApiEnabled(s, op)
  {
    match op
    case Commit(x) => s.(rows := s.rows[x := UNJUDGED], awaiting := s.awaiting + {x})
    case Enqueue(x) => PushLeft(s, x).(awaiting := s.awaiting - {x}, enqueued := s.enqueued + {x})
    case DeleteRow(x) => s.(rows := s.rows - {x}, deleted := s.deleted + {x})
  }

  // ----- runs -----

  predicate Enabled(s: State, a: Step) {
    match a
    case Worker(w, op) => WorkerEnabled(s, w, op)
    case Orch(op) => OrchEnabled(s, op)
    case Api(op) => ApiEnabled(s, op)
  }

  function Apply(judge: Evaluation, s: State, a: Step): State
    requires Enabled(s, a)
  {
    match a
    case Worker(w, op) => ApplyWorker(judge, s, w, op)
    case Orch(op) => ApplyOrch(s, op)
    case Api(op) => ApplyApi(s, op)
  }

  ghost predicate Run(judge: Evaluation, s: State, steps: seq<Step>, s': State)
    decreases |steps|
  {
    if steps == [] then s == s'
    else Enabled(s, steps[0]) && Run(judge, Apply(judge, s, steps[0]), steps[1..], s')
  }

  lemma FirstStep(judge: Evaluation, s: State, a: Step, m: State, rest: seq<Step>, e: State)
    requires Enabled(s, a) && m == Apply(judge, s, a) && Run(judge, m, rest, e)
    ensures Run(judge, s, [a] + rest, e)
  {
    hide Apply, Enabled;
    assert ([a] + rest)[1..] == rest;
  }

  lemma {:induction false} RunConcat(judge: Evaluation, s: State, a: seq<Step>, m: State, b: seq<Step>, e: State)
    requires Run(judge, s, a, m) && Run(judge, m, b, e)
    ensures Run(judge, s, a + b, e)
    decreases |a|
  {
    hide Apply, Enabled;
    if a == [] {
      assert a + b == b;
    } else {
      assert (a + b)[1..] == a[1..] + b;
      RunConcat(judge, Apply(judge, s, a[0]), a[1..], m, b, e);
    }
  }

  /** A run goes one way only. */
  lemma {:induction false} RunSplit(judge: Evaluation, s: State, a: seq<Step>, m: State, b: seq<Step>, e: State)
    requires Run(judge, s, a, m) && Run(judge, s, a + b, e)
    ensures Run(judge, m, b, e)
    decreases |a|
  {
    hide Apply, Enabled;
    if a == [] {
      assert a + b == b;
    } else {
      assert (a + b)[1..] == a[1..] + b;
      RunSplit(judge, Apply(judge, s, a[0]), a[1..], m, b, e);
    }
  }

  /** The orchestrator has just been constructed. An earlier life may have left jobs, rows, worker keys (worker
      identifiers begin anew) and histories. */
  predicate Start(s: State) {
    s.procs == [] && s.listed == [] && s.orch == Free && !s.flag && !s.managerGone
  }

  /** The very first start. */
  const INIT := State([], false, [], {}, {}, map[], [], Free, false, map[], {}, {}, {}, {}, [], [], multiset{}, multiset{}, [])
}
