/**
 The sandbox manager's own code. Each method is the source's method, with the other threads allowed to
 run between any two of its shared-state operations: `env` lists what they try to do at each such
 point. The contract is that the result is a run of the pool state machine in which this thread's part
 is exactly the sequence of operations its code performs.
 */
module SandboxManagerCode {
  import opened JudgeTypes
  import opened SandboxPool
  import opened Interleaving

  type Schedule = seq<seq<Step>>

  predicate ByManager(a: Step) {
    a.BeginInitial? || a.TakeEvent? || a.CountUnderLock? || a.Decide? || a.PutTask? || a.SeeShutdown?
    || a.Interrupted? || a.CleanPop?
  }

  predicate ByCreator(a: Step, i: nat) { IsCreatorStep(a) && a.creator == i }

  /** The thread whose code a method describes: the manager, or one creator. */
  datatype Thread = ManagerThread | CreatorThread(index: nat)

  predicate By(a: Step, who: Thread) {
    match who
    case ManagerThread => ByManager(a)
    case CreatorThread(i) => ByCreator(a, i)
  }

  function OwnedBy(who: Thread): Step -> bool { a => By(a, who) }

  /** What one thread did in a run. */
  function Did(steps: seq<Step>, who: Thread): seq<Step> { Part(steps, OwnedBy(who)) }

  lemma {:induction false} RunConcat(t: int, s: Pool, a: seq<Step>, m: Pool, b: seq<Step>, e: Pool)
    requires Run(t, s, a, m) && Run(t, m, b, e)
    ensures Run(t, s, a + b, e)
    decreases |a|
  {
    hide Apply, Enabled;
    if a == [] {
      assert a + b == b;
    } else {
      assert (a + b)[1..] == a[1..] + b;
      RunConcat(t, Apply(t, s, a[0]), a[1..], m, b, e);
    }
  }

  lemma RunOne(t: int, s: Pool, a: Step)
    requires Enabled(s, a)
    ensures Run(t, s, [a], Apply(t, s, a))
  {
    hide Apply, Enabled;
    assert Run(t, Apply(t, s, a), [a][1..], Apply(t, s, a));
  }

  class SandboxManager {
    const poolThreshold: int
    // shared with the other threads and processes
    var warm: PerLanguage<seq<ContainerId>>
    var pending: PerLanguage<int>
    var taskQueue: seq<Language>
    var unfinished: int
    var unpublished: multiset<Language>
    var events: seq<Language>
    // where each thread stands
    var threads: seq<Creator>
    var manager: Manager
    var todo: seq<Language>
    // history
    var leases: seq<Lease>
    var cleaned: seq<ContainerId>
    var known: set<ContainerId>

    function View(): Pool reads this {
      Pool(warm, pending, taskQueue, unfinished, threads, manager, todo, unpublished, events, leases, cleaned, known)
    }

    constructor (threshold: int, workers: nat, leftovers: PerLanguage<seq<ContainerId>>)
      requires forall id: ContainerId :: IdsOf(leftovers)[id] <= 1
      ensures Init(View()) && poolThreshold == threshold && |threads| == workers && warm == leftovers
    {
      poolThreshold := threshold;
      warm := leftovers;
      pending := PerLanguage(0, 0, 0);
      taskQueue, unfinished := [], 0;
      unpublished, events := multiset{}, [];
      threads := seq(workers, _ => Idle);
      manager, todo := Ready, [Language.C, Language.Cpp, Language.Python];
      leases, cleaned := [], [];
      known := (set id | id in leftovers.c) + (set id | id in leftovers.cpp) + (set id | id in leftovers.python);
      new;
      assert multiset(known) == IdsOf(leftovers);
    }

    // ----- the single operations on shared state -----

    method CreatorOperation(a: Step)
      requires IsCreatorStep(a) && Enabled(View(), a)
      modifies this
      ensures View() == Apply(poolThreshold, old(View()), a)
    {
      match a
      case GetTask(i) =>
        threads, taskQueue := threads[i := Building(taskQueue[0])], taskQueue[1..];
      case CreateFails(i) =>
        taskQueue, unfinished := taskQueue + [threads[i].language], unfinished + 1;
        threads := threads[i := Finishing];
      case PushWarm(i, id) =>
        var l := threads[i].language;
        warm, known := warm.With(l, [id] + warm.At(l)), known + {id};
        threads := threads[i := Pushed(l)];
      case Decrement(i) =>
        var l := threads[i].language;
        pending := pending.With(l, pending.At(l) - 1);
        threads := threads[i := Finishing];
      case TaskDone(i) =>
        unfinished := unfinished - 1;
        threads := threads[i := Idle];
      case Leave(i) =>
        threads := threads[i := Stopped];
    }

    /** redis_queue.py: take the rightmost warm container, or nothing if the wait times out. */
    method AcquireWarmSandbox(l: Language, submission: nat) returns (container: Option<ContainerId>)
      modifies this
      ensures old(warm.At(l)) == [] ==> container == None && View() == old(View())
      ensures old(warm.At(l)) != [] ==>
                && container == Some(Last(old(warm.At(l))))
                && View() == Apply(poolThreshold, old(View()), JudgePop(l, submission))
    {
      container := None;
      if warm.At(l) != [] {
        var id := Last(warm.At(l));
        container := Some(id);
        warm := warm.With(l, ButLast(warm.At(l)));
        leases, unpublished := leases + [Lease(id, submission)], unpublished + multiset{l};
      }
    }

    method PublishEvent(l: Language)
      requires l in unpublished
      modifies this
      ensures View() == Apply(poolThreshold, old(View()), JudgePublish(l))
    {
      unpublished, events := unpublished - multiset{l}, events + [l];
    }

    method ManagerOperation(a: Step)
      requires ByManager(a) && Enabled(View(), a)
      modifies this
      ensures View() == Apply(poolThreshold, old(View()), a)
    {
      match a
      case BeginInitial => manager, todo := Entering(todo[0], true), todo[1..];
      case TakeEvent => manager, events := Entering(events[0], false), events[1..];
      case CountUnderLock => manager := Counted(manager.language, |warm.At(manager.language)|);
      case Decide =>
        var l := manager.language;
        var deficit := poolThreshold - (manager.count + pending.At(l));
        if deficit <= 0 {
          manager := Ready;
        } else {
          pending := pending.With(l, pending.At(l) + deficit);
          manager := Putting(l, deficit);
        }
      case PutTask =>
        taskQueue, unfinished := taskQueue + [manager.language], unfinished + 1;
        manager := AfterPuts(manager.language, manager.left - 1);
      case SeeShutdown => manager := Halt(manager);
      case Interrupted => manager := Halt(manager);
      case CleanPop(l) =>
        cleaned := cleaned + [Last(warm.At(l))];
        warm := warm.With(l, ButLast(warm.At(l)));
    }

    /** The other threads do whatever they can of `wishes`, in that order. `before` and `trace` are the
        run so far. */
    method Others(wishes: seq<Step>, ghost before: Pool, ghost trace: seq<Step>, who: Thread) returns (ghost trace': seq<Step>)
      requires Run(poolThreshold, before, trace, View())
      modifies this
      ensures Run(poolThreshold, before, trace', View()) && Did(trace', who) == Did(trace, who)
      ensures Undisturbed(old(View()), View(), who)
      ensures old(NoRefill()) ==> NoRefill() && forall l :: |warm.At(l)| <= |old(warm.At(l))|
      ensures forall id | id in known && id !in old(known) :: Pushes(wishes, id)
    {
      trace' := trace;
      for k := 0 to |wishes|
        invariant Run(poolThreshold, before, trace', View()) && Did(trace', who) == Did(trace, who)
        invariant Undisturbed(old(View()), View(), who)
        invariant old(NoRefill()) ==> NoRefill() && forall l :: |warm.At(l)| <= |old(warm.At(l))|
        invariant forall id | id in known && id !in old(known) :: Pushes(wishes, id)
      {
        var a := wishes[k];
        if !By(a, who) && Enabled(View(), a) {
          FrameOf(poolThreshold, View(), a, who);
          KnownByPush(poolThreshold, View(), wishes, k);
          trace' := Foreign(a, before, trace', who);
        }
      }
    }

    /** One step of some other thread. */
    method Foreign(a: Step, ghost before: Pool, ghost trace: seq<Step>, ghost who: Thread) returns (ghost trace': seq<Step>)
      requires Run(poolThreshold, before, trace, View()) && Enabled(View(), a) && !By(a, who)
      modifies this
      ensures View() == Apply(poolThreshold, old(View()), a)
      ensures Run(poolThreshold, before, trace', View()) && Did(trace', who) == Did(trace, who)
    {
      hide Apply, Enabled;
      ghost var s := View();
      Operation(a);
      RunOne(poolThreshold, s, a);
      RunConcat(poolThreshold, before, trace, s, [a], View());
      PartOne(trace, a, OwnedBy(who));
      trace' := trace + [a];
    }

    /** The manager has stopped and joined every creator. */
    predicate NoRefill() reads this { manager.Halted? && AllStopped(View()) }

    method JudgeOperation(a: Step)
      requires (a.JudgePop? || a.JudgePublish?) && Enabled(View(), a)
      modifies this
      ensures View() == Apply(poolThreshold, old(View()), a)
    {
      hide Apply;
      if a.JudgePop? {
        var _ := AcquireWarmSandbox(a.language, a.submission);
      } else {
        PublishEvent(a.language);
      }
    }

    method Operation(a: Step)
      requires Enabled(View(), a)
      modifies this
      ensures View() == Apply(poolThreshold, old(View()), a)
    {
      hide Apply, Enabled;
      if IsCreatorStep(a) {
        CreatorOperation(a);
      } else if ByManager(a) {
        ManagerOperation(a);
      } else {
        JudgeOperation(a);
      }
    }

    /** One step of this thread's own code. */
    method Own(a: Step, ghost before: Pool, ghost trace: seq<Step>, ghost who: Thread) returns (ghost trace': seq<Step>)
      requires Run(poolThreshold, before, trace, View()) && Enabled(View(), a) && By(a, who)
      modifies this
      ensures View() == Apply(poolThreshold, old(View()), a)
      ensures Run(poolThreshold, before, trace', View()) && Did(trace', who) == Did(trace, who) + [a]
    {
      hide Apply, Enabled;
      ghost var s := View();
      Operation(a);
      RunOne(poolThreshold, s, a);
      RunConcat(poolThreshold, before, trace, s, [a], View());
      PartOne(trace, a, OwnedBy(who));
      trace' := trace + [a];
    }

    // ----- the statements of each thread, with what the code around them relies on -----

    method CountLocked(ghost before: Pool, ghost trace: seq<Step>) returns (ghost trace': seq<Step>)
      requires manager.Entering? && Run(poolThreshold, before, trace, View())
      modifies this
      ensures Run(poolThreshold, before, trace', View()) && Did(trace', ManagerThread) == Did(trace, ManagerThread) + [CountUnderLock]
      ensures manager == Counted(old(manager.language), |warm.At(old(manager.language))|) && todo == old(todo)
      ensures SameEvents(old(View()), View())
    {
      trace' := Own(CountUnderLock, before, trace, ManagerThread);
    }

    /** Ends the locked section: the number of tasks to put, zero if there is no deficit. */
    method DecideDeficit(ghost before: Pool, ghost trace: seq<Step>) returns (ghost trace': seq<Step>, deficit: nat)
      requires manager.Counted? && Run(poolThreshold, before, trace, View())
      modifies this
      ensures Run(poolThreshold, before, trace', View()) && Did(trace', ManagerThread) == Did(trace, ManagerThread) + [Decide]
      ensures deficit == Max(0, poolThreshold - (old(manager.count) + old(pending).At(old(manager.language))))
      ensures manager == AfterPuts(old(manager.language), deficit) && todo == old(todo)
      ensures SameEvents(old(View()), View())
    {
      trace' := Own(Decide, before, trace, ManagerThread);
      deficit := if manager.Putting? then manager.left else 0;
    }

    method PutOne(ghost before: Pool, ghost trace: seq<Step>) returns (ghost trace': seq<Step>)
      requires manager.Putting? && manager.left > 0 && Run(poolThreshold, before, trace, View())
      modifies this
      ensures Run(poolThreshold, before, trace', View()) && Did(trace', ManagerThread) == Did(trace, ManagerThread) + [PutTask]
      ensures manager == AfterPuts(old(manager.language), old(manager.left) - 1) && todo == old(todo)
      ensures SameEvents(old(View()), View())
    {
      trace' := Own(PutTask, before, trace, ManagerThread);
    }

    method TakeTask(i: nat, ghost before: Pool, ghost trace: seq<Step>) returns (ghost trace': seq<Step>)
      requires i < |threads| && threads[i].Idle? && taskQueue != [] && Run(poolThreshold, before, trace, View())
      modifies this
      ensures Run(poolThreshold, before, trace', View()) && Did(trace', CreatorThread(i)) == Did(trace, CreatorThread(i)) + [GetTask(i)]
      ensures threads == old(threads)[i := Building(old(taskQueue)[0])] && known == old(known)
    {
      trace' := Own(GetTask(i), before, trace, CreatorThread(i));
    }

    method PutBack(i: nat, ghost before: Pool, ghost trace: seq<Step>) returns (ghost trace': seq<Step>)
      requires i < |threads| && threads[i].Building? && Run(poolThreshold, before, trace, View())
      modifies this
      ensures Run(poolThreshold, before, trace', View()) && Did(trace', CreatorThread(i)) == Did(trace, CreatorThread(i)) + [CreateFails(i)]
      ensures threads == old(threads)[i := Finishing]
    {
      trace' := Own(CreateFails(i), before, trace, CreatorThread(i));
    }

    method PushContainer(i: nat, id: ContainerId, ghost before: Pool, ghost trace: seq<Step>) returns (ghost trace': seq<Step>)
      requires i < |threads| && threads[i].Building? && id !in known && Run(poolThreshold, before, trace, View())
      modifies this
      ensures Run(poolThreshold, before, trace', View()) && Did(trace', CreatorThread(i)) == Did(trace, CreatorThread(i)) + [PushWarm(i, id)]
      ensures threads == old(threads)[i := Pushed(old(threads)[i].language)]
    {
      trace' := Own(PushWarm(i, id), before, trace, CreatorThread(i));
    }

    method DecrementPending(i: nat, ghost before: Pool, ghost trace: seq<Step>) returns (ghost trace': seq<Step>)
      requires i < |threads| && threads[i].Pushed? && !manager.Counted? && Run(poolThreshold, before, trace, View())
      modifies this
      ensures Run(poolThreshold, before, trace', View()) && Did(trace', CreatorThread(i)) == Did(trace, CreatorThread(i)) + [Decrement(i)]
      ensures threads == old(threads)[i := Finishing]
    {
      trace' := Own(Decrement(i), before, trace, CreatorThread(i));
    }

    method FinishTask(i: nat, ghost before: Pool, ghost trace: seq<Step>) returns (ghost trace': seq<Step>)
      requires i < |threads| && threads[i].Finishing? && Run(poolThreshold, before, trace, View())
      modifies this
      ensures Run(poolThreshold, before, trace', View()) && Did(trace', CreatorThread(i)) == Did(trace, CreatorThread(i)) + [TaskDone(i)]
      ensures threads == old(threads)[i := Idle]
    {
      trace' := Own(TaskDone(i), before, trace, CreatorThread(i));
    }

    /** Blocked on pending_lock until the manager's decision releases it. */
    method AwaitLock(i: nat, ghost before: Pool, ghost trace: seq<Step>) returns (ghost trace': seq<Step>)
      requires manager.Counted? && Run(poolThreshold, before, trace, View())
      modifies this
      ensures Run(poolThreshold, before, trace', View()) && Did(trace', CreatorThread(i)) == Did(trace, CreatorThread(i))
      ensures !manager.Counted? && threads == old(threads)
    {
      trace' := Foreign(Decide, before, trace, CreatorThread(i));
    }

    method PopForCleaning(l: Language, ghost before: Pool, ghost trace: seq<Step>) returns (ghost trace': seq<Step>)
      requires NoRefill() && warm.At(l) != [] && Run(poolThreshold, before, trace, View())
      modifies this
      ensures Run(poolThreshold, before, trace', View()) && NoRefill()
      ensures warm == old(warm).With(l, ButLast(old(warm).At(l)))
    {
      trace' := Own(CleanPop(l), before, trace, ManagerThread);
    }

    // ----- the source's methods -----

    /** maintain_pool. The lock is held from the count to the decision, so creators cannot decrement
        there; they can push, and judges can pop. */
    method MaintainPool(env: Schedule, ghost before: Pool, ghost trace: seq<Step>)
      returns (ghost trace': seq<Step>, created: nat)
      requires manager.Entering? && Run(poolThreshold, before, trace, View())
      modifies this
      ensures Run(poolThreshold, before, trace', View())
      ensures Did(trace', ManagerThread) == Did(trace, ManagerThread) + [CountUnderLock, Decide] + seq(created, _ => PutTask)
      ensures manager == Ready && todo == old(todo) && EventsGrow(old(View()), View())
    {
      hide Apply, Run, Did, Enabled;
      ghost var mine := Did(trace, ManagerThread);
      var l := manager.language;
      trace' := Others(Slot(env, 0), before, trace, ManagerThread);
      trace' := CountLocked(before, trace');
      trace' := Others(Slot(env, 1), before, trace', ManagerThread);
      trace', created := DecideDeficit(before, trace');
      for k := 0 to created
        invariant Run(poolThreshold, before, trace', View()) && todo == old(todo)
        invariant Did(trace', ManagerThread) == mine + [CountUnderLock, Decide] + seq(k, _ => PutTask)
        invariant manager == AfterPuts(l, created - k) && EventsGrow(old(View()), View())
      {
        trace' := Others(Slot(env, 2 + k), before, trace', ManagerThread);
        trace' := PutOne(before, trace');
        assert seq(k + 1, _ => PutTask) == seq(k, _ => PutTask) + [PutTask];
      }
    }

    /** The initial fill: every language's first maintain_pool, in the order of the enumeration. */
    method InitialFill(envs: seq<Schedule>, ghost before: Pool, ghost trace: seq<Step>) returns (ghost trace': seq<Step>)
      requires manager.Ready? && Run(poolThreshold, before, trace, View())
      modifies this
      ensures Run(poolThreshold, before, trace', View()) && EventsGrow(old(View()), View())
      ensures manager == Ready && todo == [] && forall l :: Initialised(View(), l)
    {
      hide Run, Did;
      trace' := trace;
      var k := 0;
      while todo != []
        invariant manager.Ready? && Run(poolThreshold, before, trace', View()) && EventsGrow(old(View()), View())
        decreases |todo|
      {
        trace' := Own(BeginInitial, before, trace', ManagerThread);
        var created;
        trace', created := MaintainPool(if k < |envs| then envs[k] else [], before, trace');
        k := k + 1;
      }
    }

    /** One message of the main loop: if there is one, it is taken and its language maintained. */
    method HandleMessage(env: Schedule, ghost before: Pool, ghost trace: seq<Step>) returns (ghost trace': seq<Step>, created: nat)
      requires manager.Ready? && todo == [] && Run(poolThreshold, before, trace, View())
      modifies this
      ensures Run(poolThreshold, before, trace', View()) && manager == Ready && todo == []
      ensures Did(trace', ManagerThread) == Did(trace, ManagerThread) +
                if old(events) == [] then [] else [TakeEvent, CountUnderLock, Decide] + seq(created, _ => PutTask)
      ensures if old(events) == [] then View() == old(View())
              else EventsGrow(old(View()).(events := old(events)[1..]), View())
    {
      hide Run, Did;
      trace', created := trace, 0;
      if events != [] {
        trace' := Own(TakeEvent, before, trace', ManagerThread);
        trace', created := MaintainPool(env, before, trace');
      }
    }

    /** `run` up to the shutdown: the initial fill, then one message after another. Between any two of them
        every language's supply, with the pops still to be answered, is short of the threshold by at most one
        per creator thread. If no further message comes while those there are handled, none is left, and the
        supply of every language whose pops are all published is that close to the threshold by itself. */
    method Serve(messages: nat, envs: nat -> Schedule, fill: seq<Schedule>, ghost before: Pool, ghost trace: seq<Step>)
      returns (ghost trace': seq<Step>)
      requires Init(before) && manager.Ready? && Run(poolThreshold, before, trace, View())
      modifies this
      ensures Run(poolThreshold, before, trace', View()) && manager == Ready && todo == []
      ensures forall l :: Supply(View(), l) + UnansweredPops(View(), l) >= poolThreshold - |before.creators|
      ensures forall l :: Supply(View(), l) <= Max(poolThreshold, Warm(before, l))
      ensures Published(View()) == old(Published(View())) && |old(events)| <= messages ==> events == []
      ensures forall l | events == [] && l !in unpublished :: Supply(View(), l) >= poolThreshold - |before.creators|
    {
      hide Apply, Run, Did, Enabled, Supply, UnansweredPops, Warm, Init, Published;
      trace' := InitialFill(fill, before, trace);
      for k := 0 to messages
        invariant Run(poolThreshold, before, trace', View()) && manager == Ready && todo == []
        invariant Published(View()) >= old(Published(View()))
        invariant Published(View()) == old(Published(View())) ==> |events| <= Max(0, |old(events)| - k)
      {
        trace' := Others(Slot(envs(k), 0), before, trace', ManagerThread);
        ghost var waiting := View();
        SamePublished(waiting, waiting.events);
        var created;
        trace', created := HandleMessage(envs(k), before, trace');
        if waiting.events != [] {
          SamePublished(waiting, waiting.events[1..]);
        }
      }
      forall l
        ensures Supply(View(), l) + UnansweredPops(View(), l) >= poolThreshold - |before.creators|
        ensures Supply(View(), l) <= Max(poolThreshold, Warm(before, l))
        ensures events == [] && l !in unpublished ==> UnansweredPops(View(), l) == 0
      {
        PoolStaysReplenished(poolThreshold, before, trace', View(), l);
        PoolNeverOverfills(poolThreshold, before, trace', View(), l);
        if events == [] && l !in unpublished {
          AllAnswered(View(), l);
        }
      }
    }

    /** The try/except of creator_worker: build a container (`result` is its id, or None if Docker or
        the health check fails), push it, decrement under the lock; on failure put the task back. */
    method CreateSandbox(i: nat, result: Option<ContainerId>, env: Schedule, ghost before: Pool, ghost trace: seq<Step>)
      returns (ghost trace': seq<Step>, created: bool)
      requires i < |threads| && threads[i].Building? && Run(poolThreshold, before, trace, View())
      modifies this
      ensures Run(poolThreshold, before, trace', View())
      ensures |threads| == |old(threads)| && threads[i] == Finishing
      ensures created == (result.Some? && result.value !in old(known))
      ensures Did(trace', CreatorThread(i)) == Did(trace, CreatorThread(i)) +
                if created then [PushWarm(i, result.value), Decrement(i)] else [CreateFails(i)]
    {
      hide Apply, Enabled, Run, Did;
      created := result.Some? && result.value !in known;
      if created {
        trace' := PushContainer(i, result.value, before, trace);
        trace' := Others(Slot(env, 1), before, trace', CreatorThread(i));
        if manager.Counted? {
          trace' := AwaitLock(i, before, trace');
        }
        trace' := DecrementPending(i, before, trace');
      } else {
        trace' := PutBack(i, before, trace);
      }
    }

    /** One task of creator_worker, from get to task_done. */
    method CreatorTask(i: nat, result: Option<ContainerId>, env: Schedule, ghost before: Pool, ghost trace: seq<Step>)
      returns (ghost trace': seq<Step>, created: bool)
      requires i < |threads| && threads[i].Idle? && taskQueue != [] && Run(poolThreshold, before, trace, View())
      modifies this
      ensures Run(poolThreshold, before, trace', View())
      ensures |threads| == |old(threads)| && threads[i] == Idle
      ensures Did(trace', CreatorThread(i)) == Did(trace, CreatorThread(i)) + [GetTask(i)] +
                (if created && result.Some? then [PushWarm(i, result.value), Decrement(i)] else [CreateFails(i)]) + [TaskDone(i)]
      ensures created ==> result.Some?
      ensures result.Some? && result.value !in old(known) && !Pushes(Slot(env, 0), result.value) ==> created
    {
      hide Apply, Enabled, Run, Did;
      trace' := TakeTask(i, before, trace);
      trace' := Others(Slot(env, 0), before, trace', CreatorThread(i));
      trace', created := CreateSandbox(i, result, env, before, trace');
      trace' := Others(Slot(env, 2), before, trace', CreatorThread(i));
      trace' := FinishTask(i, before, trace');
    }

    /** clean_pool. Judges may still pop between the length check and the pop; `stopFails` says which
        stop calls raise, which changes nothing: the error is logged and the loop goes on. */
    method CleanPool(l: Language, stopFails: nat -> bool, env: Schedule, ghost before: Pool, ghost trace: seq<Step>)
      returns (ghost trace': seq<Step>, errors: nat)
      requires NoRefill() && Run(poolThreshold, before, trace, View())
      modifies this
      ensures Run(poolThreshold, before, trace', View()) && NoRefill()
      ensures warm.At(l) == []
      ensures forall x :: |warm.At(x)| <= |old(warm.At(x))|
    {
      hide Apply, Run, Did, Enabled, AllStopped;
      trace', errors := trace, 0;
      var k := 0;
      while |warm.At(l)| > 0
        invariant NoRefill() && Run(poolThreshold, before, trace', View())
        invariant forall x :: |warm.At(x)| <= |old(warm.At(x))|
        decreases |warm.At(l)|
      {
        trace' := Others(Slot(env, k), before, trace', ManagerThread);
        if warm.At(l) == [] {
          errors := errors + 1;   // rpop returned nothing and the container lookup raised
        } else {
          trace' := PopForCleaning(l, before, trace');
          errors := if stopFails(k) then errors + 1 else errors;
        }
        k := k + 1;
      }
    }

    /** The last lines of `run`: whatever judges still do, every warm list ends empty. */
    method CleanAll(stopFails: nat -> bool, envs: PerLanguage<Schedule>, ghost before: Pool, ghost trace: seq<Step>)
      returns (ghost trace': seq<Step>)
      requires NoRefill() && Run(poolThreshold, before, trace, View())
      modifies this
      ensures Run(poolThreshold, before, trace', View())
      ensures forall l :: warm.At(l) == []
    {
      var errors;
      trace', errors := CleanPool(Language.C, stopFails, envs.c, before, trace);
      trace', errors := CleanPool(Language.Cpp, stopFails, envs.cpp, before, trace');
      trace', errors := CleanPool(Language.Python, stopFails, envs.python, before, trace');
    }
  }

  /** One of these steps is a push of this container. */
  predicate Pushes(wishes: seq<Step>, id: ContainerId) {
    exists k :: 0 <= k < |wishes| && wishes[k].PushWarm? && wishes[k].container == id
  }

  lemma KnownByPush(t: int, s: Pool, wishes: seq<Step>, k: nat)
    requires k < |wishes| && Enabled(s, wishes[k])
    ensures forall id | id in Apply(t, s, wishes[k]).known && id !in s.known :: Pushes(wishes, id)
  {
  }

  /** How many events judges have ever published. */
  function Published(s: Pool): int { |s.leases| - |s.unpublished| }

  predicate SameEvents(s: Pool, s': Pool) {
    s'.events == s.events && s'.leases == s.leases && s'.unpublished == s.unpublished
  }

  /** No message is lost: new ones come after those that were there, one per event published. */
  predicate EventsGrow(s: Pool, s': Pool) {
    s.events <= s'.events && |s'.events| - |s.events| == Published(s') - Published(s)
  }

  lemma SamePublished(s: Pool, events: seq<Language>)
    ensures Published(s.(events := events)) == Published(s)
  {
  }

  lemma AllAnswered(s: Pool, l: Language)
    requires s.manager == Ready && s.events == [] && l !in s.unpublished
    ensures UnansweredPops(s, l) == 0
  {
  }

  /** What the others cannot touch of a thread's own state. */
  ghost predicate Undisturbed(s: Pool, s': Pool, who: Thread) {
    match who
    case ManagerThread => s'.manager == s.manager && s'.todo == s.todo && EventsGrow(s, s')
    case CreatorThread(i) => |s'.creators| == |s.creators| && (i < |s.creators| ==> s'.creators[i] == s.creators[i])
  }

  lemma FrameOf(t: int, s: Pool, a: Step, who: Thread)
    requires Enabled(s, a) && !By(a, who)
    ensures Undisturbed(s, Apply(t, s, a), who)
    ensures s.manager.Halted? && AllStopped(s) ==>
              Apply(t, s, a).manager.Halted? && AllStopped(Apply(t, s, a))
              && forall l :: |Apply(t, s, a).warm.At(l)| <= |s.warm.At(l)|
  {
  }
}
