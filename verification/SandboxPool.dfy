/**
 The warm sandbox pool as a state machine.

 One manager thread, a fixed set of creator threads and any number of judge processes share a task
 queue, one `pending` counter per language and one Redis list of warm containers per language. A
 `Step` is one action the others can interleave with; `Run` is any finite interleaving.
 */
module SandboxPool {
  import opened JudgeTypes

  type ContainerId = nat

  /** Where a creator thread stands in `creator_worker`. */
  datatype Creator =
    | Idle                         // loop head, or waiting in task_queue.get
    | Building(language: Language) // took a task, container not yet in the warm list
    | Pushed(language: Language)   // container is warm, `pending` not yet decremented
    | Finishing                    // about to call task_done
    | Stopped                      // left the loop

  /** Where the manager thread stands. `Counted` holds `pending_lock`. */
  datatype Manager =
    | Ready                                            // between two calls of maintain_pool
    | Entering(language: Language, initial: bool)      // maintain_pool called, lock not yet taken
    | Counted(language: Language, count: nat)          // lock held, llen has returned `count`
    | Putting(language: Language, left: nat)           // lock released, `left` tasks still to put
    | Halted(language: Language, abandoned: nat)       // stop_event set; `abandoned` tasks never put

  datatype Lease = Lease(container: ContainerId, submission: nat)

  datatype Pool = Pool(
    warm: PerLanguage<seq<ContainerId>>,  // left end of the Redis list first
    pending: PerLanguage<int>,
    queue: seq<Language>,
    unfinished: int,                      // Queue.unfinished_tasks
    creators: seq<Creator>,
    manager: Manager,
    todo: seq<Language>,                  // languages the initial fill has not reached
    unpublished: multiset<Language>,      // popped by a judge, event not yet published
    events: seq<Language>,                // published, not yet taken by the manager
    leases: seq<Lease>,                   // every pop by a judge, oldest first
    cleaned: seq<ContainerId>,            // every pop by clean_pool
    known: set<ContainerId>               // every container id ever put in a warm list
  )

  datatype Step =
    // manager
    | BeginInitial
    | TakeEvent
    | CountUnderLock
    | Decide
    | PutTask
    | SeeShutdown
    | Interrupted
    | CleanPop(language: Language)
    // creators
    | GetTask(creator: nat)
    | CreateFails(creator: nat)
    | PushWarm(creator: nat, container: ContainerId)
    | Decrement(creator: nat)
    | TaskDone(creator: nat)
    | Leave(creator: nat)
    // judges
    | JudgePop(language: Language, submission: nat)
    | JudgePublish(language: Language)

  predicate LockFree(s: Pool) { !s.manager.Counted? }

  predicate AllStopped(s: Pool) {
    forall i | 0 <= i < |s.creators| :: s.creators[i] == Stopped
  }

  predicate Enabled(s: Pool, a: Step) {
    match a
    case BeginInitial => s.manager.Ready? && s.todo != []
    case TakeEvent => s.manager.Ready? && s.todo == [] && s.events != []
    case CountUnderLock => s.manager.Entering?
    case Decide => s.manager.Counted?
    case PutTask => s.manager.Putting? && s.manager.left > 0
    case SeeShutdown => s.manager.Ready? && s.todo == []
    case Interrupted => !s.manager.Halted?
    case CleanPop(l) => s.manager.Halted? && AllStopped(s) && s.warm.At(l) != []
    case GetTask(i) => i < |s.creators| && s.creators[i].Idle? && s.queue != []
    case CreateFails(i) => i < |s.creators| && s.creators[i].Building?
    case PushWarm(i, id) => i < |s.creators| && s.creators[i].Building? && id !in s.known
    case Decrement(i) => i < |s.creators| && s.creators[i].Pushed? && LockFree(s)
    case TaskDone(i) => i < |s.creators| && s.creators[i].Finishing?
    case Leave(i) => i < |s.creators| && s.creators[i].Idle? && s.manager.Halted?
    case JudgePop(l, _) => s.warm.At(l) != []
    case JudgePublish(l) => l in s.unpublished
  }

  function AfterPuts(l: Language, left: nat): Manager {
    if left == 0 then Ready else Putting(l, left)
  }

  function Halt(m: Manager): Manager {
    match m
    case Putting(l, left) => Halted(l, left)
    case Halted(l, n) => m
    case Ready => Halted(Language.C, 0)
    case Entering(l, _) => Halted(l, 0)
    case Counted(l, _) => Halted(l, 0)
  }

  /** The deficit of maintain_pool, from the length read earlier and `pending` as it is now. */
  function Deficit(t: int, s: Pool): int
    requires s.manager.Counted?
  {
    t - (s.manager.count + s.pending.At(s.manager.language))
  }

  function Last<T>(s: seq<T>): T requires s != [] { s[|s| - 1] }

  function ButLast<T>(s: seq<T>): seq<T> requires s != [] { s[..|s| - 1] }

  function Apply(t: int, s: Pool, a: Step): Pool
    requires Enabled(s, a)
  {
    match a
    case BeginInitial => s.(manager := Entering(s.todo[0], true), todo := s.todo[1..])
    case TakeEvent => s.(manager := Entering(s.events[0], false), events := s.events[1..])
    case CountUnderLock => s.(manager := Counted(s.manager.language, |s.warm.At(s.manager.language)|))
    case Decide =>
      var d := Deficit(t, s);
      var l := s.manager.language;
      if d <= 0 then s.(manager := Ready)
      else s.(manager := Putting(l, d), pending := s.pending.With(l, s.pending.At(l) + d))
    case PutTask =>
      s.(queue := s.queue + [s.manager.language], unfinished := s.unfinished + 1,
         manager := AfterPuts(s.manager.language, s.manager.left - 1))
    case SeeShutdown => s.(manager := Halt(s.manager))
    case Interrupted => s.(manager := Halt(s.manager))
    case CleanPop(l) =>
      s.(warm := s.warm.With(l, ButLast(s.warm.At(l))), cleaned := s.cleaned + [Last(s.warm.At(l))])
    case GetTask(i) => s.(creators := s.creators[i := Building(s.queue[0])], queue := s.queue[1..])
    case CreateFails(i) =>
      s.(creators := s.creators[i := Finishing], queue := s.queue + [s.creators[i].language],
         unfinished := s.unfinished + 1)
    case PushWarm(i, id) =>
      var l := s.creators[i].language;
      s.(creators := s.creators[i := Pushed(l)], warm := s.warm.With(l, [id] + s.warm.At(l)),
         known := s.known + {id})
    case Decrement(i) =>
      var l := s.creators[i].language;
      s.(creators := s.creators[i := Finishing], pending := s.pending.With(l, s.pending.At(l) - 1))
    case TaskDone(i) => s.(creators := s.creators[i := Idle], unfinished := s.unfinished - 1)
    case Leave(i) => s.(creators := s.creators[i := Stopped])
    case JudgePop(l, sub) =>
      s.(warm := s.warm.With(l, ButLast(s.warm.At(l))),
         leases := s.leases + [Lease(Last(s.warm.At(l)), sub)],
         unpublished := s.unpublished + multiset{l})
    case JudgePublish(l) =>
      s.(unpublished := s.unpublished - multiset{l}, events := s.events + [l])
  }

  predicate Run(t: int, s: Pool, steps: seq<Step>, s': Pool)
    decreases |steps|
  {
    if steps == [] then s == s'
    else Enabled(s, steps[0]) && Run(t, Apply(t, s, steps[0]), steps[1..], s')
  }

  /** The manager has just been constructed; the warm lists may hold leftovers of an earlier life. */
  ghost predicate Init(s: Pool) {
    && s.pending == PerLanguage(0, 0, 0)
    && s.queue == [] && s.unfinished == 0
    && (forall i | 0 <= i < |s.creators| :: s.creators[i] == Idle)
    && s.manager == Ready && s.todo == [Language.C, Language.Cpp, Language.Python]
    && s.unpublished == multiset{} && s.events == []
    && s.leases == [] && s.cleaned == []
    && multiset(s.known) == IdsOf(s.warm)
  }

  // ----- what the bounds count -----

  function Warm(s: Pool, l: Language): nat { |s.warm.At(l)| }

  function Queued(s: Pool, l: Language): nat { multiset(s.queue)[l] }

  function UnderConstruction(s: Pool, l: Language): nat { multiset(s.creators)[Building(l)] }

  function Undecremented(s: Pool, l: Language): nat { multiset(s.creators)[Pushed(l)] }

  function ToPut(s: Pool, l: Language): nat {
    if s.manager.Putting? && s.manager.language == l then s.manager.left else 0
  }

  function Abandoned(s: Pool, l: Language): nat {
    if s.manager.Halted? && s.manager.language == l then s.manager.abandoned else 0
  }

  /** Containers that are warm or on their way to being warm; each is counted once. */
  function Supply(s: Pool, l: Language): nat {
    Warm(s, l) + Queued(s, l) + ToPut(s, l) + UnderConstruction(s, l)
  }

  /** Pops whose event the manager has not yet answered with a count. */
  function UnansweredPops(s: Pool, l: Language): nat {
    s.unpublished[l] + multiset(s.events)[l] + (if s.manager == Entering(l, false) then 1 else 0)
  }

  /** The deficit that `Decide` is about to add, after the length has been read. */
  function ComingDeficit(t: int, s: Pool, l: Language): nat {
    if s.manager.Counted? && s.manager.language == l && Deficit(t, s) > 0 then Deficit(t, s) else 0
  }

  /** The first maintain_pool of this language has read its count. */
  predicate Initialised(s: Pool, l: Language) {
    l !in s.todo && s.manager != Entering(l, true)
  }

  function LeasedIds(leases: seq<Lease>): seq<ContainerId> {
    seq(|leases|, i requires 0 <= i < |leases| => leases[i].container)
  }

  function IdsOf(warm: PerLanguage<seq<ContainerId>>): multiset<ContainerId> {
    multiset(warm.c) + multiset(warm.cpp) + multiset(warm.python)
  }

  // ----- the inductive invariant -----

  /** `pending` counts queued tasks, tasks still to put, and creators that have not decremented. */
  predicate Accounted(s: Pool, l: Language) {
    s.pending.At(l) == Queued(s, l) + ToPut(s, l) + Abandoned(s, l) + UnderConstruction(s, l) + Undecremented(s, l)
  }

  predicate Bounded(t: int, bound: int, s: Pool, l: Language) {
    Supply(s, l) + ComingDeficit(t, s, l) <= bound
  }

  predicate Replenished(t: int, s: Pool, l: Language) {
    Initialised(s, l) && !s.manager.Halted? ==>
      Supply(s, l) + ComingDeficit(t, s, l) + UnansweredPops(s, l) >= t - |s.creators|
  }

  predicate UnfinishedExact(s: Pool) {
    s.unfinished == |s.queue| + |s.creators| - multiset(s.creators)[Idle] - multiset(s.creators)[Stopped]
  }

  /** Every id ever made warm is in exactly one place, exactly once. */
  ghost predicate EachIdOnce(s: Pool) {
    multiset(s.known) == IdsOf(s.warm) + multiset(LeasedIds(s.leases)) + multiset(s.cleaned)
  }

  predicate StoppedOnlyWhenHalted(s: Pool) {
    !s.manager.Halted? ==> forall i | 0 <= i < |s.creators| :: s.creators[i] != Stopped
  }

  /** One creator changes state: the two creator counts of a language change by that creator alone. */
  lemma CreatorMoves(cs: seq<Creator>, i: nat, v: Creator, l: Language)
    requires i < |cs|
    ensures var m := multiset(cs); var m' := multiset(cs[i := v]);
            && m'[Building(l)] == m[Building(l)] - (if cs[i] == Building(l) then 1 else 0) + (if v == Building(l) then 1 else 0)
            && m'[Pushed(l)] == m[Pushed(l)] - (if cs[i] == Pushed(l) then 1 else 0) + (if v == Pushed(l) then 1 else 0)
  {
    assert cs[i] in multiset(cs);
  }

  lemma Appended(q: seq<Language>, x: Language, l: Language)
    ensures multiset(q + [x])[l] == multiset(q)[l] + (if x == l then 1 else 0)
  {
  }

  lemma Dequeued(q: seq<Language>, l: Language)
    requires q != []
    ensures multiset(q[1..])[l] == multiset(q)[l] - (if q[0] == l then 1 else 0)
  {
    assert q == [q[0]] + q[1..];
  }

  /** No value occurs in a sequence more often than the sequence is long. */
  lemma {:induction false} OccursAtMostLength<T>(s: seq<T>, x: T)
    ensures multiset(s)[x] <= |s|
  {
    if s != [] {
      assert s == ButLast(s) + [Last(s)];
      OccursAtMostLength(ButLast(s), x);
    }
  }

  predicate IsCreatorStep(a: Step) {
    a.GetTask? || a.CreateFails? || a.PushWarm? || a.Decrement? || a.TaskDone? || a.Leave?
  }

  /** All the numbers the bounds are about, for one language. */
  datatype Tally = Tally(warm: int, queued: int, toPut: int, abandoned: int, building: int, undecremented: int,
                         pending: int, unanswered: int)

  function TallyOf(s: Pool, l: Language): Tally {
    Tally(Warm(s, l), Queued(s, l), ToPut(s, l), Abandoned(s, l), UnderConstruction(s, l), Undecremented(s, l),
          s.pending.At(l), UnansweredPops(s, l))
  }

  /** The effect of a step on one language's tally; `mine` says whether the step concerns that language. */
  function TallyStep(t: int, s: Pool, a: Step, l: Language): Tally
    requires Enabled(s, a)
  {
    var y := TallyOf(s, l);
    match a
    case BeginInitial => y
    case TakeEvent => y
    case CountUnderLock => y.(unanswered := y.unanswered - One(s.manager == Entering(l, false)))
    case Decide =>
      if s.manager.language == l && Deficit(t, s) > 0
      then y.(toPut := Deficit(t, s), pending := y.pending + Deficit(t, s)) else y
    case PutTask => if s.manager.language == l then y.(queued := y.queued + 1, toPut := y.toPut - 1) else y
    case SeeShutdown => y
    case Interrupted =>
      y.(abandoned := y.toPut, toPut := 0, unanswered := y.unanswered - One(s.manager == Entering(l, false)))
    case CleanPop(x) => y.(warm := y.warm - One(x == l))
    case GetTask(i) => var d := One(s.queue[0] == l); y.(queued := y.queued - d, building := y.building + d)
    case CreateFails(i) =>
      var d := One(s.creators[i].language == l); y.(queued := y.queued + d, building := y.building - d)
    case PushWarm(i, _) =>
      var d := One(s.creators[i].language == l);
      y.(warm := y.warm + d, building := y.building - d, undecremented := y.undecremented + d)
    case Decrement(i) =>
      var d := One(s.creators[i].language == l);
      y.(pending := y.pending - d, undecremented := y.undecremented - d)
    case TaskDone(_) => y
    case Leave(_) => y
    case JudgePop(x, _) => y.(warm := y.warm - One(x == l), unanswered := y.unanswered + One(x == l))
    case JudgePublish(_) => y
  }

  // One lemma per kind of step; `StepTally` joins them.

  lemma GetTally(t: int, s: Pool, i: nat, l: Language)
    requires Enabled(s, GetTask(i))
    ensures TallyOf(Apply(t, s, GetTask(i)), l) == TallyStep(t, s, GetTask(i), l)
  {
    CreatorMoves(s.creators, i, Building(s.queue[0]), l);
    Dequeued(s.queue, l);
  }

  lemma FailTally(t: int, s: Pool, i: nat, l: Language)
    requires Enabled(s, CreateFails(i))
    ensures TallyOf(Apply(t, s, CreateFails(i)), l) == TallyStep(t, s, CreateFails(i), l)
  {
    CreatorMoves(s.creators, i, Finishing, l);
    Appended(s.queue, s.creators[i].language, l);
  }

  lemma PushTally(t: int, s: Pool, i: nat, id: ContainerId, l: Language)
    requires Enabled(s, PushWarm(i, id))
    ensures TallyOf(Apply(t, s, PushWarm(i, id)), l) == TallyStep(t, s, PushWarm(i, id), l)
  {
    CreatorMoves(s.creators, i, Pushed(s.creators[i].language), l);
  }

  lemma DecrementTally(t: int, s: Pool, i: nat, l: Language)
    requires Enabled(s, Decrement(i))
    ensures TallyOf(Apply(t, s, Decrement(i)), l) == TallyStep(t, s, Decrement(i), l)
  {
    CreatorMoves(s.creators, i, Finishing, l);
  }

  lemma DoneTally(t: int, s: Pool, i: nat, l: Language)
    requires Enabled(s, TaskDone(i))
    ensures TallyOf(Apply(t, s, TaskDone(i)), l) == TallyStep(t, s, TaskDone(i), l)
  {
    CreatorMoves(s.creators, i, Idle, l);
  }

  lemma LeaveTally(t: int, s: Pool, i: nat, l: Language)
    requires Enabled(s, Leave(i))
    ensures TallyOf(Apply(t, s, Leave(i)), l) == TallyStep(t, s, Leave(i), l)
  {
    CreatorMoves(s.creators, i, Stopped, l);
  }

  lemma PutTally(t: int, s: Pool, l: Language)
    requires Enabled(s, PutTask)
    ensures TallyOf(Apply(t, s, PutTask), l) == TallyStep(t, s, PutTask, l)
  {
    Appended(s.queue, s.manager.language, l);
  }

  lemma TakeTally(t: int, s: Pool, l: Language)
    requires Enabled(s, TakeEvent)
    ensures TallyOf(Apply(t, s, TakeEvent), l) == TallyStep(t, s, TakeEvent, l)
  {
    Dequeued(s.events, l);
  }

  lemma PublishTally(t: int, s: Pool, x: Language, l: Language)
    requires Enabled(s, JudgePublish(x))
    ensures TallyOf(Apply(t, s, JudgePublish(x)), l) == TallyStep(t, s, JudgePublish(x), l)
  {
    Appended(s.events, x, l);
  }

  lemma ManagerTally(t: int, s: Pool, a: Step, l: Language)
    requires a.BeginInitial? || a.CountUnderLock? || a.Decide? || a.SeeShutdown? || a.Interrupted?
    requires Enabled(s, a)
    ensures TallyOf(Apply(t, s, a), l) == TallyStep(t, s, a, l)
  {
  }

  lemma PopTally(t: int, s: Pool, a: Step, l: Language)
    requires a.JudgePop? || a.CleanPop?
    requires Enabled(s, a)
    ensures TallyOf(Apply(t, s, a), l) == TallyStep(t, s, a, l)
  {
  }

  lemma StepTally(t: int, s: Pool, a: Step, l: Language)
    requires Enabled(s, a)
    ensures TallyOf(Apply(t, s, a), l) == TallyStep(t, s, a, l)
  {
    match a
    case GetTask(i) => GetTally(t, s, i, l);
    case CreateFails(i) => FailTally(t, s, i, l);
    case PushWarm(i, id) => PushTally(t, s, i, id, l);
    case Decrement(i) => DecrementTally(t, s, i, l);
    case TaskDone(i) => DoneTally(t, s, i, l);
    case Leave(i) => LeaveTally(t, s, i, l);
    case PutTask => PutTally(t, s, l);
    case TakeEvent => TakeTally(t, s, l);
    case JudgePublish(x) => PublishTally(t, s, x, l);
    case JudgePop(_, _) => PopTally(t, s, a, l);
    case CleanPop(_) => PopTally(t, s, a, l);
    case _ => ManagerTally(t, s, a, l);
  }

  lemma AccountedStep(t: int, s: Pool, a: Step, l: Language)
    requires Enabled(s, a) && Accounted(s, l)
    ensures Accounted(Apply(t, s, a), l)
  {
    var y := TallyStep(t, s, a, l);
    StepTally(t, s, a, l);
    assert y.pending == y.queued + y.toPut + y.abandoned + y.building + y.undecremented;
  }

  lemma BoundedStep(t: int, bound: int, s: Pool, a: Step, l: Language)
    requires t <= bound && Enabled(s, a) && Accounted(s, l) && Bounded(t, bound, s, l)
    ensures Bounded(t, bound, Apply(t, s, a), l)
  {
    StepTally(t, s, a, l);
  }

  /** Away from the manager's thread, a pop is made up for by its unanswered event and nothing else changes
      the sum; nor does the deficit about to be added change. */
  lemma ReplenishedElsewhere(t: int, s: Pool, a: Step, l: Language)
    requires Enabled(s, a) && Replenished(t, s, l)
    requires IsCreatorStep(a) || a.JudgePop? || a.JudgePublish? || a.CleanPop?
    ensures Replenished(t, Apply(t, s, a), l)
  {
    StepTally(t, s, a, l);
    hide Warm, Queued, UnderConstruction, Undecremented, UnansweredPops, ToPut, Abandoned;
  }

  /** Counting answers the event in hand: what `pending` counts twice is pushed but not decremented. */
  lemma ReplenishedCount(t: int, s: Pool, l: Language)
    requires Enabled(s, CountUnderLock) && Accounted(s, l)
    requires Replenished(t, s, l)
    ensures Replenished(t, Apply(t, s, CountUnderLock), l)
  {
    StepTally(t, s, CountUnderLock, l);
    OccursAtMostLength(s.creators, Pushed(l));
  }

  lemma ReplenishedManager(t: int, s: Pool, a: Step, l: Language)
    requires Enabled(s, a) && Replenished(t, s, l)
    requires a.BeginInitial? || a.TakeEvent? || a.Decide? || a.PutTask? || a.SeeShutdown? || a.Interrupted?
    ensures Replenished(t, Apply(t, s, a), l)
  {
    StepTally(t, s, a, l);
    hide Warm, Queued, UnderConstruction, Undecremented, UnansweredPops, ToPut, Abandoned;
  }

  lemma ReplenishedStep(t: int, s: Pool, a: Step, l: Language)
    requires Enabled(s, a) && Accounted(s, l) && Replenished(t, s, l)
    ensures Replenished(t, Apply(t, s, a), l)
  {
    hide Apply, Enabled, Accounted, Replenished;
    if IsCreatorStep(a) || a.JudgePop? || a.JudgePublish? || a.CleanPop? {
      ReplenishedElsewhere(t, s, a, l);
    } else if a.CountUnderLock? {
      ReplenishedCount(t, s, l);
    } else {
      ReplenishedManager(t, s, a, l);
    }
  }

  lemma UnfinishedCreator(t: int, s: Pool, i: nat, a: Step)
    requires IsCreatorStep(a) && a.creator == i && Enabled(s, a) && UnfinishedExact(s)
    ensures UnfinishedExact(Apply(t, s, a))
  {
    var c := Apply(t, s, a).creators[i];
    assert s.creators[i] in multiset(s.creators);
    assert Apply(t, s, a).creators == s.creators[i := c];
  }

  lemma UnfinishedStep(t: int, s: Pool, a: Step)
    requires Enabled(s, a) && UnfinishedExact(s)
    ensures UnfinishedExact(Apply(t, s, a))
  {
    if IsCreatorStep(a) {
      UnfinishedCreator(t, s, a.creator, a);
      hide Apply, UnfinishedExact;
    }
  }

  lemma EachIdOncePop(t: int, s: Pool, l: Language, sub: nat)
    requires Enabled(s, JudgePop(l, sub)) && EachIdOnce(s)
    ensures EachIdOnce(Apply(t, s, JudgePop(l, sub)))
  {
    var ids := s.warm.At(l);
    assert ids == ButLast(ids) + [Last(ids)];
    assert LeasedIds(Apply(t, s, JudgePop(l, sub)).leases) == LeasedIds(s.leases) + [Last(ids)];
  }

  lemma EachIdOnceClean(t: int, s: Pool, l: Language)
    requires Enabled(s, CleanPop(l)) && EachIdOnce(s)
    ensures EachIdOnce(Apply(t, s, CleanPop(l)))
  {
    var ids := s.warm.At(l);
    assert ids == ButLast(ids) + [Last(ids)];
  }

  lemma EachIdOncePush(t: int, s: Pool, i: nat, id: ContainerId)
    requires Enabled(s, PushWarm(i, id)) && EachIdOnce(s)
    ensures EachIdOnce(Apply(t, s, PushWarm(i, id)))
  {
    assert multiset(s.known + {id}) == multiset(s.known) + multiset{id};
  }

  lemma EachIdOnceStep(t: int, s: Pool, a: Step)
    requires Enabled(s, a) && EachIdOnce(s)
    ensures EachIdOnce(Apply(t, s, a))
  {
    match a
    case JudgePop(l, sub) => EachIdOncePop(t, s, l, sub);
    case CleanPop(l) => EachIdOnceClean(t, s, l);
    case PushWarm(i, id) => EachIdOncePush(t, s, i, id);
    case _ =>
  }

  lemma StoppedStep(t: int, s: Pool, a: Step)
    requires Enabled(s, a) && StoppedOnlyWhenHalted(s)
    ensures StoppedOnlyWhenHalted(Apply(t, s, a)) && |Apply(t, s, a).creators| == |s.creators|
  {
  }

  // ----- whole runs -----

  /** Everything a run keeps; `bound` is the upper bound for one language. */
  ghost predicate Kept(t: int, bound: int, c: nat, s: Pool, l: Language) {
    && t <= bound && |s.creators| == c
    && Accounted(s, l) && Bounded(t, bound, s, l) && Replenished(t, s, l)
    && UnfinishedExact(s) && EachIdOnce(s) && StoppedOnlyWhenHalted(s)
  }

  lemma KeptInitially(t: int, s: Pool, l: Language)
    requires Init(s)
    ensures Kept(t, Max(t, Warm(s, l)), |s.creators|, s, l)
  {
    assert s.creators == seq(|s.creators|, i => Idle);
    AllIdleCounts(s.creators);
  }

  lemma {:induction false} AllIdleCounts(cs: seq<Creator>)
    requires forall i | 0 <= i < |cs| :: cs[i] == Idle
    ensures multiset(cs)[Idle] == |cs|
    ensures forall c :: c != Idle ==> multiset(cs)[c] == 0
  {
    if cs != [] {
      assert cs == ButLast(cs) + [Last(cs)];
      AllIdleCounts(ButLast(cs));
    }
  }

  lemma {:induction false} KeptByRun(t: int, bound: int, c: nat, s: Pool, steps: seq<Step>, s': Pool, l: Language)
    requires Kept(t, bound, c, s, l) && Run(t, s, steps, s')
    ensures Kept(t, bound, c, s', l)
    decreases |steps|
  {
    if steps != [] {
      KeptByStep(t, bound, c, s, steps[0], l);
      KeptByRun(t, bound, c, Apply(t, s, steps[0]), steps[1..], s', l);
    }
  }

  lemma KeptByStep(t: int, bound: int, c: nat, s: Pool, a: Step, l: Language)
    requires Kept(t, bound, c, s, l) && Enabled(s, a)
    ensures Kept(t, bound, c, Apply(t, s, a), l)
  {
    AccountedStep(t, s, a, l);
    BoundedStep(t, bound, s, a, l);
    ReplenishedStep(t, s, a, l);
    UnfinishedStep(t, s, a);
    EachIdOnceStep(t, s, a);
    StoppedStep(t, s, a);
  }

  lemma KeptFromInit(t: int, s0: Pool, steps: seq<Step>, s: Pool, l: Language)
    requires Init(s0) && Run(t, s0, steps, s)
    ensures Kept(t, Max(t, Warm(s0, l)), |s0.creators|, s, l)
  {
    KeptInitially(t, s0, l);
    KeptByRun(t, Max(t, Warm(s0, l)), |s0.creators|, s0, steps, s, l);
  }

  /** No interleaving overfills the pool: warm containers and containers on their way never exceed
      the threshold (or the leftovers found at the start, if those were more). */
  lemma PoolNeverOverfills(t: int, s0: Pool, steps: seq<Step>, s: Pool, l: Language)
    requires Init(s0) && Run(t, s0, steps, s)
    ensures Supply(s, l) <= Max(t, Warm(s0, l))
    ensures s.manager.Counted? && s.manager.language == l && Deficit(t, s) > 0 ==>
              Supply(s, l) + Deficit(t, s) <= Max(t, Warm(s0, l))
  {
    KeptFromInit(t, s0, steps, s, l);
  }

  /** In every state from the count of the language's first maintain_pool on, while the manager runs: supply,
      with the deficit about to be added and the pops still unanswered, never falls more than one per creator
      below the threshold, also between the length read and the decision. */
  lemma PoolStaysReplenished(t: int, s0: Pool, steps: seq<Step>, s: Pool, l: Language)
    requires Init(s0) && Run(t, s0, steps, s)
    requires Initialised(s, l) && !s.manager.Halted?
    ensures Supply(s, l) + ComingDeficit(t, s, l) + UnansweredPops(s, l) >= t - |s0.creators|
  {
    KeptFromInit(t, s0, steps, s, l);
  }

  /** No work in flight for the language and no event outstanding. */
  predicate Settled(s: Pool, l: Language) {
    && Initialised(s, l) && !s.manager.Halted? && (s.manager.Counted? ==> s.manager.language != l)
    && Queued(s, l) == ToPut(s, l) == UnderConstruction(s, l) == UnansweredPops(s, l) == 0
  }

  /** At rest the pool is between T - C and T containers. */
  lemma SettledPool(t: int, s0: Pool, steps: seq<Step>, s: Pool, l: Language)
    requires Init(s0) && Run(t, s0, steps, s) && Settled(s, l)
    ensures t - |s0.creators| <= Warm(s, l) <= Max(t, Warm(s0, l))
  {
    PoolNeverOverfills(t, s0, steps, s, l);
    PoolStaysReplenished(t, s0, steps, s, l);
  }

  /** `pending` and the queue's unfinished count are exact in every reachable state. */
  lemma AccountingIsExact(t: int, s0: Pool, steps: seq<Step>, s: Pool, l: Language)
    requires Init(s0) && Run(t, s0, steps, s)
    ensures s.pending.At(l) == Queued(s, l) + ToPut(s, l) + Abandoned(s, l) + UnderConstruction(s, l) + Undecremented(s, l)
    ensures s.unfinished == |s.queue| + |s.creators| - multiset(s.creators)[Idle] - multiset(s.creators)[Stopped]
    ensures s.pending.At(l) >= 0
  {
    KeptFromInit(t, s0, steps, s, l);
  }

  /** Every container id ever put in a warm list is in exactly one place, exactly once: a warm list, a lease,
      or the hands of the final cleaning. */
  lemma EachIdIsOnce(t: int, s0: Pool, steps: seq<Step>, s: Pool)
    requires Init(s0) && Run(t, s0, steps, s)
    ensures multiset(s.known) == IdsOf(s.warm) + multiset(LeasedIds(s.leases)) + multiset(s.cleaned)
  {
    KeptFromInit(t, s0, steps, s, Language.C);
  }

  lemma SamePlaceTwice<T>(s: seq<T>, i: nat, j: nat)
    requires i < j < |s| && s[i] == s[j]
    ensures multiset(s)[s[i]] >= 2
  {
    assert s == s[..j] + [s[j]] + s[j + 1..];
    assert s[i] in s[..j];
    assert s[i] in multiset(s[..j]);
  }

  /** Over the whole run a container is leased to at most one submission, and no leased container
      is in any warm list or was taken by the final cleaning. */
  lemma LeasesAreExclusive(t: int, s0: Pool, steps: seq<Step>, s: Pool)
    requires Init(s0) && Run(t, s0, steps, s)
    ensures forall i, j | 0 <= i < j < |s.leases| :: s.leases[i].container != s.leases[j].container
    ensures forall i, l | 0 <= i < |s.leases| :: s.leases[i].container !in s.warm.At(l)
    ensures forall i | 0 <= i < |s.leases| :: s.leases[i].container in s.known && s.leases[i].container !in s.cleaned
  {
    KeptFromInit(t, s0, steps, s, Language.C);
    var ids := LeasedIds(s.leases);
    forall i, j | 0 <= i < j < |s.leases|
      ensures s.leases[i].container != s.leases[j].container
    {
      assert multiset(s.known)[ids[i]] <= 1;
      if ids[i] == ids[j] {
        SamePlaceTwice(ids, i, j);
      }
    }
    forall i | 0 <= i < |s.leases|
      ensures forall l :: s.leases[i].container !in s.warm.At(l)
      ensures s.leases[i].container in s.known && s.leases[i].container !in s.cleaned
    {
      var id := ids[i];
      assert id in multiset(ids);
      assert multiset(s.known)[id] >= 1;
      assert IdsOf(s.warm)[id] == 0 && multiset(s.cleaned)[id] == 0;
      forall l ensures id !in s.warm.At(l) { }
    }
  }
}
