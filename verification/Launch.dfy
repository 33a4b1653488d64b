/** Launching an attempt: the controller saves a snapshot, moves the task and creates
    one Secret and one Job, and may stop after any transaction or cluster call. A
    later reconciliation always finishes the launch, without duplicating anything. */
module Launch {
  import opened Wrappers
  import opened TaskState
  import opened Rows
  import opened Transactions
  import JobNames

  // ---------------------------------------------------------------------- the world

  /** The ownership labels of a cluster object. */
  datatype Owner = Owner(task: string, attempt: string, number: nat)

  datatype Job = Job(owner: Owner, active: bool)

  /** The durable rows of a task and its current attempt, and the cluster's objects by name. */
  datatype World = World(v: View, registered: bool, secrets: map<string, Owner>, jobs: map<string, Job>)

  /** What launching an attempt needs to know: its labels, its immutable inputs, and the
      deterministic names of its objects. */
  datatype Target = Target(owner: Owner, manifest: Manifest, jobName: string, secretName: string)

  function SecretName(jobName: string, hash: string -> string): string {
    JobNames.BoundedName(jobName + "-task", jobName + "-task", hash)
  }

  function TargetOf(owner: Owner, m: Manifest, hash: string -> string): Target {
    var name := JobNames.Name(owner.task, owner.number, hash);
    Target(owner, m, name, SecretName(name, hash))
  }

  // ------------------------------------------------------------- interruptible programs

  /** How far a program got: still running with so many effects left, stopped by a
      crash, returned early, or failed. A negative budget never runs out. */
  datatype Out = Going(w: World, budget: int) | Stopped(w: World) | Returned(w: World) | Errored(w: World, e: Error)

  /** One transaction or cluster call. */
  function Effect(w: World, budget: int, tx: Result<World>): Out {
    if budget == 0 then Stopped(w)
    else match tx
         case Ok(next) => Going(next, budget - 1)
         case Err(e) => Errored(w, e)
  }

  function MoveTo(w: World, from: State, to: State): Result<World> {
    match Transition(w.v, from, to, NoChange)
    case Ok(v) => Ok(w.(v := v))
    case Err(e) => Err(e)
  }

  function SaveSnapshot(w: World, budget: int, g: Target): Out {
    // An attempt that already has a snapshot keeps it.
    if w.v.attempt.manifest.Some? then Going(w, budget)
    else
      match SaveAttemptSnapshot(w.v.attempt, g.manifest)
      case Ok(a) => Effect(w, budget, Ok(w.(v := w.v.(attempt := a))))
      case Err(e) => Errored(w, e)
  }

  function Advance(w: World, budget: int, from: State, to: State): Out {
    if w.v.task.state == from then Effect(w, budget, MoveTo(w, from, to)) else Going(w, budget)
  }

  /** `currentResourceIntent`. */
  predicate Intended(w: World) {
    !w.v.task.cancel && !Terminal(w.v.task.state)
  }

  /** Get, create if absent, and check the labels. */
  function EnsureSecret(w: World, budget: int, g: Target): Out {
    if g.secretName !in w.secrets then Effect(w, budget, Ok(w.(secrets := w.secrets[g.secretName := g.owner])))
    else if w.secrets[g.secretName] != g.owner then Errored(w, Conflict)
    else Going(w, budget)
  }

  function EnsureJob(w: World, budget: int, g: Target): Out {
    if g.jobName !in w.jobs then Effect(w, budget, Ok(w.(jobs := w.jobs[g.jobName := Job(g.owner, false)])))
    else if w.jobs[g.jobName].owner != g.owner then Errored(w, Conflict)
    else Going(w, budget)
  }

  /** `ensureAttemptResources`. */
  function EnsureResources(w: World, budget: int, g: Target): Out {
    if !Intended(w) then Returned(w)
    else
      match SaveSnapshot(w, budget, g)
      case Going(w1, b1) =>
        (match EnsureSecret(w1, b1, g)
         case Going(w2, b2) =>
           (match Effect(w2, b2, Ok(w2.(registered := true)))
            case Going(w3, b3) => if !Intended(w3) then Returned(w3) else EnsureJob(w3, b3, g)
            case out => out)
         case out => out)
      case out => out
  }

  /** `completeAttemptResources`. */
  function Complete(w: World, budget: int): Out {
    if !Intended(w) then Returned(w)
    else if AtOrAfter(w.v.task.state, JobPending) then Returned(w)
    else if w.v.task.state != CreatingJob then Errored(w, Conflict)
    else Effect(w, budget, MoveTo(w, CreatingJob, JobPending))
  }

  function EnsureAndComplete(w: World, budget: int, g: Target): Out {
    match EnsureResources(w, budget, g)
    case Going(w1, b1) => Complete(w1, b1)
    case out => out
  }

  /** `CreateTask` after the task was inserted. */
  function CreateTask(w: World, budget: int, g: Target): Out {
    if !Intended(w) then Returned(w)
    else
      match SaveSnapshot(w, budget, g)
      case Going(w1, b1) =>
        if AtOrAfter(w1.v.task.state, JobPending) then Returned(w1)
        else
          (match Advance(w1, b1, Received, Queued)
           case Going(w2, b2) =>
             (match Advance(w2, b2, Queued, CreatingJob)
              case Going(w3, b3) => if w3.v.task.state != CreatingJob then Errored(w3, Conflict) else EnsureAndComplete(w3, b3, g)
              case out => out)
           case out => out)
      case out => out
  }

  /** `startAttempt`, for a retried or followed-up attempt. */
  function StartAttempt(w: World, budget: int, g: Target): Out {
    if !Intended(w) then Returned(w)
    else
      match Advance(w, budget, Queued, CreatingJob)
      case Going(w1, b1) => if w1.v.task.state != CreatingJob then Returned(w1) else EnsureAndComplete(w1, b1, g)
      case out => out
  }

  predicate WorkerResourceState(s: State) {
    s == CreatingJob || s == JobPending || s == Running || s == AgentRunning || s == Validating
  }

  /** `recoverTo` RUNNING. */
  function RecoverRunning(w: World, budget: int): Out {
    match Advance(w, budget, JobPending, Running)
    case Going(w1, b1) => Returned(w1)
    case out => out
  }

  /** `reconcileTask` for a task without cancellation or pending worker events, whose Job
      has not ended. `recovered` decides only the wording of the audit observation. */
  function Reconcile(w: World, budget: int, g: Target): Out {
    match Advance(w, budget, Received, Queued)
    case Going(w1, b1) =>
      (match Advance(w1, b1, Queued, CreatingJob)
       case Going(w2, b2) =>
         if !WorkerResourceState(w2.v.task.state) then Returned(w2)
         else
           (match EnsureResources(w2, b2, g)
            case Going(w3, b3) =>
              (match Observe(w2, w3, b3)
               case Going(w4, b4) =>
                 (match Pend(w4, b4)
                  case Going(w5, b5) => Follow(w5, b5, g)
                  case out => out)
               case out => out)
            case out => out)
       case out => out)
    case out => out
  }

  /** Recreated or adopted objects are recorded in the audit log. */
  function Observe(before: World, w: World, budget: int): Out {
    if w.secrets != before.secrets || w.jobs != before.jobs || w.v.task.state == CreatingJob
    then Effect(w, budget, Ok(w.(v := RecordObservation(w.v)))) else Going(w, budget)
  }

  function Pend(w: World, budget: int): Out {
    if w.v.task.state != CreatingJob then Going(w, budget)
    else match Complete(w, budget)
         case Returned(w1) => Going(w1, budget)
         case out => out
  }

  /** An active Job means the attempt is running. */
  function Follow(w: World, budget: int, g: Target): Out {
    if g.jobName !in w.jobs then Errored(w, NotFound)
    else if w.jobs[g.jobName].owner != g.owner then Errored(w, Conflict)
    else if w.jobs[g.jobName].active && !AtOrAfter(w.v.task.state, Running) then RecoverRunning(w, budget)
    else Returned(w)
  }

  // -------------------------------------------------------------------- the launch

  predicate Launching(s: State) {
    s == Received || s == Queued || s == CreatingJob || s == JobPending || s == Running
  }

  /** A launch under way: only this attempt's own objects carry its names or its labels,
      and from JOB_PENDING on both exist. */
  ghost predicate UnderWay(w: World, g: Target) {
    && Launching(w.v.task.state) && !w.v.task.cancel && w.v.attempt.state == w.v.task.state
    && (g.secretName in w.secrets ==> w.secrets[g.secretName] == g.owner)
    && (g.jobName in w.jobs ==> w.jobs[g.jobName].owner == g.owner)
    && (forall n | n in w.secrets && w.secrets[n] == g.owner :: n == g.secretName)
    && (forall n | n in w.jobs && w.jobs[n].owner == g.owner :: n == g.jobName)
    && (AtOrAfter(w.v.task.state, JobPending) ==> g.secretName in w.secrets && g.jobName in w.jobs && w.registered && w.v.attempt.manifest.Some?)
    && (g.jobName in w.jobs ==> g.secretName in w.secrets && w.registered)
  }

  /** Exactly one Secret and one Job carry the attempt's labels. */
  ghost predicate OneOfEach(w: World, g: Target) {
    && (set n | n in w.secrets && w.secrets[n] == g.owner) == {g.secretName}
    && (set n | n in w.jobs && w.jobs[n].owner == g.owner) == {g.jobName}
  }

  /** The launch is finished as far as it can be: exactly one Secret and one Job carry
      the attempt's labels, and an active Job means RUNNING. */
  ghost predicate Launched(w: World, g: Target) {
    && UnderWay(w, g) && OneOfEach(w, g)
    && w.v.attempt.manifest.Some? && w.registered
    && AtOrAfter(w.v.task.state, JobPending) && g.jobName in w.jobs && (w.jobs[g.jobName].active ==> w.v.task.state == Running)
  }

  lemma MoveFrom(w: World, from: State, to: State)
    requires w.v.task.state == from && !w.v.task.cancel && Launching(from) && Index(to) == Index(from) + 1
    ensures var tx := MoveTo(w, from, to);
            && tx.Ok? && tx.value == w.(v := tx.value.v)
            && tx.value.v.task.state == to && tx.value.v.attempt == w.v.attempt.(state := to) && !tx.value.v.task.cancel
  {
    CanTransitionIsAdjacency(from, to);
  }

  /** Whatever a program returns, the launch is still under way. */
  ghost predicate Kept(out: Out, g: Target) {
    UnderWay(out.w, g) && !out.Errored?
  }

  lemma AdvanceKeeps(w: World, budget: int, from: State, to: State, g: Target)
    requires UnderWay(w, g) && Index(to) == Index(from) + 1 && Launching(from) && Launching(to) && to != JobPending
    ensures var out := Advance(w, budget, from, to);
            && Kept(out, g) && !out.Returned?
            && (out.Going? ==> out.w == w.(v := out.w.v) && out.w.v.attempt.manifest == w.v.attempt.manifest
                               && out.w.v.task.state == if w.v.task.state == from then to else w.v.task.state)
            && (budget < 0 ==> out.Going? && out.budget < 0)
  {
    hide MoveTo;
    if w.v.task.state == from {
      MoveFrom(w, from, to);
    }
  }

  predicate JobIdle(w: World, g: Target) {
    g.jobName in w.jobs ==> !w.jobs[g.jobName].active
  }

  /** The attempt is not RUNNING and its Job, if there is one, is not active. */
  predicate Idle(w: World, g: Target) {
    w.v.task.state != Running && JobIdle(w, g)
  }

  lemma SecretKeeps(w: World, budget: int, g: Target)
    requires UnderWay(w, g)
    ensures var out := EnsureSecret(w, budget, g);
            Kept(out, g) && !out.Returned? && out.w == w.(secrets := out.w.secrets)
            && (out.Going? ==> out.w.secrets == w.secrets[g.secretName := g.owner]) && (budget < 0 ==> out.Going? && out.budget < 0)
  {
  }

  /** The cluster's Jobs with the attempt's own, which starts out idle. */
  function WithJob(w: World, g: Target): map<string, Job> {
    if g.jobName in w.jobs then w.jobs else w.jobs[g.jobName := Job(g.owner, false)]
  }

  lemma JobKeeps(w: World, budget: int, g: Target)
    requires UnderWay(w, g) && g.secretName in w.secrets && w.registered
    ensures var out := EnsureJob(w, budget, g);
            Kept(out, g) && !out.Returned? && out.w == w.(jobs := out.w.jobs)
            && (out.Going? ==> out.w.jobs == WithJob(w, g)) && (budget < 0 ==> out.Going? && out.budget < 0)
            && (JobIdle(w, g) ==> JobIdle(out.w, g))
  {
  }

  /** The immutable inputs of the attempt: those it has, or the ones just built. */
  function SnapshotOf(w: World, g: Target): Option<Manifest> {
    if w.v.attempt.manifest.Some? then w.v.attempt.manifest else Some(g.manifest)
  }

  lemma SnapshotKeeps(w: World, budget: int, g: Target)
    requires UnderWay(w, g)
    ensures var out := SaveSnapshot(w, budget, g);
            Kept(out, g) && !out.Returned? && out.w == w.(v := out.w.v) && out.w.v.task == w.v.task
            && (out.Going? ==> out.w.v.attempt.manifest == SnapshotOf(w, g)) && (budget < 0 ==> out.Going? && out.budget < 0)
  {
  }

  lemma RegisterKeeps(w: World, budget: int, g: Target)
    requires UnderWay(w, g)
    ensures var out := Effect(w, budget, Ok(w.(registered := true)));
            Kept(out, g) && !out.Returned? && out.w == w.(registered := out.w.registered)
            && (out.Going? ==> out.w.registered) && (budget < 0 ==> out.Going? && out.budget < 0)
  {
  }

  /** The attempt's snapshot is saved, its Secret and Job exist and are registered, and no
      other object of the cluster changed. */
  predicate Ensured(w: World, now: World, g: Target) {
    && now.v.attempt.manifest == SnapshotOf(w, g) && now.registered
    && now.secrets == w.secrets[g.secretName := g.owner] && now.jobs == WithJob(w, g)
  }

  lemma EnsureKeeps(w: World, budget: int, g: Target)
    requires UnderWay(w, g)
    ensures var out := EnsureResources(w, budget, g);
            && Kept(out, g) && !out.Returned?
            && (out.Going? ==> Ensured(w, out.w, g) && out.w.v.task == w.v.task)
            && (budget < 0 ==> out.Going? && out.budget < 0)
            && (JobIdle(w, g) ==> JobIdle(out.w, g))
  {
    hide UnderWay, EnsureSecret, EnsureJob, SaveSnapshot, Effect;
    IsLaunching(w, g);
    SnapshotKeeps(w, budget, g);
    var o1 := SaveSnapshot(w, budget, g);
    if o1.Going? {
      SecretKeeps(o1.w, o1.budget, g);
      var o2 := EnsureSecret(o1.w, o1.budget, g);
      if o2.Going? {
        RegisterKeeps(o2.w, o2.budget, g);
        var o3 := Effect(o2.w, o2.budget, Ok(o2.w.(registered := true)));
        if o3.Going? {
          JobKeeps(o3.w, o3.budget, g);
        }
      }
    }
  }

  lemma CompleteKeeps(w: World, budget: int, g: Target)
    requires UnderWay(w, g) && (w.v.task.state == CreatingJob || AtOrAfter(w.v.task.state, JobPending))
    requires g.secretName in w.secrets && g.jobName in w.jobs && w.registered && w.v.attempt.manifest.Some?
    ensures var out := Complete(w, budget);
            && Kept(out, g) && (out.Returned? ==> out.w == w && AtOrAfter(w.v.task.state, JobPending))
            && (out.Going? ==> out.w == w.(v := out.w.v) && out.w.v.task.state == JobPending && out.w.v.attempt.manifest == w.v.attempt.manifest)
            && (budget < 0 ==> !out.Stopped? && (out.Going? ==> out.budget < 0))
  {
    hide MoveTo;
    if w.v.task.state == CreatingJob {
      MoveFrom(w, CreatingJob, JobPending);
    }
  }

  lemma EnsureAndCompleteKeeps(w: World, budget: int, g: Target)
    requires UnderWay(w, g) && w.v.task.state == CreatingJob
    ensures Kept(EnsureAndComplete(w, budget, g), g)
    ensures budget < 0 ==> var out := EnsureAndComplete(w, budget, g); out.Going? && out.w.v.task.state == JobPending && Ensured(w, out.w, g)
  {
    hide EnsureResources, Complete;
    EnsureKeeps(w, budget, g);
    var out := EnsureResources(w, budget, g);
    if out.Going? {
      CompleteKeeps(out.w, out.budget, g);
    }
  }

  lemma CreateTaskKeeps(w: World, budget: int, g: Target)
    requires UnderWay(w, g)
    ensures Kept(CreateTask(w, budget, g), g)
    ensures budget < 0 && !AtOrAfter(w.v.task.state, JobPending) ==>
              var out := CreateTask(w, budget, g); out.Going? && out.w.v.task.state == JobPending && Ensured(w, out.w, g)
  {
    hide SaveSnapshot, Advance, EnsureAndComplete, UnderWay;
    IsLaunching(w, g);
    SnapshotKeeps(w, budget, g);
    var o1 := SaveSnapshot(w, budget, g);
    if o1.Going? {
      AdvanceKeeps(o1.w, o1.budget, Received, Queued, g);
      var o2 := Advance(o1.w, o1.budget, Received, Queued);
      if o2.Going? {
        AdvanceKeeps(o2.w, o2.budget, Queued, CreatingJob, g);
        var o3 := Advance(o2.w, o2.budget, Queued, CreatingJob);
        if o3.Going? && o3.w.v.task.state == CreatingJob {
          EnsureAndCompleteKeeps(o3.w, o3.budget, g);
        }
      }
    }
  }

  lemma IsLaunching(w: World, g: Target)
    requires UnderWay(w, g)
    ensures Launching(w.v.task.state) && !w.v.task.cancel
  {
  }

  lemma StartAttemptKeeps(w: World, budget: int, g: Target)
    requires UnderWay(w, g)
    ensures Kept(StartAttempt(w, budget, g), g)
    ensures budget < 0 && (w.v.task.state == Queued || w.v.task.state == CreatingJob) ==>
              var out := StartAttempt(w, budget, g); out.Going? && out.w.v.task.state == JobPending && Ensured(w, out.w, g)
  {
    hide Advance, EnsureAndComplete, UnderWay;
    IsLaunching(w, g);
    AdvanceKeeps(w, budget, Queued, CreatingJob, g);
    var o1 := Advance(w, budget, Queued, CreatingJob);
    if o1.Going? && o1.w.v.task.state == CreatingJob {
      EnsureAndCompleteKeeps(o1.w, o1.budget, g);
    } else {
      assert UnderWay(w, g);
    }
  }

  /** The second half of a reconciliation, from existing objects. */
  lemma FinishKeeps(before: World, w: World, budget: int, g: Target)
    requires UnderWay(w, g) && (w.v.task.state == CreatingJob || AtOrAfter(w.v.task.state, JobPending))
    requires g.secretName in w.secrets && g.jobName in w.jobs && w.registered && w.v.attempt.manifest.Some?
    ensures var o4 := Observe(before, w, budget);
            var o5 := if o4.Going? then Pend(o4.w, o4.budget) else o4;
            var o6 := if o5.Going? then Follow(o5.w, o5.budget, g) else o5;
            Kept(o6, g) && (budget < 0 ==> o6.Returned? && Launched(o6.w, g) && (!w.jobs[g.jobName].active ==> o6.w.v.task.state == if w.v.task.state == Running then Running else JobPending))
  {
    hide MoveTo, Complete;
    var o4 := Observe(before, w, budget);
    if o4.Going? {
      assert UnderWay(o4.w, g);
      CompleteKeeps(o4.w, o4.budget, g);
      var o5 := Pend(o4.w, o4.budget);
      if o5.Going? {
        AdvanceKeeps(o5.w, o5.budget, JobPending, Running, g);
      }
    }
  }

  lemma ReconcileKeeps(w: World, budget: int, g: Target)
    requires UnderWay(w, g)
    ensures Kept(Reconcile(w, budget, g), g)
    ensures budget < 0 ==> Reconcile(w, budget, g).Returned? && Launched(Reconcile(w, budget, g).w, g)
    ensures budget < 0 && Idle(w, g) ==> Reconcile(w, budget, g).w.v.task.state == JobPending
  {
    hide Advance, EnsureResources, Observe, Pend, Follow, Launched;
    AdvanceKeeps(w, budget, Received, Queued, g);
    var o1 := Advance(w, budget, Received, Queued);
    if o1.Going? {
      AdvanceKeeps(o1.w, o1.budget, Queued, CreatingJob, g);
      var o2 := Advance(o1.w, o1.budget, Queued, CreatingJob);
      if o2.Going? {
        EnsureKeeps(o2.w, o2.budget, g);
        var o3 := EnsureResources(o2.w, o2.budget, g);
        if o3.Going? {
          FinishKeeps(o2.w, o3.w, o3.budget, g);
        }
      }
    }
  }

  // ------------------------------------------------------------------- main results

  datatype Program = CreateProgram | StartProgram | ReconcileProgram

  /** One interrupted program, after which the cluster may start or stop the Job's Pod. */
  datatype Cut = Cut(program: Program, budget: int, active: bool)

  function RunProgram(p: Program, w: World, budget: int, g: Target): Out {
    match p
    case CreateProgram => CreateTask(w, budget, g)
    case StartProgram => StartAttempt(w, budget, g)
    case ReconcileProgram => Reconcile(w, budget, g)
  }

  function SetActive(w: World, g: Target, active: bool): World {
    if g.jobName in w.jobs then w.(jobs := w.jobs[g.jobName := w.jobs[g.jobName].(active := active)]) else w
  }

  function RunCuts(w: World, cuts: seq<Cut>, g: Target): World
    decreases |cuts|
  {
    if cuts == [] then w
    else RunCuts(SetActive(RunProgram(cuts[0].program, w, cuts[0].budget, g).w, g, cuts[0].active), cuts[1..], g)
  }

  lemma ProgramKeeps(p: Program, w: World, budget: int, g: Target)
    requires UnderWay(w, g)
    ensures Kept(RunProgram(p, w, budget, g), g)
  {
    hide CreateTask, StartAttempt, Reconcile, Launched;
    match p {
      case CreateProgram => CreateTaskKeeps(w, budget, g);
      case StartProgram => StartAttemptKeeps(w, budget, g);
      case ReconcileProgram => ReconcileKeeps(w, budget, g);
    }
  }

  lemma {:induction false} CutsKeep(w: World, cuts: seq<Cut>, g: Target)
    requires UnderWay(w, g)
    ensures UnderWay(RunCuts(w, cuts, g), g)
    decreases |cuts|
  {
    if cuts != [] {
      ProgramKeeps(cuts[0].program, w, cuts[0].budget, g);
      var out := RunProgram(cuts[0].program, w, cuts[0].budget, g);
      hide RunProgram;
      assert UnderWay(SetActive(out.w, g, cuts[0].active), g);
      CutsKeep(SetActive(out.w, g, cuts[0].active), cuts[1..], g);
    }
  }

  /** Creating or starting an attempt that nothing cuts short launches it by itself: the
      task is in JOB_PENDING, the attempt has its snapshot, exactly one Secret and one Job,
      both registered, and nothing else in the cluster changed. */
  lemma UncutProgramLaunches(p: Program, w: World, budget: int, g: Target)
    requires UnderWay(w, g) && budget < 0 && !p.ReconcileProgram?
    requires w.v.task.state == Queued || w.v.task.state == CreatingJob || (p.CreateProgram? && w.v.task.state == Received)
    ensures var out := RunProgram(p, w, budget, g);
            && out.Going? && out.w.v.task.state == JobPending && !out.w.v.task.cancel && OneOfEach(out.w, g)
            && out.w.registered && out.w.v.attempt.manifest == SnapshotOf(w, g)
            && out.w.secrets == w.secrets[g.secretName := g.owner] && out.w.jobs == WithJob(w, g)
  {
    hide CreateTask, StartAttempt, SnapshotOf;
    if p.CreateProgram? {
      CreateTaskKeeps(w, budget, g);
    } else {
      StartAttemptKeeps(w, budget, g);
    }
  }

  /** A cancelled or finished task is not launched: nothing changes. */
  lemma UnwantedLaunchDoesNothing(w: World, budget: int, g: Target)
    requires w.v.task.cancel || Terminal(w.v.task.state)
    ensures CreateTask(w, budget, g) == StartAttempt(w, budget, g) == EnsureResources(w, budget, g) == Complete(w, budget) == Returned(w)
  {
  }

  /** Objects with other labels are never taken over: the launch stops with an error
      before it creates a Job or moves the task. */
  lemma ForeignObjectsStopTheLaunch(w: World, budget: int, g: Target)
    requires budget < 0 && Intended(w) && w.v.task.state == CreatingJob
    requires (g.secretName in w.secrets && w.secrets[g.secretName] != g.owner) || (g.jobName in w.jobs && w.jobs[g.jobName].owner != g.owner)
    ensures var out := EnsureAndComplete(w, budget, g);
            && out == Errored(out.w, Conflict) && out.w.jobs == w.jobs && out.w.v.task == w.v.task
            && (g.secretName in w.secrets ==> out.w.secrets == w.secrets)
  {
  }

  /** A new or reset attempt: nothing of it exists in the cluster yet. */
  ghost predicate Fresh(w: World, g: Target) {
    && (w.v.task.state == Received || w.v.task.state == Queued) && !w.v.task.cancel && w.v.attempt.state == w.v.task.state
    && g.secretName !in w.secrets && g.jobName !in w.jobs
    && (forall n | n in w.secrets :: w.secrets[n] != g.owner) && (forall n | n in w.jobs :: w.jobs[n].owner != g.owner)
  }

  /** However often creating, starting or reconciling the attempt is cut, anywhere, one
      reconciliation that runs through finishes the launch: JOB_PENDING, or RUNNING if
      the Job is active, with exactly one Secret and one Job of the attempt - whose
      names are DNS labels. */
  lemma LaunchConverges(w: World, cuts: seq<Cut>, owner: Owner, m: Manifest, hash: string -> string)
    requires Fresh(w, TargetOf(owner, m, hash))
    requires forall s :: JobNames.IsShortHash(hash(s))
    ensures var g := TargetOf(owner, m, hash);
            var out := Reconcile(RunCuts(w, cuts, g), UNLIMITED, g);
            && out.Returned? && Launched(out.w, g)
            && (Idle(RunCuts(w, cuts, g), g) ==> out.w.v.task.state == JobPending)
            && JobNames.DnsLabel(g.jobName) && JobNames.DnsLabel(g.secretName)
  {
    var g := TargetOf(owner, m, hash);
    hide Reconcile, RunCuts, Launched;
    CutsKeep(w, cuts, g);
    ReconcileKeeps(RunCuts(w, cuts, g), UNLIMITED, g);
    JobNames.NameIsLabel(owner.task, owner.number, hash);
    JobNames.BoundedNameIsLabel(g.jobName + "-task", g.jobName + "-task", hash);
  }

  const UNLIMITED := -1

  /** A launch that reached JOB_PENDING stays where it is while its Job is idle, however
      often it is reconciled. */
  lemma ReconcileIsStable(w: World, g: Target)
    requires Launched(w, g) && !w.jobs[g.jobName].active
    ensures var out := Reconcile(w, UNLIMITED, g);
            out.Returned? && out.w.secrets == w.secrets && out.w.jobs == w.jobs && out.w.v == w.v
  {
  }

  /** Attempts of canonical tasks never compete for a Job name. */
  lemma JobsAreApart(a: Owner, b: Owner, m: Manifest, n: Manifest, hash: string -> string)
    requires JobNames.CanonicalUntruncated(a.task, a.number) && JobNames.CanonicalUntruncated(b.task, b.number)
    requires TargetOf(a, m, hash).jobName == TargetOf(b, n, hash).jobName
    ensures a.task == b.task && a.number == b.number
  {
    JobNames.NameIsInjective(a.task, a.number, b.task, b.number, hash);
  }
}
