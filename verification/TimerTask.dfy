/** Timer tasks with per-CPU registrations: core/async.cc as a state machine over interleaved steps.

    A timer_task (a master) registers a per-CPU task with the worker of the CPU it is rescheduled on. Calls on a master
    hold its mutex; the worker moves a task from ACTIVE to FIRING without it. A serial_timer_task counts what is
    scheduled on top of its timer_task; every master here is one.
  */
module TimerTask {

  import opened Common

  datatype TaskState = ACTIVE | FIRING | RELEASED

  /** Where a per-CPU task is: in a master's registrations, taken off them by a call on m or by worker w and about to be
      pushed to the released queue, in that queue, or taken from it by a reschedule() of m. */
  datatype Where = InReg | Limbo(m: nat) | LimboW(w: nat) | InReleased | InHand(m: nat)

  /** A per-CPU task. `queued`: its own note of being in the worker's timer set. `reg`: the number of its latest
      registration, -1 for none. */
  datatype Task = Task(state: TaskState, master: nat, worker: nat, queued: bool, reg: int, at: Where)

  /** The call that holds a master's mutex. AtCancel: about to cancel what is pending. AtFree(t): about to push a
      cancelled task. AtBorrow(w), AtArm(t), AtInsert(t): the rest of reschedule() on CPU w. AtRevoke(todo): the
      destructor's pass over the registrations. AtRevokeFree(t, todo): about to push a revoked task. */
  datatype Call =
    | Unlocked
    | AtCancel(again: Option<nat>) | AtFree(t: nat, again: Option<nat>)
    | AtBorrow(w: nat) | AtArm(t: nat) | AtInsert(t: nat)
    | AtRevoke(todo: set<nat>) | AtRevokeFree(t: nat, todo: set<nat>)
    | ByWorker(w: nat)

  /** `active`: _active_task. `revoked`: the destructor has passed over all registrations and waits for them to drain.
      `gone`: the destructor has returned. `n`, `on`: _n_scheduled and _active of the serial task. `arms`, `wins`: how
      often it was rescheduled and how often try_fire() succeeded. `wakes`: how often _all_done was woken. */
  datatype Master = Master(
    call: Call, active: Option<nat>, regs: set<nat>, terminating: bool, revoked: bool, gone: bool,
    n: int, on: bool, arms: nat, wins: nat, wakes: nat)

  /** A worker thread. AtCas: about to turn ACTIVE to FIRING. Locking: about to take the master's mutex. Checking: has
      it. Calling, Called: running the callback, before and after its try_fire(). Ending: has the mutex again.
      Pushing: about to push the task to its released queue. */
  datatype Pc =
    | Idle | AtCas(t: nat) | Locking(t: nat, m: nat) | Checking(t: nat, m: nat) | Calling(t: nat, m: nat)
    | Called(t: nat, m: nat) | Ending(t: nat, m: nat) | Pushing(t: nat, m: nat)

  /** `released`, `timers`: per worker, the queue of released tasks and the timer set. `serial`: registrations so far.
      `started`: registrations whose callback was started. `cancelled`: registrations for which cancel() returned
      true. */
  datatype State = State(
    tasks: seq<Task>, masters: seq<Master>, workers: seq<Pc>, released: seq<multiset<nat>>, timers: seq<set<nat>>,
    serial: nat, started: set<int>, cancelled: set<int>, crashed: bool)

  datatype Move =
    | BeginCancel(m: nat) | BeginReschedule(m: nat, w: nat) | BeginDestroy(m: nat)
    | Continue(m: nat, pick: Option<nat>)
    | Drained(m: nat)
    | Expire(w: nat, t: nat)
    | Work(w: nat)

  // ----------------------------------------------------------------------------------------
  // Steps
  // ----------------------------------------------------------------------------------------

  function SetTask(s: State, t: nat, x: Task): (s': State)
    requires t < |s.tasks|
  {
    s.(tasks := s.tasks[t := x])
  }

  function SetMaster(s: State, m: nat, x: Master): (s': State)
    requires m < |s.masters|
  {
    s.(masters := s.masters[m := x])
  }

  function Crash(s: State): (s': State) { s.(crashed := true) }

  /** What a call does after its cancel(). */
  function AfterCancel(again: Option<nat>): (c: Call)
  {
    if again.Some? then AtBorrow(again.value) else Unlocked
  }

  /** cancel(): revoke the pending registration if it is not firing already. */
  function CancelStep(s: State, m: nat): (s': State)
    requires m < |s.masters| && s.masters[m].call.AtCancel?
  {
    var x := s.masters[m];
    if x.active.None? || x.active.value >= |s.tasks| then SetMaster(s, m, x.(call := AfterCancel(x.call.again)))
    else
      var t := x.active.value;
      var y := s.tasks[t];
      if y.state.ACTIVE?
      then SetMaster(SetTask(s, t, y.(state := RELEASED, at := Limbo(m))), m,
                     x.(call := AtFree(t, x.call.again), regs := x.regs - {t}))
      else SetMaster(s, m, x.(call := AfterCancel(x.call.again), active := None, n := x.n - 1))
           .(cancelled := s.cancelled + {y.reg})
  }

  /** async_worker::free(). */
  function Release(s: State, t: nat): (s': State)
    requires t < |s.tasks| && s.tasks[t].worker < |s.released|
  {
    var y := s.tasks[t];
    SetTask(s, t, y.(at := InReleased)).(released := s.released[y.worker := s.released[y.worker] + multiset{t}])
  }

  /** The end of a cancel() that revoked a registration. */
  function FreeStep(s: State, m: nat): (s': State)
    requires m < |s.masters| && s.masters[m].call.AtFree?
    requires s.masters[m].call.t < |s.tasks| && s.tasks[s.masters[m].call.t].worker < |s.released|
  {
    var x := s.masters[m];
    var t := x.call.t;
    SetMaster(Release(s, t), m, x.(call := AfterCancel(x.call.again), active := None, n := x.n - 1))
    .(cancelled := s.cancelled + {s.tasks[t].reg})
  }

  /** borrow_task() on worker w: a released task, taken out of the timer set if it is still there, or a new one. */
  function BorrowStep(s: State, m: nat, pick: Option<nat>): (s': State)
    requires m < |s.masters| && s.masters[m].call.AtBorrow? && s.masters[m].call.w < |s.released|
    requires s.masters[m].call.w < |s.timers| && (pick.Some? ==> pick.value < |s.tasks|)
  {
    var x := s.masters[m];
    var w := x.call.w;
    match pick
    case Some(t) =>
      SetMaster(SetTask(s, t, s.tasks[t].(queued := false, at := InHand(m))), m, x.(call := AtArm(t)))
      .(released := s.released[w := s.released[w] - multiset{t}],
        timers := if s.tasks[t].queued then s.timers[w := s.timers[w] - {t}] else s.timers)
    case None =>
      SetMaster(s, m, x.(call := AtArm(|s.tasks|))).(tasks := s.tasks + [Task(ACTIVE, m, w, false, -1, InHand(m))])
  }

  /** reschedule(): the new registration. */
  function ArmStep(s: State, m: nat): (s': State)
    requires m < |s.masters| && s.masters[m].call.AtArm? && s.masters[m].call.t < |s.tasks|
  {
    var x := s.masters[m];
    var t := x.call.t;
    SetMaster(SetTask(s, t, s.tasks[t].(state := ACTIVE, master := m, reg := s.serial, at := InReg)), m,
              x.(call := AtInsert(t), active := Some(t), regs := x.regs + {t}, n := x.n + 1, on := true,
                 arms := x.arms + 1))
    .(serial := s.serial + 1)
  }

  function InsertStep(s: State, m: nat): (s': State)
    requires m < |s.masters| && s.masters[m].call.AtInsert? && s.masters[m].call.t < |s.tasks|
    requires s.tasks[s.masters[m].call.t].worker < |s.timers|
  {
    var t := s.masters[m].call.t;
    var w := s.tasks[t].worker;
    if s.tasks[t].queued then Crash(s)
    else SetMaster(SetTask(s, t, s.tasks[t].(queued := true)), m, s.masters[m].(call := Unlocked))
         .(timers := s.timers[w := s.timers[w] + {t}])
  }

  /** One registration in the destructor's pass, or the end of the pass. */
  function RevokeStep(s: State, m: nat, pick: Option<nat>): (s': State)
    requires m < |s.masters| && s.masters[m].call.AtRevoke? && (pick.Some? ==> pick.value < |s.tasks|)
  {
    var x := s.masters[m];
    match pick
    case None => SetMaster(s, m, x.(call := Unlocked, revoked := true))
    case Some(t) =>
      var todo := x.call.todo - {t};
      if s.tasks[t].state.ACTIVE?
      then SetMaster(SetTask(s, t, s.tasks[t].(state := RELEASED, at := Limbo(m))), m,
                     x.(call := AtRevokeFree(t, todo), regs := x.regs - {t}))
      else SetMaster(s, m, x.(call := AtRevoke(todo)))
  }

  function RevokeFreeStep(s: State, m: nat): (s': State)
    requires m < |s.masters| && s.masters[m].call.AtRevokeFree?
    requires s.masters[m].call.t < |s.tasks| && s.tasks[s.masters[m].call.t].worker < |s.released|
  {
    var x := s.masters[m];
    SetMaster(Release(s, x.call.t), m, x.(call := AtRevoke(x.call.todo)))
  }

  /** A worker's step outside its timer set. */
  function WorkStep(s: State, w: nat): (s': State)
    requires w < |s.workers| && WorkReady(s, w)
  {
    match s.workers[w]
    case Idle => s
    case AtCas(t) =>
      var y := s.tasks[t];
      match y.state {
        case ACTIVE => SetTask(s, t, y.(state := FIRING)).(workers := s.workers[w := Locking(t, y.master)])
        case RELEASED => s.(workers := s.workers[w := Idle])
        case FIRING => Crash(s)
      }
    case Locking(t, m) =>
      SetMaster(s, m, s.masters[m].(call := ByWorker(w))).(workers := s.workers[w := Checking(t, m)])
    case Checking(t, m) =>
      var x := s.masters[m];
      if x.active == Some(t)
      then SetMaster(s, m, x.(call := Unlocked, active := None))
           .(workers := s.workers[w := Calling(t, m)], started := s.started + {s.tasks[t].reg})
      else s.(workers := s.workers[w := Ending(t, m)])
    case Calling(t, m) =>
      var x := s.masters[m];
      var fires := x.active.None? && x.on;
      SetMaster(s, m, x.(n := x.n - 1, on := x.on && !fires, wins := x.wins + (if fires then 1 else 0),
                         wakes := x.wakes + (if x.n == 1 then 1 else 0)))
      .(workers := s.workers[w := Called(t, m)])
    case Called(t, m) =>
      SetMaster(s, m, s.masters[m].(call := ByWorker(w))).(workers := s.workers[w := Ending(t, m)])
    case Ending(t, m) =>
      SetMaster(SetTask(s, t, s.tasks[t].(state := RELEASED, at := LimboW(w))), m,
                s.masters[m].(regs := s.masters[m].regs - {t}))
      .(workers := s.workers[w := Pushing(t, m)])
    case Pushing(t, m) =>
      SetMaster(Release(s, t), m, s.masters[m].(call := Unlocked)).(workers := s.workers[w := Idle])
  }

  /** Locking, calling try_fire() and locking again wait for the mutex. */
  predicate WorkReady(s: State, w: nat)
    requires w < |s.workers|
  {
    match s.workers[w]
    case Idle => true
    case AtCas(t) => t < |s.tasks|
    case Locking(t, m) => m < |s.masters| && s.masters[m].call.Unlocked?
    case Checking(t, m) => m < |s.masters| && t < |s.tasks|
    case Calling(t, m) => m < |s.masters| && s.masters[m].call.Unlocked?
    case Called(t, m) => m < |s.masters| && s.masters[m].call.Unlocked?
    case Ending(t, m) => m < |s.masters| && t < |s.tasks|
    case Pushing(t, m) => m < |s.masters| && t < |s.tasks| && s.tasks[t].worker < |s.released|
  }

  /** The worker of CPU w holds the preemption lock, so nothing else borrows from it or inserts into its timer set. */
  predicate Preempting(s: State, w: nat)
  {
    w < |s.workers| && s.workers[w].AtCas?
  }

  predicate ContinueReady(s: State, m: nat, pick: Option<nat>)
  {
    m < |s.masters| && (pick.Some? ==> pick.value < |s.tasks|) &&
    match s.masters[m].call
    case AtCancel(_) => true
    case AtFree(t, _) => t < |s.tasks| && s.tasks[t].worker < |s.released|
    case AtBorrow(w) =>
      w < |s.released| && w < |s.timers| && !Preempting(s, w) && (pick.Some? ==> pick.value in s.released[w])
    case AtArm(t) => t < |s.tasks|
    case AtInsert(t) =>
      t < |s.tasks| && s.tasks[t].worker < |s.timers| && !Preempting(s, s.tasks[t].worker)
    case AtRevoke(todo) => if pick.Some? then pick.value in todo else todo == {}
    case AtRevokeFree(t, _) => t < |s.tasks| && s.tasks[t].worker < |s.released|
    case _ => false
  }

  function ContinueStep(s: State, m: nat, pick: Option<nat>): (s': State)
    requires ContinueReady(s, m, pick)
  {
    match s.masters[m].call
    case AtCancel(_) => CancelStep(s, m)
    case AtFree(_, _) => FreeStep(s, m)
    case AtBorrow(_) => BorrowStep(s, m, pick)
    case AtArm(_) => ArmStep(s, m)
    case AtInsert(_) => InsertStep(s, m)
    case AtRevoke(_) => RevokeStep(s, m, pick)
    case AtRevokeFree(_, _) => RevokeFreeStep(s, m)
    case _ => s
  }

  predicate Callable(s: State, m: nat)
  {
    m < |s.masters| && s.masters[m].call.Unlocked? && !s.masters[m].terminating
  }

  predicate Enabled(s: State, mv: Move)
  {
    !s.crashed &&
    match mv
    case BeginCancel(m) => Callable(s, m)
    case BeginReschedule(m, w) => Callable(s, m) && w < |s.workers|
    case BeginDestroy(m) => Callable(s, m)
    case Continue(m, pick) => ContinueReady(s, m, pick)
    case Drained(m) =>
      m < |s.masters| && s.masters[m].call.Unlocked? && s.masters[m].revoked && s.masters[m].regs == {}
        && !s.masters[m].gone
    case Expire(w, t) =>
      w < |s.workers| && w < |s.timers| && s.workers[w].Idle? && t < |s.tasks| && t in s.timers[w]
    case Work(w) => w < |s.workers| && WorkReady(s, w)
  }

  function Next(s: State, mv: Move): (s': State)
    requires Enabled(s, mv)
  {
    match mv
    case BeginCancel(m) => SetMaster(s, m, s.masters[m].(call := AtCancel(None), on := false))
    case BeginReschedule(m, w) => SetMaster(s, m, s.masters[m].(call := AtCancel(Some(w))))
    case BeginDestroy(m) =>
      SetMaster(s, m, s.masters[m].(call := AtRevoke(s.masters[m].regs), terminating := true, active := None))
    case Continue(m, pick) => ContinueStep(s, m, pick)
    case Drained(m) => SetMaster(s, m, s.masters[m].(gone := true))
    case Expire(w, t) =>
      if !s.tasks[t].queued then Crash(s)
      else
        SetTask(s, t, s.tasks[t].(queued := false))
        .(workers := if s.tasks[t].state.RELEASED? then s.workers else s.workers[w := AtCas(t)],
          timers := s.timers[w := s.timers[w] - {t}])
    case Work(w) => WorkStep(s, w)
  }

  ghost predicate Init(s: State)
  {
    && !s.crashed && s.tasks == [] && s.serial == 0 && s.started == {} && s.cancelled == {}
    && |s.released| == |s.timers| == |s.workers|
    && (forall w: nat :: w < |s.workers| ==> s.workers[w].Idle? && s.released[w] == multiset{} && s.timers[w] == {})
    && (forall m: nat :: m < |s.masters| ==>
          s.masters[m] == Master(Unlocked, None, {}, false, false, false, 0, false, 0, 0, 0))
  }

  ghost predicate IsRun(run: seq<State>, moves: seq<Move>)
  {
    && |run| == |moves| + 1 && Init(run[0])
    && forall i: nat :: i < |moves| ==> Enabled(run[i], moves[i]) && run[i + 1] == Next(run[i], moves[i])
  }

  // ----------------------------------------------------------------------------------------
  // What every step keeps
  // ----------------------------------------------------------------------------------------

  /** The worker is between taking the task and giving it up. */
  predicate Fires(pc: Pc, t: nat, m: nat)
  {
    pc == Locking(t, m) || pc == Checking(t, m) || pc == Calling(t, m) || pc == Called(t, m) || pc == Ending(t, m)
  }

  /** A task is where it says it is, and firing only while its worker fires it. */
  ghost predicate TaskOk(s: State, t: nat)
  {
    t < |s.tasks| ==>
      var y := s.tasks[t];
      && y.worker < |s.workers| && -1 <= y.reg < s.serial
      && (match y.at
          case InReg =>
            y.master < |s.masters| && t in s.masters[y.master].regs && !y.state.RELEASED? && y.reg >= 0
          case Limbo(m) =>
            && m < |s.masters| && y.state.RELEASED? && y.reg >= 0
            && (s.masters[m].call.AtFree? || s.masters[m].call.AtRevokeFree?) && s.masters[m].call.t == t
          case LimboW(w) => w == y.worker && y.state.RELEASED? && s.workers[w].Pushing? && s.workers[w].t == t
          case InReleased => y.state.RELEASED?
          case InHand(m) => m < |s.masters| && s.masters[m].call == AtArm(t) && !y.queued && !y.state.FIRING?)
      && (y.state.FIRING? ==> y.at.InReg? && !y.queued && Fires(s.workers[y.worker], t, y.master))
  }

  /** The released queue of a worker holds its released tasks, each once. */
  ghost predicate ReleasedOk(s: State, w: nat, t: nat)
  {
    w < |s.released| ==>
      s.released[w][t] == if t < |s.tasks| && s.tasks[t].at.InReleased? && s.tasks[t].worker == w then 1 else 0
  }

  ghost predicate RegOk(s: State, m: nat, t: nat)
  {
    m < |s.masters| && t in s.masters[m].regs ==> t < |s.tasks| && s.tasks[t].at.InReg? && s.tasks[t].master == m
  }

  /** In the destructor, the registrations it has passed over and left are firing. */
  ghost predicate RevokedOk(s: State, m: nat, t: nat)
  {
    m < |s.masters| && t in s.masters[m].regs && t < |s.tasks| ==>
      var x := s.masters[m];
      && (x.call.AtRevoke? && t !in x.call.todo ==> s.tasks[t].state.FIRING?)
      && (x.call.AtRevokeFree? && t !in x.call.todo ==> s.tasks[t].state.FIRING?)
      && (x.revoked ==> s.tasks[t].state.FIRING?)
  }

  /** The pending registration of a master: its callback was neither started nor cancelled. */
  ghost predicate PendingOk(s: State, m: nat)
    requires m < |s.masters| && s.masters[m].active.Some?
  {
    var x, t := s.masters[m], s.masters[m].active.value;
    && t < |s.tasks| && s.tasks[t].reg >= 0 && s.tasks[t].reg !in s.started && s.tasks[t].reg !in s.cancelled
    && (if x.call.AtFree? then x.call.t == t else t in x.regs)
    && (s.tasks[t].state.FIRING? && s.tasks[t].worker < |s.workers| ==>
          s.workers[s.tasks[t].worker].Locking? || s.workers[s.tasks[t].worker].Checking?)
  }

  ghost predicate MasterOk(s: State, m: nat)
  {
    m < |s.masters| ==>
      var x := s.masters[m];
      && (x.active.Some? ==> !x.terminating && PendingOk(s, m))
      && (x.revoked ==> x.terminating) && (x.gone ==> x.revoked && x.regs == {} && x.call.Unlocked?)
      && (x.terminating && !x.revoked ==> x.call.AtRevoke? || x.call.AtRevokeFree?)
      && (match x.call
          case Unlocked => true
          case AtCancel(again) => !x.terminating && (again.Some? ==> again.value < |s.workers|)
          case AtFree(t, again) =>
            && !x.terminating && x.active == Some(t) && t < |s.tasks| && s.tasks[t].at == Limbo(m)
            && (again.Some? ==> again.value < |s.workers|)
          case AtBorrow(w) => !x.terminating && x.active.None? && w < |s.workers|
          case AtArm(t) => !x.terminating && x.active.None? && t < |s.tasks| && s.tasks[t].at == InHand(m)
          case AtInsert(t) => !x.terminating && x.active == Some(t) && t < |s.tasks| && !s.tasks[t].queued
            && s.tasks[t].state.ACTIVE?
          case AtRevoke(todo) => x.terminating && !x.revoked && todo <= x.regs
          case AtRevokeFree(t, todo) =>
            x.terminating && !x.revoked && todo <= x.regs && t < |s.tasks| && s.tasks[t].at == Limbo(m)
          case ByWorker(w) =>
            && w < |s.workers| && !x.gone
            && (s.workers[w].Checking? || s.workers[w].Ending? || s.workers[w].Pushing?) && s.workers[w].m == m)
  }

  ghost predicate WorkerOk(s: State, w: nat)
  {
    w < |s.workers| && !s.workers[w].Idle? ==>
      var pc := s.workers[w];
      && pc.t < |s.tasks| && s.tasks[pc.t].worker == w && !s.tasks[pc.t].queued
      && (pc.AtCas? ==> !s.tasks[pc.t].state.FIRING? && !s.tasks[pc.t].at.InHand? && !s.tasks[pc.t].at.LimboW?)
      && (pc.AtCas? && s.tasks[pc.t].at.InReg? && s.tasks[pc.t].master < |s.masters| ==>
            s.masters[s.tasks[pc.t].master].call != AtInsert(pc.t))
      && (!pc.AtCas? ==> pc.m < |s.masters|)
      && (!pc.AtCas? && !pc.Pushing? ==>
            s.tasks[pc.t].state.FIRING? && s.tasks[pc.t].master == pc.m && s.tasks[pc.t].at.InReg?)
      && (pc.Pushing? ==> s.tasks[pc.t].at == LimboW(w))
      && (pc.Checking? || pc.Ending? || pc.Pushing? ==> s.masters[pc.m].call == ByWorker(w))
  }

  /** Registrations have numbers of their own. */
  ghost predicate SerialOk(s: State, t: nat, u: nat)
  {
    t < |s.tasks| && u < |s.tasks| && t != u && s.tasks[t].reg >= 0 ==> s.tasks[t].reg != s.tasks[u].reg
  }

  ghost predicate LogOk(s: State)
  {
    && s.started !! s.cancelled
    && (forall r: int :: r in s.started || r in s.cancelled ==> 0 <= r < s.serial)
    && |s.released| == |s.workers|
  }

  ghost predicate Tasks(s: State) { forall t: nat {:trigger TaskOk(s, t)} :: TaskOk(s, t) }
  ghost predicate Releases(s: State) { forall w: nat, t: nat {:trigger ReleasedOk(s, w, t)} :: ReleasedOk(s, w, t) }
  ghost predicate Regs(s: State) { forall m: nat, t: nat {:trigger RegOk(s, m, t)} :: RegOk(s, m, t) }
  ghost predicate Revokes(s: State) { forall m: nat, t: nat {:trigger RevokedOk(s, m, t)} :: RevokedOk(s, m, t) }
  ghost predicate Masters(s: State) { forall m: nat {:trigger MasterOk(s, m)} :: MasterOk(s, m) }
  ghost predicate Workers(s: State) { forall w: nat {:trigger WorkerOk(s, w)} :: WorkerOk(s, w) }
  ghost predicate Serials(s: State) { forall t: nat, u: nat {:trigger SerialOk(s, t, u)} :: SerialOk(s, t, u) }

  ghost predicate Inv(s: State)
  {
    !s.crashed && LogOk(s) && Tasks(s) && Releases(s) && Regs(s) && Revokes(s) && Masters(s) && Workers(s) && Serials(s)
  }

  /** What is known of the pending registration of a master, beside task u. */
  lemma Pending(s: State, k: nat, u: nat)
    requires Inv(s)
    ensures k < |s.masters| && s.masters[k].active.Some? ==>
              var t := s.masters[k].active.value;
              && t < |s.tasks| && TaskOk(s, t) && RegOk(s, k, t)
              && (t != u && u < |s.tasks| ==> s.tasks[t].reg != s.tasks[u].reg)
  {
    assert MasterOk(s, k);
    if k < |s.masters| && s.masters[k].active.Some? {
      var t := s.masters[k].active.value;
      assert TaskOk(s, t) && RegOk(s, k, t) && SerialOk(s, t, u);
    }
  }

  // Calls on a master

  /** Taking the mutex for a cancel() or a reschedule(). */
  lemma CallKeepsInv(s: State, m: nat, call: Call, on: bool)
    requires Inv(s) && m < |s.masters| && s.masters[m].call.Unlocked? && !s.masters[m].terminating
    requires call.AtCancel? && (call.again.Some? ==> call.again.value < |s.workers|)
    ensures Inv(SetMaster(s, m, s.masters[m].(call := call, on := on)))
  {
    var s' := SetMaster(s, m, s.masters[m].(call := call, on := on));
    assert MasterOk(s, m);
    forall t: nat ensures TaskOk(s', t) { assert TaskOk(s, t); }
    forall w: nat, t: nat ensures ReleasedOk(s', w, t) { assert ReleasedOk(s, w, t); }
    forall k: nat, t: nat ensures RegOk(s', k, t) { assert RegOk(s, k, t); }
    forall k: nat, t: nat ensures RevokedOk(s', k, t) { assert RevokedOk(s, k, t) && RegOk(s, k, t); }
    forall k: nat ensures MasterOk(s', k) { assert MasterOk(s, k); }
    forall w: nat ensures WorkerOk(s', w) { assert WorkerOk(s, w); }
    forall t: nat, u: nat ensures SerialOk(s', t, u) { assert SerialOk(s, t, u); }
  }

  lemma DestroyKeepsInv(s: State, m: nat)
    requires Inv(s) && Enabled(s, BeginDestroy(m))
    ensures Inv(Next(s, BeginDestroy(m)))
  {
    var s' := Next(s, BeginDestroy(m));
    assert MasterOk(s, m);
    forall t: nat ensures TaskOk(s', t) { assert TaskOk(s, t); }
    forall w: nat, t: nat ensures ReleasedOk(s', w, t) { assert ReleasedOk(s, w, t); }
    forall k: nat, t: nat ensures RegOk(s', k, t) { assert RegOk(s, k, t); }
    forall k: nat, t: nat ensures RevokedOk(s', k, t) { assert RevokedOk(s, k, t) && RegOk(s, k, t); }
    forall k: nat ensures MasterOk(s', k) { assert MasterOk(s, k); }
    forall w: nat ensures WorkerOk(s', w) { assert WorkerOk(s, w); }
    forall t: nat, u: nat ensures SerialOk(s', t, u) { assert SerialOk(s, t, u); }
  }

  lemma DrainedKeepsInv(s: State, m: nat)
    requires Inv(s) && Enabled(s, Drained(m))
    ensures Inv(Next(s, Drained(m)))
  {
    var s' := Next(s, Drained(m));
    assert MasterOk(s, m);
    forall t: nat ensures TaskOk(s', t) { assert TaskOk(s, t); }
    forall w: nat, t: nat ensures ReleasedOk(s', w, t) { assert ReleasedOk(s, w, t); }
    forall k: nat, t: nat ensures RegOk(s', k, t) { assert RegOk(s, k, t); }
    forall k: nat, t: nat ensures RevokedOk(s', k, t) { assert RevokedOk(s, k, t) && RegOk(s, k, t); }
    forall k: nat ensures MasterOk(s', k) { assert MasterOk(s, k); }
    forall w: nat ensures WorkerOk(s', w) { assert WorkerOk(s, w); }
    forall t: nat, u: nat ensures SerialOk(s', t, u) { assert SerialOk(s, t, u); }
  }

  /** Nothing is pending. */
  lemma CancelNoneKeepsInv(s: State, m: nat)
    requires Inv(s) && m < |s.masters| && s.masters[m].call.AtCancel?
    requires s.masters[m].active.None?
    ensures Inv(CancelStep(s, m))
  {
    var s' := CancelStep(s, m);
    assert MasterOk(s, m);
    forall t: nat ensures TaskOk(s', t) { assert TaskOk(s, t); }
    forall w: nat, t: nat ensures ReleasedOk(s', w, t) { assert ReleasedOk(s, w, t); }
    forall k: nat, t: nat ensures RegOk(s', k, t) { assert RegOk(s, k, t); }
    forall k: nat, t: nat ensures RevokedOk(s', k, t) { assert RevokedOk(s, k, t) && RegOk(s, k, t); }
    forall k: nat ensures MasterOk(s', k) { assert MasterOk(s, k); }
    forall w: nat ensures WorkerOk(s', w) { assert WorkerOk(s, w); }
    forall t: nat, u: nat ensures SerialOk(s', t, u) { assert SerialOk(s, t, u); }
  }

  /** The pending registration is revoked before it fires. */
  lemma CancelActiveKeepsInv(s: State, m: nat)
    requires Inv(s) && m < |s.masters| && s.masters[m].call.AtCancel?
    requires s.masters[m].active.Some? && s.masters[m].active.value < |s.tasks|
    requires s.tasks[s.masters[m].active.value].state.ACTIVE?
    ensures Inv(CancelStep(s, m))
  {
    var s' := CancelStep(s, m);
    var a := s.masters[m].active.value;
    assert MasterOk(s, m) && TaskOk(s, a) && RegOk(s, m, a);
    forall t: nat ensures TaskOk(s', t) { assert TaskOk(s, t); }
    forall w: nat, t: nat ensures ReleasedOk(s', w, t) { assert ReleasedOk(s, w, t); }
    forall k: nat, t: nat ensures RegOk(s', k, t) { assert RegOk(s, k, t); }
    forall k: nat, t: nat ensures RevokedOk(s', k, t) { assert RevokedOk(s, k, t) && RegOk(s, k, t); }
    forall k: nat ensures MasterOk(s', k) { assert MasterOk(s, k); Pending(s, k, a); }
    forall w: nat ensures WorkerOk(s', w) { assert WorkerOk(s, w); }
    forall t: nat, u: nat ensures SerialOk(s', t, u) { assert SerialOk(s, t, u); }
  }

  /** The pending registration is firing already and will find that it is no longer wanted. */
  lemma CancelFiringKeepsInv(s: State, m: nat)
    requires Inv(s) && m < |s.masters| && s.masters[m].call.AtCancel?
    requires s.masters[m].active.Some? && s.masters[m].active.value < |s.tasks|
    requires !s.tasks[s.masters[m].active.value].state.ACTIVE?
    ensures Inv(CancelStep(s, m))
  {
    var s' := CancelStep(s, m);
    var a := s.masters[m].active.value;
    assert MasterOk(s, m) && TaskOk(s, a) && RegOk(s, m, a);
    forall t: nat ensures TaskOk(s', t) { assert TaskOk(s, t); }
    forall w: nat, t: nat ensures ReleasedOk(s', w, t) { assert ReleasedOk(s, w, t); }
    forall k: nat, t: nat ensures RegOk(s', k, t) { assert RegOk(s, k, t); }
    forall k: nat, t: nat ensures RevokedOk(s', k, t) { assert RevokedOk(s, k, t) && RegOk(s, k, t); }
    forall k: nat ensures MasterOk(s', k) { assert MasterOk(s, k); Pending(s, k, a); }
    forall w: nat ensures WorkerOk(s', w) { assert WorkerOk(s, w); }
    forall t: nat, u: nat ensures SerialOk(s', t, u) { assert SerialOk(s, t, u); }
  }

  lemma FreeKeepsPlaces(s: State, m: nat)
    requires Inv(s) && m < |s.masters| && s.masters[m].call.AtFree? && ContinueReady(s, m, None)
    ensures !FreeStep(s, m).crashed && LogOk(FreeStep(s, m)) && Tasks(FreeStep(s, m)) && Releases(FreeStep(s, m))
    ensures Regs(FreeStep(s, m)) && Revokes(FreeStep(s, m))
  {
    var s' := FreeStep(s, m);
    var a := s.masters[m].call.t;
    assert MasterOk(s, m) && TaskOk(s, a);
    forall t: nat ensures TaskOk(s', t) { assert TaskOk(s, t); }
    forall w: nat, t: nat ensures ReleasedOk(s', w, t) { assert ReleasedOk(s, w, t); }
    forall k: nat, t: nat ensures RegOk(s', k, t) { assert RegOk(s, k, t); }
    forall k: nat, t: nat ensures RevokedOk(s', k, t) { assert RevokedOk(s, k, t) && RegOk(s, k, t); }
  }

  lemma FreeKeepsMasters(s: State, m: nat)
    requires Inv(s) && m < |s.masters| && s.masters[m].call.AtFree? && ContinueReady(s, m, None)
    ensures Masters(FreeStep(s, m))
  {
    var s' := FreeStep(s, m);
    var a := s.masters[m].call.t;
    assert MasterOk(s, m) && TaskOk(s, a);
    forall k: nat ensures MasterOk(s', k) { assert MasterOk(s, k); Pending(s, k, a); }
  }

  lemma FreeKeepsWorkers(s: State, m: nat)
    requires Inv(s) && m < |s.masters| && s.masters[m].call.AtFree? && ContinueReady(s, m, None)
    ensures Workers(FreeStep(s, m)) && Serials(FreeStep(s, m))
  {
    var s' := FreeStep(s, m);
    var a := s.masters[m].call.t;
    assert MasterOk(s, m) && TaskOk(s, a);
    forall w: nat ensures WorkerOk(s', w) { assert WorkerOk(s, w); }
    forall t: nat, u: nat ensures SerialOk(s', t, u) { assert SerialOk(s, t, u); }
  }

  lemma FreeKeepsInv(s: State, m: nat)
    requires Inv(s) && m < |s.masters| && s.masters[m].call.AtFree? && ContinueReady(s, m, None)
    ensures Inv(FreeStep(s, m))
  {
    FreeKeepsPlaces(s, m);
    FreeKeepsMasters(s, m);
    FreeKeepsWorkers(s, m);
  }

  lemma BorrowOldKeepsPlaces(s: State, m: nat, pick: Option<nat>)
    requires Inv(s) && m < |s.masters| && s.masters[m].call.AtBorrow? && ContinueReady(s, m, pick)
    requires pick.Some?
    ensures !BorrowStep(s, m, pick).crashed && LogOk(BorrowStep(s, m, pick)) && Tasks(BorrowStep(s, m, pick))
            && Releases(BorrowStep(s, m, pick))
    ensures Regs(BorrowStep(s, m, pick)) && Revokes(BorrowStep(s, m, pick))
  {
    var s' := BorrowStep(s, m, pick);
    assert MasterOk(s, m) && TaskOk(s, pick.value) && ReleasedOk(s, s.masters[m].call.w, pick.value);
    forall t: nat ensures TaskOk(s', t) { assert TaskOk(s, t); }
    forall w: nat, t: nat ensures ReleasedOk(s', w, t) { assert ReleasedOk(s, w, t); }
    forall k: nat, t: nat ensures RegOk(s', k, t) { assert RegOk(s, k, t); }
    forall k: nat, t: nat ensures RevokedOk(s', k, t) { assert RevokedOk(s, k, t) && RegOk(s, k, t); }
  }

  lemma BorrowOldKeepsCalls(s: State, m: nat, pick: Option<nat>)
    requires Inv(s) && m < |s.masters| && s.masters[m].call.AtBorrow? && ContinueReady(s, m, pick)
    requires pick.Some?
    ensures Masters(BorrowStep(s, m, pick)) && Workers(BorrowStep(s, m, pick)) && Serials(BorrowStep(s, m, pick))
  {
    var s' := BorrowStep(s, m, pick);
    assert MasterOk(s, m) && TaskOk(s, pick.value) && ReleasedOk(s, s.masters[m].call.w, pick.value);
    forall k: nat ensures MasterOk(s', k) { assert MasterOk(s, k); Pending(s, k, pick.value); }
    forall w: nat ensures WorkerOk(s', w) { assert WorkerOk(s, w); }
    forall t: nat, u: nat ensures SerialOk(s', t, u) { assert SerialOk(s, t, u); }
  }

  /** A released task is taken; its worker is not looking at it. */
  lemma BorrowOldKeepsInv(s: State, m: nat, pick: Option<nat>)
    requires Inv(s) && m < |s.masters| && s.masters[m].call.AtBorrow? && ContinueReady(s, m, pick)
    requires pick.Some?
    ensures Inv(BorrowStep(s, m, pick))
  {
    BorrowOldKeepsPlaces(s, m, pick);
    BorrowOldKeepsCalls(s, m, pick);
  }

  lemma BorrowNewKeepsInv(s: State, m: nat)
    requires Inv(s) && m < |s.masters| && s.masters[m].call.AtBorrow? && ContinueReady(s, m, None)
    ensures Inv(BorrowStep(s, m, None))
  {
    var s' := BorrowStep(s, m, None);
    assert MasterOk(s, m);
    forall t: nat ensures TaskOk(s', t) { assert TaskOk(s, t); }
    forall w: nat, t: nat ensures ReleasedOk(s', w, t) { assert ReleasedOk(s, w, t); }
    forall k: nat, t: nat ensures RegOk(s', k, t) { assert RegOk(s, k, t); }
    forall k: nat, t: nat ensures RevokedOk(s', k, t) { assert RevokedOk(s, k, t) && RegOk(s, k, t); }
    forall k: nat ensures MasterOk(s', k) { assert MasterOk(s, k); }
    forall w: nat ensures WorkerOk(s', w) { assert WorkerOk(s, w); }
    forall t: nat, u: nat ensures SerialOk(s', t, u) { assert SerialOk(s, t, u); }
  }

  lemma ArmKeepsPlaces(s: State, m: nat)
    requires Inv(s) && m < |s.masters| && s.masters[m].call.AtArm? && s.masters[m].call.t < |s.tasks|
    ensures !ArmStep(s, m).crashed && LogOk(ArmStep(s, m)) && Tasks(ArmStep(s, m)) && Releases(ArmStep(s, m))
    ensures Regs(ArmStep(s, m)) && Revokes(ArmStep(s, m))
  {
    var s' := ArmStep(s, m);
    assert MasterOk(s, m) && TaskOk(s, s.masters[m].call.t);
    forall t: nat ensures TaskOk(s', t) { assert TaskOk(s, t); }
    forall w: nat, t: nat ensures ReleasedOk(s', w, t) { assert ReleasedOk(s, w, t); }
    forall k: nat, t: nat ensures RegOk(s', k, t) { assert RegOk(s, k, t); }
    forall k: nat, t: nat ensures RevokedOk(s', k, t) { assert RevokedOk(s, k, t) && RegOk(s, k, t); }
  }

  lemma ArmKeepsCalls(s: State, m: nat)
    requires Inv(s) && m < |s.masters| && s.masters[m].call.AtArm? && s.masters[m].call.t < |s.tasks|
    ensures Masters(ArmStep(s, m)) && Workers(ArmStep(s, m)) && Serials(ArmStep(s, m))
  {
    var s' := ArmStep(s, m);
    assert MasterOk(s, m) && TaskOk(s, s.masters[m].call.t);
    forall k: nat ensures MasterOk(s', k) { assert MasterOk(s, k); }
    forall w: nat ensures WorkerOk(s', w) { assert WorkerOk(s, w); }
    forall t: nat, u: nat ensures SerialOk(s', t, u) { assert SerialOk(s, t, u); assert TaskOk(s, t) && TaskOk(s, u); }
  }

  lemma ArmKeepsInv(s: State, m: nat)
    requires Inv(s) && m < |s.masters| && s.masters[m].call.AtArm? && s.masters[m].call.t < |s.tasks|
    ensures Inv(ArmStep(s, m))
  {
    ArmKeepsPlaces(s, m);
    ArmKeepsCalls(s, m);
  }

  lemma InsertKeepsPlaces(s: State, m: nat)
    requires Inv(s) && m < |s.masters| && s.masters[m].call.AtInsert? && ContinueReady(s, m, None)
    ensures !InsertStep(s, m).crashed && LogOk(InsertStep(s, m)) && Tasks(InsertStep(s, m))
            && Releases(InsertStep(s, m))
    ensures Regs(InsertStep(s, m)) && Revokes(InsertStep(s, m))
  {
    var s' := InsertStep(s, m);
    var a := s.masters[m].call.t;
    assert MasterOk(s, m) && TaskOk(s, a) && RegOk(s, m, a);
    forall t: nat ensures TaskOk(s', t) { assert TaskOk(s, t); }
    forall w: nat, t: nat ensures ReleasedOk(s', w, t) { assert ReleasedOk(s, w, t); }
    forall k: nat, t: nat ensures RegOk(s', k, t) { assert RegOk(s, k, t); }
    forall k: nat, t: nat ensures RevokedOk(s', k, t) { assert RevokedOk(s, k, t) && RegOk(s, k, t); }
  }

  lemma InsertKeepsCalls(s: State, m: nat)
    requires Inv(s) && m < |s.masters| && s.masters[m].call.AtInsert? && ContinueReady(s, m, None)
    ensures Masters(InsertStep(s, m)) && Workers(InsertStep(s, m)) && Serials(InsertStep(s, m))
  {
    var s' := InsertStep(s, m);
    var a := s.masters[m].call.t;
    assert MasterOk(s, m) && TaskOk(s, a) && RegOk(s, m, a);
    forall k: nat ensures MasterOk(s', k) { assert MasterOk(s, k); Pending(s, k, a); }
    forall w: nat ensures WorkerOk(s', w) { assert WorkerOk(s, w); }
    forall t: nat, u: nat ensures SerialOk(s', t, u) { assert SerialOk(s, t, u); }
  }

  lemma InsertKeepsInv(s: State, m: nat)
    requires Inv(s) && m < |s.masters| && s.masters[m].call.AtInsert? && ContinueReady(s, m, None)
    ensures Inv(InsertStep(s, m))
  {
    InsertKeepsPlaces(s, m);
    InsertKeepsCalls(s, m);
  }

  /** The destructor revokes a registration. */
  lemma RevokeActiveKeepsInv(s: State, m: nat, pick: Option<nat>)
    requires Inv(s) && m < |s.masters| && s.masters[m].call.AtRevoke? && ContinueReady(s, m, pick)
    requires pick.Some?
    requires s.tasks[pick.value].state.ACTIVE?
    ensures Inv(RevokeStep(s, m, pick))
  {
    var s' := RevokeStep(s, m, pick);
    assert MasterOk(s, m) && TaskOk(s, pick.value) && RegOk(s, m, pick.value);
    forall t: nat ensures TaskOk(s', t) { assert TaskOk(s, t); }
    forall w: nat, t: nat ensures ReleasedOk(s', w, t) { assert ReleasedOk(s, w, t); }
    forall k: nat, t: nat ensures RegOk(s', k, t) { assert RegOk(s, k, t); }
    forall k: nat, t: nat ensures RevokedOk(s', k, t) { assert RevokedOk(s, k, t) && RegOk(s, k, t); }
    forall k: nat ensures MasterOk(s', k) { assert MasterOk(s, k); Pending(s, k, pick.value); }
    forall w: nat ensures WorkerOk(s', w) { assert WorkerOk(s, w); }
    forall t: nat, u: nat ensures SerialOk(s', t, u) { assert SerialOk(s, t, u); }
  }

  /** The destructor leaves a registration because it is firing. */
  lemma RevokeFiringKeepsInv(s: State, m: nat, pick: Option<nat>)
    requires Inv(s) && m < |s.masters| && s.masters[m].call.AtRevoke? && ContinueReady(s, m, pick)
    requires pick.Some?
    requires !s.tasks[pick.value].state.ACTIVE?
    ensures Inv(RevokeStep(s, m, pick))
  {
    var s' := RevokeStep(s, m, pick);
    assert MasterOk(s, m) && TaskOk(s, pick.value) && RegOk(s, m, pick.value);
    forall t: nat ensures TaskOk(s', t) { assert TaskOk(s, t); }
    forall w: nat, t: nat ensures ReleasedOk(s', w, t) { assert ReleasedOk(s, w, t); }
    forall k: nat, t: nat ensures RegOk(s', k, t) { assert RegOk(s, k, t); }
    forall k: nat, t: nat ensures RevokedOk(s', k, t) { assert RevokedOk(s, k, t) && RegOk(s, k, t); }
    forall k: nat ensures MasterOk(s', k) { assert MasterOk(s, k); Pending(s, k, pick.value); }
    forall w: nat ensures WorkerOk(s', w) { assert WorkerOk(s, w); }
    forall t: nat, u: nat ensures SerialOk(s', t, u) { assert SerialOk(s, t, u); }
  }

  lemma RevokeEndKeepsInv(s: State, m: nat)
    requires Inv(s) && m < |s.masters| && s.masters[m].call.AtRevoke? && ContinueReady(s, m, None)
    ensures Inv(RevokeStep(s, m, None))
  {
    var s' := RevokeStep(s, m, None);
    assert MasterOk(s, m);
    forall t: nat ensures TaskOk(s', t) { assert TaskOk(s, t); }
    forall w: nat, t: nat ensures ReleasedOk(s', w, t) { assert ReleasedOk(s, w, t); }
    forall k: nat, t: nat ensures RegOk(s', k, t) { assert RegOk(s, k, t); }
    forall k: nat, t: nat ensures RevokedOk(s', k, t) { assert RevokedOk(s, k, t) && RegOk(s, k, t); }
    forall k: nat ensures MasterOk(s', k) { assert MasterOk(s, k); }
    forall w: nat ensures WorkerOk(s', w) { assert WorkerOk(s, w); }
    forall t: nat, u: nat ensures SerialOk(s', t, u) { assert SerialOk(s, t, u); }
  }

  lemma RevokeFreeKeepsInv(s: State, m: nat)
    requires Inv(s) && m < |s.masters| && s.masters[m].call.AtRevokeFree? && ContinueReady(s, m, None)
    ensures Inv(RevokeFreeStep(s, m))
  {
    var s' := RevokeFreeStep(s, m);
    var a := s.masters[m].call.t;
    assert MasterOk(s, m) && TaskOk(s, a);
    forall t: nat ensures TaskOk(s', t) { assert TaskOk(s, t); }
    forall w: nat, t: nat ensures ReleasedOk(s', w, t) { assert ReleasedOk(s, w, t); }
    forall k: nat, t: nat ensures RegOk(s', k, t) { assert RegOk(s, k, t); }
    forall k: nat, t: nat ensures RevokedOk(s', k, t) { assert RevokedOk(s, k, t) && RegOk(s, k, t); }
    forall k: nat ensures MasterOk(s', k) { assert MasterOk(s, k); Pending(s, k, a); }
    forall w: nat ensures WorkerOk(s', w) { assert WorkerOk(s, w); }
    forall t: nat, u: nat ensures SerialOk(s', t, u) { assert SerialOk(s, t, u); }
  }

  // Workers

  lemma ExpireKeepsPlaces(s: State, x: nat, a: nat)
    requires Inv(s) && Enabled(s, Expire(x, a))
    requires s.tasks[a].queued && s.tasks[a].worker == x
    ensures !Next(s, Expire(x, a)).crashed && LogOk(Next(s, Expire(x, a))) && Tasks(Next(s, Expire(x, a)))
            && Releases(Next(s, Expire(x, a)))
    ensures Regs(Next(s, Expire(x, a))) && Revokes(Next(s, Expire(x, a)))
  {
    var s' := Next(s, Expire(x, a));
    assert TaskOk(s, a) && WorkerOk(s, x) && MasterOk(s, s.tasks[a].master);
    forall t: nat ensures TaskOk(s', t) { assert TaskOk(s, t); }
    forall w: nat, t: nat ensures ReleasedOk(s', w, t) { assert ReleasedOk(s, w, t); }
    forall k: nat, t: nat ensures RegOk(s', k, t) { assert RegOk(s, k, t); }
    forall k: nat, t: nat ensures RevokedOk(s', k, t) { assert RevokedOk(s, k, t) && RegOk(s, k, t); }
  }

  lemma ExpireKeepsCalls(s: State, x: nat, a: nat)
    requires Inv(s) && Enabled(s, Expire(x, a))
    requires s.tasks[a].queued && s.tasks[a].worker == x
    ensures Masters(Next(s, Expire(x, a))) && Workers(Next(s, Expire(x, a))) && Serials(Next(s, Expire(x, a)))
  {
    var s' := Next(s, Expire(x, a));
    assert TaskOk(s, a) && WorkerOk(s, x) && MasterOk(s, s.tasks[a].master);
    forall k: nat ensures MasterOk(s', k) { assert MasterOk(s, k); Pending(s, k, a); }
    forall w: nat ensures WorkerOk(s', w) { assert WorkerOk(s, w); }
    forall t: nat, u: nat ensures SerialOk(s', t, u) { assert SerialOk(s, t, u); }
  }

  lemma ExpireKeepsInv(s: State, x: nat, a: nat)
    requires Inv(s) && Enabled(s, Expire(x, a))
    requires s.tasks[a].queued && s.tasks[a].worker == x
    ensures Inv(Next(s, Expire(x, a)))
  {
    ExpireKeepsPlaces(s, x, a);
    ExpireKeepsCalls(s, x, a);
  }

  lemma CasActiveKeepsPlaces(s: State, x: nat)
    requires Inv(s) && Enabled(s, Work(x)) && s.workers[x].AtCas?
    requires s.tasks[s.workers[x].t].state.ACTIVE?
    ensures !WorkStep(s, x).crashed && LogOk(WorkStep(s, x)) && Tasks(WorkStep(s, x)) && Releases(WorkStep(s, x))
    ensures Regs(WorkStep(s, x)) && Revokes(WorkStep(s, x))
  {
    var s' := WorkStep(s, x);
    var a := s.workers[x].t;
    assert WorkerOk(s, x) && TaskOk(s, a);
    forall t: nat ensures TaskOk(s', t) { assert TaskOk(s, t); }
    forall w: nat, t: nat ensures ReleasedOk(s', w, t) { assert ReleasedOk(s, w, t); }
    forall k: nat, t: nat ensures RegOk(s', k, t) { assert RegOk(s, k, t); }
    forall k: nat, t: nat ensures RevokedOk(s', k, t) { assert RevokedOk(s, k, t) && RegOk(s, k, t); }
  }

  lemma CasActiveKeepsCalls(s: State, x: nat)
    requires Inv(s) && Enabled(s, Work(x)) && s.workers[x].AtCas?
    requires s.tasks[s.workers[x].t].state.ACTIVE?
    ensures Masters(WorkStep(s, x)) && Workers(WorkStep(s, x)) && Serials(WorkStep(s, x))
  {
    var s' := WorkStep(s, x);
    var a := s.workers[x].t;
    assert WorkerOk(s, x) && TaskOk(s, a);
    forall k: nat ensures MasterOk(s', k) { assert MasterOk(s, k); Pending(s, k, a); }
    forall w: nat ensures WorkerOk(s', w) { assert WorkerOk(s, w); }
    forall t: nat, u: nat ensures SerialOk(s', t, u) { assert SerialOk(s, t, u); }
  }

  /** ACTIVE to FIRING. */
  lemma CasActiveKeepsInv(s: State, x: nat)
    requires Inv(s) && Enabled(s, Work(x)) && s.workers[x].AtCas?
    requires s.tasks[s.workers[x].t].state.ACTIVE?
    ensures Inv(WorkStep(s, x))
  {
    CasActiveKeepsPlaces(s, x);
    CasActiveKeepsCalls(s, x);
  }

  /** The registration was revoked in the meantime; nobody else can have made it FIRING. */
  lemma CasLostKeepsInv(s: State, x: nat)
    requires Inv(s) && Enabled(s, Work(x)) && s.workers[x].AtCas?
    requires !s.tasks[s.workers[x].t].state.ACTIVE?
    ensures Inv(WorkStep(s, x))
  {
    var s' := WorkStep(s, x);
    var a := s.workers[x].t;
    assert WorkerOk(s, x) && TaskOk(s, a);
    forall t: nat ensures TaskOk(s', t) { assert TaskOk(s, t); }
    forall w: nat, t: nat ensures ReleasedOk(s', w, t) { assert ReleasedOk(s, w, t); }
    forall k: nat, t: nat ensures RegOk(s', k, t) { assert RegOk(s, k, t); }
    forall k: nat, t: nat ensures RevokedOk(s', k, t) { assert RevokedOk(s, k, t) && RegOk(s, k, t); }
    forall k: nat ensures MasterOk(s', k) { assert MasterOk(s, k); Pending(s, k, a); }
    forall w: nat ensures WorkerOk(s', w) { assert WorkerOk(s, w); }
    forall t: nat, u: nat ensures SerialOk(s', t, u) { assert SerialOk(s, t, u); }
  }

  lemma LockKeepsPlaces(s: State, x: nat)
    requires Inv(s) && Enabled(s, Work(x)) && (s.workers[x].Locking? || s.workers[x].Called?)
    ensures !WorkStep(s, x).crashed && LogOk(WorkStep(s, x)) && Tasks(WorkStep(s, x)) && Releases(WorkStep(s, x))
    ensures Regs(WorkStep(s, x)) && Revokes(WorkStep(s, x))
  {
    var s' := WorkStep(s, x);
    var a := s.workers[x].t;
    assert WorkerOk(s, x) && TaskOk(s, a);
    assert MasterOk(s, s.workers[x].m) && RegOk(s, s.workers[x].m, a);
    forall t: nat ensures TaskOk(s', t) { assert TaskOk(s, t); }
    forall w: nat, t: nat ensures ReleasedOk(s', w, t) { assert ReleasedOk(s, w, t); }
    forall k: nat, t: nat ensures RegOk(s', k, t) { assert RegOk(s, k, t); }
    forall k: nat, t: nat ensures RevokedOk(s', k, t) { assert RevokedOk(s, k, t) && RegOk(s, k, t); }
  }

  lemma LockKeepsMasters(s: State, x: nat)
    requires Inv(s) && Enabled(s, Work(x)) && (s.workers[x].Locking? || s.workers[x].Called?)
    ensures Masters(WorkStep(s, x))
  {
    var s' := WorkStep(s, x);
    var a := s.workers[x].t;
    assert WorkerOk(s, x) && TaskOk(s, a);
    assert MasterOk(s, s.workers[x].m) && RegOk(s, s.workers[x].m, a);
    forall k: nat ensures MasterOk(s', k) { assert MasterOk(s, k); Pending(s, k, a); }
  }

  lemma LockKeepsWorkers(s: State, x: nat)
    requires Inv(s) && Enabled(s, Work(x)) && (s.workers[x].Locking? || s.workers[x].Called?)
    ensures Workers(WorkStep(s, x)) && Serials(WorkStep(s, x))
  {
    var s' := WorkStep(s, x);
    var a := s.workers[x].t;
    assert WorkerOk(s, x) && TaskOk(s, a);
    assert MasterOk(s, s.workers[x].m) && RegOk(s, s.workers[x].m, a);
    forall w: nat ensures WorkerOk(s', w) { assert WorkerOk(s, w); }
    forall t: nat, u: nat ensures SerialOk(s', t, u) { assert SerialOk(s, t, u); }
  }

  lemma LockKeepsInv(s: State, x: nat)
    requires Inv(s) && Enabled(s, Work(x)) && (s.workers[x].Locking? || s.workers[x].Called?)
    ensures Inv(WorkStep(s, x))
  {
    LockKeepsPlaces(s, x);
    LockKeepsMasters(s, x);
    LockKeepsWorkers(s, x);
  }

  lemma StartKeepsPlaces(s: State, x: nat)
    requires Inv(s) && Enabled(s, Work(x)) && s.workers[x].Checking?
    requires s.masters[s.workers[x].m].active == Some(s.workers[x].t)
    ensures !WorkStep(s, x).crashed && LogOk(WorkStep(s, x)) && Tasks(WorkStep(s, x)) && Releases(WorkStep(s, x))
    ensures Regs(WorkStep(s, x)) && Revokes(WorkStep(s, x))
  {
    var s' := WorkStep(s, x);
    var a := s.workers[x].t;
    assert WorkerOk(s, x) && TaskOk(s, a);
    assert MasterOk(s, s.workers[x].m) && RegOk(s, s.workers[x].m, a);
    forall t: nat ensures TaskOk(s', t) { assert TaskOk(s, t); }
    forall w: nat, t: nat ensures ReleasedOk(s', w, t) { assert ReleasedOk(s, w, t); }
    forall k: nat, t: nat ensures RegOk(s', k, t) { assert RegOk(s, k, t); }
    forall k: nat, t: nat ensures RevokedOk(s', k, t) { assert RevokedOk(s, k, t) && RegOk(s, k, t); }
  }

  lemma StartKeepsCalls(s: State, x: nat)
    requires Inv(s) && Enabled(s, Work(x)) && s.workers[x].Checking?
    requires s.masters[s.workers[x].m].active == Some(s.workers[x].t)
    ensures Masters(WorkStep(s, x)) && Workers(WorkStep(s, x)) && Serials(WorkStep(s, x))
  {
    var s' := WorkStep(s, x);
    var a := s.workers[x].t;
    assert WorkerOk(s, x) && TaskOk(s, a);
    assert MasterOk(s, s.workers[x].m) && RegOk(s, s.workers[x].m, a);
    forall k: nat ensures MasterOk(s', k) { assert MasterOk(s, k); Pending(s, k, a); }
    forall w: nat ensures WorkerOk(s', w) { assert WorkerOk(s, w); }
    forall t: nat, u: nat ensures SerialOk(s', t, u) { assert SerialOk(s, t, u); }
  }

  /** The callback starts for the pending registration. */
  lemma StartKeepsInv(s: State, x: nat)
    requires Inv(s) && Enabled(s, Work(x)) && s.workers[x].Checking?
    requires s.masters[s.workers[x].m].active == Some(s.workers[x].t)
    ensures Inv(WorkStep(s, x))
  {
    StartKeepsPlaces(s, x);
    StartKeepsCalls(s, x);
  }

  /** Any other registration is given up. */
  lemma MisfireKeepsInv(s: State, x: nat)
    requires Inv(s) && Enabled(s, Work(x)) && s.workers[x].Checking?
    requires s.masters[s.workers[x].m].active != Some(s.workers[x].t)
    ensures Inv(WorkStep(s, x))
  {
    var s' := WorkStep(s, x);
    var a := s.workers[x].t;
    assert WorkerOk(s, x) && TaskOk(s, a);
    assert MasterOk(s, s.workers[x].m) && RegOk(s, s.workers[x].m, a);
    forall t: nat ensures TaskOk(s', t) { assert TaskOk(s, t); }
    forall w: nat, t: nat ensures ReleasedOk(s', w, t) { assert ReleasedOk(s, w, t); }
    forall k: nat, t: nat ensures RegOk(s', k, t) { assert RegOk(s, k, t); }
    forall k: nat, t: nat ensures RevokedOk(s', k, t) { assert RevokedOk(s, k, t) && RegOk(s, k, t); }
    forall k: nat ensures MasterOk(s', k) { assert MasterOk(s, k); Pending(s, k, a); }
    forall w: nat ensures WorkerOk(s', w) { assert WorkerOk(s, w); }
    forall t: nat, u: nat ensures SerialOk(s', t, u) { assert SerialOk(s, t, u); }
  }

  lemma CallingKeepsPlaces(s: State, x: nat)
    requires Inv(s) && Enabled(s, Work(x)) && s.workers[x].Calling?
    ensures !WorkStep(s, x).crashed && LogOk(WorkStep(s, x)) && Tasks(WorkStep(s, x)) && Releases(WorkStep(s, x))
    ensures Regs(WorkStep(s, x)) && Revokes(WorkStep(s, x))
  {
    var s' := WorkStep(s, x);
    var a := s.workers[x].t;
    assert WorkerOk(s, x) && TaskOk(s, a);
    assert MasterOk(s, s.workers[x].m) && RegOk(s, s.workers[x].m, a);
    forall t: nat ensures TaskOk(s', t) { assert TaskOk(s, t); }
    forall w: nat, t: nat ensures ReleasedOk(s', w, t) { assert ReleasedOk(s, w, t); }
    forall k: nat, t: nat ensures RegOk(s', k, t) { assert RegOk(s, k, t); }
    forall k: nat, t: nat ensures RevokedOk(s', k, t) { assert RevokedOk(s, k, t) && RegOk(s, k, t); }
  }

  lemma CallingKeepsCalls(s: State, x: nat)
    requires Inv(s) && Enabled(s, Work(x)) && s.workers[x].Calling?
    ensures Masters(WorkStep(s, x)) && Workers(WorkStep(s, x)) && Serials(WorkStep(s, x))
  {
    var s' := WorkStep(s, x);
    var a := s.workers[x].t;
    assert WorkerOk(s, x) && TaskOk(s, a);
    assert MasterOk(s, s.workers[x].m) && RegOk(s, s.workers[x].m, a);
    forall k: nat ensures MasterOk(s', k) { assert MasterOk(s, k); Pending(s, k, a); }
    forall w: nat ensures WorkerOk(s', w) { assert WorkerOk(s, w); }
    forall t: nat, u: nat ensures SerialOk(s', t, u) { assert SerialOk(s, t, u); }
  }

  lemma CallingKeepsInv(s: State, x: nat)
    requires Inv(s) && Enabled(s, Work(x)) && s.workers[x].Calling?
    ensures Inv(WorkStep(s, x))
  {
    CallingKeepsPlaces(s, x);
    CallingKeepsCalls(s, x);
  }

  lemma EndingKeepsPlaces(s: State, x: nat)
    requires Inv(s) && Enabled(s, Work(x)) && s.workers[x].Ending?
    ensures !WorkStep(s, x).crashed && LogOk(WorkStep(s, x)) && Tasks(WorkStep(s, x)) && Releases(WorkStep(s, x))
    ensures Regs(WorkStep(s, x)) && Revokes(WorkStep(s, x))
  {
    var s' := WorkStep(s, x);
    var a := s.workers[x].t;
    assert WorkerOk(s, x) && TaskOk(s, a);
    assert MasterOk(s, s.workers[x].m) && RegOk(s, s.workers[x].m, a);
    forall t: nat ensures TaskOk(s', t) { assert TaskOk(s, t); }
    forall w: nat, t: nat ensures ReleasedOk(s', w, t) { assert ReleasedOk(s, w, t); }
    forall k: nat, t: nat ensures RegOk(s', k, t) { assert RegOk(s, k, t); }
    forall k: nat, t: nat ensures RevokedOk(s', k, t) { assert RevokedOk(s, k, t) && RegOk(s, k, t); }
  }

  lemma EndingKeepsMasters(s: State, x: nat)
    requires Inv(s) && Enabled(s, Work(x)) && s.workers[x].Ending?
    ensures Masters(WorkStep(s, x))
  {
    var s' := WorkStep(s, x);
    var a := s.workers[x].t;
    assert WorkerOk(s, x) && TaskOk(s, a);
    assert MasterOk(s, s.workers[x].m) && RegOk(s, s.workers[x].m, a);
    forall k: nat ensures MasterOk(s', k) { assert MasterOk(s, k); Pending(s, k, a); }
  }

  lemma EndingKeepsWorkers(s: State, x: nat)
    requires Inv(s) && Enabled(s, Work(x)) && s.workers[x].Ending?
    ensures Workers(WorkStep(s, x)) && Serials(WorkStep(s, x))
  {
    var s' := WorkStep(s, x);
    var a := s.workers[x].t;
    assert WorkerOk(s, x) && TaskOk(s, a);
    assert MasterOk(s, s.workers[x].m) && RegOk(s, s.workers[x].m, a);
    forall w: nat ensures WorkerOk(s', w) { assert WorkerOk(s, w); }
    forall t: nat, u: nat ensures SerialOk(s', t, u) { assert SerialOk(s, t, u); }
  }

  lemma EndingKeepsInv(s: State, x: nat)
    requires Inv(s) && Enabled(s, Work(x)) && s.workers[x].Ending?
    ensures Inv(WorkStep(s, x))
  {
    EndingKeepsPlaces(s, x);
    EndingKeepsMasters(s, x);
    EndingKeepsWorkers(s, x);
  }

  lemma PushingKeepsPlaces(s: State, x: nat)
    requires Inv(s) && Enabled(s, Work(x)) && s.workers[x].Pushing?
    ensures !WorkStep(s, x).crashed && LogOk(WorkStep(s, x)) && Tasks(WorkStep(s, x)) && Releases(WorkStep(s, x))
    ensures Regs(WorkStep(s, x)) && Revokes(WorkStep(s, x))
  {
    var s' := WorkStep(s, x);
    var a := s.workers[x].t;
    assert WorkerOk(s, x) && TaskOk(s, a);
    assert MasterOk(s, s.workers[x].m) && RegOk(s, s.workers[x].m, a);
    forall t: nat ensures TaskOk(s', t) { assert TaskOk(s, t); }
    forall w: nat, t: nat ensures ReleasedOk(s', w, t) { assert ReleasedOk(s, w, t); }
    forall k: nat, t: nat ensures RegOk(s', k, t) { assert RegOk(s, k, t); }
    forall k: nat, t: nat ensures RevokedOk(s', k, t) { assert RevokedOk(s, k, t) && RegOk(s, k, t); }
  }

  lemma PushingKeepsMasters(s: State, x: nat)
    requires Inv(s) && Enabled(s, Work(x)) && s.workers[x].Pushing?
    ensures Masters(WorkStep(s, x))
  {
    var s' := WorkStep(s, x);
    var a := s.workers[x].t;
    assert WorkerOk(s, x) && TaskOk(s, a);
    assert MasterOk(s, s.workers[x].m) && RegOk(s, s.workers[x].m, a);
    forall k: nat ensures MasterOk(s', k) { assert MasterOk(s, k); Pending(s, k, a); }
  }

  lemma PushingKeepsWorkers(s: State, x: nat)
    requires Inv(s) && Enabled(s, Work(x)) && s.workers[x].Pushing?
    ensures Workers(WorkStep(s, x)) && Serials(WorkStep(s, x))
  {
    var s' := WorkStep(s, x);
    var a := s.workers[x].t;
    assert WorkerOk(s, x) && TaskOk(s, a);
    assert MasterOk(s, s.workers[x].m) && RegOk(s, s.workers[x].m, a);
    forall w: nat ensures WorkerOk(s', w) { assert WorkerOk(s, w); }
    forall t: nat, u: nat ensures SerialOk(s', t, u) { assert SerialOk(s, t, u); }
  }

  lemma PushingKeepsInv(s: State, x: nat)
    requires Inv(s) && Enabled(s, Work(x)) && s.workers[x].Pushing?
    ensures Inv(WorkStep(s, x))
  {
    PushingKeepsPlaces(s, x);
    PushingKeepsMasters(s, x);
    PushingKeepsWorkers(s, x);
  }

  // Every move

  lemma ContinueKeepsInv(s: State, m: nat, pick: Option<nat>)
    requires Inv(s) && ContinueReady(s, m, pick)
    ensures Inv(ContinueStep(s, m, pick))
  {
    assert MasterOk(s, m);
    match s.masters[m].call
    case AtCancel(_) =>
      if s.masters[m].active.None? {
        CancelNoneKeepsInv(s, m);
      } else if s.tasks[s.masters[m].active.value].state.ACTIVE? {
        CancelActiveKeepsInv(s, m);
      } else {
        CancelFiringKeepsInv(s, m);
      }
    case AtFree(_, _) => FreeKeepsInv(s, m);
    case AtBorrow(_) => if pick.Some? { BorrowOldKeepsInv(s, m, pick); } else { BorrowNewKeepsInv(s, m); }
    case AtArm(_) => ArmKeepsInv(s, m);
    case AtInsert(_) => InsertKeepsInv(s, m);
    case AtRevoke(_) =>
      if pick.None? {
        RevokeEndKeepsInv(s, m);
      } else if s.tasks[pick.value].state.ACTIVE? {
        RevokeActiveKeepsInv(s, m, pick);
      } else {
        RevokeFiringKeepsInv(s, m, pick);
      }
    case AtRevokeFree(_, _) => RevokeFreeKeepsInv(s, m);
    case _ =>
  }

  lemma WorkKeepsInv(s: State, x: nat)
    requires Inv(s) && Enabled(s, Work(x))
    ensures Inv(WorkStep(s, x))
  {
    match s.workers[x]
    case Idle =>
    case AtCas(t) => if s.tasks[t].state.ACTIVE? { CasActiveKeepsInv(s, x); } else { CasLostKeepsInv(s, x); }
    case Locking(_, _) => LockKeepsInv(s, x);
    case Checking(t, m) => if s.masters[m].active == Some(t) { StartKeepsInv(s, x); } else { MisfireKeepsInv(s, x); }
    case Calling(_, _) => CallingKeepsInv(s, x);
    case Called(_, _) => LockKeepsInv(s, x);
    case Ending(_, _) => EndingKeepsInv(s, x);
    case Pushing(_, _) => PushingKeepsInv(s, x);
  }

  // ----------------------------------------------------------------------------------------
  // Timer sets
  // ----------------------------------------------------------------------------------------

  /** A task's note says exactly whether it is in the timer set of its worker. */
  ghost predicate TimerOk(s: State, w: nat, t: nat)
  {
    w < |s.timers| ==> (t in s.timers[w] <==> t < |s.tasks| && s.tasks[t].queued && s.tasks[t].worker == w)
  }

  ghost predicate Timers(s: State)
  {
    |s.timers| == |s.workers| && forall w: nat, t: nat {:trigger TimerOk(s, w, t)} :: TimerOk(s, w, t)
  }

  /** A step that leaves the notes and the sets alone; new tasks are in no set. */
  lemma TimersFrame(s: State, s': State)
    requires Timers(s) && s'.timers == s.timers && |s'.workers| == |s.workers| && |s.tasks| <= |s'.tasks|
    requires forall t: nat :: t < |s.tasks| ==>
               s'.tasks[t].queued == s.tasks[t].queued && s'.tasks[t].worker == s.tasks[t].worker
    requires forall t: nat :: |s.tasks| <= t < |s'.tasks| ==> !s'.tasks[t].queued
    ensures Timers(s')
  {
    forall w: nat, t: nat ensures TimerOk(s', w, t) { assert TimerOk(s, w, t); }
  }

  lemma ContinueKeepsTimers(s: State, m: nat, pick: Option<nat>)
    requires Inv(s) && Timers(s) && ContinueReady(s, m, pick)
    ensures Timers(ContinueStep(s, m, pick))
  {
    var s' := ContinueStep(s, m, pick);
    assert MasterOk(s, m);
    match s.masters[m].call
    case AtBorrow(w) =>
      if pick.Some? {
        assert ReleasedOk(s, w, pick.value) && TaskOk(s, pick.value);
        forall v: nat, t: nat ensures TimerOk(s', v, t) { assert TimerOk(s, v, t); }
      } else {
        TimersFrame(s, s');
      }
    case AtInsert(t) =>
      forall v: nat, u: nat ensures TimerOk(s', v, u) { assert TimerOk(s, v, u); }
    case _ => TimersFrame(s, s');
  }

  lemma NextKeepsTimers(s: State, mv: Move)
    requires Inv(s) && Timers(s) && Enabled(s, mv)
    ensures Timers(Next(s, mv))
  {
    var s' := Next(s, mv);
    match mv
    case Continue(m, pick) => ContinueKeepsTimers(s, m, pick);
    case Expire(w, t) =>
      assert TimerOk(s, w, t);
      forall v: nat, u: nat ensures TimerOk(s', v, u) { assert TimerOk(s, v, u); }
    case Work(w) => assert WorkerOk(s, w); TimersFrame(s, s');
    case _ => TimersFrame(s, s');
  }

  lemma NextKeepsInv(s: State, mv: Move)
    requires Inv(s) && Timers(s) && Enabled(s, mv)
    ensures Inv(Next(s, mv))
  {
    match mv
    case BeginCancel(m) => CallKeepsInv(s, m, AtCancel(None), false);
    case BeginReschedule(m, w) => CallKeepsInv(s, m, AtCancel(Some(w)), s.masters[m].on);
    case BeginDestroy(m) => DestroyKeepsInv(s, m);
    case Continue(m, pick) => ContinueKeepsInv(s, m, pick);
    case Drained(m) => DrainedKeepsInv(s, m);
    case Expire(w, t) => assert TimerOk(s, w, t); ExpireKeepsInv(s, w, t);
    case Work(w) => WorkKeepsInv(s, w);
  }

  lemma InitInv(s: State)
    requires Init(s)
    ensures Inv(s)
  {
    forall w: nat, t: nat ensures ReleasedOk(s, w, t) {}
    forall m: nat ensures MasterOk(s, m) {}
    forall w: nat ensures WorkerOk(s, w) {}
  }

  lemma {:induction false} RunKeepsInv(run: seq<State>, moves: seq<Move>, n: nat)
    requires IsRun(run, moves) && n < |run|
    ensures Inv(run[n]) && Timers(run[n])
  {
    if n == 0 {
      InitInv(run[0]);
      forall w: nat, t: nat ensures TimerOk(run[0], w, t) {}
    } else {
      RunKeepsInv(run, moves, n - 1);
      NextKeepsInv(run[n - 1], moves[n - 1]);
      NextKeepsTimers(run[n - 1], moves[n - 1]);
    }
  }

  // ----------------------------------------------------------------------------------------
  // A pending registration is on its way
  // ----------------------------------------------------------------------------------------

  /** A registration that is neither revoked nor being fired is about to be inserted, in the timer set, or in the hands
      of its worker. */
  ghost predicate ArmedOk(s: State, t: nat)
  {
    t < |s.tasks| && s.tasks[t].state.ACTIVE? && s.tasks[t].at.InReg? ==>
      var y := s.tasks[t];
      || (y.master < |s.masters| && s.masters[y.master].call == AtInsert(t))
      || y.queued
      || (y.worker < |s.workers| && s.workers[y.worker] == AtCas(t))
  }

  ghost predicate AllArmed(s: State) { forall t: nat {:trigger ArmedOk(s, t)} :: ArmedOk(s, t) }

  lemma ContinueKeepsArmed(s: State, m: nat, pick: Option<nat>, t: nat)
    requires Inv(s) && ContinueReady(s, m, pick) && ArmedOk(s, t)
    ensures ArmedOk(ContinueStep(s, m, pick), t)
  {
    assert MasterOk(s, m) && TaskOk(s, t);
    if s.masters[m].call.AtBorrow? && pick.Some? {
      assert ReleasedOk(s, s.masters[m].call.w, pick.value);
    }
  }

  lemma WorkKeepsArmed(s: State, w: nat, t: nat)
    requires Inv(s) && Enabled(s, Work(w)) && ArmedOk(s, t)
    ensures ArmedOk(WorkStep(s, w), t)
  {
    assert WorkerOk(s, w) && TaskOk(s, t);
    if !s.workers[w].Idle? && !s.workers[w].AtCas? { assert MasterOk(s, s.workers[w].m); }
  }

  lemma NextKeepsArmed(s: State, mv: Move)
    requires Inv(s) && Timers(s) && Enabled(s, mv) && AllArmed(s)
    ensures AllArmed(Next(s, mv))
  {
    forall t: nat ensures ArmedOk(Next(s, mv), t)
    {
      assert ArmedOk(s, t) && TaskOk(s, t);
      match mv
      case Continue(m, pick) => ContinueKeepsArmed(s, m, pick, t);
      case Work(w) => WorkKeepsArmed(s, w, t);
      case Expire(w, u) => assert TimerOk(s, w, u) && TaskOk(s, u);
      case _ =>
    }
  }

  lemma {:induction false} RunKeepsArmed(run: seq<State>, moves: seq<Move>, n: nat)
    requires IsRun(run, moves) && n < |run|
    ensures AllArmed(run[n])
  {
    if n > 0 {
      RunKeepsArmed(run, moves, n - 1);
      RunKeepsInv(run, moves, n - 1);
      NextKeepsArmed(run[n - 1], moves[n - 1]);
    }
  }

  /** No registration is lost: while it is pending and no call of its task is at work, it is in the timer set of its
      worker or that worker is on its way to start the callback. */
  lemma PendingIsArmed(run: seq<State>, moves: seq<Move>, n: nat, m: nat)
    requires IsRun(run, moves) && n < |run| && m < |run[n].masters|
    requires run[n].masters[m].active.Some? && !run[n].masters[m].call.AtFree? && !run[n].masters[m].call.AtInsert?
    ensures var s, t := run[n], run[n].masters[m].active.value;
            && t < |s.tasks| && s.tasks[t].worker < |s.workers| == |s.timers|
            && var w := s.tasks[t].worker;
               || t in s.timers[w]
               || s.workers[w] == AtCas(t) || s.workers[w] == Locking(t, m) || s.workers[w] == Checking(t, m)
  {
    RunKeepsInv(run, moves, n);
    RunKeepsArmed(run, moves, n);
    var s, t := run[n], run[n].masters[m].active.value;
    assert MasterOk(s, m) && TaskOk(s, t) && RegOk(s, m, t) && ArmedOk(s, t) && TimerOk(s, s.tasks[t].worker, t);
  }

  /** A worker that takes the pending registration of an idle task from its timer set starts the callback. */
  lemma ExpiryStarts(s: State, w: nat, t: nat)
    requires Inv(s) && Timers(s) && Enabled(s, Expire(w, t)) && s.tasks[t].master < |s.masters|
    requires s.masters[s.tasks[t].master].active == Some(t) && s.masters[s.tasks[t].master].call.Unlocked?
    ensures var s1 := Next(s, Expire(w, t));
            && s1.workers[w] == AtCas(t) && Enabled(s1, Work(w))
            && var s2 := Next(s1, Work(w));
               && Enabled(s2, Work(w))
               && var s3 := Next(s2, Work(w));
                  && Enabled(s3, Work(w))
                  && Next(s3, Work(w)).workers[w] == Calling(t, s.tasks[t].master)
                  && Next(s3, Work(w)).started == s.started + {s.tasks[t].reg}
  {
    assert TimerOk(s, w, t) && TaskOk(s, t) && MasterOk(s, s.tasks[t].master) && RegOk(s, s.tasks[t].master, t);
  }

  // ----------------------------------------------------------------------------------------
  // Counting
  // ----------------------------------------------------------------------------------------

  function InCall(pc: Pc, m: nat): (n: nat)
  {
    if pc.Calling? && pc.m == m then 1 else 0
  }

  /** Callbacks of master m that have been started and have not called try_fire() yet. */
  function Calls(ws: seq<Pc>, m: nat): (n: nat)
  {
    if ws == [] then 0 else InCall(ws[0], m) + Calls(ws[1..], m)
  }

  lemma {:induction false} CallsUpdate(ws: seq<Pc>, w: nat, pc: Pc, m: nat)
    requires w < |ws|
    ensures Calls(ws[w := pc], m) == Calls(ws, m) - InCall(ws[w], m) + InCall(pc, m)
  {
    if w == 0 {
      assert ws[w := pc][1..] == ws[1..];
    } else {
      CallsUpdate(ws[1..], w - 1, pc, m);
      assert ws[w := pc][1..] == ws[1..][w - 1 := pc];
    }
  }

  /** _n_scheduled counts the pending registration and the callbacks in flight; no try_fire() without a reschedule(). */
  ghost predicate CountOk(s: State, m: nat)
  {
    m < |s.masters| ==>
      var x := s.masters[m];
      && (!x.terminating ==> x.n == (if x.active.Some? then 1 else 0) + Calls(s.workers, m))
      && x.wins + (if x.on then 1 else 0) <= x.arms
  }

  /** A step that neither starts a callback nor calls try_fire() counts nothing. */
  lemma QuietWork(s: State, w: nat, m: nat)
    requires WorkerOk(s, w) && w < |s.workers| && WorkReady(s, w) && m < |s.masters|
    requires !s.workers[w].Checking? && !s.workers[w].Calling?
    ensures var s' := WorkStep(s, w);
            |s'.masters| == |s.masters| &&
            s'.masters[m] == s.masters[m].(call := s'.masters[m].call, regs := s'.masters[m].regs)
  {
  }

  lemma QuietCalls(s: State, w: nat, m: nat)
    requires WorkerOk(s, w) && w < |s.workers| && WorkReady(s, w)
    requires !s.workers[w].Checking? && !s.workers[w].Calling?
    ensures var s' := WorkStep(s, w);
            s'.workers == s.workers[w := s'.workers[w]] && InCall(s'.workers[w], m) == InCall(s.workers[w], m) == 0
  {
  }

  lemma WorkKeepsCount(s: State, w: nat, m: nat)
    requires Inv(s) && Enabled(s, Work(w)) && CountOk(s, m)
    ensures CountOk(WorkStep(s, w), m)
  {
    var s' := WorkStep(s, w);
    assert WorkerOk(s, w);
    CallsUpdate(s.workers, w, s'.workers[w], m);
    if m < |s.masters| && !s.workers[w].Checking? && !s.workers[w].Calling? {
      QuietWork(s, w, m);
      QuietCalls(s, w, m);
    }
  }

  lemma ContinueKeepsCount(s: State, k: nat, pick: Option<nat>, m: nat)
    requires Inv(s) && ContinueReady(s, k, pick) && CountOk(s, m)
    ensures CountOk(ContinueStep(s, k, pick), m)
  {
    assert MasterOk(s, k);
  }

  lemma NextKeepsCount(s: State, mv: Move, m: nat)
    requires Inv(s) && Enabled(s, mv) && CountOk(s, m)
    ensures CountOk(Next(s, mv), m)
  {
    match mv
    case Work(w) => WorkKeepsCount(s, w, m);
    case Expire(w, t) => CallsUpdate(s.workers, w, AtCas(t), m);
    case Continue(k, pick) => ContinueKeepsCount(s, k, pick, m);
    case _ =>
  }

  lemma {:induction false} NoCalls(ws: seq<Pc>, m: nat)
    requires forall w: nat :: w < |ws| ==> ws[w].Idle?
    ensures Calls(ws, m) == 0
  {
    if ws != [] {
      NoCalls(ws[1..], m);
    }
  }

  lemma {:induction false} RunKeepsCount(run: seq<State>, moves: seq<Move>, n: nat, m: nat)
    requires IsRun(run, moves) && n < |run|
    ensures CountOk(run[n], m)
  {
    if n == 0 {
      NoCalls(run[0].workers, m);
    } else {
      RunKeepsCount(run, moves, n - 1, m);
      RunKeepsInv(run, moves, n - 1);
      NextKeepsCount(run[n - 1], moves[n - 1], m);
    }
  }

  // ----------------------------------------------------------------------------------------
  // Runs
  // ----------------------------------------------------------------------------------------

  /** No assertion about a task's state or its place in the timer set fails. */
  lemma NeverCrashes(run: seq<State>, moves: seq<Move>, n: nat)
    requires IsRun(run, moves) && n < |run|
    ensures !run[n].crashed
  {
    RunKeepsInv(run, moves, n);
  }

  /** A step that starts a callback starts it for a registration that was neither started nor cancelled before. */
  lemma StartsAtMostOnce(run: seq<State>, moves: seq<Move>, n: nat, w: nat)
    requires IsRun(run, moves) && n < |moves| && moves[n] == Work(w)
    requires run[n].workers[w].Checking? && run[n + 1].workers[w].Calling?
    ensures var t := run[n].workers[w].t;
            && t < |run[n].tasks| && run[n].tasks[t].reg !in run[n].started && run[n].tasks[t].reg !in run[n].cancelled
            && run[n + 1].started == run[n].started + {run[n].tasks[t].reg}
  {
    RunKeepsInv(run, moves, n);
    var s := run[n];
    assert WorkerOk(s, w) && MasterOk(s, s.workers[w].m);
  }

  /** A cancel() that returned true is final: that registration's callback is never started. */
  lemma CancelledNeverStarts(run: seq<State>, moves: seq<Move>, n: nat)
    requires IsRun(run, moves) && n < |run|
    ensures run[n].started !! run[n].cancelled
  {
    RunKeepsInv(run, moves, n);
  }

  /** Every per-CPU task is in the registrations of exactly one master, or once in the released queue of its own worker,
      or in the hands of exactly one call or worker. */
  lemma TaskIsInOnePlace(run: seq<State>, moves: seq<Move>, n: nat, t: nat)
    requires IsRun(run, moves) && n < |run| && t < |run[n].tasks|
    ensures var s, y := run[n], run[n].tasks[t];
            && (forall m: nat :: m < |s.masters| ==> (t in s.masters[m].regs <==> y.at.InReg? && y.master == m))
            && (forall w: nat :: w < |s.released| ==> s.released[w][t] == if y.at.InReleased? && y.worker == w then 1
                else 0)
            && (y.at.InReg? ==> y.master < |s.masters|) && (y.at.InReleased? ==> y.worker < |s.released|)
  {
    RunKeepsInv(run, moves, n);
    var s, y := run[n], run[n].tasks[t];
    assert TaskOk(s, t);
    forall m: nat | m < |s.masters|
      ensures t in s.masters[m].regs <==> y.at.InReg? && y.master == m
    {
      assert RegOk(s, m, t);
    }
    forall w: nat | w < |s.released|
      ensures s.released[w][t] == if y.at.InReleased? && y.worker == w then 1 else 0
    {
      assert ReleasedOk(s, w, t);
    }
  }

  /** When the destructor has returned, no worker is between taking a task of this master and giving it up, and none of
      its tasks can still be taken. */
  lemma DestroyedIsUntouched(run: seq<State>, moves: seq<Move>, n: nat, m: nat)
    requires IsRun(run, moves) && n < |run| && m < |run[n].masters| && run[n].masters[m].gone
    ensures forall w: nat :: w < |run[n].workers| ==>
              run[n].workers[w].Idle? || run[n].workers[w].AtCas? || run[n].workers[w].m != m
    ensures forall t: nat :: t < |run[n].tasks| && run[n].tasks[t].at.InReg? ==> run[n].tasks[t].master != m
  {
    RunKeepsInv(run, moves, n);
    var s := run[n];
    assert MasterOk(s, m);
    forall w: nat | w < |s.workers| ensures s.workers[w].Idle? || s.workers[w].AtCas? || s.workers[w].m != m
    {
      assert WorkerOk(s, w);
      if !s.workers[w].Idle? { assert TaskOk(s, s.workers[w].t); }
    }
    forall t: nat | t < |s.tasks| && s.tasks[t].at.InReg? ensures s.tasks[t].master != m { assert TaskOk(s, t); }
  }

  /** While the destructor waits, everything it waits for is being fired, so each worker on its way ends the wait. */
  lemma DrainingIsFiring(run: seq<State>, moves: seq<Move>, n: nat, m: nat, t: nat)
    requires IsRun(run, moves) && n < |run| && m < |run[n].masters| && run[n].masters[m].revoked
             && t in run[n].masters[m].regs
    ensures t < |run[n].tasks| && run[n].tasks[t].worker < |run[n].workers|
    ensures Fires(run[n].workers[run[n].tasks[t].worker], t, m)
  {
    RunKeepsInv(run, moves, n);
    assert RevokedOk(run[n], m, t) && RegOk(run[n], m, t) && TaskOk(run[n], t);
  }

  /** _n_scheduled equals pending plus in-flight fires, and try_fire() succeeded at most once per reschedule(). */
  lemma ScheduledIsCounted(run: seq<State>, moves: seq<Move>, n: nat, m: nat)
    requires IsRun(run, moves) && n < |run| && m < |run[n].masters| && !run[n].masters[m].terminating
    ensures run[n].masters[m].n == (if run[n].masters[m].active.Some? then 1 else 0) + Calls(run[n].workers, m)
    ensures run[n].masters[m].wins <= run[n].masters[m].arms
  {
    RunKeepsCount(run, moves, n, m);
  }

  /** try_fire() returns true in this step. */
  predicate Wins(s: State, s': State, m: nat)
  {
    m < |s.masters| && m < |s'.masters| && s'.masters[m].wins != s.masters[m].wins
  }

  /** Whether, in the first n moves, the last reschedule() came after the last cancel() and the last try_fire() that
      returned true. */
  ghost function ActiveAfter(run: seq<State>, moves: seq<Move>, n: nat, m: nat): (on: bool)
    requires |run| == |moves| + 1 && n < |run|
  {
    if n == 0 then false
    else
      var s, s', mv := run[n - 1], run[n], moves[n - 1];
      if mv == BeginCancel(m) || Wins(s, s', m) then false
      else if mv.Continue? && mv.m == m < |s.masters| && s.masters[m].call.AtArm? then true
      else ActiveAfter(run, moves, n - 1, m)
  }

  /** What a step does to the flag of serial_timer_task and to the count of its fires. */
  lemma NextActive(s: State, mv: Move, m: nat)
    requires Inv(s) && Timers(s) && Enabled(s, mv) && m < |s.masters|
    ensures m < |Next(s, mv).masters|
    ensures Wins(s, Next(s, mv), m) <==>
              && mv.Work? && s.workers[mv.w].Calling? && s.workers[mv.w].m == m
              && s.masters[m].active.None? && s.masters[m].on
    ensures Next(s, mv).masters[m].on ==
            if mv == BeginCancel(m) || Wins(s, Next(s, mv), m) then false
            else if mv.Continue? && mv.m == m && s.masters[m].call.AtArm? then true
            else s.masters[m].on
  {
    match mv
    case Work(w) => if !s.workers[w].Checking? && !s.workers[w].Calling? { QuietMaster(s, w, m); }
    case Continue(k, pick) => assert MasterOk(s, k);
    case _ =>
  }

  lemma QuietMaster(s: State, w: nat, m: nat)
    requires Inv(s) && Enabled(s, Work(w)) && m < |s.masters| && !s.workers[w].Checking? && !s.workers[w].Calling?
    ensures var s' := WorkStep(s, w);
            && |s'.masters| == |s.masters| && s'.masters[m].on == s.masters[m].on
            && s'.masters[m].wins == s.masters[m].wins
  {
    assert WorkerOk(s, w);
    QuietWork(s, w, m);
  }

  lemma {:induction false} RunActive(run: seq<State>, moves: seq<Move>, n: nat, m: nat)
    requires IsRun(run, moves) && n < |run| && m < |run[0].masters|
    ensures m < |run[n].masters| && run[n].masters[m].on == ActiveAfter(run, moves, n, m)
  {
    if n > 0 {
      RunActive(run, moves, n - 1, m);
      RunKeepsInv(run, moves, n - 1);
      NextActive(run[n - 1], moves[n - 1], m);
    }
  }

  /** A try_fire() returns true exactly when nothing is pending and the task was rescheduled since the last cancel() and
      since the last try_fire() that did. */
  lemma FiresExactly(run: seq<State>, moves: seq<Move>, n: nat, w: nat)
    requires IsRun(run, moves) && n < |moves| && moves[n] == Work(w) && run[n].workers[w].Calling?
    requires run[n].workers[w].m < |run[0].masters|
    ensures var m := run[n].workers[w].m;
            && m < |run[n].masters|
            && (Wins(run[n], run[n + 1], m) <==> run[n].masters[m].active.None? && ActiveAfter(run, moves, n, m))
  {
    var m := run[n].workers[w].m;
    RunActive(run, moves, n, m);
    RunKeepsInv(run, moves, n);
    NextActive(run[n], moves[n], m);
  }

  // ----------------------------------------------------------------------------------------
  // The assertion of cancel_sync()
  // ----------------------------------------------------------------------------------------

  /** A step that does not register anew never raises the count. */
  lemma NextArms(s: State, mv: Move, m: nat)
    requires Inv(s) && Enabled(s, mv) && m < |s.masters|
    ensures m < |Next(s, mv).masters|
    ensures var x, x' := s.masters[m], Next(s, mv).masters[m];
            x.arms <= x'.arms && (x'.arms == x.arms ==> x'.n <= x.n)
  {
    match mv
    case Work(w) => if !s.workers[w].Checking? && !s.workers[w].Calling? { QuietWork(s, w, m); }
    case Continue(k, pick) => assert MasterOk(s, k);
    case _ =>
  }

  lemma {:induction false} RunArms(run: seq<State>, moves: seq<Move>, k: nat, n: nat, m: nat)
    requires IsRun(run, moves) && k <= n < |run| && m < |run[k].masters|
    ensures m < |run[n].masters|
    ensures var x, x' := run[k].masters[m], run[n].masters[m];
            x.arms <= x'.arms && (x'.arms == x.arms ==> x'.n <= x.n)
  {
    if k < n {
      RunArms(run, moves, k, n - 1, m);
      RunKeepsInv(run, moves, n - 1);
      NextArms(run[n - 1], moves[n - 1], m);
    }
  }

  /** cancel_sync() waits for the count to reach zero, which it does at step k, and takes the mutex again at step n.
      Its assertion then holds exactly when nothing is pending and no fire is in flight; it holds for sure if nobody
      has rescheduled in between. */
  lemma CancelSyncHolds(run: seq<State>, moves: seq<Move>, k: nat, n: nat, m: nat)
    requires IsRun(run, moves) && k <= n < |run| && m < |run[k].masters| && run[k].masters[m].n == 0
    requires m < |run[n].masters| && !run[n].masters[m].terminating
    ensures run[n].masters[m].n == 0 <==> run[n].masters[m].active.None? && Calls(run[n].workers, m) == 0
    ensures run[n].masters[m].arms == run[k].masters[m].arms ==> run[n].masters[m].n == 0
  {
    RunArms(run, moves, k, n, m);
    ScheduledIsCounted(run, moves, n, m);
  }

  /** _all_done is woken exactly when a try_fire() takes the count from one to zero. */
  lemma WokenExactly(s: State, mv: Move, m: nat)
    requires Inv(s) && Timers(s) && Enabled(s, mv) && m < |s.masters|
    ensures m < |Next(s, mv).masters| && (s.masters[m].terminating ==> Next(s, mv).masters[m].terminating)
    ensures Next(s, mv).masters[m].wakes == s.masters[m].wakes +
              if mv.Work? && s.workers[mv.w].Calling? && s.workers[mv.w].m == m && s.masters[m].n == 1 then 1 else 0
  {
    match mv
    case Work(w) =>
      assert WorkerOk(s, w);
      if !s.workers[w].Checking? && !s.workers[w].Calling? { QuietWork(s, w, m); }
    case Continue(k, pick) => assert MasterOk(s, k);
    case _ =>
  }

  /** The count is zero at step k, and up to step n nobody reschedules or destroys the task. */
  ghost predicate Undisturbed(run: seq<State>, moves: seq<Move>, k: nat, n: nat, m: nat)
  {
    && IsRun(run, moves) && k <= n < |run| && m < |run[k].masters| && run[k].masters[m].n == 0
    && m < |run[n].masters| && !run[n].masters[m].terminating
    && run[n].masters[m].arms == run[k].masters[m].arms
  }

  /** A cancel_sync() that waits while the count is zero is not woken before somebody reschedules. */
  lemma {:induction false} SleepsOn(run: seq<State>, moves: seq<Move>, k: nat, n: nat, m: nat)
    requires Undisturbed(run, moves, k, n, m)
    ensures run[n].masters[m].wakes == run[k].masters[m].wakes
  {
    if k < n {
      SleepsBefore(run, moves, k, n, m);
      SleepsOn(run, moves, k, n - 1, m);
    }
  }

  lemma SleepsBefore(run: seq<State>, moves: seq<Move>, k: nat, n: nat, m: nat)
    requires k < n && Undisturbed(run, moves, k, n, m)
    ensures Undisturbed(run, moves, k, n - 1, m) && run[n].masters[m].wakes == run[n - 1].masters[m].wakes
  {
    ArmsBetween(run, moves, k, n - 1, n, m);
    SleepsThrough(run, moves, n, m);
    ZeroBetween(run, moves, k, n - 1, m);
  }

  lemma ArmsBetween(run: seq<State>, moves: seq<Move>, k: nat, j: nat, n: nat, m: nat)
    requires IsRun(run, moves) && k <= j <= n < |run| && m < |run[k].masters| && m < |run[n].masters|
    requires run[n].masters[m].arms == run[k].masters[m].arms
    ensures m < |run[j].masters| && run[j].masters[m].arms == run[k].masters[m].arms
  {
    RunArms(run, moves, k, j, m);
    RunArms(run, moves, j, n, m);
  }

  lemma ZeroBetween(run: seq<State>, moves: seq<Move>, k: nat, j: nat, m: nat)
    requires Undisturbed(run, moves, k, j, m)
    ensures run[j].masters[m].n == 0
  {
    CancelSyncHolds(run, moves, k, j, m);
  }

  lemma SleepsThrough(run: seq<State>, moves: seq<Move>, n: nat, m: nat)
    requires IsRun(run, moves) && 0 < n < |run| && m < |run[n - 1].masters|
    ensures m < |run[n].masters| && (run[n - 1].masters[m].terminating ==> run[n].masters[m].terminating)
    ensures run[n - 1].masters[m].n == 0 ==> run[n].masters[m].wakes == run[n - 1].masters[m].wakes
  {
    RunKeepsInv(run, moves, n - 1);
    WokenExactly(run[n - 1], moves[n - 1], m);
  }

  // ----------------------------------------------------------------------------------------
  // Two ways in which cancel_sync() goes wrong
  // ----------------------------------------------------------------------------------------

  function Try(s: State, mv: Move): (r: Option<State>)
  {
    if Enabled(s, mv) then Some(Next(s, mv)) else None
  }

  function Fold(step: (State, Move) -> Option<State>, s: State, mvs: seq<Move>): (r: Option<State>)
    decreases |mvs|
  {
    if mvs == [] then Some(s)
    else
      var s' := step(s, mvs[0]);
      if s'.None? then None else Fold(step, s'.value, mvs[1..])
  }

  lemma {:induction false} FoldBoth(step: (State, Move) -> Option<State>, s: State, a: seq<Move>, b: seq<Move>)
    requires Fold(step, s, a).Some?
    ensures Fold(step, s, a + b) == Fold(step, Fold(step, s, a).value, b)
    decreases |a|
  {
    if a == [] {
      assert a + b == b;
    } else {
      FoldBoth(step, step(s, a[0]).value, a[1..], b);
      assert (a + b)[1..] == a[1..] + b;
    }
  }

  /** The state after some moves, each possible where it is made. */
  function Play(s: State, mvs: seq<Move>): (r: Option<State>)
  {
    Fold(Try, s, mvs)
  }

  lemma PlayOne(s: State, a: Move)
    requires Enabled(s, a)
    ensures Play(s, [a]) == Some(Next(s, a))
  {
    assert [a][1..] == [] && Try(s, [a][0]) == Some(Next(s, a));
    assert Fold(Try, s, [a]) == Fold(Try, Next(s, a), []);
  }

  lemma PlayTwo(s: State, a: Move, b: Move)
    requires Enabled(s, a) && Enabled(Next(s, a), b)
    ensures Play(s, [a, b]) == Some(Next(Next(s, a), b))
  {
    PlayOne(Next(s, a), b);
    assert [a, b][1..] == [b] && Try(s, [a, b][0]) == Some(Next(s, a));
    assert Fold(Try, s, [a, b]) == Fold(Try, Next(s, a), [b]);
  }

  lemma PlayBoth(s: State, a: seq<Move>, b: seq<Move>)
    requires Play(s, a).Some?
    ensures Play(s, a + b) == Play(Play(s, a).value, b)
  {
    FoldBoth(Try, s, a, b);
  }

  /** A master that was never destroyed and never fired. */
  function Live(call: Call, active: Option<nat>, regs: set<nat>, n: int, on: bool, arms: nat, wakes: nat): (x: Master)
  {
    Master(call, active, regs, false, false, false, n, on, arms, 0, wakes)
  }

  /** One master and one worker. */
  function One(tasks: seq<Task>, x: Master, pc: Pc, timers: set<nat>, serial: nat, started: set<int>): (s: State)
  {
    State(tasks, [x], [pc], [multiset{}], [timers], serial, started, {}, false)
  }

  const STEP := Continue(0, None)

  const WORK := Work(0)

  /** A reschedule() with nothing to borrow. */
  const RESCHEDULE: seq<Move> := [BeginReschedule(0, 0), STEP, STEP, STEP, STEP]

  function Armed(serial: nat): (y: Task) { Task(ACTIVE, 0, 0, true, serial, InReg) }

  /** The second half of reschedule(): a new task is registered and inserted. */
  lemma Registers(ts: seq<Task>, regs: set<nat>, n: int, on: bool, arms: nat, wakes: nat, pc: Pc, timers: set<nat>,
                  serial: nat, started: set<int>)
    requires !pc.AtCas?
    ensures Play(One(ts + [Task(ACTIVE, 0, 0, false, -1, InHand(0))],
                     Live(AtArm(|ts|), None, regs, n, on, arms, wakes), pc, timers, serial, started),
                 [STEP, STEP])
            == Some(One(ts + [Armed(serial)], Live(Unlocked, Some(|ts|), regs + {|ts|}, n + 1, true, arms + 1, wakes),
                        pc, timers + {|ts|}, serial + 1, started))
  {
    var t := |ts|;
    var s3 := One(ts + [Task(ACTIVE, 0, 0, false, -1, InHand(0))], Live(AtArm(t), None, regs, n, on, arms, wakes), pc,
                  timers, serial, started);
    var s4 := One(ts + [Task(ACTIVE, 0, 0, false, serial, InReg)],
                  Live(AtInsert(t), Some(t), regs + {t}, n + 1, true, arms + 1, wakes), pc,
                  timers, serial + 1, started);
    var s5 := One(ts + [Armed(serial)], Live(Unlocked, Some(t), regs + {t}, n + 1, true, arms + 1, wakes), pc,
                  timers + {t}, serial + 1, started);
    assert s3.tasks[t := Task(ACTIVE, 0, 0, false, serial, InReg)] == s4.tasks;
    assert Next(s3, STEP) == s4;
    assert s4.tasks[t := Armed(serial)] == s5.tasks;
    assert Next(s4, STEP) == s5;
    PlayTwo(s3, STEP, STEP);
  }

  /** reschedule() of a timer that is not pending. */
  lemma Reschedules(ts: seq<Task>, regs: set<nat>, n: int, on: bool, arms: nat, wakes: nat, pc: Pc, timers: set<nat>,
                    serial: nat, started: set<int>)
    requires !pc.AtCas?
    ensures Play(One(ts, Live(Unlocked, None, regs, n, on, arms, wakes), pc, timers, serial, started), RESCHEDULE)
            == Some(One(ts + [Armed(serial)], Live(Unlocked, Some(|ts|), regs + {|ts|}, n + 1, true, arms + 1, wakes),
                        pc, timers + {|ts|}, serial + 1, started))
  {
    var s0 := One(ts, Live(Unlocked, None, regs, n, on, arms, wakes), pc, timers, serial, started);
    var s1 := One(ts, Live(AtCancel(Some(0)), None, regs, n, on, arms, wakes), pc, timers, serial, started);
    var s2 := One(ts, Live(AtBorrow(0), None, regs, n, on, arms, wakes), pc, timers, serial, started);
    assert Next(s0, BeginReschedule(0, 0)) == s1;
    assert Next(s1, STEP) == s2;
    assert Next(s2, STEP)
        == One(ts + [Task(ACTIVE, 0, 0, false, -1, InHand(0))], Live(AtArm(|ts|), None, regs, n, on, arms, wakes), pc,
               timers, serial, started);
    Registers(ts, regs, n, on, arms, wakes, pc, timers, serial, started);
    PlayTwo(s0, BeginReschedule(0, 0), STEP);
    PlayBoth(s0, [BeginReschedule(0, 0), STEP], [STEP, STEP, STEP]);
    assert [STEP, STEP, STEP][1..] == [STEP, STEP];
    assert RESCHEDULE == [BeginReschedule(0, 0), STEP] + [STEP, STEP, STEP];
  }

  const FIRED := Task(FIRING, 0, 0, false, 0, InReg)

  function Untouched(): (s: State) { One([], Live(Unlocked, None, {}, 0, false, 0, 0), Idle, {}, 0, {}) }

  /** The callback was started and has not called try_fire() yet. */
  function OnItsWay(): (s: State)
  {
    One([FIRED], Live(Unlocked, None, {0}, 1, true, 1, 0), Calling(0, 0), {}, 1, {0})
  }

  /** A cancel_sync() has done its cancel() and waits, since the count is one. */
  function SyncWaits(): (s: State)
  {
    One([FIRED], Live(Unlocked, None, {0}, 1, false, 1, 0), Calling(0, 0), {}, 1, {0})
  }

  const EXPIRE: seq<Move> := [Expire(0, 0), WORK, WORK, WORK]

  /** The timer expires and its worker starts the callback. */
  lemma Expires()
    ensures Play(One([Armed(0)], Live(Unlocked, Some(0), {0}, 1, true, 1, 0), Idle, {0}, 1, {}), EXPIRE)
            == Some(OnItsWay())
  {
    var s0 := One([Armed(0)], Live(Unlocked, Some(0), {0}, 1, true, 1, 0), Idle, {0}, 1, {});
    var s1 := One([Task(ACTIVE, 0, 0, false, 0, InReg)], Live(Unlocked, Some(0), {0}, 1, true, 1, 0), AtCas(0), {},
                  1, {});
    var s2 := One([FIRED], Live(Unlocked, Some(0), {0}, 1, true, 1, 0), Locking(0, 0), {}, 1, {});
    var s3 := One([FIRED], Live(ByWorker(0), Some(0), {0}, 1, true, 1, 0), Checking(0, 0), {}, 1, {});
    assert {0} - {0} == {} && [Armed(0)][0 := s1.tasks[0]] == s1.tasks;
    assert Next(s0, Expire(0, 0)) == s1;
    assert Next(s1, WORK) == s2;
    assert Next(s2, WORK) == s3;
    assert Next(s3, WORK) == OnItsWay();
    PlayTwo(s0, Expire(0, 0), WORK);
    PlayTwo(s2, WORK, WORK);
    PlayBoth(s0, [Expire(0, 0), WORK], [WORK, WORK]);
    assert EXPIRE == [Expire(0, 0), WORK] + [WORK, WORK];
  }

  /** A cancel_sync() comes while the callback is on its way to try_fire(), and waits. */
  lemma SyncCanWait()
    ensures Init(Untouched())
    ensures Play(Untouched(), RESCHEDULE + EXPIRE) == Some(OnItsWay())
    ensures Play(OnItsWay(), [BeginCancel(0), STEP]) == Some(SyncWaits())
  {
    Reschedules([], {}, 0, false, 0, 0, Idle, {}, 0, {});
    Expires();
    assert [] + [Armed(0)] == [Armed(0)] && {} + {0} == {0};
    PlayBoth(Untouched(), RESCHEDULE, EXPIRE);
    var c := One([FIRED], Live(AtCancel(None), None, {0}, 1, false, 1, 0), Calling(0, 0), {}, 1, {0});
    assert Next(OnItsWay(), BeginCancel(0)) == c && Next(c, STEP) == SyncWaits();
    PlayTwo(OnItsWay(), BeginCancel(0), STEP);
  }

  /** try_fire() has brought the count to zero and woken it. */
  function SyncWoken(): (s: State)
  {
    One([FIRED], Live(Unlocked, None, {0}, 0, false, 1, 1), Called(0, 0), {}, 1, {0})
  }

  /** A reschedule() got the mutex first. */
  function SlippedIn(): (s: State)
  {
    One([FIRED] + [Armed(1)], Live(Unlocked, Some(1), {0} + {1}, 1, true, 2, 1), Called(0, 0), {} + {1}, 2, {0})
  }

  /** The assertion of cancel_sync() can fail: the count was zero when it was woken and is one when it has the mutex. */
  lemma CancelSyncMayFail()
    ensures Play(Untouched(), RESCHEDULE + EXPIRE) == Some(OnItsWay())
    ensures Play(OnItsWay(), [BeginCancel(0), STEP]) == Some(SyncWaits())
    ensures Play(SyncWaits(), [WORK]) == Some(SyncWoken()) && Play(SyncWoken(), RESCHEDULE) == Some(SlippedIn())
    ensures SyncWoken().masters[0].wakes == SyncWaits().masters[0].wakes + 1 && SyncWoken().masters[0].n == 0
    ensures SlippedIn().masters[0].call.Unlocked? && SlippedIn().masters[0].n == 1
  {
    SyncCanWait();
    assert Next(SyncWaits(), WORK) == SyncWoken();
    PlayOne(SyncWaits(), WORK);
    Reschedules([FIRED], {0}, 0, false, 1, 1, Called(0, 0), {}, 1, {0});
  }

  /** While it waits, somebody reschedules, try_fire() leaves the count at one, and a cancel() brings it to zero. */
  function Forgotten(): (s: State)
  {
    One([FIRED] + [Armed(1).(state := RELEASED, at := InReleased)], Live(Unlocked, None, {0}, 0, false, 2, 0),
        Called(0, 0), {} + {1}, 2, {0})
    .(released := [multiset{1}], cancelled := {1})
  }

  const OVERTAKE: seq<Move> := [WORK, BeginCancel(0), STEP, STEP]

  /** cancel_sync() can also sleep on with nothing scheduled, since cancel() does not wake it; by SleepsOn it then
      sleeps until somebody reschedules. */
  lemma CancelSyncMaySleep()
    ensures Play(Untouched(), RESCHEDULE + EXPIRE) == Some(OnItsWay())
    ensures Play(OnItsWay(), [BeginCancel(0), STEP]) == Some(SyncWaits())
    ensures Play(SyncWaits(), RESCHEDULE + OVERTAKE) == Some(Forgotten())
    ensures var x := Forgotten().masters[0];
            x.n == 0 && x.active.None? && x.call.Unlocked? && x.wakes == SyncWaits().masters[0].wakes
  {
    SyncCanWait();
    Reschedules([FIRED], {0}, 1, false, 1, 0, Calling(0, 0), {}, 1, {0});
    PlayBoth(SyncWaits(), RESCHEDULE, OVERTAKE);
    Overtakes();
  }

  lemma Overtakes()
    ensures Play(One([FIRED] + [Armed(1)], Live(Unlocked, Some(1), {0} + {1}, 2, true, 2, 0), Calling(0, 0),
                     {} + {1}, 2, {0}),
                 OVERTAKE)
            == Some(Forgotten())
  {
    var ts := [FIRED] + [Armed(1)];
    var s0 := One(ts, Live(Unlocked, Some(1), {0} + {1}, 2, true, 2, 0), Calling(0, 0), {} + {1}, 2, {0});
    var s1 := One(ts, Live(Unlocked, Some(1), {0} + {1}, 1, true, 2, 0), Called(0, 0), {} + {1}, 2, {0});
    var s2 := One(ts, Live(AtCancel(None), Some(1), {0} + {1}, 1, false, 2, 0), Called(0, 0), {} + {1}, 2, {0});
    var s3 := One([FIRED] + [Armed(1).(state := RELEASED, at := Limbo(0))],
                  Live(AtFree(1, None), Some(1), {0}, 1, false, 2, 0), Called(0, 0), {} + {1}, 2, {0});
    assert Next(s0, WORK) == s1;
    assert Next(s1, BeginCancel(0)) == s2;
    assert ts[1 := Armed(1).(state := RELEASED, at := Limbo(0))] == s3.tasks && {0} + {1} - {1} == {0};
    assert Next(s2, STEP) == s3;
    assert s3.tasks[1 := Armed(1).(state := RELEASED, at := InReleased)] == Forgotten().tasks;
    assert multiset{} + multiset{1} == multiset{1} && {} + {1} == {1};
    assert Next(s3, STEP) == Forgotten();
    PlayTwo(s0, WORK, BeginCancel(0));
    PlayTwo(s2, STEP, STEP);
    PlayBoth(s0, [WORK, BeginCancel(0)], [STEP, STEP]);
    assert OVERTAKE == [WORK, BeginCancel(0)] + [STEP, STEP];
  }
}
