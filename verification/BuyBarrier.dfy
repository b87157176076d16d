/**
 The BUY barrier: submitters, the operator's halt and resume, quarantine and its release, and
 capital changes, interleaved around one lock. Each step is one database transaction, one lock
 operation or one broker call; a crash kills every thread and frees the lock.
 */
module BuyBarrier {
  import opened Results
  import opened Ledger

  type Tid = nat

  datatype Row = Row(buy: bool, status: Status, brokerId: bool)

  datatype SubmitPc =
    | Lookup | Precheck | Reserve
    | AwaitLock | CheckHalt | CheckSafe | CheckGuard | Post
    | RejectLocked | LeaveRejected | LeaveFailed | LeavePlaced
    | PostSell | Persist | MarkFailed

  datatype HaltPc = HaltAcquire | SetFlag | SetLatch | ReadOpen | CancelLoop | HaltLeave

  datatype ResumePc =
    | ResumeRead | TempAcquire | TempSet | TempLeave | Reconcile | CheckOpen
    | ResumeAcquire | CheckInside | ClearFlag | ClearLatch | ResumeLeave

  datatype QuarantinePc = QuarantineAcquire | WriteQuarantine | WriteState | WriteHalt | QuarantineLeave

  datatype ReleasePc =
    | ReleaseRead | ReleaseAcquire | RecheckLatch | RecheckSafe
    | ReopenHalt | ReopenQuarantine | ReopenState | ReleaseLeave

  datatype Task =
    | Submit(id: ClientId, buy: bool, spc: SubmitPc)
    | Halt(hpc: HaltPc, todo: map<ClientId, bool>, seen: set<ClientId>,
           canceled: set<ClientId>, uncertain: set<ClientId>)
    | Resume(rpc: ResumePc)
    | Quarantine(qpc: QuarantinePc)
    | Release(lpc: ReleasePc)

  /** `barred`, `covered` and `owner` are history: whether a completed halt is not yet resumed, what
      it reported, and which thread's INSERT created each row. So is a halt's `seen`: the BUYs open
      when it read the table, of which `todo` is still to be canceled. */
  datatype World = World(
    db: Orders, keys: Keys, lock: Option<Tid>, tasks: map<Tid, Task>, barred: bool, covered: set<ClientId>)

  /** The order table, and how often the broker was called for each row. */
  datatype Orders = Orders(rows: map<ClientId, Row>, owner: map<ClientId, Tid>, posts: map<ClientId, nat>)

  /** The system keys that gate a BUY. */
  datatype Keys = Keys(halt: bool, latch: bool, quarantine: bool, running: bool, safeMode: bool)

  /** Everything a step cannot decide by itself. */
  datatype Choice = Choice(ok: bool, status: Status, id: ClientId)

  datatype Step =
    | Spawn(tid: Tid, task: Task)
    | Advance(tid: Tid, choice: Choice)
    | Refresh(id: ClientId, status: Status)
    | SafeMode(on: bool)
    | CapitalChange(committed: bool)
    | Startup
    | Crash

  function Posts(w: World, id: ClientId): nat
  {
    if id in w.db.posts then w.db.posts[id] else 0
  }

  predicate OpenBuy(w: World, id: ClientId)
  {
    id in w.db.rows && w.db.rows[id].buy && w.db.rows[id].status.Open()
  }

  function WithStatus(w: World, id: ClientId, status: Status, brokerId: bool): World
  {
    if id !in w.db.rows || w.db.rows[id].status.Terminal() then w
    else
      var row := w.db.rows[id];
      w.(db := w.db.(rows := w.db.rows[id := row.(status := status, brokerId := row.brokerId || brokerId)]))
  }

  function Posted(w: World, id: ClientId): Orders
  {
    w.db.(posts := w.db.posts[id := Posts(w, id) + 1])
  }

  function Put(w: World, tid: Tid, task: Task): World
  {
    w.(tasks := w.tasks[tid := task])
  }

  function Done(w: World, tid: Tid): World
  {
    w.(tasks := w.tasks - {tid})
  }

  function Locked(w: World, tid: Tid, task: Task): World
  {
    if w.lock.None? then Put(w, tid, task).(lock := Some(tid)) else w
  }

  function Unlocked(w: World): World
  {
    w.(lock := None)
  }

  /** `OrderManager.submit` */
  function AdvanceSubmit(w: World, tid: Tid, t: Task, c: Choice): World
    requires t.Submit?
  {
    match t.spc
    case Lookup =>
      if t.id in w.db.rows then
        Done(if w.db.rows[t.id].brokerId then WithStatus(w, t.id, c.status, true) else w, tid)
      else Put(w, tid, t.(spc := Precheck))
    case Precheck =>
      if t.buy && (w.keys.halt || w.keys.safeMode || !c.ok) then Done(w, tid) else Put(w, tid, t.(spc := Reserve))
    case Reserve =>
      if t.buy && (w.keys.latch || w.keys.quarantine || !w.keys.running || !c.ok) then Done(w, tid)
      else if t.id in w.db.rows then Done(w, tid)
      else
        Put(w, tid, t.(spc := if t.buy then AwaitLock else PostSell))
          .(db := w.db.(rows := w.db.rows[t.id := Row(t.buy, Created, false)], owner := w.db.owner[t.id := tid]))
    case AwaitLock => Locked(w, tid, t.(spc := CheckHalt))
    case CheckHalt => Put(w, tid, t.(spc := if w.keys.halt then RejectLocked else CheckSafe))
    case CheckSafe => Put(w, tid, t.(spc := if w.keys.safeMode then RejectLocked else CheckGuard))
    case CheckGuard =>
      Put(w, tid, t.(spc := if w.keys.latch || w.keys.quarantine || !w.keys.running || !c.ok then LeaveFailed else Post))
    case Post =>
      Put(w, tid, t.(spc := if c.ok then LeavePlaced else LeaveFailed)).(db := Posted(w, t.id))
    case RejectLocked => Put(WithStatus(w, t.id, Rejected, false), tid, t.(spc := LeaveRejected))
    case LeaveRejected => Done(Unlocked(w), tid)
    case LeaveFailed => Put(Unlocked(w), tid, t.(spc := MarkFailed))
    case LeavePlaced => Put(Unlocked(w), tid, t.(spc := Persist))
    case PostSell =>
      Put(w, tid, t.(spc := if c.ok then Persist else MarkFailed)).(db := Posted(w, t.id))
    case Persist =>
      if c.ok then Done(WithStatus(w, t.id, c.status, true), tid) else Put(w, tid, t.(spc := MarkFailed))
    case MarkFailed => Done(WithStatus(w, t.id, if c.ok then Unknown else Rejected, false), tid)
  }

  function OpenBuys(w: World): map<ClientId, bool>
  {
    map id | id in w.db.rows && OpenBuy(w, id) :: w.db.rows[id].brokerId
  }

  /** `OperatorSafetyService.halt` */
  function AdvanceHalt(w: World, tid: Tid, t: Task, c: Choice): World
    requires t.Halt?
  {
    match t.hpc
    case HaltAcquire => Locked(w, tid, t.(hpc := SetFlag))
    case SetFlag => Put(w, tid, t.(hpc := SetLatch)).(keys := w.keys.(halt := true))
    case SetLatch => Put(w, tid, t.(hpc := ReadOpen)).(keys := w.keys.(latch := true))
    case ReadOpen => Put(w, tid, Halt(CancelLoop, OpenBuys(w), OpenBuys(w).Keys, {}, {}))
    case CancelLoop =>
      if t.todo == map[] then Put(w, tid, t.(hpc := HaltLeave))
      else if c.id !in t.todo then w
      else
        var rest := t.todo - {c.id};
        if t.todo[c.id] && c.ok then Put(w, tid, t.(todo := rest, canceled := t.canceled + {c.id}))
        else Put(w, tid, t.(todo := rest, uncertain := t.uncertain + {c.id}))
    case HaltLeave => Done(Unlocked(w), tid).(barred := true, covered := t.canceled + t.uncertain)
  }

  /** `OperatorSafetyService.resume` */
  function AdvanceResume(w: World, tid: Tid, t: Task, c: Choice): World
    requires t.Resume?
  {
    match t.rpc
    case ResumeRead =>
      if !w.keys.halt && !w.keys.latch && !w.keys.safeMode then Done(w, tid)
      else Put(w, tid, Resume(if w.keys.halt then Reconcile else TempAcquire))
    case TempAcquire => Locked(w, tid, Resume(TempSet))
    case TempSet => Put(w, tid, Resume(TempLeave)).(keys := w.keys.(halt := true))
    case TempLeave => Put(Unlocked(w), tid, Resume(Reconcile))
    case Reconcile => if c.ok then Put(w, tid, Resume(CheckOpen)) else Done(w, tid)
    case CheckOpen => if OpenBuys(w) != map[] then Done(w, tid) else Put(w, tid, Resume(ResumeAcquire))
    case ResumeAcquire => Locked(w, tid, Resume(CheckInside))
    case CheckInside => Put(w, tid, Resume(if OpenBuys(w) != map[] || w.keys.safeMode then ResumeLeave else ClearFlag))
    case ClearFlag => Put(w, tid, Resume(ClearLatch)).(keys := w.keys.(halt := false), barred := false)
    case ClearLatch => Put(w, tid, Resume(ResumeLeave)).(keys := w.keys.(latch := false))
    case ResumeLeave => Done(Unlocked(w), tid)
  }

  /** `JHAutoService.quarantine` */
  function AdvanceQuarantine(w: World, tid: Tid, t: Task): World
    requires t.Quarantine?
  {
    match t.qpc
    case QuarantineAcquire => Locked(w, tid, Quarantine(WriteQuarantine))
    case WriteQuarantine => Put(w, tid, Quarantine(WriteState)).(keys := w.keys.(quarantine := true))
    case WriteState => Put(w, tid, Quarantine(WriteHalt)).(keys := w.keys.(running := false))
    case WriteHalt => Put(w, tid, Quarantine(QuarantineLeave)).(keys := w.keys.(halt := true))
    case QuarantineLeave => Done(Unlocked(w), tid)
  }

  predicate AnyOpen(w: World)
  {
    exists id :: id in w.db.rows && w.db.rows[id].status.Open()
  }

  /** `JHAutoService.try_release_quarantine` */
  function AdvanceRelease(w: World, tid: Tid, t: Task, c: Choice): World
    requires t.Release?
  {
    match t.lpc
    case ReleaseRead =>
      if w.keys.latch || w.keys.safeMode then Done(w, tid).(keys := w.keys.(running := false))
      else if !c.ok || AnyOpen(w) then Done(w, tid)
      else Put(w, tid, Release(ReleaseAcquire))
    case ReleaseAcquire => Locked(w, tid, Release(RecheckLatch))
    case RecheckLatch =>
      if w.keys.latch then Put(w, tid, Release(ReleaseLeave)).(keys := w.keys.(running := false))
      else Put(w, tid, Release(RecheckSafe))
    case RecheckSafe => Put(w, tid, Release(if w.keys.safeMode || AnyOpen(w) then ReleaseLeave else ReopenHalt))
    case ReopenHalt => Put(w, tid, Release(ReopenQuarantine)).(keys := w.keys.(halt := false))
    case ReopenQuarantine => Put(w, tid, Release(ReopenState)).(keys := w.keys.(quarantine := false))
    case ReopenState => Put(w, tid, Release(ReleaseLeave)).(keys := w.keys.(running := true))
    case ReleaseLeave => Done(Unlocked(w), tid)
  }

  function AdvanceTask(w: World, tid: Tid, c: Choice): World
    requires tid in w.tasks
  {
    var t := w.tasks[tid];
    match t
    case Submit(_, _, _) => AdvanceSubmit(w, tid, t, c)
    case Halt(_, _, _, _, _) => AdvanceHalt(w, tid, t, c)
    case Resume(_) => AdvanceResume(w, tid, t, c)
    case Quarantine(_) => AdvanceQuarantine(w, tid, t)
    case Release(_) => AdvanceRelease(w, tid, t, c)
  }

  predicate Fresh(t: Task)
  {
    match t
    case Submit(_, _, pc) => pc == Lookup
    case Halt(pc, _, _, _, _) => pc == HaltAcquire
    case Resume(pc) => pc == ResumeRead
    case Quarantine(pc) => pc == QuarantineAcquire
    case Release(pc) => pc == ReleaseRead
  }

  /** A committed capital change closes BUY; one that fails is rolled back whole. */
  function Do(w: World, s: Step): World
  {
    match s
    case Spawn(tid, t) => if tid in w.tasks || !Fresh(t) then w else Put(w, tid, t)
    case Advance(tid, c) => if tid in w.tasks then AdvanceTask(w, tid, c) else w
    case Refresh(id, status) => WithStatus(w, id, status, false)
    case SafeMode(on) => w.(keys := w.keys.(safeMode := on))
    case CapitalChange(committed) =>
      if w.lock.None? && committed then w.(keys := w.keys.(halt := true, quarantine := true, running := false)) else w
    case Startup => w.(keys := w.keys.(quarantine := true, running := false))
    case Crash => w.(tasks := map[], lock := None)
  }

  function Run(w: World, ss: seq<Step>): World
  {
    if |ss| == 0 then w else Do(Run(w, ss[..|ss| - 1]), ss[|ss| - 1])
  }

  // ---------------------------------------------------------------- invariant

  predicate Holds(t: Task)
  {
    match t
    case Submit(_, _, pc) =>
      (pc.CheckHalt? || pc.CheckSafe? || pc.CheckGuard? || pc.Post? || pc.RejectLocked? || pc.LeaveRejected? || pc.LeaveFailed? || pc.LeavePlaced?)
    case Halt(pc, _, _, _, _) => pc != HaltAcquire
    case Resume(pc) => (pc.TempSet? || pc.TempLeave? || pc.CheckInside? || pc.ClearFlag? || pc.ClearLatch? || pc.ResumeLeave?)
    case Quarantine(pc) => pc != QuarantineAcquire
    case Release(pc) => !(pc.ReleaseRead? || pc.ReleaseAcquire?)
  }

  predicate Mutex(w: World)
  {
    && (forall tid :: tid in w.tasks ==> (Holds(w.tasks[tid]) <==> w.lock == Some(tid)))
    && (w.lock.Some? ==> w.lock.value in w.tasks)
  }

  predicate Unposted(pc: SubmitPc)
  {
    (pc.AwaitLock? || pc.CheckHalt? || pc.CheckSafe? || pc.CheckGuard? || pc.Post? || pc.PostSell? || pc.RejectLocked? || pc.LeaveRejected?)
  }

  /** A thread past its reservation owns the row; until it posts, nobody has. */
  predicate SubmitOk(w: World, tid: Tid, t: Task)
  {
    t.Submit? && !(t.spc.Lookup? || t.spc.Precheck? || t.spc.Reserve?) ==>
      && t.id in w.db.rows && t.id in w.db.owner && w.db.owner[t.id] == tid && w.db.rows[t.id].buy == t.buy
      && (Unposted(t.spc) ==> Posts(w, t.id) == 0)
      && ((t.spc.CheckSafe? || t.spc.CheckGuard? || t.spc.Post?) ==> !w.keys.halt)
      && (t.spc == PostSell ==> !t.buy)
  }

  predicate Accounted(w: World, known: set<ClientId>)
  {
    forall id :: id in w.db.rows && w.db.rows[id].buy && w.db.rows[id].status.Open() ==> id in known
  }

  predicate BuyRows(w: World, ids: set<ClientId>)
  {
    forall id :: id in ids ==> id in w.db.rows && w.db.rows[id].buy
  }

  /** Every BUY seen is in exactly one of the three lists. */
  predicate Reported(t: Task)
    requires t.Halt?
  {
    && t.todo.Keys + t.canceled + t.uncertain == t.seen
    && t.todo.Keys !! t.canceled && t.todo.Keys !! t.uncertain && t.canceled !! t.uncertain
  }

  predicate HaltOk(w: World, t: Task)
  {
    t.Halt? ==>
      && (!(t.hpc.HaltAcquire? || t.hpc.SetFlag?) ==> w.keys.halt)
      && ((t.hpc.ReadOpen? || t.hpc.CancelLoop? || t.hpc.HaltLeave?) ==> w.keys.latch)
      && ((t.hpc.CancelLoop? || t.hpc.HaltLeave?) ==> Accounted(w, t.seen) && BuyRows(w, t.seen) && Reported(t))
      && (t.hpc == HaltLeave ==> t.todo == map[])
  }

  predicate NoOpenBuy(w: World)
  {
    forall id :: id in w.db.rows ==> !OpenBuy(w, id)
  }

  predicate ReopenOk(w: World, t: Task)
  {
    && (t.Release? && (t.lpc.RecheckSafe? || t.lpc.ReopenHalt? || t.lpc.ReopenQuarantine? || t.lpc.ReopenState?) ==> !w.keys.latch)
    && (t.Resume? && t.rpc == ClearFlag && w.keys.latch ==> NoOpenBuy(w))
    && (t.Resume? && t.rpc == ClearLatch ==> !w.barred)
  }

  ghost predicate TaskOk(w: World, tid: Tid, t: Task)
  {
    SubmitOk(w, tid, t) && HaltOk(w, t) && ReopenOk(w, t)
  }

  ghost predicate Shared(w: World)
  {
    && (w.barred ==> w.keys.halt && w.keys.latch && Accounted(w, w.covered))
    && (forall id :: id in w.db.posts ==> w.db.posts[id] <= 1 && id in w.db.rows)
    && (forall id :: id in w.db.rows <==> id in w.db.owner)
  }

  ghost predicate Inv(w: World)
  {
    Mutex(w) && Shared(w) && forall tid :: tid in w.tasks ==> TaskOk(w, tid, w.tasks[tid])
  }

  // ---------------------------------------------------------------- every step keeps it

  /** What a step of thread `actor`, or of none, leaves alone for every other thread. */
  ghost predicate Frame(w: World, v: World, actor: Option<Tid>)
  {
    && (forall id :: id in w.db.rows ==>
          && id in v.db.rows && v.db.rows[id].buy == w.db.rows[id].buy
          && (w.db.rows[id].status.Terminal() ==> v.db.rows[id].status.Terminal()))
    && (forall id :: id in w.db.owner ==> id in v.db.owner && v.db.owner[id] == w.db.owner[id])
    && (forall id :: id in v.db.rows && id !in w.db.rows ==> Posts(v, id) == 0 && (v.db.rows[id].buy ==> !w.keys.latch))
    && (forall id :: id in w.db.rows && Posts(v, id) != Posts(w, id) ==>
          && id in w.db.owner && actor == Some(w.db.owner[id])
          && (w.db.rows[id].buy ==> w.lock == actor))
    && (w.lock != actor ==> v.keys.halt == w.keys.halt && v.keys.latch == w.keys.latch && v.barred == w.barred)
  }

  lemma FrameKeeps(w: World, v: World, actor: Option<Tid>, tid: Tid, t: Task)
    requires TaskOk(w, tid, t) && Frame(w, v, actor) && actor != Some(tid)
    requires Holds(t) ==> w.lock == Some(tid)
    ensures TaskOk(v, tid, t)
  {
    if t.Halt? && (t.hpc.CancelLoop? || t.hpc.HaltLeave?) {
      forall id | id in v.db.rows && v.db.rows[id].buy && v.db.rows[id].status.Open()
        ensures id in t.seen
      {
        assert id in w.db.rows;
      }
    }
    if t.Resume? && t.rpc == ClearFlag && v.keys.latch {
      forall id | id in v.db.rows ensures !OpenBuy(v, id) {
        assert id in w.db.rows ==> !OpenBuy(w, id);
      }
    }
  }

  /** What a thread may rely on when it steps. */
  ghost predicate Local(w: World, tid: Tid)
  {
    && tid in w.tasks && TaskOk(w, tid, w.tasks[tid]) && Shared(w)
    && (Holds(w.tasks[tid]) <==> w.lock == Some(tid))
  }

  /** The task and lock part of one thread's step. */
  ghost predicate Moves(w: World, v: World, tid: Tid)
  {
    && v.tasks == (if tid in v.tasks then w.tasks[tid := v.tasks[tid]] else w.tasks - {tid})
    && (if tid in v.tasks && Holds(v.tasks[tid]) then v.lock == Some(tid) && (w.lock.None? || w.lock == Some(tid))
        else if w.lock == Some(tid) then v.lock == None else v.lock == w.lock)
  }

  /** The stepping thread `tid` moves on correctly, and touches nobody else. */
  ghost predicate StepsAlone(w: World, v: World, tid: Tid)
  {
    && Shared(v) && Moves(w, v, tid)
    && Frame(w, v, Some(tid))
    && (tid in v.tasks ==> TaskOk(v, tid, v.tasks[tid]))
  }

  lemma AloneKeepsInv(w: World, v: World, tid: Tid)
    requires Inv(w) && StepsAlone(w, v, tid) && tid in w.tasks
    ensures Inv(v)
  {
    forall me | me in v.tasks
      ensures TaskOk(v, me, v.tasks[me]) && (Holds(v.tasks[me]) <==> v.lock == Some(me))
    {
      if me != tid {
        assert me in w.tasks && v.tasks[me] == w.tasks[me];
        FrameKeeps(w, v, Some(tid), me, w.tasks[me]);
      }
    }
    if v.lock.Some? && v.lock.value != tid {
      assert v.lock.value in w.tasks;
    }
  }

  ghost predicate SameTable(w: World, v: World)
  {
    v.db == w.db
  }

  ghost predicate SameFlags(w: World, v: World)
  {
    v.keys.halt == w.keys.halt && v.keys.latch == w.keys.latch && v.barred == w.barred && v.covered == w.covered
  }

  lemma QuietFrame(w: World, v: World, tid: Tid)
    requires SameTable(w, v) && (SameFlags(w, v) || w.lock == Some(tid))
    requires forall id :: id in w.db.posts ==> id in w.db.rows
    ensures Frame(w, v, Some(tid))
  {
  }

  /** A status write changes one row that has not ended, and only its status and broker id. */
  lemma WithStatusRows(w: World, id: ClientId, status: Status, brokerId: bool)
    ensures
      var v := WithStatus(w, id, status, brokerId).db;
      && v.owner == w.db.owner && v.posts == w.db.posts && v.rows.Keys == w.db.rows.Keys
      && (forall me :: me in w.db.rows ==>
            v.rows[me].buy == w.db.rows[me].buy && (w.db.rows[me].status.Terminal() ==> v.rows[me] == w.db.rows[me]))
  {
  }

  lemma StillCovered(w: World, id: ClientId, status: Status, brokerId: bool)
    requires Accounted(w, w.covered)
    ensures Accounted(WithStatus(w, id, status, brokerId), w.covered)
  {
  }

  lemma WithStatusFrame(w: World, v: World, actor: Option<Tid>, id: ClientId, status: Status, brokerId: bool)
    requires Shared(w)
    requires SameFlags(w, v) && SameTable(WithStatus(w, id, status, brokerId), v)
    ensures Shared(v)
    ensures Frame(w, v, actor)
  {
    WithStatusRows(w, id, status, brokerId);
    if w.barred {
      StillCovered(w, id, status, brokerId);
    }
  }

  lemma ReserveFrame(w: World, v: World, tid: Tid, id: ClientId, buy: bool)
    requires Shared(w) && id !in w.db.rows && SameFlags(w, v) && v.db.posts == w.db.posts
    requires buy ==> !w.keys.latch
    requires v.db.rows == w.db.rows[id := Row(buy, Created, false)]
    requires v.db.owner == w.db.owner[id := tid]
    requires id !in w.db.owner
    ensures Shared(v)
    ensures Frame(w, v, Some(tid))
  {
  }

  lemma PostFrame(w: World, v: World, tid: Tid, id: ClientId)
    requires Shared(w) && id in w.db.rows && id in w.db.owner && w.db.owner[id] == tid && Posts(w, id) == 0
    requires SameFlags(w, v) && v.db.rows == w.db.rows && v.db.owner == w.db.owner
    requires v.db.posts == w.db.posts[id := 1]
    requires w.db.rows[id].buy ==> w.lock == Some(tid) && !w.keys.halt
    ensures Shared(v)
    ensures Frame(w, v, Some(tid))
  {
  }

  lemma LockedSubmitMoves(w: World, tid: Tid, c: Choice)
    requires Local(w, tid) && w.tasks[tid].Submit? && Holds(w.tasks[tid])
    ensures Moves(w, AdvanceTask(w, tid, c), tid)
  {
    match w.tasks[tid].spc
    case CheckHalt =>
    case CheckSafe =>
    case CheckGuard =>
    case Post =>
    case RejectLocked =>
    case LeaveRejected =>
    case LeaveFailed =>
    case LeavePlaced =>
  }

  lemma UnlockedSubmitMoves(w: World, tid: Tid, c: Choice)
    requires Local(w, tid) && w.tasks[tid].Submit? && !Holds(w.tasks[tid])
    ensures Moves(w, AdvanceTask(w, tid, c), tid)
  {
    match w.tasks[tid].spc
    case Lookup =>
    case Precheck =>
    case Reserve =>
    case AwaitLock =>
    case PostSell =>
    case Persist =>
    case MarkFailed =>
  }

  lemma LockedSubmitShares(w: World, tid: Tid, c: Choice)
    requires Local(w, tid) && w.tasks[tid].Submit? && Holds(w.tasks[tid])
    ensures Shared(AdvanceTask(w, tid, c)) && Frame(w, AdvanceTask(w, tid, c), Some(tid))
  {
    var t := w.tasks[tid];
    var v := AdvanceTask(w, tid, c);
    match t.spc
    case Post => PostFrame(w, v, tid, t.id);
    case RejectLocked => WithStatusFrame(w, v, Some(tid), t.id, Rejected, false);
    case CheckHalt => QuietFrame(w, v, tid);
    case CheckSafe => QuietFrame(w, v, tid);
    case CheckGuard => QuietFrame(w, v, tid);
    case LeaveRejected => QuietFrame(w, v, tid);
    case LeaveFailed => QuietFrame(w, v, tid);
    case LeavePlaced => QuietFrame(w, v, tid);
  }

  lemma UnlockedSubmitShares(w: World, tid: Tid, c: Choice)
    requires Local(w, tid) && w.tasks[tid].Submit? && !Holds(w.tasks[tid])
    ensures Shared(AdvanceTask(w, tid, c)) && Frame(w, AdvanceTask(w, tid, c), Some(tid))
  {
    var t := w.tasks[tid];
    var v := AdvanceTask(w, tid, c);
    match t.spc
    case PostSell => PostFrame(w, v, tid, t.id);
    case Reserve => if v.db.rows == w.db.rows { QuietFrame(w, v, tid); } else { ReserveFrame(w, v, tid, t.id, t.buy); }
    case Lookup =>
      if t.id in w.db.rows && w.db.rows[t.id].brokerId { WithStatusFrame(w, v, Some(tid), t.id, c.status, true); }
      else { QuietFrame(w, v, tid); }
    case Persist =>
      if c.ok { WithStatusFrame(w, v, Some(tid), t.id, c.status, true); } else { QuietFrame(w, v, tid); }
    case MarkFailed => WithStatusFrame(w, v, Some(tid), t.id, if c.ok then Unknown else Rejected, false);
    case Precheck => QuietFrame(w, v, tid);
    case AwaitLock => QuietFrame(w, v, tid);
  }

  lemma LockedSubmitOwn(w: World, tid: Tid, c: Choice)
    requires Local(w, tid) && w.tasks[tid].Submit? && Holds(w.tasks[tid])
    ensures
      var v := AdvanceTask(w, tid, c);
      tid in v.tasks ==> v.tasks[tid].Submit? && SubmitOk(v, tid, v.tasks[tid])
  {
    match w.tasks[tid].spc
    case CheckHalt =>
    case CheckSafe =>
    case CheckGuard =>
    case Post =>
    case RejectLocked =>
    case LeaveRejected =>
    case LeaveFailed =>
    case LeavePlaced =>
  }

  lemma UnlockedSubmitOwn(w: World, tid: Tid, c: Choice)
    requires Local(w, tid) && w.tasks[tid].Submit? && !Holds(w.tasks[tid])
    ensures
      var v := AdvanceTask(w, tid, c);
      tid in v.tasks ==> v.tasks[tid].Submit? && SubmitOk(v, tid, v.tasks[tid])
  {
    match w.tasks[tid].spc
    case Lookup =>
    case Precheck =>
    case Reserve =>
    case AwaitLock =>
    case PostSell =>
    case Persist =>
    case MarkFailed =>
  }

  lemma SubmitSteps(w: World, tid: Tid, c: Choice)
    requires Local(w, tid) && w.tasks[tid].Submit?
    ensures StepsAlone(w, AdvanceTask(w, tid, c), tid)
  {
    if Holds(w.tasks[tid]) {
      LockedSubmitMoves(w, tid, c);
      LockedSubmitShares(w, tid, c);
      LockedSubmitOwn(w, tid, c);
    } else {
      UnlockedSubmitMoves(w, tid, c);
      UnlockedSubmitShares(w, tid, c);
      UnlockedSubmitOwn(w, tid, c);
    }
  }

  lemma HaltMoves(w: World, tid: Tid, c: Choice)
    requires Local(w, tid) && w.tasks[tid].Halt?
    ensures Moves(w, AdvanceTask(w, tid, c), tid)
  {
    match w.tasks[tid].hpc
    case HaltAcquire =>
    case SetFlag =>
    case SetLatch =>
    case ReadOpen =>
    case CancelLoop =>
    case HaltLeave =>
  }

  lemma HaltOwn(w: World, tid: Tid, c: Choice)
    requires Local(w, tid) && w.tasks[tid].Halt?
    ensures
      var v := AdvanceTask(w, tid, c);
      && SameTable(w, v) && Shared(v) && (SameFlags(w, v) || w.lock == Some(tid))
      && (tid in v.tasks ==> TaskOk(v, tid, v.tasks[tid]))
  {
    var t := w.tasks[tid];
    match t.hpc
    case HaltAcquire =>
    case SetFlag =>
    case SetLatch =>
    case ReadOpen =>
      forall id | id in w.db.rows && w.db.rows[id].buy && w.db.rows[id].status.Open()
        ensures id in OpenBuys(w).Keys
      {
        assert OpenBuy(w, id);
      }
    case CancelLoop =>
      if c.id in t.todo {
        assert (t.todo - {c.id}).Keys == t.todo.Keys - {c.id};
      }
    case HaltLeave => assert t.canceled + t.uncertain == t.seen;
  }

  lemma HaltSteps(w: World, tid: Tid, c: Choice)
    requires Local(w, tid) && w.tasks[tid].Halt?
    ensures StepsAlone(w, AdvanceTask(w, tid, c), tid)
  {
    HaltMoves(w, tid, c);
    HaltOwn(w, tid, c);
    QuietFrame(w, AdvanceTask(w, tid, c), tid);
  }

  lemma ResumeMoves(w: World, tid: Tid, c: Choice)
    requires Local(w, tid) && w.tasks[tid].Resume?
    ensures Moves(w, AdvanceTask(w, tid, c), tid)
  {
    match w.tasks[tid].rpc
    case ResumeRead =>
    case TempAcquire =>
    case TempSet =>
    case TempLeave =>
    case Reconcile =>
    case CheckOpen =>
    case ResumeAcquire =>
    case CheckInside =>
    case ClearFlag =>
    case ClearLatch =>
    case ResumeLeave =>
  }

  lemma ResumeOwn(w: World, tid: Tid, c: Choice)
    requires Local(w, tid) && w.tasks[tid].Resume?
    ensures
      var v := AdvanceTask(w, tid, c);
      && SameTable(w, v) && Shared(v) && (SameFlags(w, v) || w.lock == Some(tid))
      && (tid in v.tasks ==> TaskOk(v, tid, v.tasks[tid]))
  {
    match w.tasks[tid].rpc
    case ResumeRead =>
    case TempAcquire =>
    case TempSet =>
    case TempLeave =>
    case Reconcile =>
    case CheckOpen =>
    case ResumeAcquire =>
    case CheckInside =>
      forall id | id in w.db.rows && OpenBuys(w) == map[] ensures !OpenBuy(w, id) {
        assert OpenBuy(w, id) ==> id in OpenBuys(w);
      }
    case ClearFlag =>
    case ClearLatch =>
    case ResumeLeave =>
  }

  lemma ResumeSteps(w: World, tid: Tid, c: Choice)
    requires Local(w, tid) && w.tasks[tid].Resume?
    ensures StepsAlone(w, AdvanceTask(w, tid, c), tid)
  {
    ResumeMoves(w, tid, c);
    ResumeOwn(w, tid, c);
    QuietFrame(w, AdvanceTask(w, tid, c), tid);
  }

  lemma QuarantineSteps(w: World, tid: Tid, c: Choice)
    requires Local(w, tid) && w.tasks[tid].Quarantine?
    ensures StepsAlone(w, AdvanceTask(w, tid, c), tid)
  {
    var v := AdvanceTask(w, tid, c);
    QuietFrame(w, v, tid);
    match w.tasks[tid].qpc
    case QuarantineAcquire =>
    case WriteQuarantine =>
    case WriteState =>
    case WriteHalt =>
    case QuarantineLeave =>
  }

  lemma ReleaseSteps(w: World, tid: Tid, c: Choice)
    requires Local(w, tid) && w.tasks[tid].Release?
    ensures StepsAlone(w, AdvanceTask(w, tid, c), tid)
  {
    var v := AdvanceTask(w, tid, c);
    QuietFrame(w, v, tid);
    match w.tasks[tid].lpc
    case ReleaseRead =>
    case ReleaseAcquire =>
    case RecheckLatch =>
    case RecheckSafe =>
    case ReopenHalt =>
    case ReopenQuarantine =>
    case ReopenState =>
    case ReleaseLeave =>
  }

  lemma AdvanceKeepsInv(w: World, tid: Tid, c: Choice)
    requires Inv(w) && tid in w.tasks
    ensures Inv(AdvanceTask(w, tid, c))
  {
    match w.tasks[tid]
    case Submit(_, _, _) => SubmitSteps(w, tid, c); AloneKeepsInv(w, AdvanceTask(w, tid, c), tid);
    case Halt(_, _, _, _, _) => HaltSteps(w, tid, c); AloneKeepsInv(w, AdvanceTask(w, tid, c), tid);
    case Resume(_) => ResumeSteps(w, tid, c); AloneKeepsInv(w, AdvanceTask(w, tid, c), tid);
    case Quarantine(_) => QuarantineSteps(w, tid, c); AloneKeepsInv(w, AdvanceTask(w, tid, c), tid);
    case Release(_) => ReleaseSteps(w, tid, c); AloneKeepsInv(w, AdvanceTask(w, tid, c), tid);
  }

  /** A step outside every thread. */
  lemma OutsideKeepsInv(w: World, v: World)
    requires Inv(w) && Shared(v)
    requires v.tasks == w.tasks && v.lock == w.lock
    requires Frame(w, v, None)
    ensures Inv(v)
  {
    forall me | me in v.tasks ensures TaskOk(v, me, v.tasks[me]) {
      FrameKeeps(w, v, None, me, w.tasks[me]);
    }
  }

  lemma SpawnKeepsInv(w: World, tid: Tid, t: Task)
    requires Inv(w)
    ensures Inv(Do(w, Spawn(tid, t)))
  {
    var v := Do(w, Spawn(tid, t));
    forall me | me in v.tasks ensures TaskOk(v, me, v.tasks[me]) {
      assert me in w.tasks ==> TaskOk(w, me, w.tasks[me]);
    }
  }

  lemma RefreshKeepsInv(w: World, id: ClientId, status: Status)
    requires Inv(w)
    ensures Inv(WithStatus(w, id, status, false))
  {
    var v := WithStatus(w, id, status, false);
    WithStatusFrame(w, v, None, id, status, false);
    OutsideKeepsInv(w, v);
  }

  lemma GatesKeepInv(w: World, s: Step)
    requires Inv(w) && (s.SafeMode? || s.CapitalChange? || s.Startup?)
    ensures Inv(Do(w, s))
  {
    OutsideKeepsInv(w, Do(w, s));
  }

  lemma DoKeepsInv(w: World, s: Step)
    requires Inv(w)
    ensures Inv(Do(w, s))
  {
    match s
    case Spawn(tid, t) => SpawnKeepsInv(w, tid, t);
    case Advance(tid, c) => if tid in w.tasks { AdvanceKeepsInv(w, tid, c); }
    case Refresh(id, status) => RefreshKeepsInv(w, id, status);
    case SafeMode(_) => GatesKeepInv(w, s);
    case CapitalChange(_) => GatesKeepInv(w, s);
    case Startup => GatesKeepInv(w, s);
    case Crash =>
  }

  lemma {:induction false} RunKeepsInv(w: World, ss: seq<Step>)
    requires Inv(w)
    ensures Inv(Run(w, ss))
  {
    if |ss| > 0 {
      RunKeepsInv(w, ss[..|ss| - 1]);
      DoKeepsInv(Run(w, ss[..|ss| - 1]), ss[|ss| - 1]);
    }
  }

  // ---------------------------------------------------------------- what holds in every run

  /** A process over a table of earlier orders, no thread running, no halt completed. */
  ghost predicate Start(w: World)
  {
    && w.tasks == map[] && w.lock.None? && w.db.posts == map[] && !w.barred
    && (forall id :: id in w.db.rows <==> id in w.db.owner)
  }

  /** Concurrent submits, retries, exceptions and crashes place each order at most once. */
  lemma AtMostOnePost(w: World, ss: seq<Step>, id: ClientId)
    requires Start(w)
    ensures Posts(Run(w, ss), id) <= 1
  {
    RunKeepsInv(w, ss);
  }

  /** The one step that takes the operator's bar away. */
  predicate Clears(w: World, s: Step)
  {
    s.Advance? && s.tid in w.tasks && w.tasks[s.tid].Resume? && w.tasks[s.tid].rpc.ClearFlag?
  }

  predicate NeverCleared(w: World, ss: seq<Step>)
  {
    |ss| > 0 ==> NeverCleared(w, ss[..|ss| - 1]) && !Clears(Run(w, ss[..|ss| - 1]), ss[|ss| - 1])
  }

  /** A completed halt is lifted by a resume only, and only over a table without an open BUY. */
  lemma OnlyResumeReopens(w: World, s: Step)
    requires Inv(w) && w.barred && !Do(w, s).barred
    ensures Clears(w, s) && NoOpenBuy(w)
  {
    if s.Advance? && s.tid in w.tasks {
      assert TaskOk(w, s.tid, w.tasks[s.tid]);
      match w.tasks[s.tid]
      case Submit(_, _, spc) => UnbarredBySubmit(w, s.tid, s.choice);
      case Halt(_, _, _, _, _) =>
      case Resume(_) =>
      case Quarantine(_) =>
      case Release(_) =>
    }
  }

  lemma UnbarredBySubmit(w: World, tid: Tid, c: Choice)
    requires tid in w.tasks && w.tasks[tid].Submit?
    ensures AdvanceTask(w, tid, c).barred == w.barred
  {
    match w.tasks[tid].spc
    case Lookup =>
    case Precheck =>
    case Reserve =>
    case AwaitLock =>
    case CheckHalt =>
    case CheckSafe =>
    case CheckGuard =>
    case Post =>
    case RejectLocked =>
    case LeaveRejected =>
    case LeaveFailed =>
    case LeavePlaced =>
    case PostSell =>
    case Persist =>
    case MarkFailed =>
  }

  lemma OnlyPostingPosts(w: World, tid: Tid, c: Choice)
    requires tid in w.tasks && w.tasks[tid].Submit?
    requires !w.tasks[tid].spc.Post? && !w.tasks[tid].spc.PostSell?
    ensures AdvanceTask(w, tid, c).db.posts == w.db.posts
  {
    match w.tasks[tid].spc
    case Lookup =>
    case Precheck =>
    case Reserve =>
    case AwaitLock =>
    case CheckHalt =>
    case CheckSafe =>
    case CheckGuard =>
    case Post =>
    case RejectLocked =>
    case LeaveRejected =>
    case LeaveFailed =>
    case LeavePlaced =>
    case PostSell =>
    case Persist =>
    case MarkFailed =>
  }

  /** Only a submitting thread calls the broker. */
  lemma OnlySubmitPosts(w: World, s: Step)
    requires !(s.Advance? && s.tid in w.tasks && w.tasks[s.tid].Submit?)
    ensures Do(w, s).db.posts == w.db.posts
  {
    match s
    case Spawn(_, _) =>
    case Advance(tid, c) =>
    case Refresh(_, _) =>
    case SafeMode(_) =>
    case CapitalChange(_) =>
    case Startup =>
    case Crash =>
  }

  lemma BarredPostsNoBuy(w: World, tid: Tid, c: Choice, id: ClientId)
    requires Inv(w) && w.barred && tid in w.tasks && w.tasks[tid].Submit?
    requires w.tasks[tid].spc.Post? || w.tasks[tid].spc.PostSell?
    requires id in w.db.rows && w.db.rows[id].buy
    ensures Posts(AdvanceTask(w, tid, c), id) == Posts(w, id)
  {
    assert SubmitOk(w, tid, w.tasks[tid]);
  }

  lemma BarredStepPlacesNoBuy(w: World, s: Step, id: ClientId)
    requires Inv(w) && w.barred
    requires id in w.db.rows && w.db.rows[id].buy
    ensures Posts(Do(w, s), id) == Posts(w, id)
  {
    if s.Advance? && s.tid in w.tasks && w.tasks[s.tid].Submit? {
      if w.tasks[s.tid].spc.Post? || w.tasks[s.tid].spc.PostSell? {
        BarredPostsNoBuy(w, s.tid, s.choice, id);
      } else {
        OnlyPostingPosts(w, s.tid, s.choice);
      }
    } else {
      OnlySubmitPosts(w, s);
    }
  }

  lemma NoBuyReservedWhileBarred(w: World, s: Step, id: ClientId)
    requires Inv(w) && w.barred
    requires id in Do(w, s).db.rows && Do(w, s).db.rows[id].buy
    ensures id in w.db.rows && w.db.rows[id].buy
  {
    if s.Advance? && s.tid in w.tasks {
      match w.tasks[s.tid]
      case Submit(_, _, _) => SubmitSteps(w, s.tid, s.choice);
      case Halt(_, _, _, _, _) => HaltSteps(w, s.tid, s.choice);
      case Resume(_) => ResumeSteps(w, s.tid, s.choice);
      case Quarantine(_) => QuarantineSteps(w, s.tid, s.choice);
      case Release(_) => ReleaseSteps(w, s.tid, s.choice);
    }
  }

  /** From the moment a halt releases the lock until a resume clears the flag, no interleaving places a BUY. */
  lemma {:induction false} NoBuyFromHaltToResume(w: World, ss: seq<Step>)
    requires Inv(w) && w.barred && NeverCleared(w, ss)
    ensures Run(w, ss).barred && Run(w, ss).keys.halt && Run(w, ss).keys.latch
    ensures forall id :: id in Run(w, ss).db.rows && Run(w, ss).db.rows[id].buy ==>
              id in w.db.rows && Posts(Run(w, ss), id) == Posts(w, id)
    ensures forall id :: OpenBuy(Run(w, ss), id) ==> id in Run(w, ss).covered
  {
    RunKeepsInv(w, ss);
    if |ss| > 0 {
      var head, last := ss[..|ss| - 1], ss[|ss| - 1];
      var u := Run(w, head);
      RunKeepsInv(w, head);
      NoBuyFromHaltToResume(w, head);
      if !Do(u, last).barred {
        OnlyResumeReopens(u, last);
      }
      forall id | id in Do(u, last).db.rows && Do(u, last).db.rows[id].buy
        ensures id in w.db.rows && Posts(Do(u, last), id) == Posts(w, id)
      {
        NoBuyReservedWhileBarred(u, last, id);
        BarredStepPlacesNoBuy(u, last, id);
      }
    }
  }

  /** What a halt reads is exactly the BUYs locally open at that moment. */
  lemma HaltReadsEveryOpenBuy(w: World, tid: Tid, c: Choice)
    requires tid in w.tasks && w.tasks[tid].Halt? && w.tasks[tid].hpc.ReadOpen?
    ensures
      var t := Do(w, Advance(tid, c)).tasks[tid];
      forall id :: id in t.seen <==> OpenBuy(w, id)
  {
    forall id ensures id in OpenBuys(w).Keys <==> OpenBuy(w, id) {
    }
  }

  /** When a halt leaves, its two lists are disjoint, together list exactly the BUYs it saw open, and
      cover every BUY open now: reserved or placed, by this process or an earlier one. */
  lemma HaltAccountsForEveryBuy(w: World, tid: Tid, c: Choice)
    requires Inv(w) && tid in w.tasks && w.tasks[tid].Halt? && w.tasks[tid].hpc.HaltLeave?
    ensures
      var t := w.tasks[tid];
      var v := Do(w, Advance(tid, c));
      && v.barred && v.covered == t.seen == t.canceled + t.uncertain
      && t.canceled !! t.uncertain && BuyRows(v, t.seen)
      && (forall id :: OpenBuy(v, id) ==> id in t.canceled + t.uncertain)
  {
    assert TaskOk(w, tid, w.tasks[tid]);
  }

  /** The order the broker shows after the cancel; none when a call raised. */
  datatype ReadBack = ReadBack(orderId: string, status: string)

  /** One pass of the halt's loop: the stored row, and what the broker answered. */
  datatype Attempt = Attempt(id: ClientId, brokerId: Option<string>, reply: Option<ReadBack>)

  /** `_cancel_is_confirmed`: the very order that was canceled says so. */
  predicate CancelIsConfirmed(raw: ReadBack, brokerId: string)
  {
    raw.orderId == brokerId && raw.status == "CANCELED"
  }

  predicate CancelSettled(a: Attempt)
  {
    a.brokerId.Some? && a.reply.Some? && CancelIsConfirmed(a.reply.value, a.brokerId.value)
  }

  function IdsWhere(attempts: seq<Attempt>, settled: bool): seq<ClientId>
  {
    if |attempts| == 0 then []
    else
      var rest := IdsWhere(attempts[..|attempts| - 1], settled);
      var last := attempts[|attempts| - 1];
      if CancelSettled(last) == settled then rest + [last.id] else rest
  }

  /** The loop of `halt` over the open BUYs, in table order. */
  method CancelOpenBuys(attempts: seq<Attempt>) returns (canceled: seq<ClientId>, uncertain: seq<ClientId>)
    ensures canceled == IdsWhere(attempts, true)
    ensures uncertain == IdsWhere(attempts, false)
  {
    canceled, uncertain := [], [];
    for i := 0 to |attempts|
      invariant canceled == IdsWhere(attempts[..i], true)
      invariant uncertain == IdsWhere(attempts[..i], false)
    {
      assert attempts[..i + 1][..i] == attempts[..i];
      var a := attempts[i];
      if a.brokerId.None? {
        uncertain := uncertain + [a.id];
      } else if a.reply.None? {
        uncertain := uncertain + [a.id];
      } else if CancelIsConfirmed(a.reply.value, a.brokerId.value) {
        canceled := canceled + [a.id];
      } else {
        uncertain := uncertain + [a.id];
      }
    }
    assert attempts[..|attempts|] == attempts;
  }

  /** An id is reported canceled exactly when some attempt on it settled, uncertain exactly when some did not. */
  lemma {:induction false} ReportExact(attempts: seq<Attempt>, settled: bool, id: ClientId)
    ensures id in IdsWhere(attempts, settled) <==>
            exists i :: 0 <= i < |attempts| && attempts[i].id == id && CancelSettled(attempts[i]) == settled
    ensures |IdsWhere(attempts, true)| + |IdsWhere(attempts, false)| == |attempts|
  {
    if |attempts| > 0 {
      var n := |attempts| - 1;
      ReportExact(attempts[..n], settled, id);
      assert forall i :: 0 <= i < n ==> attempts[..n][i] == attempts[i];
    }
  }

  /** The loop as steps of the halting thread. */
  function LoopSteps(tid: Tid, attempts: seq<Attempt>): (ss: seq<Step>)
    ensures |ss| == |attempts|
    ensures forall i :: 0 <= i < |ss| ==>
              ss[i] == Advance(tid, Choice(CancelSettled(attempts[i]), Canceled, attempts[i].id))
  {
    seq(|attempts|, i requires 0 <= i < |attempts| =>
      Advance(tid, Choice(CancelSettled(attempts[i]), Canceled, attempts[i].id)))
  }

  function Ids(attempts: seq<Attempt>): set<ClientId>
  {
    set i | 0 <= i < |attempts| :: attempts[i].id
  }

  /** One attempt per row still to cancel, with the broker id the halt read. */
  predicate ToCancel(todo: map<ClientId, bool>, attempts: seq<Attempt>)
  {
    && (forall i :: 0 <= i < |attempts| ==>
          attempts[i].id in todo && todo[attempts[i].id] == attempts[i].brokerId.Some?)
    && (forall i, j :: 0 <= i < j < |attempts| ==> attempts[i].id != attempts[j].id)
  }

  function AfterLoop(t: Task, attempts: seq<Attempt>): Task
    requires t.Halt?
  {
    Halt(CancelLoop, t.todo - Ids(attempts), t.seen,
         t.canceled + Elements(IdsWhere(attempts, true)), t.uncertain + Elements(IdsWhere(attempts, false)))
  }

  function Elements(ids: seq<ClientId>): set<ClientId>
  {
    set id | id in ids
  }

  lemma IdsGrow(attempts: seq<Attempt>, n: nat)
    requires n < |attempts|
    ensures Ids(attempts[..n + 1]) == Ids(attempts[..n]) + {attempts[n].id}
  {
    var past, more := attempts[..n], attempts[..n + 1];
    forall id ensures id in Ids(more) <==> id in Ids(past) + {attempts[n].id} {
      if id in Ids(past) {
        var i :| 0 <= i < |past| && past[i].id == id;
        assert more[i].id == id;
      }
      assert more[n] == attempts[n];
    }
  }

  lemma OneAttempt(w: World, tid: Tid, t: Task, attempts: seq<Attempt>, n: nat)
    requires n < |attempts| && t.Halt? && ToCancel(t.todo, attempts)
    requires tid in w.tasks && w.tasks[tid] == AfterLoop(t, attempts[..n])
    ensures
      var v := Do(w, LoopSteps(tid, attempts)[n]);
      tid in v.tasks && v.tasks[tid] == AfterLoop(t, attempts[..n + 1])
  {
    var past, more, a := attempts[..n], attempts[..n + 1], attempts[n];
    assert more[..n] == past;
    assert a.id !in Ids(past);
    IdsGrow(attempts, n);
    assert (t.todo - Ids(past)) - {a.id} == t.todo - Ids(more);
    assert forall settled ::
        IdsWhere(more, settled) == (if CancelSettled(a) == settled then IdsWhere(past, settled) + [a.id] else IdsWhere(past, settled));
  }

  /** The halting thread's cancel loop reports what the method reports, whatever order it visits the rows in. */
  lemma {:induction false} HaltLoopIsTheMethod(w: World, tid: Tid, attempts: seq<Attempt>, n: nat)
    requires n <= |attempts|
    requires tid in w.tasks && w.tasks[tid].Halt? && w.tasks[tid].hpc.CancelLoop?
    requires ToCancel(w.tasks[tid].todo, attempts)
    ensures
      var v := Run(w, LoopSteps(tid, attempts)[..n]);
      tid in v.tasks && v.tasks[tid] == AfterLoop(w.tasks[tid], attempts[..n])
  {
    var t, ss := w.tasks[tid], LoopSteps(tid, attempts);
    if n == 0 {
      assert t.todo - {} == t.todo;
      assert t.canceled + Elements(IdsWhere(attempts[..0], true)) == t.canceled;
      assert t.uncertain + Elements(IdsWhere(attempts[..0], false)) == t.uncertain;
    } else {
      HaltLoopIsTheMethod(w, tid, attempts, n - 1);
      assert ss[..n][..n - 1] == ss[..n - 1];
      OneAttempt(Run(w, ss[..n - 1]), tid, t, attempts, n - 1);
    }
  }
}
