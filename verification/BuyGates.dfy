/**
 What the gates of a BUY promise: no row and no broker call while any of them is shut, over every
 interleaving, and what each operation does when nothing else runs.
 */
module BuyGates {
  import opened Results
  import Ledger
  import opened BuyBarrier

  /** A key that refuses every BUY is set. */
  predicate Shut(k: Keys)
  {
    k.latch || k.quarantine || !k.running
  }

  /** Thread `tid` is about to send a BUY to the broker. */
  predicate AboutToBuy(w: World, tid: Tid)
  {
    tid in w.tasks && w.tasks[tid].Submit? && w.tasks[tid].buy && w.tasks[tid].spc.Post?
  }

  predicate NobodyAboutToBuy(w: World)
  {
    forall tid :: tid in w.tasks ==> !AboutToBuy(w, tid)
  }

  // ---------------------------------------------------------------- one step

  lemma OnlySubmitReserves(w: World, s: Step)
    requires !(s.Advance? && s.tid in w.tasks && w.tasks[s.tid].Submit?)
    ensures Do(w, s).db.rows.Keys == w.db.rows.Keys
  {
    match s
    case Spawn(_, _) =>
    case Advance(tid, c) =>
      if tid in w.tasks {
        match w.tasks[tid]
        case Submit(_, _, _) =>
        case Halt(_, _, _, _, _) =>
        case Resume(_) =>
        case Quarantine(_) =>
        case Release(_) =>
      }
    case Refresh(_, _) =>
    case SafeMode(_) =>
    case CapitalChange(_) =>
    case Startup =>
    case Crash =>
  }

  lemma SubmitReservesOverOpenGates(w: World, tid: Tid, c: Choice, id: Ledger.ClientId)
    requires tid in w.tasks && w.tasks[tid].Submit?
    requires id !in w.db.rows && id in AdvanceTask(w, tid, c).db.rows
    ensures w.tasks[tid].id == id && AdvanceTask(w, tid, c).db.rows[id].buy == w.tasks[tid].buy
    ensures w.tasks[tid].buy ==> !Shut(w.keys)
  {
    match w.tasks[tid].spc
    case Lookup =>
    case Precheck =>
    case Reserve =>
    case AwaitLock =>
    case CheckHalt =>
    case CheckSafe =>
    case CheckGuard =>
    case Post =>
    case RejectLocked =>
    case LeaveRejected =>
    case LeaveFailed =>
    case LeavePlaced =>
    case PostSell =>
    case Persist =>
    case MarkFailed =>
  }

  /** A BUY row is created only in a world whose latch and quarantine are clear and whose state is RUNNING. */
  lemma ReservedOverOpenGates(w: World, s: Step, id: Ledger.ClientId)
    requires id !in w.db.rows && id in Do(w, s).db.rows && Do(w, s).db.rows[id].buy
    ensures !w.keys.latch && !w.keys.quarantine && w.keys.running
  {
    if s.Advance? && s.tid in w.tasks && w.tasks[s.tid].Submit? {
      SubmitReservesOverOpenGates(w, s.tid, s.choice, id);
    } else {
      OnlySubmitReserves(w, s);
    }
  }

  lemma SubmitArrives(w: World, tid: Tid, c: Choice)
    requires tid in w.tasks && w.tasks[tid].Submit? && tid in AdvanceTask(w, tid, c).tasks
    ensures
      var t := AdvanceTask(w, tid, c).tasks[tid];
      && t.Submit? && t.buy == w.tasks[tid].buy && t.id == w.tasks[tid].id
      && (t.spc.Post? ==> !Shut(w.keys) && w.tasks[tid].spc.CheckGuard?)
      && (t.spc.CheckGuard? ==> !w.keys.safeMode && w.tasks[tid].spc.CheckSafe?)
      && (t.spc.CheckSafe? ==> !w.keys.halt && w.tasks[tid].spc.CheckHalt?)
      && (t.spc.Reserve? && t.buy ==> !w.keys.halt && !w.keys.safeMode)
  {
    match w.tasks[tid].spc
    case Lookup =>
    case Precheck =>
    case Reserve =>
    case AwaitLock =>
    case CheckHalt =>
    case CheckSafe =>
    case CheckGuard =>
    case Post =>
    case RejectLocked =>
    case LeaveRejected =>
    case LeaveFailed =>
    case LeavePlaced =>
    case PostSell =>
    case Persist =>
    case MarkFailed =>
  }

  /** Only its own step moves a submitting thread on. */
  lemma OthersStay(w: World, s: Step, tid: Tid)
    requires tid in Do(w, s).tasks && Do(w, s).tasks[tid].Submit? && !Do(w, s).tasks[tid].spc.Lookup?
    ensures tid in w.tasks
    ensures !(s.Advance? && s.tid == tid) ==> w.tasks[tid] == Do(w, s).tasks[tid]
    ensures s.Advance? && s.tid == tid ==> w.tasks[tid].Submit?
  {
    match s
    case Spawn(_, _) =>
    case Advance(me, c) =>
      if me in w.tasks {
        match w.tasks[me]
        case Submit(_, _, _) => SubmitTouchesItself(w, me, c);
        case Halt(_, _, _, _, _) =>
        case Resume(_) =>
        case Quarantine(_) =>
        case Release(_) =>
      }
    case Refresh(_, _) =>
    case SafeMode(_) =>
    case CapitalChange(_) =>
    case Startup =>
    case Crash =>
  }

  lemma SubmitTouchesItself(w: World, tid: Tid, c: Choice)
    requires tid in w.tasks && w.tasks[tid].Submit?
    ensures forall me :: me in AdvanceTask(w, tid, c).tasks && me != tid ==>
              me in w.tasks && w.tasks[me] == AdvanceTask(w, tid, c).tasks[me]
  {
    match w.tasks[tid].spc
    case Lookup =>
    case Precheck =>
    case Reserve =>
    case AwaitLock =>
    case CheckHalt =>
    case CheckSafe =>
    case CheckGuard =>
    case Post =>
    case RejectLocked =>
    case LeaveRejected =>
    case LeaveFailed =>
    case LeavePlaced =>
    case PostSell =>
    case Persist =>
    case MarkFailed =>
  }

  /** A thread comes to send a BUY only holding the lock, over open gates and a clear flag. */
  lemma ReachesPostOverOpenGates(w: World, s: Step, tid: Tid)
    requires Inv(w) && !AboutToBuy(w, tid) && AboutToBuy(Do(w, s), tid)
    ensures !w.keys.latch && !w.keys.quarantine && w.keys.running && !w.keys.halt && w.lock == Some(tid)
  {
    OthersStay(w, s, tid);
    SubmitArrives(w, tid, s.choice);
    assert TaskOk(w, tid, w.tasks[tid]);
  }

  /** The check before the last one saw safe mode off. */
  lemma ReachesGuardOutsideSafeMode(w: World, s: Step, tid: Tid)
    requires tid in Do(w, s).tasks && Do(w, s).tasks[tid].Submit? && Do(w, s).tasks[tid].spc.CheckGuard?
    requires tid in w.tasks ==> w.tasks[tid] != Do(w, s).tasks[tid]
    ensures !w.keys.safeMode
  {
    OthersStay(w, s, tid);
    SubmitArrives(w, tid, s.choice);
  }

  /** The broker is called for a BUY only by a thread about to send it. */
  lemma PostedByOneAboutToBuy(w: World, s: Step, id: Ledger.ClientId)
    requires Inv(w) && id in w.db.rows && w.db.rows[id].buy && Posts(Do(w, s), id) != Posts(w, id)
    ensures s.Advance? && AboutToBuy(w, s.tid) && w.tasks[s.tid].id == id
  {
    if s.Advance? && s.tid in w.tasks && w.tasks[s.tid].Submit? {
      if w.tasks[s.tid].spc.Post? || w.tasks[s.tid].spc.PostSell? {
        assert SubmitOk(w, s.tid, w.tasks[s.tid]);
      } else {
        OnlyPostingPosts(w, s.tid, s.choice);
      }
    } else {
      OnlySubmitPosts(w, s);
    }
  }

  lemma NewRowsAreUnposted(w: World, s: Step, id: Ledger.ClientId)
    requires Inv(w) && id !in w.db.rows
    ensures Posts(Do(w, s), id) == 0
  {
    if s.Advance? && s.tid in w.tasks && w.tasks[s.tid].Submit? {
      if w.tasks[s.tid].spc.Post? || w.tasks[s.tid].spc.PostSell? {
        assert SubmitOk(w, s.tid, w.tasks[s.tid]);
      } else {
        OnlyPostingPosts(w, s.tid, s.choice);
      }
    } else {
      OnlySubmitPosts(w, s);
    }
  }

  lemma RowsStay(w: World, s: Step, id: Ledger.ClientId)
    requires Inv(w) && id in w.db.rows
    ensures id in Do(w, s).db.rows && Do(w, s).db.rows[id].buy == w.db.rows[id].buy
  {
    match s
    case Spawn(_, _) =>
    case Advance(tid, c) =>
      if tid in w.tasks {
        match w.tasks[tid]
        case Submit(_, _, _) => SubmitSteps(w, tid, c);
        case Halt(_, _, _, _, _) => HaltSteps(w, tid, c);
        case Resume(_) => ResumeSteps(w, tid, c);
        case Quarantine(_) => QuarantineSteps(w, tid, c);
        case Release(_) => ReleaseSteps(w, tid, c);
      }
    case Refresh(_, _) =>
    case SafeMode(_) =>
    case CapitalChange(_) =>
    case Startup =>
    case Crash =>
  }

  // ---------------------------------------------------------------- runs over shut gates

  /** Every BUY of `v` is one of `w`, sent no more often. */
  ghost predicate NoNewBuy(w: World, v: World)
  {
    forall id :: id in v.db.rows && v.db.rows[id].buy ==>
      id in w.db.rows && w.db.rows[id].buy && Posts(v, id) == Posts(w, id)
  }

  lemma ShutStep(w: World, s: Step)
    requires Inv(w) && Shut(w.keys) && NobodyAboutToBuy(w)
    ensures NobodyAboutToBuy(Do(w, s)) && NoNewBuy(w, Do(w, s))
  {
    var v := Do(w, s);
    forall tid | tid in v.tasks ensures !AboutToBuy(v, tid) {
      if AboutToBuy(v, tid) {
        ReachesPostOverOpenGates(w, s, tid);
      }
    }
    forall id | id in v.db.rows && v.db.rows[id].buy
      ensures id in w.db.rows && w.db.rows[id].buy && Posts(v, id) == Posts(w, id)
    {
      if id !in w.db.rows {
        ReservedOverOpenGates(w, s, id);
      } else {
        RowsStay(w, s, id);
        if Posts(v, id) != Posts(w, id) {
          PostedByOneAboutToBuy(w, s, id);
        }
      }
    }
  }

  /** A gate is shut whenever a step of the run is taken; which one may change. */
  predicate ShutThroughout(w: World, ss: seq<Step>)
  {
    |ss| > 0 ==> ShutThroughout(w, ss[..|ss| - 1]) && Shut(Run(w, ss[..|ss| - 1]).keys)
  }

  /** While gates are shut no interleaving reserves a BUY or sends one to the broker. */
  lemma {:induction false} NoBuyWhileShut(w: World, ss: seq<Step>)
    requires Inv(w) && NobodyAboutToBuy(w) && ShutThroughout(w, ss)
    ensures NobodyAboutToBuy(Run(w, ss)) && NoNewBuy(w, Run(w, ss))
  {
    if |ss| > 0 {
      var head, last := ss[..|ss| - 1], ss[|ss| - 1];
      NoBuyWhileShut(w, head);
      RunKeepsInv(w, head);
      ShutStep(Run(w, head), last);
    }
  }

  /** A release is about to clear the quarantine. */
  predicate LiftsQuarantine(w: World, s: Step)
  {
    s.Advance? && s.tid in w.tasks && w.tasks[s.tid].Release? && w.tasks[s.tid].lpc.ReopenQuarantine?
  }

  predicate NeverLifted(w: World, ss: seq<Step>)
  {
    |ss| > 0 ==> NeverLifted(w, ss[..|ss| - 1]) && !LiftsQuarantine(Run(w, ss[..|ss| - 1]), ss[|ss| - 1])
  }

  lemma ReleaseKeepsQuarantine(w: World, tid: Tid, c: Choice)
    requires tid in w.tasks && w.tasks[tid].Release? && !w.tasks[tid].lpc.ReopenQuarantine?
    ensures AdvanceTask(w, tid, c).keys.quarantine == w.keys.quarantine
  {
  }

  lemma OthersKeepQuarantine(w: World, tid: Tid, c: Choice)
    requires tid in w.tasks && w.keys.quarantine && !w.tasks[tid].Submit? && !w.tasks[tid].Release?
    ensures AdvanceTask(w, tid, c).keys.quarantine
  {
    match w.tasks[tid]
    case Halt(_, _, _, _, _) =>
    case Resume(_) =>
    case Quarantine(_) =>
  }

  lemma QuarantineStays(w: World, s: Step)
    requires w.keys.quarantine && !LiftsQuarantine(w, s)
    ensures Do(w, s).keys.quarantine
  {
    if s.Advance? && s.tid in w.tasks {
      if w.tasks[s.tid].Submit? {
        SubmitKeepsKeys(w, s.tid, s.choice);
      } else if w.tasks[s.tid].Release? {
        ReleaseKeepsQuarantine(w, s.tid, s.choice);
      } else {
        OthersKeepQuarantine(w, s.tid, s.choice);
      }
    }
  }

  lemma SubmitKeepsKeys(w: World, tid: Tid, c: Choice)
    requires tid in w.tasks && w.tasks[tid].Submit?
    ensures AdvanceTask(w, tid, c).keys == w.keys
  {
    match w.tasks[tid].spc
    case Lookup =>
    case Precheck =>
    case Reserve =>
    case AwaitLock =>
    case CheckHalt =>
    case CheckSafe =>
    case CheckGuard =>
    case Post =>
    case RejectLocked =>
    case LeaveRejected =>
    case LeaveFailed =>
    case LeavePlaced =>
    case PostSell =>
    case Persist =>
    case MarkFailed =>
  }

  lemma {:induction false} QuarantineLasts(w: World, ss: seq<Step>)
    requires w.keys.quarantine && NeverLifted(w, ss)
    ensures Run(w, ss).keys.quarantine && ShutThroughout(w, ss)
  {
    if |ss| > 0 {
      QuarantineLasts(w, ss[..|ss| - 1]);
      QuarantineStays(Run(w, ss[..|ss| - 1]), ss[|ss| - 1]);
    }
  }

  /** From quarantine on, until a release lifts it, no interleaving reserves or sends a BUY. */
  lemma NoBuyUnderQuarantine(w: World, ss: seq<Step>)
    requires Inv(w) && w.keys.quarantine && NobodyAboutToBuy(w) && NeverLifted(w, ss)
    ensures Run(w, ss).keys.quarantine && NoNewBuy(w, Run(w, ss))
  {
    QuarantineLasts(w, ss);
    NoBuyWhileShut(w, ss);
  }

  /** A process that starts, and one whose capital was changed, reserves and sends nothing before a release. */
  lemma NoBuyAfterStartOrChange(w: World, s: Step, ss: seq<Step>)
    requires s == Startup || (s == CapitalChange(true) && w.lock.None?)
    requires Inv(w) && NobodyAboutToBuy(w) && NeverLifted(Do(w, s), ss)
    ensures Do(w, s).keys.quarantine && !Do(w, s).keys.running && (s.CapitalChange? ==> Do(w, s).keys.halt)
    ensures NoNewBuy(w, Run(Do(w, s), ss))
  {
    DoKeepsInv(w, s);
    NoBuyUnderQuarantine(Do(w, s), ss);
  }

  // ---------------------------------------------------------------- runs in safe mode

  /** A BUY thread that has already seen safe mode off. */
  predicate PastSafeMode(w: World, tid: Tid)
  {
    tid in w.tasks && w.tasks[tid].Submit? && w.tasks[tid].buy && (w.tasks[tid].spc.CheckGuard? || w.tasks[tid].spc.Post?)
  }

  predicate NobodyPastSafeMode(w: World)
  {
    forall tid :: tid in w.tasks ==> !PastSafeMode(w, tid)
  }

  predicate SafeThroughout(w: World, ss: seq<Step>)
  {
    |ss| > 0 ==> SafeThroughout(w, ss[..|ss| - 1]) && Run(w, ss[..|ss| - 1]).keys.safeMode
  }

  ghost predicate NoNewPost(w: World, v: World)
  {
    forall id :: id in v.db.rows && v.db.rows[id].buy ==> Posts(v, id) == Posts(w, id)
  }

  lemma SafeStep(w: World, s: Step)
    requires Inv(w) && w.keys.safeMode && NobodyPastSafeMode(w)
    ensures NobodyPastSafeMode(Do(w, s)) && NoNewPost(w, Do(w, s))
  {
    var v := Do(w, s);
    forall tid | tid in v.tasks ensures !PastSafeMode(v, tid) {
      if PastSafeMode(v, tid) {
        OthersStay(w, s, tid);
        SubmitArrives(w, tid, s.choice);
      }
    }
    forall id | id in v.db.rows && v.db.rows[id].buy ensures Posts(v, id) == Posts(w, id) {
      if id !in w.db.rows {
        NewRowsAreUnposted(w, s, id);
        assert id !in w.db.posts;
      } else {
        RowsStay(w, s, id);
        if Posts(v, id) != Posts(w, id) {
          PostedByOneAboutToBuy(w, s, id);
        }
      }
    }
  }

  /** While safe mode is on nothing is bought, by threads that had reserved before it included. */
  lemma {:induction false} NoBuyInSafeMode(w: World, ss: seq<Step>)
    requires Inv(w) && NobodyPastSafeMode(w) && SafeThroughout(w, ss)
    ensures NobodyPastSafeMode(Run(w, ss)) && NoNewPost(w, Run(w, ss))
  {
    if |ss| > 0 {
      var head, last := ss[..|ss| - 1], ss[|ss| - 1];
      NoBuyInSafeMode(w, head);
      RunKeepsInv(w, head);
      SafeStep(Run(w, head), last);
      forall id | id in Run(w, ss).db.rows && Run(w, ss).db.rows[id].buy
        ensures Posts(Run(w, ss), id) == Posts(w, id)
      {
        if id !in Run(w, head).db.rows {
          assert id !in Run(w, head).db.posts;
          StillUnknown(w, head, id);
        } else {
          RowsStay(Run(w, head), last, id);
        }
      }
    }
  }

  lemma {:induction false} StillUnknown(w: World, ss: seq<Step>, id: Ledger.ClientId)
    requires Inv(w) && id !in Run(w, ss).db.rows
    ensures id !in w.db.rows && Posts(w, id) == 0
  {
    if |ss| > 0 {
      var head := ss[..|ss| - 1];
      RunKeepsInv(w, head);
      if id in Run(w, head).db.rows {
        RowsStay(Run(w, head), ss[|ss| - 1], id);
      }
      StillUnknown(w, head, id);
    }
  }

  // ---------------------------------------------------------------- undisturbed operations

  /** Thread `tid` takes `n` steps with nothing in between; a thread that is gone takes none. */
  function Alone(w: World, tid: Tid, n: nat, c: Choice): World
    decreases n
  {
    if n == 0 then w else Alone(Do(w, Advance(tid, c)), tid, n - 1, c)
  }

  lemma {:induction false} AloneAdds(w: World, tid: Tid, m: nat, n: nat, c: Choice)
    ensures Alone(w, tid, m + n, c) == Alone(Alone(w, tid, m, c), tid, n, c)
    decreases m
  {
    if m > 0 {
      AloneAdds(Do(w, Advance(tid, c)), tid, m - 1, n, c);
    }
  }

  lemma {:induction false} AloneGone(w: World, tid: Tid, n: nat, c: Choice)
    requires tid !in w.tasks
    ensures Alone(w, tid, n, c) == w
  {
    if n > 0 {
      AloneGone(w, tid, n - 1, c);
    }
  }

  /** Nothing stands in the way of a BUY. */
  predicate Clear(k: Keys)
  {
    !k.halt && !k.safeMode && !k.latch && !k.quarantine && k.running
  }

  /** The world with thread `tid` at `pc`, holding the lock or not. */
  function At(w: World, tid: Tid, id: Ledger.ClientId, buy: bool, pc: SubmitPc, locked: bool): World
  {
    w.(tasks := w.tasks[tid := Submit(id, buy, pc)], lock := if locked then Some(tid) else None)
  }

  /** The row of a thread's order, still as it was inserted. */
  predicate JustInserted(w: World, id: Ledger.ClientId, buy: bool)
  {
    id in w.db.rows && w.db.rows[id] == Row(buy, Ledger.Created, false)
  }

  lemma Locks(w: World, tid: Tid, id: Ledger.ClientId, c: Choice)
    ensures Do(At(w, tid, id, true, AwaitLock, false), Advance(tid, c)) == At(w, tid, id, true, CheckHalt, true)
  {
    assert Do(At(w, tid, id, true, AwaitLock, false), Advance(tid, c)).tasks == At(w, tid, id, true, CheckHalt, true).tasks;
  }

  lemma ChecksFlags(w: World, tid: Tid, id: Ledger.ClientId, c: Choice)
    ensures Do(At(w, tid, id, true, CheckHalt, true), Advance(tid, c))
            == At(w, tid, id, true, if w.keys.halt then RejectLocked else CheckSafe, true)
    ensures Do(At(w, tid, id, true, CheckSafe, true), Advance(tid, c))
            == At(w, tid, id, true, if w.keys.safeMode then RejectLocked else CheckGuard, true)
  {
    var a, b := At(w, tid, id, true, CheckHalt, true), At(w, tid, id, true, CheckSafe, true);
    assert Do(a, Advance(tid, c)).tasks == a.tasks[tid := Submit(id, true, if w.keys.halt then RejectLocked else CheckSafe)];
    assert Do(b, Advance(tid, c)).tasks == b.tasks[tid := Submit(id, true, if w.keys.safeMode then RejectLocked else CheckGuard)];
  }

  lemma ChecksGuard(w: World, tid: Tid, id: Ledger.ClientId, c: Choice)
    requires c.ok
    ensures Do(At(w, tid, id, true, CheckGuard, true), Advance(tid, c))
            == At(w, tid, id, true, if Shut(w.keys) then LeaveFailed else Post, true)
  {
    var a := At(w, tid, id, true, CheckGuard, true);
    assert Do(a, Advance(tid, c)).tasks == a.tasks[tid := Submit(id, true, if Shut(w.keys) then LeaveFailed else Post)];
  }

  lemma Sends(w: World, tid: Tid, id: Ledger.ClientId, buy: bool, c: Choice)
    requires c.ok
    ensures
      var sent := w.(db := w.db.(posts := w.db.posts[id := Posts(w, id) + 1]));
      && (buy ==> Do(At(w, tid, id, buy, Post, true), Advance(tid, c)) == At(sent, tid, id, buy, LeavePlaced, true))
      && (!buy ==> Do(At(w, tid, id, buy, PostSell, false), Advance(tid, c)) == At(sent, tid, id, buy, Persist, false))
  {
    var a := At(w, tid, id, buy, if buy then Post else PostSell, buy);
    assert Do(a, Advance(tid, c)).tasks == a.tasks[tid := Submit(id, buy, if buy then LeavePlaced else Persist)];
  }

  lemma Leaves(w: World, tid: Tid, id: Ledger.ClientId, c: Choice)
    requires tid !in w.tasks
    ensures Do(At(w, tid, id, true, LeavePlaced, true), Advance(tid, c)) == At(w, tid, id, true, Persist, false)
    ensures Do(At(w, tid, id, true, LeaveFailed, true), Advance(tid, c)) == At(w, tid, id, true, MarkFailed, false)
    ensures Do(At(w, tid, id, true, LeaveRejected, true), Advance(tid, c)) == w.(lock := None)
  {
    var a, b := At(w, tid, id, true, LeavePlaced, true), At(w, tid, id, true, LeaveFailed, true);
    assert Do(a, Advance(tid, c)).tasks == a.tasks[tid := Submit(id, true, Persist)];
    assert Do(b, Advance(tid, c)).tasks == b.tasks[tid := Submit(id, true, MarkFailed)];
    assert Do(At(w, tid, id, true, LeaveRejected, true), Advance(tid, c)).tasks == w.tasks;
  }

  /** The last write of a thread to its row. */
  function Written(w: World, id: Ledger.ClientId, row: Row): World
  {
    w.(db := w.db.(rows := w.db.rows[id := row]))
  }

  lemma Ends(w: World, tid: Tid, id: Ledger.ClientId, buy: bool, c: Choice)
    requires tid !in w.tasks && JustInserted(w, id, buy) && c.ok
    ensures Do(At(w, tid, id, buy, Persist, false), Advance(tid, c))
            == Written(w, id, Row(buy, c.status, true)).(lock := None)
    ensures Do(At(w, tid, id, buy, MarkFailed, false), Advance(tid, c))
            == Written(w, id, Row(buy, Ledger.Unknown, false)).(lock := None)
  {
    var a, b := At(w, tid, id, buy, Persist, false), At(w, tid, id, buy, MarkFailed, false);
    assert Do(a, Advance(tid, c)).tasks == w.tasks == Do(b, Advance(tid, c)).tasks;
  }

  lemma Rejects(w: World, tid: Tid, id: Ledger.ClientId, c: Choice)
    requires JustInserted(w, id, true)
    ensures Do(At(w, tid, id, true, RejectLocked, true), Advance(tid, c))
            == At(Written(w, id, Row(true, Ledger.Rejected, false)), tid, id, true, LeaveRejected, true)
  {
    var a := At(w, tid, id, true, RejectLocked, true);
    assert Do(a, Advance(tid, c)).tasks == a.tasks[tid := Submit(id, true, LeaveRejected)];
  }

  /** The row after the locked part, left to itself. */
  function Outcome(k: Keys, status: Ledger.Status): Row
  {
    if Clear(k) then Row(true, status, true)
    else Row(true, if k.halt || k.safeMode then Ledger.Rejected else Ledger.Unknown, false)
  }

  /** Gates may have shut since the reservation: then the row is closed or left UNKNOWN, and the broker never called. */
  lemma ReservedBuyGoesOutExactly(w: World, tid: Tid, id: Ledger.ClientId, c: Choice)
    requires tid !in w.tasks && w.lock.None? && JustInserted(w, id, true) && Posts(w, id) == 0 && c.ok
    ensures
      var v := Alone(At(w, tid, id, true, AwaitLock, false), tid, 7, c);
      && v.tasks == w.tasks && v.lock.None? && v.keys == w.keys && v.db.owner == w.db.owner
      && v.db.rows == w.db.rows[id := Outcome(w.keys, c.status)]
      && v.db.posts == if Clear(w.keys) then w.db.posts[id := 1] else w.db.posts
  {
    var k := w.keys;
    Locks(w, tid, id, c);
    ChecksFlags(w, tid, id, c);
    ChecksGuard(w, tid, id, c);
    if k.halt || k.safeMode {
      var r := Written(w, id, Row(true, Ledger.Rejected, false));
      Rejects(w, tid, id, c);
      Leaves(r, tid, id, c);
      AloneGone(r.(lock := None), tid, if k.halt then 3 else 2, c);
    } else if Shut(k) {
      Leaves(w, tid, id, c);
      Ends(w, tid, id, true, c);
      AloneGone(Written(w, id, Row(true, Ledger.Unknown, false)).(lock := None), tid, 1, c);
    } else {
      var sent := w.(db := w.db.(posts := w.db.posts[id := 1]));
      Sends(w, tid, id, true, c);
      Leaves(sent, tid, id, c);
      Ends(sent, tid, id, true, c);
    }
  }

  lemma Enters(w: World, tid: Tid, id: Ledger.ClientId, buy: bool, c: Choice)
    requires tid !in w.tasks && w.lock.None? && id !in w.db.rows && c.ok
    ensures Do(w, Spawn(tid, Submit(id, buy, Lookup))) == At(w, tid, id, buy, Lookup, false)
    ensures Do(At(w, tid, id, buy, Lookup, false), Advance(tid, c)) == At(w, tid, id, buy, Precheck, false)
    ensures Do(At(w, tid, id, buy, Precheck, false), Advance(tid, c))
            == if buy && (w.keys.halt || w.keys.safeMode) then w else At(w, tid, id, buy, Reserve, false)
  {
    var a, b := At(w, tid, id, buy, Lookup, false), At(w, tid, id, buy, Precheck, false);
    assert Do(a, Advance(tid, c)).tasks == a.tasks[tid := Submit(id, buy, Precheck)];
    if buy && (w.keys.halt || w.keys.safeMode) {
      assert Do(b, Advance(tid, c)).tasks == w.tasks;
    } else {
      assert Do(b, Advance(tid, c)).tasks == b.tasks[tid := Submit(id, buy, Reserve)];
    }
  }

  /** The table with the new order in it. */
  function Inserted(w: World, tid: Tid, id: Ledger.ClientId, buy: bool): World
  {
    w.(db := w.db.(rows := w.db.rows[id := Row(buy, Ledger.Created, false)], owner := w.db.owner[id := tid]))
  }

  lemma Reserves(w: World, tid: Tid, id: Ledger.ClientId, buy: bool, c: Choice)
    requires tid !in w.tasks && w.lock.None? && id !in w.db.rows && c.ok
    ensures Do(At(w, tid, id, buy, Reserve, false), Advance(tid, c))
            == if buy && Shut(w.keys) then w
               else At(Inserted(w, tid, id, buy), tid, id, buy, if buy then AwaitLock else PostSell, false)
  {
    var a := At(w, tid, id, buy, Reserve, false);
    if buy && Shut(w.keys) {
      assert Do(a, Advance(tid, c)).tasks == w.tasks;
    } else {
      assert Do(a, Advance(tid, c)).tasks == a.tasks[tid := Submit(id, buy, if buy then AwaitLock else PostSell)];
    }
  }

  lemma {:induction false} FirstThree(w: World, tid: Tid, id: Ledger.ClientId, buy: bool, c: Choice)
    requires tid !in w.tasks && w.lock.None? && id !in w.db.rows && c.ok
    ensures Alone(Do(w, Spawn(tid, Submit(id, buy, Lookup))), tid, 3, c)
            == if buy && !Clear(w.keys) then w
               else At(Inserted(w, tid, id, buy), tid, id, buy, if buy then AwaitLock else PostSell, false)
  {
    Enters(w, tid, id, buy, c);
    Reserves(w, tid, id, buy, c);
    if buy && (w.keys.halt || w.keys.safeMode) {
      AloneGone(w, tid, 1, c);
    }
  }

  lemma SellGoesOut(w: World, tid: Tid, id: Ledger.ClientId, c: Choice)
    requires tid !in w.tasks && w.lock.None? && JustInserted(w, id, false) && Posts(w, id) == 0 && c.ok
    ensures
      var v := Alone(At(w, tid, id, false, PostSell, false), tid, 7, c);
      && v.tasks == w.tasks && v.lock.None? && v.keys == w.keys && v.db.owner == w.db.owner
      && v.db.rows == w.db.rows[id := Row(false, c.status, true)] && v.db.posts == w.db.posts[id := 1]
  {
    var sent := w.(db := w.db.(posts := w.db.posts[id := 1]));
    Sends(w, tid, id, false, c);
    Ends(sent, tid, id, false, c);
    AloneGone(Written(sent, id, Row(false, c.status, true)).(lock := None), tid, 5, c);
  }

  lemma LastSeven(w: World, tid: Tid, id: Ledger.ClientId, buy: bool, c: Choice)
    requires tid !in w.tasks && w.lock.None? && JustInserted(w, id, buy) && Posts(w, id) == 0 && c.ok
    requires buy ==> Clear(w.keys)
    ensures
      var v := Alone(At(w, tid, id, buy, if buy then AwaitLock else PostSell, false), tid, 7, c);
      && v.tasks == w.tasks && v.lock.None? && v.keys == w.keys && v.db.owner == w.db.owner
      && v.db.rows == w.db.rows[id := Row(buy, c.status, true)] && v.db.posts == w.db.posts[id := 1]
  {
    if buy {
      ReservedBuyGoesOutExactly(w, tid, id, c);
    } else {
      SellGoesOut(w, tid, id, c);
    }
  }

  lemma SubmitRefused(w: World, tid: Tid, id: Ledger.ClientId, c: Choice)
    requires tid !in w.tasks && w.lock.None? && id !in w.db.rows && c.ok && !Clear(w.keys)
    ensures Alone(Do(w, Spawn(tid, Submit(id, true, Lookup))), tid, 10, c) == w
  {
    AloneAdds(Do(w, Spawn(tid, Submit(id, true, Lookup))), tid, 3, 7, c);
    FirstThree(w, tid, id, true, c);
    AloneGone(w, tid, 7, c);
  }

  /** A new order left to itself: a BUY goes out exactly when nothing stands in its way, a SELL always; else
      nothing is written. */
  lemma UndisturbedSubmit(w: World, tid: Tid, id: Ledger.ClientId, buy: bool, c: Choice)
    requires tid !in w.tasks && w.lock.None? && id !in w.db.rows && Posts(w, id) == 0 && c.ok
    ensures
      var v := Alone(Do(w, Spawn(tid, Submit(id, buy, Lookup))), tid, 10, c);
      if buy && !Clear(w.keys) then v == w
      else
        && v.tasks == w.tasks && v.lock.None? && v.keys == w.keys && v.db.owner == w.db.owner[id := tid]
        && v.db.rows == w.db.rows[id := Row(buy, c.status, true)] && v.db.posts == w.db.posts[id := 1]
  {
    if buy && !Clear(w.keys) {
      SubmitRefused(w, tid, id, c);
    } else {
      var added := Inserted(w, tid, id, buy);
      AloneAdds(Do(w, Spawn(tid, Submit(id, buy, Lookup))), tid, 3, 7, c);
      FirstThree(w, tid, id, buy, c);
      LastSeven(added, tid, id, buy, c);
      assert added.db.rows[id := Row(buy, c.status, true)] == w.db.rows[id := Row(buy, c.status, true)];
    }
  }

  /** A retry of a known order sends nothing; it stores the broker's status if the order was placed and is open. */
  lemma RetrySendsNothing(w: World, tid: Tid, id: Ledger.ClientId, buy: bool, c: Choice)
    requires tid !in w.tasks && id in w.db.rows
    ensures
      var v := Alone(Do(w, Spawn(tid, Submit(id, buy, Lookup))), tid, 1, c);
      var row := w.db.rows[id];
      && v.tasks == w.tasks && v.keys == w.keys && v.db.posts == w.db.posts
      && v.db.rows == if row.brokerId && row.status.Open() then w.db.rows[id := row.(status := c.status)] else w.db.rows
  {
    assert Do(Do(w, Spawn(tid, Submit(id, buy, Lookup))), Advance(tid, c)).tasks == w.tasks;
  }

  /** A refresh stores the status it was given, of an order that has not ended. */
  lemma RefreshStores(w: World, id: Ledger.ClientId, status: Ledger.Status)
    requires id in w.db.rows
    ensures
      var v := Do(w, Refresh(id, status));
      && v.db.rows == (if w.db.rows[id].status.Open() then w.db.rows[id := w.db.rows[id].(status := status)] else w.db.rows)
      && v == w.(db := w.db.(rows := v.db.rows))
  {
  }

  /** One cancel of a halt: a row the halt found with a broker id, whose cancel settled, becomes canceled, every other
      uncertain; and nothing else changes. */
  lemma CancelStepExactly(w: World, tid: Tid, c: Choice)
    requires tid in w.tasks && w.tasks[tid].Halt? && w.tasks[tid].hpc.CancelLoop? && c.id in w.tasks[tid].todo
    ensures
      var t, v := w.tasks[tid], Do(w, Advance(tid, c));
      var settled := t.todo[c.id] && c.ok;
      && v == w.(tasks := v.tasks) && tid in v.tasks
      && v.tasks[tid] == t.(todo := t.todo - {c.id},
                            canceled := if settled then t.canceled + {c.id} else t.canceled,
                            uncertain := if settled then t.uncertain else t.uncertain + {c.id})
  {
  }

  // ---------------------------------------------------------------- the other operations, undisturbed

  function AtTask(w: World, tid: Tid, t: Task, locked: bool): World
  {
    w.(tasks := w.tasks[tid := t], lock := if locked then Some(tid) else None)
  }

  lemma QuarantineMoves(w: World, tid: Tid, c: Choice)
    requires tid !in w.tasks
    ensures Do(AtTask(w, tid, Quarantine(QuarantineAcquire), false), Advance(tid, c))
            == AtTask(w, tid, Quarantine(WriteQuarantine), true)
    ensures Do(AtTask(w, tid, Quarantine(WriteQuarantine), true), Advance(tid, c))
            == AtTask(w.(keys := w.keys.(quarantine := true)), tid, Quarantine(WriteState), true)
    ensures Do(AtTask(w, tid, Quarantine(WriteState), true), Advance(tid, c))
            == AtTask(w.(keys := w.keys.(running := false)), tid, Quarantine(WriteHalt), true)
  {
    assert Do(AtTask(w, tid, Quarantine(QuarantineAcquire), false), Advance(tid, c)).tasks == w.tasks[tid := Quarantine(WriteQuarantine)];
    assert Do(AtTask(w, tid, Quarantine(WriteQuarantine), true), Advance(tid, c)).tasks == w.tasks[tid := Quarantine(WriteState)];
    assert Do(AtTask(w, tid, Quarantine(WriteState), true), Advance(tid, c)).tasks == w.tasks[tid := Quarantine(WriteHalt)];
  }

  lemma QuarantineEnds(w: World, tid: Tid, c: Choice)
    requires tid !in w.tasks
    ensures Do(AtTask(w, tid, Quarantine(WriteHalt), true), Advance(tid, c))
            == AtTask(w.(keys := w.keys.(halt := true)), tid, Quarantine(QuarantineLeave), true)
    ensures Do(AtTask(w, tid, Quarantine(QuarantineLeave), true), Advance(tid, c)) == w.(lock := None)
  {
    assert Do(AtTask(w, tid, Quarantine(WriteHalt), true), Advance(tid, c)).tasks == w.tasks[tid := Quarantine(QuarantineLeave)];
    assert Do(AtTask(w, tid, Quarantine(QuarantineLeave), true), Advance(tid, c)).tasks == w.tasks;
  }

  /** The system quarantine left to itself sets all three keys. */
  lemma UndisturbedQuarantine(w: World, tid: Tid, c: Choice)
    requires tid !in w.tasks && w.lock.None?
    ensures Alone(Do(w, Spawn(tid, Quarantine(QuarantineAcquire))), tid, 5, c)
            == w.(keys := w.keys.(quarantine := true, running := false, halt := true))
  {
    var a := w.(keys := w.keys.(quarantine := true));
    var b := a.(keys := a.keys.(running := false));
    QuarantineMoves(w, tid, c);
    QuarantineMoves(a, tid, c);
    QuarantineEnds(b, tid, c);
    QuarantineEnds(b.(keys := b.keys.(halt := true)), tid, c);
  }

  lemma OpenBuysExact(w: World)
    ensures OpenBuys(w) == map[] <==> NoOpenBuy(w)
  {
    if OpenBuys(w) == map[] {
      forall id | id in w.db.rows ensures !OpenBuy(w, id) {
        assert OpenBuy(w, id) ==> id in OpenBuys(w);
      }
    } else {
      var id :| id in OpenBuys(w);
      assert OpenBuy(w, id);
    }
  }

  lemma ResumeReads(w: World, tid: Tid, c: Choice)
    requires tid !in w.tasks && w.lock.None? && c.ok
    ensures Do(AtTask(w, tid, Resume(ResumeRead), false), Advance(tid, c))
            == if !w.keys.halt && !w.keys.latch && !w.keys.safeMode then w
               else AtTask(w, tid, Resume(if w.keys.halt then Reconcile else TempAcquire), false)
    ensures Do(AtTask(w, tid, Resume(Reconcile), false), Advance(tid, c)) == AtTask(w, tid, Resume(CheckOpen), false)
  {
    var e := Advance(tid, c);
    if !w.keys.halt && !w.keys.latch && !w.keys.safeMode {
      assert Do(AtTask(w, tid, Resume(ResumeRead), false), e).tasks == w.tasks;
    } else {
      assert Do(AtTask(w, tid, Resume(ResumeRead), false), e).tasks == w.tasks[tid := Resume(if w.keys.halt then Reconcile else TempAcquire)];
    }
    assert Do(AtTask(w, tid, Resume(Reconcile), false), e).tasks == w.tasks[tid := Resume(CheckOpen)];
  }

  lemma ResumeHaltsFirst(w: World, tid: Tid, c: Choice)
    requires tid !in w.tasks
    ensures Do(AtTask(w, tid, Resume(TempAcquire), false), Advance(tid, c)) == AtTask(w, tid, Resume(TempSet), true)
    ensures Do(AtTask(w, tid, Resume(TempSet), true), Advance(tid, c))
            == AtTask(w.(keys := w.keys.(halt := true)), tid, Resume(TempLeave), true)
    ensures Do(AtTask(w, tid, Resume(TempLeave), true), Advance(tid, c)) == AtTask(w, tid, Resume(Reconcile), false)
  {
    var e := Advance(tid, c);
    assert Do(AtTask(w, tid, Resume(TempAcquire), false), e).tasks == w.tasks[tid := Resume(TempSet)];
    assert Do(AtTask(w, tid, Resume(TempSet), true), e).tasks == w.tasks[tid := Resume(TempLeave)];
    assert Do(AtTask(w, tid, Resume(TempLeave), true), e).tasks == w.tasks[tid := Resume(Reconcile)];
  }

  lemma ResumeChecks(w: World, tid: Tid, c: Choice)
    requires tid !in w.tasks && w.lock.None?
    ensures Do(AtTask(w, tid, Resume(CheckOpen), false), Advance(tid, c))
            == if NoOpenBuy(w) then AtTask(w, tid, Resume(ResumeAcquire), false) else w
    ensures Do(AtTask(w, tid, Resume(ResumeAcquire), false), Advance(tid, c)) == AtTask(w, tid, Resume(CheckInside), true)
  {
    var a := AtTask(w, tid, Resume(CheckOpen), false);
    OpenBuysExact(a);
    SameBuysOpen(w, a);
    assert Do(a, Advance(tid, c)).tasks == if NoOpenBuy(w) then w.tasks[tid := Resume(ResumeAcquire)] else w.tasks;
    assert Do(AtTask(w, tid, Resume(ResumeAcquire), false), Advance(tid, c)).tasks == w.tasks[tid := Resume(CheckInside)];
  }

  lemma ResumeChecksInside(w: World, tid: Tid, c: Choice)
    requires tid !in w.tasks && w.lock.None? && NoOpenBuy(w)
    ensures Do(AtTask(w, tid, Resume(CheckInside), true), Advance(tid, c))
            == AtTask(w, tid, Resume(if w.keys.safeMode then ResumeLeave else ClearFlag), true)
  {
    var a := AtTask(w, tid, Resume(CheckInside), true);
    OpenBuysExact(a);
    SameBuysOpen(w, a);
    assert Do(a, Advance(tid, c)).tasks == w.tasks[tid := Resume(if w.keys.safeMode then ResumeLeave else ClearFlag)];
  }

  lemma ResumeClears(w: World, tid: Tid, c: Choice)
    requires tid !in w.tasks && w.lock.None?
    ensures Do(AtTask(w, tid, Resume(ClearFlag), true), Advance(tid, c))
            == AtTask(w.(keys := w.keys.(halt := false), barred := false), tid, Resume(ClearLatch), true)
    ensures Do(AtTask(w, tid, Resume(ClearLatch), true), Advance(tid, c))
            == AtTask(w.(keys := w.keys.(latch := false)), tid, Resume(ResumeLeave), true)
    ensures Do(AtTask(w, tid, Resume(ResumeLeave), true), Advance(tid, c)) == w
  {
    var e := Advance(tid, c);
    assert Do(AtTask(w, tid, Resume(ClearFlag), true), e).tasks == w.tasks[tid := Resume(ClearLatch)];
    assert Do(AtTask(w, tid, Resume(ClearLatch), true), e).tasks == w.tasks[tid := Resume(ResumeLeave)];
    assert Do(AtTask(w, tid, Resume(ResumeLeave), true), e).tasks == w.tasks;
  }

  lemma SameBuysOpen(w: World, v: World)
    requires v.db == w.db
    ensures NoOpenBuy(v) <==> NoOpenBuy(w)
  {
    assert forall id :: OpenBuy(v, id) <==> OpenBuy(w, id);
  }

  lemma ResumesHalted(w: World, tid: Tid, c: Choice)
    requires tid !in w.tasks && w.lock.None? && c.ok
    ensures
      var v := Alone(AtTask(w, tid, Resume(Reconcile), false), tid, 7, c);
      v == if NoOpenBuy(w) && !w.keys.safeMode then w.(keys := w.keys.(halt := false, latch := false), barred := false) else w
  {
    ResumeReads(w, tid, c);
    ResumeChecks(w, tid, c);
    if !NoOpenBuy(w) {
      AloneGone(w, tid, 5, c);
    } else {
      ResumeChecksInside(w, tid, c);
      ResumeClears(w, tid, c);
      if w.keys.safeMode {
        AloneGone(w, tid, 2, c);
      } else {
        var a := w.(keys := w.keys.(halt := false), barred := false);
        ResumeClears(a, tid, c);
        ResumeClears(a.(keys := a.keys.(latch := false)), tid, c);
      }
    }
  }

  /** A resume left to itself, its reconciliation sound: it opens BUY exactly over a table without an open BUY and
      outside safe mode; otherwise the halt is on afterwards. With nothing to lift it does nothing. */
  lemma UndisturbedResume(w: World, tid: Tid, c: Choice)
    requires tid !in w.tasks && w.lock.None? && c.ok
    ensures
      var v := Alone(Do(w, Spawn(tid, Resume(ResumeRead))), tid, 11, c);
      v == if !w.keys.halt && !w.keys.latch && !w.keys.safeMode then w
           else if NoOpenBuy(w) && !w.keys.safeMode then w.(keys := w.keys.(halt := false, latch := false), barred := false)
           else w.(keys := w.keys.(halt := true))
  {
    assert Do(w, Spawn(tid, Resume(ResumeRead))) == AtTask(w, tid, Resume(ResumeRead), false);
    ResumeReads(w, tid, c);
    ResumeHaltsFirst(w, tid, c);
    var k := w.(keys := w.keys.(halt := true));
    SameBuysOpen(w, k);
    ResumeHaltsFirst(k, tid, c);
    ResumesHalted(k, tid, c);
    if !w.keys.halt && !w.keys.latch && !w.keys.safeMode {
      AloneGone(w, tid, 10, c);
    } else if w.keys.halt {
      assert k == w;
      AloneAdds(AtTask(w, tid, Resume(Reconcile), false), tid, 7, 3, c);
      AloneGone(Alone(AtTask(w, tid, Resume(Reconcile), false), tid, 7, c), tid, 3, c);
    }
  }

  lemma ReleaseMoves(w: World, tid: Tid, c: Choice)
    requires tid !in w.tasks && w.lock.None? && c.ok
    requires !w.keys.latch && !w.keys.safeMode && !AnyOpen(w)
    ensures Do(AtTask(w, tid, Release(ReleaseRead), false), Advance(tid, c)) == AtTask(w, tid, Release(ReleaseAcquire), false)
    ensures Do(AtTask(w, tid, Release(ReleaseAcquire), false), Advance(tid, c)) == AtTask(w, tid, Release(RecheckLatch), true)
    ensures Do(AtTask(w, tid, Release(RecheckLatch), true), Advance(tid, c)) == AtTask(w, tid, Release(RecheckSafe), true)
    ensures Do(AtTask(w, tid, Release(RecheckSafe), true), Advance(tid, c)) == AtTask(w, tid, Release(ReopenHalt), true)
  {
    var e := Advance(tid, c);
    assert Do(AtTask(w, tid, Release(ReleaseRead), false), e).tasks == w.tasks[tid := Release(ReleaseAcquire)];
    assert Do(AtTask(w, tid, Release(ReleaseAcquire), false), e).tasks == w.tasks[tid := Release(RecheckLatch)];
    assert Do(AtTask(w, tid, Release(RecheckLatch), true), e).tasks == w.tasks[tid := Release(RecheckSafe)];
    assert Do(AtTask(w, tid, Release(RecheckSafe), true), e).tasks == w.tasks[tid := Release(ReopenHalt)];
  }

  lemma ReleaseReopens(w: World, tid: Tid, c: Choice)
    requires tid !in w.tasks && w.lock.None?
    ensures Do(AtTask(w, tid, Release(ReopenHalt), true), Advance(tid, c))
            == AtTask(w.(keys := w.keys.(halt := false)), tid, Release(ReopenQuarantine), true)
    ensures Do(AtTask(w, tid, Release(ReopenQuarantine), true), Advance(tid, c))
            == AtTask(w.(keys := w.keys.(quarantine := false)), tid, Release(ReopenState), true)
    ensures Do(AtTask(w, tid, Release(ReopenState), true), Advance(tid, c))
            == AtTask(w.(keys := w.keys.(running := true)), tid, Release(ReleaseLeave), true)
    ensures Do(AtTask(w, tid, Release(ReleaseLeave), true), Advance(tid, c)) == w
  {
    var e := Advance(tid, c);
    assert Do(AtTask(w, tid, Release(ReopenHalt), true), e).tasks == w.tasks[tid := Release(ReopenQuarantine)];
    assert Do(AtTask(w, tid, Release(ReopenQuarantine), true), e).tasks == w.tasks[tid := Release(ReopenState)];
    assert Do(AtTask(w, tid, Release(ReopenState), true), e).tasks == w.tasks[tid := Release(ReleaseLeave)];
    assert Do(AtTask(w, tid, Release(ReleaseLeave), true), e).tasks == w.tasks;
  }

  /** A release left to itself, everything else ready, opens BUY exactly without latch, safe mode and open orders;
      over a latch or safe mode it takes the account out of RUNNING. */
  lemma UndisturbedRelease(w: World, tid: Tid, c: Choice)
    requires tid !in w.tasks && w.lock.None? && c.ok
    ensures
      var v := Alone(Do(w, Spawn(tid, Release(ReleaseRead))), tid, 8, c);
      v == if w.keys.latch || w.keys.safeMode then w.(keys := w.keys.(running := false))
           else if exists id :: id in w.db.rows && w.db.rows[id].status.Open() then w
           else w.(keys := w.keys.(halt := false, quarantine := false, running := true))
  {
    assert Do(w, Spawn(tid, Release(ReleaseRead))) == AtTask(w, tid, Release(ReleaseRead), false);
    if w.keys.latch || w.keys.safeMode || AnyOpen(w) {
      var next := Do(AtTask(w, tid, Release(ReleaseRead), false), Advance(tid, c));
      assert next.tasks == w.tasks;
      AloneGone(next, tid, 7, c);
    } else {
      var a := w.(keys := w.keys.(halt := false));
      var b := a.(keys := a.keys.(quarantine := false));
      ReleaseMoves(w, tid, c);
      ReleaseReopens(w, tid, c);
      ReleaseReopens(a, tid, c);
      ReleaseReopens(b, tid, c);
      ReleaseReopens(b.(keys := b.keys.(running := true)), tid, c);
    }
  }
}
