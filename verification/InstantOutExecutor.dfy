/** The running instant-out machine as an object, proved to do what the functions
    of InstantOut say, and those functions proved to drive the generic engine. */
module InstantOutExecutor {
  import opened Options
  import Fsm
  import opened InstantOut

  class InstantOutFsm {
    var rec: Rec
    var current: St
    var world: World

    ghost function View(): F
      reads this
    {
      F(rec, world)
    }

    constructor (rec: Rec, world: World)
      ensures View() == F(rec, world) && current == rec.state
    {
      this.rec, this.current, this.world := rec, rec.state, world;
    }

    method UpdateInstantOut(previous: St, next: St)
      modifies this`rec, this`world
      ensures View() == Update(old(View()), previous, next)
    {
      rec := rec.(state := next);
      if next.Init? || next.Empty? || (previous.Init? && next.Failed?) {
        return;
      }
      var (w, t) := Next(world);
      if t.None? {
        world := w;
      } else if t.value.ok {
        world := w.(store := Some(rec));
      } else {
        world := w.(lostUpdates := w.lostUpdates + 1);
      }
    }

    method Try(task: Task, success: Ev, failure: Ev) returns (ret: Ret)
      modifies this`world
      ensures (View(), ret) == Attempt(old(View()), task, success, failure)
    {
      var (w, t) := Next(world);
      world := w;
      if t.None? {
        return None;
      }
      if !t.value.ok {
        return Emit(failure);
      }
      world := world.(done := world.done + {task});
      return Emit(success);
    }

    method InitInstantOut(ctx: Ctx) returns (ret: Ret)
      modifies this`rec, this`world
      ensures (View(), ret) == InitAction(old(View()), ctx)
    {
      if !ctx.InitCtx? || ctx.reservations == [] {
        return Emit(OnError);
      }
      var expiries := [];
      for i := 0 to |ctx.reservations|
        invariant |expiries| == i
        invariant forall j :: 0 <= j < i ==> expiries[j] == ctx.reservations[j].expiry
        invariant forall j :: 0 <= j < i ==>
          !ctx.reservations[j].locked && ctx.reservations[j].expiry >= ctx.cltv + HTLC_EXPIRY_DELTA
      {
        var r := ctx.reservations[i];
        if r.locked || r.expiry < ctx.cltv + HTLC_EXPIRY_DELTA {
          assert r in ctx.reservations;
          return Emit(OnError);
        }
        expiries := expiries + [r.expiry];
      }
      assert ReservationsUsable(ctx) && expiries == Expiries(ctx.reservations);
      var (w1, requested) := Next(world);
      world := w1;
      if requested.None? {
        return None;
      }
      if !requested.value.ok {
        return Emit(OnError);
      }
      var created := Rec(Empty, ctx.cltv, expiries, false, false, false);
      var (w2, stored) := Next(world);
      world := w2;
      if stored.None? {
        return None;
      }
      if !stored.value.ok {
        return Emit(OnError);
      }
      world := world.(store := Some(created));
      rec := created;
      return Emit(OnInit);
    }

    method BuildHtlcTx() returns (ret: Ret)
      modifies this`rec, this`world
      ensures (View(), ret) == BuildHtlcAction(old(View()))
    {
      ret := Try(Signature, OnHtlcSigReceived, OnError);
      if ret == Emit(OnHtlcSigReceived) {
        rec := rec.(htlcTx := true);
      }
    }

    /** The recovery check, as the loop that the source runs over the reservations. */
    method TimeLeft(height: int) returns (safe: bool)
      ensures safe == RecoverySafe(rec, height)
    {
      if rec.cltv < height + RECOVERY_SAFETY_DELTA {
        return false;
      }
      for i := 0 to |rec.reservations|
        invariant forall j :: 0 <= j < i ==> rec.reservations[j] >= height + HTLC_EXPIRY_DELTA
      {
        if rec.reservations[i] < height + HTLC_EXPIRY_DELTA {
          assert rec.reservations[i] in rec.reservations;
          return false;
        }
      }
      return true;
    }

    method PushThePreimage(ctx: Ctx) returns (ret: Ret)
      modifies this`rec, this`world
      ensures (View(), ret) == PushPreimageAction(old(View()), ctx)
    {
      if ctx.RecoverCtx? {
        var (w, t) := AskHeight(world);
        world := w;
        if t.None? {
          return None;
        }
        if !t.value.ok {
          return Emit(OnErrorPublishHtlc);
        }
        var safe := TimeLeft(t.value.height);
        if !safe {
          return Emit(OnErrorPublishHtlc);
        }
      }
      ret := RevealThenSweep();
    }

    method RevealThenSweep() returns (ret: Ret)
      modifies this`rec, this`world
      ensures (View(), ret) == RevealAndSweep(old(View()))
    {
      var (w1, ready) := Next(world);
      world := w1;
      if ready.None? {
        return None;
      }
      if !ready.value.ok {
        world := world.(prePushErrors := world.prePushErrors + 1);
        return Emit(OnError);
      }
      var (w2, pushed) := SendPreimage(world, rec);
      world := w2;
      if pushed.None? {
        return None;
      }
      if !pushed.value.ok {
        return Emit(OnErrorPublishHtlc);
      }
      ret := Try(SweeplessPublish, OnSweeplessSweepPublished, OnErrorPublishHtlc);
      if ret == Emit(OnSweeplessSweepPublished) {
        rec := rec.(sweeplessTx := true, sweepTxKnown := true);
      }
    }

    method AwaitSweepless() returns (ret: Ret)
      modifies this`world
      ensures (View(), ret) == WaitForSweeplessAction(old(View()))
    {
      var (w, t) := Next(world);
      world := w;
      if t.None? {
        return None;
      }
      if !t.value.ok {
        return Emit(OnError);
      }
      ret := Try(SweeplessConf, OnSweeplessSweepConfirmed, OnErrorPublishHtlc);
    }

    method BroadcastHtlc() returns (ret: Ret)
      modifies this`world
      ensures (View(), ret) == PublishHtlcAction(old(View()))
    {
      var (w, t) := Next(world);
      world := w;
      if t.None? {
        return None;
      }
      world := world.(broadcasts := world.broadcasts + [rec.htlcTx]);
      if !t.value.ok {
        return Emit(OnError);
      }
      ret := Try(HtlcConf, OnHtlcPublished, OnError);
    }

    method BroadcastHtlcSweep() returns (ret: Ret)
      modifies this`rec, this`world
      ensures (View(), ret) == PublishHtlcSweepAction(old(View()))
    {
      ret := Try(HtlcSweepPublish, OnHtlcSweepPublished, OnError);
      if ret == Emit(OnHtlcSweepPublished) {
        rec := rec.(sweepTxKnown := true);
      }
    }

    method RunAction(s: St, ctx: Ctx) returns (ret: Ret)
      modifies this`rec, this`world
      ensures (View(), ret) == Act(old(View()), s, ctx)
    {
      if s.Init? {
        ret := InitInstantOut(ctx);
      } else if s.SendPaymentAndPollAccepted? {
        ret := Try(Payment, OnPaymentAccepted, OnError);
      } else if s.BuildHtlc? {
        ret := BuildHtlcTx();
      } else if s.PushPreimage? {
        ret := PushThePreimage(ctx);
      } else if s.WaitForSweeplessSweepConfirmed? {
        ret := AwaitSweepless();
      } else if s.PublishHtlc? {
        ret := BroadcastHtlc();
      } else if s.PublishHtlcSweep? {
        ret := BroadcastHtlcSweep();
      } else if s.WaitForHtlcSweepConfirmed? {
        ret := Try(HtlcSweepConf, OnHtlcSwept, OnError);
      } else {
        ret := Some(Fsm.NoOp);
      }
    }

    method SendEvent(event: Ev, ctx: Ctx) returns (outcome: Fsm.Outcome)
      modifies this
      ensures (View(), current, outcome) == Send(old(View()), old(current), event, ctx)
    {
      var next := Edge(current, event);
      if next.None? {
        return Fsm.Rejected;
      }
      while true
        invariant next.Some?
        invariant Enter(View(), current, next.value, ctx) == Send(old(View()), old(current), event, ctx)
        decreases Rank(next.value)
      {
        UpdateInstantOut(current, next.value);
        current := next.value;
        var ret := RunAction(current, ctx);
        if ret.None? {
          return Fsm.Blocked;
        }
        if ret.value.NoOp? {
          return Fsm.Finished;
        }
        next := After(current, ret);
        if next.None? {
          return Fsm.Rejected;
        }
      }
    }
  }

  /** A new swap and any number of restarts: only a stored swap is recovered. */
  method RunLives(ctx: Ctx, tape: seq<Tick>, tapes: seq<seq<Tick>>) returns (w: World)
    ensures w == Lives(Start(ctx, tape).0.w, tapes)
  {
    var machine := new InstantOutFsm(NEW_REC, NEW_WORLD.(tape := tape));
    var _ := machine.SendEvent(OnStart, ctx);
    w := machine.world;
    for i := 0 to |tapes|
      invariant Lives(w, tapes[i..]) == Lives(Start(ctx, tape).0.w, tapes)
    {
      assert tapes[i..][0] == tapes[i] && tapes[i..][1..] == tapes[i + 1..];
      if w.store.None? {
        return;
      }
      machine := new InstantOutFsm(w.store.value, Resumed(w, tapes[i]));
      if !IsFinalState(machine.current) {
        var _ := machine.SendEvent(OnRecover, RecoverCtx);
      }
      w := machine.world;
    }
    assert tapes[|tapes|..] == [];
  }

  // ----- The functions drive the generic engine -----

  /** What the actions return, one after the other. */
  ghost function Trace(f: F, s: St, ret: Ret, ctx: Ctx): seq<Fsm.Returned<Ev>>
    requires ret != Emit(OnRecover)
    decreases Rank(s)
  {
    if ret.None? then []
    else match After(s, ret)
      case None => [ret.value]
      case Some(next) =>
        var (f1, ret1) := Act(Update(f, s, next), next, ctx);
        [ret.value] + Trace(f1, next, ret1, ctx)
  }

  /** What the actions return to SendEvent. */
  ghost function Returns(f: F, current: St, event: Ev, ctx: Ctx): seq<Fsm.Returned<Ev>> {
    match Edge(current, event)
    case None => []
    case Some(next) =>
      var (f1, ret) := Act(Update(f, current, next), next, ctx);
      Trace(f1, next, ret, ctx)
  }

  /** Each notification stands for an update of the record and an action, which
      together lead from f to last; what the actions returned is the given events,
      and the one after the last event never returned. */
  ghost predicate Produced(
      f: F, notes: seq<Fsm.Notification<St, Ev>>, actions: seq<Fsm.Returned<Ev>>, ctx: Ctx, last: F)
    decreases |notes|
  {
    if notes == [] then actions == [] && last == f
    else
      var (f1, ret) := Act(Update(f, notes[0].previous, notes[0].next), notes[0].next, ctx);
      if ret.None? then |notes| == 1 && actions == [] && last == f1
      else actions != [] && actions[0] == ret.value && Produced(f1, notes[1..], actions[1..], ctx, last)
  }

  lemma EngineStep(m: Fsm.Machine<St, Ev>, s: St, event: Ev, actions: seq<Fsm.Returned<Ev>>)
    requires Edge(m.current, event) == Some(s)
    ensures var m1 := Fsm.Machine(m.current, s, m.notes + [Fsm.Notification(m.current, s, event)]);
            Fsm.SendEvent(TABLE, m, event, actions) ==
              if actions == [] then (m1, Fsm.Blocked)
              else if actions[0].NoOp? then (m1, Fsm.Finished)
              else Fsm.SendEvent(TABLE, m1, actions[0].event, actions[1..])
  {
    TableFollowsEdges(m.current, event);
  }

  lemma EngineRejects(m: Fsm.Machine<St, Ev>, event: Ev, actions: seq<Fsm.Returned<Ev>>)
    requires Edge(m.current, event).None?
    ensures Fsm.SendEvent(TABLE, m, event, actions) == (m, Fsm.Rejected)
  {
    TableFollowsEdges(m.current, event);
  }

  lemma TraceStep(f: F, s: St, ret: Ret, ctx: Ctx, next: St)
    requires ret != Emit(OnRecover) && After(s, ret) == Some(next)
    ensures var (f1, ret1) := Act(Update(f, s, next), next, ctx);
            && Trace(f, s, ret, ctx) == [ret.value] + Trace(f1, next, ret1, ctx)
            && Follow(f, s, ret, ctx) == Follow(f1, next, ret1, ctx)
  {
  }

  lemma {:induction false} TraceNoRecovery(f: F, s: St, ret: Ret, ctx: Ctx)
    requires ret != Emit(OnRecover)
    ensures NoRecovery(Trace(f, s, ret, ctx))
    decreases Rank(s)
  {
    if After(s, ret).Some? {
      var next := After(s, ret).value;
      var (f1, ret1) := Act(Update(f, s, next), next, ctx);
      TraceStep(f, s, ret, ctx, next);
      TraceNoRecovery(f1, next, ret1, ctx);
    }
  }

  /** The engine's run and the functions' run of one SendEvent. */
  ghost predicate Mirrored(
      m: Fsm.Machine<St, Ev>, event: Ev, actions: seq<Fsm.Returned<Ev>>, f: F, ctx: Ctx, run: (F, St, Fsm.Outcome))
  {
    var (m', outcome) := Fsm.SendEvent(TABLE, m, event, actions);
    && m'.current == run.1 && outcome == run.2
    && |m.notes| <= |m'.notes| && m'.notes[..|m.notes|] == m.notes
    && Produced(f, m'.notes[|m.notes|..], actions, ctx, run.0)
  }

  lemma ProducedStep(
      f: F, n: Fsm.Notification<St, Ev>, notes: seq<Fsm.Notification<St, Ev>>,
      returned: Fsm.Returned<Ev>, actions: seq<Fsm.Returned<Ev>>, ctx: Ctx, f1: F, last: F)
    requires Act(Update(f, n.previous, n.next), n.next, ctx) == (f1, Some(returned))
    requires Produced(f1, notes, actions, ctx, last)
    ensures Produced(f, [n] + notes, [returned] + actions, ctx, last)
  {
    assert ([n] + notes)[1..] == notes && ([returned] + actions)[1..] == actions;
  }

  lemma Suffix<T>(s: seq<T>, x: T, all: seq<T>)
    requires |s| < |all| && all[..|s| + 1] == s + [x]
    ensures all[..|s|] == s && all[|s|..] == [x] + all[|s| + 1..]
  {
    assert all == (s + [x]) + all[|s| + 1..];
  }

  /** A step of both, followed by runs that mirror each other. */
  lemma MirrorStep(
      m: Fsm.Machine<St, Ev>, event: Ev, s: St, f: F, ctx: Ctx, f1: F, e1: Ev,
      actions: seq<Fsm.Returned<Ev>>, run: (F, St, Fsm.Outcome))
    requires Edge(m.current, event) == Some(s)
    requires Act(Update(f, m.current, s), s, ctx) == (f1, Emit(e1))
    requires var m1 := Fsm.Machine(m.current, s, m.notes + [Fsm.Notification(m.current, s, event)]);
             Mirrored(m1, e1, actions, f1, ctx, run)
    ensures Mirrored(m, event, [Fsm.Emit(e1)] + actions, f, ctx, run)
  {
    var n := Fsm.Notification(m.current, s, event);
    var m1 := Fsm.Machine(m.current, s, m.notes + [n]);
    var all := [Fsm.Emit(e1)] + actions;
    EngineStep(m, s, event, all);
    assert all[1..] == actions;
    var notes := Fsm.SendEvent(TABLE, m1, e1, actions).0.notes;
    Suffix(m.notes, n, notes);
    ProducedStep(f, n, notes[|m1.notes|..], Fsm.Emit(e1), actions, ctx, f1, run.0);
  }

  /** A step after which the run ends. */
  lemma MirrorLast(m: Fsm.Machine<St, Ev>, event: Ev, s: St, f: F, ctx: Ctx, f1: F, ret: Ret)
    requires Edge(m.current, event) == Some(s)
    requires Act(Update(f, m.current, s), s, ctx) == (f1, ret) && After(s, ret).None?
    ensures Mirrored(m, event, Trace(f1, s, ret, ctx), f, ctx, Follow(f1, s, ret, ctx))
  {
    var n := Fsm.Notification(m.current, s, event);
    var m1 := Fsm.Machine(m.current, s, m.notes + [n]);
    var actions := Trace(f1, s, ret, ctx);
    EngineStep(m, s, event, actions);
    assert m1.notes[..|m.notes|] == m.notes && m1.notes[|m.notes|..] == [n];
    if ret.Some? {
      assert actions == [ret.value] && actions[1..] == [];
      ProducedStep(f, n, [], ret.value, [], ctx, f1, f1);
      assert [n] + [] == [n] && [ret.value] + [] == [ret.value];
      if ret.value.Emit? {
        EngineRejects(m1, ret.value.event, []);
      }
    }
  }

  lemma {:induction false} FollowsEngine(f: F, s: St, ctx: Ctx, m: Fsm.Machine<St, Ev>, event: Ev)
    requires Edge(m.current, event) == Some(s)
    ensures var (f1, ret) := Act(Update(f, m.current, s), s, ctx);
            Mirrored(m, event, Trace(f1, s, ret, ctx), f, ctx, Follow(f1, s, ret, ctx))
    decreases Rank(s)
  {
    var (f1, ret) := Act(Update(f, m.current, s), s, ctx);
    if After(s, ret).None? {
      MirrorLast(m, event, s, f, ctx, f1, ret);
    } else {
      var next, e1 := After(s, ret).value, ret.value.event;
      var m1 := Fsm.Machine(m.current, s, m.notes + [Fsm.Notification(m.current, s, event)]);
      FollowsEngine(f1, next, ctx, m1, e1);
      TraceStep(f1, s, ret, ctx, next);
      var (f2, ret2) := Act(Update(f1, s, next), next, ctx);
      MirrorStep(m, event, s, f, ctx, f1, e1, Trace(f2, next, ret2, ctx), Follow(f1, s, ret, ctx));
    }
  }

  /** For every swap, event and outside: given what the actions return, the engine
      on the table of this protocol ends in the same state with the same outcome;
      its notifications are, one by one, the updates and actions that led the swap
      to its new record and world; and no action asks for a recovery, so what is
      proved of the engine under that condition holds here. */
  lemma EngineRefined(f: F, m: Fsm.Machine<St, Ev>, event: Ev, ctx: Ctx)
    ensures var actions := Returns(f, m.current, event, ctx);
            Mirrored(m, event, actions, f, ctx, Send(f, m.current, event, ctx)) && NoRecovery(actions)
  {
    match Edge(m.current, event)
    case None =>
      EngineRejects(m, event, []);
      assert m.notes[|m.notes|..] == [];
    case Some(next) =>
      var (f1, ret) := Act(Update(f, m.current, next), next, ctx);
      FollowsEngine(f, next, ctx, m, event);
      TraceNoRecovery(f1, next, ret, ctx);
  }

  // ----- A pushed swap can end as Failed -----

  const OK := Tick(true, 0)

  /** So many calls that succeed, and then the rest. */
  function Oks(n: nat, rest: seq<Tick>): (tape: seq<Tick>)
    ensures |tape| == n + |rest|
    ensures n > 0 ==> tape[0] == OK && tape[1..] == Oks(n - 1, rest)
  {
    if n == 0 then rest else [OK] + Oks(n - 1, rest)
  }

  const USABLE := InitCtx(100, [Reservation(140, false)])

  /** The swap that is created, at each stage of its first life. */
  const CREATED := Rec(Empty, 100, [140], false, false, false)
  const PAYING := CREATED.(state := SendPaymentAndPollAccepted)
  const BUILDING := CREATED.(state := BuildHtlc)
  const PUSHING := CREATED.(state := PushPreimage, htlcTx := true)

  function Stage(tape: seq<Tick>, rec: Rec, stored: Rec, done: set<Task>): F {
    F(rec, NEW_WORLD.(tape := tape, store := Some(stored), done := done))
  }

  lemma InitStage(n: nat, rest: seq<Tick>)
    ensures Act(Update(F(NEW_REC, NEW_WORLD.(tape := Oks(n + 2, rest))), Empty, Init), Init, USABLE)
         == (Stage(Oks(n, rest), CREATED, CREATED, {}), Emit(OnInit))
  {
    assert Expiries(USABLE.reservations) == [140];
    assert Oks(n + 2, rest)[1..] == Oks(n + 1, rest) && Oks(n + 1, rest)[1..] == Oks(n, rest);
    assert ReservationsUsable(USABLE);
  }

  lemma PayStage(n: nat, rest: seq<Tick>)
    ensures Act(Update(Stage(Oks(n + 2, rest), CREATED, CREATED, {}), Init, PAYING.state), PAYING.state, USABLE)
         == (Stage(Oks(n, rest), PAYING, PAYING, {Payment}), Emit(OnPaymentAccepted))
  {
    var none: set<Task> := {};
    assert none + {Payment} == {Payment};
    assert Oks(n + 2, rest)[1..] == Oks(n + 1, rest) && Oks(n + 1, rest)[1..] == Oks(n, rest);
  }

  lemma BuildStage(n: nat, rest: seq<Tick>)
    ensures Act(Update(Stage(Oks(n + 2, rest), PAYING, PAYING, {Payment}), PAYING.state, BuildHtlc), BuildHtlc, USABLE)
         == (Stage(Oks(n, rest), BUILDING.(htlcTx := true), BUILDING, {Payment, Signature}), Emit(OnHtlcSigReceived))
  {
    assert {Payment} + {Signature} == {Payment, Signature};
    assert Oks(n + 2, rest)[1..] == Oks(n + 1, rest) && Oks(n + 1, rest)[1..] == Oks(n, rest);
  }

  /** The push goes out, and nothing after it. */
  lemma PushStage()
    ensures var f0 := Stage(Oks(3, []), BUILDING.(htlcTx := true), BUILDING, {Payment, Signature});
            var (f, ret) := Act(Update(f0, BuildHtlc, PushPreimage), PushPreimage, USABLE);
            ret.None? && f.w.store == Some(PUSHING) && |f.w.pushes| == 1
  {
    assert Oks(3, [])[1..] == Oks(2, []) && Oks(2, [])[1..] == Oks(1, []) && Oks(1, [])[1..] == Oks(0, []);
  }

  /** The push goes out, and so does the sweepless sweep. */
  lemma SweepStage(rest: seq<Tick>)
    ensures var f0 := Stage(Oks(4, rest), BUILDING.(htlcTx := true), BUILDING, {Payment, Signature});
            var (f, ret) := Act(Update(f0, BuildHtlc, PushPreimage), PushPreimage, USABLE);
            ret == Emit(OnSweeplessSweepPublished) && f.w.tape == rest && |f.w.pushes| == 1 && f.w.broadcasts == []
  {
    assert Oks(4, rest)[1..] == Oks(3, rest) && Oks(3, rest)[1..] == Oks(2, rest);
    assert Oks(2, rest)[1..] == Oks(1, rest) && Oks(1, rest)[1..] == Oks(0, rest) == rest;
  }

  lemma FollowStep(f: F, s: St, ret: Ret, ctx: Ctx, next: St, f1: F, ret1: Ret)
    requires ret != Emit(OnRecover) && After(s, ret) == Some(next)
    requires Act(Update(f, s, next), next, ctx) == (f1, ret1)
    ensures Follow(f, s, ret, ctx) == Follow(f1, next, ret1, ctx)
  {
  }

  lemma FirstHalf(ctx: Ctx, tape: seq<Tick>, f1: F, f2: F)
    requires Act(Update(F(NEW_REC, NEW_WORLD.(tape := tape)), Empty, Init), Init, ctx) == (f1, Emit(OnInit))
    requires Act(Update(f1, Init, SendPaymentAndPollAccepted), SendPaymentAndPollAccepted, ctx)
          == (f2, Emit(OnPaymentAccepted))
    ensures Start(ctx, tape) == Follow(f2, SendPaymentAndPollAccepted, Emit(OnPaymentAccepted), ctx)
  {
    FollowStep(f1, Init, Emit(OnInit), ctx, SendPaymentAndPollAccepted, f2, Emit(OnPaymentAccepted));
  }

  lemma SecondHalf(ctx: Ctx, f2: F, f3: F, f4: F, ret: Ret)
    requires Act(Update(f2, SendPaymentAndPollAccepted, BuildHtlc), BuildHtlc, ctx) == (f3, Emit(OnHtlcSigReceived))
    requires Act(Update(f3, BuildHtlc, PushPreimage), PushPreimage, ctx) == (f4, ret)
    ensures Follow(f2, SendPaymentAndPollAccepted, Emit(OnPaymentAccepted), ctx) == Follow(f4, PushPreimage, ret, ctx)
  {
    FollowStep(f2, SendPaymentAndPollAccepted, Emit(OnPaymentAccepted), ctx, BuildHtlc, f3, Emit(OnHtlcSigReceived));
    FollowStep(f3, BuildHtlc, Emit(OnHtlcSigReceived), ctx, PushPreimage, f4, ret);
  }

  /** A first life that gets as far as the push. */
  lemma Pushes(ctx: Ctx, n: nat, rest: seq<Tick>)
    requires ctx == USABLE
    ensures var f3 := Stage(Oks(n, rest), BUILDING.(htlcTx := true), BUILDING, {Payment, Signature});
            var (f4, ret) := Act(Update(f3, BuildHtlc, PushPreimage), PushPreimage, ctx);
            Start(ctx, Oks(n + 6, rest)) == Follow(f4, PushPreimage, ret, ctx)
  {
    var f1, f2 := Stage(Oks(n + 4, rest), CREATED, CREATED, {}), Stage(Oks(n + 2, rest), PAYING, PAYING, {Payment});
    var f3 := Stage(Oks(n, rest), BUILDING.(htlcTx := true), BUILDING, {Payment, Signature});
    var (f4, ret) := Act(Update(f3, BuildHtlc, PushPreimage), PushPreimage, ctx);
    InitStage(n + 4, rest);
    PayStage(n + 2, rest);
    BuildStage(n, rest);
    FirstHalf(ctx, Oks(n + 6, rest), f1, f2);
    SecondHalf(ctx, f2, f3, f4, ret);
  }

  /** The first life ends right after the push. */
  lemma PushedThenDied(ctx: Ctx, tape: seq<Tick>)
    requires ctx == USABLE && tape == Oks(9, [])
    ensures var w := Start(ctx, tape).0.w; w.store == Some(PUSHING) && |w.pushes| == 1
  {
    Pushes(ctx, 3, []);
    PushStage();
  }

  /** A swap whose sweepless sweep is out, and whose wait for it to confirm fails,
      stops in that state: it does not publish the HTLC. */
  lemma RejectedInWait()
    ensures exists ctx, tape ::
              var (f, current, outcome) := Start(ctx, tape);
              && outcome.Rejected? && current.WaitForSweeplessSweepConfirmed?
              && |f.w.pushes| == 1 && f.w.broadcasts == []
  {
    var ctx, tape :| ctx == USABLE && tape == Oks(10, [OK, OK, Tick(false, 0)]);
    RejectedRun(ctx, [OK, OK, Tick(false, 0)]);
    assert Start(ctx, tape).2.Rejected?;
  }

  lemma WaitRejected(f: F, ctx: Ctx)
    requires f.w.tape != [] && NotificationFails(f.w.tape[1..])
    ensures var (f', current, outcome) := Follow(f, PushPreimage, Emit(OnSweeplessSweepPublished), ctx);
            && outcome.Rejected? && current.WaitForSweeplessSweepConfirmed?
            && f'.w.pushes == f.w.pushes && f'.w.broadcasts == f.w.broadcasts
  {
    var s := WaitForSweeplessSweepConfirmed;
    SweeplessRejectedExactly(f, PushPreimage, ctx);
    assert Follow(f, PushPreimage, Emit(OnSweeplessSweepPublished), ctx) == Enter(f, PushPreimage, s, ctx);
  }

  lemma RejectedRun(ctx: Ctx, rest: seq<Tick>)
    requires ctx == USABLE && rest != [] && NotificationFails(rest[1..])
    ensures var (f, current, outcome) := Start(ctx, Oks(10, rest));
            && outcome.Rejected? && current.WaitForSweeplessSweepConfirmed?
            && |f.w.pushes| == 1 && f.w.broadcasts == []
  {
    var f3 := Stage(Oks(4, rest), BUILDING.(htlcTx := true), BUILDING, {Payment, Signature});
    var (f4, ret) := Act(Update(f3, BuildHtlc, PushPreimage), PushPreimage, ctx);
    Pushes(ctx, 4, rest);
    SweepStage(rest);
    WaitRejected(f4, ctx);
  }

  /** The recovery cannot get the sessions or fee rates for another push. */
  predicate Unready(tape: seq<Tick>) {
    |tape| == 4 && tape[0].ok && tape[1] == OK && !tape[2].ok && tape[3].ok
  }

  lemma SomeUnready() returns (tapes: seq<seq<Tick>>)
    ensures |tapes| == 1 && Unready(tapes[0])
  {
    tapes := [[OK, OK, Tick(false, 0), OK]];
  }

  lemma UnreadyPush(f: F, tape: seq<Tick>)
    requires Unready(tape) && f.w.tape == tape[1..] && RecoverySafe(f.rec, 0)
    ensures var (f', ret) := Act(f, PushPreimage, RecoverCtx);
            ret == Emit(OnError) && f'.w.tape == tape[3..] && f'.w.pushes == f.w.pushes
  {
    assert tape[1..][1..] == tape[2..] && tape[2..][1..] == tape[3..];
  }

  lemma FailedByRecovery(w: World, rec: Rec, tape: seq<Tick>)
    requires w.store == Some(rec) && rec.state.PushPreimage? && RecoverySafe(rec, 0) && Unready(tape)
    ensures var w' := Recover(w, tape).0.w;
            w'.pushes == w.pushes && w'.store.Some? && w'.store.value.state.Failed?
  {
    var f0 := Update(F(rec, Resumed(w, tape)), PushPreimage, PushPreimage);
    UnreadyPush(f0, tape);
    var (f1, ret) := Act(f0, PushPreimage, RecoverCtx);
    PushFails(f1, ret, RecoverCtx);
    assert Recover(w, tape) == Follow(f1, PushPreimage, ret, RecoverCtx);
  }

  /** A swap pushes its preimage, the process dies, and the recovery fails before
      it can push again: the swap is stored as Failed although its preimage is out. */
  lemma FailedAfterPush()
    ensures exists ctx, tape, tapes ::
              var w := Lives(Start(ctx, tape).0.w, tapes);
              |w.pushes| == 1 && w.store.Some? && w.store.value.state.Failed?
  {
    var ctx, tape :| ctx == USABLE && tape == Oks(9, []);
    var tapes := SomeUnready();
    PushedThenDied(ctx, tape);
    LastLife(Start(ctx, tape).0.w, tapes);
  }

  lemma LastLife(w: World, tapes: seq<seq<Tick>>)
    requires w.store.Some? && w.store.value.state.PushPreimage? && RecoverySafe(w.store.value, 0)
    requires |tapes| == 1 && Unready(tapes[0])
    ensures var w' := Lives(w, tapes);
            w'.pushes == w.pushes && w'.store.Some? && w'.store.value.state.Failed?
  {
    FailedByRecovery(w, w.store.value, tapes[0]);
    assert tapes[1..] == [];
    assert Lives(w, tapes) == Recover(w, tapes[0]).0.w;
  }
}
