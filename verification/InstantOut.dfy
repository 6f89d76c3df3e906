/** The instant-out swap: its transition table (instantout/fsm.go), its actions
    (instantout/actions.go) and its store (instantout/store.go), run by the engine
    of module Fsm. Every call consumes one tick of a tape; a process whose tape is
    empty has died in that call. */
module InstantOut {
  import opened Options
  import Fsm

  datatype St =
    | Empty | Init | SendPaymentAndPollAccepted | BuildHtlc | PushPreimage
    | WaitForSweeplessSweepConfirmed | FinishedSweeplessSweep
    | PublishHtlc | PublishHtlcSweep | WaitForHtlcSweepConfirmed | FinishedHtlcPreimageSweep
    | FailedHtlcSweep | Failed

  datatype Ev =
    | OnStart | OnInit | OnPaymentAccepted | OnHtlcSigReceived | OnSweeplessSweepPublished
    | OnSweeplessSweepConfirmed | OnErrorPublishHtlc | OnHtlcPublished | OnHtlcSweepPublished
    | OnHtlcSwept | OnRecover | OnError

  const HTLC_EXPIRY_DELTA := 40
  const RECOVERY_SAFETY_DELTA := 6

  // ----- The transition table -----

  /** Where an event leads. */
  function Edge(s: St, e: Ev): Option<St> {
    match s
    case Empty => (match e case OnStart => Some(Init) case _ => None)
    case Init =>
      (match e
       case OnInit => Some(SendPaymentAndPollAccepted)
       case OnError => Some(Failed)
       case OnRecover => Some(Failed)
       case _ => None)
    case SendPaymentAndPollAccepted =>
      (match e
       case OnPaymentAccepted => Some(BuildHtlc)
       case OnError => Some(Failed)
       case OnRecover => Some(Failed)
       case _ => None)
    case BuildHtlc =>
      (match e
       case OnHtlcSigReceived => Some(PushPreimage)
       case OnError => Some(Failed)
       case OnRecover => Some(Failed)
       case _ => None)
    case PushPreimage =>
      (match e
       case OnSweeplessSweepPublished => Some(WaitForSweeplessSweepConfirmed)
       case OnError => Some(Failed)
       case OnErrorPublishHtlc => Some(PublishHtlc)
       case OnRecover => Some(PushPreimage)
       case _ => None)
    case WaitForSweeplessSweepConfirmed =>
      (match e
       case OnSweeplessSweepConfirmed => Some(FinishedSweeplessSweep)
       case OnRecover => Some(WaitForSweeplessSweepConfirmed)
       case OnError => Some(PublishHtlc)
       case _ => None)
    case PublishHtlc =>
      (match e
       case OnError => Some(FailedHtlcSweep)
       case OnRecover => Some(PublishHtlc)
       case OnHtlcPublished => Some(PublishHtlcSweep)
       case _ => None)
    case PublishHtlcSweep =>
      (match e
       case OnHtlcSweepPublished => Some(WaitForHtlcSweepConfirmed)
       case OnRecover => Some(PublishHtlcSweep)
       case OnError => Some(FailedHtlcSweep)
       case _ => None)
    case WaitForHtlcSweepConfirmed =>
      (match e
       case OnHtlcSwept => Some(FinishedHtlcPreimageSweep)
       case OnRecover => Some(WaitForHtlcSweepConfirmed)
       case OnError => Some(FailedHtlcSweep)
       case _ => None)
    case FailedHtlcSweep => (match e case OnRecover => Some(PublishHtlcSweep) case _ => None)
    case _ => None
  }

  /** The table as the engine takes it. Failed has no transitions at all, and the
      empty state no action. */
  const TABLE: Fsm.States<St, Ev> :=
    map s: St | true :: Fsm.State(
      !s.Empty?, if s.Failed? then None else Some(map e: Ev | Edge(s, e).Some? :: Edge(s, e).value))

  lemma TableFollowsEdges(s: St, e: Ev)
    ensures Fsm.NextState(TABLE, s, e) == Edge(s, e)
  {
  }

  predicate IsFinalState(s: St) {
    s.Failed? || s.FinishedHtlcPreimageSweep? || s.FinishedSweeplessSweep?
  }

  function Rank(s: St): nat {
    match s
    case Empty => 9
    case Init => 8
    case SendPaymentAndPollAccepted => 7
    case BuildHtlc => 6
    case PushPreimage => 5
    case WaitForSweeplessSweepConfirmed => 4
    case PublishHtlc => 3
    case PublishHtlcSweep => 2
    case WaitForHtlcSweepConfirmed => 1
    case _ => 0
  }

  /** Only a recovery can lead back. */
  lemma RankDecreases(s: St, e: Ev)
    requires !e.OnRecover?
    ensures Edge(s, e).Some? ==> Rank(Edge(s, e).value) < Rank(s)
  {
  }

  predicate NoRecovery(actions: seq<Fsm.Returned<Ev>>) {
    forall i :: 0 <= i < |actions| ==> actions[i] != Fsm.Emit(OnRecover)
  }

  /** Whatever the actions do, as long as none of them asks for a recovery, one
      SendEvent makes at most nine steps after its first. */
  lemma {:induction false} SendEventTerminates(
      m: Fsm.Machine<St, Ev>, event: Ev, actions: seq<Fsm.Returned<Ev>>)
    requires NoRecovery(actions)
    requires |actions| >= 9
    ensures !Fsm.SendEvent(TABLE, m, event, actions).1.Blocked?
  {
    TableFollowsEdges(m.current, event);
    if Edge(m.current, event).Some? && actions[0].Emit? {
      var next := Edge(m.current, event).value;
      assert Rank(next) <= 8;
      StepsBounded(m.(previous := m.current, current := next,
                      notes := m.notes + [Fsm.Notification(m.current, next, event)]),
                   actions[0].event, actions[1..]);
    }
  }

  lemma {:induction false} StepsBounded(
      m: Fsm.Machine<St, Ev>, event: Ev, actions: seq<Fsm.Returned<Ev>>)
    requires !event.OnRecover? && NoRecovery(actions)
    requires |actions| >= Rank(m.current)
    ensures !Fsm.SendEvent(TABLE, m, event, actions).1.Blocked?
    decreases |actions|
  {
    TableFollowsEdges(m.current, event);
    RankDecreases(m.current, event);
    if Edge(m.current, event).Some? && actions[0].Emit? {
      var next := Edge(m.current, event).value;
      StepsBounded(m.(previous := m.current, current := next,
                      notes := m.notes + [Fsm.Notification(m.current, next, event)]),
                   actions[0].event, actions[1..]);
    }
  }

  // ----- The swap, its store and the outside -----

  /** The swap as kept in memory and, written atomically, in the store. */
  datatype Rec = Rec(
    state: St, cltv: int, reservations: seq<int>, htlcTx: bool, sweeplessTx: bool, sweepTxKnown: bool)

  /** The result of one call; height is only meaningful where a height is asked for. */
  datatype Tick = Tick(ok: bool, height: int)

  /** What the outside can get done for the swap. */
  datatype Task = Payment | Signature | SweeplessPublish | SweeplessConf | HtlcConf | HtlcSweepPublish | HtlcSweepConf

  /** A preimage push: whether the finalized HTLC transaction was held, the expiries of
      the swap, whether the process had recovered the swap, and the height it was
      last told in this life, if any. */
  datatype Push = Push(held: bool, cltv: int, reservations: seq<int>, resumed: bool, told: Option<int>)

  /** broadcasts holds, for each broadcast of the HTLC, whether the finalized
      transaction was held; done is what was ever acknowledged as done; resumed and
      told are about the present life. */
  datatype World = World(
    tape: seq<Tick>, store: Option<Rec>, pushes: seq<Push>, broadcasts: seq<bool>,
    lostUpdates: nat, prePushErrors: nat, done: set<Task>, resumed: bool, told: Option<int>)

  datatype Reservation = Reservation(expiry: int, locked: bool)

  datatype Ctx = InitCtx(cltv: int, reservations: seq<Reservation>) | RecoverCtx

  datatype F = F(rec: Rec, w: World)

  /** What an action returned; none if the process died in it. */
  type Ret = Option<Fsm.Returned<Ev>>

  function Emit(e: Ev): Ret {
    Some(Fsm.Emit(e))
  }

  function Next(w: World): (World, Option<Tick>) {
    if w.tape == [] then (w, None) else (w.(tape := w.tape[1..]), Some(w.tape[0]))
  }

  /** The call has not touched what only PushPreimage and the store updates touch. */
  predicate Calm(w: World, w': World) {
    && w'.pushes == w.pushes && w'.prePushErrors == w.prePushErrors && w'.lostUpdates == w.lostUpdates
    && w'.resumed == w.resumed && (w.store.Some? ==> w'.store.Some?)
  }

  /** A row of calls that gets a task done or fails, and takes one tick. */
  function Attempt(f: F, task: Task, success: Ev, failure: Ev): (out: (F, Ret))
    ensures Calm(f.w, out.0.w) && out.0.rec == f.rec
    ensures out.1.None? || out.1 == Emit(success) || out.1 == Emit(failure)
  {
    var (w1, t) := Next(f.w);
    if t.None? then (f.(w := w1), None)
    else if !t.value.ok then (f.(w := w1), Emit(failure))
    else (f.(w := w1.(done := w1.done + {task})), Emit(success))
  }

  /** Asks for the current height. */
  function AskHeight(w: World): (World, Option<Tick>) {
    var (w1, t) := Next(w);
    (if t.Some? && t.value.ok then w1.(told := Some(t.value.height)) else w1, t)
  }

  function PushOf(rec: Rec, w: World): Push {
    Push(rec.htlcTx, rec.cltv, rec.reservations, w.resumed, w.told)
  }

  /** Sends the preimage to the server. */
  function SendPreimage(w: World, rec: Rec): (World, Option<Tick>) {
    var (w1, t) := Next(w);
    if t.None? then (w1, t)
    else (w1.(pushes := w1.pushes + [PushOf(rec, w1)]), t)
  }

  // ----- Actions -----

  predicate ReservationsUsable(ctx: Ctx)
    requires ctx.InitCtx?
  {
    && ctx.reservations != []
    && forall r <- ctx.reservations :: !r.locked && r.expiry >= ctx.cltv + HTLC_EXPIRY_DELTA
  }

  function Expiries(reservations: seq<Reservation>): (expiries: seq<int>)
    ensures |expiries| == |reservations|
    ensures forall i :: 0 <= i < |expiries| ==> expiries[i] == reservations[i].expiry
  {
    seq(|reservations|, i requires 0 <= i < |reservations| => reservations[i].expiry)
  }

  /** Requests the swap, then stores it; the stored swap has no state yet. */
  function InitAction(f: F, ctx: Ctx): (out: (F, Ret))
    ensures Calm(f.w, out.0.w) && (out.1.None? || out.1 == Emit(OnInit) || out.1 == Emit(OnError))
  {
    if !ctx.InitCtx? || !ReservationsUsable(ctx) then (f, Emit(OnError))
    else
      var (w1, requested) := Next(f.w);
      if requested.None? then (f.(w := w1), None)
      else if !requested.value.ok then (f.(w := w1), Emit(OnError))
      else
        var rec := Rec(Empty, ctx.cltv, Expiries(ctx.reservations), false, false, false);
        var (w2, t) := Next(w1);
        if t.None? then (f.(w := w2), None)
        else if !t.value.ok then (f.(w := w2), Emit(OnError))
        else (F(rec, w2.(store := Some(rec))), Emit(OnInit))
  }

  function BuildHtlcAction(f: F): (out: (F, Ret))
    ensures Calm(f.w, out.0.w) && (out.1.None? || out.1 == Emit(OnHtlcSigReceived) || out.1 == Emit(OnError))
  {
    var (f1, ret) := Attempt(f, Signature, OnHtlcSigReceived, OnError);
    (if ret == Emit(OnHtlcSigReceived) then f1.(rec := f1.rec.(htlcTx := true)) else f1, ret)
  }

  predicate RecoverySafe(rec: Rec, height: int) {
    && rec.cltv >= height + RECOVERY_SAFETY_DELTA
    && forall e <- rec.reservations :: e >= height + HTLC_EXPIRY_DELTA
  }

  /** How PushPreimage acts on the swap: it never returns OnError once it has pushed. */
  predicate Pushed(f: F, f': F, ret: Ret) {
    && f'.w.store == f.w.store && f'.w.lostUpdates == f.w.lostUpdates && f'.w.broadcasts == f.w.broadcasts
    && f'.rec.(sweeplessTx := f.rec.sweeplessTx, sweepTxKnown := f.rec.sweepTxKnown) == f.rec
    && f'.w.resumed == f.w.resumed && f.w.done <= f'.w.done
    && (ret == Emit(OnSweeplessSweepPublished) ==> SweeplessPublish in f'.w.done)
    && (f'.w.pushes == f.w.pushes
        || (ret != Emit(OnError) && f'.w.pushes == f.w.pushes + [PushOf(f.rec, f'.w)]))
    && f'.w.prePushErrors == f.w.prePushErrors + (if ret == Emit(OnError) then 1 else 0)
    && (ret.Some? ==> ret == Emit(OnError) || ret == Emit(OnErrorPublishHtlc)
                      || (ret == Emit(OnSweeplessSweepPublished) && f'.w.pushes != f.w.pushes))
  }

  function PushPreimageAction(f: F, ctx: Ctx): (out: (F, Ret))
    ensures Pushed(f, out.0, out.1)
  {
    if !ctx.RecoverCtx? then RevealAndSweep(f)
    else
      var (w1, t) := AskHeight(f.w);
      var f1 := f.(w := w1);
      if t.None? then (f1, None)
      else if !t.value.ok || !RecoverySafe(f.rec, t.value.height) then (f1, Emit(OnErrorPublishHtlc))
      else RevealAndSweep(f1)
  }

  /** Sessions, fee rate and relay fee first; from the push on, every failure
      falls back to the HTLC. */
  function RevealAndSweep(f: F): (out: (F, Ret))
    ensures Pushed(f, out.0, out.1)
  {
    var (w1, ready) := Next(f.w);
    if ready.None? then (f.(w := w1), None)
    else if !ready.value.ok then (f.(w := w1.(prePushErrors := w1.prePushErrors + 1)), Emit(OnError))
    else
      var (w2, t) := SendPreimage(w1, f.rec);
      var f2 := f.(w := w2);
      if t.None? then (f2, None)
      else if !t.value.ok then (f2, Emit(OnErrorPublishHtlc))
      else
        var (f3, ret) := Attempt(f2, SweeplessPublish, OnSweeplessSweepPublished, OnErrorPublishHtlc);
        (if ret == Emit(OnSweeplessSweepPublished)
         then f3.(rec := f3.rec.(sweeplessTx := true, sweepTxKnown := true)) else f3, ret)
  }

  /** A failed registration and a failed notification return different events. */
  function WaitForSweeplessAction(f: F): (out: (F, Ret))
    ensures Calm(f.w, out.0.w)
    ensures || out.1.None? || out.1 == Emit(OnSweeplessSweepConfirmed)
            || out.1 == Emit(OnError) || out.1 == Emit(OnErrorPublishHtlc)
  {
    var (w1, t) := Next(f.w);
    if t.None? then (f.(w := w1), None)
    else if !t.value.ok then (f.(w := w1), Emit(OnError))
    else Attempt(f.(w := w1), SweeplessConf, OnSweeplessSweepConfirmed, OnErrorPublishHtlc)
  }

  function PublishHtlcAction(f: F): (out: (F, Ret))
    ensures Calm(f.w, out.0.w) && (out.1.None? || out.1 == Emit(OnHtlcPublished) || out.1 == Emit(OnError))
  {
    var (w1, t) := Next(f.w);
    if t.None? then (f.(w := w1), None)
    else
      var f1 := f.(w := w1.(broadcasts := w1.broadcasts + [f.rec.htlcTx]));
      if !t.value.ok then (f1, Emit(OnError)) else Attempt(f1, HtlcConf, OnHtlcPublished, OnError)
  }

  function PublishHtlcSweepAction(f: F): (out: (F, Ret))
    ensures Calm(f.w, out.0.w) && (out.1.None? || out.1 == Emit(OnHtlcSweepPublished) || out.1 == Emit(OnError))
  {
    var (f1, ret) := Attempt(f, HtlcSweepPublish, OnHtlcSweepPublished, OnError);
    (if ret == Emit(OnHtlcSweepPublished) then f1.(rec := f1.rec.(sweepTxKnown := true)) else f1, ret)
  }

  function Act(f: F, s: St, ctx: Ctx): (out: (F, Ret))
    ensures out.1 != Emit(OnRecover)
    ensures f.w.store.Some? ==> out.0.w.store.Some?
    ensures if s.PushPreimage? then Pushed(f, out.0, out.1)
            else out.0.w.pushes == f.w.pushes && out.0.w.prePushErrors == f.w.prePushErrors
    ensures out.0.w.lostUpdates == f.w.lostUpdates && out.0.w.resumed == f.w.resumed
  {
    match s
    case Init => InitAction(f, ctx)
    case SendPaymentAndPollAccepted => Attempt(f, Payment, OnPaymentAccepted, OnError)
    case BuildHtlc => BuildHtlcAction(f)
    case PushPreimage => PushPreimageAction(f, ctx)
    case WaitForSweeplessSweepConfirmed => WaitForSweeplessAction(f)
    case PublishHtlc => PublishHtlcAction(f)
    case PublishHtlcSweep => PublishHtlcSweepAction(f)
    case WaitForHtlcSweepConfirmed => Attempt(f, HtlcSweepConf, OnHtlcSwept, OnError)
    case _ => (f, Some(Fsm.NoOp))
  }

  // ----- Running the machine -----

  /** The states that rely on the finalized HTLC transaction. */
  predicate Held(s: St) {
    || s.PushPreimage? || s.WaitForSweeplessSweepConfirmed? || s.FinishedSweeplessSweep?
    || s.PublishHtlc? || s.PublishHtlcSweep? || s.WaitForHtlcSweepConfirmed?
    || s.FinishedHtlcPreimageSweep? || s.FailedHtlcSweep?
  }

  /** updateInstantOut: a store error is only logged. */
  function Update(f: F, previous: St, next: St): (f': F)
    ensures f.w.store.Some? ==> f'.w.store.Some?
    ensures f'.w.resumed == f.w.resumed
  {
    var f1 := f.(rec := f.rec.(state := next));
    if next.Init? || next.Empty? || (previous.Init? && next.Failed?) then f1
    else
      var (w1, t) := Next(f1.w);
      if t.None? then f1.(w := w1)
      else if t.value.ok then f1.(w := w1.(store := Some(f1.rec)))
      else f1.(w := w1.(lostUpdates := w1.lostUpdates + 1))
  }

  /** Enters a state and follows the event that its action returns. */
  function Enter(f: F, previous: St, s: St, ctx: Ctx): (F, St, Fsm.Outcome)
    decreases Rank(s), 1, f
  {
    var (f1, ret) := Act(Update(f, previous, s), s, ctx);
    Follow(f1, s, ret, ctx)
  }

  function Follow(f: F, s: St, ret: Ret, ctx: Ctx): (F, St, Fsm.Outcome)
    requires ret != Emit(OnRecover)
    decreases Rank(s), 0, f
  {
    match After(s, ret)
    case Some(next) => Enter(f, s, next, ctx)
    case None =>
      (f, s, if ret.None? then Fsm.Blocked else if ret.value.NoOp? then Fsm.Finished else Fsm.Rejected)
  }

  /** The state that the returned event leads to, if any. */
  function After(s: St, ret: Ret): (next: Option<St>)
    ensures ret != Emit(OnRecover) && next.Some? ==> Rank(next.value) < Rank(s)
    ensures next.Some? && Held(next.value) ==> Held(s) || ret == Emit(OnHtlcSigReceived)
    ensures next.Some? && Held(s) ==> Held(next.value) || (s.PushPreimage? && ret == Emit(OnError))
  {
    if ret.None? || ret.value.NoOp? then None else Edge(s, ret.value.event)
  }

  function Send(f: F, current: St, e: Ev, ctx: Ctx): (F, St, Fsm.Outcome) {
    match Edge(current, e)
    case None => (f, current, Fsm.Rejected)
    case Some(next) => Enter(f, current, next, ctx)
  }

  const NEW_REC := Rec(Empty, 0, [], false, false, false)
  const NEW_WORLD := World([], None, [], [], 0, 0, {}, false, None)

  function Start(ctx: Ctx, tape: seq<Tick>): (F, St, Fsm.Outcome) {
    Send(F(NEW_REC, NEW_WORLD.(tape := tape)), Empty, OnStart, ctx)
  }

  /** The outside of a life that begins with a recovery. */
  function Resumed(w: World, tape: seq<Tick>): World {
    w.(tape := tape, resumed := true, told := None)
  }

  /** A restart: the machine resumes in the stored state, unless that is final. */
  function Recover(w: World, tape: seq<Tick>): (F, St, Fsm.Outcome)
    requires w.store.Some?
  {
    var rec := w.store.value;
    var f := F(rec, Resumed(w, tape));
    if IsFinalState(rec.state) then (f, rec.state, Fsm.Finished) else Send(f, rec.state, OnRecover, RecoverCtx)
  }

  function Lives(w: World, tapes: seq<seq<Tick>>): World
    decreases |tapes|
  {
    if tapes == [] || w.store.None? then w else Lives(Recover(w, tapes[0]).0.w, tapes[1..])
  }

  // ----- The fallback is always held -----

  ghost predicate RecSafe(rec: Rec) {
    && (Held(rec.state) ==> rec.htlcTx)
    && (forall e <- rec.reservations :: e >= rec.cltv + HTLC_EXPIRY_DELTA)
  }

  /** The HTLC was held, and a process that had recovered the swap knew of enough time. */
  ghost predicate PushInTime(p: Push) {
    && p.held
    && (p.resumed ==>
          && p.told.Some? && p.cltv >= p.told.value + 6
          && forall e <- p.reservations :: e >= p.told.value + 40)
  }

  ghost predicate WorldSafe(w: World) {
    && (forall p <- w.pushes :: PushInTime(p))
    && (forall b <- w.broadcasts :: b)
    && (w.store.Some? ==> RecSafe(w.store.value))
  }

  ghost predicate Safe(f: F) {
    WorldSafe(f.w) && RecSafe(f.rec)
  }

  /** Edges into the Held states start in them, or carry the finalized transaction. */
  lemma HeldEdge(s: St, e: Ev)
    ensures Edge(s, e).Some? && Held(Edge(s, e).value) ==> Held(s) || e.OnHtlcSigReceived?
    ensures Edge(s, e).Some? && Held(s) ==> Held(Edge(s, e).value) || (s.PushPreimage? && e.OnError?)
    ensures Edge(s, e).Some? && Edge(s, e).value.PushPreimage? ==> e.OnHtlcSigReceived? || e.OnRecover?
  {
  }

  lemma InitSafe(f: F, ctx: Ctx)
    requires Safe(f) && f.rec.state.Init?
    ensures var (f', ret) := InitAction(f, ctx);
            Safe(f'.(rec := f'.rec.(state := Init))) && ret != Emit(OnHtlcSigReceived)
  {
  }

  lemma RevealKeepsTold(f: F)
    ensures RevealAndSweep(f).0.w.told == f.w.told
  {
  }

  lemma ToldBeforePush(f: F, ctx: Ctx)
    requires ctx.RecoverCtx? && PushPreimageAction(f, ctx).0.w.pushes != f.w.pushes
    ensures var told := PushPreimageAction(f, ctx).0.w.told; told.Some? && RecoverySafe(f.rec, told.value)
  {
    RevealKeepsTold(f.(w := AskHeight(f.w).0));
  }

  lemma PushInTimeExactly(f: F, ctx: Ctx)
    requires (f.w.resumed ==> ctx.RecoverCtx?) && f.rec.htlcTx && forall p <- f.w.pushes :: PushInTime(p)
    ensures forall p <- PushPreimageAction(f, ctx).0.w.pushes :: PushInTime(p)
  {
    var f' := PushPreimageAction(f, ctx).0;
    if f'.w.pushes != f.w.pushes && f.w.resumed {
      ToldBeforePush(f, ctx);
    }
  }

  lemma BroadcastSafe(f: F)
    requires Safe(f) && f.rec.htlcTx
    ensures var f' := PublishHtlcAction(f).0; WorldSafe(f'.w) && f'.rec == f.rec
  {
  }

  lemma ActSafe(f: F, s: St, ctx: Ctx)
    requires Safe(f) && f.rec.state == s && (f.w.resumed ==> ctx.RecoverCtx?)
    ensures var (f', ret) := Act(f, s, ctx);
            && WorldSafe(f'.w)
            && Safe(f'.(rec := f'.rec.(state := s)))
            && (f.rec.htlcTx && !s.Init? ==> f'.rec.htlcTx)
            && (ret == Emit(OnHtlcSigReceived) ==> f'.rec.htlcTx)
  {
    match s
    case Init => InitSafe(f, ctx);
    case BuildHtlc =>
    case PushPreimage => PushInTimeExactly(f, ctx);
    case PublishHtlc => BroadcastSafe(f);
    case PublishHtlcSweep =>
    case _ =>
  }

  lemma StepSafe(f: F, previous: St, s: St, ctx: Ctx)
    requires WorldSafe(f.w) && RecSafe(f.rec.(state := s)) && (f.w.resumed ==> ctx.RecoverCtx?)
    ensures var (f', ret) := Act(Update(f, previous, s), s, ctx);
            && WorldSafe(f'.w) && RecSafe(f'.rec.(state := s))
            && (After(s, ret).Some? ==> RecSafe(f'.rec.(state := After(s, ret).value)))
  {
    ActSafe(Update(f, previous, s), s, ctx);
  }

  lemma {:induction false} FollowSafe(f: F, s: St, ret: Ret, ctx: Ctx)
    requires ret != Emit(OnRecover) && (f.w.resumed ==> ctx.RecoverCtx?)
    requires WorldSafe(f.w) && RecSafe(f.rec.(state := s))
    requires After(s, ret).Some? ==> RecSafe(f.rec.(state := After(s, ret).value))
    ensures var (f', current, _) := Follow(f, s, ret, ctx);
            WorldSafe(f'.w) && RecSafe(f'.rec.(state := current))
    decreases Rank(s)
  {
    var next := After(s, ret);
    if next.Some? {
      StepSafe(f, s, next.value, ctx);
      var (f1, ret1) := Act(Update(f, s, next.value), next.value, ctx);
      FollowSafe(f1, next.value, ret1, ctx);
    }
  }

  lemma EnterSafe(f: F, previous: St, s: St, ctx: Ctx)
    requires WorldSafe(f.w) && RecSafe(f.rec.(state := s)) && (f.w.resumed ==> ctx.RecoverCtx?)
    ensures var (f', current, _) := Enter(f, previous, s, ctx);
            WorldSafe(f'.w) && RecSafe(f'.rec.(state := current))
  {
    StepSafe(f, previous, s, ctx);
    var (f1, ret) := Act(Update(f, previous, s), s, ctx);
    FollowSafe(f1, s, ret, ctx);
  }

  lemma {:induction false} HeldStays(f: F, s: St, ret: Ret, ctx: Ctx)
    requires ret != Emit(OnRecover)
    requires Held(s) && !(s.PushPreimage? && ret == Emit(OnError))
    ensures var (f', current, _) := Follow(f, s, ret, ctx); Held(current) && f'.w.pushes == f.w.pushes
    decreases Rank(s)
  {
    var next := After(s, ret);
    if next.Some? {
      var (f1, ret1) := Act(Update(f, s, next.value), next.value, ctx);
      HeldStays(f1, next.value, ret1, ctx);
    }
  }

  lemma {:induction false} FollowPushed(f: F, s: St, ret: Ret, ctx: Ctx)
    requires ret != Emit(OnRecover)
    ensures var (f', current, _) := Follow(f, s, ret, ctx); f'.w.pushes != f.w.pushes ==> Held(current)
    decreases Rank(s)
  {
    var next := After(s, ret);
    if next.Some? {
      var (f1, ret1) := Act(Update(f, s, next.value), next.value, ctx);
      if f1.w.pushes != f.w.pushes {
        HeldStays(f1, next.value, ret1, ctx);
      } else {
        FollowPushed(f1, next.value, ret1, ctx);
      }
    }
  }

  /** An activation that issued the push never ends in Failed. */
  lemma PushNeverFails(f: F, previous: St, s: St, ctx: Ctx)
    ensures var (f', current, _) := Enter(f, previous, s, ctx); f'.w.pushes != f.w.pushes ==> Held(current)
  {
    var (f1, ret) := Act(Update(f, previous, s), s, ctx);
    if f1.w.pushes != f.w.pushes {
      HeldStays(f1, s, ret, ctx);
    } else {
      FollowPushed(f1, s, ret, ctx);
    }
  }

  lemma RecoverSafe(w: World, tape: seq<Tick>)
    requires WorldSafe(w) && w.store.Some?
    ensures var (f, current, _) := Recover(w, tape);
            WorldSafe(f.w) && RecSafe(f.rec.(state := current)) && f.w.store.Some?
  {
    var rec := w.store.value;
    if !IsFinalState(rec.state) && Edge(rec.state, OnRecover).Some? {
      HeldEdge(rec.state, OnRecover);
      var next := Edge(rec.state, OnRecover).value;
      EnterSafe(F(rec, Resumed(w, tape)), rec.state, next, RecoverCtx);
      var (f1, ret) := Act(Update(F(rec, Resumed(w, tape)), rec.state, next), next, RecoverCtx);
      StoreKept(f1, next, ret, RecoverCtx);
    }
  }

  lemma {:induction false} StoreKept(f: F, s: St, ret: Ret, ctx: Ctx)
    requires ret != Emit(OnRecover) && f.w.store.Some?
    ensures Follow(f, s, ret, ctx).0.w.store.Some?
    decreases Rank(s)
  {
    var next := After(s, ret);
    if next.Some? {
      var (f1, ret1) := Act(Update(f, s, next.value), next.value, ctx);
      StoreKept(f1, next.value, ret1, ctx);
    }
  }

  lemma {:induction false} LivesSafe(w: World, tapes: seq<seq<Tick>>)
    requires WorldSafe(w)
    ensures WorldSafe(Lives(w, tapes))
    decreases |tapes|
  {
    if tapes != [] && w.store.Some? {
      RecoverSafe(w, tapes[0]);
      LivesSafe(Recover(w, tapes[0]).0.w, tapes[1..]);
    }
  }

  /** Over every start and every sequence of recoveries, with any store errors: the
      preimage is pushed, and the HTLC broadcast, only while the finalized HTLC
      transaction is held, and a stored swap past BuildHtlc has it, unless Failed;
      and a process that has recovered the swap pushes only after it was told a
      height that leaves 6 blocks to the expiry and 40 to that of each reservation. */
  lemma FallbackHeld(ctx: Ctx, tape: seq<Tick>, tapes: seq<seq<Tick>>)
    ensures var w := Lives(Start(ctx, tape).0.w, tapes);
            && (forall p <- w.pushes ::
                  && p.held
                  && (p.resumed ==>
                        && p.told.Some? && p.cltv >= p.told.value + 6
                        && forall e <- p.reservations :: e >= p.told.value + 40))
            && (forall b <- w.broadcasts :: b)
            && (w.store.Some? && Held(w.store.value.state) ==> w.store.value.htlcTx)
  {
    EnterSafe(F(NEW_REC, NEW_WORLD.(tape := tape)), Empty, Init, ctx);
    LivesSafe(Start(ctx, tape).0.w, tapes);
  }

  /** The swap may be created: it has reservations, none of them locked, and all of them
      outlive the HTLC by 40 blocks. */
  ghost predicate Creatable(ctx: Ctx) {
    && ctx.InitCtx? && ctx.reservations != []
    && forall r <- ctx.reservations :: !r.locked && r.expiry >= ctx.cltv + 40
  }

  lemma InitExactly(f: F, ctx: Ctx)
    requires f.w.store.None?
    ensures var (f', ret) := InitAction(f, ctx);
            && (ret == Emit(OnInit) <==> f'.w.store.Some?)
            && (f'.w.store.Some? <==>
                  Creatable(ctx) && |f.w.tape| >= 2 && f.w.tape[0].ok && f.w.tape[1].ok)
            && (f'.w.store.Some? ==>
                  && f'.rec == f'.w.store.value && f'.rec.cltv == ctx.cltv
                  && !f'.rec.htlcTx && !f'.rec.sweeplessTx && !f'.rec.sweepTxKnown
                  && |f'.rec.reservations| == |ctx.reservations|
                  && forall i :: 0 <= i < |ctx.reservations| ==> f'.rec.reservations[i] == ctx.reservations[i].expiry)
  {
  }

  /** A start leaves a stored swap exactly if the swap may be created, the server
      agreed to it and the store took it. */
  lemma StoredExactly(ctx: Ctx, tape: seq<Tick>)
    ensures Start(ctx, tape).0.w.store.Some? <==>
              Creatable(ctx) && |tape| >= 2 && tape[0].ok && tape[1].ok
  {
    var f0 := Update(F(NEW_REC, NEW_WORLD.(tape := tape)), Empty, Init);
    InitExactly(f0, ctx);
    var (f1, ret) := Act(f0, Init, ctx);
    if f1.w.store.Some? {
      StoreKept(f1, Init, ret, ctx);
    } else if ret == Emit(OnError) {
      FailedIsFinal(f1, Init, ctx);
      assert Follow(f1, Init, ret, ctx) == Enter(f1, Init, Failed, ctx);
    }
    assert Start(ctx, tape) == Follow(f1, Init, ret, ctx);
  }

  /** Init's margin makes the reservation check at recovery redundant: it passes
      whenever the CLTV check does. */
  lemma ReservationCheckRedundant(rec: Rec, height: int)
    requires RecSafe(rec)
    ensures RecoverySafe(rec, height) <==> rec.cltv >= height + RECOVERY_SAFETY_DELTA
  {
  }

  // ----- When a swap whose preimage is out can still fail -----

  /** A recovery into PushPreimage that fails before it can push again: after the
      store update, the height is known and leaves enough time, but the sessions
      or fee rates cannot be had. */
  predicate FailsBeforePush(rec: Rec, tape: seq<Tick>) {
    && |tape| >= 3
    && tape[1].ok && rec.cltv >= tape[1].height + RECOVERY_SAFETY_DELTA
    && !tape[2].ok
  }

  lemma FailedIsFinal(f: F, previous: St, ctx: Ctx)
    ensures Enter(f, previous, Failed, ctx) == (Update(f, previous, Failed), Failed, Fsm.Finished)
  {
    assert Act(Update(f, previous, Failed), Failed, ctx).1 == Some(Fsm.NoOp);
  }

  /** The resumed action errs if and only if it cannot get as far as the push. */
  lemma ResumedAction(f: F, rec: Rec, tape: seq<Tick>)
    requires RecSafe(rec) && f.rec == rec && f.w.tape == (if tape == [] then [] else tape[1..])
    ensures PushPreimageAction(f, RecoverCtx).1 == Emit(OnError) <==> FailsBeforePush(rec, tape)
  {
  }

  lemma ResumedPush(w: World, rec: Rec, tape: seq<Tick>)
    requires RecSafe(rec) && rec.state.PushPreimage?
    ensures var (f, current, _) := Enter(F(rec, Resumed(w, tape)), PushPreimage, PushPreimage, RecoverCtx);
            current.Failed? <==> FailsBeforePush(rec, tape)
  {
    var f0 := Update(F(rec, Resumed(w, tape)), PushPreimage, PushPreimage);
    ResumedAction(f0, rec, tape);
    var (f1, ret) := Act(f0, PushPreimage, RecoverCtx);
    PushFails(f1, ret, RecoverCtx);
  }

  lemma PushFails(f: F, ret: Ret, ctx: Ctx)
    requires ret != Emit(OnRecover)
    ensures Follow(f, PushPreimage, ret, ctx).1.Failed? <==> ret == Emit(OnError)
    ensures ret == Emit(OnError) ==> Follow(f, PushPreimage, ret, ctx).0 == Update(f, PushPreimage, Failed)
  {
    if ret == Emit(OnError) {
      FailedIsFinal(f, PushPreimage, ctx);
    } else {
      HeldStays(f, PushPreimage, ret, ctx);
    }
  }

  lemma TooLateToPush(f: F)
    requires f.w.tape != [] && (!f.w.tape[0].ok || !RecoverySafe(f.rec, f.w.tape[0].height))
    ensures var (f', ret) := PushPreimageAction(f, RecoverCtx);
            ret == Emit(OnErrorPublishHtlc) && f'.w.pushes == f.w.pushes
  {
  }

  /** A recovery that cannot learn the height, or learns one that leaves too little
      time, pushes nothing. */
  lemma LateRecoveryIsSilent(w: World, tape: seq<Tick>)
    requires w.store.Some? && |tape| >= 2
    requires var rec := w.store.value;
             || !tape[1].ok || rec.cltv < tape[1].height + 6
             || exists e <- rec.reservations :: e < tape[1].height + 40
    ensures Recover(w, tape).0.w.pushes == w.pushes
  {
    var rec := w.store.value;
    if !IsFinalState(rec.state) && Edge(rec.state, OnRecover).Some? {
      var next := Edge(rec.state, OnRecover).value;
      var f0 := Update(F(rec, Resumed(w, tape)), rec.state, next);
      var (f1, ret) := Act(f0, next, RecoverCtx);
      if rec.state.PushPreimage? {
        assert f0.w.tape == tape[1..];
        TooLateToPush(f0);
        HeldStays(f1, next, ret, RecoverCtx);
      } else if Held(next) {
        HeldStays(f1, next, ret, RecoverCtx);
      } else {
        FailedIsFinal(F(rec, Resumed(w, tape)), rec.state, RecoverCtx);
      }
    }
  }

  /** A recovery ends in Failed, whether or not the preimage went out before, if
      and only if the stored state still precedes PushPreimage or the recovery
      fails before pushing again. */
  lemma RecoveryFailsExactly(w: World, tape: seq<Tick>)
    requires WorldSafe(w) && w.store.Some? && !IsFinalState(w.store.value.state)
    ensures var rec := w.store.value;
            Recover(w, tape).1.Failed? <==>
              || rec.state.Init? || rec.state.SendPaymentAndPollAccepted? || rec.state.BuildHtlc?
              || (rec.state.PushPreimage? && FailsBeforePush(rec, tape))
  {
    var rec := w.store.value;
    var f := F(rec, Resumed(w, tape));
    if rec.state.PushPreimage? {
      ResumedPush(w, rec, tape);
    } else if Held(rec.state) {
      HeldEdge(rec.state, OnRecover);
      var next := Edge(rec.state, OnRecover).value;
      var (f1, ret) := Act(Update(f, rec.state, next), next, RecoverCtx);
      HeldStays(f1, next, ret, RecoverCtx);
    } else {
      FailedIsFinal(f, rec.state, RecoverCtx);
    }
  }

  /** While no store update was lost and no activation erred before its push, a
      pushed swap is stored in a state that keeps the fallback. */
  ghost predicate Clean(w: World) {
    w.lostUpdates == 0 && w.prePushErrors == 0
  }

  ghost predicate Kept(w: World) {
    w.pushes != [] && Clean(w) ==> w.store.Some? && Held(w.store.value.state)
  }

  lemma StepKept(f: F, previous: St, s: St, ctx: Ctx)
    requires Kept(f.w) && (f.w.pushes != [] && Clean(f.w) ==> Held(s))
    ensures var (f', ret) := Act(Update(f, previous, s), s, ctx);
            && Kept(f'.w)
            && (f'.w.pushes != [] && Clean(f'.w) && After(s, ret).Some? ==> Held(After(s, ret).value))
  {
    UpdateKept(f, previous, s);
    ActKept(Update(f, previous, s), s, ctx);
  }

  lemma UpdateKept(f: F, previous: St, s: St)
    requires Kept(f.w) && (f.w.pushes != [] && Clean(f.w) ==> Held(s))
    ensures var f' := Update(f, previous, s);
            && Kept(f'.w) && f'.w.pushes == f.w.pushes && (Clean(f'.w) ==> Clean(f.w))
            && (s.PushPreimage? && f'.w.tape != [] && Clean(f'.w) ==>
                  f'.w.store.Some? && f'.w.store.value.state.PushPreimage?)
  {
  }

  lemma ActKept(f: F, s: St, ctx: Ctx)
    requires Kept(f.w) && (f.w.pushes != [] && Clean(f.w) ==> Held(s))
    requires s.PushPreimage? && f.w.tape != [] && Clean(f.w) ==>
               f.w.store.Some? && f.w.store.value.state.PushPreimage?
    ensures var (f', ret) := Act(f, s, ctx);
            && Kept(f'.w)
            && (f'.w.pushes != [] && Clean(f'.w) && After(s, ret).Some? ==> Held(After(s, ret).value))
  {
    match s
    case PushPreimage =>
      DeadPushesNothing(f, ctx);
    case Init =>
      assert f.w.pushes != [] ==> !Clean(f.w);
    case _ =>
      StoreUntouched(f, s, ctx);
  }

  lemma DeadPushesNothing(f: F, ctx: Ctx)
    ensures f.w.tape == [] ==> PushPreimageAction(f, ctx).0.w.pushes == f.w.pushes
  {
  }

  lemma StoreUntouched(f: F, s: St, ctx: Ctx)
    requires !s.Init?
    ensures Act(f, s, ctx).0.w.store == f.w.store
  {
  }

  lemma {:induction false} FollowKept(f: F, s: St, ret: Ret, ctx: Ctx)
    requires ret != Emit(OnRecover) && Kept(f.w)
    requires f.w.pushes != [] && Clean(f.w) && After(s, ret).Some? ==> Held(After(s, ret).value)
    ensures Kept(Follow(f, s, ret, ctx).0.w)
    decreases Rank(s)
  {
    var next := After(s, ret);
    if next.Some? {
      StepKept(f, s, next.value, ctx);
      var (f1, ret1) := Act(Update(f, s, next.value), next.value, ctx);
      FollowKept(f1, next.value, ret1, ctx);
    }
  }

  lemma EnterKept(f: F, previous: St, s: St, ctx: Ctx)
    requires Kept(f.w) && (f.w.pushes != [] && Clean(f.w) ==> Held(s))
    ensures Kept(Enter(f, previous, s, ctx).0.w)
  {
    StepKept(f, previous, s, ctx);
    var (f1, ret) := Act(Update(f, previous, s), s, ctx);
    FollowKept(f1, s, ret, ctx);
  }

  lemma {:induction false} LivesKept(w: World, tapes: seq<seq<Tick>>)
    requires Kept(w)
    ensures Kept(Lives(w, tapes))
    decreases |tapes|
  {
    if tapes != [] && w.store.Some? {
      var rec := w.store.value;
      var w0 := Resumed(w, tapes[0]);
      if !IsFinalState(rec.state) && Edge(rec.state, OnRecover).Some? {
        HeldEdge(rec.state, OnRecover);
        EnterKept(F(rec, w0), rec.state, Edge(rec.state, OnRecover).value, RecoverCtx);
      }
      LivesKept(Recover(w, tapes[0]).0.w, tapes[1..]);
    }
  }

  /** Over every start and every sequence of recoveries: a swap that pushed its
      preimage is stored as Failed only if a store update was lost or an activation
      erred before its push. */
  lemma PushedSwapFailsOnlyIf(ctx: Ctx, tape: seq<Tick>, tapes: seq<seq<Tick>>)
    ensures var w := Lives(Start(ctx, tape).0.w, tapes);
            w.pushes != [] && w.store.Some? && w.store.value.state.Failed? ==> w.lostUpdates > 0 || w.prePushErrors > 0
  {
    EnterKept(F(NEW_REC, NEW_WORLD.(tape := tape)), Empty, Init, ctx);
    LivesKept(Start(ctx, tape).0.w, tapes);
  }

  // ----- The event that the table does not list -----

  /** The only event that an action returns and the table does not list. */
  predicate Unlisted(s: St, ret: Ret) {
    s.WaitForSweeplessSweepConfirmed? && ret == Emit(OnErrorPublishHtlc)
  }

  lemma UnlistedOnlyThere(f: F, s: St, ctx: Ctx)
    ensures var ret := Act(f, s, ctx).1;
            ret.Some? && ret.value.Emit? && After(s, ret).None? <==> Unlisted(s, ret)
  {
    match s
    case PushPreimage =>
    case WaitForSweeplessSweepConfirmed =>
    case _ =>
  }

  /** Once an event is listed, so are all that follow, from
      WaitForSweeplessSweepConfirmed on. */
  lemma {:induction false} NotRejected(f: F, s: St, ret: Ret, ctx: Ctx)
    requires ret != Emit(OnRecover) && Rank(s) <= Rank(WaitForSweeplessSweepConfirmed)
    requires ret.Some? && ret.value.Emit? ==> After(s, ret).Some?
    ensures !Follow(f, s, ret, ctx).2.Rejected?
    decreases Rank(s)
  {
    var next := After(s, ret);
    if next.Some? {
      UnlistedOnlyThere(Update(f, s, next.value), next.value, ctx);
      var (f1, ret1) := Act(Update(f, s, next.value), next.value, ctx);
      NotRejected(f1, next.value, ret1, ctx);
    }
  }

  predicate NotificationFails(tape: seq<Tick>) {
    |tape| >= 2 && tape[0].ok && !tape[1].ok
  }

  lemma UnlistedExactly(f: F)
    ensures var (f1, ret) := WaitForSweeplessAction(f);
            && (ret == Emit(OnErrorPublishHtlc) <==> NotificationFails(f.w.tape))
            && f1.w.pushes == f.w.pushes && f1.w.broadcasts == f.w.broadcasts
  {
  }

  /** WaitForSweeplessSweepConfirmed returns OnErrorPublishHtlc when its
      notification fails, which the engine rejects: the machine stops there without
      publishing the HTLC. */
  lemma SweeplessRejectedExactly(f: F, previous: St, ctx: Ctx)
    ensures var (f', current, outcome) := Enter(f, previous, WaitForSweeplessSweepConfirmed, ctx);
            && (outcome.Rejected? <==> f.w.tape != [] && NotificationFails(f.w.tape[1..]))
            && (outcome.Rejected? ==>
                  && current.WaitForSweeplessSweepConfirmed?
                  && f'.w.pushes == f.w.pushes && f'.w.broadcasts == f.w.broadcasts)
  {
    var s := WaitForSweeplessSweepConfirmed;
    var f0 := Update(f, previous, s);
    var (f1, ret) := WaitForSweeplessAction(f0);
    UnlistedExactly(f0);
    UnlistedOnlyThere(f0, s, ctx);
    if ret != Emit(OnErrorPublishHtlc) {
      NotRejected(f1, s, ret, ctx);
    }
  }

  // ----- What a state stands for -----

  /** What must have happened outside for a swap to be in the state. The HTLC sweep is
      reached from FailedHtlcSweep too, so it does not stand for a confirmed HTLC. */
  predicate Earned(s: St, w: World) {
    && (s.BuildHtlc? || Held(s) ==> Payment in w.done)
    && (Held(s) ==> Signature in w.done)
    && (s.WaitForSweeplessSweepConfirmed? || s.FinishedSweeplessSweep? ==>
          SweeplessPublish in w.done && w.pushes != [])
    && (s.FinishedSweeplessSweep? ==> SweeplessConf in w.done)
    && (s.PublishHtlcSweep? || s.WaitForHtlcSweepConfirmed? || s.FinishedHtlcPreimageSweep? || s.FailedHtlcSweep? ==>
          w.broadcasts != [])
    && (s.WaitForHtlcSweepConfirmed? || s.FinishedHtlcPreimageSweep? ==> HtlcSweepPublish in w.done)
    && (s.FinishedHtlcPreimageSweep? ==> HtlcSweepConf in w.done)
  }

  predicate EarnedWorld(w: World) {
    w.store.Some? ==> Earned(w.store.value.state, w)
  }

  /** The outside only gets more done. */
  predicate Grows(w: World, w': World) {
    w.done <= w'.done && (w.pushes != [] ==> w'.pushes != []) && (w.broadcasts != [] ==> w'.broadcasts != [])
  }

  lemma UpdateEarned(f: F, previous: St, s: St)
    requires EarnedWorld(f.w) && Earned(s, f.w)
    ensures var f' := Update(f, previous, s);
            && EarnedWorld(f'.w) && Earned(s, f'.w)
  {
  }

  lemma InitGrows(f: F, ctx: Ctx)
    ensures var f' := InitAction(f, ctx).0;
            && Grows(f.w, f'.w)
            && (f'.w.store == f.w.store || (f'.w.store.Some? && f'.w.store.value.state.Empty?))
  {
  }

  lemma AttemptGrows(f: F, task: Task, success: Ev, failure: Ev)
    requires success != failure
    ensures var (f', ret) := Attempt(f, task, success, failure);
            && Grows(f.w, f'.w) && f'.w.store == f.w.store
            && (ret == Emit(success) ==> task in f'.w.done)
  {
  }

  lemma WaitGrows(f: F)
    ensures var (f', ret) := WaitForSweeplessAction(f);
            && Grows(f.w, f'.w) && f'.w.store == f.w.store
            && (ret == Emit(OnSweeplessSweepConfirmed) ==> SweeplessConf in f'.w.done)
  {
  }

  lemma PublishGrows(f: F)
    ensures var (f', ret) := PublishHtlcAction(f);
            && Grows(f.w, f'.w) && f'.w.store == f.w.store && (ret.Some? ==> f'.w.broadcasts != [])
  {
  }

  lemma ActGrows(f: F, s: St, ctx: Ctx)
    ensures var f' := Act(f, s, ctx).0;
            && Grows(f.w, f'.w)
            && (f'.w.store == f.w.store || (f'.w.store.Some? && f'.w.store.value.state.Empty?))
  {
    match s
    case Init => InitGrows(f, ctx);
    case SendPaymentAndPollAccepted => AttemptGrows(f, Payment, OnPaymentAccepted, OnError);
    case BuildHtlc => AttemptGrows(f, Signature, OnHtlcSigReceived, OnError);
    case PushPreimage =>
    case WaitForSweeplessSweepConfirmed => WaitGrows(f);
    case PublishHtlc => PublishGrows(f);
    case PublishHtlcSweep => AttemptGrows(f, HtlcSweepPublish, OnHtlcSweepPublished, OnError);
    case WaitForHtlcSweepConfirmed => AttemptGrows(f, HtlcSweepConf, OnHtlcSwept, OnError);
    case _ =>
  }

  /** A success that leads to a state has got done what the state stands for. */
  lemma NextEarned(s: St, e: Ev, w: World, w': World)
    requires Earned(s, w) && Grows(w, w') && !e.OnRecover?
    requires e.OnPaymentAccepted? ==> Payment in w'.done
    requires e.OnHtlcSigReceived? ==> Signature in w'.done
    requires e.OnSweeplessSweepPublished? ==> SweeplessPublish in w'.done && w'.pushes != []
    requires e.OnSweeplessSweepConfirmed? ==> SweeplessConf in w'.done
    requires s.PublishHtlc? ==> w'.broadcasts != []
    requires e.OnHtlcSweepPublished? ==> HtlcSweepPublish in w'.done
    requires e.OnHtlcSwept? ==> HtlcSweepConf in w'.done
    ensures Edge(s, e).Some? ==> Earned(Edge(s, e).value, w')
  {
  }

  /** What the action returned earns the state that it leads to. */
  lemma ActEarned(f: F, s: St, ctx: Ctx)
    requires Earned(s, f.w)
    ensures var (f', ret) := Act(f, s, ctx); After(s, ret).Some? ==> Earned(After(s, ret).value, f'.w)
  {
    ActGrows(f, s, ctx);
    var (f', ret) := Act(f, s, ctx);
    if After(s, ret).Some? {
      ActReports(f, s, ctx);
      NextEarned(s, ret.value.event, f.w, f'.w);
    }
  }

  lemma ActReports(f: F, s: St, ctx: Ctx)
    ensures var (f', ret) := Act(f, s, ctx);
            && (ret == Emit(OnPaymentAccepted) ==> Payment in f'.w.done)
            && (ret == Emit(OnHtlcSigReceived) ==> Signature in f'.w.done)
            && (ret == Emit(OnSweeplessSweepPublished) ==> SweeplessPublish in f'.w.done && f'.w.pushes != [])
            && (ret == Emit(OnSweeplessSweepConfirmed) ==> SweeplessConf in f'.w.done)
            && (ret.Some? && s.PublishHtlc? ==> f'.w.broadcasts != [])
            && (ret == Emit(OnHtlcSweepPublished) ==> HtlcSweepPublish in f'.w.done)
            && (ret == Emit(OnHtlcSwept) ==> HtlcSweepConf in f'.w.done)
  {
    match s
    case Init =>
    case SendPaymentAndPollAccepted => AttemptGrows(f, Payment, OnPaymentAccepted, OnError);
    case BuildHtlc => AttemptGrows(f, Signature, OnHtlcSigReceived, OnError);
    case PushPreimage =>
    case WaitForSweeplessSweepConfirmed => WaitGrows(f);
    case PublishHtlc => PublishGrows(f);
    case PublishHtlcSweep => AttemptGrows(f, HtlcSweepPublish, OnHtlcSweepPublished, OnError);
    case WaitForHtlcSweepConfirmed => AttemptGrows(f, HtlcSweepConf, OnHtlcSwept, OnError);
    case _ =>
  }

  lemma {:induction false} FollowEarned(f: F, s: St, ret: Ret, ctx: Ctx)
    requires ret != Emit(OnRecover) && EarnedWorld(f.w) && Earned(s, f.w)
    requires After(s, ret).Some? ==> Earned(After(s, ret).value, f.w)
    ensures var (f', current, _) := Follow(f, s, ret, ctx); EarnedWorld(f'.w) && Earned(current, f'.w)
    decreases Rank(s), 0
  {
    if After(s, ret).Some? {
      EnterEarned(f, s, After(s, ret).value, ctx);
    }
  }

  lemma {:induction false} EnterEarned(f: F, previous: St, s: St, ctx: Ctx)
    requires EarnedWorld(f.w) && Earned(s, f.w)
    ensures var (f', current, _) := Enter(f, previous, s, ctx); EarnedWorld(f'.w) && Earned(current, f'.w)
    decreases Rank(s), 1
  {
    UpdateEarned(f, previous, s);
    var f0 := Update(f, previous, s);
    ActGrows(f0, s, ctx);
    ActEarned(f0, s, ctx);
    var (f1, ret) := Act(f0, s, ctx);
    FollowEarned(f1, s, ret, ctx);
  }

  lemma RecoveryEarned(s: St, w: World)
    requires Earned(s, w)
    ensures Edge(s, OnRecover).Some? ==> Earned(Edge(s, OnRecover).value, w)
  {
  }

  lemma {:induction false} LivesEarned(w: World, tapes: seq<seq<Tick>>)
    requires EarnedWorld(w)
    ensures EarnedWorld(Lives(w, tapes))
    decreases |tapes|
  {
    if tapes != [] && w.store.Some? {
      var rec := w.store.value;
      if !IsFinalState(rec.state) && Edge(rec.state, OnRecover).Some? {
        RecoveryEarned(rec.state, Resumed(w, tapes[0]));
        EnterEarned(F(rec, Resumed(w, tapes[0])), rec.state, Edge(rec.state, OnRecover).value, RecoverCtx);
      }
      LivesEarned(Recover(w, tapes[0]).0.w, tapes[1..]);
    }
  }

  /** Over every start and every sequence of recoveries: a swap stored as finished
      without a sweep of the HTLC has paid, holds the signatures, has pushed its
      preimage and published its sweepless sweep, and that confirmed; one stored as
      finished by a sweep of the HTLC has paid, holds the signatures, has broadcast
      the HTLC and published its sweep, and that confirmed. */
  lemma FinishedEarned(ctx: Ctx, tape: seq<Tick>, tapes: seq<seq<Tick>>)
    ensures var w := Lives(Start(ctx, tape).0.w, tapes);
            w.store.Some? ==>
              var state := w.store.value.state;
              && (state.FinishedSweeplessSweep? ==>
                    {Payment, Signature, SweeplessPublish, SweeplessConf} <= w.done && w.pushes != [])
              && (state.FinishedHtlcPreimageSweep? ==>
                    {Payment, Signature, HtlcSweepPublish, HtlcSweepConf} <= w.done && w.broadcasts != [])
  {
    EnterEarned(F(NEW_REC, NEW_WORLD.(tape := tape)), Empty, Init, ctx);
    LivesEarned(Start(ctx, tape).0.w, tapes);
  }

  // ----- What the stored swap records of its sweep -----

  /** In these states the swap has its sweep transaction on record. */
  predicate Recorded(s: St, rec: Rec) {
    && (s.WaitForSweeplessSweepConfirmed? || s.FinishedSweeplessSweep? ==> rec.sweeplessTx && rec.sweepTxKnown)
    && (s.WaitForHtlcSweepConfirmed? || s.FinishedHtlcPreimageSweep? ==> rec.sweepTxKnown)
  }

  predicate RecordedWorld(w: World) {
    w.store.Some? ==> Recorded(w.store.value.state, w.store.value)
  }

  lemma UpdateRecorded(f: F, previous: St, s: St)
    requires RecordedWorld(f.w) && Recorded(s, f.rec)
    ensures var f' := Update(f, previous, s); RecordedWorld(f'.w) && Recorded(s, f'.rec)
  {
  }

  lemma ActRecorded(f: F, s: St, ctx: Ctx)
    requires RecordedWorld(f.w) && Recorded(s, f.rec)
    ensures var (f', ret) := Act(f, s, ctx);
            RecordedWorld(f'.w) && (After(s, ret).Some? ==> Recorded(After(s, ret).value, f'.rec))
  {
    if s.PushPreimage? {
      PushRecorded(f, ctx);
    } else {
      ActGrows(f, s, ctx);
    }
  }

  lemma PushRecorded(f: F, ctx: Ctx)
    ensures var (f', ret) := PushPreimageAction(f, ctx);
            ret == Emit(OnSweeplessSweepPublished) ==> f'.rec.sweeplessTx && f'.rec.sweepTxKnown
  {
  }

  lemma {:induction false} EnterRecorded(f: F, previous: St, s: St, ctx: Ctx)
    requires RecordedWorld(f.w) && Recorded(s, f.rec)
    ensures RecordedWorld(Enter(f, previous, s, ctx).0.w)
    decreases Rank(s), 1
  {
    UpdateRecorded(f, previous, s);
    var f0 := Update(f, previous, s);
    ActRecorded(f0, s, ctx);
    var (f1, ret) := Act(f0, s, ctx);
    FollowRecorded(f1, s, ret, ctx);
  }

  lemma {:induction false} FollowRecorded(f: F, s: St, ret: Ret, ctx: Ctx)
    requires ret != Emit(OnRecover) && RecordedWorld(f.w)
    requires After(s, ret).Some? ==> Recorded(After(s, ret).value, f.rec)
    ensures RecordedWorld(Follow(f, s, ret, ctx).0.w)
    decreases Rank(s), 0
  {
    if After(s, ret).Some? {
      EnterRecorded(f, s, After(s, ret).value, ctx);
    }
  }

  lemma {:induction false} LivesRecorded(w: World, tapes: seq<seq<Tick>>)
    requires RecordedWorld(w)
    ensures RecordedWorld(Lives(w, tapes))
    decreases |tapes|
  {
    if tapes != [] && w.store.Some? {
      var rec := w.store.value;
      if !IsFinalState(rec.state) && Edge(rec.state, OnRecover).Some? {
        EnterRecorded(F(rec, Resumed(w, tapes[0])), rec.state, Edge(rec.state, OnRecover).value, RecoverCtx);
      }
      LivesRecorded(Recover(w, tapes[0]).0.w, tapes[1..]);
    }
  }

  /** Over every start and every sequence of recoveries: a stored swap that waits for the
      confirmation of its sweep, or has finished, has the transaction on record. */
  lemma SweepRecorded(ctx: Ctx, tape: seq<Tick>, tapes: seq<seq<Tick>>)
    ensures var w := Lives(Start(ctx, tape).0.w, tapes);
            w.store.Some? ==> Recorded(w.store.value.state, w.store.value)
  {
    EnterRecorded(F(NEW_REC, NEW_WORLD.(tape := tape)), Empty, Init, ctx);
    LivesRecorded(Start(ctx, tape).0.w, tapes);
  }

  // ----- If nothing goes wrong outside -----

  predicate AllOk(tape: seq<Tick>) {
    tape == [] || (tape[0].ok && AllOk(tape[1..]))
  }

  /** The calls succeed, and the process lives to make so many. */
  predicate Lasts(w: World, calls: nat) {
    |w.tape| >= calls && AllOk(w.tape)
  }

  /** The machine has finished, with its last state and its sweep stored. */
  predicate Stands(f: F, current: St, outcome: Fsm.Outcome, s: St) {
    && outcome == Fsm.Finished && current == s && f.rec.state == s && f.w.store == Some(f.rec)
    && Recorded(s, f.rec)
  }

  lemma CalmUpdate(f: F, previous: St, s: St, calls: nat)
    requires Lasts(f.w, calls + 1) && !s.Init? && !s.Empty? && !(previous.Init? && s.Failed?)
    ensures var f' := Update(f, previous, s);
            && f'.rec == f.rec.(state := s) && Lasts(f'.w, calls)
            && f'.w == f.w.(tape := f.w.tape[1..], store := Some(f'.rec))
  {
  }

  lemma CalmAttempt(f: F, task: Task, success: Ev, failure: Ev, calls: nat)
    requires Lasts(f.w, calls + 1)
    ensures var (f', ret) := Attempt(f, task, success, failure);
            && ret == Emit(success) && f'.rec == f.rec && Lasts(f'.w, calls) && f'.w.pushes == f.w.pushes
  {
  }

  /** The states whose action is one task, or leads up to one. */
  predicate Plain(s: St) {
    || s.SendPaymentAndPollAccepted? || s.BuildHtlc? || s.WaitForSweeplessSweepConfirmed?
    || s.PublishHtlc? || s.PublishHtlcSweep? || s.WaitForHtlcSweepConfirmed?
  }

  /** Where they lead once it is done. */
  function Onward(s: St): St
    requires Plain(s)
  {
    match s
    case SendPaymentAndPollAccepted => BuildHtlc
    case BuildHtlc => PushPreimage
    case WaitForSweeplessSweepConfirmed => FinishedSweeplessSweep
    case PublishHtlc => PublishHtlcSweep
    case PublishHtlcSweep => WaitForHtlcSweepConfirmed
    case WaitForHtlcSweepConfirmed => FinishedHtlcPreimageSweep
  }

  lemma CalmBroadcast(f: F, calls: nat)
    requires Lasts(f.w, calls + 2)
    ensures var (f', ret) := PublishHtlcAction(f);
            ret == Emit(OnHtlcPublished) && Lasts(f'.w, calls) && f'.w.pushes == f.w.pushes
  {
    var w1 := f.w.(tape := f.w.tape[1..], broadcasts := f.w.broadcasts + [f.rec.htlcTx]);
    CalmAttempt(f.(w := w1), HtlcConf, OnHtlcPublished, OnError, calls);
  }

  lemma CalmConf(f: F, calls: nat)
    requires Lasts(f.w, calls + 2)
    ensures var (f', ret) := WaitForSweeplessAction(f);
            ret == Emit(OnSweeplessSweepConfirmed) && f'.rec == f.rec && Lasts(f'.w, calls) && f'.w.pushes == f.w.pushes
  {
    var f1 := f.(w := f.w.(tape := f.w.tape[1..]));
    CalmAttempt(f1, SweeplessConf, OnSweeplessSweepConfirmed, OnErrorPublishHtlc, calls);
  }

  lemma CalmAct(f: F, s: St, ctx: Ctx, calls: nat)
    requires Plain(s) && Lasts(f.w, calls + 2) && Recorded(s, f.rec)
    ensures var (f', ret) := Act(f, s, ctx);
            && After(s, ret) == Some(Onward(s)) && Recorded(Onward(s), f'.rec)
            && Lasts(f'.w, calls) && f'.w.pushes == f.w.pushes
  {
    match s
    case SendPaymentAndPollAccepted => CalmAttempt(f, Payment, OnPaymentAccepted, OnError, calls);
    case BuildHtlc => CalmAttempt(f, Signature, OnHtlcSigReceived, OnError, calls);
    case WaitForSweeplessSweepConfirmed => CalmConf(f, calls);
    case _ => CalmHtlcAct(f, s, ctx, calls);
  }

  lemma CalmHtlcAct(f: F, s: St, ctx: Ctx, calls: nat)
    requires s.PublishHtlc? || s.PublishHtlcSweep? || s.WaitForHtlcSweepConfirmed?
    requires Lasts(f.w, calls + 2) && Recorded(s, f.rec)
    ensures var (f', ret) := Act(f, s, ctx);
            && After(s, ret) == Some(Onward(s)) && Recorded(Onward(s), f'.rec)
            && Lasts(f'.w, calls) && f'.w.pushes == f.w.pushes
  {
    match s
    case PublishHtlc => CalmBroadcast(f, calls);
    case PublishHtlcSweep => CalmAttempt(f, HtlcSweepPublish, OnHtlcSweepPublished, OnError, calls);
    case WaitForHtlcSweepConfirmed => CalmAttempt(f, HtlcSweepConf, OnHtlcSwept, OnError, calls);
  }

  lemma EnterStep(f: F, previous: St, s: St, ctx: Ctx, f1: F, ret: Ret, next: St)
    requires Act(Update(f, previous, s), s, ctx) == (f1, ret) && After(s, ret) == Some(next)
    ensures Enter(f, previous, s, ctx) == Enter(f1, s, next, ctx)
  {
    assert Enter(f, previous, s, ctx) == Follow(f1, s, ret, ctx);
  }

  lemma CalmStep(f: F, previous: St, s: St, ctx: Ctx, calls: nat) returns (f1: F)
    requires Plain(s) && Lasts(f.w, calls + 3) && Recorded(s, f.rec)
    ensures Enter(f, previous, s, ctx) == Enter(f1, s, Onward(s), ctx)
    ensures Lasts(f1.w, calls) && Recorded(Onward(s), f1.rec) && f1.w.pushes == f.w.pushes
  {
    CalmUpdate(f, previous, s, calls + 2);
    var f0 := Update(f, previous, s);
    CalmAct(f0, s, ctx, calls);
    f1 := Act(f0, s, ctx).0;
    EnterStep(f, previous, s, ctx, f1, Act(f0, s, ctx).1, Onward(s));
  }

  lemma CalmFinish(f: F, previous: St, s: St, ctx: Ctx)
    requires Lasts(f.w, 1) && IsFinalState(s) && !(previous.Init? && s.Failed?) && Recorded(s, f.rec)
    ensures var (f', current, outcome) := Enter(f, previous, s, ctx);
            Stands(f', current, outcome, s) && f'.w.pushes == f.w.pushes
  {
    CalmUpdate(f, previous, s, 0);
    var f0 := Update(f, previous, s);
    assert Enter(f, previous, s, ctx) == Follow(f0, s, Some(Fsm.NoOp), ctx);
  }

  /** The way by the sweep of the HTLC. */
  lemma {:induction false} CalmHtlc(f: F, previous: St, s: St, ctx: Ctx)
    requires s.PublishHtlc? || s.PublishHtlcSweep? || s.WaitForHtlcSweepConfirmed? || s.FinishedHtlcPreimageSweep?
    requires Lasts(f.w, 3 * Rank(s) + 1) && Recorded(s, f.rec)
    ensures var (f', current, outcome) := Enter(f, previous, s, ctx);
            Stands(f', current, outcome, FinishedHtlcPreimageSweep) && f'.w.pushes == f.w.pushes
    decreases Rank(s)
  {
    if s.FinishedHtlcPreimageSweep? {
      CalmFinish(f, previous, s, ctx);
    } else {
      var f1 := CalmStep(f, previous, s, ctx, 3 * Rank(Onward(s)) + 1);
      CalmHtlc(f1, s, Onward(s), ctx);
    }
  }

  lemma CalmWait(f: F, previous: St, ctx: Ctx)
    requires Lasts(f.w, 4) && f.rec.sweeplessTx && f.rec.sweepTxKnown
    ensures var (f', current, outcome) := Enter(f, previous, WaitForSweeplessSweepConfirmed, ctx);
            Stands(f', current, outcome, FinishedSweeplessSweep) && f'.w.pushes == f.w.pushes
  {
    var f1 := CalmStep(f, previous, WaitForSweeplessSweepConfirmed, ctx, 1);
    CalmFinish(f1, WaitForSweeplessSweepConfirmed, FinishedSweeplessSweep, ctx);
  }

  lemma CalmReveal(f: F, calls: nat)
    requires Lasts(f.w, calls + 3)
    ensures var (f', ret) := RevealAndSweep(f);
            && ret == Emit(OnSweeplessSweepPublished) && Lasts(f'.w, calls)
            && f'.rec.sweeplessTx && f'.rec.sweepTxKnown && |f'.w.pushes| == |f.w.pushes| + 1
  {
    assert AllOk(f.w.tape[1..]) && AllOk(f.w.tape[1..][1..]);
    var w1 := f.w.(tape := f.w.tape[1..]);
    CalmAttempt(f.(w := SendPreimage(w1, f.rec).0), SweeplessPublish, OnSweeplessSweepPublished,
                OnErrorPublishHtlc, calls);
  }

  /** There is time left, as far as a recovery is told. */
  predicate TimeLeft(rec: Rec, height: int) {
    rec.cltv >= height + 6 && forall e <- rec.reservations :: e >= height + 40
  }

  lemma CalmPushed(f: F, ctx: Ctx)
    requires Lasts(f.w, 11)
    ensures var (f', ret) := PushPreimageAction(f, ctx);
            if ctx.InitCtx? || TimeLeft(f.rec, f.w.tape[0].height)
            then && ret == Emit(OnSweeplessSweepPublished) && Lasts(f'.w, 4)
                 && f'.rec.sweeplessTx && f'.rec.sweepTxKnown && |f'.w.pushes| == |f.w.pushes| + 1
            else ret == Emit(OnErrorPublishHtlc) && Lasts(f'.w, 10) && f'.w.pushes == f.w.pushes
  {
    if ctx.InitCtx? {
      CalmReveal(f, 4);
    } else if TimeLeft(f.rec, f.w.tape[0].height) {
      CalmReveal(f.(w := AskHeight(f.w).0), 4);
    }
  }

  predicate PushEnds(pushes: seq<Push>, inTime: bool, out: (F, St, Fsm.Outcome)) {
    if inTime then Stands(out.0, out.1, out.2, FinishedSweeplessSweep) && |out.0.w.pushes| == |pushes| + 1
    else Stands(out.0, out.1, out.2, FinishedHtlcPreimageSweep) && out.0.w.pushes == pushes
  }

  /** From PushPreimage the swap finishes by its sweepless sweep, with one push, unless a
      recovery finds too little time left: then it finishes by the sweep of its HTLC,
      without a push. */
  lemma CalmPush(f: F, previous: St, ctx: Ctx)
    requires Lasts(f.w, 12)
    ensures var inTime := ctx.InitCtx? || TimeLeft(f.rec, f.w.tape[1].height);
            PushEnds(f.w.pushes, inTime, Enter(f, previous, PushPreimage, ctx))
  {
    CalmUpdate(f, previous, PushPreimage, 11);
    var f0 := Update(f, previous, PushPreimage);
    CalmPushed(f0, ctx);
    var (f1, ret) := PushPreimageAction(f0, ctx);
    if ctx.InitCtx? || TimeLeft(f.rec, f.w.tape[1].height) {
      EnterStep(f, previous, PushPreimage, ctx, f1, ret, WaitForSweeplessSweepConfirmed);
      CalmWait(f1, PushPreimage, ctx);
    } else {
      EnterStep(f, previous, PushPreimage, ctx, f1, ret, PublishHtlc);
      CalmHtlc(f1, PushPreimage, PublishHtlc, ctx);
    }
  }

  lemma CalmInit(f: F, ctx: Ctx)
    requires Creatable(ctx) && Lasts(f.w, 20)
    ensures var (f', ret) := InitAction(f, ctx);
            ret == Emit(OnInit) && Lasts(f'.w, 18) && f'.w.pushes == f.w.pushes
  {
    assert AllOk(f.w.tape[1..]) && AllOk(f.w.tape[1..][1..]);
  }

  /** If nothing goes wrong, a start that may be made finishes by its sweepless sweep,
      with one push of the preimage. */
  lemma CalmStart(ctx: Ctx, tape: seq<Tick>)
    requires Creatable(ctx) && |tape| >= 20 && AllOk(tape)
    ensures var (f, current, outcome) := Start(ctx, tape);
            Stands(f, current, outcome, FinishedSweeplessSweep) && |f.w.pushes| == 1
  {
    var f := F(NEW_REC, NEW_WORLD.(tape := tape));
    var f0 := Update(f, Empty, Init);
    CalmInit(f0, ctx);
    var (f1, ret) := InitAction(f0, ctx);
    EnterStep(f, Empty, Init, ctx, f1, ret, SendPaymentAndPollAccepted);
    var f2 := CalmStep(f1, Init, SendPaymentAndPollAccepted, ctx, 15);
    var f3 := CalmStep(f2, SendPaymentAndPollAccepted, BuildHtlc, ctx, 12);
    CalmPush(f3, BuildHtlc, ctx);
  }

  /** How a swap stands after a restart in which nothing goes wrong. A swap that has its
      signatures finishes: by its sweepless sweep if it waits for that, or has yet to push
      and there is time, and otherwise by the sweep of its HTLC; an earlier one that has a
      state is stored as failed. */
  predicate Resolves(w: World, height: int, f: F, current: St, outcome: Fsm.Outcome)
    requires w.store.Some?
  {
    match w.store.value.state
    case Empty => outcome == Fsm.Rejected && f.w.store == w.store
    case Init => f.w.pushes == w.pushes
    case SendPaymentAndPollAccepted => Stands(f, current, outcome, Failed)
    case BuildHtlc => Stands(f, current, outcome, Failed)
    case PushPreimage => PushEnds(w.pushes, TimeLeft(w.store.value, height), (f, current, outcome))
    case WaitForSweeplessSweepConfirmed => Stands(f, current, outcome, FinishedSweeplessSweep)
    case Failed => f.w.store == w.store
    case FinishedSweeplessSweep => f.w.store == w.store
    case FinishedHtlcPreimageSweep => f.w.store == w.store
    case _ => Stands(f, current, outcome, FinishedHtlcPreimageSweep)
  }

  lemma RecoverEnters(w: World, tape: seq<Tick>, s: St, next: St)
    requires w.store.Some? && s == w.store.value.state && !IsFinalState(s) && Edge(s, OnRecover) == Some(next)
    ensures Recover(w, tape) == Enter(F(w.store.value, Resumed(w, tape)), s, next, RecoverCtx)
  {
  }

  lemma CalmUnsigned(w: World, tape: seq<Tick>, s: St)
    requires w.store.Some? && s == w.store.value.state && |tape| >= 12 && AllOk(tape)
    requires s.Init? || s.SendPaymentAndPollAccepted? || s.BuildHtlc?
    ensures var (f, current, outcome) := Recover(w, tape); Resolves(w, tape[1].height, f, current, outcome)
  {
    var f := F(w.store.value, Resumed(w, tape));
    RecoverEnters(w, tape, s, Failed);
    if s.Init? {
      assert Enter(f, s, Failed, RecoverCtx) == Follow(Update(f, s, Failed), Failed, Some(Fsm.NoOp), RecoverCtx);
    } else {
      CalmFinish(f, s, Failed, RecoverCtx);
    }
  }

  lemma CalmUnpushed(w: World, tape: seq<Tick>, rec: Rec, out: (F, St, Fsm.Outcome))
    requires |tape| >= 12 && AllOk(tape)
    requires out == Enter(F(rec, Resumed(w, tape)), PushPreimage, PushPreimage, RecoverCtx)
    ensures PushEnds(w.pushes, TimeLeft(rec, tape[1].height), out)
  {
    CalmPush(F(rec, Resumed(w, tape)), PushPreimage, RecoverCtx);
  }

  lemma CalmUnconfirmed(w: World, tape: seq<Tick>, rec: Rec, out: (F, St, Fsm.Outcome))
    requires |tape| >= 12 && AllOk(tape) && Recorded(WaitForSweeplessSweepConfirmed, rec)
    requires out == Enter(F(rec, Resumed(w, tape)), WaitForSweeplessSweepConfirmed,
                          WaitForSweeplessSweepConfirmed, RecoverCtx)
    ensures Stands(out.0, out.1, out.2, FinishedSweeplessSweep)
  {
    CalmWait(F(rec, Resumed(w, tape)), WaitForSweeplessSweepConfirmed, RecoverCtx);
  }

  lemma CalmFallback(w: World, tape: seq<Tick>, s: St, next: St)
    requires w.store.Some? && s == w.store.value.state && RecordedWorld(w) && |tape| >= 12 && AllOk(tape)
    requires s.PublishHtlc? || s.PublishHtlcSweep? || s.WaitForHtlcSweepConfirmed? || s.FailedHtlcSweep?
    requires next == if s.FailedHtlcSweep? then PublishHtlcSweep else s
    ensures var (f, current, outcome) := Recover(w, tape); Stands(f, current, outcome, FinishedHtlcPreimageSweep)
  {
    RecoverEnters(w, tape, s, next);
    CalmHtlc(F(w.store.value, Resumed(w, tape)), s, next, RecoverCtx);
  }

  lemma CalmRecovery(w: World, tape: seq<Tick>)
    requires w.store.Some? && RecordedWorld(w) && |tape| >= 12 && AllOk(tape)
    ensures var (f, current, outcome) := Recover(w, tape); Resolves(w, tape[1].height, f, current, outcome)
  {
    var s := w.store.value.state;
    if s.Init? || s.SendPaymentAndPollAccepted? || s.BuildHtlc? {
      CalmUnsigned(w, tape, s);
    } else if s.PushPreimage? {
      RecoverEnters(w, tape, s, s);
      CalmUnpushed(w, tape, w.store.value, Recover(w, tape));
    } else if s.WaitForSweeplessSweepConfirmed? {
      RecoverEnters(w, tape, s, s);
      CalmUnconfirmed(w, tape, w.store.value, Recover(w, tape));
    } else if s.PublishHtlc? || s.PublishHtlcSweep? || s.WaitForHtlcSweepConfirmed? || s.FailedHtlcSweep? {
      CalmFallback(w, tape, s, if s.FailedHtlcSweep? then PublishHtlcSweep else s);
    }
  }
}
