/** The loop-out executor (loopout.go), its restarts, and its cost accounting.
    As for loop-in, every call and every select consumes one tick of a tape, and
    a process whose tape is empty is dead. */
module LoopOut {
  import opened Calls
  import opened Options
  import opened SwapStates

  const MIN_REVEAL_DELTA := 20

  /** The result of one off-chain payment; amounts in satoshis. */
  datatype PaymentResult = PaymentError | Succeeded(amount: int, fee: int) | Failed | Unexpected {
    predicate Failure() { !Succeeded? }
  }

  datatype Event =
    | Block(height: int)
    | HtlcConf(value: int)
    | SwapPayment
    | Prepayment
    | Timer
    | Track(succeeded: bool)
    | HtlcSpend(success: bool, fee: int)
    | StreamError
    | Quit

  datatype Tick = Tick(reply: Reply, event: Event)

  /** A handover of the HTLC to the sweeper at a value. The outside adds the height and
      the HTLC that it had reported to this life, whether it had reported the payment
      complete, the state durable at the call, the reply to it, and the replies to the
      next two calls, none if the process dies before. An unrevealed swap whose
      handover is acknowledged stores the reveal next, and then pushes the preimage. */
  datatype Sweep = Sweep(
    value: int, height: int, htlc: Option<int>, paid: bool, durable: SwapState,
    added: Reply, next: Option<Reply>, after: Option<Reply>)

  /** The reveal is not stored after the handover. */
  predicate Torn(s: Sweep) {
    !s.added.Ack? || s.next.None? || s.next.value.Refused?
  }

  /** The spend of the HTLC that the sweeper reported. */
  datatype Report = Report(success: bool, fee: int)

  /** What the process has registered for. */
  datatype Watch = Nothing | ForConf | ForSpend

  /** pushes holds the state that was durable at each preimage push. The last five
      are about this life: what it has registered for, the height last reported to
      it, the HTLC, the complete payment and the spend reported to it. */
  datatype World = World(
    tape: seq<Tick>,
    log: seq<LoopEvent>,
    sweeps: seq<Sweep>,
    pushes: seq<SwapState>,
    watch: Watch,
    height: int,
    confirmed: Option<int>,
    paid: bool,
    spent: Option<Report>)

  datatype Contract = Contract(amount: int, expiry: int, prepayAmount: int)

  /** How the payments of one life turn out; the tape says when they do. */
  datatype Payments = Payments(swap: PaymentResult, prepay: PaymentResult)

  /** The in-memory fields. A payment channel is closed once its result is taken. */
  datatype Swap = Swap(
    state: SwapState,
    cost: SwapCost,
    htlcTxKnown: bool,
    height: int,
    swapTaken: bool,
    prepayTaken: bool)

  datatype Run = Run(m: Swap, w: World)

  // ----- Calls that leave the process -----

  function Next(w: World): (World, Option<Tick>) {
    if w.tape == [] then (w, None) else (w.(tape := w.tape[1..]), Some(w.tape[0]))
  }

  function Query(w: World): (World, bool) {
    var (w1, t) := Next(w);
    (w1, t.None? || !t.value.reply.Ack?)
  }

  /** Registers for notifications, besides those of blocks and payments; true on failure. */
  function Register(w: World, watch: Watch): (World, bool) {
    var (w1, failed) := Query(w);
    (if failed then w1 else w1.(watch := watch), failed)
  }

  /** What a process that registered has been told by the event. */
  function Told(w: World, e: Event): World {
    match e
    case Block(h) => if w.watch.Nothing? then w else w.(height := h)
    case HtlcConf(value) => if w.watch.ForConf? && w.confirmed.None? then w.(confirmed := Some(value)) else w
    case Track(succeeded) => if w.watch.ForSpend? && succeeded then w.(paid := true) else w
    case HtlcSpend(success, fee) =>
      if w.watch.ForSpend? && w.spent.None? then w.(spent := Some(Report(success, fee))) else w
    case _ => w
  }

  /** One turn of a select loop. */
  function Turn(w: World): (World, Option<Event>) {
    var (w1, t) := Next(w);
    if t.None? then (w1, None) else (Told(w1, t.value.event), Some(t.value.event))
  }

  function Persist(r: Run): (Run, bool) {
    var (w1, t) := Next(r.w);
    if t.None? || t.value.reply.Refused? then (r.(w := w1), true)
    else
      var event := LoopEvent(r.m.state, r.m.cost, r.m.htlcTxKnown);
      (r.(w := w1.(log := w1.log + [event])), t.value.reply.Lost?)
  }

  /** The sweeper takes the HTLC at the value, or refuses. */
  function Handover(w: World, value: int): (World, Option<Reply>) {
    var (w1, t) := Next(w);
    if t.None? then (w1, None)
    else
      var sweep := Sweep(value, w1.height, w1.confirmed, w1.paid, LastState(w1.log), t.value.reply,
                         if |w1.tape| > 0 then Some(w1.tape[0].reply) else None,
                         if |w1.tape| > 1 then Some(w1.tape[1].reply) else None);
      (w1.(sweeps := w1.sweeps + [sweep]), Some(t.value.reply))
  }

  function AddSweep(r: Run, value: int): (Run, bool) {
    var (w1, reply) := Handover(r.w, value);
    (r.(w := w1), reply != Some(Ack))
  }

  /** Server errors on a push are only logged. */
  function PushPreimage(r: Run): Run {
    if !r.m.state.PreimageRevealed? then r
    else
      var (w1, t) := Next(r.w);
      if t.None? then r else r.(w := w1.(pushes := w1.pushes + [LastState(w1.log)]))
  }

  // ----- Payments -----

  function SetState(r: Run, s: SwapState): Run {
    r.(m := r.m.(state := s))
  }

  /** (swap, err) */
  function HandlePaymentResult(c: Contract, m: Swap, result: PaymentResult, swapPayment: bool): (Swap, bool) {
    match result
    case Succeeded(amount, fee) =>
      var server := if swapPayment then m.cost.server + c.prepayAmount + amount - c.amount else m.cost.server;
      (m.(cost := m.cost.(server := server, offchain := m.cost.offchain + fee)), false)
    case Unexpected => (m, true)
    case _ => (m, false)
  }

  /** Takes a result from its channel, which is closed with it; a closed channel
      delivers nothing. (swap, the result if one was taken, err) */
  function Receive(c: Contract, p: Payments, m: Swap, swapPayment: bool): (Swap, Option<PaymentResult>, bool) {
    if swapPayment && !m.swapTaken then
      var (m1, err) := HandlePaymentResult(c, m.(swapTaken := true), p.swap, true);
      (m1, Some(p.swap), err)
    else if !swapPayment && !m.prepayTaken then
      var (m1, err) := HandlePaymentResult(c, m.(prepayTaken := true), p.prepay, false);
      (m1, Some(p.prepay), err)
    else (m, None, false)
  }

  // ----- Waiting for the HTLC -----

  datatype HtlcWait = Confirmed(value: int) | Aborted | WaitError

  predicate RevealHeightExceeded(c: Contract, m: Swap) {
    m.height > c.expiry - MIN_REVEAL_DELTA
  }

  /** The select loop of a swap that has not revealed its preimage. */
  function AwaitUnrevealed(c: Contract, p: Payments, r: Run): (Run, HtlcWait)
    decreases |r.w.tape|, 0
  {
    var (w1, e) := Turn(r.w);
    if e.None? then (r, WaitError)
    else
      var r1 := r.(w := w1);
      match e.value
      case SwapPayment => AwaitPayment(c, p, r1, true)
      case Prepayment => AwaitPayment(c, p, r1, false)
      case HtlcConf(value) => (r1.(m := r1.m.(htlcTxKnown := true)), Confirmed(value))
      case Block(h) =>
        var r2 := r1.(m := r1.m.(height := h));
        if RevealHeightExceeded(c, r2.m) then (SetState(r2, FailTimeout), Aborted) else AwaitUnrevealed(c, p, r2)
      case StreamError => (r1, WaitError)
      case Quit => (r1, WaitError)
      case _ => AwaitUnrevealed(c, p, r1)
  }

  function AwaitPayment(c: Contract, p: Payments, r: Run, swapPayment: bool): (Run, HtlcWait)
    decreases |r.w.tape|, 1
  {
    var (m1, result, err) := Receive(c, p, r.m, swapPayment);
    var r1 := r.(m := m1);
    if err then (r1, WaitError)
    else if result.Some? && result.value.Failure() then
      (SetState(r1, FailOffchainPayments).(w := Query(r1.w).0), Aborted)
    else AwaitUnrevealed(c, p, r1)
  }

  /** After a reveal only the confirmation matters. */
  function AwaitRevealed(r: Run): (Run, HtlcWait)
    decreases |r.w.tape|
  {
    var (w1, e) := Turn(r.w);
    if e.None? then (r, WaitError)
    else
      var r1 := r.(w := w1);
      match e.value
      case HtlcConf(value) => (r1.(m := r1.m.(htlcTxKnown := true)), Confirmed(value))
      case StreamError => (r1, WaitError)
      case Quit => (r1, WaitError)
      case _ => AwaitRevealed(r1)
  }

  function WaitForConfirmedHtlc(c: Contract, p: Payments, r: Run): (Run, HtlcWait) {
    var (w1, failed) := Register(r.w, ForConf);
    var r1 := r.(w := w1);
    if failed then (r1, WaitError)
    else if !r.m.state.Initiated? then AwaitRevealed(r1)
    else if RevealHeightExceeded(c, r1.m) then (SetState(r1, FailTimeout), Aborted)
    else AwaitUnrevealed(c, p, r1)
  }

  // ----- Sweeping -----

  datatype SpendWait = Spent(success: bool, fee: int) | TimedOut | SpendError

  predicate CanSweep(c: Contract, m: Swap) {
    c.expiry - m.height - MIN_REVEAL_DELTA > 0 || m.state.PreimageRevealed?
  }

  /** Marks the swap revealed once its sweep is handed over; true on failure. */
  function SetStatePreimageRevealed(r: Run): (Run, bool) {
    if r.m.state.PreimageRevealed? then (r, false) else Persist(SetState(r, PreimageRevealed))
  }

  /** Hands the sweep over and stores the reveal; true on failure. */
  function Reveal(r: Run, value: int): (out: (Run, bool))
    ensures |out.0.w.tape| <= |r.w.tape|
  {
    var (r1, err) := AddSweep(r, value);
    if err then (r1, true) else SetStatePreimageRevealed(r1)
  }

  /** The preimage is pushed for as long as the off-chain payment is incomplete. */
  function RevealAndPush(r: Run, value: int, paymentComplete: bool): (out: (Run, bool))
    ensures |out.0.w.tape| <= |r.w.tape|
    ensures out.0.m == r.m.(state := out.0.m.state) && out.0.w.spent == r.w.spent
  {
    var (r1, err) := Reveal(r, value);
    (if err || paymentComplete then r1 else PushPreimage(r1), err)
  }

  function WaitForSpend(c: Contract, r: Run, value: int, paymentComplete: bool): (Run, SpendWait)
    decreases |r.w.tape|, 0
  {
    var (w1, e) := Turn(r.w);
    if e.None? then (r, SpendError)
    else
      var r1 := r.(w := w1);
      match e.value
      case HtlcSpend(success, fee) => (r1, Spent(success, fee))
      case Track(succeeded) => WaitForSpend(c, r1, value, paymentComplete || succeeded)
      case Block(h) => WaitForSpend(c, r1.(m := r1.m.(height := h)), value, paymentComplete)
      case Timer => TrySweep(c, r1, value, paymentComplete)
      case StreamError => (r1, SpendError)
      case Quit => (r1, SpendError)
      case _ => WaitForSpend(c, r1, value, paymentComplete)
  }

  /** The timer fired. */
  function TrySweep(c: Contract, r: Run, value: int, paymentComplete: bool): (Run, SpendWait)
    decreases |r.w.tape|, 1
  {
    if !CanSweep(c, r.m) then (Persist(SetState(r, FailTimeout)).0, TimedOut)
    else
      var (r1, err) := RevealAndPush(r, value, paymentComplete);
      if err then (r1, SpendError) else WaitForSpend(c, r1, value, paymentComplete)
  }

  function SweepHtlc(c: Contract, r: Run, value: int): (Run, bool) {
    if !r.m.state.PreimageRevealed? && value < c.amount then (SetState(r, FailInsufficientValue), false)
    else
      var (w1, failed) := Register(r.w, ForSpend);
      if failed then (r.(w := w1), true)
      else
        var (r1, wait) := WaitForSpend(c, r.(w := w1), value, false);
        Settle(r1, wait)
  }

  /** The spend decides the final state; true on failure. */
  function Settle(r: Run, wait: SpendWait): (Run, bool) {
    match wait
    case SpendError => (r, true)
    case TimedOut => (r, false)
    case Spent(success, fee) =>
      if success then (r.(m := r.m.(state := Success, cost := r.m.cost.(onchain := fee))), false)
      else (SetState(r, FailSweepTimeout), false)
  }

  // ----- The whole execution -----

  /** Both invoices are paid again in every run; true on failure. */
  function ExecuteSwap(c: Contract, p: Payments, r: Run): (Run, bool) {
    var (w1, failed) := Query(r.w);
    if failed then (r.(w := w1), true)
    else
      var (r1, wait) := WaitForConfirmedHtlc(c, p, r.(w := w1));
      match wait
      case WaitError => (r1, true)
      case Aborted => (r1, false)
      case Confirmed(value) => SweepHtlc(c, r1, value)
  }

  /** Collects the payments that are still outstanding; true on failure. */
  function AwaitPayments(c: Contract, p: Payments, r: Run): (Run, bool)
    decreases |r.w.tape|
  {
    if r.m.swapTaken && r.m.prepayTaken then (r, false)
    else
      var (w1, e) := Turn(r.w);
      if e.None? || e.value.Quit? then (r.(w := w1), true)
      else if e.value.SwapPayment? || e.value.Prepayment? then
        var (m1, _, err) := Receive(c, p, r.m, e.value.SwapPayment?);
        if err then (Run(m1, w1), true) else AwaitPayments(c, p, Run(m1, w1))
      else AwaitPayments(c, p, r.(w := w1))
  }

  function ExecuteAndFinalize(c: Contract, p: Payments, r: Run): (Run, bool) {
    var (w0, failed) := Query(r.w);
    if failed then (r.(w := w0), true)
    else
      var (r1, err1) := ExecuteSwap(c, p, r.(w := w0));
      if err1 || r1.m.state.IsPending() then (r1, true)
      else
        var (r2, err2) := AwaitPayments(c, p, Unwatched(r1));
        if err2 then (r2, true) else Persist(r2)
  }

  /** The registrations end with executeSwap. */
  function Unwatched(r: Run): Run {
    r.(w := r.w.(watch := Nothing))
  }

  // ----- Restarts -----

  /** resumeLoopOutSwap restores the state only; costs are counted afresh. */
  function Resume(log: seq<LoopEvent>, height: int): Swap {
    Swap(LastState(log), NO_COST, false, height, false, false)
  }

  datatype Life = Life(tape: seq<Tick>, height: int, payments: Payments)

  /** The outside at the start of a life. */
  function Started(w: World, tape: seq<Tick>, height: int): World {
    w.(tape := tape, watch := Nothing, height := height, confirmed := None, paid := false, spent := None)
  }

  function Live(c: Contract, w: World, life: Life): World {
    if LastState(w.log).IsFinal() then w
    else
      var w0 := Started(w, life.tape, life.height);
      ExecuteAndFinalize(c, life.payments, Run(Resume(w.log, life.height), w0)).0.w
  }

  function Lives(c: Contract, w: World, lives: seq<Life>): World
    decreases |lives|
  {
    if lives == [] then w else Lives(c, Live(c, w, lives[0]), lives[1..])
  }

  const NEW_SWAP := World([], [], [], [], Nothing, 0, None, false, None)

  // ----- Reveal safety -----

  predicate NoReveal(s: SwapState) {
    s.FailTimeout? || s.FailOffchainPayments? || s.FailInsufficientValue?
  }

  /** More than 20 blocks before the expiry, by the height last reported, and of an HTLC
      that was reported with enough value. */
  predicate InTime(c: Contract, s: Sweep) {
    c.expiry - s.height > 20 && s.htlc == Some(s.value) && s.value >= c.amount
  }

  /** The reveal is, or was, durable. */
  predicate Revealed(log: seq<LoopEvent>) {
    log != [] && (log[|log| - 1].state.PreimageRevealed? || Revealed(log[..|log| - 1]))
  }

  /** Some handover was not torn. */
  predicate Untorn(sweeps: seq<Sweep>) {
    sweeps != [] && (!Torn(sweeps[|sweeps| - 1]) || Untorn(sweeps[..|sweeps| - 1]))
  }

  /** Every handover is in time or follows a durable reveal; the first does not. */
  predicate SweepsSafe(c: Contract, sweeps: seq<Sweep>) {
    sweeps == [] || (
      var last := sweeps[|sweeps| - 1];
      && (InTime(c, last) || (last.durable.PreimageRevealed? && |sweeps| > 1))
      && SweepsSafe(c, sweeps[..|sweeps| - 1]))
  }

  predicate PushesSafe(pushes: seq<SwapState>) {
    pushes == [] || (pushes[|pushes| - 1].PreimageRevealed? && PushesSafe(pushes[..|pushes| - 1]))
  }

  /** After this handover the preimage is to be pushed: the payment is not known to be
      complete, the handover and the store call that it leads to were acknowledged, and
      the process lives to make one more call. */
  predicate PushDue(s: Sweep) {
    && !s.paid && s.added.Ack?
    && (if s.durable.PreimageRevealed? then s.next.Some? else s.next == Some(Ack) && s.after.Some?)
  }

  function DueAfter(sweeps: seq<Sweep>): nat {
    if sweeps == [] then 0
    else DueAfter(sweeps[..|sweeps| - 1]) + (if PushDue(sweeps[|sweeps| - 1]) then 1 else 0)
  }

  /** Sound, up to the pushes that are due. */
  predicate Sound(c: Contract, w: World) {
    && SweepsSafe(c, w.sweeps) && PushesSafe(w.pushes)
    && (Revealed(w.log) <==> Untorn(w.sweeps))
    && (!Revealed(w.log) ==> w.pushes == [])
    && Outcome(LastState(w.log), Revealed(w.log))
  }

  predicate WorldSafe(c: Contract, w: World) {
    Sound(c, w) && |w.pushes| == DueAfter(w.sweeps)
  }

  lemma RevealGrows(log: seq<LoopEvent>, e: LoopEvent)
    ensures Revealed(log + [e]) <==> Revealed(log) || e.state.PreimageRevealed?
  {
    assert (log + [e])[..|log|] == log;
  }

  lemma SweepsGrow(c: Contract, sweeps: seq<Sweep>, s: Sweep)
    ensures Untorn(sweeps + [s]) <==> Untorn(sweeps) || !Torn(s)
    ensures SweepsSafe(c, sweeps + [s]) <==>
              SweepsSafe(c, sweeps) && (InTime(c, s) || (s.durable.PreimageRevealed? && sweeps != []))
    ensures DueAfter(sweeps + [s]) == DueAfter(sweeps) + (if PushDue(s) then 1 else 0)
  {
    assert (sweeps + [s])[..|sweeps|] == sweeps;
  }

  lemma PushesGrow(pushes: seq<SwapState>, s: SwapState)
    ensures PushesSafe(pushes + [s]) <==> PushesSafe(pushes) && s.PreimageRevealed?
  {
    assert (pushes + [s])[..|pushes|] == pushes;
  }

  function ServerCost(c: Contract, swapPaid: PaymentResult): int {
    if swapPaid.Succeeded? then c.prepayAmount + swapPaid.amount - c.amount else 0
  }

  function RoutingFee(paid: PaymentResult): int {
    if paid.Succeeded? then paid.fee else 0
  }

  /** The costs are those of the payment results taken so far, whatever their order. */
  predicate Books(c: Contract, p: Payments, m: Swap) {
    && m.cost.server == (if m.swapTaken then ServerCost(c, p.swap) else 0)
    && m.cost.offchain == (if m.swapTaken then RoutingFee(p.swap) else 0)
                          + (if m.prepayTaken then RoutingFee(p.prepay) else 0)
  }

  /** No result that was taken is in an unexpected state. */
  predicate Usual(p: Payments, m: Swap) {
    (m.swapTaken ==> !p.swap.Unexpected?) && (m.prepayTaken ==> !p.prepay.Unexpected?)
  }

  /** The states a swap can be in, depending on whether its reveal is durable. */
  predicate Outcome(s: SwapState, revealed: bool) {
    if revealed then s.PreimageRevealed? || s.Success? || s.FailSweepTimeout?
    else s.Initiated? || NoReveal(s) || s.Success? || s.FailSweepTimeout?
  }

  predicate Sane(c: Contract, p: Payments, r: Run) {
    && Sound(c, r.w)
    && Books(c, p, r.m)
    && Outcome(r.m.state, Revealed(r.w.log))
    && (r.m.state.IsPending() ==> LastState(r.w.log) == r.m.state)
    && (r.m.state.Initiated? ==> r.m.height == r.w.height)
  }

  predicate Safe(c: Contract, p: Payments, r: Run) {
    Sane(c, p, r) && |r.w.pushes| == DueAfter(r.w.sweeps)
  }

  /** Safe, and not forgetting a reveal. */
  predicate Progress(c: Contract, w: World, w': World) {
    WorldSafe(c, w') && (Revealed(w.log) ==> Revealed(w'.log))
  }

  lemma PersistSafe(c: Contract, p: Payments, r: Run)
    requires Safe(c, p, r)
    ensures Safe(c, p, Persist(r).0) && Progress(c, r.w, Persist(r).0.w)
  {
    RevealGrows(r.w.log, LoopEvent(r.m.state, r.m.cost, r.m.htlcTxKnown));
  }

  /** What the outside knows of a handover. */
  lemma SweepAdded(r: Run, value: int)
    requires r.w.tape != []
    ensures var (r', err) := AddSweep(r, value);
            && |r'.w.sweeps| == |r.w.sweeps| + 1
            && r' == r.(w := r.w.(tape := r.w.tape[1..], sweeps := r'.w.sweeps))
            && var s := r'.w.sweeps[|r.w.sweeps|];
               && r'.w.sweeps == r.w.sweeps + [s] && s.value == value && s.height == r.w.height
               && s.htlc == r.w.confirmed && s.paid == r.w.paid && s.durable == LastState(r.w.log)
               && (err <==> !s.added.Ack?)
               && (s.next == if |r'.w.tape| > 0 then Some(r'.w.tape[0].reply) else None)
               && (s.after.Some? <==> |r'.w.tape| > 1)
  {
  }

  lemma RevealStored(r: Run)
    requires r.m.state.Initiated?
    ensures var (r', err) := SetStatePreimageRevealed(r);
            && r'.m == r.m.(state := PreimageRevealed)
            && r' == r'.(w := r.w.(tape := r'.w.tape, log := r'.w.log))
            && (err <==> r.w.tape == [] || !r.w.tape[0].reply.Ack?)
            && (!err ==> r'.w.tape == r.w.tape[1..])
            && r'.w.log == (if r.w.tape == [] || r.w.tape[0].reply.Refused? then r.w.log
                            else r.w.log + [LoopEvent(PreimageRevealed, r.m.cost, r.m.htlcTxKnown)])
  {
  }

  /** A handover by an unrevealed swap: the reveal is durable exactly if it is not torn. */
  lemma FirstReveal(r: Run, value: int)
    requires r.m.state.Initiated? && LastState(r.w.log) == Initiated && r.w.tape != []
    ensures var (r', err) := Reveal(r, value);
            && |r'.w.sweeps| == |r.w.sweeps| + 1 && r'.w.pushes == r.w.pushes && r'.w.paid == r.w.paid
            && var s := r'.w.sweeps[|r.w.sweeps|];
               && r'.w.sweeps == r.w.sweeps + [s]
               && s.height == r.w.height && s.htlc == r.w.confirmed && s.value == value && s.paid == r.w.paid
               && s.durable == Initiated
               && r'.w.log == (if Torn(s) then r.w.log
                               else r.w.log + [LoopEvent(PreimageRevealed, r.m.cost, r.m.htlcTxKnown)])
               && (err <==> !s.added.Ack? || s.next != Some(Ack))
               && (!err ==> r'.m == r.m.(state := PreimageRevealed) && (s.after.Some? <==> r'.w.tape != []))
  {
    SweepAdded(r, value);
    RevealStored(AddSweep(r, value).0);
  }

  /** A handover by a revealed swap. */
  lemma NextReveal(r: Run, value: int)
    requires r.m.state.PreimageRevealed? && LastState(r.w.log) == PreimageRevealed && r.w.tape != []
    ensures var (r', err) := Reveal(r, value);
            && |r'.w.sweeps| == |r.w.sweeps| + 1
            && r' == r.(w := r.w.(tape := r.w.tape[1..], sweeps := r'.w.sweeps))
            && var s := r'.w.sweeps[|r.w.sweeps|];
               && r'.w.sweeps == r.w.sweeps + [s] && s.paid == r.w.paid && s.durable == PreimageRevealed
               && (err <==> !s.added.Ack?) && (s.next.Some? <==> r'.w.tape != [])
  {
    SweepAdded(r, value);
  }

  /** A handover in time that stores the reveal exactly if it is not torn. */
  lemma HandedOver(c: Contract, w: World, w': World, s: Sweep, e: LoopEvent)
    requires WorldSafe(c, w) && LastState(w.log) == Initiated && InTime(c, s) && e.state.PreimageRevealed?
    requires w'.sweeps == w.sweeps + [s] && w'.pushes == w.pushes
    requires w'.log == if Torn(s) then w.log else w.log + [e]
    ensures Sound(c, w') && (Revealed(w.log) ==> Revealed(w'.log)) && (!Torn(s) ==> Revealed(w'.log))
    ensures DueAfter(w'.sweeps) == |w'.pushes| + (if PushDue(s) then 1 else 0)
  {
    SweepsGrow(c, w.sweeps, s);
    RevealGrows(w.log, e);
  }

  /** What a handover leaves: after a success, a push is due unless the payment is known
      to be complete or the process is dead. */
  predicate Handed(c: Contract, p: Payments, r: Run, r': Run, err: bool) {
    && Sound(c, r'.w) && (Revealed(r.w.log) ==> Revealed(r'.w.log)) && r'.w.paid == r.w.paid
    && DueAfter(r'.w.sweeps) == |r'.w.pushes| + (if !err && !r.w.paid && r'.w.tape != [] then 1 else 0)
    && (!err ==> Sane(c, p, r') && r'.m.state.PreimageRevealed?)
  }

  lemma FirstRevealSafe(c: Contract, p: Payments, r: Run, value: int)
    requires Safe(c, p, r) && r.m.state.Initiated? && CanSweep(c, r.m)
    requires r.w.confirmed == Some(value) && value >= c.amount
    ensures var (r', err) := Reveal(r, value); Handed(c, p, r, r', err)
  {
    if r.w.tape != [] {
      FirstReveal(r, value);
      var w' := Reveal(r, value).0.w;
      var e := LoopEvent(PreimageRevealed, r.m.cost, r.m.htlcTxKnown);
      HandedOver(c, r.w, w', w'.sweeps[|r.w.sweeps|], e);
    }
  }

  lemma AgainSafe(c: Contract, p: Payments, r: Run, value: int)
    requires Safe(c, p, r) && r.m.state.PreimageRevealed?
    ensures var (r', err) := Reveal(r, value); Handed(c, p, r, r', err)
  {
    if r.w.tape != [] {
      NextReveal(r, value);
      SweepsGrow(c, r.w.sweeps, Reveal(r, value).0.w.sweeps[|r.w.sweeps|]);
    }
  }

  lemma RevealSafe(c: Contract, p: Payments, r: Run, value: int)
    requires Safe(c, p, r) && r.m.state.IsPending() && CanSweep(c, r.m)
    requires r.m.state.Initiated? ==> r.w.confirmed == Some(value) && value >= c.amount
    ensures var (r', err) := Reveal(r, value); Handed(c, p, r, r', err)
  {
    if r.m.state.Initiated? {
      FirstRevealSafe(c, p, r, value);
    } else {
      AgainSafe(c, p, r, value);
    }
  }

  /** The push follows the stored reveal. */
  lemma PushSafe(c: Contract, p: Payments, r: Run)
    requires Sane(c, p, r) && r.m.state.PreimageRevealed?
    ensures var r' := PushPreimage(r);
            && Sane(c, p, r') && r'.w.log == r.w.log && r'.w.sweeps == r.w.sweeps && r'.m == r.m
            && |r'.w.pushes| == |r.w.pushes| + (if r.w.tape != [] then 1 else 0)
  {
    PushesGrow(r.w.pushes, LastState(r.w.log));
  }

  lemma RevealAndPushSafe(c: Contract, p: Payments, r: Run, value: int, paymentComplete: bool)
    requires Safe(c, p, r) && r.m.state.IsPending() && CanSweep(c, r.m) && paymentComplete == r.w.paid
    requires r.m.state.Initiated? ==> r.w.confirmed == Some(value) && value >= c.amount
    ensures var (r', err) := RevealAndPush(r, value, paymentComplete);
            Progress(c, r.w, r'.w) && (!err ==> Safe(c, p, r') && r'.m.state.PreimageRevealed?)
  {
    RevealSafe(c, p, r, value);
    var (r1, err) := Reveal(r, value);
    if !err && !paymentComplete {
      PushSafe(c, p, r1);
    }
  }

  /** Nothing was revealed in between. */
  predicate Silent(w: World, w': World) {
    w'.sweeps == w.sweeps && w'.pushes == w.pushes
  }

  /** The wait for the spend has registered, with what was reported before. */
  predicate Watching(c: Contract, r: Run, value: int, paymentComplete: bool) {
    && r.w.watch.ForSpend? && r.w.confirmed == Some(value) && paymentComplete == r.w.paid && r.w.spent.None?
    && (r.m.state.Initiated? ==> value >= c.amount)
  }

  /** What the outside has reported, and the height that the swap knows, is the same. */
  predicate SameReports(r: Run, r': Run) {
    && r'.w.watch == r.w.watch && r'.w.confirmed == r.w.confirmed && r'.w.paid == r.w.paid
    && r'.w.height == r.w.height && r'.w.spent == r.w.spent && r'.m.height == r.m.height
  }

  lemma RevealReports(r: Run, value: int)
    ensures SameReports(r, Reveal(r, value).0)
  {
    if r.w.tape != [] {
      SweepAdded(r, value);
      var r1 := AddSweep(r, value).0;
      if r.m.state.Initiated? {
        RevealStored(r1);
      }
    }
  }

  lemma PushReports(r: Run)
    ensures SameReports(r, PushPreimage(r))
  {
  }

  lemma RevealAndPushReports(r: Run, value: int, paymentComplete: bool)
    ensures SameReports(r, RevealAndPush(r, value, paymentComplete).0)
  {
    RevealReports(r, value);
    PushReports(Reveal(r, value).0);
  }

  /** Only a swap that never revealed gives up at the timer, and only when no more than
      20 blocks are left by the height last reported. */
  predicate SpendOk(c: Contract, p: Payments, r: Run, r': Run, wait: SpendWait) {
    && Progress(c, r.w, r'.w)
    && (!wait.SpendError? ==> Safe(c, p, r'))
    && (wait.Spent? ==> r'.m.state.IsPending() && r'.w.spent == Some(Report(wait.success, wait.fee)))
    && (wait.TimedOut? ==>
          && r.m.state.Initiated? && r'.m.state.FailTimeout? && Silent(r.w, r'.w) && r'.w.spent.None?
          && c.expiry - r'.w.height <= 20 && r'.m.height == r'.w.height)
  }

  /** The timer fires with 20 blocks or less to go by the height last reported: an
      unrevealed swap gives up, and hands nothing over. */
  lemma TimedOutSafe(c: Contract, p: Payments, r: Run, value: int, paymentComplete: bool)
    requires Safe(c, p, r) && r.m.state.Initiated? && r.w.spent.None? && c.expiry - r.w.height <= 20
    ensures var (r', wait) := TrySweep(c, r, value, paymentComplete); wait.TimedOut? && SpendOk(c, p, r, r', wait)
  {
    PersistSafe(c, p, SetState(r, FailTimeout));
  }

  lemma {:induction false} TrySweepSafe(c: Contract, p: Payments, r: Run, value: int, paymentComplete: bool)
    requires Safe(c, p, r) && r.m.state.IsPending() && Watching(c, r, value, paymentComplete)
    ensures var (r', wait) := TrySweep(c, r, value, paymentComplete); SpendOk(c, p, r, r', wait)
    decreases |r.w.tape|, 1
  {
    if r.m.state.Initiated? && c.expiry - r.w.height <= 20 {
      TimedOutSafe(c, p, r, value, paymentComplete);
    } else {
      RevealAndPushSafe(c, p, r, value, paymentComplete);
      RevealAndPushReports(r, value, paymentComplete);
      var (r1, err) := RevealAndPush(r, value, paymentComplete);
      if !err {
        SpendSafe(c, p, r1, value, paymentComplete);
        SpendOkAfter(c, p, r, r1, TrySweep(c, r, value, paymentComplete).0, TrySweep(c, r, value, paymentComplete).1);
      }
    }
  }

  /** Once revealed, the wait never times out. */
  lemma SpendOkAfter(c: Contract, p: Payments, r: Run, r1: Run, r': Run, wait: SpendWait)
    requires SpendOk(c, p, r1, r', wait) && r1.m.state.PreimageRevealed? && Progress(c, r.w, r1.w)
    ensures SpendOk(c, p, r, r', wait)
  {
  }

  /** A turn of the wait that goes on: what the event reports is what the swap knows. */
  lemma TurnSafe(c: Contract, p: Payments, r: Run, value: int, paymentComplete: bool, r': Run, paymentComplete': bool)
    requires Safe(c, p, r) && r.m.state.IsPending() && Watching(c, r, value, paymentComplete) && r.w.tape != []
    requires var e := r.w.tape[0].event;
             && !e.HtlcSpend?
             && r' == Run(Heard(r.m, e), Turn(r.w).0)
             && paymentComplete' == (paymentComplete || (e.Track? && e.succeeded))
    ensures Safe(c, p, r') && Watching(c, r', value, paymentComplete') && r'.w.log == r.w.log && Silent(r.w, r'.w)
  {
    TurnTells(r.w);
  }

  lemma TurnTells(w: World)
    requires w.tape != [] && w.watch.ForSpend? && !w.tape[0].event.HtlcSpend?
    ensures var e, w' := w.tape[0].event, Turn(w).0;
            w' == w.(tape := w'.tape, height := if e.Block? then e.height else w.height,
                     paid := w.paid || (e.Track? && e.succeeded))
  {
  }

  lemma SpendOkFrom(c: Contract, p: Payments, r: Run, r1: Run, r': Run, wait: SpendWait)
    requires SpendOk(c, p, r1, r', wait) && r1.m.state == r.m.state && r1.w.log == r.w.log && Silent(r.w, r1.w)
    ensures SpendOk(c, p, r, r', wait)
  {
  }

  predicate Stops(e: Event) {
    e.HtlcSpend? || e.StreamError? || e.Quit?
  }

  /** The swap after a turn that does not end the wait. */
  function Heard(m: Swap, e: Event): Swap {
    if e.Block? then m.(height := e.height) else m
  }

  lemma SpendStep(c: Contract, r: Run, value: int, paymentComplete: bool, e: Event, r1: Run, complete: bool)
    requires r.w.tape != [] && e == r.w.tape[0].event && !Stops(e) && r1 == Run(Heard(r.m, e), Turn(r.w).0)
    requires complete == (paymentComplete || (e.Track? && e.succeeded))
    ensures WaitForSpend(c, r, value, paymentComplete) ==
            if e.Timer? then TrySweep(c, r1, value, complete) else WaitForSpend(c, r1, value, complete)
    ensures |r1.w.tape| < |r.w.tape|
  {
  }

  lemma {:induction false} SpendSafe(c: Contract, p: Payments, r: Run, value: int, paymentComplete: bool)
    requires Safe(c, p, r) && r.m.state.IsPending() && Watching(c, r, value, paymentComplete)
    ensures var (r', wait) := WaitForSpend(c, r, value, paymentComplete); SpendOk(c, p, r, r', wait)
    decreases |r.w.tape|, 0
  {
    if r.w.tape != [] {
      var e := r.w.tape[0].event;
      if Stops(e) {
        StopSafe(c, p, r, value, paymentComplete);
      } else {
        var r1 := Run(Heard(r.m, e), Turn(r.w).0);
        var complete := paymentComplete || (e.Track? && e.succeeded);
        SpendStep(c, r, value, paymentComplete, e, r1, complete);
        TurnSafe(c, p, r, value, paymentComplete, r1, complete);
        if e.Timer? {
          TrySweepSafe(c, p, r1, value, complete);
        } else {
          SpendSafe(c, p, r1, value, complete);
        }
        var (r', wait) := WaitForSpend(c, r, value, paymentComplete);
        SpendOkFrom(c, p, r, r1, r', wait);
      }
    }
  }

  /** The turns that end the wait: the spend is answered as it was reported. */
  lemma StopSafe(c: Contract, p: Payments, r: Run, value: int, paymentComplete: bool)
    requires Safe(c, p, r) && r.m.state.IsPending() && Watching(c, r, value, paymentComplete) && r.w.tape != []
    requires Stops(r.w.tape[0].event)
    ensures var (r', wait) := WaitForSpend(c, r, value, paymentComplete); SpendOk(c, p, r, r', wait)
  {
    var e := r.w.tape[0].event;
    if e.HtlcSpend? {
      assert WaitForSpend(c, r, value, paymentComplete) == (r.(w := Turn(r.w).0), Spent(e.success, e.fee));
    } else {
      assert WaitForSpend(c, r, value, paymentComplete) == (r.(w := Turn(r.w).0), SpendError);
    }
  }

  lemma {:induction false} TrySweepHandsOver(c: Contract, r: Run, value: int, paymentComplete: bool)
    ensures |TrySweep(c, r, value, paymentComplete).0.w.sweeps| >= |RevealAndPush(r, value, paymentComplete).0.w.sweeps|
            || !CanSweep(c, r.m)
    ensures |TrySweep(c, r, value, paymentComplete).0.w.sweeps| >= |r.w.sweeps|
    decreases |r.w.tape|, 1
  {
    RevealAndPushAdds(r, value, paymentComplete);
    var (r1, err) := RevealAndPush(r, value, paymentComplete);
    if CanSweep(c, r.m) && !err {
      SweepsStay(c, r1, value, paymentComplete);
    }
  }

  lemma RevealAndPushAdds(r: Run, value: int, paymentComplete: bool)
    ensures |RevealAndPush(r, value, paymentComplete).0.w.sweeps| == |r.w.sweeps| + (if r.w.tape == [] then 0 else 1)
  {
    if r.w.tape != [] {
      SweepAdded(r, value);
    }
  }

  lemma {:induction false} SweepsStay(c: Contract, r: Run, value: int, paymentComplete: bool)
    ensures |WaitForSpend(c, r, value, paymentComplete).0.w.sweeps| >= |r.w.sweeps|
    decreases |r.w.tape|, 0
  {
    if r.w.tape != [] {
      var e := r.w.tape[0].event;
      if !Stops(e) {
        var r1 := Run(Heard(r.m, e), Turn(r.w).0);
        var complete := paymentComplete || (e.Track? && e.succeeded);
        SpendStep(c, r, value, paymentComplete, e, r1, complete);
        if e.Timer? {
          TrySweepHandsOver(c, r1, value, complete);
        } else {
          SweepsStay(c, r1, value, complete);
        }
      }
    }
  }

  /** Whenever the timer fires and the swap has revealed, or more than 20 blocks are
      left by the height last reported, the HTLC is handed over, if the process lives. */
  lemma TimerHandsOver(c: Contract, p: Payments, r: Run, value: int, paymentComplete: bool)
    requires Safe(c, p, r) && r.m.state.IsPending() && Watching(c, r, value, paymentComplete)
    requires |r.w.tape| >= 2 && r.w.tape[0].event.Timer?
    requires r.m.state.PreimageRevealed? || c.expiry - r.w.height > 20
    ensures |WaitForSpend(c, r, value, paymentComplete).0.w.sweeps| > |r.w.sweeps|
  {
    var r1 := Run(r.m, Turn(r.w).0);
    SpendStep(c, r, value, paymentComplete, Timer, r1, paymentComplete);
    TurnTells(r.w);
    RevealAndPushAdds(r1, value, paymentComplete);
    TrySweepHandsOver(c, r1, value, paymentComplete);
  }

  /** The costs, and what is known of the HTLC, are the same. */
  predicate SameCosts(r: Run, r': Run) {
    && r'.m.cost == r.m.cost && r'.m.swapTaken == r.m.swapTaken && r'.m.prepayTaken == r.m.prepayTaken
    && r'.m.htlcTxKnown == r.m.htlcTxKnown && r'.w.confirmed == r.w.confirmed
  }

  lemma {:induction false} TrySweepCosts(c: Contract, r: Run, value: int, paymentComplete: bool)
    requires r.w.watch.ForSpend?
    ensures SameCosts(r, TrySweep(c, r, value, paymentComplete).0)
    decreases |r.w.tape|, 1
  {
    RevealAndPushReports(r, value, paymentComplete);
    var (r1, err) := RevealAndPush(r, value, paymentComplete);
    if CanSweep(c, r.m) && !err {
      SpendCosts(c, r1, value, paymentComplete);
    }
  }

  /** The wait for the spend leaves the costs alone. */
  lemma {:induction false} SpendCosts(c: Contract, r: Run, value: int, paymentComplete: bool)
    requires r.w.watch.ForSpend?
    ensures SameCosts(r, WaitForSpend(c, r, value, paymentComplete).0)
    decreases |r.w.tape|, 0
  {
    if r.w.tape != [] {
      var r1 := r.(w := Turn(r.w).0);
      match r.w.tape[0].event
      case Timer => TrySweepCosts(c, r1, value, paymentComplete);
      case Track(succeeded) => SpendCosts(c, r1, value, paymentComplete || succeeded);
      case Block(h) => SpendCosts(c, r1.(m := r1.m.(height := h)), value, paymentComplete);
      case HtlcSpend(_, _) =>
      case StreamError =>
      case Quit =>
      case _ => SpendCosts(c, r1, value, paymentComplete);
    }
  }

  /** How the reported spend decides the final state and the on-chain cost; without
      one, why the swap failed: by the last height it was told of it was too late, a
      payment failed, or the HTLC was worth too little. */
  predicate SettledBy(c: Contract, p: Payments, w: World, m: Swap) {
    match w.spent
    case None =>
      && m.cost.onchain == 0
      && (|| (m.state.FailTimeout? && c.expiry - m.height <= 20)
          || (m.state.FailOffchainPayments? && (p.swap.Failure() || p.prepay.Failure()))
          || (m.state.FailInsufficientValue? && w.confirmed.Some? && w.confirmed.value < c.amount))
    case Some(Report(success, fee)) =>
      if success then m.state.Success? && m.cost.onchain == fee
      else m.state.FailSweepTimeout? && m.cost.onchain == 0
  }

  /** How a swap stands after its sweep, or once it failed without one. */
  predicate Swept(c: Contract, p: Payments, r: Run, r': Run, err: bool) {
    && Progress(c, r.w, r'.w)
    && (!err ==>
          && Safe(c, p, r') && SettledBy(c, p, r'.w, r'.m) && (NoReveal(r'.m.state) ==> Silent(r.w, r'.w))
          && (r'.m.state.FailTimeout? ==> r'.m.height == r'.w.height)
          && (r'.m.htlcTxKnown <==> r'.w.confirmed.Some?) && Usual(p, r'.m))
  }

  lemma SettleSafe(c: Contract, p: Payments, r: Run, r1: Run, wait: SpendWait)
    requires SpendOk(c, p, r, r1, wait) && SameCosts(r, r1) && r.m.cost.onchain == 0
    requires r.m.htlcTxKnown && r.w.confirmed.Some? && Usual(p, r.m)
    ensures var (r', err) := Settle(r1, wait); Swept(c, p, r, r', err)
  {
  }

  lemma SweepSafe(c: Contract, p: Payments, r: Run, value: int)
    requires Safe(c, p, r) && r.m.state.IsPending() && r.m.cost.onchain == 0 && r.m.htlcTxKnown && Usual(p, r.m)
    requires r.w.confirmed == Some(value) && !r.w.paid && r.w.spent.None?
    ensures var (r', err) := SweepHtlc(c, r, value); Swept(c, p, r, r', err)
  {
    var (w1, failed) := Register(r.w, ForSpend);
    if (r.m.state.PreimageRevealed? || value >= c.amount) && !failed {
      var r0 := r.(w := w1);
      SpendSafe(c, p, r0, value, false);
      SpendCosts(c, r0, value, false);
      var (r1, wait) := WaitForSpend(c, r0, value, false);
      SettleSafe(c, p, r0, r1, wait);
    }
  }

  /** Why an unrevealed swap gives up: it is too late to reveal, by the height last
      reported, or a payment failed. */
  predicate GivenUp(c: Contract, p: Payments, r: Run) {
    || (r.m.state.FailTimeout? && c.expiry - r.w.height < 20 && r.m.height == r.w.height)
    || (r.m.state.FailOffchainPayments?
        && ((r.m.swapTaken && p.swap.Failure()) || (r.m.prepayTaken && p.prepay.Failure())))
  }

  /** What the wait for the HTLC keeps; only payments touch the cost, and the HTLC is the
      one reported. */
  predicate Waited(c: Contract, p: Payments, r: Run, r': Run, wait: HtlcWait) {
    && Books(c, p, r'.m) && r'.m.cost.onchain == r.m.cost.onchain
    && r'.w.spent == r.w.spent && r'.w.paid == r.w.paid
    && r'.w.log == r.w.log && Silent(r.w, r'.w)
    && (Usual(p, r.m) && !wait.WaitError? ==> Usual(p, r'.m))
    && (wait.Aborted? ==>
          r.m.state.Initiated? && GivenUp(c, p, r') && r'.m.htlcTxKnown == r.m.htlcTxKnown && r'.w.confirmed.None?)
    && (wait.Confirmed? ==>
          && r'.m.htlcTxKnown
          && r'.m.state == r.m.state && r'.w.confirmed == Some(wait.value)
          && (r.m.state.Initiated? ==> r'.m.height == r'.w.height))
  }

  /** The wait for the HTLC has registered and was not told of it yet. */
  predicate Awaiting(r: Run) {
    r.w.watch.ForConf? && r.w.confirmed.None? && (r.m.state.Initiated? ==> r.m.height == r.w.height)
  }

  lemma {:induction false} AwaitUnrevealedKeeps(c: Contract, p: Payments, r: Run)
    requires Books(c, p, r.m) && r.m.state.Initiated? && Awaiting(r)
    ensures var (r', wait) := AwaitUnrevealed(c, p, r); Waited(c, p, r, r', wait)
    decreases |r.w.tape|, 0
  {
    var (w1, e) := Turn(r.w);
    if e.Some? {
      var r1 := r.(w := w1);
      match e.value
      case SwapPayment => AwaitPaymentKeeps(c, p, r1, true);
      case Prepayment => AwaitPaymentKeeps(c, p, r1, false);
      case Block(h) =>
        if !RevealHeightExceeded(c, r1.m.(height := h)) {
          AwaitUnrevealedKeeps(c, p, r1.(m := r1.m.(height := h)));
        }
      case HtlcConf(_) =>
      case StreamError =>
      case Quit =>
      case _ => AwaitUnrevealedKeeps(c, p, r1);
    }
  }

  lemma {:induction false} AwaitPaymentKeeps(c: Contract, p: Payments, r: Run, swapPayment: bool)
    requires Books(c, p, r.m) && r.m.state.Initiated? && Awaiting(r)
    ensures var (r', wait) := AwaitPayment(c, p, r, swapPayment); Waited(c, p, r, r', wait)
    decreases |r.w.tape|, 1
  {
    var (m1, result, err) := Receive(c, p, r.m, swapPayment);
    if !err && !(result.Some? && result.value.Failure()) {
      AwaitUnrevealedKeeps(c, p, r.(m := m1));
    }
  }

  /** Only a confirmation ends this wait, other than an error, and nothing changes
      but that the transaction is known then. */
  lemma {:induction false} AwaitRevealedKeeps(c: Contract, p: Payments, r: Run)
    requires Books(c, p, r.m) && !r.m.state.Initiated? && Awaiting(r)
    ensures var (r', wait) := AwaitRevealed(r);
            && Waited(c, p, r, r', wait) && !wait.Aborted?
            && r'.m == (if wait.Confirmed? then r.m.(htlcTxKnown := true) else r.m)
    decreases |r.w.tape|
  {
    var (w1, e) := Turn(r.w);
    if e.Some? && !e.value.HtlcConf? && !e.value.StreamError? && !e.value.Quit? {
      AwaitRevealedKeeps(c, p, r.(w := w1));
    }
  }

  lemma HtlcWaitKeeps(c: Contract, p: Payments, r: Run)
    requires Books(c, p, r.m) && r.w.confirmed.None? && (r.m.state.Initiated? ==> r.m.height == r.w.height)
    ensures var (r', wait) := WaitForConfirmedHtlc(c, p, r); Waited(c, p, r, r', wait)
  {
    var (w1, failed) := Register(r.w, ForConf);
    if !failed {
      var r1 := r.(w := w1);
      if r.m.state.Initiated? {
        AwaitUnrevealedKeeps(c, p, r1);
      } else {
        AwaitRevealedKeeps(c, p, r1);
      }
    }
  }

  lemma WaitedSafe(c: Contract, p: Payments, r: Run, r': Run, wait: HtlcWait)
    requires Safe(c, p, r) && r.m.state.IsPending() && Waited(c, p, r, r', wait)
    requires r.w.spent.None? && r.m.cost.onchain == 0 && !r.m.htlcTxKnown && Usual(p, r.m)
    ensures Progress(c, r.w, r'.w)
    ensures wait.Aborted? ==> Swept(c, p, r, r', false)
    ensures wait.Confirmed? ==> Safe(c, p, r')
  {
  }

  lemma SweptAfter(c: Contract, p: Payments, r: Run, r1: Run, r': Run, err: bool)
    requires Swept(c, p, r1, r', err) && r1.w.log == r.w.log && Silent(r.w, r1.w)
    ensures Swept(c, p, r, r', err)
  {
  }

  /** Nothing was reported to this life yet. */
  predicate Fresh(w: World) {
    w.watch.Nothing? && w.confirmed.None? && !w.paid && w.spent.None?
  }

  lemma ExecuteSafe(c: Contract, p: Payments, r: Run)
    requires Safe(c, p, r) && r.m.state.IsPending() && Fresh(r.w)
    requires r.m.cost.onchain == 0 && !r.m.htlcTxKnown && Usual(p, r.m)
    ensures var (r', err) := ExecuteSwap(c, p, r); Swept(c, p, r, r', err)
  {
    var (w1, failed) := Query(r.w);
    if !failed {
      var r1 := r.(w := w1);
      HtlcWaitKeeps(c, p, r1);
      var (r2, wait) := WaitForConfirmedHtlc(c, p, r1);
      WaitedSafe(c, p, r1, r2, wait);
      if wait.Confirmed? {
        SweepSafe(c, p, r2, wait.value);
        var (r', err) := SweepHtlc(c, r2, wait.value);
        SweptAfter(c, p, r, r2, r', err);
      }
    }
  }

  /** A payment result is booked when it is taken, once. */
  lemma ReceiveBooked(c: Contract, p: Payments, m: Swap, swapPayment: bool)
    requires Books(c, p, m)
    ensures var m1 := Receive(c, p, m, swapPayment).0;
            && Books(c, p, m1) && m1.state == m.state && m1.cost.onchain == m.cost.onchain && m1.height == m.height
            && (m.swapTaken ==> m1.swapTaken) && (m.prepayTaken ==> m1.prepayTaken)
            && m1.htlcTxKnown == m.htlcTxKnown
  {
  }

  /** A turn of a process that has not registered for more than payments. */
  lemma UnwatchedTurn(w: World)
    requires w.watch.Nothing? && w.tape != []
    ensures Turn(w) == (w.(tape := w.tape[1..]), Some(w.tape[0].event))
  {
  }

  lemma {:induction false} AwaitPaymentsKeeps(c: Contract, p: Payments, r: Run)
    requires Books(c, p, r.m) && r.w.watch.Nothing?
    ensures var (r', err) := AwaitPayments(c, p, r);
            && Books(c, p, r'.m) && (!err ==> r'.m.swapTaken && r'.m.prepayTaken)
            && r'.w == r.w.(tape := r'.w.tape) && r'.m.state == r.m.state && r'.m.cost.onchain == r.m.cost.onchain
            && r'.m.height == r.m.height && r'.m.htlcTxKnown == r.m.htlcTxKnown
            && (!err && Usual(p, r.m) ==> Usual(p, r'.m))
    decreases |r.w.tape|
  {
    if (!r.m.swapTaken || !r.m.prepayTaken) && r.w.tape != [] {
      UnwatchedTurn(r.w);
      var (w1, e) := Turn(r.w);
      if !e.value.Quit? {
        if e.value.SwapPayment? || e.value.Prepayment? {
          var (m1, _, err) := Receive(c, p, r.m, e.value.SwapPayment?);
          ReceiveBooked(c, p, r.m, e.value.SwapPayment?);
          if !err {
            AwaitPaymentsKeeps(c, p, Run(m1, w1));
          }
        } else {
          AwaitPaymentsKeeps(c, p, r.(w := w1));
        }
      }
    }
  }

  /** One life. It succeeds only with a durable final state and cost, so the
      sanity check on the state never fires; the reported spend decides the state
      and the on-chain cost, and what was reported explains a failure without one; both
      payments have been consumed and the cost is exactly theirs; and if it ends in
      FailTimeout, FailOffchainPayments or FailInsufficientValue, it revealed nothing. */
  lemma LoopOutRun(c: Contract, p: Payments, w: World, height: int)
    requires WorldSafe(c, w) && LastState(w.log).IsPending() && Fresh(w) && w.height == height
    ensures var r := Run(Resume(w.log, height), w);
            var (r', err) := ExecuteAndFinalize(c, p, r);
            && Progress(c, w, r'.w)
            && (!err ==>
                  && SettledBy(c, p, r'.w, r'.m) && LastState(r'.w.log) == r'.m.state
                  && r'.w.log[|r'.w.log| - 1].cost == r'.m.cost
                  && (r'.w.log[|r'.w.log| - 1].htlcTxKnown <==> r'.w.confirmed.Some?)
                  && Books(c, p, r'.m) && r'.m.swapTaken && r'.m.prepayTaken && Usual(p, r'.m)
                  && (NoReveal(r'.m.state) ==> Silent(w, r'.w))
                  && (r'.m.state.FailTimeout? ==> r'.m.height == r'.w.height))
  {
    var r := Run(Resume(w.log, height), w);
    var (w0, failed) := Query(r.w);
    if !failed {
      ExecuteSafe(c, p, r.(w := w0));
      var (r1, err1) := ExecuteSwap(c, p, r.(w := w0));
      if !err1 && r1.m.state.IsFinal() {
        FinalizeSafe(c, p, r.(w := w0), r1);
      }
    }
  }

  /** Collecting the payments and storing the result. */
  lemma FinalizeSafe(c: Contract, p: Payments, r: Run, r1: Run)
    requires Swept(c, p, r, r1, false) && r1.m.state.IsFinal()
    ensures var (r2, err2) := AwaitPayments(c, p, Unwatched(r1));
            && Progress(c, r.w, r2.w)
            && (!err2 ==>
                  var (r', err) := Persist(r2);
                  && Progress(c, r.w, r'.w)
                  && SettledBy(c, p, r'.w, r'.m) && Books(c, p, r'.m) && r'.m.swapTaken && r'.m.prepayTaken
                  && (r'.m.htlcTxKnown <==> r'.w.confirmed.Some?) && Usual(p, r'.m)
                  && (NoReveal(r'.m.state) ==> Silent(r.w, r'.w))
                  && (r'.m.state.FailTimeout? ==> r'.m.height == r'.w.height)
                  && (!err ==> StoredLast(r')))
  {
    AwaitPaymentsKeeps(c, p, Unwatched(r1));
    var (r2, err2) := AwaitPayments(c, p, Unwatched(r1));
    assert Safe(c, p, r2) && SettledBy(c, p, r2.w, r2.m);
    if !err2 {
      PersistSafe(c, p, r2);
      PersistKeeps(r2);
    }
  }

  /** The last stored event is what the swap holds. */
  predicate StoredLast(r: Run) {
    r.w.log != [] && r.w.log[|r.w.log| - 1] == LoopEvent(r.m.state, r.m.cost, r.m.htlcTxKnown)
  }

  lemma PersistKeeps(r: Run)
    ensures var (r', err) := Persist(r);
            && r' == r.(w := r.w.(tape := r'.w.tape, log := r'.w.log))
            && (!err ==> StoredLast(r'))
  {
  }

  // ----- What ends a life -----

  /** Nothing goes wrong outside: every call is acknowledged, no stream fails, and nobody
      stops the client. */
  predicate Calm(tape: seq<Tick>) {
    tape == [] || (tape[0].reply.Ack? && !tape[0].event.StreamError? && !tape[0].event.Quit? && Calm(tape[1..]))
  }

  predicate Delivered(tape: seq<Tick>, e: Event) {
    tape != [] && (tape[0].event == e || Delivered(tape[1..], e))
  }

  predicate Expected(p: Payments) {
    !p.swap.Unexpected? && !p.prepay.Unexpected?
  }

  /** No payment is known to have failed, and it is not too late to reveal. */
  predicate Hopeful(c: Contract, p: Payments, r: Run) {
    && c.expiry - r.w.height >= 20
    && !(r.m.swapTaken && p.swap.Failure()) && !(r.m.prepayTaken && p.prepay.Failure())
  }

  /** The process came to the end of its tape before what decides the swap was reported. */
  predicate Starved(c: Contract, p: Payments, r: Run) {
    && r.w.tape == []
    && (r.w.watch.ForConf? && r.w.confirmed.None? && r.m.state.Initiated? ==> Hopeful(c, p, r))
    && (r.w.watch.ForSpend? ==> r.w.spent.None?)
  }

  lemma {:induction false} UnrevealedStarves(c: Contract, p: Payments, r: Run)
    requires Calm(r.w.tape) && Expected(p) && r.m.state.Initiated? && Awaiting(r) && Hopeful(c, p, r)
    ensures var (r', wait) := AwaitUnrevealed(c, p, r);
            Calm(r'.w.tape) && (wait.WaitError? ==> Starved(c, p, r') && r'.w.confirmed.None?)
    decreases |r.w.tape|, 0
  {
    var (w1, e) := Turn(r.w);
    if e.Some? {
      var r1 := r.(w := w1);
      if e.value.SwapPayment? || e.value.Prepayment? {
        PaymentStarves(c, p, r1, e.value.SwapPayment?);
      } else if e.value.Block? {
        if c.expiry - e.value.height >= 20 {
          UnrevealedStarves(c, p, r1.(m := r1.m.(height := e.value.height)));
        }
      } else if !e.value.HtlcConf? {
        UnrevealedStarves(c, p, r1);
      }
    }
  }

  lemma {:induction false} PaymentStarves(c: Contract, p: Payments, r: Run, swapPayment: bool)
    requires Calm(r.w.tape) && Expected(p) && r.m.state.Initiated? && Awaiting(r) && Hopeful(c, p, r)
    ensures var (r', wait) := AwaitPayment(c, p, r, swapPayment);
            Calm(r'.w.tape) && (wait.WaitError? ==> Starved(c, p, r') && r'.w.confirmed.None?)
    decreases |r.w.tape|, 1
  {
    var (m1, result, err) := Receive(c, p, r.m, swapPayment);
    if !(result.Some? && result.value.Failure()) {
      UnrevealedStarves(c, p, r.(m := m1));
    }
  }

  lemma {:induction false} RevealedStarves(c: Contract, p: Payments, r: Run)
    requires Calm(r.w.tape) && !r.m.state.Initiated? && Awaiting(r)
    ensures var (r', wait) := AwaitRevealed(r);
            Calm(r'.w.tape) && (wait.WaitError? ==> Starved(c, p, r') && r'.w.confirmed.None?)
    decreases |r.w.tape|
  {
    var (w1, e) := Turn(r.w);
    if e.Some? && !e.value.HtlcConf? {
      RevealedStarves(c, p, r.(w := w1));
    }
  }

  lemma HtlcWaitStarves(c: Contract, p: Payments, r: Run)
    requires Calm(r.w.tape) && Expected(p) && Fresh(r.w) && !r.m.swapTaken && !r.m.prepayTaken
    requires r.m.state.Initiated? ==> r.m.height == r.w.height
    ensures var (r', wait) := WaitForConfirmedHtlc(c, p, r);
            Calm(r'.w.tape) && (wait.WaitError? ==> Starved(c, p, r') && r'.w.confirmed.None?)
  {
    var (w1, failed) := Register(r.w, ForConf);
    if !failed {
      var r1 := r.(w := w1);
      if !r.m.state.Initiated? {
        RevealedStarves(c, p, r1);
      } else if c.expiry - r1.w.height >= 20 {
        UnrevealedStarves(c, p, r1);
      }
    }
  }

  lemma RevealAndPushCalm(r: Run, value: int, paymentComplete: bool)
    requires Calm(r.w.tape)
    ensures var (r', err) := RevealAndPush(r, value, paymentComplete);
            Calm(r'.w.tape) && (err ==> r'.w.tape == [])
  {
    var r1 := AddSweep(r, value).0;
    assert Calm(r1.w.tape);
    var r2 := SetStatePreimageRevealed(r1).0;
    assert Calm(r2.w.tape);
  }

  lemma {:induction false} SweepStarves(c: Contract, r: Run, value: int, paymentComplete: bool)
    requires Calm(r.w.tape) && r.w.watch.ForSpend? && r.w.spent.None?
    ensures var (r', wait) := TrySweep(c, r, value, paymentComplete);
            Calm(r'.w.tape) && (wait.SpendError? ==> r'.w.tape == [] && r'.w.watch.ForSpend? && r'.w.spent.None?)
    decreases |r.w.tape|, 1
  {
    if CanSweep(c, r.m) {
      RevealAndPushCalm(r, value, paymentComplete);
      RevealAndPushReports(r, value, paymentComplete);
      var (r1, err) := RevealAndPush(r, value, paymentComplete);
      if !err {
        SpendStarves(c, r1, value, paymentComplete);
      }
    }
  }

  lemma {:induction false} SpendStarves(c: Contract, r: Run, value: int, paymentComplete: bool)
    requires Calm(r.w.tape) && r.w.watch.ForSpend? && r.w.spent.None?
    ensures var (r', wait) := WaitForSpend(c, r, value, paymentComplete);
            Calm(r'.w.tape) && (wait.SpendError? ==> r'.w.tape == [] && r'.w.watch.ForSpend? && r'.w.spent.None?)
    decreases |r.w.tape|, 0
  {
    if r.w.tape != [] {
      var e := r.w.tape[0].event;
      if !e.HtlcSpend? {
        var r1 := Run(Heard(r.m, e), Turn(r.w).0);
        var complete := paymentComplete || (e.Track? && e.succeeded);
        SpendStep(c, r, value, paymentComplete, e, r1, complete);
        TurnTells(r.w);
        if e.Timer? {
          SweepStarves(c, r1, value, complete);
        } else {
          SpendStarves(c, r1, value, complete);
        }
      }
    }
  }

  lemma CalmQuery(w: World)
    requires Calm(w.tape)
    ensures var (w1, failed) := Query(w);
            Calm(w1.tape) && w1 == w.(tape := w1.tape) && (failed <==> w.tape == [])
  {
  }

  lemma SettleStarves(r: Run, wait: SpendWait)
    ensures var (r', err) := Settle(r, wait); r'.w == r.w && (err <==> wait.SpendError?)
  {
  }

  lemma HtlcStarves(c: Contract, r: Run, value: int)
    requires Calm(r.w.tape) && r.w.confirmed.Some? && r.w.spent.None?
    ensures var (r', err) := SweepHtlc(c, r, value);
            && Calm(r'.w.tape)
            && (err ==> r'.w.tape == [] && (r'.w.watch.ForSpend? || r'.w.confirmed.Some?) && r'.w.spent.None?)
  {
    CalmQuery(r.w);
    var (w1, failed) := Register(r.w, ForSpend);
    if (r.m.state.PreimageRevealed? || value >= c.amount) && !failed {
      SpendStarves(c, r.(w := w1), value, false);
      SettleStarves(WaitForSpend(c, r.(w := w1), value, false).0, WaitForSpend(c, r.(w := w1), value, false).1);
    }
  }

  lemma ExecuteStarves(c: Contract, p: Payments, r: Run)
    requires Books(c, p, r.m) && Fresh(r.w) && (r.m.state.Initiated? ==> r.m.height == r.w.height)
    requires Calm(r.w.tape) && Expected(p) && !r.m.swapTaken && !r.m.prepayTaken
    ensures var (r', err) := ExecuteSwap(c, p, r);
            Calm(r'.w.tape) && (err ==> Starved(c, p, r'))
  {
    CalmQuery(r.w);
    var (w1, failed) := Query(r.w);
    if !failed {
      var r1 := r.(w := w1);
      HtlcWaitStarves(c, p, r1);
      HtlcWaitKeeps(c, p, r1);
      var (r2, wait) := WaitForConfirmedHtlc(c, p, r1);
      if wait.Confirmed? {
        HtlcStarves(c, r2, wait.value);
      }
    }
  }

  /** Collecting the payments fails exactly if one of them is never delivered. */
  lemma {:induction false} PaymentsEnd(c: Contract, p: Payments, r: Run)
    requires Calm(r.w.tape) && Expected(p) && r.w.watch.Nothing?
    ensures var (r', err) := AwaitPayments(c, p, r);
            && r'.w == r.w.(tape := r'.w.tape) && Calm(r'.w.tape) && (err ==> r'.w.tape == [])
            && (err <==> || (!r.m.swapTaken && !Delivered(r.w.tape, SwapPayment))
                         || (!r.m.prepayTaken && !Delivered(r.w.tape, Prepayment)))
    decreases |r.w.tape|
  {
    if (!r.m.swapTaken || !r.m.prepayTaken) && r.w.tape != [] {
      UnwatchedTurn(r.w);
      var w1, e := r.w.(tape := r.w.tape[1..]), r.w.tape[0].event;
      assert Calm(w1.tape);
      if e.SwapPayment? || e.Prepayment? {
        var (m1, _, err) := Receive(c, p, r.m, e.SwapPayment?);
        assert !err;
        PaymentsEnd(c, p, Run(m1, w1));
      } else {
        PaymentsEnd(c, p, r.(w := w1));
      }
    }
  }

  /** If nothing goes wrong outside, a life fails only by the end of the process, at a
      point where what it waits for was not reported; otherwise it ends in a stored final
      state. */
  lemma CalmLife(c: Contract, p: Payments, w: World, height: int)
    requires WorldSafe(c, w) && LastState(w.log).IsPending() && Fresh(w) && w.height == height
    requires Calm(w.tape) && Expected(p)
    ensures var (r', err) := ExecuteAndFinalize(c, p, Run(Resume(w.log, height), w));
            if err then Starved(c, p, r') else LastState(r'.w.log).IsFinal()
  {
    var r := Run(Resume(w.log, height), w);
    CalmQuery(w);
    var w0 := Query(w).0;
    LoopOutRun(c, p, w, height);
    if w.tape != [] {
      ExecuteSafe(c, p, r.(w := w0));
      CalmExecution(c, p, r.(w := w0), ExecuteAndFinalize(c, p, r).0, ExecuteAndFinalize(c, p, r).1);
    }
  }

  lemma CalmExecution(c: Contract, p: Payments, r: Run, r': Run, err: bool)
    requires Books(c, p, r.m) && Fresh(r.w) && (r.m.state.Initiated? ==> r.m.height == r.w.height)
    requires Calm(r.w.tape) && Expected(p) && !r.m.swapTaken && !r.m.prepayTaken
    requires var (r1, err1) := ExecuteSwap(c, p, r); !err1 ==> SettledBy(c, p, r1.w, r1.m)
    requires var (r1, err1) := ExecuteSwap(c, p, r);
             if err1 || r1.m.state.IsPending() then r' == r1 && err
             else
               var (r2, err2) := AwaitPayments(c, p, Unwatched(r1));
               if err2 then r' == r2 && err else (r', err) == Persist(r2)
    ensures err ==> Starved(c, p, r')
  {
    ExecuteStarves(c, p, r);
    var (r1, err1) := ExecuteSwap(c, p, r);
    if !err1 {
      FinalizeStarves(c, p, r1);
    }
  }

  lemma FinalizeStarves(c: Contract, p: Payments, r: Run)
    requires Calm(r.w.tape) && Expected(p)
    ensures var (r1, err1) := AwaitPayments(c, p, Unwatched(r));
            && (err1 ==> r1.w.tape == [] && r1.w.watch.Nothing?)
            && (!err1 ==> var (r2, err2) := Persist(r1); err2 ==> r2.w.tape == [] && r2.w.watch.Nothing?)
  {
    PaymentsEnd(c, p, Unwatched(r));
  }

  // ----- Over all lives -----

  lemma {:induction false} LivesSafe(c: Contract, w: World, lives: seq<Life>)
    requires WorldSafe(c, w)
    ensures Progress(c, w, Lives(c, w, lives))
    decreases |lives|
  {
    if lives != [] {
      if LastState(w.log).IsPending() {
        LoopOutRun(c, lives[0].payments, Started(w, lives[0].tape, lives[0].height), lives[0].height);
      }
      LivesSafe(c, Live(c, w, lives[0]), lives[1..]);
    }
  }

  /** Over every sequence of lives: the first handover of the HTLC to the sweeper
      comes with more than 20 blocks to go by the height last reported, for the HTLC as
      reported and of sufficient value, and so does every later one unless the
      reveal was durable before it; the preimage is pushed only once PreimageRevealed is
      durable, and as often as a push was due; and a swap that ended in FailTimeout,
      FailOffchainPayments or FailInsufficientValue never pushed its preimage,
      and handed its HTLC over only with replies that tore the handover from
      storing the reveal. */
  lemma LoopOutRevealSafety(c: Contract, lives: seq<Life>)
    ensures var w := Lives(c, NEW_SWAP, lives);
            && (w.sweeps != [] ==> InTime(c, w.sweeps[0]))
            && (forall s <- w.sweeps :: s.durable.PreimageRevealed? || InTime(c, s))
            && (forall s <- w.pushes :: s.PreimageRevealed?)
            && |w.pushes| == DueAfter(w.sweeps)
            && (NoReveal(LastState(w.log)) ==> w.pushes == [] && forall s <- w.sweeps :: Torn(s))
  {
    LivesSafe(c, NEW_SWAP, lives);
    var w := Lives(c, NEW_SWAP, lives);
    SweepsEach(c, w.sweeps);
    UntornEach(w.sweeps);
    PushesEach(w.pushes);
  }

  lemma {:induction false} UntornEach(sweeps: seq<Sweep>)
    ensures Untorn(sweeps) <==> exists s <- sweeps :: !Torn(s)
  {
    if sweeps != [] {
      var init, last := sweeps[..|sweeps| - 1], sweeps[|sweeps| - 1];
      UntornEach(init);
      assert sweeps == init + [last];
    }
  }

  lemma {:induction false} SweepsEach(c: Contract, sweeps: seq<Sweep>)
    requires SweepsSafe(c, sweeps)
    ensures sweeps != [] ==> InTime(c, sweeps[0])
    ensures forall s <- sweeps :: s.durable.PreimageRevealed? || InTime(c, s)
  {
    if sweeps != [] {
      var init, last := sweeps[..|sweeps| - 1], sweeps[|sweeps| - 1];
      SweepsEach(c, init);
      assert sweeps == init + [last];
    }
  }

  lemma {:induction false} PushesEach(pushes: seq<SwapState>)
    ensures PushesSafe(pushes) <==> forall s <- pushes :: s.PreimageRevealed?
  {
    if pushes != [] {
      var init, last := pushes[..|pushes| - 1], pushes[|pushes| - 1];
      PushesEach(init);
      assert pushes == init + [last];
    }
  }

  // ----- A handover that a restart forgets -----

  /** A life that resumes too late. */
  function LateLife(c: Contract): Life {
    Life([Tick(Ack, Quit), Tick(Ack, Quit), Tick(Ack, Quit),
          Tick(Ack, SwapPayment), Tick(Ack, Prepayment), Tick(Ack, Quit)],
         c.expiry, Payments(Failed, Failed))
  }

  lemma TooLate(c: Contract, p: Payments, r: Run, tape: seq<Tick>)
    requires r.m.state.Initiated? && r.m.height == c.expiry && |tape| >= 2 && r.w.tape == tape
    requires tape[0].reply.Ack? && tape[1].reply.Ack?
    ensures ExecuteSwap(c, p, r) == (SetState(r, FailTimeout).(w := r.w.(tape := tape[2..], watch := ForConf)), false)
  {
    assert tape[1..][1..] == tape[2..];
  }

  lemma BothFailed(c: Contract, r: Run, tape: seq<Tick>)
    requires !r.m.swapTaken && !r.m.prepayTaken && |tape| >= 2 && r.w.tape == tape && r.w.watch.Nothing?
    requires tape[0].event.SwapPayment? && tape[1].event.Prepayment?
    ensures AwaitPayments(c, Payments(Failed, Failed), r)
         == (Run(r.m.(swapTaken := true, prepayTaken := true), r.w.(tape := tape[2..])), false)
  {
    var p := Payments(Failed, Failed);
    var r1 := Run(r.m.(swapTaken := true), r.w.(tape := tape[1..]));
    var r2 := Run(r1.m.(prepayTaken := true), r.w.(tape := tape[2..]));
    assert tape[1..][1..] == tape[2..];
    assert AwaitPayments(c, p, r2) == (r2, false);
    assert AwaitPayments(c, p, r1) == AwaitPayments(c, p, r2);
  }

  /** An unrevealed swap that resumes too late fails, whatever was handed over. */
  lemma LateFails(c: Contract, w: World, life: Life)
    requires LastState(w.log).Initiated? && life == LateLife(c)
    ensures var w' := Live(c, w, life); LastState(w'.log) == FailTimeout && w'.sweeps == w.sweeps
  {
    var r := Run(Resume(w.log, c.expiry), Started(w, life.tape, c.expiry));
    var t := life.tape;
    var r1 := r.(w := r.w.(tape := t[1..]));
    TooLate(c, life.payments, r1, t[1..]);
    var r2 := SetState(r, FailTimeout).(w := r.w.(tape := t[1..][2..]));
    BothFailed(c, r2, t[1..][2..]);
    assert t[1..][2..][2..] == [Tick(Ack, Quit)];
  }

  /** Whether a pending swap can still end in FailTimeout, FailOffchainPayments or
      FailInsufficientValue, in whatever lives may follow, is decided by the
      replies to its handovers: it cannot, if and only if one was not torn. */
  lemma UntornDecides(c: Contract, lives: seq<Life>)
    ensures var w := Lives(c, NEW_SWAP, lives);
            LastState(w.log).IsPending() ==>
              ((forall more :: !NoReveal(LastState(Lives(c, w, more).log))) <==> exists s <- w.sweeps :: !Torn(s))
  {
    var w := Lives(c, NEW_SWAP, lives);
    LivesSafe(c, NEW_SWAP, lives);
    UntornEach(w.sweeps);
    if Revealed(w.log) {
      forall more
        ensures !NoReveal(LastState(Lives(c, w, more).log))
      {
        LivesSafe(c, w, more);
      }
    } else if LastState(w.log).IsPending() {
      var late := LateLife(c);
      LateFails(c, w, late);
      assert [late][1..] == [];
      assert Lives(c, Live(c, w, late), []) == Live(c, w, late);
      assert exists more :: NoReveal(LastState(Lives(c, w, more).log)) by {
        assert NoReveal(LastState(Lives(c, w, [late]).log));
      }
    }
  }

  const TORN_CONTRACT := Contract(100, 1000, 0)

  /** Hands the sweep over, then fails to store PreimageRevealed. */
  const TORN_FIRST := Life([
    Tick(Ack, Quit), Tick(Ack, Quit), Tick(Ack, Quit), Tick(Ack, HtlcConf(100)), Tick(Ack, Quit),
    Tick(Ack, Timer), Tick(Ack, Quit), Tick(Refused, Quit)], 10, Payments(Failed, Failed))

  const TORN_SWEEP := Sweep(100, 10, Some(100), false, Initiated, Ack, Some(Refused), None)

  /** The first life as its HTLC confirmed. */
  predicate TornWorld(r: Run) {
    && r.m.height == 10 && r.w.height == 10 && r.w.confirmed == Some(100) && !r.w.paid
    && r.w.log == [] && r.w.sweeps == []
  }

  lemma TornHandover(r: Run)
    requires r.m.state.Initiated? && TornWorld(r)
    requires r.w.tape == [Tick(Ack, Quit), Tick(Refused, Quit)]
    ensures RevealAndPush(r, 100, false)
         == (SetState(r, PreimageRevealed).(w := r.w.(tape := [], sweeps := [TORN_SWEEP])), true)
  {
    assert r.w.tape[1..] == [Tick(Refused, Quit)] && r.w.tape[1..][1..] == [];
    assert r.w.sweeps + [TORN_SWEEP] == [TORN_SWEEP];
  }

  lemma TornSpend(c: Contract, r: Run)
    requires c == TORN_CONTRACT && r.m.state.Initiated? && TornWorld(r)
    requires r.w.tape == [Tick(Ack, Timer), Tick(Ack, Quit), Tick(Refused, Quit)]
    ensures var (r', wait) := WaitForSpend(c, r, 100, false);
            wait.SpendError? && r'.w.log == [] && r'.w.sweeps == [TORN_SWEEP]
  {
    var r1 := r.(w := r.w.(tape := r.w.tape[1..]));
    assert r1.w.tape == [Tick(Ack, Quit), Tick(Refused, Quit)];
    TornHandover(r1);
  }

  lemma TornWait(c: Contract, p: Payments, r: Run)
    requires c == TORN_CONTRACT && r.m.state.Initiated? && r.m.height == 10 && r.w.confirmed.None?
    requires r.w.tape == TORN_FIRST.tape[2..]
    ensures WaitForConfirmedHtlc(c, p, r)
         == (Run(r.m.(htlcTxKnown := true),
                 r.w.(tape := TORN_FIRST.tape[4..], watch := ForConf, confirmed := Some(100))), Confirmed(100))
  {
    var t := TORN_FIRST.tape;
    assert t[2..][1..] == t[3..] && t[3..][1..] == t[4..];
    assert t[3..][0] == Tick(Ack, HtlcConf(100));
  }

  lemma TornSweep(c: Contract, r: Run)
    requires c == TORN_CONTRACT && r.m.state.Initiated? && TornWorld(r) && r.w.tape == TORN_FIRST.tape[4..]
    ensures var (r', err) := SweepHtlc(c, r, 100); err && r'.w.log == [] && r'.w.sweeps == [TORN_SWEEP]
  {
    var r1 := r.(w := r.w.(tape := r.w.tape[1..], watch := ForSpend));
    assert r1.w.tape == [Tick(Ack, Timer), Tick(Ack, Quit), Tick(Refused, Quit)];
    TornSpend(c, r1);
  }

  lemma TornExecute(c: Contract, p: Payments, r: Run)
    requires c == TORN_CONTRACT && r.m.state.Initiated? && r.m.height == 10 && r.w.height == 10
    requires Fresh(r.w) && r.w.log == [] && r.w.sweeps == [] && r.w.tape == TORN_FIRST.tape[1..]
    ensures var (r', err) := ExecuteSwap(c, p, r); err && r'.w.log == [] && r'.w.sweeps == [TORN_SWEEP]
  {
    var t := TORN_FIRST.tape;
    assert t[1..][1..] == t[2..];
    var r1 := r.(w := r.w.(tape := t[2..]));
    TornWait(c, p, r1);
    TornSweep(c, WaitForConfirmedHtlc(c, p, r1).0);
  }

  lemma TornFirstLife(c: Contract)
    requires c == TORN_CONTRACT
    ensures var w := Live(c, NEW_SWAP, TORN_FIRST); w.log == [] && w.sweeps == [TORN_SWEEP]
  {
    TornExecute(c, TORN_FIRST.payments, Run(Resume([], 10), Started(NEW_SWAP, TORN_FIRST.tape[1..], 10)));
  }

  /** The sweep is handed over before PreimageRevealed is stored, so a swap whose
      HTLC is with the sweeper can end in FailTimeout. */
  lemma RevealForgottenByRestart()
    ensures exists c, lives :: var w := Lives(c, NEW_SWAP, lives); LastState(w.log) == FailTimeout && |w.sweeps| == 1
  {
    var c :| c == TORN_CONTRACT;
    var late := LateLife(c);
    var lives := [TORN_FIRST, late];
    TornFirstLife(c);
    var w := Live(c, NEW_SWAP, TORN_FIRST);
    LateFails(c, w, late);
    assert lives[1..] == [late] && lives[1..][1..] == [];
    assert Lives(c, w, lives[1..]) == Live(c, w, late);
    assert Lives(c, NEW_SWAP, lives) == Live(c, w, late);
  }
}
