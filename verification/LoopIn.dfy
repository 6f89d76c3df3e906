/** The loop-in executor (loopin.go) against lnd, the chain, the swap server and
    the durable store. Every call that leaves the process consumes one tick of a
    tape; a process whose tape is empty is dead and its calls have no effect, so
    quantifying over tapes covers every interleaving and every crash point. */
module LoopIn {
  import opened Calls
  import opened Options
  import opened SwapStates

  const MIN_PUBLISH_DELTA := 10

  /** The swap invoice in lnd. Settled, and Canceled up to deletion, are final. */
  datatype Invoice = Open | Settled(paid: int) | Canceled | Deleted {
    predicate IsCanceled() { Canceled? || Deleted? }
  }

  /** What happens to the invoice behind the client's back. */
  datatype Move = ServerPays(paid: int) | Expires | Collected

  /** lnd resolves payment against cancellation atomically, never undoes a
      settlement, and deletes only canceled invoices. */
  function ApplyMove(i: Invoice, m: Move): Invoice {
    match m
    case ServerPays(paid) => if i.Open? then Settled(paid) else i
    case Expires => if i.Open? then Canceled else i
    case Collected => if i.Canceled? then Deleted else i
  }

  function ApplyMoves(i: Invoice, ms: seq<Move>): (i': Invoice)
    ensures i.Settled? ==> i' == i
    ensures i.IsCanceled() ==> i'.IsCanceled()
    decreases |ms|
  {
    if ms == [] then i else ApplyMoves(ApplyMove(i, ms[0]), ms[1..])
  }

  /** What the select loops can receive. */
  datatype Event =
    | Block(height: int)
    | HtlcConf(value: int)
    | HtlcSpend(success: bool)
    | InvoiceUpdate
    | Abandon
    | StreamError
    | StreamClosed
    | Quit

  datatype Tick = Tick(moves: seq<Move>, reply: Reply, event: Event, fee: int)

  /** A SendOutputs call: the swap state durable at the call, the height last reported
      to the process, the fee of the transaction, the reply, and the reply to the next
      call, none if the process dies before that. */
  datatype Send = Send(durable: SwapState, height: int, fee: int, reply: Reply, next: Option<Reply>)

  /** A reported spend of the HTLC, and the fee of the timeout transaction that was
      built since the last block, if one was. */
  datatype Spend = Spend(success: bool, built: Option<int>)

  /** What the process listens for, besides blocks. */
  datatype Watch = ForConf | ForSpend

  /** Everything outside the process. timeoutTxs holds the height last reported at
      each broadcast of a timeout transaction. The last five are about this life: what
      it listens for, the height, the HTLC and the spends reported to it, and the fee of
      the timeout transaction built since the last block. */
  datatype World = World(
    tape: seq<Tick>,
    invoice: Invoice,
    log: seq<LoopEvent>,
    sends: seq<Send>,
    timeoutTxs: seq<int>,
    keyPushes: nat,
    watch: Watch,
    height: int,
    confirmed: Option<int>,
    spends: seq<Spend>,
    built: Option<int>)

  datatype Contract = Contract(amount: int, expiry: int, external: bool, musig2: bool)

  /** The in-memory fields of a running swap. */
  datatype Swap = Swap(
    state: SwapState,
    cost: SwapCost,
    htlcTxKnown: bool,
    height: int,
    invoiceSettled: bool,
    invoiceCanceled: bool)

  datatype Run = Run(m: Swap, w: World)

  // ----- Calls that leave the process -----

  /** Lets the outside move and takes the next tick, unless the process is dead. */
  function Next(w: World): (r: (World, Option<Tick>)) {
    if w.tape == [] then (w, None)
    else (w.(tape := w.tape[1..], invoice := ApplyMoves(w.invoice, w.tape[0].moves)), Some(w.tape[0]))
  }

  /** A call with no effect outside that matters here; true on failure. */
  function Query(w: World): (World, bool) {
    var (w1, t) := Next(w);
    (w1, t.None? || !t.value.reply.Ack?)
  }

  /** What the process has been told by the event. */
  function Told(w: World, e: Event): World {
    match e
    case Block(h) => w.(height := h, built := None)
    case HtlcConf(value) => if w.watch.ForConf? && w.confirmed.None? then w.(confirmed := Some(value)) else w
    case HtlcSpend(success) => if w.watch.ForSpend? then w.(spends := w.spends + [Spend(success, w.built)]) else w
    case _ => w
  }

  /** Waits for the next event of a select loop. */
  function Hear(w: World): (World, Option<Event>) {
    var (w1, t) := Next(w);
    if t.None? then (w1, None) else (Told(w1, t.value.event), Some(t.value.event))
  }

  /** Registers for the spend and subscribes to the invoice; true on failure. */
  function WatchSpend(w: World): (World, bool) {
    var (w1, failed) := Query(w);
    (if failed then w1 else w1.(watch := ForSpend), failed)
  }

  /** persistAndAnnounceState, and persistState when nothing is announced. */
  function Persist(r: Run): (Run, bool) {
    var (w1, t) := Next(r.w);
    var event := LoopEvent(r.m.state, r.m.cost, r.m.htlcTxKnown);
    if t.None? || t.value.reply.Refused? then (r.(w := w1), true)
    else (r.(w := w1.(log := w1.log + [event])), t.value.reply.Lost?)
  }

  /** The wallet funds and publishes the HTLC; the fee of the transaction, if it answers. */
  function SendOutputs(w: World): (World, Option<int>) {
    var (w1, t) := Next(w);
    if t.None? then (w1, None)
    else
      var send := Send(LastState(w1.log), w1.height, t.value.fee, t.value.reply,
                       if w1.tape == [] then None else Some(w1.tape[0].reply));
      (w1.(sends := w1.sends + [send]), if t.value.reply.Ack? then Some(t.value.fee) else None)
  }

  datatype CancelResult = Done | NotFound | AlreadySettled | OtherError

  function CancelInvoice(w: World): (World, CancelResult) {
    var (w1, t) := Next(w);
    if t.None? || t.value.reply.Refused? then (w1, OtherError)
    else
      var w2 := if w1.invoice.Open? then w1.(invoice := Canceled) else w1;
      if t.value.reply.Lost? then (w2, OtherError)
      else match w2.invoice
        case Settled(_) => (w2, AlreadySettled)
        case Deleted => (w2, NotFound)
        case _ => (w2, Done)
  }

  function LookupInvoice(w: World): (World, Option<int>) {
    var (w1, t) := Next(w);
    if t.Some? && t.value.reply.Ack? && w1.invoice.Settled? then (w1, Some(w1.invoice.paid))
    else (w1, None)
  }

  /** Builds the timeout transaction, which may fail, then broadcasts it; a
      failed broadcast is only logged. */
  function PublishTimeoutTx(w: World): (World, int, bool) {
    var (w1, t) := Next(w);
    if t.None? || !t.value.reply.Ack? then (w1, 0, true)
    else
      var (w2, u) := Next(w1.(built := Some(t.value.fee)));
      (if u.None? then w2 else w2.(timeoutTxs := w2.timeoutTxs + [w2.height]), t.value.fee, false)
  }

  /** Derives the internal key, which may fail, then pushes it. */
  function TryPushHtlcKey(c: Contract, r: Run): (out: (Run, bool))
    ensures |out.0.w.tape| <= |r.w.tape|
  {
    if !c.musig2 || !r.m.invoiceSettled then (r, false)
    else
      var (w1, failed) := Query(r.w);
      if failed then (r.(w := w1), false)
      else
        var (w2, t) := Next(w1);
        if t.None? then (r.(w := w2), false)
        else (r.(w := w2.(keyPushes := w2.keyPushes + 1)), t.value.reply.Ack?)
  }

  // ----- The executor -----

  function SetState(r: Run, s: SwapState): Run {
    r.(m := r.m.(state := s))
  }

  /** Stores the abandonment and cancels the invoice. It always ends the execution. */
  function SetStateAbandoned(r: Run): (out: Run)
    ensures |out.w.tape| <= |r.w.tape|
  {
    if !r.m.state.IsPending() then r
    else
      var (r1, err) := Persist(SetState(r, FailAbandoned));
      if err then r1 else r1.(w := CancelInvoice(r1.w).0)
  }

  /** The part of publishOnChainHtlc that runs once HtlcPublished is durable: (run, published, err). */
  function SendHtlc(r: Run): (Run, bool, bool) {
    var (w1, fee) := SendOutputs(r.w);
    if fee.None? then
      (Persist(SetState(r.(w := w1), FailInsufficientConfirmedBalance)).0, false, true)
    else
      var m := r.m.(htlcTxKnown := true, cost := r.m.cost.(onchain := fee.value));
      var (r2, err) := Persist(Run(m, w1));
      (r2, !err, err)
  }

  /** (run, published, err) */
  function PublishOnChainHtlc(c: Contract, r: Run): (Run, bool, bool) {
    if c.expiry - r.m.height < MIN_PUBLISH_DELTA then
      var (r1, err) := Persist(SetState(r, FailTimeout));
      (r1, false, err)
    else
      var (w1, failed) := Query(r.w);
      if failed then (r.(w := w1), false, true)
      else
        var (r2, err) := Persist(SetState(r.(w := w1), HtlcPublished));
        if err then (r2, false, true) else SendHtlc(r2)
  }

  /** The first phase of executeSwap: only an Initiated swap publishes. */
  function EnsurePublished(c: Contract, r: Run): (Run, bool, bool) {
    if !r.m.state.Initiated? then (r, true, false)
    else if c.external then
      var (r1, err) := Persist(SetState(r, HtlcPublished));
      (r1, !err, err)
    else PublishOnChainHtlc(c, r)
  }

  /** Waits for the HTLC; the result is its confirmed value, or nothing on an error. */
  function WaitForHtlcConf(r: Run): (Run, Option<int>)
    decreases |r.w.tape|
  {
    var (w1, e) := Hear(r.w);
    if e.None? then (r, None)
    else
      var r1 := r.(w := w1);
      match e.value
      case HtlcConf(value) => (r1.(m := r1.m.(htlcTxKnown := true)), Some(value))
      case Block(h) => WaitForHtlcConf(r1.(m := r1.m.(height := h)))
      case Abandon => (SetStateAbandoned(r1), None)
      case StreamError => (r1, None)
      case Quit => (r1, None)
      case _ => WaitForHtlcConf(r1)
  }

  /** An HTLC of the wrong value marks the swap, which then waits for its refund. */
  function CheckHtlcValue(c: Contract, r: Run, value: int): Run {
    if r.m.state.FailIncorrectHtlcAmt? || value == c.amount then r
    else Persist(SetState(r, FailIncorrectHtlcAmt)).0
  }

  /** The invoice was paid before it could be canceled: looks up and books the
      payment: (run, err). */
  function BookPayment(c: Contract, r: Run): (out: (Run, bool))
    ensures |out.0.w.tape| <= |r.w.tape|
  {
    var (w1, paid) := LookupInvoice(r.w);
    if paid.None? then (r.(w := w1), false)
    else
      var m := r.m.(cost := r.m.cost.(server := c.amount - paid.value), invoiceSettled := true);
      if m.state.HtlcPublished? then Persist(SetState(Run(m, w1), InvoiceSettled)) else (Run(m, w1), false)
  }

  /** (run, refund, err) */
  function AuthorizeRefund(c: Contract, r: Run): (out: (Run, bool, bool))
    ensures |out.0.w.tape| <= |r.w.tape|
  {
    if r.m.invoiceCanceled then (r, true, false)
    else
      var (w1, result) := CancelInvoice(r.w);
      match result
      case OtherError => (r.(w := w1), false, false)
      case AlreadySettled =>
        var (r2, err) := BookPayment(c, r.(w := w1));
        (r2, false, err)
      case _ => (Run(r.m.(invoiceCanceled := true), w1), true, false)
  }

  /** (run, sweep fee, err) */
  function PublishTxOnTimeout(c: Contract, r: Run): (out: (Run, int, bool))
    ensures |out.0.w.tape| <= |r.w.tape|
  {
    if r.m.invoiceSettled || r.m.state.InvoiceSettled? || r.m.state.Success? then (r, 0, false)
    else if r.m.height < c.expiry then (r, 0, false)
    else
      var (r1, refund, err) := AuthorizeRefund(c, r);
      if err || !refund then (r1, 0, err)
      else
        var (w2, fee, txErr) := PublishTimeoutTx(r1.w);
        (r1.(w := w2), fee, txErr)
  }

  function ProcessHtlcSpend(r: Run, success: bool, sweepFee: int): (out: (Run, bool))
    ensures |out.0.w.tape| <= |r.w.tape|
  {
    if success then (SetState(r, Success), false)
    else
      var m := r.m.(
        cost := r.m.cost.(onchain := r.m.cost.onchain + sweepFee),
        state := if r.m.state.FailIncorrectHtlcAmt? then FailIncorrectHtlcAmtSwept else FailTimeout);
      var (w1, result) := CancelInvoice(r.w);
      match result
      case OtherError => (Run(m, w1), true)
      case AlreadySettled => (Run(m, w1), false)
      case _ => (Run(m.(invoiceCanceled := true), w1), false)
  }

  /** The locals of waitForSwapComplete; spent is the source's htlcSpend. History:
      paidSeen if a settled update was handled. */
  datatype Locals = Locals(
    sweepFee: int, spent: bool, invoiceFinalized: bool, keyRevealed: bool, paidSeen: bool)

  const NO_LOCALS := Locals(0, false, false, false, false)

  predicate Completed(m: Swap, l: Locals) {
    l.spent && (l.invoiceFinalized || m.invoiceCanceled)
  }

  predicate SettledAndExpired(c: Contract, m: Swap) {
    m.state.InvoiceSettled? && m.height >= c.expiry
  }

  function OnBlock(c: Contract, r: Run, l: Locals, h: int): (out: (Run, Locals, bool))
    ensures |out.0.w.tape| <= |r.w.tape|
  {
    var (r1, fee, err) := PublishTxOnTimeout(c, r.(m := r.m.(height := h)));
    if err then (r1, l, true)
    else
      var l1 := l.(sweepFee := fee);
      if r1.m.invoiceSettled && !l1.keyRevealed then
        var (r2, revealed) := TryPushHtlcKey(c, r1);
        (r2, l1.(keyRevealed := revealed), false)
      else (r1, l1, false)
  }

  /** The settled update: InvoiceSettled is stored before the payment is booked. */
  function StoreSettled(r: Run): (out: (Run, bool))
    ensures |out.0.w.tape| <= |r.w.tape|
  {
    if r.m.state.HtlcPublished? then Persist(SetState(r, InvoiceSettled)) else (r, false)
  }

  function OnSettled(c: Contract, r: Run, l: Locals, paid: int): (out: (Run, Locals, bool))
    ensures |out.0.w.tape| <= |r.w.tape|
  {
    var (r1, err) := StoreSettled(r);
    if err then (r1, l, true)
    else
      var (r2, revealed) := TryPushHtlcKey(c, r1.(m := r1.m.(invoiceSettled := true)));
      var m := r2.m.(cost := r2.m.cost.(server := c.amount - paid));
      (r2.(m := m), l.(invoiceFinalized := true, keyRevealed := revealed, paidSeen := true), false)
  }

  function OnInvoiceUpdate(c: Contract, r: Run, l: Locals): (out: (Run, Locals, bool))
    ensures |out.0.w.tape| <= |r.w.tape|
  {
    match r.w.invoice
    case Open => (r, l, false)
    case Settled(paid) => OnSettled(c, r, l, paid)
    case _ => (r.(m := r.m.(invoiceCanceled := true)), l.(invoiceFinalized := true), false)
  }

  /** One turn of the select loop; true means that the loop returns an error. */
  function OnEvent(c: Contract, r: Run, l: Locals, e: Event): (out: (Run, Locals, bool))
    ensures |out.0.w.tape| <= |r.w.tape|
  {
    match e
    case Block(h) => OnBlock(c, r, l, h)
    case HtlcSpend(success) =>
      var (r1, err) := ProcessHtlcSpend(r, success, l.sweepFee);
      (r1, if err then l else l.(spent := true), err)
    case InvoiceUpdate => OnInvoiceUpdate(c, r, l)
    case Abandon => (SetStateAbandoned(r), l, true)
    case StreamError => (r, l, true)
    case Quit => (r, l, true)
    case _ => (r, l, false)
  }

  function WaitLoop(c: Contract, r: Run, l: Locals): (Run, Locals, bool)
    decreases |r.w.tape|, 0
  {
    if Completed(r.m, l) then (r, l, false)
    else if SettledAndExpired(c, r.m) then (SetState(r, Success), l, false)
    else
      var (w1, e) := Hear(r.w);
      if e.None? then (r, l, true) else Turn(c, r.(w := w1), l, e.value)
  }

  /** One turn of the loop, and the rest of it. */
  function Turn(c: Contract, r: Run, l: Locals, e: Event): (Run, Locals, bool)
    decreases |r.w.tape|, 1
  {
    var (r1, l1, err) := OnEvent(c, r, l, e);
    if err then (r1, l1, true) else WaitLoop(c, r1, l1)
  }

  function WaitForSwapComplete(c: Contract, r: Run): (Run, Locals, bool) {
    var l := NO_LOCALS;
    var (w1, failed) := WatchSpend(r.w);
    if failed then (r.(w := w1), l, true)
    else
      var settled := r.m.invoiceSettled || r.m.state.InvoiceSettled? || r.m.state.Success?;
      var (r1, fee, err) := PublishTxOnTimeout(c, Run(r.m.(invoiceSettled := settled), w1));
      if err then (r1, l, true) else WaitLoop(c, r1, l.(sweepFee := fee))
  }

  /** The swap as the wait for completion found it, and the locals it left. */
  datatype Waited = Waited(entry: Swap, locals: Locals)

  /** What executeSwap does once the HTLC is confirmed with the value. */
  function Complete(c: Contract, r: Run, value: int): (Run, Waited, bool) {
    var r1 := CheckHtlcValue(c, r, value);
    var (r2, l, err) := WaitForSwapComplete(c, r1);
    if err then (r2, Waited(r1.m, l), true)
    else
      var (r3, err3) := Persist(r2);
      (r3, Waited(r1.m, l), err3)
  }

  /** (run, the wait if it was reached, err) */
  function ExecuteSwap(c: Contract, r: Run): (Run, Option<Waited>, bool) {
    if r.m.state.IsFinal() then (r, None, true)
    else
      var (r1, published, err1) := EnsurePublished(c, r);
      if err1 || !published then (r1, None, err1)
      else
        var (r2, value) := WaitForHtlcConf(r1);
        if value.None? then (r2, None, true)
        else
          var (r3, waited, err3) := Complete(c, r2, value.value);
          (r3, Some(waited), err3)
  }

  // ----- Restarts -----

  /** resumeLoopInSwap: only what the last update holds survives a restart. */
  function Resume(log: seq<LoopEvent>, height: int): Swap {
    if log == [] then Swap(Initiated, NO_COST, false, height, false, false)
    else
      var last := log[|log| - 1];
      Swap(last.state, last.cost, last.htlcTxKnown, height, false, false)
  }

  /** One life of the client process; moves happen while it is down. */
  datatype Life = Life(moves: seq<Move>, tape: seq<Tick>, height: int)

  function Live(c: Contract, w: World, life: Life): World {
    var w1 := w.(invoice := ApplyMoves(w.invoice, life.moves), tape := life.tape);
    if LastState(w.log).IsFinal() then w1
    else ExecuteSwap(c, Run(Resume(w.log, life.height), Started(w1, life.height))).0.w
  }

  /** The outside at the start of a life. */
  function Started(w: World, height: int): World {
    w.(watch := ForConf, height := height, confirmed := None, spends := [], built := None)
  }

  function Lives(c: Contract, w: World, lives: seq<Life>): World
    decreases |lives|
  {
    if lives == [] then w else Lives(c, Live(c, w, lives[0]), lives[1..])
  }

  const NEW_SWAP := World([], Open, [], [], [], 0, ForConf, 0, None, [], None)

  // ----- Exclusion and single publication -----

  /** The fee of the send that the stored updates know of: the call was acknowledged, and
      the store call after it took effect. */
  function StoredFee(sends: seq<Send>): int {
    if sends == [] then 0
    else
      var s := sends[|sends| - 1];
      if s.reply.Ack? && s.next.Some? && !s.next.value.Refused? then s.fee else 0
  }

  /** HtlcPublished was durable, and by the height last reported ten blocks were left. */
  predicate SendOk(c: Contract, s: Send) {
    s.durable.HtlcPublished? && c.expiry - s.height >= 10
  }

  predicate AllAtLeast(hs: seq<int>, least: int) {
    hs == [] || (hs[|hs| - 1] >= least && AllAtLeast(hs[..|hs| - 1], least))
  }

  predicate WorldSafe(c: Contract, w: World) {
    && (w.timeoutTxs != [] ==> w.invoice.IsCanceled()) && AllAtLeast(w.timeoutTxs, c.expiry)
    && (w.keyPushes > 0 ==> w.invoice.Settled? && c.musig2)
    && (w.sends == [] || (|w.sends| == 1 && SendOk(c, w.sends[0]) && !c.external && w.log != []))
    && (LastState(w.log).Initiated? ==> w.log == [])
    && (LastState(w.log).InvoiceSettled? ==> w.invoice.Settled?)
    && (w.log != [] ==> LastCostSafe(w, w.log[|w.log| - 1].cost))
  }

  /** What is known of the cost stored last. */
  predicate LastCostSafe(w: World, cost: SwapCost) {
    && (!w.invoice.Settled? ==> cost.server == 0)
    && (LastState(w.log).IsPending() ==> cost.onchain == StoredFee(w.sends))
  }

  /** The last update is one that only a completed wait stores. A FailTimeout
      that is the first update is an HTLC that was never published. */
  predicate Finished(log: seq<LoopEvent>) {
    var s := LastState(log);
    s.Success? || s.FailIncorrectHtlcAmtSwept? || (s.FailTimeout? && |log| > 1)
  }

  /** What holds of the outside when an execution stops before its wait has completed. */
  predicate Stopped(c: Contract, w: World) {
    WorldSafe(c, w) && !Finished(w.log)
  }

  /** What holds until the wait has completed. */
  predicate Safe(c: Contract, r: Run) {
    && Stopped(c, r.w)
    && (r.m.invoiceCanceled ==> r.w.invoice.IsCanceled())
    && (r.m.invoiceSettled ==> r.w.invoice.Settled?)
    && (r.m.state.InvoiceSettled? ==> r.w.invoice.Settled?)
    && (r.m.state.Initiated? ==> r.w.log == [])
    && (!r.w.invoice.Settled? ==> r.m.cost.server == 0)
    && (r.m.state.IsPending() ==> r.m.cost.onchain == StoredFee(r.w.sends))
    && r.m.height == r.w.height
  }

  /** Safe, and past publication. */
  predicate Going(c: Contract, r: Run) {
    Safe(c, r) && !r.m.state.Initiated? && r.w.log != []
  }

  /** Going, and not yet resolved: what the waits start from. */
  predicate Ready(c: Contract, r: Run) {
    Going(c, r) && r.m.state.IsPending()
  }

  /** The states that the executor stores before the wait has completed. */
  predicate Underway(s: SwapState) {
    s.HtlcPublished? || s.InvoiceSettled? || s.FailIncorrectHtlcAmt?
    || s.FailAbandoned? || s.FailInsufficientConfirmedBalance?
  }

  /** What the outside has reported to this life is the same. */
  predicate SameReports(w: World, w': World) {
    && w'.watch == w.watch && w'.height == w.height && w'.confirmed == w.confirmed
    && w'.spends == w.spends && w'.sends == w.sends
  }

  /** Calls were made that changed nothing, while the invoice may have moved. */
  predicate Moved(w: World, w': World) {
    && w' == w.(tape := w'.tape, invoice := w'.invoice)
    && (w.invoice.Settled? ==> w'.invoice == w.invoice)
    && (w.invoice.IsCanceled() ==> w'.invoice.IsCanceled())
  }

  lemma NextMoves(w: World)
    ensures Moved(w, Next(w).0)
  {
  }

  lemma CancelMoves(w: World)
    ensures Moved(w, CancelInvoice(w).0)
  {
    NextMoves(w);
  }

  lemma LookupMoves(w: World)
    ensures var (w', paid) := LookupInvoice(w); Moved(w, w') && (paid.Some? ==> w'.invoice == Settled(paid.value))
  {
    NextMoves(w);
  }

  lemma MovedSafe(c: Contract, r: Run, w': World)
    requires Safe(c, r) && Moved(r.w, w')
    ensures Safe(c, r.(w := w')) && (Going(c, r) ==> Going(c, r.(w := w')))
    ensures SameReports(r.w, w') && w'.built == r.w.built
  {
  }

  /** An update was stored. */
  lemma AppendSafe(c: Contract, r: Run, w': World)
    requires Safe(c, r) && Underway(r.m.state)
    requires w' == r.w.(log := r.w.log + [LoopEvent(r.m.state, r.m.cost, r.m.htlcTxKnown)])
    ensures Going(c, r.(w := w'))
  {
  }

  lemma PersistSafe(c: Contract, r: Run)
    requires Safe(c, r) && Underway(r.m.state)
    ensures var (r', err) := Persist(r);
            && Safe(c, r') && r'.m == r.m && (!err || r.w.log != [] ==> Going(c, r'))
            && SameReports(r.w, r'.w) && r'.w.built == r.w.built
            && (r.w.invoice.Settled? ==> r'.w.invoice == r.w.invoice)
  {
    NextMoves(r.w);
    var w1 := Next(r.w).0;
    MovedSafe(c, r, w1);
    AppendSafe(c, r.(w := w1), w1.(log := w1.log + [LoopEvent(r.m.state, r.m.cost, r.m.htlcTxKnown)]));
  }

  lemma CancelSafe(c: Contract, r: Run)
    requires Going(c, r)
    ensures var w' := CancelInvoice(r.w).0;
            Going(c, r.(w := w')) && SameReports(r.w, w') && w'.built == r.w.built
  {
    CancelMoves(r.w);
    MovedSafe(c, r, CancelInvoice(r.w).0);
  }

  lemma AbandonSafe(c: Contract, r: Run)
    requires Going(c, r)
    ensures Stopped(c, SetStateAbandoned(r).w)
  {
    if r.m.state.IsPending() {
      var r0 := SetState(r, FailAbandoned);
      PersistSafe(c, r0);
      CancelSafe(c, Persist(r0).0);
    }
  }

  /** An abandoned swap is stored as such and its invoice is canceled, unless it is
      resolved already or a call fails; an unpaid invoice can then no longer be paid. */
  lemma AbandonExactly(r: Run)
    requires r.m.state.IsPending() && |r.w.tape| >= 2 && r.w.tape[0].reply.Ack? && !r.w.tape[1].reply.Refused?
    ensures var r' := SetStateAbandoned(r);
            && LastState(r'.w.log).FailAbandoned? && |r'.w.log| == |r.w.log| + 1
            && !r'.w.invoice.Open?
  {
  }

  /** Nothing that the wait depends on changed. */
  predicate SameBooks(m: Swap, m': Swap) {
    && m'.invoiceSettled == m.invoiceSettled && m'.invoiceCanceled == m.invoiceCanceled
    && m'.cost.server == m.cost.server
    && m'.state.InvoiceSettled? == m.state.InvoiceSettled?
  }

  /** Nothing was reported to this life yet but its height. */
  predicate Fresh(w: World) {
    w.watch.ForConf? && w.confirmed.None? && w.spends == [] && w.built.None?
  }

  lemma Sent(c: Contract, w: World)
    requires Stopped(c, w) && w.sends == [] && LastState(w.log) == HtlcPublished && !c.external
    requires c.expiry - w.height >= 10 && w.log[|w.log| - 1].cost.onchain == 0
    ensures var (w', fee) := SendOutputs(w);
            && (w.tape == [] ==> w' == w && fee.None?)
            && (w.tape != [] ==>
                  && |w'.sends| == 1 && SendOk(c, w'.sends[0]) && w'.tape == w.tape[1..]
                  && (fee.Some? <==> w'.sends[0].reply.Ack?) && (fee.Some? ==> fee.value == w'.sends[0].fee)
                  && w'.sends[0].next == (if w'.tape == [] then None else Some(w'.tape[0].reply)))
            && w' == w.(tape := w'.tape, invoice := w'.invoice, sends := w'.sends)
            && (w.invoice.Settled? ==> w'.invoice == w.invoice)
            && (w.invoice.IsCanceled() ==> w'.invoice.IsCanceled())
  {
  }

  /** SendOutputs is called once, with HtlcPublished durable and ten blocks to go. Exactly
      a failed call marks the swap FailInsufficientConfirmedBalance, which is what is
      stored if anything is; otherwise the fee is booked. */
  lemma SendSafe(c: Contract, r: Run)
    requires Safe(c, r) && r.m.state.HtlcPublished? && r.w.sends == [] && !c.external && Fresh(r.w)
    requires LastState(r.w.log) == HtlcPublished && c.expiry - r.w.height >= 10
    ensures var (r', published, err) := SendHtlc(r);
            && Stopped(c, r'.w) && err == !published
            && (published ==>
                  && Ready(c, r') && SameBooks(r.m, r'.m) && Fresh(r'.w)
                  && |r'.w.sends| == 1 && r'.m.cost.onchain == r'.w.sends[0].fee && r'.m.htlcTxKnown)
            && (r'.m.state.FailInsufficientConfirmedBalance? <==> SendOutputs(r.w).1.None?)
            && (r'.m.state.HtlcPublished? <==> SendOutputs(r.w).1.Some?)
            && (r'.w.log == r.w.log || LastState(r'.w.log) == r'.m.state)
  {
    Sent(c, r.w);
    var (w1, fee) := SendOutputs(r.w);
    if fee.None? {
      var r1 := SetState(r.(w := w1), FailInsufficientConfirmedBalance);
      FailedSendStored(c, r1);
      Stores(r1);
      assert SendHtlc(r) == (Persist(r1).0, false, true);
    } else {
      var r1 := Run(r.m.(htlcTxKnown := true, cost := r.m.cost.(onchain := fee.value)), w1);
      FeeStored(c, r1, r);
      Stores(r1);
      assert SendHtlc(r) == (Persist(r1).0, !Persist(r1).1, Persist(r1).1);
    }
  }

  lemma Stores(r: Run)
    ensures var r' := Persist(r).0; r'.m == r.m && (r'.w.log == r.w.log || LastState(r'.w.log) == r.m.state)
  {
  }

  lemma FailedSendStored(c: Contract, r: Run)
    requires WorldSafe(c, r.w.(sends := [])) && !Finished(r.w.log) && LastState(r.w.log) == HtlcPublished
    requires r.m.state.FailInsufficientConfirmedBalance? && (!r.w.invoice.Settled? ==> r.m.cost.server == 0)
    requires r.w.sends == [] || (|r.w.sends| == 1 && SendOk(c, r.w.sends[0]) && !r.w.sends[0].reply.Ack? && !c.external)
    ensures Stopped(c, Persist(r).0.w)
  {
    NextMoves(r.w);
    var w1 := Next(r.w).0;
    var e := LoopEvent(r.m.state, r.m.cost, r.m.htlcTxKnown);
    assert Stopped(c, w1);
    assert Stopped(c, w1.(log := w1.log + [e]));
  }

  lemma FeeStored(c: Contract, r: Run, before: Run)
    requires Safe(c, before) && before.m.state.HtlcPublished? && before.w.sends == [] && Fresh(before.w)
    requires LastState(before.w.log) == HtlcPublished && !c.external
    requires |r.w.sends| == 1 && SendOk(c, r.w.sends[0]) && r.w.sends[0].reply.Ack?
    requires r.w.sends[0].next == (if r.w.tape == [] then None else Some(r.w.tape[0].reply))
    requires r.w == before.w.(tape := r.w.tape, invoice := r.w.invoice, sends := r.w.sends)
    requires r.m == before.m.(htlcTxKnown := true, cost := before.m.cost.(onchain := r.w.sends[0].fee))
    requires before.w.invoice.Settled? ==> r.w.invoice == before.w.invoice
    requires before.w.invoice.IsCanceled() ==> r.w.invoice.IsCanceled()
    ensures var (r', err) := Persist(r);
            Stopped(c, r'.w) && (!err ==> Ready(c, r') && Fresh(r'.w) && r'.w.sends == r.w.sends)
  {
  }

  lemma PublishSafe(c: Contract, r: Run)
    requires Safe(c, r) && r.m.state.Initiated? && !c.external && Fresh(r.w)
    ensures var (r', published, err) := PublishOnChainHtlc(c, r);
            && Stopped(c, r'.w)
            && (published ==>
                  && Ready(c, r') && !err && SameBooks(r.m, r'.m) && Fresh(r'.w)
                  && |r'.w.sends| == 1 && r'.m.cost.onchain == r'.w.sends[0].fee && r'.m.htlcTxKnown)
            && (!published && !err ==> r'.m.state.FailTimeout? && Durable(r') && c.expiry - r.w.height < 10)
  {
    if c.expiry - r.m.height >= MIN_PUBLISH_DELTA {
      var (w1, failed) := Query(r.w);
      if !failed {
        var r1 := SetState(r.(w := w1), HtlcPublished);
        PersistSafe(c, r1);
        var (r2, err) := Persist(r1);
        if !err {
          SendSafe(c, r2);
        }
      }
    }
  }

  lemma LookupSafe(c: Contract, r: Run)
    requires Going(c, r)
    ensures var (w', paid) := LookupInvoice(r.w);
            && Going(c, r.(w := w')) && (paid.Some? ==> w'.invoice == Settled(paid.value))
            && SameReports(r.w, w') && w'.built == r.w.built
  {
    LookupMoves(r.w);
    MovedSafe(c, r, LookupInvoice(r.w).0);
  }

  /** The swap notes the payment. */
  lemma PaidSafe(c: Contract, r: Run, server: int)
    requires Going(c, r) && r.w.invoice.Settled?
    ensures var r' := r.(m := r.m.(cost := r.m.cost.(server := server), invoiceSettled := true));
            Going(c, r') && (r.m.state.HtlcPublished? ==> Going(c, SetState(r', InvoiceSettled)))
  {
  }

  /** A payment found by the lookup is booked as what was paid short of the amount. */
  lemma BookSafe(c: Contract, r: Run)
    requires Going(c, r)
    ensures var r' := BookPayment(c, r).0;
            && Going(c, r') && SameReports(r.w, r'.w) && r'.w.built == r.w.built
            && (r'.m == r.m || (r'.m.invoiceSettled && r'.m.cost.server == c.amount - Paid(r'.w.invoice)))
  {
    LookupSafe(c, r);
    var (w1, paid) := LookupInvoice(r.w);
    if paid.Some? {
      PaidSafe(c, r.(w := w1), c.amount - paid.value);
      var m := r.m.(cost := r.m.cost.(server := c.amount - paid.value), invoiceSettled := true);
      if m.state.HtlcPublished? {
        var r0 := SetState(Run(m, w1), InvoiceSettled);
        PersistSafe(c, r0);
        assert BookPayment(c, r) == Persist(r0);
      } else {
        assert BookPayment(c, r) == (Run(m, w1), false);
      }
    }
  }

  /** A refund is authorized only with the invoice canceled. Otherwise the swap
      is as it was, or a payment was found and booked. */
  lemma RefundSafe(c: Contract, r: Run)
    requires Going(c, r)
    ensures var (r', refund, _) := AuthorizeRefund(c, r);
            && Going(c, r') && SameReports(r.w, r'.w) && r'.w.built == r.w.built
            && (refund ==> r'.w.invoice.IsCanceled() && r'.m == r.m.(invoiceCanceled := true))
            && (!refund ==>
                  r'.m == r.m || (r'.m.invoiceSettled && r'.m.cost.server == c.amount - Paid(r'.w.invoice)))
  {
    if !r.m.invoiceCanceled {
      var (w1, result) := CancelInvoice(r.w);
      CancelSafe(c, r);
      if result.AlreadySettled? {
        BookSafe(c, r.(w := w1));
      }
    }
  }

  lemma AtLeastGrows(hs: seq<int>, h: int, least: int)
    ensures AllAtLeast(hs + [h], least) <==> AllAtLeast(hs, least) && h >= least
  {
    assert (hs + [h])[..|hs|] == hs;
  }

  lemma TimeoutTxSafe(c: Contract, r: Run)
    requires Going(c, r) && r.w.invoice.IsCanceled() && r.w.height >= c.expiry
    ensures var (w', fee, err) := PublishTimeoutTx(r.w);
            && Going(c, r.(w := w')) && SameReports(r.w, w') && w'.invoice.IsCanceled()
            && (!err ==> w'.built == Some(fee))
  {
    AtLeastGrows(r.w.timeoutTxs, r.w.height, c.expiry);
    NextMoves(r.w);
    var (w1, t) := Next(r.w);
    MovedSafe(c, r, w1);
    if t.Some? && t.value.reply.Ack? {
      NextMoves(w1.(built := Some(t.value.fee)));
    }
  }

  /** The fee of the timeout transaction built since the last block. */
  function Built(w: World): int {
    if w.built.Some? then w.built.value else 0
  }

  /** A timeout transaction is built only at or after the expiry, by the height last
      reported, and its fee is what the wait remembers. */
  lemma TimeoutSafe(c: Contract, r: Run)
    requires Going(c, r) && r.w.built.None?
    ensures var (r', fee, err) := PublishTxOnTimeout(c, r);
            Going(c, r') && SameReports(r.w, r'.w) && (!err ==> fee == Built(r'.w))
  {
    RefundSafe(c, r);
    var (r1, refund, err) := AuthorizeRefund(c, r);
    if refund && r.m.height >= c.expiry {
      TimeoutTxSafe(c, r1);
    }
  }

  lemma PushKeySafe(c: Contract, r: Run)
    requires Going(c, r)
    ensures var r' := TryPushHtlcKey(c, r).0;
            && Going(c, r') && r'.m == r.m && (r.w.invoice.Settled? ==> r'.w.invoice == r.w.invoice)
            && SameReports(r.w, r'.w) && r'.w.built == r.w.built
  {
    NextMoves(r.w);
    var w1 := Next(r.w).0;
    MovedSafe(c, r, w1);
    NextMoves(w1);
    MovedSafe(c, r.(w := w1), Next(w1).0);
  }

  /** The key of a settled swap is pushed exactly if it can be derived and the process
      lives to push it. */
  lemma PushKeyExactly(c: Contract, r: Run)
    ensures var (r', revealed) := TryPushHtlcKey(c, r);
            && (r'.w.keyPushes == r.w.keyPushes + 1 <==>
                  c.musig2 && r.m.invoiceSettled && |r.w.tape| >= 2 && r.w.tape[0].reply.Ack?)
            && (r'.w.keyPushes == r.w.keyPushes || r'.w.keyPushes == r.w.keyPushes + 1)
            && (revealed <==> r'.w.keyPushes == r.w.keyPushes + 1 && r.w.tape[1].reply.Ack?)
  {
  }

  /** At or after the expiry, every block gets an unpaid swap's invoice canceled and a
      timeout transaction broadcast, as far as the calls succeed. */
  lemma BlockRefunds(c: Contract, r: Run, l: Locals, h: int)
    requires h >= c.expiry && !r.m.invoiceSettled && !r.m.state.InvoiceSettled? && !r.m.state.Success?
    requires !r.w.invoice.Settled? && (r.m.invoiceCanceled ==> r.w.invoice.IsCanceled())
    requires |r.w.tape| >= 3 && forall t <- r.w.tape[..2] :: t.reply.Ack? && t.moves == []
    ensures var r' := OnBlock(c, r, l, h).0;
            r'.w.invoice.IsCanceled() && r'.m.invoiceCanceled && r'.w.timeoutTxs == r.w.timeoutTxs + [r.w.height]
  {
    assert r.w.tape[0] in r.w.tape[..2] && r.w.tape[1] in r.w.tape[..2];
    var r0 := r.(m := r.m.(height := h));
    if r.m.invoiceCanceled {
      Broadcasts(r0.w);
    } else {
      var w1 := CancelInvoice(r.w).0;
      assert w1.invoice.IsCanceled();
      assert AuthorizeRefund(c, r0) == (Run(r0.m.(invoiceCanceled := true), w1), true, false);
      Broadcasts(w1);
    }
  }

  lemma Broadcasts(w: World)
    requires |w.tape| >= 2 && w.tape[0].reply.Ack?
    ensures var (w', fee, err) := PublishTimeoutTx(w);
            !err && fee == w.tape[0].fee && w'.timeoutTxs == w.timeoutTxs + [w.height]
            && (w.invoice.IsCanceled() ==> w'.invoice.IsCanceled())
  {
  }

  /** An update that reports the invoice paid or canceled is taken note of. */
  lemma UpdateFinalizes(c: Contract, r: Run, l: Locals)
    ensures var (r', l', err) := OnInvoiceUpdate(c, r, l);
            !err ==> (l'.invoiceFinalized <==> l.invoiceFinalized || !r.w.invoice.Open?)
                     && (r.w.invoice.IsCanceled() ==> r'.m.invoiceCanceled)
                     && (r.w.invoice.Settled? ==> r'.m.invoiceSettled)
  {
    if r.w.invoice.Settled? {
      KeyLeavesSwap(c, StoreSettled(r).0.(m := StoreSettled(r).0.m.(invoiceSettled := true)));
    }
  }

  lemma KeyLeavesSwap(c: Contract, r: Run)
    ensures TryPushHtlcKey(c, r).0.m == r.m
  {
  }

  /** A settled update pushes the key, once the state is stored, if it can be derived. */
  lemma UpdatePushesKey(c: Contract, r: Run, l: Locals)
    requires c.musig2 && r.w.invoice.Settled? && !r.m.state.HtlcPublished?
    requires |r.w.tape| >= 2 && r.w.tape[0].reply.Ack?
    ensures var (r', l', _) := OnInvoiceUpdate(c, r, l);
            r'.w.keyPushes == r.w.keyPushes + 1 && (l'.keyRevealed <==> r.w.tape[1].reply.Ack?)
  {
    PushKeyExactly(c, r.(m := r.m.(invoiceSettled := true)));
  }

  /** So does every block after that, until a push was acknowledged. */
  lemma BlockPushesKey(c: Contract, r: Run, l: Locals, h: int)
    requires c.musig2 && r.m.invoiceSettled && |r.w.tape| >= 2 && r.w.tape[0].reply.Ack?
    ensures var (r', l', _) := OnBlock(c, r, l, h);
            && r'.w.keyPushes == r.w.keyPushes + (if l.keyRevealed then 0 else 1)
            && (l'.keyRevealed <==> l.keyRevealed || r.w.tape[1].reply.Ack?)
  {
    PushKeyExactly(c, r.(m := r.m.(height := h)));
  }

  lemma SpendSafe(c: Contract, r: Run, success: bool, sweepFee: int)
    requires Going(c, r)
    ensures var (r', err) := ProcessHtlcSpend(r, success, sweepFee);
            && Going(c, r') && SameReports(r.w, r'.w) && r'.w.built == r.w.built
            && r'.m.cost.onchain == r.m.cost.onchain + (if success then 0 else sweepFee)
            && r'.m.cost.server == r.m.cost.server && r'.m.invoiceSettled == r.m.invoiceSettled
            && (r.m.invoiceCanceled ==> r'.m.invoiceCanceled)
            && r'.m.state == (if success then Success
                              else if r.m.state.FailIncorrectHtlcAmt? then FailIncorrectHtlcAmtSwept else FailTimeout)
  {
    if !success {
      CancelSafe(c, r);
      CancelAnswers(r.w);
    }
  }

  lemma CancelAnswers(w: World)
    ensures var (w', result) := CancelInvoice(w); result.Done? || result.NotFound? ==> w'.invoice.IsCanceled()
  {
  }

  lemma BlockSafe(c: Contract, r: Run, l: Locals, h: int)
    requires Going(c, r.(m := r.m.(height := h))) && r.w.built.None?
    ensures var (r', l', err) := OnBlock(c, r, l, h);
            && Going(c, r') && SameReports(r.w, r'.w)
            && (!err ==> l'.sweepFee == Built(r'.w) && l' == l.(sweepFee := l'.sweepFee, keyRevealed := l'.keyRevealed))
  {
    var r0 := r.(m := r.m.(height := h));
    TimeoutSafe(c, r0);
    PushKeySafe(c, PublishTxOnTimeout(c, r0).0);
  }

  lemma StoreSettledSafe(c: Contract, r: Run)
    requires Going(c, r) && r.w.invoice.Settled?
    ensures var r' := StoreSettled(r).0;
            && Going(c, r') && r'.w.invoice == r.w.invoice && SameReports(r.w, r'.w) && r'.w.built == r.w.built
            && r'.m == (if r.m.state.HtlcPublished? then r.m.(state := InvoiceSettled) else r.m)
  {
    if r.m.state.HtlcPublished? {
      PersistSafe(c, SetState(r, InvoiceSettled));
    }
  }

  lemma InvoiceUpdateSafe(c: Contract, r: Run, l: Locals)
    requires Going(c, r)
    ensures var (r', l', err) := OnInvoiceUpdate(c, r, l);
            Going(c, r') && SameReports(r.w, r'.w) && r'.w.built == r.w.built
  {
    if r.w.invoice.Settled? {
      StoreSettledSafe(c, r);
      var (r1, err) := StoreSettled(r);
      PushKeySafe(c, r1.(m := r1.m.(invoiceSettled := true)));
    }
  }

  /** After an event was heard: the block's height and, for a spend, the report are in. */
  predicate Heard(c: Contract, r: Run, e: Event) {
    && Going(c, if e.Block? then r.(m := r.m.(height := e.height)) else r)
    && (e.Block? ==> r.w.built.None?)
  }

  lemma EventSafe(c: Contract, r: Run, l: Locals, e: Event)
    requires Heard(c, r, e)
    ensures var (r', _, err) := OnEvent(c, r, l, e); Stopped(c, r'.w) && (!err ==> Going(c, r'))
  {
    match e
    case Block(h) => BlockSafe(c, r, l, h);
    case HtlcSpend(success) => SpendSafe(c, r, success, l.sweepFee);
    case InvoiceUpdate => InvoiceUpdateSafe(c, r, l);
    case Abandon => AbandonSafe(c, r);
    case _ =>
  }

  lemma NextSafe(c: Contract, r: Run)
    requires Going(c, r)
    ensures var w' := Next(r.w).0;
            && Going(c, r.(w := w')) && SameReports(r.w, w') && w'.built == r.w.built
            && (r.w.invoice.Settled? ==> w'.invoice == r.w.invoice)
  {
    NextMoves(r.w);
    MovedSafe(c, r, Next(r.w).0);
  }

  lemma HearSafe(c: Contract, r: Run)
    requires Going(c, r) && r.w.tape != []
    ensures var e, w' := r.w.tape[0].event, Hear(r.w).0;
            && Heard(c, r.(w := w'), e) && |w'.tape| < |r.w.tape|
            && (r.w.invoice.Settled? ==> w'.invoice == r.w.invoice)
  {
    NextMoves(r.w);
    MovedSafe(c, r, Next(r.w).0);
  }

  lemma {:induction false} WaitLoopSafe(c: Contract, r: Run, l: Locals)
    requires Going(c, r)
    ensures var (r', _, err) := WaitLoop(c, r, l); Stopped(c, r'.w) && (!err ==> Going(c, r'))
    decreases |r.w.tape|, 0
  {
    if !Completed(r.m, l) && !SettledAndExpired(c, r.m) && r.w.tape != [] {
      HearSafe(c, r);
      TurnSafe(c, r.(w := Hear(r.w).0), l, r.w.tape[0].event);
    }
  }

  lemma {:induction false} TurnSafe(c: Contract, r: Run, l: Locals, e: Event)
    requires Heard(c, r, e)
    ensures var (r', _, err) := Turn(c, r, l, e); Stopped(c, r'.w) && (!err ==> Going(c, r'))
    decreases |r.w.tape|, 1
  {
    EventSafe(c, r, l, e);
    var (r1, l1, err) := OnEvent(c, r, l, e);
    if !err {
      WaitLoopSafe(c, r1, l1);
    }
  }

  lemma WatchSafe(c: Contract, r: Run)
    requires Going(c, r)
    ensures var (w', failed) := WatchSpend(r.w);
            && Going(c, r.(w := w')) && SameReports(r.w.(watch := w'.watch), w') && w'.built == r.w.built
            && (!failed ==> w'.watch.ForSpend?)
  {
    NextSafe(c, r);
  }

  lemma WaitSafe(c: Contract, r: Run)
    requires Ready(c, r) && r.w.built.None?
    ensures Stopped(c, WaitForSwapComplete(c, r).0.w)
  {
    WatchSafe(c, r);
    var (w1, failed) := WatchSpend(r.w);
    if !failed {
      var r0 := Run(r.m.(invoiceSettled := r.m.invoiceSettled || r.m.state.InvoiceSettled?), w1);
      TimeoutSafe(c, r0);
      var (r1, fee, err) := PublishTxOnTimeout(c, r0);
      if !err {
        WaitLoopSafe(c, r1, NO_LOCALS.(sweepFee := fee));
      }
    }
  }

  lemma HearFresh(c: Contract, r: Run)
    requires Ready(c, r) && Fresh(r.w) && r.w.tape != []
    ensures var e, w' := r.w.tape[0].event, Hear(r.w).0;
            && Ready(c, if e.Block? then Run(r.m.(height := e.height), w') else r.(w := w'))
            && w'.spends == [] && w'.built.None? && w'.sends == r.w.sends && w'.watch.ForConf?
            && w'.confirmed == (if e.HtlcConf? then Some(e.value) else None)
  {
    NextMoves(r.w);
    MovedSafe(c, r, Next(r.w).0);
  }

  /** The wait for the HTLC answers with the value that was reported. */
  lemma {:induction false} ConfSafe(c: Contract, r: Run)
    requires Ready(c, r) && Fresh(r.w)
    ensures var (r', value) := WaitForHtlcConf(r);
            && Stopped(c, r'.w)
            && (value.Some? ==>
                  && Ready(c, r') && r'.m == r.m.(htlcTxKnown := true, height := r'.m.height)
                  && r'.w.confirmed == value && r'.w.spends == [] && r'.w.built.None? && r'.w.sends == r.w.sends)
    decreases |r.w.tape|
  {
    if r.w.tape != [] {
      var (w1, e) := Hear(r.w);
      var r1 := r.(w := w1);
      HearFresh(c, r);
      match e.value
      case Block(h) => ConfSafe(c, r1.(m := r1.m.(height := h)));
      case Abandon => AbandonSafe(c, r1);
      case HtlcConf(_) =>
      case StreamError =>
      case Quit =>
      case _ => ConfSafe(c, r1);
    }
  }

  lemma EnsurePublishedSafe(c: Contract, r: Run)
    requires Safe(c, r) && r.m.state.IsPending() && (r.m.state.Initiated? || r.w.log != []) && Fresh(r.w)
    ensures var (r', published, err) := EnsurePublished(c, r);
            && Stopped(c, r'.w)
            && (published ==> Ready(c, r') && !err && SameBooks(r.m, r'.m) && Fresh(r'.w))
            && (published && r.m.state.Initiated? && !c.external ==>
                  |r'.w.sends| == 1 && r'.m.cost.onchain == r'.w.sends[0].fee && r'.m.htlcTxKnown)
            && (!published && !err ==>
                  && r.m.state.Initiated? && r'.m.state.FailTimeout? && Durable(r')
                  && !c.external && c.expiry - r.w.height < 10)
  {
    if r.m.state.Initiated? {
      if c.external {
        PersistSafe(c, SetState(r, HtlcPublished));
      } else {
        PublishSafe(c, r);
      }
    }
  }

  /** Exactly an HTLC of another value marks the swap, which changes nothing else
      of it and is what is stored if anything is. */
  lemma CheckValueSafe(c: Contract, r: Run, value: int)
    requires Ready(c, r)
    ensures var r' := CheckHtlcValue(c, r, value);
            && Ready(c, r') && SameReports(r.w, r'.w) && r'.w.built == r.w.built
            && (value == c.amount ==> r' == r)
            && (value != c.amount ==> r'.m == r.m.(state := FailIncorrectHtlcAmt))
            && (r'.w.log == r.w.log || LastState(r'.w.log) == FailIncorrectHtlcAmt)
  {
    if !r.m.state.FailIncorrectHtlcAmt? && value != c.amount {
      PersistSafe(c, SetState(r, FailIncorrectHtlcAmt));
    }
  }

  // ----- Outcome and cost -----

  function Paid(i: Invoice): int {
    if i.Settled? then i.paid else 0
  }

  /** The state and cost are what the last update holds. */
  predicate Durable(r: Run) {
    r.w.log != [] && r.w.log[|r.w.log| - 1].state == r.m.state && r.w.log[|r.w.log| - 1].cost == r.m.cost
  }

  /** The fees of the timeout transactions that spent the HTLC, as far as they are known. */
  function RefundFees(spends: seq<Spend>): int {
    if spends == [] then 0
    else
      var s := spends[|spends| - 1];
      RefundFees(spends[..|spends| - 1]) + (if !s.success && s.built.Some? then s.built.value else 0)
  }

  lemma RefundFeesGrow(spends: seq<Spend>, s: Spend)
    ensures RefundFees(spends + [s]) == RefundFees(spends) + (if !s.success && s.built.Some? then s.built.value else 0)
  {
    assert (spends + [s])[..|spends|] == spends;
  }

  /** What a wait that started from entry keeps of the invoice. */
  predicate Booked(c: Contract, r: Run, l: Locals, entry: Swap) {
    && Going(c, r)
    && (l.paidSeen ==> r.m.invoiceSettled && l.invoiceFinalized)
    && (l.invoiceFinalized ==> l.paidSeen || r.m.invoiceCanceled)
    && (entry.state.InvoiceSettled? || r.m.state.InvoiceSettled? ==> r.m.invoiceSettled)
    && r.m.cost.server ==
       (if r.m.invoiceSettled && (!entry.state.InvoiceSettled? || l.paidSeen)
        then c.amount - Paid(r.w.invoice) else entry.cost.server)
  }

  /** What it keeps of the spends reported to it: the last one decides the state, and
      every refund is paid for. */
  predicate Spent(r: Run, l: Locals, entry: Swap) {
    && r.w.watch.ForSpend? && l.spent == (r.w.spends != []) && l.sweepFee == Built(r.w)
    && r.m.cost.onchain == StoredFee(r.w.sends) + RefundFees(r.w.spends)
    && BySpends(r.m.state, r.w.spends, entry)
  }

  predicate BySpends(state: SwapState, spends: seq<Spend>, entry: Swap) {
    if spends == [] then state.IsPending() && state.FailIncorrectHtlcAmt? == entry.state.FailIncorrectHtlcAmt?
    else if spends[|spends| - 1].success then state.Success?
    else
      && (state.FailTimeout? || state.FailIncorrectHtlcAmtSwept?)
      && (|spends| == 1 ==> state.FailIncorrectHtlcAmtSwept? == entry.state.FailIncorrectHtlcAmt?)
  }

  /** Booking a payment for the first time. */
  lemma RefundBooked(c: Contract, r: Run, l: Locals, entry: Swap)
    requires Booked(c, r, l, entry) && !r.m.invoiceSettled
    ensures Booked(c, AuthorizeRefund(c, r).0, l, entry)
  {
    RefundSafe(c, r);
  }

  lemma TimeoutBooked(c: Contract, r: Run, l: Locals, entry: Swap)
    requires Booked(c, r, l, entry) && r.w.built.None?
    ensures var (r', fee, err) := PublishTxOnTimeout(c, r); Booked(c, r', l.(sweepFee := fee), entry)
  {
    if !r.m.invoiceSettled {
      RefundBooked(c, r, l, entry);
      RefundSafe(c, r);
      var (r1, refund, err) := AuthorizeRefund(c, r);
      if refund && r.m.height >= c.expiry {
        TimeoutTxSafe(c, r1);
      }
    }
  }

  /** Looking for the refund touches the state only to note the payment. */
  lemma TimeoutStates(c: Contract, r: Run)
    requires Going(c, r) && r.w.built.None?
    ensures var r' := PublishTxOnTimeout(c, r).0;
            && r'.m.cost.onchain == r.m.cost.onchain
            && (r'.m.state == r.m.state || (r.m.state.HtlcPublished? && r'.m.state.InvoiceSettled?))
  {
    BookStates(c, r);
  }

  lemma BookStates(c: Contract, r: Run)
    ensures var r' := AuthorizeRefund(c, r).0;
            && r'.m.cost.onchain == r.m.cost.onchain
            && (r'.m.state == r.m.state || (r.m.state.HtlcPublished? && r'.m.state.InvoiceSettled?))
  {
  }

  lemma TimeoutSpent(c: Contract, r: Run, l: Locals, entry: Swap)
    requires Going(c, r) && r.w.built.None? && Spent(r, l.(sweepFee := 0), entry)
    ensures var (r', fee, err) := PublishTxOnTimeout(c, r); !err ==> Spent(r', l.(sweepFee := fee), entry)
  {
    TimeoutSafe(c, r);
    TimeoutStates(c, r);
  }

  lemma BlockBooked(c: Contract, r: Run, l: Locals, h: int, entry: Swap)
    requires Booked(c, r.(m := r.m.(height := h)), l, entry) && r.w.built.None?
    requires Spent(r, l.(sweepFee := 0), entry)
    ensures var (r', l', err) := OnBlock(c, r, l, h); !err ==> Booked(c, r', l', entry) && Spent(r', l', entry)
  {
    var r0 := r.(m := r.m.(height := h));
    TimeoutBooked(c, r0, l, entry);
    TimeoutSpent(c, r0, l, entry);
    var (r1, fee, err) := PublishTxOnTimeout(c, r0);
    if !err {
      PushKeySafe(c, r1);
    }
  }

  /** Booking a payment that an update reports, again or for the first time. */
  lemma PaidBooked(c: Contract, r: Run, l: Locals, entry: Swap, r': Run, revealed: bool)
    requires Booked(c, r, l, entry) && Spent(r, l, entry) && r.w.invoice.Settled?
    requires Going(c, r') && r'.w.invoice == r.w.invoice && SameReports(r.w, r'.w) && r'.w.built == r.w.built
    requires r'.m.state == (if r.m.state.HtlcPublished? then InvoiceSettled else r.m.state)
    requires r'.m.invoiceSettled && r'.m.cost == r.m.cost.(server := c.amount - r.w.invoice.paid)
    ensures var l' := l.(invoiceFinalized := true, keyRevealed := revealed, paidSeen := true);
            Booked(c, r', l', entry) && Spent(r', l', entry)
  {
  }

  lemma SettledBooked(c: Contract, r: Run, l: Locals, entry: Swap)
    requires Booked(c, r, l, entry) && Spent(r, l, entry) && r.w.invoice.Settled?
    ensures var (r', l', err) := OnSettled(c, r, l, r.w.invoice.paid);
            !err ==> Booked(c, r', l', entry) && Spent(r', l', entry)
  {
    StoreSettledSafe(c, r);
    var (r1, err) := StoreSettled(r);
    if !err {
      var r1' := r1.(m := r1.m.(invoiceSettled := true));
      PushKeySafe(c, r1');
      var (r2, revealed) := TryPushHtlcKey(c, r1');
      var m := r2.m.(cost := r2.m.cost.(server := c.amount - r.w.invoice.paid));
      PaidBooked(c, r, l, entry, r2.(m := m), revealed);
    }
  }

  lemma UpdateBooked(c: Contract, r: Run, l: Locals, entry: Swap)
    requires Booked(c, r, l, entry) && Spent(r, l, entry)
    ensures var (r', l', err) := OnInvoiceUpdate(c, r, l); !err ==> Booked(c, r', l', entry) && Spent(r', l', entry)
  {
    if r.w.invoice.Settled? {
      SettledBooked(c, r, l, entry);
    }
  }

  /** A spend was reported: before is the swap as it was until then. */
  lemma SpendBooked(c: Contract, before: Run, r: Run, l: Locals, success: bool, entry: Swap)
    requires Spent(before, l, entry) && Booked(c, r, l, entry) && r.m == before.m
    requires r.w.watch.ForSpend? && r.w.sends == before.w.sends && r.w.built == before.w.built
    requires r.w.spends == before.w.spends + [Spend(success, before.w.built)]
    ensures var (r', err) := ProcessHtlcSpend(r, success, l.sweepFee);
            !err ==> Booked(c, r', l.(spent := true), entry) && Spent(r', l.(spent := true), entry)
  {
    SpendSafe(c, r, success, l.sweepFee);
    RefundFeesGrow(before.w.spends, Spend(success, before.w.built));
    InvoiceKept(c, r, success, l.sweepFee);
  }

  lemma InvoiceKept(c: Contract, r: Run, success: bool, sweepFee: int)
    ensures r.w.invoice.Settled? ==> ProcessHtlcSpend(r, success, sweepFee).0.w.invoice == r.w.invoice
  {
  }

  /** Hearing an event leaves the books alone. */
  lemma HearBooked(c: Contract, r: Run, l: Locals, entry: Swap)
    requires Booked(c, r, l, entry) && Spent(r, l, entry) && r.w.tape != []
    ensures var e, r1 := r.w.tape[0].event, r.(w := Hear(r.w).0);
            && Booked(c, if e.Block? then r1.(m := r1.m.(height := e.height)) else r1, l, entry)
            && r1.w.sends == r.w.sends && r1.w.watch == r.w.watch
            && (e.Block? ==> r1.w.built.None? && r1.w.spends == r.w.spends)
            && (!e.Block? ==> r1.w.built == r.w.built)
            && (e.HtlcSpend? ==> r1.w.spends == r.w.spends + [Spend(e.success, r.w.built)])
            && (!e.HtlcSpend? ==> r1.w.spends == r.w.spends)
  {
    NextSafe(c, r);
  }

  lemma HeardSpent(before: Run, r: Run, l: Locals, e: Event, entry: Swap)
    requires Spent(before, l, entry) && r.m == before.m && r.w.spends == before.w.spends
    requires r.w.sends == before.w.sends && r.w.watch == before.w.watch
    requires if e.Block? then r.w.built.None? else r.w.built == before.w.built
    ensures Spent(r, if e.Block? then l.(sweepFee := 0) else l, entry)
  {
  }

  lemma EventBooked(c: Contract, before: Run, r: Run, l: Locals, e: Event, entry: Swap)
    requires Booked(c, before, l, entry) && Spent(before, l, entry)
    requires before.w.tape != [] && e == before.w.tape[0].event && r == before.(w := Hear(before.w).0)
    ensures var (r', l', err) := OnEvent(c, r, l, e); !err ==> Booked(c, r', l', entry) && Spent(r', l', entry)
  {
    HearBooked(c, before, l, entry);
    if e.HtlcSpend? {
      SpendBooked(c, before, r, l, e.success, entry);
      assert OnEvent(c, r, l, e).0 == ProcessHtlcSpend(r, e.success, l.sweepFee).0;
    } else {
      HeardSpent(before, r, l, e, entry);
      match e
      case Block(h) => BlockBooked(c, r, l, h, entry);
      case InvoiceUpdate => UpdateBooked(c, r, l, entry);
      case _ =>
    }
  }

  /** How a completed wait resolved the swap: the last spend reported decides, or the
      expiry of a swap whose invoice is settled. The server cost is what was paid
      short of the amount, except that a wait which resumed an InvoiceSettled
      swap and saw no settled update keeps the restored cost. The on-chain cost is the
      stored fee of the HTLC and the fees of the refunds. */
  predicate Resolved(c: Contract, r: Run, waited: Waited) {
    var Waited(entry, l) := waited;
    && (r.w.invoice.Settled? || r.w.invoice.IsCanceled())
    && (if r.w.spends == [] then r.m.state.Success? && r.w.invoice.Settled? && r.w.height >= c.expiry
        else BySpends(r.m.state, r.w.spends, entry))
    && r.m.cost.server ==
       (if r.w.invoice.Settled? && (!entry.state.InvoiceSettled? || l.paidSeen)
        then c.amount - r.w.invoice.paid else entry.cost.server)
    && r.m.cost.onchain == StoredFee(r.w.sends) + RefundFees(r.w.spends)
  }

  lemma {:induction false} WaitLoopBooked(c: Contract, r: Run, l: Locals, entry: Swap)
    requires Booked(c, r, l, entry) && Spent(r, l, entry)
    ensures var (r', l', err) := WaitLoop(c, r, l);
            !err ==> Going(c, r') && Resolved(c, r', Waited(entry, l'))
    decreases |r.w.tape|, 0
  {
    if Completed(r.m, l) || SettledAndExpired(c, r.m) {
      LoopResolved(c, r, l, entry);
    } else if r.w.tape != [] {
      HearSafe(c, r);
      TurnBooked(c, r, r.(w := Hear(r.w).0), l, r.w.tape[0].event, entry);
    }
  }

  lemma LoopResolved(c: Contract, r: Run, l: Locals, entry: Swap)
    requires Booked(c, r, l, entry) && Spent(r, l, entry) && (Completed(r.m, l) || SettledAndExpired(c, r.m))
    ensures var (r', l', err) := WaitLoop(c, r, l); !err && Going(c, r') && Resolved(c, r', Waited(entry, l'))
  {
  }

  lemma {:induction false} TurnBooked(c: Contract, before: Run, r: Run, l: Locals, e: Event, entry: Swap)
    requires Booked(c, before, l, entry) && Spent(before, l, entry)
    requires before.w.tape != [] && e == before.w.tape[0].event && r == before.(w := Hear(before.w).0)
    ensures var (r', l', err) := Turn(c, r, l, e);
            !err ==> Going(c, r') && Resolved(c, r', Waited(entry, l'))
    decreases |r.w.tape|, 1
  {
    EventBooked(c, before, r, l, e, entry);
    var (r1, l1, err) := OnEvent(c, r, l, e);
    if !err {
      WaitLoopBooked(c, r1, l1, entry);
    }
  }

  lemma WaitResolves(c: Contract, r: Run)
    requires Ready(c, r) && !r.m.invoiceSettled && !r.m.invoiceCanceled && r.w.built.None? && r.w.spends == []
    ensures var (r', l, err) := WaitForSwapComplete(c, r);
            !err ==> Going(c, r') && Resolved(c, r', Waited(r.m, l))
  {
    WatchSafe(c, r);
    var (w1, failed) := WatchSpend(r.w);
    if !failed {
      var r0 := Run(r.m.(invoiceSettled := r.m.state.InvoiceSettled?), w1);
      assert Booked(c, r0, NO_LOCALS, r.m) && Spent(r0, NO_LOCALS, r.m);
      TimeoutBooked(c, r0, NO_LOCALS, r.m);
      TimeoutSpent(c, r0, NO_LOCALS, r.m);
      var (r1, fee, err) := PublishTxOnTimeout(c, r0);
      if !err {
        WaitLoopBooked(c, r1, NO_LOCALS.(sweepFee := fee), r.m);
      }
    }
  }

  /** The last update of an execution that reached its wait, if the wait completed. */
  predicate Ended(c: Contract, r: Run, out: Run, waited: Waited) {
    && Durable(out) && out.m.state.IsFinal() && Resolved(c, out, waited)
    && waited.entry.cost.server == r.m.cost.server
    && (waited.entry.state.InvoiceSettled? ==> r.m.state.InvoiceSettled?)
    && out.w.confirmed.Some?
    && (waited.entry.state.FailIncorrectHtlcAmt? <==>
          r.m.state.FailIncorrectHtlcAmt? || out.w.confirmed.value != c.amount)
  }

  lemma FinishSafe(c: Contract, r: Run, waited: Waited)
    requires Going(c, r) && Resolved(c, r, waited)
    ensures var (r', err) := Persist(r);
            && WorldSafe(c, r'.w) && r'.m == r.m && r.m.state.IsFinal() && Resolved(c, r', waited)
            && (!err ==> Finished(r'.w.log)) && (Finished(r'.w.log) ==> Durable(r'))
            && r'.w.confirmed == r.w.confirmed
  {
  }

  lemma CompleteEnds(c: Contract, r: Run, value: int)
    requires Ready(c, r) && !r.m.invoiceSettled && !r.m.invoiceCanceled
    requires r.w.confirmed == Some(value) && r.w.built.None? && r.w.spends == []
    ensures var (r', waited, err) := Complete(c, r, value);
            && WorldSafe(c, r'.w)
            && (!err ==> Finished(r'.w.log)) && (Finished(r'.w.log) ==> Ended(c, r, r', waited))
  {
    CheckValueSafe(c, r, value);
    var r1 := CheckHtlcValue(c, r, value);
    WaitSafe(c, r1);
    WaitResolves(c, r1);
    WaitConfirmed(c, r1);
    var (r2, l, err) := WaitForSwapComplete(c, r1);
    if !err {
      FinishSafe(c, r2, Waited(r1.m, l));
    }
  }

  /** The HTLC is reported once. */
  lemma WaitConfirmed(c: Contract, r: Run)
    requires Ready(c, r) && r.w.built.None? && r.w.confirmed.Some?
    ensures WaitForSwapComplete(c, r).0.w.confirmed == r.w.confirmed
  {
    WatchSafe(c, r);
    var (w1, failed) := WatchSpend(r.w);
    if !failed {
      var r0 := Run(r.m.(invoiceSettled := r.m.invoiceSettled || r.m.state.InvoiceSettled?), w1);
      TimeoutSafe(c, r0);
      var (r1, fee, err) := PublishTxOnTimeout(c, r0);
      if !err {
        LoopConfirmed(c, r1, NO_LOCALS.(sweepFee := fee));
      }
    }
  }

  lemma {:induction false} LoopConfirmed(c: Contract, r: Run, l: Locals)
    requires Going(c, r) && r.w.confirmed.Some?
    ensures WaitLoop(c, r, l).0.w.confirmed == r.w.confirmed
    decreases |r.w.tape|, 0
  {
    if !Completed(r.m, l) && !SettledAndExpired(c, r.m) && r.w.tape != [] {
      HearSafe(c, r);
      TurnConfirmed(c, r.(w := Hear(r.w).0), l, r.w.tape[0].event);
    }
  }

  lemma {:induction false} TurnConfirmed(c: Contract, r: Run, l: Locals, e: Event)
    requires Heard(c, r, e) && r.w.confirmed.Some?
    ensures Turn(c, r, l, e).0.w.confirmed == r.w.confirmed
    decreases |r.w.tape|, 1
  {
    EventSafe(c, r, l, e);
    EventConfirmed(c, r, l, e);
    var (r1, l1, err) := OnEvent(c, r, l, e);
    if !err {
      LoopConfirmed(c, r1, l1);
    }
  }

  lemma EventConfirmed(c: Contract, r: Run, l: Locals, e: Event)
    requires Heard(c, r, e)
    ensures OnEvent(c, r, l, e).0.w.confirmed == r.w.confirmed
  {
    match e
    case Block(h) => BlockSafe(c, r, l, h);
    case HtlcSpend(success) => SpendSafe(c, r, success, l.sweepFee);
    case InvoiceUpdate => InvoiceUpdateSafe(c, r, l);
    case Abandon => AbandonReports(r);
    case _ =>
  }

  lemma AbandonReports(r: Run)
    ensures SetStateAbandoned(r).w.confirmed == r.w.confirmed
  {
  }

  /** Whether or not executeSwap reports success: an update that only a completed
      wait stores is there only with Ended. */
  lemma ExecuteEnds(c: Contract, w: World, height: int)
    requires WorldSafe(c, w) && LastState(w.log).IsPending() && Fresh(w) && w.height == height
    ensures var r := Run(Resume(w.log, height), w);
            var (r', waited, err) := ExecuteSwap(c, r);
            && WorldSafe(c, r'.w)
            && (Finished(r'.w.log) ==> waited.Some? && Ended(c, r, r', waited.value))
            && (!err && waited.Some? ==> Finished(r'.w.log))
            && (!err && waited.None? ==>
                  && r.m.state.Initiated? && r'.m.state.FailTimeout? && Durable(r')
                  && !c.external && c.expiry - height < 10)
  {
    var r := Run(Resume(w.log, height), w);
    EnsurePublishedSafe(c, r);
    var (r1, published, err1) := EnsurePublished(c, r);
    if published {
      ConfSafe(c, r1);
      EnsuredState(c, r);
      var (r2, value) := WaitForHtlcConf(r1);
      if value.Some? {
        CompleteEnds(c, r2, value.value);
      }
    }
  }

  lemma EnsuredState(c: Contract, r: Run)
    ensures var (r', published, _) := EnsurePublished(c, r);
            published ==> r'.m.state == (if r.m.state.Initiated? then HtlcPublished else r.m.state)
  {
  }

  /** executeSwap succeeds only in a final state that is durable with its cost,
      so the sanity check after it never fires; without a wait that is FailTimeout, for
      want of ten blocks to publish in; and a success that waited for the
      HTLC resolved it as Resolved says, whichever of the invoice update, the
      refund-time lookup or the spend came first. */
  lemma LoopInOutcome(c: Contract, w: World, height: int)
    requires WorldSafe(c, w) && Fresh(w) && w.height == height
    ensures var r := Run(Resume(w.log, height), w);
            var (r', waited, err) := ExecuteSwap(c, r);
            !err ==>
              && r'.m.state.IsFinal() && LastState(r'.w.log) == r'.m.state
              && r'.w.log[|r'.w.log| - 1].cost == r'.m.cost
              && (waited.None? ==> r.m.state.Initiated? && r'.m.state.FailTimeout? && c.expiry - height < 10)
              && (waited.Some? ==> Ended(c, r, r', waited.value))
  {
    if LastState(w.log).IsPending() {
      ExecuteEnds(c, w, height);
    }
  }

  // ----- What ends a life -----

  predicate Interrupts(e: Event) {
    e.Abandon? || e.StreamError? || e.Quit?
  }

  /** Nothing goes wrong outside: every call is acknowledged, no stream fails, and nobody
      abandons the swap or stops the client. */
  predicate Calm(tape: seq<Tick>) {
    tape == [] || (tape[0].reply.Ack? && !Interrupts(tape[0].event) && Calm(tape[1..]))
  }

  /** A refund ends the wait with an error exactly if the invoice could not be canceled;
      otherwise it finds the invoice canceled, or paid before. */
  lemma SpendExactly(r: Run, success: bool, sweepFee: int)
    ensures var (r', err) := ProcessHtlcSpend(r, success, sweepFee);
            && (err <==> !success && (r.w.tape == [] || !r.w.tape[0].reply.Ack?))
            && (!success && !err ==> (r'.m.invoiceCanceled <==> r.m.invoiceCanceled || !r'.w.invoice.Settled?))
  {
  }

  /** Asking for the refund fails exactly if it found the invoice paid and could not store
      that; a cancellation or a lookup that fails is tried again at the next block. */
  lemma RefundErrsExactly(c: Contract, r: Run)
    ensures var tape := r.w.tape;
            AuthorizeRefund(c, r).2 <==>
              && !r.m.invoiceCanceled && r.m.state.HtlcPublished?
              && |tape| >= 2 && tape[0].reply.Ack? && tape[1].reply.Ack?
              && ApplyMoves(r.w.invoice, tape[0].moves).Settled?
              && (|tape| == 2 || !tape[2].reply.Ack?)
  {
  }

  /** A process that hears nothing more has completed exactly if a spend was reported and
      the invoice is known to be paid or canceled, or if it is known to be paid and the
      HTLC has expired by the height last reported. */
  lemma CompletedExactly(c: Contract, r: Run, l: Locals, entry: Swap)
    requires Booked(c, r, l, entry) && Spent(r, l, entry) && r.w.tape == []
    ensures !WaitLoop(c, r, l).2 <==>
              || (r.w.spends != [] && (l.invoiceFinalized || r.m.invoiceCanceled))
              || (r.m.state.InvoiceSettled? && r.w.height >= c.expiry)
  {
  }

  /** A wait that is not complete and is interrupted fails, and broadcasts nothing more. */
  lemma InterruptStops(c: Contract, r: Run, l: Locals)
    requires r.w.tape != [] && Interrupts(r.w.tape[0].event) && !Completed(r.m, l) && !SettledAndExpired(c, r.m)
    ensures var (r', _, err) := WaitLoop(c, r, l);
            err && r'.w.timeoutTxs == r.w.timeoutTxs && r'.w.keyPushes == r.w.keyPushes && r'.w.sends == r.w.sends
  {
    NextMoves(r.w);
    var r1 := r.(w := Hear(r.w).0);
    AbandonSilent(r1);
  }

  lemma AbandonSilent(r: Run)
    ensures var w' := SetStateAbandoned(r).w;
            w'.timeoutTxs == r.w.timeoutTxs && w'.keyPushes == r.w.keyPushes && w'.sends == r.w.sends
  {
    CancelMoves(Persist(SetState(r, FailAbandoned)).0.w);
  }

  lemma PersistCalm(r: Run)
    requires Calm(r.w.tape)
    ensures var (r', err) := Persist(r); Calm(r'.w.tape) && (err <==> r.w.tape == [])
  {
  }

  lemma CancelCalm(w: World)
    requires Calm(w.tape)
    ensures var (w', result) := CancelInvoice(w);
            Calm(w'.tape) && (result.OtherError? <==> w.tape == []) && (w.tape == [] ==> w'.tape == [])
  {
  }

  lemma BookCalm(c: Contract, r: Run)
    requires Calm(r.w.tape)
    ensures var (r', err) := BookPayment(c, r); Calm(r'.w.tape) && (err ==> r'.w.tape == [])
  {
    var (w1, paid) := LookupInvoice(r.w);
    assert Calm(w1.tape);
    if paid.Some? {
      var m := r.m.(cost := r.m.cost.(server := c.amount - paid.value), invoiceSettled := true);
      PersistCalm(SetState(Run(m, w1), InvoiceSettled));
    }
  }

  lemma RefundCalm(c: Contract, r: Run)
    requires Calm(r.w.tape)
    ensures var (r', _, err) := AuthorizeRefund(c, r); Calm(r'.w.tape) && (err ==> r'.w.tape == [])
  {
    CancelCalm(r.w);
    BookCalm(c, r.(w := CancelInvoice(r.w).0));
  }

  lemma TimeoutTxCalm(w: World)
    requires Calm(w.tape)
    ensures var (w', _, err) := PublishTimeoutTx(w); Calm(w'.tape) && (err ==> w'.tape == [])
  {
  }

  lemma TimeoutCalm(c: Contract, r: Run)
    requires Calm(r.w.tape)
    ensures var (r', _, err) := PublishTxOnTimeout(c, r); Calm(r'.w.tape) && (err ==> r'.w.tape == [])
  {
    RefundCalm(c, r);
    TimeoutTxCalm(AuthorizeRefund(c, r).0.w);
  }

  lemma PushKeyCalm(c: Contract, r: Run)
    requires Calm(r.w.tape)
    ensures Calm(TryPushHtlcKey(c, r).0.w.tape)
  {
  }

  lemma SettledCalm(c: Contract, r: Run, l: Locals, paid: int)
    requires Calm(r.w.tape)
    ensures var (r', _, err) := OnSettled(c, r, l, paid); Calm(r'.w.tape) && (err ==> r'.w.tape == [])
  {
    PersistCalm(SetState(r, InvoiceSettled));
    var (r1, err) := StoreSettled(r);
    PushKeyCalm(c, r1.(m := r1.m.(invoiceSettled := true)));
  }

  lemma EventCalm(c: Contract, r: Run, l: Locals, e: Event)
    requires Calm(r.w.tape) && !Interrupts(e)
    ensures var (r', _, err) := OnEvent(c, r, l, e); Calm(r'.w.tape) && (err ==> r'.w.tape == [])
  {
    match e
    case Block(h) =>
      var r0 := r.(m := r.m.(height := h));
      TimeoutCalm(c, r0);
      PushKeyCalm(c, PublishTxOnTimeout(c, r0).0);
    case HtlcSpend(_) => CancelCalm(r.w);
    case InvoiceUpdate =>
      if r.w.invoice.Settled? {
        SettledCalm(c, r, l, r.w.invoice.paid);
      }
    case _ =>
  }

  lemma HearCalm(w: World)
    requires Calm(w.tape)
    ensures var (w', e) := Hear(w);
            && Calm(w'.tape) && (e.None? <==> w.tape == []) && (e.Some? ==> !Interrupts(e.value))
            && (w.tape == [] ==> w' == w) && (w.tape != [] ==> |w'.tape| < |w.tape|)
  {
  }

  lemma {:induction false} WaitLoopCalm(c: Contract, r: Run, l: Locals)
    requires Calm(r.w.tape)
    ensures var (r', _, err) := WaitLoop(c, r, l); Calm(r'.w.tape) && (err ==> r'.w.tape == [])
    decreases |r.w.tape|, 0
  {
    HearCalm(r.w);
    if !Completed(r.m, l) && !SettledAndExpired(c, r.m) && r.w.tape != [] {
      TurnCalm(c, r.(w := Hear(r.w).0), l, r.w.tape[0].event);
    }
  }

  lemma {:induction false} TurnCalm(c: Contract, r: Run, l: Locals, e: Event)
    requires Calm(r.w.tape) && !Interrupts(e)
    ensures var (r', _, err) := Turn(c, r, l, e); Calm(r'.w.tape) && (err ==> r'.w.tape == [])
    decreases |r.w.tape|, 1
  {
    EventCalm(c, r, l, e);
    var (r1, l1, err) := OnEvent(c, r, l, e);
    if !err {
      WaitLoopCalm(c, r1, l1);
    }
  }

  lemma WaitCalm(c: Contract, r: Run)
    requires Calm(r.w.tape)
    ensures var (r', _, err) := WaitForSwapComplete(c, r); Calm(r'.w.tape) && (err ==> r'.w.tape == [])
  {
    var (w1, failed) := WatchSpend(r.w);
    assert Calm(w1.tape);
    if !failed {
      var settled := r.m.invoiceSettled || r.m.state.InvoiceSettled? || r.m.state.Success?;
      var r0 := Run(r.m.(invoiceSettled := settled), w1);
      TimeoutCalm(c, r0);
      var (r1, fee, err) := PublishTxOnTimeout(c, r0);
      if !err {
        WaitLoopCalm(c, r1, NO_LOCALS.(sweepFee := fee));
      }
    }
  }

  lemma PublishCalm(c: Contract, r: Run)
    requires Calm(r.w.tape)
    ensures var (r', published, err) := EnsurePublished(c, r);
            && Calm(r'.w.tape) && (err ==> r'.w.tape == [])
            && (!err && !published <==>
                  r.m.state.Initiated? && !c.external && c.expiry - r.m.height < 10 && r.w.tape != [])
  {
    PersistCalm(SetState(r, HtlcPublished));
    PersistCalm(SetState(r, FailTimeout));
    var w1 := Query(r.w).0;
    assert Calm(w1.tape);
    var r1 := SetState(r.(w := w1), HtlcPublished);
    PersistCalm(r1);
    SendCalm(Persist(r1).0);
  }

  lemma SendCalm(r: Run)
    requires Calm(r.w.tape)
    ensures var (r', published, err) := SendHtlc(r);
            Calm(r'.w.tape) && (err ==> r'.w.tape == []) && err == !published
  {
    var (w1, fee) := SendOutputs(r.w);
    assert Calm(w1.tape);
    if fee.Some? {
      PersistCalm(Run(r.m.(htlcTxKnown := true, cost := r.m.cost.(onchain := fee.value)), w1));
    }
  }

  lemma {:induction false} ConfCalm(r: Run)
    requires Calm(r.w.tape)
    ensures var (r', value) := WaitForHtlcConf(r); Calm(r'.w.tape) && (value.None? ==> r'.w.tape == [])
    decreases |r.w.tape|
  {
    HearCalm(r.w);
    if r.w.tape != [] {
      var r1, e := r.(w := Hear(r.w).0), r.w.tape[0].event;
      if e.Block? {
        ConfCalm(r1.(m := r1.m.(height := e.height)));
      } else if !e.HtlcConf? {
        ConfCalm(r1);
      }
    }
  }

  lemma CompleteCalm(c: Contract, r: Run, value: int)
    requires Calm(r.w.tape)
    ensures var (r', _, err) := Complete(c, r, value); err ==> r'.w.tape == []
  {
    PersistCalm(SetState(r, FailIncorrectHtlcAmt));
    var r1 := CheckHtlcValue(c, r, value);
    WaitCalm(c, r1);
    PersistCalm(WaitForSwapComplete(c, r1).0);
  }

  /** If nothing goes wrong outside, a pending swap's life ends in a stored final state
      unless the process ends before it. */
  lemma CalmLife(c: Contract, w: World, height: int)
    requires WorldSafe(c, w) && Fresh(w) && w.height == height && LastState(w.log).IsPending() && Calm(w.tape)
    ensures var (r', _, err) := ExecuteSwap(c, Run(Resume(w.log, height), w));
            if err then r'.w.tape == [] else LastState(r'.w.log).IsFinal()
  {
    var r := Run(Resume(w.log, height), w);
    LoopInOutcome(c, w, height);
    PublishCalm(c, r);
    var (r1, published, err1) := EnsurePublished(c, r);
    ConfCalm(r1);
    var (r2, value) := WaitForHtlcConf(r1);
    if value.Some? {
      CompleteCalm(c, r2, value.value);
    }
  }

  // ----- Over all lives -----

  lemma LiveSafe(c: Contract, w: World, life: Life)
    requires WorldSafe(c, w)
    ensures WorldSafe(c, Live(c, w, life))
  {
    if LastState(w.log).IsPending() {
      var w1 := w.(invoice := ApplyMoves(w.invoice, life.moves), tape := life.tape);
      ExecuteEnds(c, Started(w1, life.height), life.height);
    }
  }

  lemma {:induction false} LivesSafe(c: Contract, w: World, lives: seq<Life>)
    requires WorldSafe(c, w)
    ensures WorldSafe(c, Lives(c, w, lives))
    decreases |lives|
  {
    if lives != [] {
      LiveSafe(c, w, lives[0]);
      LivesSafe(c, Live(c, w, lives[0]), lives[1..]);
    }
  }

  lemma {:induction false} EachAtLeast(hs: seq<int>, least: int, i: nat)
    requires AllAtLeast(hs, least) && i < |hs|
    ensures hs[i] >= least
  {
    if i < |hs| - 1 {
      EachAtLeast(hs[..|hs| - 1], least, i);
    }
  }

  /** The timeout transaction was broadcast only if the invoice is, for good, canceled,
      and only at or after the expiry by the height last reported; the HTLC key was
      pushed only if the invoice is settled and the protocol has a key to push; so
      neither the broadcast and a settlement, nor the broadcast and a push, occurred
      together. SendOutputs was called at most once, only with HtlcPublished durable and
      ten blocks left by the height last reported, and never for an HTLC that is funded
      elsewhere. */
  ghost predicate Exclusive(c: Contract, w: World) {
    && (w.timeoutTxs != [] ==> w.invoice.IsCanceled() && w.keyPushes == 0)
    && (forall i :: 0 <= i < |w.timeoutTxs| ==> w.timeoutTxs[i] >= c.expiry)
    && (w.keyPushes > 0 ==> w.invoice.Settled? && w.timeoutTxs == [] && c.musig2)
    && |w.sends| <= 1
    && (forall s <- w.sends :: s.durable.HtlcPublished? && c.expiry - s.height >= 10 && !c.external)
  }

  lemma SafeIsExclusive(c: Contract, w: World)
    requires WorldSafe(c, w)
    ensures Exclusive(c, w)
  {
    forall i | 0 <= i < |w.timeoutTxs|
      ensures w.timeoutTxs[i] >= c.expiry
    {
      EachAtLeast(w.timeoutTxs, c.expiry, i);
    }
  }

  /** Over every sequence of lives of the client: refund, key push and publication are
      exclusive. */
  lemma LoopInExclusion(c: Contract, lives: seq<Life>)
    ensures Exclusive(c, Lives(c, NEW_SWAP, lives))
  {
    LivesSafe(c, NEW_SWAP, lives);
    SafeIsExclusive(c, Lives(c, NEW_SWAP, lives));
  }

  lemma {:induction false} LivesSnoc(c: Contract, w: World, lives: seq<Life>, life: Life)
    ensures Lives(c, w, lives + [life]) == Live(c, Lives(c, w, lives), life)
    decreases |lives|
  {
    if lives == [] {
      assert [life][1..] == [] && [] + [life] == [life];
    } else {
      assert (lives + [life])[1..] == lives[1..] + [life];
      LivesSnoc(c, Live(c, w, lives[0]), lives[1..], life);
    }
  }

  /** The last life ended with InvoiceSettled stored, at the server cost. */
  predicate LeftSettled(w: World, server: int) {
    LastState(w.log).InvoiceSettled? && w.log[|w.log| - 1].cost.server == server
  }

  /** The life that finishes the swap books the payment or keeps the stored cost. */
  lemma FinishedNow(c: Contract, w: World, life: Life)
    requires WorldSafe(c, w) && LastState(w.log).IsPending()
    ensures var w' := Live(c, w, life);
            Finished(w'.log) ==>
              var server := w'.log[|w'.log| - 1].cost.server;
              && (w'.invoice.Settled? || w'.invoice.IsCanceled())
              && (w'.invoice.Settled? ==> server == c.amount - w'.invoice.paid || LeftSettled(w, server))
              && w'.log[|w'.log| - 1].cost.onchain == StoredFee(w'.sends) + RefundFees(w'.spends)
  {
    var w1 := w.(invoice := ApplyMoves(w.invoice, life.moves), tape := life.tape);
    ExecuteEnds(c, Started(w1, life.height), life.height);
  }

  lemma FinalKept(c: Contract, w: World, life: Life)
    requires LastState(w.log).IsFinal()
    ensures var w' := Live(c, w, life);
            && w'.log == w.log && w'.sends == w.sends && w'.spends == w.spends
            && (w.invoice.Settled? ==> w'.invoice == w.invoice)
            && (w.invoice.IsCanceled() ==> w'.invoice.IsCanceled())
  {
  }

  /** One of the lives left InvoiceSettled stored at the server cost. */
  ghost predicate SomeLeftSettled(c: Contract, lives: seq<Life>, server: int) {
    exists k :: 0 <= k < |lives| && LeftSettled(Lives(c, NEW_SWAP, lives[..k]), server)
  }

  lemma LeftSettledGrows(c: Contract, lives: seq<Life>, life: Life, server: int)
    requires SomeLeftSettled(c, lives, server) || LeftSettled(Lives(c, NEW_SWAP, lives), server)
    ensures SomeLeftSettled(c, lives + [life], server)
  {
    var k :| 0 <= k <= |lives| && LeftSettled(Lives(c, NEW_SWAP, lives[..k]), server) by {
      assert lives[..|lives|] == lives;
    }
    assert (lives + [life])[..k] == lives[..k];
  }

  /** A finished swap has its invoice settled or canceled. A canceled one cost
      nothing at the server. A settled one cost what the server paid short of the
      amount, or what one of the lives left InvoiceSettled stored at. */
  ghost predicate ServerCostBooked(c: Contract, lives: seq<Life>, w: World) {
    Finished(w.log) ==>
      var server := w.log[|w.log| - 1].cost.server;
      && (w.invoice.Settled? || w.invoice.IsCanceled())
      && (w.invoice.IsCanceled() ==> server == 0)
      && (w.invoice.Settled? ==> server == c.amount - w.invoice.paid || SomeLeftSettled(c, lives, server))
  }

  /** What a life does to the books of the lives before it. */
  lemma BooksGrow(c: Contract, lives: seq<Life>, v: World, life: Life, w: World)
    requires v == Lives(c, NEW_SWAP, lives) && ServerCostBooked(c, lives, v) && WorldSafe(c, w)
    requires Finished(w.log) && Finished(v.log) ==>
               && w.log == v.log && (v.invoice.Settled? ==> w.invoice == v.invoice)
               && (v.invoice.IsCanceled() ==> w.invoice.IsCanceled())
    requires Finished(w.log) && !Finished(v.log) ==>
               var server := w.log[|w.log| - 1].cost.server;
               && (w.invoice.Settled? || w.invoice.IsCanceled())
               && (w.invoice.Settled? ==> server == c.amount - w.invoice.paid || LeftSettled(v, server))
    ensures ServerCostBooked(c, lives + [life], w)
  {
    if Finished(w.log) && w.invoice.Settled? {
      var server := w.log[|w.log| - 1].cost.server;
      if server != c.amount - w.invoice.paid {
        LeftSettledGrows(c, lives, life, server);
      }
    }
  }

  lemma LifeBooks(c: Contract, lives: seq<Life>, v: World, life: Life, w: World)
    requires v == Lives(c, NEW_SWAP, lives) && WorldSafe(c, v) && ServerCostBooked(c, lives, v)
    requires w == Live(c, v, life) && WorldSafe(c, w)
    ensures ServerCostBooked(c, lives + [life], w)
  {
    if LastState(v.log).IsFinal() {
      FinalKept(c, v, life);
    } else {
      FinishedNow(c, v, life);
    }
    BooksGrow(c, lives, v, life, w);
  }

  /** Over every sequence of lives: the on-chain cost of a finished swap is the fee of the
      HTLC that the client sent, if the acknowledged call was stored, and the fees of the
      timeout transactions that the life that finished it had built before the spends
      reported to it. So a finished swap misses the fee of its HTLC if and only if the
      update after the acknowledged send was not stored and that fee is not zero. */
  lemma {:induction false} OnchainCostOverLives(c: Contract, lives: seq<Life>)
    ensures var w := Lives(c, NEW_SWAP, lives);
            Finished(w.log) ==> w.log[|w.log| - 1].cost.onchain == StoredFee(w.sends) + RefundFees(w.spends)
    decreases |lives|
  {
    if lives != [] {
      var before, life := lives[..|lives| - 1], lives[|lives| - 1];
      assert lives == before + [life];
      LivesSnoc(c, NEW_SWAP, before, life);
      LivesSafe(c, NEW_SWAP, before);
      OnchainCostOverLives(c, before);
      var v := Lives(c, NEW_SWAP, before);
      if LastState(v.log).IsFinal() {
        FinalKept(c, v, life);
      } else {
        FinishedNow(c, v, life);
      }
    }
  }

  /** Over every sequence of lives: the server cost of a finished swap is what the
      server paid short of the amount, unless an earlier life stored InvoiceSettled
      at another server cost and ended before the swap did, and then it is that
      cost. */
  lemma {:induction false} ServerCostOverLives(c: Contract, lives: seq<Life>)
    ensures ServerCostBooked(c, lives, Lives(c, NEW_SWAP, lives))
    decreases |lives|
  {
    if lives != [] {
      var before, life := lives[..|lives| - 1], lives[|lives| - 1];
      assert lives == before + [life];
      LivesSnoc(c, NEW_SWAP, before, life);
      LivesSafe(c, NEW_SWAP, before);
      ServerCostOverLives(c, before);
      LivesSafe(c, NEW_SWAP, lives);
      LifeBooks(c, before, Lives(c, NEW_SWAP, before), life, Lives(c, NEW_SWAP, lives));
    }
  }

  // ----- A restart that loses the server cost -----

  const STALE_CONTRACT := Contract(100, 50, true, false)

  /** Publishes, sees the settled update, stores InvoiceSettled and crashes. */
  const STALE_FIRST := Life([], [
    Tick([], Ack, Quit, 0), Tick([], Ack, HtlcConf(100), 0), Tick([], Ack, Quit, 0),
    Tick([ServerPays(90)], Ack, InvoiceUpdate, 0), Tick([], Ack, Quit, 0)], 10)

  /** Resumes after the expiry and completes before any invoice update arrives. */
  const STALE_SECOND := Life([], [
    Tick([], Ack, HtlcConf(100), 0), Tick([], Ack, Quit, 0), Tick([], Ack, Quit, 0)], 60)

  /** The world after the first life. */
  const STALE_WORLD := World([], Settled(90), [
    LoopEvent(HtlcPublished, NO_COST, false), LoopEvent(InvoiceSettled, NO_COST, true)],
    [], [], 0, ForSpend, 10, Some(100), [], None)

  lemma StaleFirstLife()
    ensures Live(STALE_CONTRACT, NEW_SWAP, STALE_FIRST) == STALE_WORLD
  {
    var c := STALE_CONTRACT;
    var w0 := Started(NEW_SWAP.(tape := STALE_FIRST.tape), 10);
    var m0 := Resume([], 10);
    var log1 := [LoopEvent(HtlcPublished, NO_COST, false)];
    var m1 := m0.(state := HtlcPublished);
    assert [] + log1 == log1;
    assert EnsurePublished(c, Run(m0, w0)) == (Run(m1, w0.(tape := w0.tape[1..], log := log1)), true, false);
    var r2 := Run(m1.(htlcTxKnown := true), w0.(tape := w0.tape[2..], log := log1, confirmed := Some(100)));
    assert WaitForHtlcConf(Run(m1, w0.(tape := w0.tape[1..], log := log1))) == (r2, Some(100));
    var w3 := r2.w.(tape := w0.tape[3..], watch := ForSpend);
    var w4 := w3.(tape := w0.tape[4..], invoice := Settled(90));
    assert Hear(w3).0 == w4 by { assert ApplyMoves(Open, [ServerPays(90)]) == Settled(90); }
    var log2 := log1 + [LoopEvent(InvoiceSettled, NO_COST, true)];
    var w5 := w4.(tape := [], log := log2);
    var r5 := Run(m1.(state := InvoiceSettled, htlcTxKnown := true, invoiceSettled := true,
                      cost := NO_COST.(server := 10)), w5);
    var l5 := NO_LOCALS.(invoiceFinalized := true, paidSeen := true);
    assert OnInvoiceUpdate(c, Run(r2.m, w4), NO_LOCALS) == (r5, l5, false);
    assert WaitLoop(c, r5, l5) == (r5, l5, true);
    assert Turn(c, Run(r2.m, w4), NO_LOCALS, InvoiceUpdate) == (r5, l5, true);
    assert WaitLoop(c, Run(r2.m, w3), NO_LOCALS) == (r5, l5, true);
    assert ExecuteSwap(c, Run(m0, w0)).0 == r5;
  }

  lemma StaleSecondLife()
    ensures var w := Live(STALE_CONTRACT, STALE_WORLD, STALE_SECOND);
            w.invoice == Settled(90) && LastState(w.log) == Success && w.log[|w.log| - 1].cost.server == 0
  {
    var c := STALE_CONTRACT;
    var w6 := Started(STALE_WORLD.(tape := STALE_SECOND.tape), 60);
    var m6 := Resume(STALE_WORLD.log, 60);
    var w7 := w6.(tape := w6.tape[1..], confirmed := Some(100));
    assert WaitForHtlcConf(Run(m6, w6)) == (Run(m6, w7), Some(100));
    var r8 := Run(m6.(invoiceSettled := true), w7.(tape := w6.tape[2..], watch := ForSpend));
    assert WaitLoop(c, r8, NO_LOCALS) == (SetState(r8, Success), NO_LOCALS, false);
    assert Live(c, STALE_WORLD, STALE_SECOND) == Persist(SetState(r8, Success)).0.w;
  }

  /** InvoiceSettled is stored before the server cost is set, so a crash in
      between can finish the swap with the cost of 0 instead of 10. */
  lemma StaleCostAfterRestart()
    ensures var w := Lives(STALE_CONTRACT, NEW_SWAP, [STALE_FIRST, STALE_SECOND]);
            w.invoice == Settled(90) && LastState(w.log) == Success && w.log[|w.log| - 1].cost.server == 0
  {
    var c := STALE_CONTRACT;
    StaleFirstLife();
    StaleSecondLife();
    var w := Live(c, STALE_WORLD, STALE_SECOND);
    assert Lives(c, w, []) == w;
    assert [STALE_SECOND][1..] == [];
    assert Lives(c, STALE_WORLD, [STALE_SECOND]) == w;
    assert [STALE_FIRST, STALE_SECOND][1..] == [STALE_SECOND];
  }

  // ----- A restart that loses the fee of the HTLC -----

  const UNBOOKED_CONTRACT := Contract(100, 50, false, false)

  /** Sends the HTLC at a fee of 7, and fails to store it. */
  const UNBOOKED_FIRST := Life([], [
    Tick([], Ack, Quit, 0), Tick([], Ack, Quit, 0), Tick([], Ack, Quit, 7), Tick([], Refused, Quit, 0)], 10)

  /** Resumes, and completes with the server's spend and payment. */
  const UNBOOKED_SECOND := Life([], [
    Tick([], Ack, HtlcConf(100), 0), Tick([], Ack, Quit, 0), Tick([], Ack, HtlcSpend(true), 0),
    Tick([ServerPays(100)], Ack, InvoiceUpdate, 0), Tick([], Ack, Quit, 0)], 10)

  const UNBOOKED_SEND := Send(HtlcPublished, 10, 7, Ack, Some(Refused))

  /** The world after the first life. */
  const UNBOOKED_WORLD := World([], Open, [LoopEvent(HtlcPublished, NO_COST, false)],
    [UNBOOKED_SEND], [], 0, ForConf, 10, None, [], None)

  lemma UnbookedFirstLife()
    ensures Live(UNBOOKED_CONTRACT, NEW_SWAP, UNBOOKED_FIRST) == UNBOOKED_WORLD
  {
    var c := UNBOOKED_CONTRACT;
    var w0 := Started(NEW_SWAP.(tape := UNBOOKED_FIRST.tape), 10);
    var m0 := Resume([], 10);
    var log1 := [LoopEvent(HtlcPublished, NO_COST, false)];
    assert [] + log1 == log1;
    var r1 := SetState(Run(m0, w0.(tape := w0.tape[1..])), HtlcPublished);
    var r2 := r1.(w := r1.w.(tape := w0.tape[2..], log := log1));
    assert Persist(r1) == (r2, false);
    var w3 := r2.w.(tape := w0.tape[3..], sends := [UNBOOKED_SEND]);
    assert SendOutputs(r2.w) == (w3, Some(7)) by { assert [] + [UNBOOKED_SEND] == [UNBOOKED_SEND]; }
    assert SendHtlc(r2).0.w == w3.(tape := []) && SendHtlc(r2).2;
  }

  lemma UnbookedSecondLife()
    ensures var w := Live(UNBOOKED_CONTRACT, UNBOOKED_WORLD, UNBOOKED_SECOND);
            w.sends == [UNBOOKED_SEND] && LastState(w.log) == Success && w.log[|w.log| - 1].cost.onchain == 0
  {
    var c := UNBOOKED_CONTRACT;
    var w0 := Started(UNBOOKED_WORLD.(tape := UNBOOKED_SECOND.tape), 10);
    var m0 := Resume(UNBOOKED_WORLD.log, 10);
    var t := w0.tape;
    var r1 := Run(m0.(htlcTxKnown := true), w0.(tape := t[1..], confirmed := Some(100)));
    assert WaitForHtlcConf(Run(m0, w0)) == (r1, Some(100));
    var r2 := r1.(w := r1.w.(tape := t[2..], watch := ForSpend));
    var r3 := SetState(r2.(w := r2.w.(tape := t[3..], spends := [Spend(true, None)])), Success);
    assert Hear(r2.w).0 == r3.w by { assert [] + [Spend(true, None)] == [Spend(true, None)]; }
    var l3 := NO_LOCALS.(spent := true);
    var w4 := r3.w.(tape := t[4..], invoice := Settled(100));
    assert Hear(r3.w).0 == w4 by { assert ApplyMoves(Open, [ServerPays(100)]) == Settled(100); }
    var r4 := Run(r3.m.(invoiceSettled := true), w4);
    var l4 := l3.(invoiceFinalized := true, paidSeen := true);
    assert OnInvoiceUpdate(c, r3.(w := w4), l3) == (r4, l4, false);
    assert WaitLoop(c, r4, l4) == (r4, l4, false);
    assert WaitLoop(c, r3, l3) == (r4, l4, false);
    assert Turn(c, r2.(w := r3.w), NO_LOCALS, HtlcSpend(true)) == (r4, l4, false);
    assert WaitLoop(c, r2, NO_LOCALS) == (r4, l4, false);
    assert WaitForSwapComplete(c, r1) == (r4, l4, false);
    assert Live(c, UNBOOKED_WORLD, UNBOOKED_SECOND) == Persist(r4).0.w;
  }

  /** The fee of the HTLC is stored after it was sent, so that a store call that fails
      in between can finish the swap without the fee of 7. */
  lemma UnbookedFeeAfterRestart()
    ensures var w := Lives(UNBOOKED_CONTRACT, NEW_SWAP, [UNBOOKED_FIRST, UNBOOKED_SECOND]);
            w.sends == [UNBOOKED_SEND] && LastState(w.log) == Success && w.log[|w.log| - 1].cost.onchain == 0
  {
    var c := UNBOOKED_CONTRACT;
    UnbookedFirstLife();
    UnbookedSecondLife();
    var w := Live(c, UNBOOKED_WORLD, UNBOOKED_SECOND);
    assert Lives(c, w, []) == w;
    assert [UNBOOKED_SECOND][1..] == [];
    assert Lives(c, UNBOOKED_WORLD, [UNBOOKED_SECOND]) == w;
    assert [UNBOOKED_FIRST, UNBOOKED_SECOND][1..] == [UNBOOKED_SECOND];
  }
}
