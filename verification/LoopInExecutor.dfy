/** The running loop-in swap as the source has it: an object whose methods update
    its fields. Each method is proved to do what the function of the same name in
    LoopIn does, so what is proved there over all lives holds of this object. */
module LoopInExecutor {
  import opened Options
  import opened SwapStates
  import opened LoopIn

  class LoopInSwap {
    const contract: Contract
    var state: SwapState
    var cost: SwapCost
    var htlcTxKnown: bool
    var height: int
    var invoiceSettled: bool
    var invoiceCanceled: bool
    var world: World

    ghost function View(): Run
      reads this
    {
      Run(Swap(state, cost, htlcTxKnown, height, invoiceSettled, invoiceCanceled), world)
    }

    constructor (contract: Contract, world: World, height: int)
      ensures this.contract == contract
      ensures View() == Run(Resume(world.log, height), world)
    {
      this.contract := contract;
      this.world := world;
      this.height := height;
      this.invoiceSettled := false;
      this.invoiceCanceled := false;
      if |world.log| == 0 {
        this.state, this.cost, this.htlcTxKnown := Initiated, NO_COST, false;
      } else {
        var last := world.log[|world.log| - 1];
        this.state, this.cost, this.htlcTxKnown := last.state, last.cost, last.htlcTxKnown;
      }
    }

    method PersistState() returns (err: bool)
      modifies this`world
      ensures (View(), err) == Persist(old(View()))
    {
      var (w, t) := Next(world);
      if t.None? || t.value.reply.Refused? {
        world := w;
        return true;
      }
      world := w.(log := w.log + [LoopEvent(state, cost, htlcTxKnown)]);
      err := t.value.reply.Lost?;
    }

    method Cancel() returns (result: CancelResult)
      modifies this`world
      ensures (world, result) == CancelInvoice(old(world))
    {
      var (w, res) := CancelInvoice(world);
      world := w;
      result := res;
    }

    method Abandon()
      modifies this`world, this`state
      ensures View() == SetStateAbandoned(old(View()))
    {
      if !state.IsPending() {
        return;
      }
      state := FailAbandoned;
      var err := PersistState();
      if err {
        return;
      }
      var _ := Cancel();
    }

    method PublishHtlc() returns (published: bool, err: bool)
      modifies this`world, this`state, this`cost, this`htlcTxKnown
      ensures (View(), published, err) == PublishOnChainHtlc(contract, old(View()))
    {
      if contract.expiry - height < MIN_PUBLISH_DELTA {
        state := FailTimeout;
        err := PersistState();
        return false, err;
      }
      var (w, failed) := Query(world);
      world := w;
      if failed {
        return false, true;
      }
      state := HtlcPublished;
      err := PersistState();
      if err {
        return false, true;
      }
      var (sent, fee) := SendOutputs(world);
      world := sent;
      if fee.None? {
        state := FailInsufficientConfirmedBalance;
        var _ := PersistState();
        return false, true;
      }
      htlcTxKnown := true;
      cost := cost.(onchain := fee.value);
      err := PersistState();
      published := !err;
    }

    method AwaitHtlcConf() returns (value: Option<int>)
      modifies this`world, this`state, this`height, this`htlcTxKnown
      ensures (View(), value) == WaitForHtlcConf(old(View()))
    {
      while true
        invariant WaitForHtlcConf(View()) == WaitForHtlcConf(old(View()))
        decreases |world.tape|
      {
        var (w, e) := Hear(world);
        if e.None? {
          return None;
        }
        world := w;
        match e.value
        case HtlcConf(v) =>
          htlcTxKnown := true;
          return Some(v);
        case Block(h) =>
          height := h;
        case Abandon =>
          Abandon();
          return None;
        case StreamError =>
          return None;
        case Quit =>
          return None;
        case _ =>
      }
    }

    method Refund() returns (refund: bool, err: bool)
      modifies this`world, this`state, this`cost, this`invoiceSettled, this`invoiceCanceled
      ensures (View(), refund, err) == AuthorizeRefund(contract, old(View()))
    {
      if invoiceCanceled {
        return true, false;
      }
      var result := Cancel();
      match result
      case OtherError =>
        return false, false;
      case AlreadySettled =>
        var (w, paid) := LookupInvoice(world);
        world := w;
        if paid.None? {
          return false, false;
        }
        cost := cost.(server := contract.amount - paid.value);
        invoiceSettled := true;
        if state.HtlcPublished? {
          state := InvoiceSettled;
          err := PersistState();
          return false, err;
        }
        return false, false;
      case _ =>
        invoiceCanceled := true;
        return true, false;
    }

    method TimeoutTx() returns (fee: int, err: bool)
      modifies this`world, this`state, this`cost, this`invoiceSettled, this`invoiceCanceled
      ensures (View(), fee, err) == PublishTxOnTimeout(contract, old(View()))
    {
      if invoiceSettled || state.InvoiceSettled? || state.Success? || height < contract.expiry {
        return 0, false;
      }
      var refund;
      refund, err := Refund();
      if err || !refund {
        return 0, err;
      }
      var (w, sweepFee, txErr) := PublishTimeoutTx(world);
      world := w;
      return sweepFee, txErr;
    }

    method PushKey() returns (revealed: bool)
      modifies this`world
      ensures (View(), revealed) == TryPushHtlcKey(contract, old(View()))
    {
      if !contract.musig2 || !invoiceSettled {
        return false;
      }
      var (derived, failed) := Query(world);
      world := derived;
      if failed {
        return false;
      }
      var (w, t) := Next(world);
      world := w;
      if t.None? {
        return false;
      }
      world := world.(keyPushes := world.keyPushes + 1);
      return t.value.reply.Ack?;
    }

    method Spent(success: bool, sweepFee: int) returns (err: bool)
      modifies this`world, this`state, this`cost, this`invoiceCanceled
      ensures (View(), err) == ProcessHtlcSpend(old(View()), success, sweepFee)
    {
      if success {
        state := Success;
        return false;
      }
      cost := cost.(onchain := cost.onchain + sweepFee);
      state := if state.FailIncorrectHtlcAmt? then FailIncorrectHtlcAmtSwept else FailTimeout;
      var result := Cancel();
      match result
      case OtherError =>
        return true;
      case AlreadySettled =>
        return false;
      case _ =>
        invoiceCanceled := true;
        return false;
    }

    method StorePaid() returns (err: bool)
      modifies this`world, this`state
      ensures (View(), err) == StoreSettled(old(View()))
    {
      if !state.HtlcPublished? {
        return false;
      }
      state := InvoiceSettled;
      err := PersistState();
    }

    method InvoiceChanged(l: Locals) returns (l': Locals, err: bool)
      modifies this`world, this`state, this`cost, this`invoiceSettled, this`invoiceCanceled
      ensures (View(), l', err) == OnInvoiceUpdate(contract, old(View()), l)
    {
      if world.invoice.Open? {
        return l, false;
      }
      if !world.invoice.Settled? {
        invoiceCanceled := true;
        return l.(invoiceFinalized := true), false;
      }
      var paid := world.invoice.paid;
      err := StorePaid();
      if err {
        return l, true;
      }
      invoiceSettled := true;
      var revealed := PushKey();
      cost := cost.(server := contract.amount - paid);
      return l.(invoiceFinalized := true, keyRevealed := revealed, paidSeen := true), false;
    }

    method NewBlock(h: int, l: Locals) returns (l': Locals, err: bool)
      modifies this
      ensures (View(), l', err) == OnBlock(contract, old(View()), l, h)
    {
      height := h;
      var fee;
      fee, err := TimeoutTx();
      if err {
        return l, true;
      }
      l' := l.(sweepFee := fee);
      if invoiceSettled && !l'.keyRevealed {
        var revealed := PushKey();
        l' := l'.(keyRevealed := revealed);
      }
    }

    method AwaitCompletion() returns (l: Locals, err: bool)
      modifies this
      ensures (View(), l, err) == WaitForSwapComplete(contract, old(View()))
    {
      l := NO_LOCALS;
      var (w, failed) := WatchSpend(world);
      world := w;
      if failed {
        return l, true;
      }
      if state.InvoiceSettled? || state.Success? {
        invoiceSettled := true;
      }
      var fee;
      fee, err := TimeoutTx();
      if err {
        return l, true;
      }
      l, err := AwaitEnd(l.(sweepFee := fee));
    }

    /** The select loop of waitForSwapComplete. */
    method AwaitEnd(start: Locals) returns (l: Locals, err: bool)
      modifies this
      ensures (View(), l, err) == WaitLoop(contract, old(View()), start)
    {
      l := start;
      while true
        invariant WaitLoop(contract, View(), l) == WaitLoop(contract, old(View()), start)
        decreases |world.tape|
      {
        if l.spent && (l.invoiceFinalized || invoiceCanceled) {
          return l, false;
        }
        if state.InvoiceSettled? && height >= contract.expiry {
          state := Success;
          return l, false;
        }
        var (w, e) := Hear(world);
        if e.None? {
          return l, true;
        }
        world := w;
        l, err := Dispatch(e.value, l);
        if err {
          return l, true;
        }
      }
    }

    method Dispatch(e: Event, l: Locals) returns (l': Locals, err: bool)
      modifies this
      ensures (View(), l', err) == OnEvent(contract, old(View()), l, e)
    {
      match e
      case Block(h) =>
        l', err := NewBlock(h, l);
      case HtlcSpend(success) =>
        err := Spent(success, l.sweepFee);
        l' := l;
        if !err {
          l' := l.(spent := true);
        }
      case InvoiceUpdate =>
        l', err := InvoiceChanged(l);
      case Abandon =>
        Abandon();
        return l, true;
      case StreamError =>
        return l, true;
      case Quit =>
        return l, true;
      case _ =>
        return l, false;
    }

    method EnsureHtlc() returns (published: bool, err: bool)
      modifies this
      ensures (View(), published, err) == EnsurePublished(contract, old(View()))
    {
      if !state.Initiated? {
        return true, false;
      }
      if contract.external {
        state := HtlcPublished;
        err := PersistState();
        published := !err;
      } else {
        published, err := PublishHtlc();
      }
    }

    method CheckValue(value: int)
      modifies this`world, this`state
      ensures View() == CheckHtlcValue(contract, old(View()), value)
    {
      if !state.FailIncorrectHtlcAmt? && value != contract.amount {
        state := FailIncorrectHtlcAmt;
        var _ := PersistState();
      }
    }

    method Finish(value: int) returns (err: bool, ghost waited: Waited)
      modifies this
      ensures (View(), waited, err) == Complete(contract, old(View()), value)
    {
      CheckValue(value);
      ghost var entry := View().m;
      var l;
      l, err := AwaitCompletion();
      if !err {
        err := PersistState();
      }
      waited := Waited(entry, l);
    }

    method Execute() returns (err: bool, ghost waited: Option<Waited>)
      modifies this
      ensures (View(), waited, err) == ExecuteSwap(contract, old(View()))
    {
      waited := None;
      if state.IsFinal() {
        return true, None;
      }
      var published;
      published, err := EnsureHtlc();
      if err || !published {
        return err, None;
      }
      var value := AwaitHtlcConf();
      if value.None? {
        return true, None;
      }
      ghost var wait;
      err, wait := Finish(value.value);
      waited := Some(wait);
    }
  }

  /** The client over any number of lives: it resumes the swap only while it is pending. */
  method RunLives(c: Contract, lives: seq<Life>) returns (w: World)
    ensures w == Lives(c, NEW_SWAP, lives)
  {
    w := NEW_SWAP;
    for i := 0 to |lives|
      invariant Lives(c, w, lives[i..]) == Lives(c, NEW_SWAP, lives)
    {
      var pending := LastState(w.log).IsPending();
      assert lives[i..][0] == lives[i] && lives[i..][1..] == lives[i + 1..];
      w := w.(invoice := ApplyMoves(w.invoice, lives[i].moves), tape := lives[i].tape);
      if pending {
        var swap := new LoopInSwap(c, Started(w, lives[i].height), lives[i].height);
        var _, _ := swap.Execute();
        w := swap.world;
      }
    }
    assert lives[|lives|..] == [];
  }
}
