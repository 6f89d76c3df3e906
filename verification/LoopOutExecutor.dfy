/** The running loop-out swap as an object, each method proved to do what the
    function it names in LoopOut does. */
module LoopOutExecutor {
  import opened Calls
  import opened Options
  import opened SwapStates
  import opened LoopOut

  class LoopOutSwap {
    const contract: Contract
    const payments: Payments
    var state: SwapState
    var cost: SwapCost
    var htlcTxKnown: bool
    var height: int
    var swapTaken: bool
    var prepayTaken: bool
    var world: World

    ghost function View(): Run
      reads this
    {
      Run(Swap(state, cost, htlcTxKnown, height, swapTaken, prepayTaken), world)
    }

    constructor (contract: Contract, payments: Payments, world: World, height: int)
      ensures this.contract == contract && this.payments == payments
      ensures View() == Run(Resume(world.log, height), world)
    {
      this.contract, this.payments, this.world, this.height := contract, payments, world, height;
      this.cost, this.htlcTxKnown, this.swapTaken, this.prepayTaken := NO_COST, false, false, false;
      this.state := if |world.log| == 0 then Initiated else world.log[|world.log| - 1].state;
    }

    method PersistState() returns (err: bool)
      modifies this`world
      ensures (View(), err) == Persist(old(View()))
    {
      var (w, t) := Next(world);
      if t.None? || t.value.reply.Refused? {
        world := w;
        return true;
      }
      world := w.(log := w.log + [LoopEvent(state, cost, htlcTxKnown)]);
      err := t.value.reply.Lost?;
    }

    method TakePayment(swapPayment: bool) returns (result: Option<PaymentResult>, err: bool)
      modifies this`cost, this`swapTaken, this`prepayTaken
      ensures (View().m, result, err) == Receive(contract, payments, old(View().m), swapPayment)
    {
      var taken: PaymentResult;
      if swapPayment && !swapTaken {
        swapTaken, taken := true, payments.swap;
      } else if !swapPayment && !prepayTaken {
        prepayTaken, taken := true, payments.prepay;
      } else {
        return None, false;
      }
      if taken.Succeeded? {
        if swapPayment {
          cost := cost.(server := cost.server + contract.prepayAmount + taken.amount - contract.amount);
        }
        cost := cost.(offchain := cost.offchain + taken.fee);
      }
      return Some(taken), taken.Unexpected?;
    }

    method AwaitHtlc() returns (wait: HtlcWait)
      modifies this
      ensures (View(), wait) == WaitForConfirmedHtlc(contract, payments, old(View()))
    {
      var (w, failed) := Register(world, ForConf);
      world := w;
      if failed {
        return WaitError;
      }
      if state.Initiated? {
        if height > contract.expiry - MIN_REVEAL_DELTA {
          state := FailTimeout;
          return Aborted;
        }
        wait := AwaitHtlcOrFailure();
      } else {
        wait := AwaitHtlcOnly();
      }
    }

    method AwaitHtlcOrFailure() returns (wait: HtlcWait)
      modifies this
      ensures (View(), wait) == AwaitUnrevealed(contract, payments, old(View()))
    {
      while true
        invariant AwaitUnrevealed(contract, payments, View()) == AwaitUnrevealed(contract, payments, old(View()))
        decreases |world.tape|
      {
        var (w, event) := Turn(world);
        if event.None? {
          return WaitError;
        }
        world := w;
        var e := event.value;
        if e.SwapPayment? || e.Prepayment? {
          var result, err := TakePayment(e.SwapPayment?);
          if err {
            return WaitError;
          }
          if result.Some? && result.value.Failure() {
            state := FailOffchainPayments;
            world := Query(world).0;
            return Aborted;
          }
        } else if e.StreamError? || e.Quit? {
          return WaitError;
        } else if e.HtlcConf? {
          htlcTxKnown := true;
          return Confirmed(e.value);
        } else if e.Block? {
          height := e.height;
          if height > contract.expiry - MIN_REVEAL_DELTA {
            state := FailTimeout;
            return Aborted;
          }
        }
      }
    }

    method AwaitHtlcOnly() returns (wait: HtlcWait)
      modifies this`world, this`htlcTxKnown
      ensures (View(), wait) == AwaitRevealed(old(View()))
    {
      while true
        invariant AwaitRevealed(View()) == AwaitRevealed(old(View()))
        decreases |world.tape|
      {
        var (w, event) := Turn(world);
        if event.None? {
          return WaitError;
        }
        world := w;
        match event.value
        case HtlcConf(value) =>
          htlcTxKnown := true;
          return Confirmed(value);
        case StreamError =>
          return WaitError;
        case Quit =>
          return WaitError;
        case _ =>
      }
    }

    method HandOver(value: int, paymentComplete: bool) returns (err: bool)
      modifies this`world, this`state
      ensures (View(), err) == RevealAndPush(old(View()), value, paymentComplete)
    {
      var revealed := state.PreimageRevealed?;
      var (w, reply) := Handover(world, value);
      world := w;
      err := reply != Some(Ack);
      if !err && !revealed {
        state := PreimageRevealed;
        err := PersistState();
      }
      if !err && !paymentComplete && state.PreimageRevealed? {
        var (pushed, u) := Next(world);
        if u.Some? {
          world := pushed.(pushes := pushed.pushes + [LastState(pushed.log)]);
        }
      }
    }

    method AwaitSpend(value: int) returns (wait: SpendWait)
      modifies this`world, this`state, this`height
      ensures (View(), wait) == WaitForSpend(contract, old(View()), value, false)
    {
      var paymentComplete := false;
      while true
        invariant WaitForSpend(contract, View(), value, paymentComplete)
                  == WaitForSpend(contract, old(View()), value, false)
        decreases |world.tape|
      {
        var (w, event) := Turn(world);
        if event.None? {
          return SpendError;
        }
        world := w;
        match event.value
        case HtlcSpend(success, fee) =>
          return Spent(success, fee);
        case Track(succeeded) =>
          paymentComplete := paymentComplete || succeeded;
        case Block(h) =>
          height := h;
        case Timer =>
          if contract.expiry - height - MIN_REVEAL_DELTA <= 0 && !state.PreimageRevealed? {
            state := FailTimeout;
            var _ := PersistState();
            return TimedOut;
          }
          var err := HandOver(value, paymentComplete);
          if err {
            return SpendError;
          }
        case StreamError =>
          return SpendError;
        case Quit =>
          return SpendError;
        case _ =>
      }
    }

    method Execute() returns (err: bool)
      modifies this
      ensures (View(), err) == ExecuteSwap(contract, payments, old(View()))
    {
      var (w, failed) := Query(world);
      world := w;
      if failed {
        return true;
      }
      var wait := AwaitHtlc();
      if !wait.Confirmed? {
        return wait.WaitError?;
      }
      if !state.PreimageRevealed? && wait.value < contract.amount {
        state := FailInsufficientValue;
        return false;
      }
      w, failed := Register(world, ForSpend).0, Register(world, ForSpend).1;
      world := w;
      if failed {
        return true;
      }
      var spend := AwaitSpend(wait.value);
      match spend
      case SpendError =>
        return true;
      case TimedOut =>
        return false;
      case Spent(success, fee) =>
        if success {
          cost := cost.(onchain := fee);
          state := Success;
        } else {
          state := FailSweepTimeout;
        }
        return false;
    }

    method CollectPayments() returns (err: bool)
      modifies this`world, this`cost, this`swapTaken, this`prepayTaken
      ensures (View(), err) == AwaitPayments(contract, payments, old(View()))
    {
      while !swapTaken || !prepayTaken
        invariant AwaitPayments(contract, payments, View()) == AwaitPayments(contract, payments, old(View()))
        decreases |world.tape|
      {
        var (w, event) := Turn(world);
        world := w;
        if event.None? || event.value.Quit? {
          return true;
        }
        if event.value.SwapPayment? || event.value.Prepayment? {
          var _, failed := TakePayment(event.value.SwapPayment?);
          if failed {
            return true;
          }
        }
      }
      return false;
    }

    method Finalize() returns (err: bool)
      modifies this
      ensures (View(), err) == ExecuteAndFinalize(contract, payments, old(View()))
    {
      var (w, failed) := Query(world);
      world := w;
      if failed {
        return true;
      }
      err := Execute();
      if err || state.IsPending() {
        return true;
      }
      world := world.(watch := Nothing);
      err := CollectPayments();
      if err {
        return true;
      }
      err := PersistState();
    }
  }

  /** The client over any number of lives: it resumes the swap only while it is pending. */
  method RunLives(c: Contract, lives: seq<Life>) returns (w: World)
    ensures w == Lives(c, NEW_SWAP, lives)
  {
    w := NEW_SWAP;
    for i := 0 to |lives|
      invariant Lives(c, w, lives[i..]) == Lives(c, NEW_SWAP, lives)
    {
      assert lives[i..][0] == lives[i] && lives[i..][1..] == lives[i + 1..];
      if LastState(w.log).IsPending() {
        var swap := new LoopOutSwap(c, lives[i].payments, Started(w, lives[i].tape, lives[i].height), lives[i].height);
        var _ := swap.Finalize();
        w := swap.world;
      }
    }
    assert lives[|lives|..] == [];
  }
}
