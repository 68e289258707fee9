/**
 * The `isDone` state of `WalletProgressIconComponent`: the flag that picks the
 * "done" tint, set at mount and by `setTimeout` callbacks that
 * `componentDidUpdate` schedules. Timers are never cancelled, so every
 * scheduled write eventually lands, in the order it was scheduled; the model
 * keeps those writes in a FIFO queue instead of modelling the 500 ms delay.
 */
module DoneFlag {

  /** The value the flag ends with once the queued writes `pending` have all landed, starting from `isDone`. */
  function Drain(isDone: bool, pending: seq<bool>): bool
    decreases pending
  {
    if pending == [] then isDone else Drain(pending[0], pending[1..])
  }

  /** Landing every queued write leaves the last one scheduled: last writer wins. */
  lemma {:induction false} DrainIsLastWrite(isDone: bool, pending: seq<bool>)
    ensures Drain(isDone, pending) == if pending == [] then isDone else pending[|pending| - 1]
    decreases pending
  {
    if pending != [] {
      DrainIsLastWrite(pending[0], pending[1..]);
    }
  }

  /** Landing `first` and then `later` is the same as landing them as one queue. */
  lemma {:induction false} DrainAppend(isDone: bool, first: seq<bool>, later: seq<bool>)
    ensures Drain(isDone, first + later) == Drain(Drain(isDone, first), later)
    decreases first
  {
    if first == [] {
      assert first + later == later;
    } else {
      assert (first + later)[1..] == first[1..] + later;
      DrainAppend(first[0], first[1..], later);
    }
  }

  /**
   * The writes one `componentDidUpdate` schedules for the current progress:
   * `true` at exactly 100, `false` at 5 or less, none otherwise. The two tests
   * are independent in the component, but no progress passes both.
   */
  function Scheduled(progress: real): (writes: seq<bool>)
    ensures |writes| <= 1
    ensures writes == [true] <==> progress == 100.0
    ensures writes == [false] <==> progress <= 5.0
    ensures writes == [] <==> 5.0 < progress < 100.0 || progress > 100.0
  {
    var done := if progress == 100.0 then [true] else [];
    var reset := if progress <= 5.0 then [false] else [];
    assert done + reset == if progress == 100.0 then done else reset;
    assert [true][0] != [false][0];
    done + reset
  }

  /**
   * After an update for `progress`, the value the flag settles on is `true` at
   * 100, `false` at 5 or less, and otherwise what it would have settled on anyway.
   */
  lemma {:induction false} SettleAfterUpdate(isDone: bool, pending: seq<bool>, progress: real)
    ensures Drain(isDone, pending + Scheduled(progress)) ==
      if progress == 100.0 then true else if progress <= 5.0 then false else Drain(isDone, pending)
  {
    DrainAppend(isDone, pending, Scheduled(progress));
    DrainIsLastWrite(Drain(isDone, pending), Scheduled(progress));
  }

  /** The component instance: its `isDone` state and the timer callbacks not yet run. */
  class WalletProgressIconComponent {
    var isDone: bool
    var pending: seq<bool>

    /** The value `isDone` takes once every pending callback has run. */
    function Settled(): bool
      reads this
    {
      Drain(isDone, pending)
    }

    /** The constructor: not done, nothing scheduled. */
    constructor ()
      ensures !isDone && pending == []
    {
      isDone := false;
      pending := [];
    }

    /** `componentDidMount`: done at once when progress is already 100. */
    method ComponentDidMount(progress: real)
      modifies this
      ensures isDone == (progress == 100.0 || old(isDone))
      ensures pending == old(pending)
    {
      if progress == 100.0 {
        isDone := true;
      }
    }

    /** `componentDidUpdate`: schedule at most one write of `isDone` and change nothing now. */
    method ComponentDidUpdate(progress: real)
      modifies this
      ensures isDone == old(isDone)
      ensures pending == old(pending) + Scheduled(progress)
      ensures Settled() == if progress == 100.0 then true else if progress <= 5.0 then false else old(Settled())
    {
      if progress == 100.0 {
        pending := pending + [true];
      }
      if progress <= 5.0 {
        pending := pending + [false];
      }
      SettleAfterUpdate(isDone, old(pending), progress);
    }

    /** The oldest pending timer fires and its `setState` lands; the settled value does not move. */
    method FireTimer()
      requires pending != []
      modifies this
      ensures isDone == old(pending[0])
      ensures pending == old(pending[1..])
      ensures Settled() == old(Settled())
    {
      isDone := pending[0];
      pending := pending[1..];
    }
  }

  /** A fresh component mounted with `progress` is done exactly when progress is 100. */
  method Mount(progress: real) returns (c: WalletProgressIconComponent)
    ensures fresh(c)
    ensures c.isDone <==> progress == 100.0
    ensures c.pending == []
  {
    c := new WalletProgressIconComponent();
    c.ComponentDidMount(progress);
  }
}
