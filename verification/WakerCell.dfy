/**
 The "check, store the waker, check again" half of a wait against the "raise the flag, take the
 waker" half of whoever ends it.  `sync::Notify`, the io_uring operation futures and the signal
 listeners all park on such a cell; every function below is one atomic access of the source.

 Each poll stores a waker of its own, numbered by `token`, so that waking an older poll is never
 mistaken for waking the current one.
 */
module WakerCell {
  import opened Base

  /** Where the waiting side is inside its poll function. */
  datatype Pc =
    | Idle      // not being polled, and no poll has parked since
    | Checked   // saw the flag down, has not stored its waker yet
    | Stored    // stored its waker, has not looked at the flag again
    | Parked    // returned Pending
    | Done      // returned Ready for good

  datatype Cell = Cell(
    flag: bool,
    slot: Option<nat>,  // the waker slot, holding the number of the poll that filled it
    pc: Pc,
    token: nat,         // number of the last stored waker
    woke: bool          // that waker has been invoked
  )

  const Fresh := Cell(false, None, Idle, 0, false)

  predicate CanPoll(c: Cell) {
    c.pc == Idle || c.pc == Parked
  }

  /** The waiting side finds the flag up: a consuming reader lowers it and may wait again. */
  function Finish(c: Cell, consume: bool): Cell {
    if consume then c.(flag := false, pc := Idle) else c.(pc := Done)
  }

  function Check(c: Cell, consume: bool): Cell
    requires CanPoll(c)
  {
    if c.flag then Finish(c, consume) else c.(pc := Checked)
  }

  function Store(c: Cell): Cell
    requires c.pc == Checked
  {
    c.(slot := Some(c.token + 1), token := c.token + 1, woke := false, pc := Stored)
  }

  function Recheck(c: Cell, consume: bool): Cell
    requires c.pc == Stored
  {
    if c.flag then Finish(c, consume) else c.(pc := Parked)
  }

  function Raise(c: Cell): Cell {
    c.(flag := true)
  }

  function Take(c: Cell): Cell {
    c.(slot := None, woke := c.woke || c.slot == Some(c.token))
  }

  /**
   `taking` says that somebody raised the flag and is still on the way to the waker slot.  The last
   line is the heart of it: an unwoken parked wait behind a raised flag is somebody's unfinished job.
   */
  ghost predicate Inv(c: Cell, taking: bool) {
    && (c.slot.Some? ==> c.slot.value == c.token)
    && ((c.pc == Stored || c.pc == Parked) && !c.woke ==> c.slot == Some(c.token))
    && (c.pc == Parked && c.flag && !c.woke ==> taking)
  }

  /** No wait is left asleep: what every client of this module derives from `Inv`. */
  ghost predicate NotLost(c: Cell) {
    c.pc == Parked && c.flag ==> c.woke
  }

  /** A wait that is over: consumed and ready for the next one, or done for good. */
  ghost predicate Over(c: Cell, consume: bool) {
    if consume then c.pc == Idle && !c.flag else c.pc == Done && c.flag
  }

  /**
   One poll from end to end, with the flag raised before it, before its waker is stored, after that, or
   not at all: it is over exactly if the flag was up at any time, and otherwise parked behind a waker of
   its own that nobody has invoked yet, which whoever ends the wait next will take and invoke.
   */
  lemma PollOutcome(c: Cell, consume: bool, early: bool, late: bool)
    requires CanPoll(c)
    ensures c.flag ==> Over(Check(c, consume), consume)
    ensures !c.flag ==>
              var c1 := Check(c, consume);
              && c1.pc == Checked && !c1.flag
              && var c2 := Store(if early then Raise(c1) else c1);
                 && c2.pc == Stored
                 && var c3 := Recheck(if late then Raise(c2) else c2, consume);
                    && (early || late <==> Over(c3, consume))
                    && (!early && !late ==>
                          && c3.pc == Parked && !c3.flag && !c3.woke
                          && c3.token == c.token + 1 && c3.slot == Some(c3.token)
                          && Take(Raise(c3)).woke && Take(Raise(c3)).slot == None)
  {
  }
}
