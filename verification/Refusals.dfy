/**
 The counter that turns refusals into a verdict (`RefusalTracker` of binding_core.py), shared by the
 heartbeat channel and the journal channel.
 */
module Refusals {
  import opened Base

  datatype Class = Revoked | Unlinked | Unknown

  datatype Tracker = Tracker(cls: Option<Class>, count: nat)

  /** Nothing counted. */
  const NOTHING := Tracker(None, 0)

  function NoteRefusal(t: Tracker, c: Class): Tracker {
    if t.cls == Some(c) then t.(count := t.count + 1) else Tracker(Some(c), 1)
  }

  class RefusalTracker {
    const threshold: nat
    var cls: Option<Class>
    var count: nat

    function State(): Tracker
      reads this
    {
      Tracker(cls, count)
    }

    constructor (threshold: nat)
      ensures this.threshold == threshold && State() == NOTHING
    {
      this.threshold, cls, count := threshold, None, 0;
    }

    method NoteSuccess()
      modifies this
      ensures State() == NOTHING
    {
      cls, count := None, 0;
    }

    method Note(c: Class) returns (reached: bool)
      modifies this
      ensures State() == NoteRefusal(old(State()), c)
      ensures reached == (count >= threshold)
    {
      if cls == Some(c) {
        count := count + 1;
      } else {
        cls, count := Some(c), 1;
      }
      reached := count >= threshold;
    }
  }
}
