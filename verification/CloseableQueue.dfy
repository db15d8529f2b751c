/** The unbounded multi-producer command queue that can be closed but still drained. */
module CloseableQueue {
  import opened Common

  class CloseableQueue<T> {
    var values: seq<T>
    var closed: bool

    constructor ()
      ensures values == [] && !closed
    {
      values := [];
      closed := false;
    }

    /** Appends at the back unless closed; a refused push changes nothing. */
    method Push(value: T) returns (ok: bool)
      modifies this
      ensures ok == !old(closed) && closed == old(closed)
      ensures values == if ok then old(values) + [value] else old(values)
    {
      if closed {
        return false;
      }
      values := values + [value];
      ok := true;
    }

    /**
     What wait_pop does once its wait is over. The wait ends when the queue is closed, has a value,
     or a stop was requested, which is the precondition here.
     */
    method WaitPop(stopRequested: bool) returns (r: Option<T>)
      requires closed || values != [] || stopRequested
      modifies this
      ensures closed == old(closed)
      ensures r.None? <==> old(values) == []
      ensures r.None? ==> values == old(values)
      ensures r.Some? ==> old(values) == [r.value] + values
    {
      if values == [] {
        return None;
      }
      r := Some(values[0]);
      values := values[1..];
    }

    method Close()
      modifies this
      ensures closed && values == old(values)
    {
      closed := true;
    }
  }
}
