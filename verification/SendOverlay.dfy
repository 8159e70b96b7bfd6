/** The client's overlay endpoint: its table of UDP requests and its shutdown. */
module SendOverlay {
  import opened Wrappers
  import opened Overlay
  import opened Sessions

  /** The one-slot channel a caller waits on. */
  class ResultChannel {
    var slot: Option<Option<UdpError>>

    constructor ()
      ensures slot == None
    {
      slot := None;
    }
  }

  datatype Rejection = AnotherSession | NoRequestId | UnknownRequestId

  /** The shutdown state; a close function is named by a number, and `called`
      lists those that ran. */
  datatype Closing = Closing(closeFunc: Option<nat>, closed: bool, done: bool, called: seq<nat>)

  datatype CloseOp = SetFunc(f: nat) | Shut

  function CloseStep(c: Closing, op: CloseOp): Closing {
    match op
    case SetFunc(f) => if c.closed then c.(called := c.called + [f]) else c.(closeFunc := Some(f))
    case Shut =>
      if c.closed then c
      else Closing(c.closeFunc, true, true, if c.closeFunc.Some? then c.called + [c.closeFunc.value] else c.called)
  }

  function CloseRun(c: Closing, ops: seq<CloseOp>): Closing
    decreases |ops|
  {
    if ops == [] then c else CloseRun(CloseStep(c, ops[0]), ops[1..])
  }

  const OPEN := Closing(None, false, false, [])

  lemma {:induction false} ShutOnly(c: Closing, ops: seq<CloseOp>)
    requires c.done == c.closed && forall i :: 0 <= i < |ops| ==> ops[i].Shut?
    ensures var d := CloseRun(c, ops);
            && d.closed == d.done == (c.closed || ops != [])
            && d.called == if !c.closed && ops != [] && c.closeFunc.Some? then c.called + [c.closeFunc.value] else c.called
    decreases |ops|
  {
    if ops != [] {
      ShutOnly(CloseStep(c, ops[0]), ops[1..]);
    }
  }

  /** The goodbye goes out exactly once, whether the overlay was closed before or
      after it was set up, and however often. */
  lemma {:induction false} GoodbyeExactlyOnce(c: Closing, before: seq<CloseOp>, f: nat, after: seq<CloseOp>)
    requires c.done == c.closed && c.closeFunc.None?
    requires forall i :: 0 <= i < |before| ==> before[i].Shut?
    requires forall i :: 0 <= i < |after| ==> after[i].Shut?
    ensures var d := CloseRun(c, before + [SetFunc(f)] + after);
            && d.closed == d.done == (c.closed || before != [] || after != [])
            && d.called == if d.closed then c.called + [f] else c.called
    decreases |before|
  {
    var ops := before + [SetFunc(f)] + after;
    if before == [] {
      assert ops[0] == SetFunc(f) && ops[1..] == after;
      ShutOnly(CloseStep(c, ops[0]), after);
    } else {
      assert ops[0] == before[0] && ops[1..] == before[1..] + [SetFunc(f)] + after;
      GoodbyeExactlyOnce(CloseStep(c, ops[0]), before[1..], f, after);
    }
  }

  class Send {
    const sessionId: SessionId
    var requests: map<string, ResultChannel>
    var closeFunc: Option<nat>
    var closed: bool
    var done: bool
    var called: seq<nat>

    constructor (sessionId: SessionId)
      ensures this.sessionId == sessionId && requests == map[] && Shutdown() == OPEN
    {
      this.sessionId := sessionId;
      requests, closeFunc, closed, done, called := map[], None, false, false, [];
    }

    function Shutdown(): Closing
      reads this
    {
      Closing(closeFunc, closed, done, called)
    }

    /** The caller's first step, with a freshly drawn request ID. */
    method Register(requestId: string) returns (result: ResultChannel)
      modifies this`requests
      ensures fresh(result) && result.slot == None
      ensures requests == old(requests)[requestId := result]
    {
      result := new ResultChannel();
      requests := requests[requestId := result];
    }

    /** The caller's last step, whatever it returns. */
    method Unregister(requestId: string)
      modifies this`requests
      ensures requests == old(requests) - {requestId}
    {
      requests := requests - {requestId};
    }

    /** Hands a response to the caller waiting for it, and to nobody else; a
        second response for the same request is dropped. */
    method HandleOpenUdpResponse(sid: SessionId, requestId: string, error: Option<UdpError>) returns (r: Result<(), Rejection>)
      modifies requests.Values
      ensures r == (if sid != "" && sid != sessionId then Err(AnotherSession)
                    else if requestId == "" then Err(NoRequestId)
                    else if requestId !in requests then Err(UnknownRequestId)
                    else Ok(()))
      ensures forall ch: ResultChannel :: ch in requests.Values ==>
          ch.slot == if r.Ok? && ch == requests[requestId] && old(ch.slot).None? then Some(error) else old(ch.slot)
    {
      if sid != "" && sid != sessionId {
        return Err(AnotherSession);
      }
      if requestId == "" {
        return Err(NoRequestId);
      }
      if requestId !in requests {
        return Err(UnknownRequestId);
      }
      var request := requests[requestId];
      if request.slot.None? {
        request.slot := Some(error);
      }
      return Ok(());
    }

    method SetCloseFunc(f: nat)
      modifies this`closeFunc, this`called
      ensures Shutdown() == CloseStep(old(Shutdown()), SetFunc(f))
    {
      if closed {
        called := called + [f];
        return;
      }
      closeFunc := Some(f);
    }

    method Close()
      modifies this`closed, this`done, this`called
      ensures Shutdown() == CloseStep(old(Shutdown()), Shut)
    {
      if closed {
        return;
      }
      closed := true;
      done := true;
      if closeFunc.Some? {
        called := called + [closeFunc.value];
      }
    }
  }
}
