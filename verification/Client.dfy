/**
 client/tts.c: the calls of the library on one handle.  `reply` is what the daemon
 answers to the request that the call sends; it is not used when no request is sent.
 */
module Client {
  import opened Types
  import opened ClientSpec

  class Handle {
    var beforeState: AppState
    var currentState: AppState
    var currentUttId: int
    var connecting: nat   // connect timers that have not ended
    var reason: Error     // of the last error, with its utterance
    var errorUttId: int
    var errorTimers: nat  // notifications of an error that are due

    ghost function Value(): Local
      reads this
    {
      Local(beforeState, currentState, currentUttId)
    }

    constructor ()
      ensures Value() == NewLocal == Local(Created, Created, 0) && connecting == 0 && errorTimers == 0
    {
      beforeState, currentState, currentUttId := Created, Created, 0;
      connecting, reason, errorUttId, errorTimers := 0, NoError, 0, 0;
    }

    /** A timer is started that connects; nothing else changes until it fires. */
    method Prepare() returns (err: Error)
      modifies this`connecting
      ensures err == if currentState == Created then NoError else InvalidState
      ensures connecting == old(connecting) + if err == NoError then 1 else 0
    {
      if currentState != Created {
        return InvalidState;
      }
      connecting := connecting + 1;
      return NoError;
    }

    /**
     The timer.  While the daemon does not say hello the timer goes on, and the first such
     time launches the daemon (`started` says whether a launch was tried before); otherwise
     the handle is registered, and an application whose registration fails is told that no
     engine was found or that the connection timed out.
     */
    method ConnectDaemon(hello: bool, started: bool, reply: Error) returns (again: bool, launch: bool)
      requires connecting > 0
      modifies this
      ensures again == !hello && launch == (!hello && !started)
      ensures connecting == old(connecting) - if again then 0 else 1
      ensures Value() == if again then old(Value()) else Answered(old(Value()), Connect, reply)
      ensures (beforeState, currentState) ==
              if !again && reply == NoError then (old(currentState), Ready) else old((beforeState, currentState))
      ensures again || reply == NoError ==> (reason, errorUttId, errorTimers) == old((reason, errorUttId, errorTimers))
      ensures !again && reply != NoError ==>
                reason == (if reply == EngineNotFound then EngineNotFound else TimedOut) && errorUttId == -1
                && errorTimers == old(errorTimers) + 1
    {
      if !hello {
        return true, !started;
      }
      again, launch, connecting := false, false, connecting - 1;
      if reply == EngineNotFound {
        reason, errorUttId, errorTimers := EngineNotFound, -1, errorTimers + 1;
        return;
      } else if reply != NoError {
        reason, errorUttId, errorTimers := TimedOut, -1, errorTimers + 1;
        return;
      }
      beforeState := currentState;
      currentState := Ready;
    }

    method UnprepareHandle(reply: Error) returns (err: Error)
      modifies this`beforeState, this`currentState
      ensures err == if Allows(old(Value()), Unprepare) then NoError else InvalidState
      ensures Value() == if Allows(old(Value()), Unprepare) then Answered(old(Value()), Unprepare, reply) else old(Value())
      ensures old(currentState) == Ready ==> err == NoError && (beforeState, currentState) == (Ready, Created)
      ensures old(currentState) != Ready ==> err == InvalidState && unchanged(this)
    {
      if currentState != Ready {
        return InvalidState;
      }
      beforeState := currentState;
      currentState := Created;
      return NoError;
    }

    /** The id is drawn before the daemon is asked, and is spent even if it refuses. */
    method AddText(reply: Error) returns (err: Error, uttId: int)
      modifies this`currentUttId
      ensures err == if Allows(old(Value()), ClientSpec.AddText) then reply else InvalidState
      ensures Value() == if Allows(old(Value()), ClientSpec.AddText)
                         then Answered(Sent(old(Value()), ClientSpec.AddText), ClientSpec.AddText, reply) else old(Value())
      ensures Allows(old(Value()), ClientSpec.AddText) ==> uttId == Value().uttId
      ensures old(currentState) == Created ==> err == InvalidState && unchanged(this)
      ensures old(currentState) != Created ==>
                err == reply && uttId == currentUttId == if old(currentUttId) == 9999 then 1 else old(currentUttId) + 1
    {
      if currentState == Created {
        return InvalidState, 0;
      }
      currentUttId := currentUttId + 1;
      if currentUttId == 10000 {
        currentUttId := 1;
      }
      return reply, currentUttId;
    }

    method Play(reply: Error) returns (err: Error)
      modifies this`beforeState, this`currentState
      ensures err == if Allows(old(Value()), ClientSpec.Play) then reply else InvalidState
      ensures Value() == if Allows(old(Value()), ClientSpec.Play) then Answered(old(Value()), ClientSpec.Play, reply)
                         else old(Value())
      ensures old(currentState) == Created || old(currentState) == Playing ==> err == InvalidState && unchanged(this)
      ensures old(currentState) == Ready || old(currentState) == Paused ==>
                && err == reply && (reply != NoError ==> unchanged(this))
                && (reply == NoError ==> (beforeState, currentState) == (old(currentState), Playing))
    {
      if currentState == Playing || currentState == Created {
        return InvalidState;
      }
      if reply != NoError {
        return reply;
      }
      beforeState := currentState;
      currentState := Playing;
      return NoError;
    }

    method Stop(reply: Error) returns (err: Error)
      modifies this`beforeState, this`currentState
      ensures err == if Allows(old(Value()), ClientSpec.Stop) then reply else InvalidState
      ensures Value() == if Allows(old(Value()), ClientSpec.Stop) then Answered(old(Value()), ClientSpec.Stop, reply)
                         else old(Value())
      ensures old(currentState) == Created ==> err == InvalidState && unchanged(this)
      ensures old(currentState) != Created ==>
                && err == reply && (reply != NoError ==> unchanged(this))
                && (reply == NoError ==> (beforeState, currentState) == (old(currentState), Ready))
    {
      if currentState == Created {
        return InvalidState;
      }
      if reply != NoError {
        return reply;
      }
      beforeState := currentState;
      currentState := Ready;
      return NoError;
    }

    method Pause(reply: Error) returns (err: Error)
      modifies this`beforeState, this`currentState
      ensures err == if Allows(old(Value()), ClientSpec.Pause) then reply else InvalidState
      ensures Value() == if Allows(old(Value()), ClientSpec.Pause) then Answered(old(Value()), ClientSpec.Pause, reply)
                         else old(Value())
      ensures old(currentState) != Playing ==> err == InvalidState && unchanged(this)
      ensures old(currentState) == Playing ==>
                && err == reply && (reply != NoError ==> unchanged(this))
                && (reply == NoError ==> (beforeState, currentState) == (Playing, Paused))
    {
      if currentState != Playing {
        return InvalidState;
      }
      if reply != NoError {
        return reply;
      }
      beforeState := currentState;
      currentState := Paused;
      return NoError;
    }

    /** A state message from the daemon. */
    method OnStateMessage(state: AppState)
      modifies this`beforeState, this`currentState
      ensures Value() == Told(old(Value()), state)
      ensures currentState == state && beforeState == if old(currentState) == state then old(beforeState) else old(currentState)
    {
      if currentState == state {
        return;
      }
      beforeState := currentState;
      currentState := state;
    }
  }
}
