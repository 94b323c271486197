/**
 What client/tts.c does to the record of one handle: the play state it believes in and
 the utterance id it counts, changed when a request is answered or a state message comes.
 */
module ClientSpec {
  import opened Types

  datatype Local = Local(before: AppState, state: AppState, uttId: int)

  const NewLocal := Local(Created, Created, 0)

  /** The calls of the library that reach the daemon; `Connect` is the timer that prepare starts. */
  datatype Call = Connect | Unprepare | Destroy | AddText | Play | Stop | Pause

  /** Whether a call passes the library's own state check; the timer of prepare has none. */
  predicate Allows(l: Local, call: Call) {
    match call
    case Connect => true
    case Unprepare => l.state == Ready
    case Destroy => l.state != Created
    case AddText => l.state != Created
    case Play => l.state == Ready || l.state == Paused
    case Stop => l.state != Created
    case Pause => l.state == Playing
  }

  /** Utterance ids run from 1 to 9999 and start over. */
  function NextId(id: int): int {
    if id + 1 == 10000 then 1 else id + 1
  }

  /** The record when the request is sent. */
  function Sent(l: Local, call: Call): Local {
    if call == AddText then l.(uttId := NextId(l.uttId)) else l
  }

  function MovedTo(l: Local, st: AppState): Local {
    l.(before := l.state, state := st)
  }

  /** The record when the request is answered; an error of finalize is ignored. */
  function Answered(l: Local, call: Call, err: Error): Local {
    match call
    case Connect => if err == NoError then MovedTo(l, Ready) else l
    case Unprepare => MovedTo(l, Created)
    case Destroy => l
    case AddText => l
    case Play => if err == NoError then MovedTo(l, Playing) else l
    case Stop => if err == NoError then MovedTo(l, Ready) else l
    case Pause => if err == NoError then MovedTo(l, Paused) else l
  }

  /** A state message from the daemon is believed, whatever the state was. */
  function Told(l: Local, st: AppState): Local {
    if l.state == st then l else MovedTo(l, st)
  }

  /** The id of the k-th text a handle adds, counting from 1; 0 before the first. */
  function Drawn(k: nat): int {
    if k == 0 then 0 else NextId(Drawn(k - 1))
  }

  /** Ids cycle through 1 to 9999, so equal ids are a multiple of 9999 texts apart. */
  lemma {:induction false} DrawnIs(k: nat)
    ensures Drawn(k) == if k == 0 then 0 else (k - 1) % 9999 + 1
  {
    if k > 0 {
      DrawnIs(k - 1);
    }
  }
}
