/** Values shared by the modules of the speech daemon and of its client library. */
module Types {

  datatype Option<+T> = None | Some(value: T) {
    function GetOr(default: T): T {
      match this case None => default case Some(v) => v
    }
  }

  /** Play state of a client, as the daemon and the client library number it. */
  datatype AppState = Created | Ready | Playing | Paused

  /** What the engine reports about the utterance it is working on. */
  datatype ResultEvent = Fail | Start | Continue | Finish | Cancel

  datatype Error =
    | NoError | InvalidParameter | OutOfNetwork | InvalidState
    | InvalidVoice | EngineNotFound | OperationFailed | TimedOut

  /** A text waiting to be synthesized; `lang` may be "default" and `kind` 0 (the default type). */
  datatype SpeakData = SpeakData(uttId: int, text: string, lang: string, kind: int, speed: int)

  /** One chunk of synthesized sound. */
  datatype SoundData = SoundData(uttId: int, event: ResultEvent, pcm: seq<int>)

  datatype Voice = Voice(language: string, kind: int)

  function Last<T>(s: seq<T>): T
    requires s != []
  {
    s[|s| - 1]
  }
}
