/** Runs of the daemon, from its start on, that lead to each of the steps after which sound waits for nothing. */
module SoundWitnesses {
  import opened Types
  import opened Tables
  import opened DataSpec
  import opened DaemonSpec
  import opened SoundWake
  import opened Witnesses
  import A = AgentSpec
  import P = PlayerSpec

  type Events = seq<(Event, Env)>

  // ----- a daemon with one client

  /** Client `u` alone, whatever the history. */
  function Alone(u: int, a: AppRec, p: P.PlayerRec, playing: Option<int>, due: multiset<int>, job: Option<Job>, next: bool,
                 timers: nat, log: seq<Act>): Daemon
  {
    Joined.(apps := [Entry(u, a)], players := P.Players([Entry(u, p)], playing, due), synthesizing := job.Some?, next := next,
            timers := timers, job := job, log := log)
  }

  /** A client with these texts and chunks waiting. */
  function App(st: AppState, texts: seq<SpeakData>, sounds: seq<SoundData>): AppRec {
    AppRec(1, 0, st, texts, sounds)
  }

  lemma OneFinds<T>(u: int, x: T)
    ensures Find([Entry(u, x)], u) == 0
  {
  }

  lemma Adds(u: int, texts: seq<SpeakData>, p: P.PlayerRec, due: multiset<int>, timers: nat, next: bool, log: seq<Act>, id: int)
    requires id > 0
    ensures var d := Alone(u, App(Ready, texts, []), p, None, due, None, next, timers, log);
            var r := AddQueue(d, u, Hello(id), Up).0;
            r == Alone(u, App(Ready, texts + [Hello(id)], []), p, None, due, None, next, timers, r.log)
  {
    hide A.SelectVoice;
    SpeaksHello(id);
  }

  lemma Plays(u: int, id: int, rest: seq<SpeakData>, p: P.PlayerRec, due: multiset<int>, timers: nat, next: bool, log: seq<Act>)
    requires u > 0 && id > 0
    ensures var d := Alone(u, App(Ready, [Hello(id)] + rest, []), p, None, due, None, next, timers, log);
            var r := PlayClient(d, u, Up).0;
            r == Alone(u, App(Playing, rest, []), p, None, due, Some(Job(u, Hello(id), false)), next, timers + 1, r.log)
  {
    hide A.StartCall;
    SpeaksHello(id);
    assert ([Hello(id)] + rest)[1..] == rest;
  }

  lemma Speaks(u: int, texts: seq<SpeakData>, sounds: seq<SoundData>, p: P.PlayerRec, playing: Option<int>, due: multiset<int>,
      j: Job, timers: nat, ev: ResultEvent, pcm: seq<int>, log: seq<Act>)
    requires j.uid == u && j.speak.uttId > 0 && (ev == Start || ev == Finish)
    ensures var d := Alone(u, App(Playing, texts, sounds), p, playing, due, Some(j), false, timers, log);
            var r := Emit(d, ev, pcm);
            r == Alone(u, App(Playing, texts, sounds + [SoundData(j.speak.uttId, ev, pcm)]), p, playing, due,
                       if ev == Finish then None else Some(j.(streaming := true)), ev == Finish, timers, r.log)
  {
  }

  lemma Fetches(u: int, c: SoundData, rest: seq<SoundData>, p: P.PlayerRec, due: multiset<int>, timers: nat, log: seq<Act>)
    requires u > 0 && timers > 0 && p.media == P.MediaNull
    ensures var d := Alone(u, App(Playing, [], [c] + rest), p, None, due, None, true, timers, log);
            var r := Tick(d, Up);
            r == Alone(u, App(Playing, [], rest), p.(media := P.MediaPlaying, chunk := Some(c)), None, due, None, false, timers, r.log)
  {
    assert ([c] + rest)[1..] == rest;
  }

  /** A tick that starts the next text as well. */
  lemma FetchesOn(u: int, id: int, c: SoundData, p: P.PlayerRec, timers: nat, log: seq<Act>)
    requires u > 0 && id > 0 && timers > 0 && p.media == P.MediaNull
    ensures var d := Alone(u, App(Playing, [Hello(id)], [c]), p, None, multiset{}, None, true, timers, log);
            var r := Tick(d, Up);
            r == Alone(u, App(Playing, [], []), p.(media := P.MediaPlaying, chunk := Some(c)), None, multiset{},
                       Some(Job(u, Hello(id), false)), false, timers, r.log)
  {
    hide A.StartCall;
    SpeaksHello(id);
    assert [Hello(id)][1..] == [] && [c][1..] == [];
  }

  lemma Begins(u: int, texts: seq<SpeakData>, sounds: seq<SoundData>, p: P.PlayerRec, due: multiset<int>, job: Option<Job>,
      timers: nat, c: SoundData, log: seq<Act>)
    ensures var d := Alone(u, App(Playing, texts, sounds), p, None, due, job, false, timers, log);
            var r := StreamBegins(d, u, c);
            r == Alone(u, App(Playing, texts, sounds), p.(uttId := c.uttId, event := c.event), Some(u), due, job, false, timers, r.log)
  {
  }

  lemma Ends(u: int, sounds: seq<SoundData>, p: P.PlayerRec, due: multiset<int>, timers: nat, c: SoundData, log: seq<Act>)
    ensures var d := Alone(u, App(Playing, [], sounds), p, Some(u), due, None, false, timers, log);
            var r := StreamEnds(d, u, c);
            r == Alone(u, App(Playing, [], sounds), p.(chunk := None), Some(u), due + multiset{u}, None, false, timers, r.log)
  {
  }

  lemma Breaks(u: int, p: P.PlayerRec, job: Option<Job>, timers: nat, c: SoundData, log: seq<Act>)
    ensures var d := Alone(u, App(Playing, [], []), p, Some(u), multiset{}, job, false, timers, log);
            var r := StreamFails(d, u, c);
            r == Alone(u, App(Playing, [], []), p.(event := Finish, chunk := None), None, multiset{}, job, false, timers, r.log)
  {
  }

  lemma Stops1(u: int, p: P.PlayerRec, timers: nat, log: seq<Act>)
    ensures var d := Alone(u, App(Playing, [], []), p, None, multiset{}, None, false, timers, log);
            var r := StopClient(d, u).0;
            r == Alone(u, App(Ready, [], []), p.(uttId := -1, media := P.MediaNull), None, multiset{}, None, false, timers, r.log)
  {
  }

  /** Nobody is left; a next-play timer is. */
  function Deserted(due: multiset<int>, timers: nat, log: seq<Act>): Daemon {
    Joined.(apps := [], players := P.Players([], None, due), agent := LoadedAgent.(loaded := false), timers := timers, log := log)
  }

  lemma Goes(u: int, sounds: seq<SoundData>, p: P.PlayerRec, due: multiset<int>, timers: nat, log: seq<Act>)
    ensures var d := Alone(u, App(Playing, [], sounds), p, Some(u), due, None, false, timers, log);
            var r := FinalizeClient(d, u, Up).0;
            r == Deserted(due, timers, r.log)
  {
  }

  lemma Comes(u: int, due: multiset<int>, timers: nat, log: seq<Act>)
    ensures InitClient(Deserted(due, timers, log), 1, u, Up).0
         == Alone(u, App(Ready, [], []), P.NewPlayer, None, due, None, false, timers, log)
  {
    assert A.Load(LoadedAgent.(loaded := false), Some(Lib)) == (LoadedAgent, true);
    assert [] + [Entry(u, NewRec(1))] == [Entry(u, NewRec(1))];
  }

  /** The timer of somebody who is gone. */
  lemma OrphanFires(u: int, v: int, sounds: seq<SoundData>, p: P.PlayerRec, timers: nat, log: seq<Act>)
    requires u != v
    ensures var d := Alone(u, App(Playing, [], sounds), p, Some(u), multiset{v}, None, false, timers, log);
            var r := NextSound(d, v);
            r == Alone(u, App(Playing, [], sounds), p, None, multiset{}, None, false, timers, r.log)
  {
    assert log + [] == log && multiset{v} - multiset{v} == multiset{};
  }

  // ----- a second client

  function Both(a: AppRec, b: AppRec, p: P.PlayerRec, playing: Option<int>, due: multiset<int>, next: bool, timers: nat,
                ints: multiset<int>, log: seq<Act>): Daemon
  {
    Joined.(apps := [Entry(7, a), Entry(8, b)], players := P.Players([Entry(7, p), Entry(8, P.NewPlayer)], playing, due),
            next := next, timers := timers, interrupts := ints, log := log)
  }

  lemma TwoFind<T>(x: T, y: T)
    ensures Find([Entry(7, x), Entry(8, y)], 7) == 0 && Find([Entry(7, x), Entry(8, y)], 8) == 1
  {
  }

  lemma SecondComes(a: AppRec, p: P.PlayerRec, playing: Option<int>, due: multiset<int>, next: bool, timers: nat, log: seq<Act>)
    ensures var d := Alone(7, a, p, playing, due, None, next, timers, log);
            InitClient(d, 1, 8, Up).0 == Both(a, App(Ready, [], []), p, playing, due, next, timers, multiset{}, log)
  {
    assert [Entry(7, a)] + [Entry(8, NewRec(1))] == [Entry(7, a), Entry(8, NewRec(1))];
    assert [Entry(7, p)] + [Entry(8, P.NewPlayer)] == [Entry(7, p), Entry(8, P.NewPlayer)];
  }

  /** The second client interrupts the first. */
  lemma TakesOver(sounds: seq<SoundData>, p: P.PlayerRec, playing: Option<int>, due: multiset<int>, next: bool, timers: nat,
      log: seq<Act>)
    requires playing == None || playing == Some(7)
    ensures var d := Both(App(Playing, [], sounds), App(Ready, [], []), p, playing, due, next, timers, multiset{}, log);
            var r := PlayClient(d, 8, Up).0;
            r == Both(App(Paused, [], sounds), App(Playing, [], []),
                      if p.media == P.MediaPlaying then p.(media := P.MediaPaused) else p, None,
                      due, next, timers + 1, multiset{7}, r.log)
  {
    hide PauseCurrent, Find;
    Interrupts(sounds, p, playing, due, next, timers, log);
    TwoFind(App(Paused, [], sounds), App(Ready, [], []));
    TwoFind(App(Playing, [], sounds), App(Ready, [], []));
    TwoFind(App(Paused, [], sounds), App(Playing, [], []));
  }

  lemma Interrupts(sounds: seq<SoundData>, p: P.PlayerRec, playing: Option<int>, due: multiset<int>, next: bool, timers: nat,
      log: seq<Act>)
    requires playing == None || playing == Some(7)
    ensures var d := Both(App(Playing, [], sounds), App(Ready, [], []), p, playing, due, next, timers, multiset{}, log);
            PauseCurrent(d, 8) == Both(App(Paused, [], sounds), App(Ready, [], []),
                      if p.media == P.MediaPlaying then p.(media := P.MediaPaused) else p, None, due, next, timers, multiset{7}, log)
  {
  }

  lemma FiresInVain(sounds: seq<SoundData>, p: P.PlayerRec, timers: nat, log: seq<Act>)
    ensures var d := Both(App(Paused, [], sounds), App(Playing, [], []), p, None, multiset{7}, false, timers, multiset{7}, log);
            var r := NextSound(d, 7);
            r == Both(App(Paused, [], sounds), App(Playing, [], []), p, None, multiset{}, false, timers, multiset{7}, r.log)
  {
    assert multiset{7} - multiset{7} == multiset{};
  }

  lemma TicksInVain(sounds: seq<SoundData>, p: P.PlayerRec, timers: nat, log: seq<Act>)
    requires timers > 0
    ensures var d := Both(App(Paused, [], sounds), App(Playing, [], []), p, None, multiset{}, true, timers, multiset{7}, log);
            var r := Tick(d, Up);
            r == Both(App(Paused, [], sounds), App(Playing, [], []), p, None, multiset{}, false, timers, multiset{7}, r.log)
  {
    assert log + [] == log;
  }

  // ----- the runs

  const Half := SoundData(1, Start, [1])
  const Full := SoundData(1, Finish, [2])

  /** A player that was given a chunk. */
  function Fed(c: SoundData): P.PlayerRec {
    P.NewPlayer.(media := P.MediaPlaying, chunk := Some(c))
  }

  /** One text, spoken in two chunks, of which the player has taken the first. */
  function FetchedRun(): Events {
    [(EvInit(1, 7), Up), (EvAdd(7, Hello(1)), Up), (EvPlay(7), Up), (EvResult(Start, [1]), Up),
     (EvResult(Finish, [2]), Up), (EvTick, Up)]
  }

  lemma AfterSpoken()
    ensures var es := JoinRun() + [(EvAdd(7, Hello(1)), Up)] + [(EvPlay(7), Up)];
            var d := Run(Boot(FreshAgent, [Engine]), es);
            d == Alone(7, App(Playing, [], []), P.NewPlayer, None, multiset{}, Some(Job(7, Hello(1), false)), false, 1, d.log)
  {
    hide Run, Boot, AddQueue, PlayClient;
    var b, es := Boot(FreshAgent, [Engine]), JoinRun();
    AfterJoin();
    assert Joined == Alone(7, App(Ready, [], []), P.NewPlayer, None, multiset{}, None, false, 0, []);
    Adds(7, [], P.NewPlayer, multiset{}, 0, false, [], 1);
    RunOne(b, es, EvAdd(7, Hello(1)), Up);
    es := es + [(EvAdd(7, Hello(1)), Up)];
    assert [] + [Hello(1)] == [Hello(1)] + [];
    Plays(7, 1, [], P.NewPlayer, multiset{}, 0, false, Run(b, es).log);
    RunOne(b, es, EvPlay(7), Up);
  }

  /** The engine delivers the text of the only client in two chunks, and the tick fetches the first. */
  lemma SpeaksInTwo(es: Events, u: int, due: multiset<int>, timers: nat)
    requires u > 0 && timers > 0
    requires var d := Run(Boot(FreshAgent, [Engine]), es);
             d == Alone(u, App(Playing, [], []), P.NewPlayer, None, due, Some(Job(u, Hello(1), false)), false, timers, d.log)
    ensures var fs := es + [(EvResult(Start, [1]), Up)] + [(EvResult(Finish, [2]), Up)] + [(EvTick, Up)];
            var d := Run(Boot(FreshAgent, [Engine]), fs);
            d == Alone(u, App(Playing, [], [Full]), Fed(Half), None, due, None, false, timers, d.log)
  {
    hide Run, Boot, Emit, Tick;
    var b, fs := Boot(FreshAgent, [Engine]), es;
    Speaks(u, [], [], P.NewPlayer, None, due, Job(u, Hello(1), false), timers, Start, [1], Run(b, fs).log);
    RunOne(b, fs, EvResult(Start, [1]), Up);
    fs := fs + [(EvResult(Start, [1]), Up)];
    assert [] + [Half] == [Half];
    Speaks(u, [], [Half], P.NewPlayer, None, due, Job(u, Hello(1), true), timers, Finish, [2], Run(b, fs).log);
    RunOne(b, fs, EvResult(Finish, [2]), Up);
    fs := fs + [(EvResult(Finish, [2]), Up)];
    assert [Half] + [Full] == [Half, Full];
    Fetches(u, Half, [Full], P.NewPlayer, due, timers, Run(b, fs).log);
    RunOne(b, fs, EvTick, Up);
  }

  lemma AfterFetched()
    ensures var d := Run(Boot(FreshAgent, [Engine]), FetchedRun());
            d == Alone(7, App(Playing, [], [Full]), Fed(Half), None, multiset{}, None, false, 1, d.log)
  {
    hide Run, Boot;
    var es := JoinRun() + [(EvAdd(7, Hello(1)), Up)] + [(EvPlay(7), Up)];
    AfterSpoken();
    SpeaksInTwo(es, 7, multiset{}, 1);
    assert es + [(EvResult(Start, [1]), Up)] + [(EvResult(Finish, [2]), Up)] + [(EvTick, Up)] == FetchedRun();
  }

  /** The first chunk breaks off; the second waits for nothing. */
  lemma MutedByError()
    ensures ErrorMutes(Run(Boot(FreshAgent, [Engine]), FetchedRun()), 7)
  {
    AfterFetched();
  }

  /** The first chunk has begun, and ended. */
  function EndedRun(): Events {
    FetchedRun() + [(EvBegin(7, Half), Up)] + [(EvEnd(7, Half), Up)]
  }

  const Spent := Fed(Half).(uttId := 1, event := Start, chunk := None)

  lemma AfterEnded()
    ensures var d := Run(Boot(FreshAgent, [Engine]), EndedRun());
            d == Alone(7, App(Playing, [], [Full]), Spent, Some(7), multiset{7}, None, false, 1, d.log)
  {
    hide Run, Boot, StreamBegins, StreamEnds, FetchedRun;
    var b, es := Boot(FreshAgent, [Engine]), FetchedRun();
    AfterFetched();
    Begins(7, [], [Full], Fed(Half), multiset{}, None, 1, Half, Run(b, es).log);
    RunOne(b, es, EvBegin(7, Half), Up);
    es := es + [(EvBegin(7, Half), Up)];
    Ends(7, [Full], Fed(Half).(uttId := 1, event := Start), multiset{}, 1, Half, Run(b, es).log);
    RunOne(b, es, EvEnd(7, Half), Up);
  }

  /** Before the next-play timer fires another client takes over, and the timer comes to nothing. */
  function SpentRun(): Events {
    EndedRun() + [(EvInit(1, 8), Up)] + [(EvPlay(8), Up)] + [(EvNextSound(7), Up)]
  }

  /** When the first client plays again, it resumes a stream that is over. */
  lemma MutedByLostTimer()
    ensures PlayMutes(Run(Boot(FreshAgent, [Engine]), SpentRun()), 7, Up)
  {
    hide Run, Boot, InitClient, PlayClient, NextSound, EndedRun;
    var b, es := Boot(FreshAgent, [Engine]), EndedRun();
    AfterEnded();
    SecondComes(App(Playing, [], [Full]), Spent, Some(7), multiset{7}, false, 1, Run(b, es).log);
    RunOne(b, es, EvInit(1, 8), Up);
    es := es + [(EvInit(1, 8), Up)];
    TakesOver([Full], Spent, Some(7), multiset{7}, false, 1, Run(b, es).log);
    RunOne(b, es, EvPlay(8), Up);
    es := es + [(EvPlay(8), Up)];
    FiresInVain([Full], Spent.(media := P.MediaPaused), 2, Run(b, es).log);
    RunOne(b, es, EvNextSound(7), Up);
    TwoFind(App(Paused, [], [Full]), App(Playing, [], []));
    TwoFind(Spent.(media := P.MediaPaused), P.NewPlayer);
  }

  /** One text spoken in one chunk. */
  function ToldRun(): Events {
    [(EvInit(1, 7), Up), (EvAdd(7, Hello(1)), Up), (EvPlay(7), Up), (EvResult(Finish, [2]), Up)]
  }

  lemma AfterTold()
    ensures var d := Run(Boot(FreshAgent, [Engine]), ToldRun());
            d == Alone(7, App(Playing, [], [Full]), P.NewPlayer, None, multiset{}, None, true, 1, d.log)
  {
    hide Run, Boot, Emit;
    var b, es := Boot(FreshAgent, [Engine]), JoinRun() + [(EvAdd(7, Hello(1)), Up)] + [(EvPlay(7), Up)];
    AfterSpoken();
    Speaks(7, [], [], P.NewPlayer, None, multiset{}, Job(7, Hello(1), false), 1, Finish, [2], Run(b, es).log);
    RunOne(b, es, EvResult(Finish, [2]), Up);
    assert [] + [Full] == [Full];
    assert es + [(EvResult(Finish, [2]), Up)] == ToldRun();
  }

  /** Another client takes over, and its tick takes the flag away. */
  function FlaglessRun(): Events {
    ToldRun() + [(EvInit(1, 8), Up)] + [(EvPlay(8), Up)] + [(EvTick, Up)]
  }

  /** When the first client plays again, nothing raises a flag. */
  lemma MutedWithoutFlag()
    ensures PlayMutes(Run(Boot(FreshAgent, [Engine]), FlaglessRun()), 7, Up)
  {
    hide Run, Boot, InitClient, PlayClient, Tick, ToldRun;
    var b, es := Boot(FreshAgent, [Engine]), ToldRun();
    AfterTold();
    SecondComes(App(Playing, [], [Full]), P.NewPlayer, None, multiset{}, true, 1, Run(b, es).log);
    RunOne(b, es, EvInit(1, 8), Up);
    es := es + [(EvInit(1, 8), Up)];
    TakesOver([Full], P.NewPlayer, None, multiset{}, true, 1, Run(b, es).log);
    RunOne(b, es, EvPlay(8), Up);
    es := es + [(EvPlay(8), Up)];
    TicksInVain([Full], P.NewPlayer, 2, Run(b, es).log);
    RunOne(b, es, EvTick, Up);
    TwoFind(App(Paused, [], [Full]), App(Playing, [], []));
    TwoFind(P.NewPlayer, P.NewPlayer);
  }

  /** The chunk is fetched, the client stops before it begins, and the next text is spoken. */
  function LateRun(): Events {
    ToldRun() + [(EvTick, Up)] + [(EvStop(7), Up)] + [(EvAdd(7, Hello(2)), Up)] + [(EvPlay(7), Up)] + [(EvResult(Finish, [2]), Up)]
  }

  /** The late beginning of the stopped stream makes the player current, so that it is not started. */
  lemma MutedByLateBegin()
    ensures BeginMutes(Run(Boot(FreshAgent, [Engine]), LateRun()), 7)
  {
    hide Run, Boot, Tick, StopClient, AddQueue, PlayClient, Emit, ToldRun;
    var b, es := Boot(FreshAgent, [Engine]), ToldRun();
    AfterTold();
    assert [Full] == [Full] + [];
    Fetches(7, Full, [], P.NewPlayer, multiset{}, 1, Run(b, es).log);
    RunOne(b, es, EvTick, Up);
    es := es + [(EvTick, Up)];
    Stops1(7, Fed(Full), 1, Run(b, es).log);
    RunOne(b, es, EvStop(7), Up);
    es := es + [(EvStop(7), Up)];
    var p := Fed(Full).(media := P.MediaNull);
    Adds(7, [], p, multiset{}, 1, false, Run(b, es).log, 2);
    RunOne(b, es, EvAdd(7, Hello(2)), Up);
    es := es + [(EvAdd(7, Hello(2)), Up)];
    assert [] + [Hello(2)] == [Hello(2)] + [];
    Plays(7, 2, [], p, multiset{}, 1, false, Run(b, es).log);
    RunOne(b, es, EvPlay(7), Up);
    es := es + [(EvPlay(7), Up)];
    Speaks(7, [], [], p, None, multiset{}, Job(7, Hello(2), false), 2, Finish, [2], Run(b, es).log);
    RunOne(b, es, EvResult(Finish, [2]), Up);
  }

  /** Two texts; the chunk of the first breaks off while the engine speaks the second. */
  function BrokenRun(): Events {
    [(EvInit(1, 7), Up), (EvAdd(7, Hello(1)), Up), (EvAdd(7, Hello(2)), Up), (EvPlay(7), Up), (EvResult(Finish, [2]), Up), (EvTick, Up)]
    + [(EvBegin(7, Full), Up)] + [(EvError(7, Full), Up)]
  }

  /** The chunk of the second is queued for a player that nothing will serve. */
  lemma MutedByResult()
    ensures ResultMutes(Run(Boot(FreshAgent, [Engine]), BrokenRun()), Finish)
  {
    hide Run, Boot, Tick, AddQueue, PlayClient, Emit, StreamBegins, StreamFails;
    var b, es := Boot(FreshAgent, [Engine]), JoinRun();
    AfterJoin();
    assert Joined == Alone(7, App(Ready, [], []), P.NewPlayer, None, multiset{}, None, false, 0, []);
    Adds(7, [], P.NewPlayer, multiset{}, 0, false, [], 1);
    RunOne(b, es, EvAdd(7, Hello(1)), Up);
    es := es + [(EvAdd(7, Hello(1)), Up)];
    assert [] + [Hello(1)] == [Hello(1)];
    Adds(7, [Hello(1)], P.NewPlayer, multiset{}, 0, false, Run(b, es).log, 2);
    RunOne(b, es, EvAdd(7, Hello(2)), Up);
    es := es + [(EvAdd(7, Hello(2)), Up)];
    Plays(7, 1, [Hello(2)], P.NewPlayer, multiset{}, 0, false, Run(b, es).log);
    RunOne(b, es, EvPlay(7), Up);
    es := es + [(EvPlay(7), Up)];
    Speaks(7, [Hello(2)], [], P.NewPlayer, None, multiset{}, Job(7, Hello(1), false), 1, Finish, [2], Run(b, es).log);
    RunOne(b, es, EvResult(Finish, [2]), Up);
    es := es + [(EvResult(Finish, [2]), Up)];
    assert [] + [Full] == [Full];
    FetchesOn(7, 2, Full, P.NewPlayer, 1, Run(b, es).log);
    RunOne(b, es, EvTick, Up);
    BreaksOff(es + [(EvTick, Up)]);
  }

  lemma BreaksOff(es: Events)
    requires es + [(EvBegin(7, Full), Up)] + [(EvError(7, Full), Up)] == BrokenRun()
    requires var d := Run(Boot(FreshAgent, [Engine]), es);
             d == Alone(7, App(Playing, [], []), Fed(Full), None, multiset{}, Some(Job(7, Hello(2), false)), false, 1, d.log)
    ensures ResultMutes(Run(Boot(FreshAgent, [Engine]), BrokenRun()), Finish)
  {
    hide Run, Boot, StreamBegins, StreamFails, BrokenRun;
    var b := Boot(FreshAgent, [Engine]);
    Begins(7, [], [], Fed(Full), multiset{}, Some(Job(7, Hello(2), false)), 1, Full, Run(b, es).log);
    RunOne(b, es, EvBegin(7, Full), Up);
    var fs := es + [(EvBegin(7, Full), Up)];
    Breaks(7, Fed(Full).(uttId := 1, event := Finish), Some(Job(7, Hello(2), false)), 1, Full, Run(b, fs).log);
    RunOne(b, fs, EvError(7, Full), Up);
  }

  /** The client leaves while its next-play timer is pending, and another one comes and plays two chunks. */
  function OrphanRun(): Events {
    EndedRun() + [(EvFinalize(7), Up)] + [(EvInit(1, 8), Up)] + [(EvAdd(8, Hello(1)), Up)] + [(EvPlay(8), Up)]
    + [(EvResult(Start, [1]), Up)] + [(EvResult(Finish, [2]), Up)] + [(EvTick, Up)] + [(EvBegin(8, Half), Up)]
  }

  lemma AfterOrphan()
    ensures var d := Run(Boot(FreshAgent, [Engine]), OrphanRun());
            d == Alone(8, App(Playing, [], [Full]), Fed(Half).(uttId := 1, event := Start), Some(8), multiset{7}, None, false, 2, d.log)
  {
    hide Run, Boot, FinalizeClient, InitClient, AddQueue, PlayClient, Emit, Tick, StreamBegins, EndedRun;
    var b, es := Boot(FreshAgent, [Engine]), EndedRun();
    AfterEnded();
    Goes(7, [Full], Spent, multiset{7}, 1, Run(b, es).log);
    RunOne(b, es, EvFinalize(7), Up);
    es := es + [(EvFinalize(7), Up)];
    Comes(8, multiset{7}, 1, Run(b, es).log);
    RunOne(b, es, EvInit(1, 8), Up);
    es := es + [(EvInit(1, 8), Up)];
    Adds(8, [], P.NewPlayer, multiset{7}, 1, false, Run(b, es).log, 1);
    RunOne(b, es, EvAdd(8, Hello(1)), Up);
    es := es + [(EvAdd(8, Hello(1)), Up)];
    assert [] + [Hello(1)] == [Hello(1)] + [];
    Plays(8, 1, [], P.NewPlayer, multiset{7}, 1, false, Run(b, es).log);
    RunOne(b, es, EvPlay(8), Up);
    es := es + [(EvPlay(8), Up)];
    SpeaksInTwo(es, 8, multiset{7}, 2);
    es := es + [(EvResult(Start, [1]), Up)] + [(EvResult(Finish, [2]), Up)] + [(EvTick, Up)];
    Begins(8, [], [Full], Fed(Half), multiset{7}, None, 2, Half, Run(b, es).log);
    RunOne(b, es, EvBegin(8, Half), Up);
  }

  /** The timer of the client that left fires first: the stream of the other ends while its player is not current. */
  lemma MutedByEnd()
    ensures EndMutes(Run(Boot(FreshAgent, [Engine]), OrphanRun() + [(EvNextSound(7), Up)]), 8)
  {
    hide Run, Boot, NextSound, OrphanRun;
    var b, es := Boot(FreshAgent, [Engine]), OrphanRun();
    AfterOrphan();
    OrphanFires(8, 7, [Full], Fed(Half).(uttId := 1, event := Start), 2, Run(b, es).log);
    RunOne(b, es, EvNextSound(7), Up);
    OneFinds(8, App(Playing, [], [Full]));
  }

  /** It fires after the end of the stream: the timer of the other finds nothing to go on with. */
  lemma MutedByOrphanTimer()
    ensures var d := Run(Boot(FreshAgent, [Engine]), OrphanRun() + [(EvEnd(8, Half), Up)]);
            Enabled(d, EvNextSound(7)) && NextMutes(d, 7)
  {
    hide Run, Boot, StreamEnds, OrphanRun;
    var b, es := Boot(FreshAgent, [Engine]), OrphanRun();
    AfterOrphan();
    Ends(8, [Full], Fed(Half).(uttId := 1, event := Start), multiset{7}, 2, Half, Run(b, es).log);
    RunOne(b, es, EvEnd(8, Half), Up);
    OneFinds(8, App(Playing, [], [Full]));
  }
}
