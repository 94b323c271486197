/**
 Inputs the daemon can receive, from its start on, that lead to each of the shortfalls:
 one engine that needs the network, one voice, clients 7 and 8.
 */
module Witnesses {
  import opened Types
  import opened Tables
  import opened DataSpec
  import opened ConfigSpec
  import opened VoiceSelection
  import opened DaemonSpec
  import opened DaemonInv
  import opened Scheduling
  import opened Watermark
  import opened JobFate
  import A = AgentSpec
  import P = PlayerSpec

  const OnlyVoice := Voice("en_US", 1)
  const Lib := A.EngineLib([OnlyVoice], {OnlyVoice})
  const Engine := A.EngineInfo("E", "engine", "path", true)
  const FreshAgent := A.Agent(true, None, false, OnlyVoice, 3, A.EngineLib([], {}), [],
                              Config(Some("E"), Some("en_US"), 1, 3))
  const SetAgent := FreshAgent.(cur := Some(Engine), engines := [Engine])
  const LoadedAgent := SetAgent.(loaded := true, lib := Lib)

  /** Everything works; the network is down; the engine refuses texts. */
  const Up := Env(true, true, Some(Lib), [Engine], false, true)
  const Down := Up.(network := false)
  const Deaf := Up.(accepts := false)

  function Hello(id: int): SpeakData {
    SpeakData(id, "hello", DEFAULT, 0, 0)
  }

  /** The daemon when it has started, and when client 7 has registered. */
  const Started := Daemon([], [], SetAgent, P.Players([], None, multiset{}), true, false, false, 0, None, multiset{}, multiset{}, [])
  const Joined := Started.(apps := [Entry(7, NewRec(1))], agent := LoadedAgent,
                           players := P.Players([Entry(7, P.NewPlayer)], None, multiset{}))

  lemma StartsUp()
    ensures A.Inv(FreshAgent) && Boot(FreshAgent, [Engine]) == Started
  {
    assert Engine.uuid <= "E";
    assert [Engine][0].uuid <= "E";
    assert A.IdListed([Engine], "E");
    assert A.FirstEngine([Engine], "E") == 0;
  }

  lemma Joins()
    ensures InitClient(Started, 1, 7, Up) == (Joined, NoError)
  {
    assert EnsureEngine(Started, Up) == Started && !Has(Started.apps, 7) && ClientCount(Started) == 0;
    assert A.Load(SetAgent, Some(Lib)) == (LoadedAgent, true);
    assert Append(Started.apps, 7, NewRec(1)) == Joined.apps;
    assert Append(Started.players.list, 7, P.NewPlayer) == Joined.players.list;
    assert P.Create(Started.players, 7, true) == (Joined.players, true);
  }

  lemma SpeaksHello(id: int)
    ensures A.SelectVoice(LoadedAgent, DEFAULT, 0) == Some(OnlyVoice)
    ensures A.StartCall(LoadedAgent, Hello(id)) == Some((OnlyVoice, 3))
  {
  }

  lemma RunOne(d: Daemon, es: seq<(Event, Env)>, e: Event, env: Env)
    requires Enabled(Run(d, es), e)
    ensures Run(d, es + [(e, env)]) == Step(Run(d, es), e, env).0
  {
    assert (es + [(e, env)])[..|es|] == es;
  }

  /** After start-up and the first registration. */
  function JoinRun(): seq<(Event, Env)> {
    [(EvInit(1, 7), Up)]
  }

  lemma AfterJoin()
    ensures Run(Boot(FreshAgent, [Engine]), JoinRun()) == Joined
  {
    hide InitClient;
    StartsUp();
    Joins();
    RunOne(Started, [], EvInit(1, 7), Up);
    assert [] + [(EvInit(1, 7), Up)] == JoinRun();
  }

  /** A daemon that is up and idle, with the loaded engine. */
  ghost predicate Settled(d: Daemon) {
    Inv(d) && d.isEngine && d.agent == LoadedAgent && !d.synthesizing && !d.next && d.timers == 0 && d.job.None?
    && StateOf(d.apps, 7) == Some(Ready)
  }

  lemma JoinedIsSettled()
    ensures Settled(Joined) && Texts(Joined.apps, 7) == [] && Mark(Joined.apps, 7) == 0
  {
    AfterJoin();
    StartsUp();
    ReachableInv(FreshAgent, [Engine], JoinRun());
  }

  // ----- single steps

  lemma Adds(d: Daemon, id: int)
    requires Settled(d)
    ensures var r := AddQueue(d, 7, Hello(id), Up).0;
            && Settled(r) && r == Enqueue(d, 7, Hello(id)) && Texts(r.apps, 7) == Texts(d.apps, 7) + [Hello(id)]
            && Mark(r.apps, 7) == (if id == 1 then 0 else Mark(d.apps, 7))
            && forall u | u != 7 :: StateOf(r.apps, u) == StateOf(d.apps, u)
  {
    hide Core, StartSynthesis, A.SelectVoice, AddText;
    SpeaksHello(id);
    AddTextEffect(d.apps, 7, Hello(id));
    AddKeeps(d, 7, Hello(id), Up);
  }

  lemma Stops(d: Daemon)
    requires Settled(d) && Texts(d.apps, 7) != [] && Last(Texts(d.apps, 7)).uttId != -1
    ensures var r := StopClient(d, 7).0;
            && Settled(r) && Texts(r.apps, 7) == [] && Mark(r.apps, 7) == Last(Texts(d.apps, 7)).uttId
            && r.outbox == d.outbox && r.interrupts == d.interrupts
  {
    hide Core, Clear;
    ClearEffect(d.apps, 7);
    StopKeeps(d, 7);
  }

  /** A play of a ready client, with or without a text. */
  lemma Plays(d: Daemon)
    requires Settled(d) && (Texts(d.apps, 7) != [] ==> exists id :: Texts(d.apps, 7)[0] == Hello(id))
    ensures var r := PlayClient(d, 7, Up).0; var q := Texts(d.apps, 7);
            && Inv(r) && r.isEngine && r.agent == LoadedAgent && StateOf(r.apps, 7) == Some(Playing) && !r.next
            && (q == [] ==> !r.synthesizing && r.job.None?)
            && (q != [] ==> r.synthesizing && r.job == Some(Job(7, q[0], false)))
            && Mark(r.apps, 7) == Mark(d.apps, 7) && r.settings == d.settings
            && forall u | u != 7 && StateOf(d.apps, u) == Some(Ready) :: StateOf(r.apps, u) == Some(Ready)
  {
    hide Core, PlayClient, TakeOver, A.StartCall, DropText;
    var q := Texts(d.apps, 7);
    if q != [] {
      var id :| q[0] == Hello(id);
      SpeaksHello(id);
    }
    PlayIs(d, 7, Up);
    PlayKeeps(d, 7, Up);
    TakeOverQueues(d, 7, 7);
    TakeOverRest(d, 7);
    var t := TakeOver(d, 7);
    if q != [] { DropTextEffect(t.apps, 7); }
  }

  lemma TakeOverRest(d: Daemon, uid: int)
    ensures var r := TakeOver(d, uid); r.next == d.next && r.settings == d.settings && r.isEngine == d.isEngine
  {
    hide P.Pause, CurrentPlaying;
  }

  // ----- the shortfalls

  /** Register and play, then add a text while the network is down: the text waits for nothing. */
  lemma StrandedByAdd()
    ensures var es := [(EvInit(1, 7), Up), (EvPlay(7), Up)];
            AddStrands(Run(Boot(FreshAgent, [Engine]), es), 7, Hello(1), Down)
  {
    hide Core, PlayClient;
    AfterJoin();
    JoinedIsSettled();
    Plays(Joined);
    RunOne(Boot(FreshAgent, [Engine]), JoinRun(), EvPlay(7), Up);
    assert JoinRun() + [(EvPlay(7), Up)] == [(EvInit(1, 7), Up), (EvPlay(7), Up)];
    SpeaksHello(1);
  }

  /** Register and add, then play while the engine refuses: the client plays without a timer. */
  lemma StrandedByPlay()
    ensures var es := [(EvInit(1, 7), Up), (EvAdd(7, Hello(1)), Up)];
            PlayStrands(Run(Boot(FreshAgent, [Engine]), es), 7, Deaf)
  {
    hide Core, AddQueue;
    AfterJoin();
    JoinedIsSettled();
    Adds(Joined, 1);
    RunOne(Boot(FreshAgent, [Engine]), JoinRun(), EvAdd(7, Hello(1)), Up);
    assert JoinRun() + [(EvAdd(7, Hello(1)), Up)] == [(EvInit(1, 7), Up), (EvAdd(7, Hello(1)), Up)];
  }

  /** Ids 5 and 10, a stop, id 3 and a play: the FINISH of the last utterance is refused. */
  lemma WedgedByFinish()
    ensures var es := [(EvInit(1, 7), Up), (EvAdd(7, Hello(5)), Up), (EvAdd(7, Hello(10)), Up), (EvStop(7), Up),
                       (EvAdd(7, Hello(3)), Up), (EvPlay(7), Up)];
            var d := Run(Boot(FreshAgent, [Engine]), es);
            Enabled(d, EvResult(Finish, [])) && Wedges(d, EvResult(Finish, []), Up)
  {
    hide Core, AddQueue, StopClient, PlayClient, Run, Boot;
    var b := Boot(FreshAgent, [Engine]);
    AfterJoin();
    JoinedIsSettled();
    var es := JoinRun();
    Adds(Joined, 5);
    RunOne(b, es, EvAdd(7, Hello(5)), Up);
    es := es + [(EvAdd(7, Hello(5)), Up)];
    Adds(Run(b, es), 10);
    RunOne(b, es, EvAdd(7, Hello(10)), Up);
    es := es + [(EvAdd(7, Hello(10)), Up)];
    Stops(Run(b, es));
    RunOne(b, es, EvStop(7), Up);
    es := es + [(EvStop(7), Up)];
    Adds(Run(b, es), 3);
    RunOne(b, es, EvAdd(7, Hello(3)), Up);
    es := es + [(EvAdd(7, Hello(3)), Up)];
    assert Texts(Run(b, es).apps, 7)[0] == Hello(3);
    Plays(Run(b, es));
    RunOne(b, es, EvPlay(7), Up);
    es := es + [(EvPlay(7), Up)];
    assert es == [(EvInit(1, 7), Up), (EvAdd(7, Hello(5)), Up), (EvAdd(7, Hello(10)), Up), (EvStop(7), Up),
                  (EvAdd(7, Hello(3)), Up), (EvPlay(7), Up)];
  }

  lemma SettingJoins(d: Daemon)
    requires Settled(d) && d.settings == [] && |d.apps| > 0
    ensures InitSetting(d, 9, Up).0 == d.(settings := [9])
  {
    assert [] + [9] == [9];
  }

  /** A text in work, and an engine change whose engine does not report its job. */
  lemma WedgedByChange()
    ensures var es := [(EvInit(1, 7), Up), (EvInitSetting(9), Up), (EvAdd(7, Hello(1)), Up), (EvPlay(7), Up)];
            Wedges(Run(Boot(FreshAgent, [Engine]), es), EvChangeEngine(9, "X"), Up)
  {
    hide Core, AddQueue, PlayClient, InitSetting, Run, Boot;
    var b := Boot(FreshAgent, [Engine]);
    AfterJoin();
    JoinedIsSettled();
    var es := JoinRun();
    SettingJoins(Joined);
    RunOne(b, es, EvInitSetting(9), Up);
    es := es + [(EvInitSetting(9), Up)];
    StartsUp();
    ReachableInv(FreshAgent, [Engine], es);
    Adds(Run(b, es), 1);
    RunOne(b, es, EvAdd(7, Hello(1)), Up);
    es := es + [(EvAdd(7, Hello(1)), Up)];
    assert Texts(Run(b, es).apps, 7)[0] == Hello(1);
    Plays(Run(b, es));
    RunOne(b, es, EvPlay(7), Up);
    es := es + [(EvPlay(7), Up)];
    assert es == [(EvInit(1, 7), Up), (EvInitSetting(9), Up), (EvAdd(7, Hello(1)), Up), (EvPlay(7), Up)];
    assert "X"[0] != Engine.uuid[0];
  }

  lemma OtherJoins(d: Daemon)
    requires Settled(d) && |d.apps| > 0 && !Has(d.apps, 8)
    ensures var r := InitClient(d, 1, 8, Up).0;
            Settled(r) && StateOf(r.apps, 8) == Some(Ready) && Texts(r.apps, 7) == Texts(d.apps, 7)
  {
    hide Core;
    InitClientKeeps(d, 1, 8, Up);
  }

  /** Client 7 has the engine, client 8 takes over and stops: the job of 7 is gone. */
  lemma StopEndsOthersJob()
    ensures var es := [(EvInit(1, 7), Up), (EvInit(1, 8), Up), (EvAdd(7, Hello(1)), Up), (EvPlay(7), Up), (EvPlay(8), Up)];
            var d := Run(Boot(FreshAgent, [Engine]), es);
            d.job == Some(Job(7, Hello(1), false)) && StopClient(d, 8).0.job == None
  {
    hide Core, AddQueue, PlayClient, InitClient, StopClient, Run, Boot;
    var b := Boot(FreshAgent, [Engine]);
    AfterJoin();
    JoinedIsSettled();
    var es := JoinRun();
    OtherJoins(Joined);
    RunOne(b, es, EvInit(1, 8), Up);
    es := es + [(EvInit(1, 8), Up)];
    Adds(Run(b, es), 1);
    RunOne(b, es, EvAdd(7, Hello(1)), Up);
    es := es + [(EvAdd(7, Hello(1)), Up)];
    assert Texts(Run(b, es).apps, 7)[0] == Hello(1);
    Plays(Run(b, es));
    RunOne(b, es, EvPlay(7), Up);
    es := es + [(EvPlay(7), Up)];
    var d := Run(b, es);
    PlayKeeps(d, 8, Up);
    PlayFate(d, 8, Up);
    RunOne(b, es, EvPlay(8), Up);
    es := es + [(EvPlay(8), Up)];
    assert es == [(EvInit(1, 7), Up), (EvInit(1, 8), Up), (EvAdd(7, Hello(1)), Up), (EvPlay(7), Up), (EvPlay(8), Up)];
    PlayMoves(d, 8, Up, 8);
    StopFate(Run(b, es), 8);
  }
}
