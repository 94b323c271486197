/** Runs of daemon and clients, from their start on, that lead to each of the shortfalls between them. */
module SystemWitnesses {
  import opened Types
  import opened Tables
  import opened DataSpec
  import opened VoiceSelection
  import opened DaemonSpec
  import opened DaemonInv
  import opened Notices
  import opened ClientSpec
  import opened SystemSpec
  import opened Exclusion
  import opened LiveWork
  import opened Agreement
  import opened Counterexamples
  import opened Marks
  import opened StaleWork
  import opened Witnesses
  import A = AgentSpec

  type Moves = seq<(Move, Env)>

  /** A text in a language no voice speaks. */
  const Alien := SpeakData(0, "hello", "xx", 5, 0)

  function Begin(): System {
    Launch(FreshAgent, [Engine])
  }

  function Ask7(call: Call, speak: SpeakData): Move {
    Ask(7, 1, call, speak)
  }

  /** A handle is made and prepared, and its timer registers it. */
  function ConnectRun(): Moves {
    [(Create(7), Up), (Prepare(7), Up), (Ask7(Connect, Hello(0)), Up), (Answer(7), Up)]
  }

  lemma Connects()
    ensures After(Begin(), ConnectRun()) == System(Joined, map[7 := Handle(Local(Created, Ready, 0), 0, None)])
  {
    hide InitClient;
    StartsUp();
    Joins();
    var s0 := Begin();
    var h := Handle(NewLocal, 0, None);
    assert s0 == System(Started, map[]);
    AfterOne(s0, [], Create(7), Up);
    var ms: Moves := [] + [(Create(7), Up)];
    assert After(s0, ms) == System(Started, map[7 := h]);
    AfterOne(s0, ms, Prepare(7), Up);
    ms := ms + [(Prepare(7), Up)];
    assert After(s0, ms) == System(Started, map[7 := h.(timers := 1)]);
    AfterOne(s0, ms, Ask7(Connect, Hello(0)), Up);
    ms := ms + [(Ask7(Connect, Hello(0)), Up)];
    assert After(s0, ms) == System(Joined, map[7 := Handle(NewLocal, 0, Some((Connect, NoError)))]);
    AfterOne(s0, ms, Answer(7), Up);
    ms := ms + [(Answer(7), Up)];
    assert ms == ConnectRun();
  }

  /** Client 7 is connected and ready, has added `n` texts, and nothing is on its way. */
  ghost predicate Home(s: System, n: nat) {
    && Settled(s.daemon) && s.daemon.outbox == multiset{} && s.daemon.interrupts == multiset{}
    && Free(s, 7) && s.handles[7].local.state == Ready && s.handles[7].local.uttId == n && Mark(s.daemon.apps, 7) == 0
    && (if n == 0 then Texts(s.daemon.apps, 7) == []
        else Texts(s.daemon.apps, 7) != [] && Last(Texts(s.daemon.apps, 7)) == Hello(n) && Texts(s.daemon.apps, 7)[0] == Hello(1))
  }

  lemma ConnectedIsHome()
    ensures Home(After(Begin(), ConnectRun()), 0)
  {
    hide Settled;
    Connects();
    JoinedIsSettled();
  }

  lemma AddsOne(s: System, n: nat)
    requires Home(s, n) && n < 9999
    ensures var m := Ask7(AddText, Hello(0));
            CanMove(s, m) && CanMove(Moved(s, m, Up), Answer(7)) && Home(AnswerStep(Moved(s, m, Up), 7), n + 1)
  {
    hide Settled, AddQueue;
    assert Hello(0).(uttId := n + 1) == Hello(n + 1);
    Adds(s.daemon, n + 1);
    SettledFlags(s.daemon);
  }

  lemma SettledFlags(d: Daemon)
    requires Settled(d)
    ensures StateOf(d.apps, 7) == Some(Ready) && d.agent == LoadedAgent && Inv(d)
  {
  }

  /** `n` texts added one after the other. */
  function AddRun(n: nat): Moves {
    if n == 0 then [] else AddRun(n - 1) + [(Ask7(AddText, Hello(0)), Up)] + [(Answer(7), Up)]
  }

  lemma {:induction false} AddsMany(n: nat)
    requires n <= 9999
    ensures Home(After(Begin(), ConnectRun() + AddRun(n)), n)
  {
    hide Home, Moved, AnswerStep;
    if n == 0 {
      ConnectedIsHome();
      assert ConnectRun() + AddRun(0) == ConnectRun();
    } else {
      AddsMany(n - 1);
      var ms := ConnectRun() + AddRun(n - 1);
      AddsOne(After(Begin(), ms), n - 1);
      AfterOne(Begin(), ms, Ask7(AddText, Hello(0)), Up);
      AfterAnswer(Begin(), ms + [(Ask7(AddText, Hello(0)), Up)], 7, Up);
      assert ms + [(Ask7(AddText, Hello(0)), Up)] + [(Answer(7), Up)] == ConnectRun() + AddRun(n);
    }
  }

  /** After 9999 texts and a stop the next id is 1 and the mark is 9999. */
  function WrapRun(): Moves {
    ConnectRun() + AddRun(9999) + [(Ask7(ClientSpec.Stop, Hello(0)), Up)] + [(Answer(7), Up)]
  }

  lemma WrapsAround()
    ensures var s := After(Begin(), WrapRun());
            && Settled(s.daemon) && Free(s, 7) && s.handles[7].local.state == Ready && s.handles[7].local.uttId == 9999
            && Mark(s.daemon.apps, 7) == 9999
  {
    hide Settled, AddRun, ConnectRun, StopClient;
    var ms := ConnectRun() + AddRun(9999);
    AddsMany(9999);
    var s := After(Begin(), ms);
    Stops(s.daemon);
    SettledFlags(s.daemon);
    StopAnswers(s.daemon, 7);
    AfterOne(Begin(), ms, Ask7(ClientSpec.Stop, Hello(0)), Up);
    AfterAnswer(Begin(), ms + [(Ask7(ClientSpec.Stop, Hello(0)), Up)], 7, Up);
  }

  /** An add of a text that no voice speaks then botches the wrap. */
  lemma BotchedFromTheStart()
    ensures var s := After(Begin(), WrapRun());
            CanMove(s, Ask7(AddText, Alien)) && Botched(s, Ask7(AddText, Alien))
  {
    hide Settled, WrapRun;
    WrapsAround();
    SettledFlags(After(Begin(), WrapRun()).daemon);
    AlienIsRefused();
  }

  /** And the next text, which is spoken like the others, is queued with an id that will be refused. */
  lemma LostFromTheStart()
    ensures var s := After(Begin(), WrapRun());
            CanMove(s, Ask7(AddText, Alien)) &&
            var t := Called(s, 7, 1, AddText, Alien, Up);
            CanMove(t, Ask7(AddText, Hello(0))) &&
            var r := Called(t, 7, 1, AddText, Hello(0), Up);
            Hello(2) in Texts(r.daemon.apps, 7) && !UttIdValid(r.daemon.apps, 7, 2)
  {
    hide Settled, WrapRun, Called;
    WrapsAround();
    var s := After(Begin(), WrapRun());
    SettledFlags(s.daemon);
    AlienIsRefused();
    SpeaksHello(2);
    assert Hello(0).(uttId := 2) == Hello(2);
    RefusedWrapLosesWork(s, 7, 1, Alien, Hello(0), Up);
  }

  /** After the refused text, and the one that was queued with id 2. */
  function RevivalRun(): Moves {
    WrapRun() + [(Ask7(AddText, Alien), Up)] + [(Answer(7), Up)] + [(Ask7(AddText, Hello(0)), Up)] + [(Answer(7), Up)]
  }

  /** One more stop then ends the refusal of an older id, although id 1 never reached the queue. */
  lemma RevivedFromTheStart()
    ensures var s, m := After(Begin(), RevivalRun()), Ask7(ClientSpec.Stop, Hello(0));
            CanMove(s, m) && Refuses(s.daemon, 7, 5) && MoveRevives(s, m, Up, 7, 5)
  {
    hide WrapRun, RevivalRun, Step, Refuses, MoveRevives;
    AfterRevival();
    StopRevives(After(Begin(), RevivalRun()));
  }

  lemma AfterRevival()
    ensures var s := After(Begin(), RevivalRun());
            && Free(s, 7) && s.handles[7].local.state == Ready && Mark(s.daemon.apps, 7) == 9999
            && Texts(s.daemon.apps, 7) != [] && Last(Texts(s.daemon.apps, 7)) == Hello(2)
  {
    hide Settled, WrapRun, Called, Step, Mark, Texts;
    WrapsAround();
    var b, ms := Begin(), WrapRun();
    var s := After(b, ms);
    SettledFlags(s.daemon);
    WrapAdds(s);
    AfterCall(b, ms, AddText, Alien);
    AfterCall(b, ms + [(Ask7(AddText, Alien), Up)] + [(Answer(7), Up)], AddText, Hello(0));
  }

  /** The two calls after the wrap, from a state like that. */
  lemma WrapAdds(s: System)
    requires Free(s, 7) && s.handles[7].local.state == Ready && s.handles[7].local.uttId == 9999
    requires StateOf(s.daemon.apps, 7) == Some(Ready) && s.daemon.agent == LoadedAgent && Mark(s.daemon.apps, 7) == 9999
    ensures CanMove(s, Ask7(AddText, Alien))
    ensures var t := Called(s, 7, 1, AddText, Alien, Up);
            CanMove(t, Ask7(AddText, Hello(0))) &&
            var r := Called(t, 7, 1, AddText, Hello(0), Up);
            && Free(r, 7) && r.handles[7].local.state == Ready && Mark(r.daemon.apps, 7) == 9999
            && Texts(r.daemon.apps, 7) != [] && Last(Texts(r.daemon.apps, 7)) == Hello(2)
  {
    hide Called, Step;
    AlienIsRefused();
    SpeaksHello(2);
    assert Hello(0).(uttId := 2) == Hello(2);
    RefusedWrapLosesWork(s, 7, 1, Alien, Hello(0), Up);
  }

  lemma StopRevives(s: System)
    requires Free(s, 7) && s.handles[7].local.state == Ready && Mark(s.daemon.apps, 7) == 9999
    requires Texts(s.daemon.apps, 7) != [] && Last(Texts(s.daemon.apps, 7)) == Hello(2)
    ensures var m := Ask7(ClientSpec.Stop, Hello(0));
            CanMove(s, m) && Refuses(s.daemon, 7, 5) && MoveRevives(s, m, Up, 7, 5)
  {
  }

  lemma AfterCall(s: System, ms: Moves, call: Call, speak: SpeakData)
    requires CanMove(After(s, ms), Ask7(call, speak))
    ensures After(s, ms + [(Ask7(call, speak), Up)] + [(Answer(7), Up)]) == Called(After(s, ms), 7, 1, call, speak, Up)
  {
    hide Step;
    AfterOne(s, ms, Ask7(call, speak), Up);
    AfterAnswer(s, ms + [(Ask7(call, speak), Up)], 7, Up);
  }

  lemma AlienIsRefused()
    ensures A.SelectVoice(LoadedAgent, Alien.lang, Alien.kind) == None
  {
    assert DEFAULT[0] == 'd' && Alien.lang[0] == 'x';
    assert !IsDefault(Alien.lang);
    FirstExactIs([OnlyVoice], Alien.lang, Alien.kind);
    assert forall v | v in [OnlyVoice] :: v.kind == 1;
    assert FirstExact([OnlyVoice], Alien.lang, Alien.kind) == None;
  }

  /** One text, and a play that the engine refuses: the daemon has the client playing, its handle does not know. */
  lemma MisledByFailedPlay()
    ensures var s, m := After(Begin(), ConnectRun() + AddRun(1)), Ask7(ClientSpec.Play, Hello(0));
            CanMove(s, m) && Misleads(s, m, Deaf, 7)
  {
    hide ConnectRun, AddRun;
    AddsMany(1);
    var s := After(Begin(), ConnectRun() + AddRun(1));
    SettledFlags(s.daemon);
  }

  /** Client 8 connects as well. */
  function SecondRun(): Moves {
    [(Create(8), Up), (Prepare(8), Up), (Ask(8, 1, Connect, Hello(0)), Up), (Answer(8), Up)]
  }

  lemma SecondConnects()
    ensures var s := After(Begin(), ConnectRun() + SecondRun());
            && Home(s, 0) && Free(s, 8) && s.handles[8].local.state == Ready && StateOf(s.daemon.apps, 8) == Some(Ready)
  {
    hide InitClient, Settled;
    Connects();
    JoinedIsSettled();
    OtherJoins(Joined);
    JoinSends(Joined);
    var b, ms := Begin(), ConnectRun();
    var h7, h8 := Handle(Local(Created, Ready, 0), 0, None), Handle(NewLocal, 0, None);
    AfterOne(b, ms, Create(8), Up);
    ms := ms + [(Create(8), Up)];
    assert After(b, ms) == System(Joined, map[7 := h7, 8 := h8]);
    AfterOne(b, ms, Prepare(8), Up);
    ms := ms + [(Prepare(8), Up)];
    assert After(b, ms) == System(Joined, map[7 := h7, 8 := h8.(timers := 1)]);
    AfterOne(b, ms, Ask(8, 1, Connect, Hello(0)), Up);
    ms := ms + [(Ask(8, 1, Connect, Hello(0)), Up)];
    assert After(b, ms) == System(InitClient(Joined, 1, 8, Up).0, map[7 := h7, 8 := Handle(NewLocal, 0, Some((Connect, NoError)))]);
    AfterOne(b, ms, Answer(8), Up);
    ms := ms + [(Answer(8), Up)];
    assert ms == ConnectRun() + SecondRun();
  }

  lemma JoinSends(d: Daemon)
    requires Settled(d) && |d.apps| > 0 && !Has(d.apps, 8) && !Has(d.players.list, 8)
    ensures var (r, err) := InitClient(d, 1, 8, Up);
            && err == NoError && r.outbox == d.outbox && r.interrupts == d.interrupts && Mark(r.apps, 7) == Mark(d.apps, 7)
  {
    hide Core;
  }

  /** Client 7 then plays; from here a stale message can mislead it. */
  lemma MisledByStaleMessage()
    ensures var ms := ConnectRun() + SecondRun() + [(Ask7(ClientSpec.Play, Hello(0)), Up)] + [(Answer(7), Up)];
            exists more: Moves ::
              var t := After(After(Begin(), ms), more);
              Free(t, 7) && t.handles[7].local.state == Paused
              && StateOf(t.daemon.apps, 7) == Some(Playing) && !Noticed(t.daemon, 7)
  {
    hide ConnectRun, SecondRun, Settled, PlayClient, AllGrounded;
    var b, ms := Begin(), ConnectRun() + SecondRun();
    SecondConnects();
    var s := After(b, ms);
    SettledFlags(s.daemon);
    Plays(s.daemon);
    PlaysUnnoticed(s.daemon);
    AfterOne(b, ms, Ask7(ClientSpec.Play, Hello(0)), Up);
    ms := ms + [(Ask7(ClientSpec.Play, Hello(0)), Up)];
    AfterAnswer(b, ms, 7, Up);
    ms := ms + [(Answer(7), Up)];
    StartsUp();
    AlwaysGrounded(FreshAgent, [Engine], ms);
    StaleInterruptMisleads(After(b, ms), 7, 8, Hello(0), Up);
  }

  lemma PlaysUnnoticed(d: Daemon)
    requires Settled(d) && Texts(d.apps, 7) == [] && !Noticed(d, 7)
    ensures var (r, err) := PlayClient(d, 7, Up); err == NoError && !Noticed(r, 7)
  {
    hide Core;
    PlayOutcome(d, 7, Up);
  }
}
