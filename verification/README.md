# Speech daemon and client library: a verified model

This project models the text-to-speech daemon (`server/`) and the library that
client processes link (`client/`), and proves what the two promise together.
Many clients share one synthesis engine. Each client has a queue of texts, a
queue of synthesized sound, a play state and a "stopped" watermark of utterance
ids; two flags and a polling timer decide when the engine is given the next
text. Requests of clients, engine results, timers, media callbacks and engine
changes arrive in any order.

## How it is built

Every source file is modelled twice. A *specification* module states what each
operation computes on a value; a *class* with the source's own variables does it
step by step, and each of its methods is proved to change the state exactly as
the specification says (`State() == …(old(State()), …)`). The laws are proved
about the specification, so they hold of the classes.

| source | specification | class |
|---|---|---|
| server/ttsd_data.cpp | `Tables.dfy`, `DataSpec.dfy` | `Data.dfy` |
| server/ttsd_config.c | `ConfigSpec.dfy` | `Config.dfy` |
| server/ttsd_engine_agent.c | `VoiceSelection.dfy`, `AgentSpec.dfy` | `EngineAgent.dfy` |
| server/ttsd_player.cpp | `PlayerSpec.dfy` | `Player.dfy` |
| server/ttsd_server.cpp | `DaemonSpec.dfy` | `Server.dfy` |
| client/tts.c | `ClientSpec.dfy` | `Client.dfy` |
| client/tts_client.c | `HandleIds.dfy` | `ClientHandles.dfy` |

`DaemonSpec.Step` is one step of the daemon and `Run` a run of any length;
`SystemSpec` adds all handles of all client processes, with requests whose
answers arrive later and state messages that arrive in any order.

The environment is a parameter of every step (`Env`): whether the network is up,
whether the engine accepts a text, what loading an engine yields, which engines
the directories hold, whether an engine that is unloaded reports its job
cancelled, whether the media library creates a player. The engine has at most
the job it was given; it reports START before CONTINUE, and FINISH, FAIL or
CANCEL end the job. Cancelling succeeds and reports CANCEL before it returns.
Requests are answered, message creation succeeds, and the audio format is
available while the engine is loaded. The daemon keeps a history (`log`) of what
was accepted, handed to the engine, received, played and thrown away, which the
source does not have; it is written, never read.

## The laws

* `DaemonInv`: in every reachable state at most one client is playing, players
  belong to clients, the engine agent's defaults are the stored ones, a loaded
  engine accepts its default voice and implies a registered client.
* `Requests`: what a play, a stop, a pause, a departure and an engine change leave
  behind, and that they touch nobody else.
* `EngineJob`: in every run, whatever else goes wrong, no start is attempted while
  the engine has a job. `JobFate`: exactly which events end a job, and whose.
* `Calls`: exactly what each step asks of the engine, in which voice and at which
  speed, and which errors it sends. `Answers`: what the daemon answers to each request,
  exactly when, and what it has done then. `Pending`: which timers and which messages
  every step leaves on their way, exactly.
* `Scheduling`, `SystemScheduling`, `SoundWake`: the flag is exact, no text and no
  sound of a playing client is left with nothing to serve it. Every step keeps each
  of these *if and only if* it is none of the named ones.
* `Wedged`: what happens after the worst of these, and exactly what ends it.
* `Tickets`, `Conservation`: every accepted text has a ticket; texts, job and
  chunks of sound stay in ticket order in every run, and of what was accepted since
  anything was last thrown away nothing is missing.
* `Reports`, `PlayerSpec`: started and completed messages come in pairs, one for
  each of these texts.
* `Watermark`, `UtteranceIds`, `LiveWork`, `WrapLoss`: the watermark refuses no live
  work over whole runs of daemon and clients, wrap-arounds included, and exactly
  which add makes it refuse some. `Marks`, `StaleWork`: every step's effect on the
  mark, and exactly which steps end the refusal of stale work.
* `Admission`: what was admitted can be spoken when its turn comes.
* `Notices`, `Exclusion`, `Agreement`: mutual exclusion across processes, and when
  the two sides agree on who is playing.
* `Protocol`: each call of the library from request to answer, and that a call which
  succeeds leaves both sides in the same state.
* `AgentSpec`, `VoiceSelection`, `ConfigSpec`, `HandleIds`: engine switch and
  rollback, voice selection, the configuration file, uids.

Where the code falls short of a promise, the code is modelled as it is; a lemma
gives the exact condition under which the promise is kept, and a witness is a short
input that breaks it, for the daemon and the system a run from their start.

| promise | kept by exactly the steps, moves or inputs outside | broken by |
|---|---|---|
| the flag says whether the engine has a job | `Scheduling.Wedges`: a FINISH with a refused id; an engine replaced under a job it does not report | `Witnesses.WedgedByFinish`, `Witnesses.WedgedByChange` |
| no text of a playing client is left waiting | `Scheduling.Strands`: an add with the network down; a play whose start fails | `Witnesses.StrandedByAdd`, `Witnesses.StrandedByPlay` |
| the queued sound of a playing client is being heard, or a timer that will play it is pending | `SoundWake.Mutes`: a play that raises no flag, or resumes a stream that is over; a stream that breaks off; a chunk for a player at a standstill; a stream that begins late, or ends while its player is not current; the timer of a client that has left | `SoundWitnesses.MutedWithoutFlag`, `SoundWitnesses.MutedByLostTimer`, `SoundWitnesses.MutedByError`, `SoundWitnesses.MutedByResult`, `SoundWitnesses.MutedByLateBegin`, `SoundWitnesses.MutedByEnd`, `SoundWitnesses.MutedByOrphanTimer` |
| a job ends by itself or by its owner | `JobFate.EndsTheJob` for another client: its stop or departure while it is active, an engine change | `Witnesses.StopEndsOthersJob` |
| live work goes on to pass the id check | `LiveWork.Botched`: a refused add of id 1 while an id above 2 is remembered | `SystemWitnesses.BotchedFromTheStart`, `SystemWitnesses.LostFromTheStart` |
| stale work stays refused | `Marks.Revives`: the client leaves; its id 1 is accepted; its queue is cleared and the last text in it has an id no higher | `SystemWitnesses.RevivedFromTheStart` |
| everything accepted since the last loss is reported started and completed | `Reports.Swallows`: a first text in one chunk for a player that remembers another utterance unfinished | `PlayerSpec.FirstUtteranceAfterStop` |
| a handle knows that it is playing | `Agreement.Misleads`: the delivery of the last pending message to a playing client; a play whose start fails | `SystemWitnesses.MisledByStaleMessage`, `SystemWitnesses.MisledByFailedPlay` |
| an admitted request stays served | `VoiceSelection.Durable` requests | `VoiceSelection.LongerTagIsLost` |
| a stored engine is found after a restart | `AgentSpec.SwitchSurvivesRestart` | `AgentSpec.AbbreviatedUuidIsForgotten` |

In the last two rows the middle column is the condition itself, not its
complement. Two observations are single inputs and no promise: the language of the
voice fallback (`FallbackMixesLanguages`) and a missing number in the configuration
file (`MissingSpeedReadsVoiceType`).

Two functions with a Boolean result return an error code on their failure paths,
and the code is followed: `ttsd_data_is_uttid_valid` reads as "valid" for an
unknown client, and `ttsd_engine_agent_need_network` reads as "yes" while no
engine is loaded.

## Model

| member | source | states |
|---|---|---|
| `Tables.Find` | server/ttsd_data.cpp:150-161 | the search returns the first position of a uid, or -1 exactly when it is absent |
| `Tables.Search` | server/ttsd_data.cpp:150-161 | the search loop finds that position |
| `Tables.Append` | server/ttsd_data.cpp:105-124 | a registered client can be looked up, all others are found as before, uids stay unique |
| `Tables.Set` | server/ttsd_data.cpp:396-396 | overwriting a record changes the lookup of that uid only, and no position |
| `Tables.GetDelete` | server/ttsd_data.cpp:142-142 | with unique uids, erasing an entry removes that client and no other |
| `Tables.AppendRefinesMap` | server/ttsd_data.cpp:105-124 | the vector is a map from uids to records: registering is the map's insertion |
| `Tables.SetRefinesMap` | server/ttsd_data.cpp:206-209 | the vector is a map: changing a record is the map's update |
| `Tables.DeleteRefinesMap` | server/ttsd_data.cpp:126-148 | the vector is a map: deleting a client is the map's removal |
| `Tables.ViewSize` | server/ttsd_data.cpp:163-166 | the vector has as many entries as the map has clients |
| `DataSpec.EraseEffect` | server/ttsd_data.cpp:126-148 | deleting a client, queues first, removes it and changes no other record |
| `DataSpec.FirstPlaying` | server/ttsd_data.cpp:403-416 | the scan finds the first playing client, or -1 exactly when there is none |
| `DataSpec.CurrentIsPlaying` | server/ttsd_data.cpp:403-416 | the client found is playing, and when at most one is, it is that one |
| `DataSpec.SetStateKeepsOnePlaying` | server/ttsd_data.cpp:384-394 | the check in set-state keeps at most one client playing, whatever is asked |
| `Data.DataStore.NewClient` | server/ttsd_data.cpp:105-124 | registers a new uid at the end with state ready, empty queues and mark 0; refuses a known one |
| `Data.DataStore.DeleteClient` | server/ttsd_data.cpp:126-148 | drains and erases the client; refuses an unknown one |
| `Data.DataStore.AddSpeakData` | server/ttsd_data.cpp:196-215 | appends the text, lifting the mark on id 1 |
| `Data.DataStore.GetSpeakData` | server/ttsd_data.cpp:217-245 | takes the oldest text; fails exactly when there is none |
| `Data.DataStore.AddSoundData` | server/ttsd_data.cpp:247-263 | appends the chunk |
| `Data.DataStore.GetSoundData` | server/ttsd_data.cpp:265-294 | takes the oldest chunk; fails exactly when there is none |
| `Data.DataStore.ClearData` | server/ttsd_data.cpp:309-350 | both drain loops end with empty queues and the mark at the last queued id |
| `Data.DataStore.DrainTexts` | server/ttsd_data.cpp:319-331 | the first loop removes every text and reports the id of the last, or -1 |
| `Data.DataStore.DrainSounds` | server/ttsd_data.cpp:337-344 | the second loop removes every chunk |
| `Data.DataStore.SetClientState` | server/ttsd_data.cpp:367-401 | refuses a second playing client; the spin flag is down at entry and at exit, so the busy wait is never entered |
| `Data.DataStore.GetCurrentPlaying` | server/ttsd_data.cpp:403-416 | the uid of the first playing client, or -1 |
| `Data.DataStore.IsUttIdValid` | server/ttsd_data.cpp:436-450 | an id passes unless it is below the client's mark; an unknown client refuses nothing |
| `Data.DataStore.SettingAdd` | server/ttsd_data.cpp:469-486 | registers a setting process once |
| `Data.DataStore.SettingDelete` | server/ttsd_data.cpp:488-505 | removes a setting process |
| `ConfigSpec.RoundTrip` | server/ttsd_config.c:31-115 | reading what was saved gives back every setting, for all whitespace-free strings of 1 to 255 characters and all 32-bit numbers, negative ones included, whatever was in memory |
| `ConfigSpec.ParseLines` | server/ttsd_config.c:74-110 | three lines that begin with any words: a word that starts with the keyword will do; the first line that does not begin so ends the reading, what was read before it is kept and the rest stays as it was |
| `ConfigSpec.ShortFile` | server/ttsd_config.c:74-110 | a file that ends after no, one or two lines is noticed, and what it said is kept |
| `ConfigSpec.ScanIntOf` | server/ttsd_config.c:46-49 | every printed integer is scanned back with its sign |
| `ConfigSpec.MissingSpeedReadsVoiceType` | server/ttsd_config.c:100-103 | a SPEED line without a number is accepted and the voice type becomes the speed |
| `ConfigFile.ConfigStore.Load` | server/ttsd_config.c:57-115 | reads the file, or the default one, line by line; keeps what was read before a bad line and then rewrites the file |
| `ConfigFile.ConfigStore.Initialize` | server/ttsd_config.c:117-127 | start-up restores exactly the settings a saved file was written from |
| `ConfigFile.ConfigStore.SetDefaultEngine` | server/ttsd_config.c:144-155 | changes the engine id alone and saves |
| `ConfigFile.ConfigStore.SetDefaultVoice` | server/ttsd_config.c:168-182 | changes language and voice type alone and saves |
| `ConfigFile.ConfigStore.SetDefaultSpeed` | server/ttsd_config.c:194-199 | changes the speed alone and saves |
| `VoiceSelection.SelectExact` | server/ttsd_engine_agent.c:753-877 | which voice is selected, branch by branch and by position in the list: the default; the first voice of language and type; for the type default the default voice, else the first of the language with the default's type, else the last of the language; for the language default the default voice, else the first of its language with the type, else the type of the last of its language with the language of the last voice of all |
| `VoiceSelection.SelectServes` | server/ttsd_engine_agent.c:753-877 | selection succeeds iff a voice of the right kind exists |
| `VoiceSelection.FirstExactIs` | server/ttsd_engine_agent.c:796-808 | the match of language and type that is taken is the first one, and none is missed |
| `VoiceSelection.LastMatchIs` | server/ttsd_engine_agent.c:817-831 | without a match of the type, the last match of the language is taken |
| `VoiceSelection.FallbackMixesLanguages` | server/ttsd_engine_agent.c:862-866 | the fallback can answer with another language than the default's |
| `VoiceSelection.DefaultChangeKeepsServing` | server/ttsd_engine_agent.c:753-877 | with prefix-free tags, changing the default among listed voices never takes a served request away |
| `VoiceSelection.ServedUnderEveryDefault` | server/ttsd_engine_agent.c:810-838 | a request without a type is served under every default iff a voice speaks it or every tag is a prefix of it |
| `VoiceSelection.DurableExactly` | server/ttsd_engine_agent.c:753-877 | a request served under one listed default is served under all iff it names the default, a type, a spoken language, or extends every tag |
| `VoiceSelection.LongerTagIsLost` | server/ttsd_engine_agent.c:812-815 | without prefix-free tags a served request can be lost by a change of the default |
| `VoiceSelection.SelectValidVoice` | server/ttsd_engine_agent.c:753-877 | the C search loops compute that selection |
| `VoiceSelection.Scan` | server/ttsd_engine_agent.c:817-831 | where a search loop stops and what it has selected |
| `AgentSpec.FirstEngine` | server/ttsd_engine_agent.c:496-511 | the engine found is the first listed whose uuid starts with the id, and none is missed |
| `AgentSpec.InitOutcomes` | server/ttsd_engine_agent.c:189-289 | start-up with a listed prefix of the stored id takes the first engine whose uuid starts with it and keeps the settings; without one it takes the first engine and stores its uuid |
| `AgentSpec.LoadOutcomes` | server/ttsd_engine_agent.c:555-696 | a load keeps a valid default voice; otherwise the first listed voice becomes the default, in memory and in the settings, and nothing else of them changes; a failed load changes no default |
| `AgentSpec.SettingOutcomes` | server/ttsd_engine_agent.c:1329-1406 | unloading, default voice and default speed: what each refuses, and that it stores exactly what was asked for |
| `AgentSpec.SetCurrentOutcomes` | server/ttsd_engine_agent.c:490-553 | an unknown id changes nothing; the first engine whose uuid starts with the id becomes current and is not loaded, unless the current one starts with it too |
| `AgentSpec.NetworkExactly` | server/ttsd_engine_agent.c:738-751 | a loaded engine says itself whether it needs the network; without one the answer is yes |
| `AgentSpec.SameExactly` | server/ttsd_engine_agent.c:879-897 | an id names the loaded engine iff its uuid starts with it |
| `AgentSpec.SwitchOutcomes` | server/ttsd_engine_agent.c:1208-1266 | an engine switch in every outcome: unknown id rolls back to the old engine and id; success sets, loads and stores; load failure keeps the old id stored; the default voice is kept if valid, else the new engine's first voice is taken and stored |
| `AgentSpec.SwitchIdle` | server/ttsd_engine_agent.c:1208-1219 | a switch to the current engine changes nothing, loaded or not |
| `AgentSpec.SwitchSurvivesRestart` | server/ttsd_engine_agent.c:189-310 | a stored engine id is found again after a restart iff some uuid is a prefix of it or the engine is the first listed |
| `AgentSpec.FullUuidSurvivesRestart` | server/ttsd_engine_agent.c:291-310 | a full uuid is always recognized at start-up |
| `AgentSpec.AbbreviatedUuidIsForgotten` | server/ttsd_engine_agent.c:243-265 | an abbreviated uuid that was accepted by a switch is replaced at the next start |
| `AgentSpec.LoadKeepsInv` | server/ttsd_engine_agent.c:555-696 | loading fails exactly when the library does or has no valid voice; a loaded engine accepts the default voice, which is the stored one |
| `AgentSpec.InitKeepsInv` | server/ttsd_engine_agent.c:189-289 | start-up keeps the agent's defaults equal to the stored ones and sets an engine when it succeeds |
| `AgentSpec.SetEngineKeepsInv` | server/ttsd_engine_agent.c:1208-1266 | a switch keeps cache and store equal and the default voice valid |
| `AgentSpec.SettingsKeepInv` | server/ttsd_engine_agent.c:1329-1406 | unloading and changing the default voice or speed keep cache and store equal |
| `EngineAgentModule.EngineAgent.constructor` | server/ttsd_engine_agent.c:102-139 | after init the defaults are the configured ones |
| `EngineAgentModule.EngineAgent.InitializeCurrentEngine` | server/ttsd_engine_agent.c:189-289 | does what the specification says, engine by engine |
| `EngineAgentModule.EngineAgent.CheckEngineId` | server/ttsd_engine_agent.c:291-310 | whether some listed uuid is a prefix of the id |
| `EngineAgentModule.EngineAgent.SetCurrentEngine` | server/ttsd_engine_agent.c:490-553 | makes the first matching engine current, not loaded; keeps one already set |
| `EngineAgentModule.EngineAgent.LoadCurrentEngine` | server/ttsd_engine_agent.c:555-696 | loads, falling back to the first listed voice, which is stored |
| `EngineAgentModule.EngineAgent.UnloadCurrentEngine` | server/ttsd_engine_agent.c:698-736 | clears the loaded flag of an engine that is set |
| `EngineAgentModule.EngineAgent.StartSynthesis` | server/ttsd_engine_agent.c:903-955 | the voice and speed asked of the engine, or no call |
| `EngineAgentModule.EngineAgent.SettingSetEngine` | server/ttsd_engine_agent.c:1208-1266 | switches with rollback |
| `EngineAgentModule.EngineAgent.SettingSetDefaultVoice` | server/ttsd_engine_agent.c:1329-1367 | changes a valid default voice and its stored copy |
| `EngineAgentModule.EngineAgent.SettingSetDefaultSpeed` | server/ttsd_engine_agent.c:1387-1406 | changes the default speed and its stored copy |
| `PlayerSpec.StartedThenCompleted` | server/ttsd_player.cpp:687-776 | from a player whose event is FINISH, any complete utterances, interleaved with other clients' callbacks, pauses, resumes and stops, yield exactly started and completed for each in order |
| `PlayerSpec.MessagesAreLocal` | server/ttsd_player.cpp:645-798 | a client's messages depend on its own stream callbacks and one event only |
| `PlayerSpec.UtteranceTransduced` | server/ttsd_player.cpp:699-716 | one utterance after any event: always completed, started exactly unless it is a lone FINISH chunk after an unfinished one |
| `PlayerSpec.FirstUtteranceAfterStop` | server/ttsd_player.cpp:390-446 | after a stop the next utterance is reported in full iff the chunk cut off was a FINISH or it has more than one chunk |
| `PlayerSpec.PullTakes` | server/ttsd_player.cpp:916-923 | what a player takes is the oldest chunk of its own client |
| `PlayerSpec.PullEffects` | server/ttsd_player.cpp:251-387 | when a tick starts a player at rest, and when the timer after a stream goes on with it, leaves it at rest with none current, leaves it alone, or takes another client's current player away |
| `PlayerModule.Player.CreateInstance` | server/ttsd_player.cpp:136-170 | a new player starts with event FINISH; a second one for a uid is refused |
| `PlayerModule.Player.DestroyInstance` | server/ttsd_player.cpp:173-249 | removes the player and the reference to it |
| `PlayerModule.Player.PlaySound` | server/ttsd_player.cpp:251-319 | starts the oldest chunk unless the player is busy or current |
| `PlayerModule.Player.NextPlaySound` | server/ttsd_player.cpp:321-387 | the timer after a stream: goes on with the next chunk of the current player, or clears the current one, even another client's when its own player is gone |
| `PlayerModule.Player.StopPlayer` | server/ttsd_player.cpp:390-446 | resets the utterance id and not the event |
| `PlayerModule.Player.PausePlayer` | server/ttsd_player.cpp:448-492 | pauses a playing player and clears the current one |
| `PlayerModule.Player.ResumePlayer` | server/ttsd_player.cpp:494-537 | resumes a paused player and makes it the current one |
| `PlayerModule.Player.AllStopPlayers` | server/ttsd_player.cpp:574-622 | resets every playing or paused client's player, event included; a player without a client ends the walk |
| `PlayerModule.Player.BeginOfStream` | server/ttsd_player.cpp:687-742 | when "started" is sent and what the player remembers |
| `PlayerModule.Player.EndOfStream` | server/ttsd_player.cpp:744-788 | when "completed" is sent; the stream is over and one more next-play timer is pending |
| `PlayerModule.Player.StreamError` | server/ttsd_player.cpp:655-685 | an error sets the event to FINISH and clears the current player; the stream is over and no timer follows |
| `ServerModule.Server.constructor` | server/ttsd_server.cpp:391-419 | start-up |
| `ServerModule.Server.StartText` | server/ttsd_server.cpp:69-127 | starts the engine on the oldest text when it is idle; when the start fails and an add caused it, the client is sent an error with that text's id, stopped, and told it is ready |
| `ServerModule.Server.PlayInternal` | server/ttsd_server.cpp:129-159 | resumes or starts, and keeps a timer going on success |
| `ServerModule.Server.NextText` | server/ttsd_server.cpp:161-238 | the playing client's next text goes to the engine, or the client is sent an error, stopped and told; and its next chunk goes to its player |
| `ServerModule.Server.StartNextSynthesis` | server/ttsd_server.cpp:270-288 | the polling timer; it ends exactly when nobody is playing |
| `ServerModule.Server.ResultCallback` | server/ttsd_server.cpp:290-385 | queues sound, or returns early on a refused id with the flag still up |
| `ServerModule.Server.Initialize` | server/ttsd_server.cpp:453-489 | registers a client, loading the engine for the first one |
| `ServerModule.Server.Finalize` | server/ttsd_server.cpp:492-516 | stops, erases, and unloads the engine after the last client |
| `ServerModule.Server.AddText` | server/ttsd_server.cpp:518-570 | queues an admissible text and starts it for a playing client when the network allows |
| `ServerModule.Server.SendInterruptMessage` | server/ttsd_server.cpp:572-583 | the interrupt timer |
| `ServerModule.Server.Play` | server/ttsd_server.cpp:585-640 | interrupts the playing client and takes over |
| `ServerModule.Server.StopRequest` | server/ttsd_server.cpp:643-675 | clears, stops, and cancels whatever the engine has |
| `ServerModule.Server.Pause` | server/ttsd_server.cpp:677-700 | pauses a playing client |
| `ServerModule.Server.SettingInitialize` | server/ttsd_server.cpp:746-777 | registers a setting process |
| `ServerModule.Server.SettingFinalize` | server/ttsd_server.cpp:779-798 | removes it, unloading the engine after the last one |
| `ServerModule.Server.ResetAll` | server/ttsd_data.cpp:425-431 | the walk over the clients resets each of them |
| `ServerModule.Server.ResetOne` | server/ttsd_server.cpp:835-848 | clears one client, makes it ready and tells it |
| `ServerModule.Server.SetCurrentEngine` | server/ttsd_server.cpp:850-878 | stops all players, resets all clients, switches; the flag is not touched |
| `ServerModule.Server.SetDefaultVoice` | server/ttsd_server.cpp:917-934 | for a registered setting process only |
| `ServerModule.Server.CancelSynthesis` | server/ttsd_engine_agent.c:958-986 | cancelling ends the job and delivers CANCEL first |
| `DaemonInv.ReachableInv` | server/ttsd_server.cpp:453-516 | in every reachable state: unique uids, one playing client at most, players subset of clients, current player listed, cache equal to store, loaded engine has a client and accepts its default voice |
| `DaemonInv.StepKeepsInv` | server/ttsd_server.cpp:746-798 | each of the eighteen kinds of step keeps all of that |
| `DaemonInv.ChangeAlwaysDefined` | server/ttsd_engine_agent.c:1216-1216 | whenever a setting process is registered an engine is set, so its uuid is not null |
| `DaemonInv.PlayKeeps` | server/ttsd_server.cpp:585-640 | a play that passes its checks makes the requester the only playing client, pauses the one before, and changes no other state, even if the start fails |
| `DaemonInv.QuietedKeeps` | server/ttsd_server.cpp:835-867 | an engine change makes every client ready |
| `Requests.StopEffect` | server/ttsd_server.cpp:643-675 | a stopping client is ready, silent and without queues, the engine has no job, and no other client's state, queues, mark or player changes |
| `Requests.PauseEffect` | server/ttsd_server.cpp:677-700 | a pause holds the player and keeps the queues; without a player it fails and changes nothing |
| `Requests.PlayEffect` | server/ttsd_server.cpp:585-640 | a play that takes over pauses whoever played and holds its player, lets the requester's own held player go on as the current one, takes at most its oldest text, and touches nobody else |
| `Requests.LeaveEffect` | server/ttsd_server.cpp:492-516 | a client that leaves is gone with its player, nobody else is touched, and the engine stays loaded exactly while somebody is left |
| `Requests.ChangeSilences` | server/ttsd_player.cpp:574-622 | an engine change resets every playing or paused client's player, event included, and no player stays current |
| `Scheduling.StepSchedules` | server/ttsd_server.cpp:270-385 | a step keeps "one job, flagged exactly, owner playing or paused" iff it does not wedge, whatever waits; and if it does not, it keeps "no lost wake-up" iff it does not strand |
| `Scheduling.RunJobInv` | server/ttsd_server.cpp:290-385 | over every run without a wedging step, stranding ones included, the flag is up exactly while the engine has a job, and the owner is playing or paused |
| `Scheduling.RunSchedules` | server/ttsd_server.cpp:161-238 | no wake-up is lost over every run without wedging or stranding steps |
| `Scheduling.AddSchedules` | server/ttsd_server.cpp:553-567 | an add loses a wake-up iff the client plays, the network is down, and neither flag is up |
| `Scheduling.PlaySchedules` | server/ttsd_server.cpp:626-637 | a play loses a wake-up iff its start fails with no timer alive or with texts left and no flag |
| `Scheduling.EmitJob` | server/ttsd_server.cpp:314-359 | a result keeps the flag exact iff it is not a FINISH with a refused id |
| `Scheduling.ChangeSchedules` | server/ttsd_server.cpp:850-878 | an engine change keeps the flag exact iff there is no job or the engine reports it cancelled |
| `Scheduling.TickSchedules` | server/ttsd_server.cpp:270-288 | the polling timer keeps both promises |
| `Scheduling.NextTickStartsOldestText` | server/ttsd_server.cpp:161-238 | when a playing client has text and the engine is idle, the next tick hands the engine its oldest text |
| `Calls.StepTalks` | server/ttsd_engine_agent.c:903-955 | what every step asks of the engine and which errors it sends: at most one text, the oldest of the client that plays, in the voice selected for its language and type, at its own speed or the default one for 0; and for a failed start or a broken stream the error with that utterance's id |
| `Calls.RunAsks` | server/ttsd_engine_agent.c:917-943 | over every run: whatever the engine was asked, it was asked in the voice that its agent of that moment selects for the text, and at the text's speed |
| `Calls.NextTickAsks` | server/ttsd_server.cpp:161-238 | when a playing client has text and the engine is idle, the next tick asks for the oldest text with that voice and speed |
| `Pending.StepPends` | server/ttsd_server.cpp:270-288 | every step, exactly: which polling, interrupt and next-play timers are pending after it, and which messages it has sent to whom |
| `Answers.AddOutcome` | server/ttsd_server.cpp:518-570 | an add answers invalid parameter iff the client is unknown, invalid voice iff no voice serves the text, and then changes nothing; any other text is accepted, and the answer is operation failed iff the client plays and the engine is out of reach or the start fails |
| `Answers.PlayAnswer` | server/ttsd_server.cpp:585-640 | a play is refused iff the client is unknown or the engine is out of reach; otherwise the client plays, and the answer is operation failed iff its start fails |
| `Answers.StopAnswer` | server/ttsd_server.cpp:643-675 | a stop is refused for an unknown client only, and leaves any other ready |
| `Answers.PauseAnswer` | server/ttsd_server.cpp:677-700 | a pause is refused unless the client plays, fails without a player, and else leaves it paused |
| `Answers.InitAnswer` | server/ttsd_server.cpp:453-489 | a registration is refused without an engine, for a known uid and when the first client's engine does not load; otherwise the client is ready with empty queues, and an error means that it has no player; nobody else is touched |
| `Answers.InitSettingAnswer` | server/ttsd_server.cpp:746-777 | the same for a setting process |
| `Answers.FirstLoads` | server/ttsd_engine_agent.c:646-676 | the first to register has the engine loaded, and keeps a valid default voice or falls back to the engine's first |
| `Answers.FinalizeAnswer` | server/ttsd_server.cpp:492-516 | only an unknown client cannot leave |
| `Answers.FinalizeSettingAnswer` | server/ttsd_server.cpp:779-798 | a known setting process is registered once less, and the engine stays loaded iff somebody is left; nothing else changes |
| `Answers.SettingAnswer` | server/ttsd_server.cpp:850-934 | only a registered setting process changes settings; an engine change to the loaded engine changes nothing |
| `EngineJob.RunSingleJob` | server/ttsd_server.cpp:69-101 | in every run, without any hypothesis on it, no start is attempted while a job is outstanding, and the history tells whether one is |
| `EngineJob.StepOne` | server/ttsd_server.cpp:161-385 | every step keeps that |
| `JobFate.StepFate` | server/ttsd_server.cpp:643-669 | a step ends the engine's job iff it is its own FINISH, FAIL or CANCEL, the stop or departure of any playing or paused client, or an engine change; any other leaves the same text at the engine |
| `JobFate.JobsOfOthers` | server/ttsd_server.cpp:660-668 | of the requests of another client exactly a stop and a departure end the job, and only while that client is playing or paused |
| `SoundWake.StepSound` | server/ttsd_player.cpp:251-387 | a step keeps "a playing client's queued sound is being heard, or its player is at rest and free with a flag up, or its next-play timer is pending and it is current" iff it is none of the six kinds in `Mutes` |
| `SoundWake.RunSound` | server/ttsd_player.cpp:645-798 | over every run without such a step and without a wedge that holds |
| `SoundWake.NextTickPlaysOldestSound` | server/ttsd_server.cpp:161-238 | then the next tick hands a player that is not followed by a timer its oldest chunk |
| `SoundWake.TimerPlaysOldestSound` | server/ttsd_player.cpp:624-643 | and the timer of one that is can fire and hands it over |
| `SoundWake.TickLeavesStandstill` | server/ttsd_player.cpp:261-301 | a player of which neither holds is served by no tick |
| `SoundWake.TimerLeavesStandstill` | server/ttsd_player.cpp:329-345 | nor by any client's timer |
| `Wedged.WedgeSticks` | server/ttsd_server.cpp:314-320 | after either wedge the flag is up with no job behind it |
| `Wedged.StepStuck` | server/ttsd_server.cpp:654-669 | a step ends that state iff a playing or paused client stops or leaves |
| `Wedged.StaysStuck` | server/ttsd_server.cpp:175-181 | until then no text reaches the engine, over any run |
| `Conservation.OrderAndConservation` | server/ttsd_server.cpp:69-127 | in every run, for every client and whatever ids it uses: the books list exactly the texts accepted and the chunks queued and played; played chunks, queued chunks, job and queued texts are in ticket order; played and queued sound is an in-order selection of what arrived, each utterance START first and FINISH last; and of the tickets given out since anything was last cleared, cancelled, refused or failed, there is exactly one complete group each, then the job, then the queue, with none missing |
| `Conservation.StepTracks` | server/ttsd_server.cpp:161-385 | each step keeps the client's books faithful, in order, and complete since its last loss |
| `Conservation.TrackEmit` | server/ttsd_server.cpp:290-385 | a result adds a chunk to the ticket at the engine, or ends it |
| `Conservation.TrackHand` | server/ttsd_server.cpp:76-101 | starting moves the first waiting ticket from the queue to the engine, or drops it |
| `Tickets.LineRises` | server/ttsd_server.cpp:69-127 | books in order have their tickets in one line that never goes back: played, queued sound, job, queued texts |
| `Tickets.FaithfulIsComplete` | server/ttsd_data.cpp:196-294 | faithful books have every text accepted, every chunk queued and every chunk taken, in order |
| `Tickets.BaseIsLastLoss` | server/ttsd_data.cpp:309-350 | the tickets that count are those given out after the last loss |
| `Tickets.ChunkKept` | server/ttsd_server.cpp:314-346 | a START or CONTINUE of the job goes behind all earlier chunks and keeps the groups |
| `Tickets.FinishKept` | server/ttsd_server.cpp:314-359 | FINISH completes the group of the ticket at the engine |
| `Reports.ReportsInPairs` | server/ttsd_player.cpp:645-798 | over every run in which the media library plays a client's chunks in turn, the messages about what was accepted since its last loss are "started" and "completed" for these texts in order and at most one "started" more; when all is played, one pair each; only the very first "started" can be missing, exactly when the player remembered an unfinished utterance and the first text came in one chunk, never when nothing was lost |
| `Reports.StepReported` | server/ttsd_player.cpp:687-788 | each step keeps player event, chunk and messages together |
| `Reports.ToldInPairs` | server/ttsd_player.cpp:699-776 | chunks grouped by ticket are reported as one pair per complete group and one "started" for an open one |
| `Watermark.StepMoves` | server/ttsd_data.cpp:196-350 | every step, whoever makes it, moves a client's queue, mark and job in two ways only, its own registration and accepted adds apart; the job's owner stays playing or paused |
| `Watermark.StopMoves` | server/ttsd_server.cpp:643-675 | a stop empties the queue, sets the mark and ends the client's job |
| `Watermark.QuietedMoves` | server/ttsd_server.cpp:835-867 | an engine change does so for every client |
| `UtteranceIds.RunOwner` | server/ttsd_server.cpp:654-669 | in every run without exception the owner of a job is playing or paused, the flag is up and the engine loaded |
| `UtteranceIds.StaleIsRefused` | server/ttsd_data.cpp:446-449 | in the daemon alone, whatever ids are sent: after a stop that removed a text with a higher id, every sound result for the earlier utterance is refused, over any run in which the client stays and only texts with higher ids are accepted from it |
| `Marks.StepMark` | server/ttsd_data.cpp:309-350 | every step's exact effect on a client's mark: gone when it leaves, the last id thrown away when its queue is cleared, 0 when its id 1 is accepted, else the same |
| `Marks.RefusesIs` | server/ttsd_data.cpp:436-450 | a registered client's results below its mark are refused and change nothing |
| `Marks.StepRefuses` | server/ttsd_data.cpp:196-215 | a step ends the refusal of an id iff the client leaves, its id 1 is accepted and not cleared again (for ids from 0 on), or its queue is cleared and the last id in it is no higher |
| `Marks.RunRefuses` | server/ttsd_data.cpp:436-450 | over any run stale work is refused throughout iff no step is one of these |
| `Marks.StepPasses` | server/ttsd_server.cpp:518-570 | a step lets live work of a client be refused iff it is the client's own accepted add of a text already overtaken by its mark (or of id 1 over negative ids) that no failed start clears again |
| `StaleWork.StaleWorkIsRefused` | server/ttsd_data.cpp:436-450 | for daemon and clients, where the library draws the ids: the same over every run in which the client stays registered and does not draw id 1, whatever the others do |
| `StaleWork.MoveRefuses` | server/ttsd_data.cpp:436-450 | exactly which moves of the system end the refusal |
| `StaleWork.RefusedExactly` | server/ttsd_data.cpp:436-450 | over any run of daemon and clients stale work stays refused iff no move is one of these |
| `StaleWork.RefusedWrapRevivesStale` | server/ttsd_data.cpp:333-335 | that no id 1 is queued would not be enough: with id 1 refused, id 2 queued and a second stop the mark falls and older ids pass |
| `UtteranceIds.StopMarks` | server/ttsd_data.cpp:333-335 | the mark after a stop is above every id below the last removed one |
| `UtteranceIds.PushCounts` | client/tts.c:412-415 | the next id, wrapped or not, keeps all live ids at or above the mark |
| `UtteranceIds.RefusalCounts` | server/ttsd_server.cpp:526-532 | a refused add keeps that iff it does not lose the wrap to id 1 over an id above 2 |
| `LiveWork.LiveWorkPasses` | server/ttsd_data.cpp:436-450 | over all runs of daemon and clients in which no add of id 1 is lost, every queued text and the engine's job pass the id check, so no FINISH is refused |
| `LiveWork.MoveCounts` | client/tts.c:412-420 | each move of the system keeps the bookkeeping of ids iff it is not such an add |
| `WrapLoss.BotchedExactly` | client/tts.c:412-420 | from then on every live text passes the id check, over all continuations without such an add, iff the move is none; after one, a text the daemon would admit can be lost |
| `WrapLoss.BotchedLosesWork` | server/ttsd_data.cpp:436-450 | it is lost when the client stops and adds it |
| `SystemScheduling.SystemSingleJob` | server/ttsd_server.cpp:69-101 | in every run of daemon and clients no start is attempted while a job is outstanding |
| `SystemScheduling.SystemFlag` | server/ttsd_server.cpp:290-385 | the flag is exact over all runs in which no add of id 1 is lost and replaced engines report their job; stranding steps allowed, the id check no hypothesis |
| `SystemScheduling.SystemSchedules` | server/ttsd_server.cpp:270-288 | no lost wake-up over all such runs without stranding steps |
| `Admission.AdmittedTextsAreSpeakable` | server/ttsd_server.cpp:526-535 | with engines whose valid voices are the listed ones, if every admitted request is durable, every queued text of every run has a voice when its turn comes, however often the default changed |
| `Admission.UndurableIsLost` | server/ttsd_engine_agent.c:1329-1367 | a served text is not durable iff some change of the default voice takes its voice away |
| `Admission.StepAdmits` | server/ttsd_engine_agent.c:1347-1356 | each step keeps every queued text speakable |
| `Admission.EngineChangeEmpties` | server/ttsd_server.cpp:835-867 | no text and no job crosses an engine change |
| `Notices.StepTells` | server/ttsd_server.cpp:572-629 | a client that stops playing without asking for it has a state message pending, whatever the step; only "ready" and "paused" are sent |
| `Exclusion.MutualExclusion` | client/tts.c:455-470 | in every reachable state of all processes a handle that is locally playing is right or has a message pending, so at most one has nothing pending |
| `Exclusion.MoveKeeps` | client/tts.c:656-681 | each request, answer, message and internal step keeps that |
| `Exclusion.AskerStays` | client/tts.c:519-572 | the asking handle itself, request by request |
| `Agreement.MoveAgrees` | client/tts.c:435-482 | a move keeps "a client that plays in the daemon with nothing pending believes so" iff it neither delivers the last pending message to a playing client nor is its play whose start fails with nothing pending |
| `Agreement.BothSidesAgree` | client/tts.c:656-681 | over every run without such moves of a client, whenever no answer and no message is on its way, handle and daemon say the same about its playing |
| `Agreement.OnlyPlayStarts` | server/ttsd_server.cpp:585-640 | a client starts to play at its own request only |
| `Agreement.MoveDormant` | client/tts.c:211-245 | a handle that is created, leaving or gone does not play in the daemon |
| `Protocol.AskExactly` | client/tts.c:379-584 | in which local states which call reaches the daemon: play from ready and paused, pause from playing, unprepare from ready, the others from all but created |
| `Protocol.WaitsAlone` | client/tts.c:455-482 | nothing that happens anywhere, over any run, changes a handle that waits for its answer |
| `Protocol.Conversation` | client/tts.c:116-584 | each call from request to answer, with any moves in between: the answer is what the daemon said when it served it, and the handle's new state, the one before it and its utterance id |
| `Protocol.SidesMeet` | client/tts.c:116-584 | a call served without error leaves the daemon's client in the state the handle will be in; a text is accepted with the id the handle drew |
| `Protocol.Hears` | client/tts.c:656-681 | a delivered message is believed in any state, the state before is remembered, it is pending no more, and nothing else changes |
| `Protocol.NothingStuck` | client/tts.c:656-681 | a pending message can be delivered at once, or as soon as its handle has the answer it waits for |
| `Protocol.PlayTakes` | client/tts.c:455-482 | a handle that is ready or paused can ask to play, is answered without error exactly when its client is registered and its start does not fail, and then plays on both sides |
| `Protocol.PauseThenPlay` | client/tts.c:435-584 | a client that surely plays and is heard pauses and plays on: both sides go to paused and back, and its player goes on with the same utterance |
| `Counterexamples.RefusedWrapLosesWork` | client/tts.c:412-420 | from every state with a mark above 2: when id 1 is refused, the next text is queued with an id that will be refused |
| `Counterexamples.StaleInterruptMisleads` | client/tts.c:656-681 | from every state in which it surely plays, a client interrupted by another, stopping and playing again, can end up believing it is paused while it plays, with nothing pending |
| `Witnesses.StrandedByAdd` | server/ttsd_server.cpp:553-567 | from start-up: register, play, and an add with the network down strands the client |
| `Witnesses.StrandedByPlay` | server/ttsd_server.cpp:626-637 | from start-up: register, add, and a play that the engine refuses strands the client |
| `Witnesses.WedgedByFinish` | server/ttsd_server.cpp:314-320 | from start-up: ids 5 and 10, a stop, id 3 and a play; the FINISH is refused and wedges the daemon |
| `Witnesses.WedgedByChange` | server/ttsd_server.cpp:850-878 | from start-up: a text in work and a change to another engine without a report wedges the daemon |
| `Witnesses.StopEndsOthersJob` | server/ttsd_server.cpp:660-668 | from start-up: one client takes over from another and stops; the other's job is gone |
| `SoundWitnesses.MutedByError` | server/ttsd_player.cpp:655-685 | from start-up: the first of two chunks breaks off |
| `SoundWitnesses.MutedByLostTimer` | server/ttsd_player.cpp:337-345 | from start-up: another client takes over between the end of a stream and its timer; then the first client plays again |
| `SoundWitnesses.MutedWithoutFlag` | server/ttsd_server.cpp:270-288 | from start-up: another client takes over before a chunk is fetched, its tick takes the flag; then the first client plays again |
| `SoundWitnesses.MutedByLateBegin` | server/ttsd_player.cpp:713-716 | from start-up: a chunk is fetched, the client stops, its next text is spoken, and the first stream begins late |
| `SoundWitnesses.MutedByResult` | server/ttsd_player.cpp:675-681 | from start-up: a stream breaks off with nothing queued, and the next chunk arrives |
| `SoundWitnesses.MutedByEnd` | server/ttsd_player.cpp:329-336 | from start-up: the timer of a client that left takes the current player away during another client's stream, which ends |
| `SoundWitnesses.MutedByOrphanTimer` | server/ttsd_player.cpp:329-336 | from start-up: it does so between the end of that stream and its timer |
| `SystemWitnesses.BotchedFromTheStart` | client/tts.c:412-420 | from launch: 9999 texts, a stop, and a text no voice speaks is a refused wrap |
| `SystemWitnesses.LostFromTheStart` | client/tts.c:412-420 | and the next good text is queued with id 2, which will be refused |
| `SystemWitnesses.RevivedFromTheStart` | server/ttsd_data.cpp:333-335 | from launch: one more stop ends the refusal of id 5, although no id 1 ever reached the queue again |
| `SystemWitnesses.MisledByFailedPlay` | client/tts.c:455-470 | from launch: one text and a play that the engine refuses leave the handle not knowing that it plays |
| `SystemWitnesses.MisledByStaleMessage` | client/tts.c:656-681 | from launch: two clients and a stale "paused" message do so too |
| `ClientSpec.DrawnIs` | client/tts.c:412-415 | the k-th text of a handle has id (k-1) mod 9999 + 1 |
| `Client.Handle.Prepare` | client/tts.c:181-209 | in state created it starts one more connect timer, otherwise it fails; nothing else changes |
| `Client.Handle.ConnectDaemon` | client/tts.c:116-178 | goes on, launching the daemon once, until hello is answered; a successful registration makes the handle ready, a failed one leaves "engine not found" or "timed out" to be notified |
| `Client.Handle.UnprepareHandle` | client/tts.c:211-245 | from ready back to created, whatever the daemon answers; refused and unchanged in any other state |
| `Client.Handle.AddText` | client/tts.c:379-433 | in any state but created draws the next id, 1 after 9999, before asking, and spends it even if refused |
| `Client.Handle.Play` | client/tts.c:435-482 | from ready and from paused to playing if the daemon agrees, with its answer; refused and unchanged when playing or created |
| `Client.Handle.Stop` | client/tts.c:485-532 | from any state but created to ready if the daemon agrees, with its answer; else unchanged |
| `Client.Handle.Pause` | client/tts.c:535-584 | from playing to paused if the daemon agrees, with its answer; refused and unchanged in any other state |
| `Client.Handle.OnStateMessage` | client/tts.c:656-681 | the daemon's state is believed, the one before remembered |
| `HandleIds.UidDecodes` | client/tts_client.c:25-35 | process and handle number can be read off a uid |
| `HandleIds.AllocatedIs` | client/tts_client.c:27-31 | the k-th handle number is (k-1) mod 999 + 1 |
| `HandleIds.CollisionsExactly` | client/tts_client.c:25-35 | two creations have the same uid iff they are in one process and a multiple of 999 creations apart |
| `HandleIds.UidFitsExactly` | client/tts_client.c:34-34 | all uids of a process fit 32 bits iff its id is at most 2147482 |
| `HandleIds.UniqueExactly` | client/tts_client.c:37-74 | live handles have distinct uids iff no two are a multiple of 999 creations apart |
| `HandleIds.RecentAreUnique` | client/tts_client.c:37-74 | handles among the last 999 created have distinct uids |
| `ClientHandles.HandleList.NewHandle` | client/tts_client.c:37-74 | the new handle's uid is nobody else's while live handles are among the last 999 created |
| `ClientHandles.HandleList.DestroyHandle` | client/tts_client.c:76-113 | removes the first handle with that number |
| `ClientHandles.HandleList.GetByHandle` | client/tts_client.c:115-143 | lookup by handle |
| `ClientHandles.HandleList.GetByUid` | client/tts_client.c:145-173 | lookup by uid agrees with lookup by handle |

## Left out

- Marshalling and dispatch of messages, the daemon's own hello, and how the daemon process is started.
- ServerModule.Server.ResetAll: assumes that messages can be created, because otherwise the source erases a client while it walks over the clients by index and reads past their end.
- ServerModule.Server.ResetOne: assumes that for the same reason, so it never deletes the client it could not tell.
- The periodic clean-up of dead clients, which erases from the vector while counting to a fixed size.
- The text of errors and the timers that notify an application; state-changed callbacks, which report the record at the time they run.
- Media player failures, temporary sound files and their index, the WAV header, audio format fields.
- Failing writes of the configuration file; strings longer than its 255-character buffers; settings strings that were never set when they are read back, which crash.
- Functions that an engine leaves null, and the search for the built-in default engine id, which cannot be reached because reading the stored id never fails.
- Memory ownership and logging; the client library's wait for callbacks in progress when a handle is destroyed.
- Setting clients' own library, the getters of the daemon, engine settings other than default voice, speed and engine.
- UtteranceIds.StaleIsRefused: assumes that texts accepted later have ids above the stale one, because the daemon takes any id; Marks.RunRefuses has the exact condition, and StaleWork.StaleWorkIsRefused the case of the ids the library draws.
- Exclusion.MutualExclusion: says nothing about a handle that is playing in the daemon and not locally; Agreement.MoveAgrees says which two kinds of move make this happen, a stale message and a play whose start fails.
- EngineAgentModule.EngineAgent.SettingSetEngine: requires an engine to be set, because the source dereferences a null uuid otherwise; `DaemonInv.ChangeAlwaysDefined` shows that every reachable state with a registered setting process meets this.
- EngineAgentModule.EngineAgent.constructor: requires that an engine id and a language are stored, because the source copies a null string otherwise; from then on they stay stored.
- EngineAgentModule.EngineAgent.InitializeCurrentEngine: requires a stored engine id for the same reason, and so do the methods of the server that call it.
- Reports.ReportsInPairs: assumes that the media library begins, ends and asks for chunks in turn and reports no error, because that library is not part of this model.
- Client.Handle.ConnectDaemon: the handle is assumed to exist when its timer fires; the source ends the timer of a destroyed one.
