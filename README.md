# NcmLyrics playback state, modelled in Dafny

This project models the playback-state core of NcmLyrics, a Unity editor plug-in that shows the lyrics of the song
currently playing in the NetEase Cloud Music player. The player posts typed "now playing" messages (song, lyric,
progress, play state, error) to a loopback HTTP endpoint. A manager keeps the current song, lyric, progress and play
state. The editor-side manager also advances a millisecond clock between pushes. A supervising service reconnects
and hands its state to display layers. Each display layer builds a padded list of lyric items and searches it for
the current line.

The modules follow the source files:

| module | file | what it holds |
|---|---|---|
| `LyricModels`, `SongModels`, `LyricMessages` | `lyric_models.dfy`, `song_models.dfy`, `lyric_messages.dfy` | the pushed records, `IsPlaying`, the message tags |
| `Playback` | `playback.dfy` | endpoint events, manager events, and the rule by which the four "now playing" fields absorb an event |
| `Ingestion` | `ingestion.dfy` | the endpoint (`LyricClient`): its start/stop/dispose lifecycle and the request routing rule |
| `ClientManager` | `client_manager.dfy` | the runtime manager without a clock |
| `ServerManager` | `server_manager.dfy` | the editor-side manager with the dead-reckoned clock and the playback speed |
| `Readouts` | `readouts.dfy` | the managers' line-index rule, `m:ss/m:ss` formatting and the progress ratio |
| `Slots` | `slots.dfy` | the padded item list and the slot search both display layers share |
| `Renderer`, `RenderingItem` | `renderer.dfy`, `rendering_item.dfy` | the lyric renderer and its items, including the word highlight of word-by-word lyrics |
| `Window`, `WindowItem` | `window.dfy`, `window_item.dfy` | the lyric window, its album-cover bookkeeping and port text rule, and its items |
| `TextLayout` | `text_layout.dfy` | the height composition of a line from measured heights |
| `Service` | `service.dfy` | the supervising service: initialisation, the 5-second retry rule, the replay to a new renderer |
| `Decimal` | `decimal.dfy` | `int.ToString`, `int.TryParse` and the `D2` format |

Time is taken as a parameter, in milliseconds as `int` for the managers and in seconds as `real` for the service.
Text measurement is an input record. Failures of calls that cannot be seen (creating the endpoint, binding the
port, decoding JSON) are parameters of `Option`/`Result` type.

What the model shows about the code:

- A waiting item carries no line, so it is also empty. Its height is 0, it is never drawn, and the waiting branches
  of `UpdateHeight`, `CalculateTextWidths` and `Draw` in both item classes cannot be reached. The model keeps those
  branches as the code writes them, and the contracts say which results they would give.
- The runtime manager sets `_isInitialized` only after `StartAsync` returns. A "started" event raised during that
  call meets the guard and is dropped (`ClientManager.LyricManager.Initialize`).
- Once the endpoint has stopped, its listener is closed, and a later start only reports an error
  (`Ingestion.NoRestartAfterStop`).
- The service's retry calls `Initialize`, which returns at once because the service is initialised. The retry never
  rebuilds the manager, and ticks alone never end reconnecting (`Service.LyricService.OnUpdate`, `Service.RunTicks`).
- The port text rule accepts "-1" and "99999" (`Window.AcceptsInvalidPorts`).
- A line whose text is "" is skipped by the display search but reported by the managers' search
  (`Slots.BlankLineDisagreement`).
- The word highlight ramps the next word up to just under 0.3. It then drops to 0 when that word starts
  (`RenderingItem.GlowThenRestart`).

More behaviour of the code that a reader might not expect:

- The managers' `GetCurrentLineIndex`, `GetFormattedTime` and `GetProgress` read the last pushed progress, not the
  dead-reckoned clock. Only the renderer searches with the clock.
- `GetProgress` divides by the duration with no guard against a zero duration (`Readouts.ProgressRatio`).
- A port change goes through `Dispose` and wipes song, lyric, progress and play state.
- The clock advances by `deltaTime * 1000 * speed`, truncated toward zero, not by `deltaTime * speed`.
- The managers return the first line whose window contains the time, which is not always the greatest. On lines in
  time order the two agree (`Readouts.SortedSearch`).
- The endpoint raises its "started" event before the manager's guard admits events, as described above.
- A request whose body cannot be read or decoded is answered 200, not 500 (see Findings below).

## Model

| member | source | states |
|---|---|---|
| LyricModels.PlayStateTags | Runtime/Models/LyricModels.cs:44 | "resume" reads as playing; "pause", "Resume", "" and a null state do not |
| LyricMessages.TagsDistinct | Runtime/Messages/LyricMessages.cs:6-13 | the five message tags are pairwise distinct, so a message selects at most one handler |
| SongModels.CoverUrl | Editor/Rendering/LyricRenderer.cs:225-233 | the cover URL is present exactly when the song, its album and the album's picture URL are |
| Playback.Forwarded | Runtime/Client/LyricManager.cs:79-132 | each typed push is raised as the matching typed manager event carrying the same payload, an error as an error with the same message, start and stop as connected and disconnected (kinds in both directions) |
| Playback.ForwardedInjective | Runtime/Client/LyricManager.cs:79-132 | distinct endpoint events are raised as distinct manager events |
| Playback.ForwardAllAt | Runtime/Client/LyricManager.cs:79-132 | in a sequence of forwarded events, each endpoint event is forwarded at its own position |
| Playback.ForwardAllAppend | Runtime/Client/LyricManager.cs:79-132 | forwarding a concatenated history forwards the parts in turn |
| Playback.AbsorbAllIsLatest | Runtime/Client/LyricManager.cs:101-131 | after any history each field holds what the latest event writing it wrote, a song change writing "absent" into lyric, progress and play state |
| Playback.SongChangeForgets | Runtime/Client/LyricManager.cs:101-110 | after a song change the state depends only on that song and the events after it |
| Ingestion.BindPrefix | Runtime/Client/LyricClient.cs:32 | the prefix starts with the loopback scheme and address and ends with '/' |
| Ingestion.BindPrefixInjective | Runtime/Client/LyricClient.cs:32 | different ports bind different prefixes |
| Ingestion.CountAppend | Runtime/Client/LyricClient.cs:36-210 | counting an event over a concatenated history adds the two counts |
| Ingestion.StartOutcome | Runtime/Client/LyricClient.cs:43-53 | a successful start runs the listener and raises `Started` once; a failed one leaves it stopped and raises only the error of the closed listener or of the bind |
| Ingestion.StopIdempotent | Runtime/Client/LyricClient.cs:152-181 | a stop raises at most one `Stopped`, and a second stop changes nothing and raises nothing |
| Ingestion.ApplyCoherent | Runtime/Client/LyricClient.cs:36-210 | every operation keeps the lifecycle invariant: a running listener has its accept loop pending and is not closed, and a disposed one is closed |
| Ingestion.DisposeIsTerminal | Runtime/Client/LyricClient.cs:183-210 | after `Dispose` no sequence of operations raises an event or runs the listener |
| Ingestion.QuietAfterDispose | Runtime/Client/LyricClient.cs:40 | a disposed, stopped listener stays so and raises nothing whatever is done to it |
| Ingestion.NoRestartAfterStop | Runtime/Client/LyricClient.cs:40-53 | after a stop no later operation ever raises `Started` again |
| Ingestion.NeverStartsWhenClosed | Runtime/Client/LyricClient.cs:43-53 | a closed listener never raises `Started` and stays closed and stopped |
| Ingestion.ApplyCounts | Runtime/Client/LyricClient.cs:36-181 | one operation raises `Started` exactly when it starts the listener and `Stopped` exactly when it stops it |
| Ingestion.ApplyAccounted | Runtime/Client/LyricClient.cs:36-210 | one operation keeps the raised history consistent with the lifecycle state |
| Ingestion.StartedAtMostOnce | Runtime/Client/LyricClient.cs:36-210 | from a fresh listener, any operation sequence raises `Started` at most once and `Stopped` no more often than `Started` |
| Ingestion.RouteRaisesAtMostOne | Runtime/Client/LyricClient.cs:82-150 | a request raises at most one event; one that throws into the catch block raises at most an error report; only a request taken up after dispose goes unanswered |
| Ingestion.PingAnswers | Runtime/Client/LyricClient.cs:91-95 | "/ping" answers 200 and raises nothing, whatever the method and the body |
| Ingestion.DisposedDrops | Runtime/Client/LyricClient.cs:84 | a request taken up after dispose gets no event and no status |
| Ingestion.KnownTagDispatch | Runtime/Client/LyricClient.cs:106-135 | a POST with a known tag whose data decodes raises exactly the matching event and answers 200 |
| Ingestion.UnknownIgnored | Runtime/Client/LyricClient.cs:98-135 | a request that is neither ping nor POST raises nothing and answers 200 |
| Ingestion.FailureAnswers200 | Runtime/Client/LyricClient.cs:86-149 | an unreadable body, an undecodable envelope and an undecodable typed message each report their exception (the first unless disposed meanwhile) and are answered 200, because the response was closed when the `try` block was left |
| Ingestion.FailureLooksLikeSuccess | Runtime/Client/LyricClient.cs:86-149 | an unreadable POST body gets the same 200 as "/ping" |
| Ingestion.IntendedFailureAnswers500 | Runtime/Client/LyricClient.cs:137-149 | with the catch block's 500 taking effect, the answer is 500 exactly for the requests that reach the catch block, and the events are unchanged |
| Ingestion.LyricClient.constructor | Runtime/Client/LyricClient.cs:28-34 | a new endpoint has the loopback prefix for its port and is neither running, disposed nor closed |
| Ingestion.LyricClient.StartAsync | Runtime/Client/LyricClient.cs:36-53 | the new state and the raised events are those of the start transition, with the closed-listener and bind exception messages as inputs |
| Ingestion.LyricClient.Stop | Runtime/Client/LyricClient.cs:152-181 | the new state and the raised events are those of the stop transition |
| Ingestion.LyricClient.Dispose | Runtime/Client/LyricClient.cs:183-210 | the new state and the raised events are those of the dispose transition |
| Ingestion.LyricClient.AcceptFailed | Runtime/Client/LyricClient.cs:56-79 | the new state and the raised events are those of a failed accept: while the loop is pending, the error is reported unless disposed and a running listener stops |
| Ingestion.LyricClient.HandleRequest | Runtime/Client/LyricClient.cs:82-150 | the answer and the raised event are those of the routing rule as written for the current disposed flag, so a failure is answered 200 |
| ClientManager.LyricManager.constructor | Runtime/Client/LyricManager.cs:9-38 | a new manager is uninitialised, with no client and all four fields absent |
| ClientManager.LyricManager.IsConnected | Runtime/Client/LyricManager.cs:20 | connected only with a client that is running; false without a client |
| ClientManager.LyricManager.Initialize | Runtime/Client/LyricManager.cs:40-70 | stores the port, clears the state, and initialises only when creation succeeds; a start event raised during the start is dropped |
| ClientManager.LyricManager.InitializeClient | Runtime/Client/LyricManager.cs:46-70 | disposes an old client, clears the state, and on success starts a new client bound to the port |
| ClientManager.LyricManager.UpdatePort | Runtime/Client/LyricManager.cs:72-77 | the same port changes nothing; a new port re-initialises, wiping the four fields, is initialised exactly when the endpoint could be created, and raises only the creation error |
| ClientManager.LyricManager.Deliver | Runtime/Client/LyricManager.cs:79-132 | uninitialised: nothing changes and nothing is raised; initialised: the state absorbs the event and its forwarded event is raised |
| ClientManager.LyricManager.DeliverAll | Runtime/Client/LyricManager.cs:79-132 | a sequence of events is absorbed in order, and the raised events are exactly their forwards, in order; nothing is raised while not initialised |
| ClientManager.LyricManager.Receive | Runtime/Client/LyricManager.cs:79-132 | a request reaching the client is routed, the raised event is absorbed, and the manager raises exactly its forward |
| ClientManager.LyricManager.Dispose | Runtime/Client/LyricManager.cs:160-185 | the client is disposed and dropped, the manager is uninitialised and all four fields are absent |
| ClientManager.LyricManager.GetCurrentLineIndex | Runtime/Client/LyricManager.cs:188-202 | the result is the first line window at the pushed time, -1 without lyric or progress |
| ClientManager.LyricManager.GetFormattedTime | Runtime/Client/LyricManager.cs:205-216 | "0:00/0:00" without progress |
| ClientManager.LyricManager.GetProgress | Runtime/Client/LyricManager.cs:219-223 | 0 without progress |
| ServerManager.ClampSpeed | Runtime/Server/LyricManager.cs:45-49 | the speed lies in [0.1, 2.0], equals the input inside that range and the nearer bound outside it |
| ServerManager.TruncateTowardZero | Runtime/Server/LyricManager.cs:245 | the cast to `long` drops the fraction toward zero |
| ServerManager.DriftBound | Runtime/Server/LyricManager.cs:239-247 | the clock never runs ahead of the exact elapsed time and falls behind by less than 1 ms per frame |
| ServerManager.AdvanceMonotone | Runtime/Server/LyricManager.cs:239-247 | at a clamped speed and non-negative frame times the clock never goes back |
| ServerManager.Resync | Runtime/Server/LyricManager.cs:112-138 | a progress push sets the clock to the pushed time, a song change to 0, any other event leaves it |
| ServerManager.LyricManager.constructor | Runtime/Server/LyricManager.cs:9-49 | a new manager has clock 0, speed 1.0, no server and all four fields absent |
| ServerManager.LyricManager.SetPlaybackSpeed | Runtime/Server/LyricManager.cs:45-49 | stores the clamped speed and changes nothing else |
| ServerManager.LyricManager.Update | Runtime/Server/LyricManager.cs:239-247 | the clock advances by the truncated `deltaTime*1000*speed` only while the play state is "resume"; nothing else changes |
| ServerManager.LyricManager.OnProgressReceived | Runtime/Server/LyricManager.cs:249-258 | null progress changes nothing; otherwise the progress is stored and the clock resynced, with no initialisation guard |
| ServerManager.LyricManager.Deliver | Runtime/Server/LyricManager.cs:90-146 | uninitialised: nothing changes; initialised: the state absorbs the event, the clock is resynced and the forwarded event raised |
| ServerManager.LyricManager.ResetProgress | Runtime/Server/LyricManager.cs:265-269 | the clock is 0 and nothing else changes |
| ServerManager.LyricManager.Dispose | Runtime/Server/LyricManager.cs:174-199 | no server, uninitialised, four fields absent; the clock and speed keep their values |
| ServerManager.LyricManager.InitializeClient | Runtime/Server/LyricManager.cs:57-81 | an initialised manager is disposed first; creation failure reports an error and leaves it uninitialised |
| ServerManager.LyricManager.Initialize | Runtime/Server/LyricManager.cs:51-55 | stores the port; initialised exactly when creation succeeds; an earlier state is wiped |
| ServerManager.LyricManager.UpdatePort | Runtime/Server/LyricManager.cs:83-88 | the same port changes nothing; a new port re-initialises and wipes the state |
| ServerManager.LyricManager.GetCurrentLineIndex | Runtime/Server/LyricManager.cs:202-216 | the first line window at the pushed time, -1 without lyric or progress |
| ServerManager.LyricManager.GetFormattedTime | Runtime/Server/LyricManager.cs:219-230 | "0:00/0:00" without progress |
| ServerManager.LyricManager.GetProgress | Runtime/Server/LyricManager.cs:233-237 | 0 without progress |
| Readouts.LineSearchFrom | Runtime/Server/LyricManager.cs:206-215 | -1 exactly when no line from k on is current; otherwise the first current line from k on |
| Readouts.CurrentLineIndex | Runtime/Server/LyricManager.cs:202-216 | the loop returns the line index of the specification function |
| Readouts.SortedSearch | Runtime/Server/LyricManager.cs:206-215 | on lines in time order the search finds a line exactly when the first line has started, and that line is the last started one |
| Readouts.LastStarted | Runtime/Server/LyricManager.cs:206-215 | when line k has started, some line from k on is current |
| Readouts.Quot | Runtime/Server/LyricManager.cs:223-227 | integer division truncating toward zero |
| Readouts.Rem | Runtime/Server/LyricManager.cs:223-227 | the remainder takes the dividend's sign and completes the division |
| Readouts.PadTwoValue | Runtime/Server/LyricManager.cs:226 | "D2" of a value below 100 is two digits that read back as that value |
| Readouts.FormatTimeRoundTrip | Runtime/Server/LyricManager.cs:223-227 | "m:ss" of a non-negative time reads back as its whole seconds |
| Readouts.FormatTimeSeparates | Runtime/Server/LyricManager.cs:223-227 | times in different seconds are shown differently |
| Readouts.FormattedTimeShowsBoth | Runtime/Server/LyricManager.cs:219-230 | with progress the text is position and duration, each read back as whole seconds, split at '/' |
| Readouts.NoProgressLooksLikeZero | Runtime/Server/LyricManager.cs:221 | the text without progress equals the text of zero position and zero duration |
| Readouts.ProgressRatio | Runtime/Server/LyricManager.cs:233-237 | 0 without progress, the quotient for a non-zero duration, and not finite for a zero duration |
| Decimal.DigitChar | Editor/Windows/LyricWindow.cs:409 | a digit below 10 is written as its character |
| Decimal.DigitValue | Editor/Windows/LyricWindow.cs:412 | a digit character reads as a value below 10 |
| Decimal.Pow10Add | Editor/Windows/LyricWindow.cs:412 | powers of ten multiply by adding exponents |
| Decimal.ShowNat | Editor/Windows/LyricWindow.cs:409 | a natural number is written as at least one digit |
| Decimal.ShowInt | Editor/Windows/LyricWindow.cs:409 | an integer's text is non-empty |
| Decimal.PadTwo | Runtime/Server/LyricManager.cs:226 | "D2" writes at least two digits |
| Decimal.DigitsValueShowNat | Editor/Windows/LyricWindow.cs:409-412 | reading back the digits of a number gives the number |
| Decimal.DigitsValueBound | Editor/Windows/LyricWindow.cs:412 | k digits denote less than 10^k |
| Decimal.ShowNatInjective | Editor/Windows/LyricWindow.cs:409 | different naturals are written differently |
| Decimal.SignShown | Editor/Windows/LyricWindow.cs:409 | the text starts with '-' exactly for negative values |
| Decimal.ShowIntInjective | Editor/Windows/LyricWindow.cs:409 | different integers are written differently |
| Decimal.TrimStart | Editor/Windows/LyricWindow.cs:412 | the result is a suffix of the input, only white space is removed, and all of the leading white space is |
| Decimal.TrimEnd | Editor/Windows/LyricWindow.cs:412 | the result is a prefix of the input, only white space is removed, and all of the trailing white space is |
| Decimal.TryParseInt32 | Editor/Windows/LyricWindow.cs:412 | a parsed value lies in the 32-bit range |
| Decimal.ParseShowInt | Editor/Windows/LyricWindow.cs:409-412 | every 32-bit value survives a trip through ToString and TryParse |
| Decimal.ParsedValueBound | Editor/Windows/LyricWindow.cs:412 | a parsed text of at most k characters denotes a value in (-10^(k-1), 10^k) |
| Slots.WaitingIsEmpty | Editor/Rendering/LyricLineItem.cs:43-52 | the waiting placeholder is empty and waiting; padding is empty and not waiting |
| Slots.LineSlots | Editor/Rendering/LyricRenderer.cs:259-262 | one slot per line, in order, holding that line |
| Slots.Padded | Editor/Rendering/LyricRenderer.cs:245-271 | the list has 10 + n + w items (w = 1 when the first line starts after 0) and is well formed |
| Slots.PaddedLayout | Editor/Rendering/LyricRenderer.cs:245-271 | 5 empty items, the placeholder exactly when w = 1, line k at slot 5 + w + k, then 5 empty items |
| Slots.PaddedLineAt | Editor/Rendering/LyricRenderer.cs:259-262 | line k sits at slot 5 + w + k |
| Slots.SearchFrom | Editor/Rendering/LyricRenderer.cs:350-360 | -1 exactly when no slot from i up to Count-5 is current; otherwise the first current one |
| Slots.CurrentSlotInRange | Editor/Rendering/LyricRenderer.cs:339-361 | the answer is -1, the placeholder at time 0, or a slot inside [5, Count-5) holding a line whose text is not "" |
| Slots.SearchMatchesLines | Editor/Rendering/LyricRenderer.cs:350-360 | on lines without "" text the slot search from line k answers the line search shifted by the padding |
| Slots.DisplayAgreesWithManager | Editor/Rendering/LyricRenderer.cs:339-361 | given the same time, display and manager agree up to the padding offset, except that the placeholder wins at time 0 |
| Slots.BlankLineDisagreement | Editor/Rendering/LyricRenderer.cs:353 | a line with "" text is reported current by the manager but never by the display |
| Renderer.SlotsOfAppend | Editor/Rendering/LyricRenderer.cs:245-271 | the slots of a list with one more item end with that item's slot |
| Renderer.LyricRenderer.constructor | Editor/Rendering/LyricRenderer.cs:32-34 | a new renderer has no items and no cover URL |
| Renderer.LyricRenderer.OnSongChanged | Editor/Rendering/LyricRenderer.cs:206-234 | the item list is empty and the cover URL is the new song's |
| Renderer.LyricRenderer.OnLyricReceived | Editor/Rendering/LyricRenderer.cs:245-275 | the item slots are exactly the padded list of the lyric, and the cover URL is unchanged |
| Renderer.LyricRenderer.Extend | Editor/Rendering/LyricRenderer.cs:245-271 | one item is appended and the earlier ones are kept |
| Renderer.LyricRenderer.GetCurrentLineIndex | Editor/Rendering/LyricRenderer.cs:339-361 | the loop returns the slot search's answer for the clock |
| Renderer.LyricRenderer.GetCurrentItem | Editor/Rendering/LyricRenderer.cs:329-337 | the item at the current index when it is in range, otherwise null |
| Renderer.RendererCurrentItem | Editor/Rendering/LyricRenderer.cs:329-361 | the current item is never padding, and it holds a line with text or is the placeholder at time 0 |
| RenderingItem.LyricLineItem.constructor | Editor/Rendering/LyricLineItem.cs:43-48 | stores line and waiting flag; empty exactly when there is no line or its text is "" |
| RenderingItem.LyricLineItem.Create | Editor/Rendering/LyricLineItem.cs:50 | not waiting; empty exactly when the line is null or its text is "" |
| RenderingItem.LyricLineItem.CreateEmpty | Editor/Rendering/LyricLineItem.cs:51 | no line, empty, not waiting |
| RenderingItem.LyricLineItem.CreateWaiting | Editor/Rendering/LyricLineItem.cs:52 | no line, waiting, and therefore empty |
| RenderingItem.LyricLineItem.EmptyMatchesSlot | Editor/Rendering/LyricLineItem.cs:46 | the item's emptiness is that of its slot |
| RenderingItem.LyricLineItem.UpdateHeight | Editor/Rendering/LyricLineItem.cs:191-266 | an empty item gets height 0; an approximately equal width changes nothing; a text line gets the composed height |
| RenderingItem.LyricLineItem.CalculateTextWidths | Editor/Rendering/LyricLineItem.cs:54-100 | an empty item gets three zero widths; a text line keeps only the widths of shown, non-empty texts |
| RenderingItem.LyricLineItem.Draw | Editor/Rendering/LyricLineItem.cs:268-320 | an empty item draws nothing; a line is drawn word by word exactly when it has a non-empty word list, each word with its highlight, and as plain text otherwise |
| RenderingItem.CurrentWord | Editor/Rendering/LyricLineItem.cs:334-349 | -1 exactly when no word has started; otherwise the last started word |
| RenderingItem.FindCurrentWord | Editor/Rendering/LyricLineItem.cs:334-349 | the backward loop returns the current word |
| RenderingItem.WordAlpha | Editor/Rendering/LyricLineItem.cs:356-387 | in [0, 1]; 1 before the current word and once it ends; 0 past the next word or with no current word; below 0.3 for the next word, 0 when paused |
| RenderingItem.CurrentWordMonotone | Editor/Rendering/LyricLineItem.cs:334-349 | the current word never moves back as the clock advances |
| RenderingItem.HighlightNeverDims | Editor/Rendering/LyricLineItem.cs:356-387 | once a word has started, its highlight does not drop as the clock advances |
| RenderingItem.GlowThenRestart | Editor/Rendering/LyricLineItem.cs:356-387 | the next word glows near 0.3 just before it starts and is at 0 at its start |
| TextLayout.HeightFitsRows | Editor/Windows/LyricLineItem.cs:158-249 | the rows end exactly at the composed height less the bottom padding |
| TextLayout.ShowingMoreNeverShrinks | Editor/Windows/LyricLineItem.cs:158-181 | showing translation or romaji never lowers the height |
| WindowItem.LyricLineItem.constructor | Editor/Windows/LyricLineItem.cs:117-122 | stores line and waiting flag; empty exactly when there is no line or its text is "" |
| WindowItem.LyricLineItem.Create | Editor/Windows/LyricLineItem.cs:124-127 | not waiting; empty exactly when the line is null or its text is "" |
| WindowItem.LyricLineItem.CreateEmpty | Editor/Windows/LyricLineItem.cs:129-132 | no line, empty, not waiting |
| WindowItem.LyricLineItem.CreateWaiting | Editor/Windows/LyricLineItem.cs:134-137 | no line, waiting, and therefore empty |
| WindowItem.LyricLineItem.EmptyMatchesSlot | Editor/Windows/LyricLineItem.cs:120 | the item's emptiness is that of its slot |
| WindowItem.LyricLineItem.UpdateHeight | Editor/Windows/LyricLineItem.cs:139-182 | an empty item gets height 0; a text line stores its measurements and the composed height |
| WindowItem.LyricLineItem.Draw | Editor/Windows/LyricLineItem.cs:184-250 | an empty item draws nothing and changes nothing; the current item first takes the content width and the height `UpdateHeight` gives; a text line draws its rows, the last ending at the bottom padding |
| Window.Downloaded | Editor/Windows/LyricWindow.cs:146-180 | the textures of the pending URLs whose download succeeded |
| Window.SlotsOfAppend | Editor/Windows/LyricWindow.cs:182-209 | the slots of a list with one more item end with that item's slot |
| Window.AcceptPortText | Editor/Windows/LyricWindow.cs:412-417 | a port text is accepted exactly when it parses and has at most 5 characters |
| Window.AcceptedPortRange | Editor/Windows/LyricWindow.cs:412-417 | an accepted port lies in [-9999, 99999] |
| Window.AcceptsShownPorts | Editor/Windows/LyricWindow.cs:409-417 | the text of every integer from -9999 to 99999 (every text of at most 5 characters) is accepted as that integer |
| Window.ShownLength | Editor/Windows/LyricWindow.cs:409 | a port below 100000 is written in at most 5 characters |
| Window.ShowNatLength | Editor/Windows/LyricWindow.cs:409 | a number below 10^k is written in at most k digits |
| Window.AcceptsInvalidPorts | Editor/Windows/LyricWindow.cs:412-417 | "-1" and "99999" are accepted |
| Window.LyricWindow.constructor | Editor/Windows/LyricWindow.cs:38-42 | a new window has no items, no manager, no covers and no pending downloads, and keeps the given port and display flags |
| Window.LyricWindow.InitializeManager | Editor/Windows/LyricWindow.cs:106-118 | the old manager is disposed and cleared; a new one is initialised on the window's port exactly when the endpoint could be created, raising only the creation error; the rest of the window stays as it was |
| Window.LyricWindow.LoadAlbumCover | Editor/Windows/LyricWindow.cs:133-144 | a URL is requested exactly when it is neither cached nor pending, and the cache and pending set stay disjoint |
| Window.LyricWindow.UpdateAlbumCoverRequests | Editor/Windows/LyricWindow.cs:146-180 | finished requests leave the pending set, successes join the cache, unfinished ones stay pending |
| Window.LyricWindow.OnDisable | Editor/Windows/LyricWindow.cs:63-88 | the manager is disposed, the unfinished requests are aborted and both the cache and the pending set are empty; items and port stay |
| Window.LyricWindow.OnSongChanged | Editor/Windows/LyricWindow.cs:120-131 | the item list is empty and the new cover URL is requested unless cached or pending |
| Window.LyricWindow.OnLyricReceived | Editor/Windows/LyricWindow.cs:182-230 | the item slots are exactly the padded list of the lyric |
| Window.LyricWindow.Extend | Editor/Windows/LyricWindow.cs:182-209 | one item is appended and the earlier ones are kept |
| Window.LyricWindow.OnManagerEvent | Editor/Windows/LyricWindow.cs:120-131 | a song change clears the items and requests its uncached cover; a lyric rebuilds the items and requests nothing; other events leave the items; the port and the cache stay |
| Window.LyricWindow.GetCurrentLineIndex | Editor/Windows/LyricWindow.cs:369-392 | the loop returns the slot search's answer for the pushed time |
| Window.LyricWindow.EditPort | Editor/Windows/LyricWindow.cs:409-417 | an accepted text replaces the port and is forwarded to the manager, which on a new port is initialised exactly when the endpoint could be created; a rejected text, or one naming the manager's current port, leaves the manager and its client unchanged; items, cache and pending set stay |
| Service.Replay | Editor/Core/LyricService.cs:80-96 | the present fields in the order song, lyric, progress, play state: at most four events, the song first when present, and no song change after the first event |
| Service.AbsorbAllAppend | Editor/Core/LyricService.cs:80-96 | absorbing a concatenated history absorbs the parts in turn |
| Service.ReplayIsForwarded | Editor/Core/LyricService.cs:80-96 | the replay is exactly the forwarding of the endpoint events that would have produced the current fields |
| Service.ReplayRestores | Editor/Core/LyricService.cs:80-96 | absorbing those endpoint events from nothing restores all four fields |
| Service.LyricService.Port | Editor/Core/LyricService.cs:28 | with a manager, the manager's port; without one, the configured port |
| Service.LyricService.constructor | Editor/Core/LyricService.cs:45-50 | the service starts initialised with a manager on the configured port, unless creation fails; both time stamps are 0 and no tick handler is registered yet |
| Service.LyricService.Initialize | Editor/Core/LyricService.cs:108-127 | an initialised service is left unchanged; otherwise a new manager is created and initialised, keeping both time stamps |
| Service.LyricService.TryReconnect | Editor/Core/LyricService.cs:184-192 | enters reconnecting and stamps the time only when not already reconnecting |
| Service.LyricService.OnManagerEvent | Editor/Core/LyricService.cs:129-148 | a connect clears reconnecting, a disconnect calls TryReconnect; a song empties the renderer and sets its cover URL, a lyric rebuilds its slots and keeps the cover, any other event leaves the renderer alone; the event is raised on |
| Service.LyricService.Receive | Editor/Core/LyricService.cs:129-148 | an uninitialised manager drops the event and nothing changes; otherwise the manager absorbs and resyncs its clock, the forwarded event is raised, a connect or disconnect updates reconnecting, and the renderer follows song and lyric |
| Service.LyricService.OnUpdate | Editor/Core/LyricService.cs:156-182 | uninitialised: nothing; otherwise delta is 0 on the first tick, the clock advances, and a due retry re-stamps without rebuilding the manager |
| Service.LyricService.UpdatePort | Editor/Core/LyricService.cs:194-200 | ignored when uninitialised or for the current port; otherwise stored and forwarded, the manager initialised exactly when the endpoint could be created and only the creation error raised; reconnect state and stamps stay |
| Service.LyricService.GetRenderer | Editor/Core/LyricService.cs:52-97 | a renderer is created once; a new one receives the replay and its items then match the current lyric; the time stamps stay |
| Service.LyricService.ReleaseRenderer | Editor/Core/LyricService.cs:62-70 | the renderer is dropped and nothing else changes |
| Service.LyricService.Dispose | Editor/Core/LyricService.cs:222-234 | no renderer, manager disposed and dropped, not initialised, not reconnecting, update stamp 0 |
| Service.LyricService.GetCurrentLineIndex | Editor/Core/LyricService.cs:202-205 | -1 without a manager, else the manager's answer |
| Service.LyricService.GetFormattedTime | Editor/Core/LyricService.cs:207-210 | "0:00/0:00" without a manager, else the manager's formatted pushed progress |
| Service.LyricService.GetProgress | Editor/Core/LyricService.cs:212-215 | 0 without a manager, else the ratio of the manager's pushed progress |
| Service.LyricService.GetCurrentTime | Editor/Core/LyricService.cs:217-220 | 0 without a manager, else the manager's clock |
| Service.RunTicks | Editor/Core/LyricService.cs:156-182 | ticks alone never end reconnecting or replace the manager; the retry stamp is the old one or a tick time |

## Left out

- Socket I/O, the `HttpListener` accept loop, `GetContextAsync`, reading the request body, and the `lock`. Start, stop, dispose and a request are atomic steps. The one interleaving kept is the disposed flag changing while a request is being handled.
- `HttpListener.IsListening` is taken to equal `IsRunning`.
- JSON decoding. A request body is a `Result` carrying the decoded tag and data or the exception's message.
- Null payloads: null `data`, null `lines`, null array elements and null records inside a message.
- `LyricServer`, which the editor-side manager uses, is not part of this model. It is an abstract event source with the same events as the endpoint.
- `Thread.Sleep(100)`, `Time.realtimeSinceStartup` and `EditorApplication` callbacks. Time is a parameter.
- `_lastUpdateTime` of the editor-side manager, which is written and never read.
- The editor-side manager's `IsConnected`, which reads `LyricServer`.
- Subscriber exceptions thrown out of event handlers.
- `EditorPrefs`/`PlayerSettings` persistence (`LyricConfig`, `NetworkSettings`). The configured port is a field.
- `UnityWebRequest` downloads. A download's outcome is an input. The renderer's own single cover request and its texture are also left out; only its cover URL is kept.
- Text measurement, word wrap, scrolling, styles, colours, repaint requests and `RecalculateHeights`. Measured sizes are inputs.
- The renderer's `Update`, its progress and play-state repaint flags, and its `Dispose`.
- `DrawCurrentLyric` and `DrawLyrics`, which only pass flags to `Draw`.
- `OnEditorQuitting` of the service, which only unhooks the update callback and calls `Dispose`.
- The catch path of the service's `Initialize`: no modelled step inside it can fail.
- The GUI files and the init window, which repeats the window's port text rule.
- Float arithmetic: speeds, seconds and heights are exact reals, and NaN in the speed clamp is not modelled.
- `long` and `TimeSpan` overflow: times are unbounded integers.
- ClientManager.LyricManager.GetFormattedTime: states only the case without progress; the text with progress is stated by `Readouts.FormattedTimeShowsBoth`.
- ServerManager.LyricManager.GetFormattedTime: states only the case without progress; the text with progress is stated by `Readouts.FormattedTimeShowsBoth`.
- ClientManager.LyricManager.GetProgress: states only the case without progress, because the quotient is a single-precision float.
- ServerManager.LyricManager.GetProgress: states only the case without progress, because the quotient is a single-precision float.
- Renderer.LyricRenderer.OnLyricReceived: does not state that the new items are freshly allocated objects, only what their slots hold.
- Window.LyricWindow.OnLyricReceived: does not state that the new items are freshly allocated objects, only what their slots hold.
- Decimal.TryParseInt32: takes the signs as the invariant culture's `-` and `+`, where `int.TryParse` (Editor/Windows/LyricWindow.cs:409, 412) reads the current culture's signs; and it rejects trailing NUL characters, which .NET accepts (`"12\0"` parses as 12). `Window.AcceptPortText` inherits both differences.
- The display toggles `showTranslation` and `showRomaji` are only kept unchanged: the toolbar that flips them and the layout pass that hands them to each item are GUI code.

## Findings

| source | as written | input that shows it | evidently intended | confidence | as-written member | corrected member |
|---|---|---|---|---|---|---|
| Runtime/Client/LyricClient.cs:88-149 | the response is declared with `using var` inside the `try`, so it is disposed (and sent with the default status 200) before the catch runs; the catch's `StatusCode = 500` throws on the closed response and is swallowed | a POST to "/" whose body cannot be read, or whose JSON does not decode | a failed request is answered 500 | high; not executed (follows from C# `using` declaration scope and the disposed response rejecting a status change) | Ingestion.FailureLooksLikeSuccess | Ingestion.IntendedFailureAnswers500 |

`Ingestion.Route` and `Ingestion.LyricClient.HandleRequest` keep the status as written, since that is what a player
posting to the endpoint receives; `Ingestion.RouteIntended` differs from it only in the catch block's status. No
other part of the model reads the status.
