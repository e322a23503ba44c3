# Boredom Buster AI: the five mini-games, modelled in Dafny

This project models the five AI mini-games of a React web app and proves
properties of them. Each game is a small session state machine around one
call to a chat-completion service:

- **Random roleplay**: the narrator opens a scenario and the player gets exactly three turns.
- **Doodle duel**: the player draws while the AI describes its own take, then votes. The win/loss/draw record is kept in the browser's storage.
- **Creativity challenge**: a sixty-second countdown while the player answers.
- **Roast or Toast**: a short message in a chosen tone.
- **Haiku generator**: a haiku on the page title or a theme.

Each game is one module:

| module | game |
|---|---|
| `Roleplay` | random roleplay |
| `Doodle` | doodle duel |
| `Creativity` | creativity challenge |
| `RoastToast` | Roast or Toast |
| `Haiku` | haiku generator |

Every game module has the same four parts:

- **`Session`**: a datatype with one field per `useState` variable, plus `Initial`, the values the component starts with.
- **Transition functions**: pure functions for each event handler. An async handler is split into its part before the awaited call (`…Pending`) and the state once the call has settled.
- **Lemmas**: statements about those functions, including an invariant `Shape`. The lemmas prove which transitions keep it, and from which states. Some hold only once a game has started, and `Doodle.StartedAsWritten` is proved to break it.
- **A class**: its fields are the state variables, and it has one method per handler. Each method changes the fields step by step, as the handler does. Its `ensures` ties the new state to the transition function (`State() == Submitted(old(State()), outcome)`). `Valid()` is `Shape` of the fields, and the contracts treat it case by case:
  - The start handlers (`StartGame`, `StartDuel`, `StartChallenge`), `Haiku.HaikuGenerator.GenerateHaiku` and `ResetGame` accept any state and establish `Valid()`.
  - `Doodle.DoodleDuel.StartDuelAsWritten` breaks it.
  - A handler that continues a round requires the view that renders its button or box. Roleplay's `SetUserInput` and `SubmitAction`, and the countdown's `Tick`, `SetUserResponse`, `SubmitEarly`, `SkipChallenge` and `NewChallenge`, also require `Valid()` and keep it.
  - `Doodle.DoodleDuel.FinishDrawing`, `RoastToast.RoastToastGame.SelectTone` and `GenerateMessage` keep `Valid()` when it held.
  - `Doodle.DoodleDuel.Vote` needs only the comparing view and no call in flight, and establishes `Valid()`. Because neither `FinishDrawing` nor `Vote` needs the interpretation, both also work after the as-written start.
  - Setters of fields that `Shape` does not mention leave `Valid()` out of their contracts.

Two small modules are shared by the games:

- `Gateway` holds the outcome of the one outbound call, `generateAIResponse(prompt)`. The call either resolves with a text (`Ok(text)`) or rejects (`Err`). Each handler takes that outcome as a parameter and returns the request it sent.
- `Text` holds JavaScript's `trim`, substring containment, decimal rendering and `padStart`.

Random draws (`Math.floor(Math.random() * list.length)`) become an index parameter `i` with `i < |list|`. The interval callback of the countdown becomes an explicit `Tick()`.

Three behaviours of the code worth noting:

- `resetGame` leaves `isGenerating` as it was.
- `newChallenge` clears nothing.
- `finishDrawing` makes no AI call. The AI's text is asked for in `startDuel`.

## Model

| member | source | states |
|---|---|---|
| Gateway.ContentOrDefault | app/utils/deepseek-api.js:30 | a missing or empty content field becomes "AI is taking a creative break!", so a resolved call never yields the empty string |
| Gateway.Resolved | app/utils/deepseek-api.js:30 | a received response resolves the call with its content, or with the default text, and never with the empty string |
| Gateway.TextOr | src/components/haiku-generator.js:44-48 | what every game shows for its call: the resolved text, or the game's fallback on rejection; with a producible outcome and a non-empty fallback it is never empty |
| Text.TrimStartDrops | app/components/roleplay-game.js:59 | the leading half of `trim`: it keeps a suffix, drops only whitespace, and the result does not start with whitespace |
| Text.TrimEndDrops | app/components/roleplay-game.js:59 | the trailing half of `trim`: it keeps a prefix, drops only whitespace, and the result does not end with whitespace |
| Text.BlankIffAllWhitespace | src/components/creativity-prompt.js:73 | `!s.trim()` holds exactly when every character of `s` is whitespace |
| Text.NatToString | src/components/creativity-prompt.js:87 | a number's decimal rendering is digits only, non-empty, and has no leading zero except for zero |
| Text.ParseNatToString | src/components/creativity-prompt.js:87 | reading a decimal rendering back gives the number |
| Text.PadStart | src/components/creativity-prompt.js:87 | `padStart(width, fill)` keeps the string as its suffix and fills the front up to the width with the filler |
| Roleplay.SpeakerType | app/components/roleplay-game.js:71 | an entry's type is "user" exactly for the player's entries |
| Roleplay.TranscriptMentions | app/components/roleplay-game.js:71 | the transcript in a turn prompt holds every entry as its "type: content" line |
| Roleplay.OpeningMentions | app/components/roleplay-game.js:43-51 | the opening request and the fixed welcome both name the scenario; a successful reply is used as is |
| Roleplay.TurnRequestMentions | app/components/roleplay-game.js:70-74 | on the third turn the prompt asks for a conclusion and says "turn 3/3"; before it, it says "turn N/3" |
| Roleplay.TurnPromptMentions | app/components/roleplay-game.js:69-74 | a turn prompt names the scenario, every entry so far as a "type: content" line, and the turn label or the conclusion request |
| Roleplay.TurnReply | app/components/roleplay-game.js:76-92 | the narrator's entry is the reply; on failure it is the fixed ending on turn 3 and "Something unexpected happens..." before it |
| Roleplay.AcceptsIff | app/components/roleplay-game.js:59 | the guard rejects exactly the inputs made only of whitespace, and every input once three turns are played |
| Roleplay.ButtonMatchesGuard | app/components/roleplay-game.js:191 | "Submit Action" is enabled exactly when the guard would accept and no reply is awaited |
| Roleplay.StartedOpens | app/components/roleplay-game.js:32-55 | while the opening is awaited the game is playing with no entries and turn 0; afterwards, on both paths, it holds exactly one narrator entry and the invariant holds |
| Roleplay.SubmitRefused | app/components/roleplay-game.js:59 | a blank input or a used-up budget changes nothing |
| Roleplay.SubmitAccepted | app/components/roleplay-game.js:58-101 | an accepted turn appends one player entry (the input as typed) and then one narrator entry, and leaves earlier entries alone. It adds one to the turn count, clears the input, and finishes the game exactly at three, on both paths |
| Roleplay.SubmitKeepsShape | app/components/roleplay-game.js:58-101 | a submission keeps the invariant: turn count at most 3, conversation length 1 + 2 * turnCount, alternating speakers, finished exactly at 3 |
| Roleplay.ResetRestoresInitial | app/components/roleplay-game.js:103-109 | a reset returns to waiting with no scenario, no conversation, no input and turn 0 (the busy flag is kept) and the invariant holds |
| Roleplay.PlayedAppends | app/components/roleplay-game.js:58-101 | a run of accepted inputs appends, in order, each input followed by the narrator's reply to that turn |
| Roleplay.PlayedKeepsShape | app/components/roleplay-game.js:58-101 | any run of submissions keeps the invariant of a game in progress |
| Roleplay.ThreeTurnsFinish | app/components/roleplay-game.js:32-101 | after the start and three non-blank inputs the game is finished with seven alternating entries, each input followed by its reply, and a further submission changes nothing |
| Roleplay.RoleplayGame.constructor | app/components/roleplay-game.js:25-30 | the initial state variables, which satisfy the invariant |
| Roleplay.RoleplayGame.SetUserInput | app/components/roleplay-game.js:183 | the input box, rendered only while playing, sets the input and nothing else and keeps the invariant |
| Roleplay.RoleplayGame.StartGame | app/components/roleplay-game.js:32-56 | `startGame` performs the opening transition and sends the opening request for the drawn scenario |
| Roleplay.RoleplayGame.SubmitAction | app/components/roleplay-game.js:58-101 | `submitAction` performs the turn transition, sends the turn prompt exactly when the guard accepts, and keeps the invariant; it is callable only while playing, the only view with the button |
| Roleplay.RoleplayGame.ResetGame | app/components/roleplay-game.js:103-109 | `resetGame` performs the reset transition |
| Doodle.TallyBumpsOne | app/components/doodle-duel.js:119-124 | "user" raises only `user`, "ai" only `ai`, anything else only `draws`, each by one; the total rises by one |
| Doodle.TallyAllGrows | app/components/doodle-duel.js:119-124 | over any series of votes no counter goes down and the total grows by the number of votes |
| Doodle.SaveThenLoad | app/components/doodle-duel.js:32-43 | loading after a save gives back the saved record; saving touches no other key; without a saved record the scores are kept |
| Doodle.PromptMentions | app/components/doodle-duel.js:62 | the request names the prompt being drawn |
| Doodle.StartedAsWrittenLosesInterpretation | app/components/doodle-duel.js:45-56 | as written, starting from the waiting view enters drawing with no interpretation and never asks for one |
| Doodle.StartedShowsInterpretation | app/components/doodle-duel.js:45-69 | with the canvas access guarded, the drawing starts with the drawn prompt. The interpretation is cleared during the call, then is the reply or the placeholder; the scores are untouched |
| Doodle.FinishAndVoteKeepShape | app/components/doodle-duel.js:115-127 | finishing moves to comparing and keeps the scores; voting moves back to waiting and keeps the interpretation; finishing keeps `Shape` from a started duel, voting from any state |
| Doodle.LocalStorage.GetItem | app/components/doodle-duel.js:34 | `getItem` returns the stored record under the key, or nothing |
| Doodle.LocalStorage.SetItem | app/components/doodle-duel.js:42 | `setItem` stores the record under the key and changes no other key |
| Doodle.DoodleDuel.constructor | app/components/doodle-duel.js:24-30 | the initial state variables, scores 0/0/0 |
| Doodle.DoodleDuel.LoadScores | app/components/doodle-duel.js:32-38 | the mount effect replaces the scores only when a saved record exists |
| Doodle.DoodleDuel.SaveScores | app/components/doodle-duel.js:40-43 | the same record goes to state and to storage under "doodleDuelScores" |
| Doodle.DoodleDuel.StartDuelAsWritten | app/components/doodle-duel.js:45-69 | `startDuel` as written: with no canvas mounted it stops after entering drawing, and sends nothing |
| Doodle.DoodleDuel.StartDuel | app/components/doodle-duel.js:45-69 | `startDuel` with the canvas guarded: the start transition, the request for the drawn prompt, and the invariant |
| Doodle.DoodleDuel.FinishDrawing | app/components/doodle-duel.js:115-117 | `finishDrawing`, whose button is rendered only while drawing, moves to comparing and changes nothing else; it keeps the invariant when it held, and does not need an interpretation to be present |
| Doodle.DoodleDuel.Vote | app/components/doodle-duel.js:119-127 | `vote` tallies a copy, stores the same record in state and storage, and returns to waiting; it is callable while comparing with no call in flight, with or without an interpretation, and establishes the invariant |
| Doodle.VoteThenReload | app/components/doodle-duel.js:32-43 | a component mounted afresh over the same storage after a vote in the comparing view shows the voted scores |
| Doodle.DuelAsWritten | app/components/doodle-duel.js:45-127 | start as written from the waiting view, then "Done Drawing!", then a vote: no request is sent, the comparing view shows the drawn prompt with no interpretation, and the vote is still tallied and saved |
| Creativity.PromptMentions | src/components/creativity-prompt.js:61 | the request names the challenge |
| Creativity.TickRule | src/components/creativity-prompt.js:38-44 | at one second or less a tick ends the round with the clock at 0; otherwise it takes off exactly one second. Nothing else changes, and the invariant 0..60 is kept |
| Creativity.TickRunsWhileActive | src/components/creativity-prompt.js:36 | under the invariant the interval is armed exactly while a round is active |
| Creativity.CountdownFrom | src/components/creativity-prompt.js:34-48 | counting down from t seconds, the round stays active with t - n left before t ticks and is being compared at 0 after exactly t |
| Creativity.FullRound | src/components/creativity-prompt.js:34-54 | a round that runs its course is active for 59 ticks and ends on the sixtieth |
| Creativity.StartedResets | src/components/creativity-prompt.js:50-70 | starting makes the round active with 60 seconds and clears both responses during the call. Afterwards the AI's answer or the apology is shown and the busy flag is down |
| Creativity.SubmitEarlyIff | src/components/creativity-prompt.js:72-76 | an early submit moves to comparing exactly when the response has a non-whitespace character, and otherwise changes nothing |
| Creativity.SkipAndRenew | src/components/creativity-prompt.js:78-84 | skipping always moves to comparing, renewing always to waiting, and neither clears any field |
| Creativity.ResponseBoxEnabledWhileActive | src/components/creativity-prompt.js:141 | under the invariant the clock never reads 0 while the response box is shown |
| Creativity.FormatTimeReadsBack | src/components/creativity-prompt.js:86-88 | the clock text is the minutes, a colon and two digits of seconds, and reads back as the number of seconds |
| Creativity.FormatTimeExamples | src/components/creativity-prompt.js:86-88 | 60 shows as "1:00", 5 as "0:05" |
| Creativity.TimerColor | src/components/creativity-prompt.js:90-94 | green exactly above 30, yellow exactly from 11 to 30, red exactly at 10 or below |
| Creativity.CreativityPrompt.constructor | src/components/creativity-prompt.js:27-32 | the initial state variables, clock at 60 |
| Creativity.CreativityPrompt.SetUserResponse | src/components/creativity-prompt.js:136-142 | the response box sets the response and nothing else, callable only while the box is shown and enabled, and keeps the invariant |
| Creativity.CreativityPrompt.Tick | src/components/creativity-prompt.js:37-45 | one firing of the interval performs the tick rule and keeps the invariant |
| Creativity.CreativityPrompt.StartChallenge | src/components/creativity-prompt.js:50-70 | `startChallenge` performs the start transition and sends the request for the drawn challenge |
| Creativity.CreativityPrompt.SubmitEarly | src/components/creativity-prompt.js:72-76 | `submitEarly`, whose button is rendered only while active, performs the guarded move to comparing and keeps the invariant |
| Creativity.CreativityPrompt.SkipChallenge | src/components/creativity-prompt.js:78-80 | `skipChallenge`, whose button is rendered only while active, moves to comparing and keeps the invariant |
| Creativity.CreativityPrompt.NewChallenge | src/components/creativity-prompt.js:82-84 | `newChallenge`, whose button is rendered only while comparing, moves to waiting and keeps the invariant |
| RoastToast.MessageType | app/components/roast-toast.js:30 | the type is "roast" exactly when roasting and "toast" exactly otherwise |
| RoastToast.Target | app/components/roast-toast.js:31 | the target is the name as typed when non-empty, otherwise "this person" |
| RoastToast.Adjective | app/components/roast-toast.js:34 | "uplifting and sweet" for nice, "witty and playfully teasing" for sarcastic, "completely absurd and random" otherwise |
| RoastToast.PromptMentions | app/components/roast-toast.js:34 | the request names the tone, the type, the target and the tone's manner |
| RoastToast.FallbackByType | app/components/roast-toast.js:41-43 | the failure text depends on the type alone: fire emoji and "probably awesome anyway" for a roast, party popper and "definitely amazing" for a toast |
| RoastToast.GenerateOutcome | app/components/roast-toast.js:24-47 | with no tone nothing happens. Otherwise the result is cleared during the call, and the busy flag is down afterwards on both paths. The result is the reply with the effect shown, or the fallback for the type |
| RoastToast.ButtonMatchesGuard | app/components/roast-toast.js:139 | the button is enabled only with a tone selected and no call in flight; with no tone the handler is a no-op |
| RoastToast.RoastToastGame.constructor | app/components/roast-toast.js:17-22 | the initial state variables |
| RoastToast.RoastToastGame.SelectTone | app/components/roast-toast.js:95 | a tone button selects that tone id |
| RoastToast.RoastToastGame.SetUserName | app/components/roast-toast.js:110 | the name box sets the name |
| RoastToast.RoastToastGame.SetIsRoast | app/components/roast-toast.js:120-128 | the two buttons set roast or toast |
| RoastToast.RoastToastGame.GenerateMessage | app/components/roast-toast.js:24-47 | `generateMessage` performs the generate transition and sends the request exactly when a tone is selected |
| RoastToast.RoastToastGame.HideEffect | app/components/roast-toast.js:39 | the timeout hides the effect |
| Haiku.Inspiration | src/components/haiku-generator.js:39 | the page title whenever it is chosen, even empty; otherwise the theme, or "life" when the theme is empty |
| Haiku.EnabledUsesTheme | src/components/haiku-generator.js:131 | the button is disabled while generating or with an empty custom theme; through it a custom-theme haiku is always on the theme as typed |
| Haiku.PromptMentions | src/components/haiku-generator.js:42 | the request embeds the inspiration |
| Haiku.FallbackHasThreeLines | src/components/haiku-generator.js:47 | the fallback has exactly two line breaks between its three fixed lines |
| Haiku.GenerateOutcome | src/components/haiku-generator.js:32-51 | the haiku is cleared during the call, and the background is the one drawn from the list. Afterwards the haiku is the reply or the fallback and the busy flag is down |
| Haiku.HaikuGenerator.constructor | src/components/haiku-generator.js:20-25 | the initial state variables, background the first theme |
| Haiku.HaikuGenerator.ReadTabTitle | src/components/haiku-generator.js:27-30 | the mount effect stores the document's title |
| Haiku.HaikuGenerator.SetTheme | src/components/haiku-generator.js:123 | the theme box sets the theme |
| Haiku.HaikuGenerator.SetUseTabTitle | src/components/haiku-generator.js:103-107 | the two buttons choose page title or custom theme |
| Haiku.HaikuGenerator.GenerateHaiku | src/components/haiku-generator.js:32-51 | `generateHaiku` performs the generate transition, sends the request for the chosen inspiration, and keeps the background in the list |

## Left out

- The HTTP client in app/utils/deepseek-api.js is not modelled: `fetch`, the bearer key, the system message, JSON and `temperature`/`max_tokens`. A call is only its outcome, a text or a rejection. The rule that empty content becomes the default text is `Gateway.ContentOrDefault`, and `Gateway.Resolved` builds the outcome from it. A successful outcome may itself be that default text. The handlers accept any `Outcome`, including `Ok("")`, which the client never produces (`Gateway.Producible`). This over-approximation only adds cases: every statement about the handlers holds for the outcomes the client can produce too.
- app/page.js is not part of this model. It only lays out the tabs.
- Canvas drawing is not modelled: `setupCanvas`, `startDrawing`, `draw`, `stopDrawing`, the `isDrawing` flag, the Clear button and `downloadHaiku`'s image. These are pixel side effects. The only canvas fact kept is whether a `<canvas>` is mounted (`Doodle.CanvasMounted`), because it decides the finding below.
- Timer scheduling is not modelled: `setInterval`, `clearInterval` and `setTimeout`. The interval's callback is `Creativity.CreativityPrompt.Tick`, callable only while the effect's guard holds. The three-second timeout is `RoastToast.RoastToastGame.HideEffect`. A tick that races a state change is not modelled.
- Each async handler runs atomically with the outcome of its call. The state while a call is in flight is described by the `…Pending` functions and the lemmas about them. Other events arriving during a call (a reset, a second start, typing) are not modelled, and the code has no guard against stale replies.
- The browser's storage holds decoded score records, keyed by name. JSON encoding is not modelled. So is the error `JSON.parse` raises on malformed stored data: such data cannot be expressed in this model.
- `Math.random` is replaced by index parameters. `document.title` is replaced by a parameter of `ReadTabTitle`. Clipboard and `navigator.share` are not modelled, and neither are JSX rendering, styling and the tone effect classes. View conditions are used only where they decide which handlers can fire.
- Pressing Enter in the roleplay input (`handleKeyPress`) calls `submitAction`, so it is the same method.
- Score counters are unbounded naturals. JavaScript numbers stay exact far beyond any reachable count.
- Strings are sequences of Unicode code points, not UTF-16 code units, so an emoji is one character here and two units in JavaScript. `RoastToast.FallbackByType`'s "opens with" is stated in code points.
- A comment in src/components/creativity-prompt.js:27 lists a "finished" state that the code never sets, so `Creativity.Phase` has three values.

## Findings

| source | as written | input that shows it | evidently intended | confidence | as-written member | corrected member |
|---|---|---|---|---|---|---|
| app/components/doodle-duel.js:52-56 | `startDuel` reads `canvasRef.current` and calls `canvas.getContext("2d")` with no null check. The only `<canvas>` elements are rendered in the drawing and comparing views | click "Start a Doodle Duel!" in the waiting view, the only view that shows the button. No canvas is mounted, so `canvasRef.current` is null and `getContext` throws. The handler stops after entering drawing with `aiImage` null, before the AI call. The comparing view then shows an empty interpretation | clear the canvas only when it exists, as the effect at line 131 does, and always ask for the AI's interpretation | high; not executed | Doodle.StartedAsWrittenLosesInterpretation | Doodle.StartedShowsInterpretation |
