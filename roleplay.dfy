/** The random roleplay game (app/components/roleplay-game.js): a scenario is
    drawn, the narrator opens, and the player gets exactly three turns, each
    answered by the narrator, the third with a conclusion. */
module Roleplay {
  import opened Text
  import opened Gateway

  /** The curated scenarios `startGame` draws from. */
  const Scenarios: seq<string> := [
    "You're a grumpy cactus running for mayor in a human town",
    "You're a space cat detective solving a chocolate theft on Mars",
    "You're a time-traveling barista who accidentally served coffee to dinosaurs",
    "You're a superhero whose only power is making really good sandwiches",
    "You're a dragon who's terrible at being scary and just wants to make friends",
    "You're a robot butler in a haunted mansion where the ghosts are surprisingly polite",
    "You're a pirate captain whose crew consists entirely of rubber ducks",
    "You're a wizard who can only cast spells that make things slightly more convenient",
    "You're a vampire who's allergic to blood and has to find alternative food sources",
    "You're an alien anthropologist studying human behavior at a shopping mall"
  ]

  /** The number of player turns in one adventure. */
  const TurnBudget: nat := 3

  /** `gameState`: "waiting", "playing" or "finished". */
  datatype GameState = Waiting | Playing | Finished

  /** The `type` of a conversation entry: "user" or "ai". */
  datatype Speaker = User | Ai

  /** One conversation entry, `{ type, content }`. */
  datatype Message = Message(speaker: Speaker, content: string)

  function SpeakerType(s: Speaker): (r: string)
    ensures r == "user" <==> s == User
  {
    match s
    case User => "user"
    case Ai => "ai"
  }

  /** One transcript line, `${msg.type}: ${msg.content}`. */
  function TranscriptLine(m: Message): string {
    SpeakerType(m.speaker) + ": " + m.content
  }

  /** The transcript embedded in a turn prompt: every entry's line, in order,
      joined by newlines. */
  function Transcript(conv: seq<Message>): string {
    if |conv| == 0 then ""
    else if |conv| == 1 then TranscriptLine(conv[0])
    else TranscriptLine(conv[0]) + ("\n" + Transcript(conv[1..]))
  }

  /** Every entry of the conversation appears, as its "type: content" line, in
      the transcript. */
  lemma {:induction false} TranscriptMentions(conv: seq<Message>, k: nat)
    requires k < |conv|
    ensures Contains(Transcript(conv), TranscriptLine(conv[k]))
  {
    var line := TranscriptLine(conv[0]);
    if |conv| == 1 {
      assert OccursAt(Transcript(conv), line, 0);
    } else if k == 0 {
      ContainsPrefix(line, "\n" + Transcript(conv[1..]));
    } else {
      TranscriptMentions(conv[1..], k - 1);
      ContainsAfter("\n", Transcript(conv[1..]), TranscriptLine(conv[k]));
      ContainsAfter(line, "\n" + Transcript(conv[1..]), TranscriptLine(conv[k]));
    }
  }

  const OpeningHead: string :=
    "You're a creative narrator for a short, silly roleplay game. The scenario is: \""
  const OpeningTail: string :=
    "\". Start the adventure with an engaging opening scene (2-3 sentences) and ask the player what they do first. Keep it fun and lighthearted."
  const WelcomeHead: string := "Welcome to your adventure! "
  const WelcomeTail: string :=
    ". The scene is set, and everyone is looking at you expectantly. What do you do first?"

  /** The request for the opening scene. */
  function OpeningPrompt(scenario: string): string {
    OpeningHead + scenario + OpeningTail
  }

  /** The opening entry's text: the narrator's reply, or a fixed welcome when
      the call fails. */
  function OpeningReply(scenario: string, outcome: Outcome): string {
    TextOr(outcome, WelcomeHead + scenario + WelcomeTail)
  }

  /** Both the opening request and the fixed welcome name the scenario, and a
      successful call's text is taken as it is. */
  lemma OpeningMentions(scenario: string, outcome: Outcome)
    ensures Contains(OpeningPrompt(scenario), scenario)
    ensures outcome.Err? ==> Contains(OpeningReply(scenario, outcome), scenario)
    ensures outcome.Ok? ==> OpeningReply(scenario, outcome) == outcome.text
  {
    ContainsMiddle(OpeningHead, scenario, OpeningTail);
    ContainsMiddle(WelcomeHead, scenario, WelcomeTail);
  }

  /** "turn N/3", the turn label of a turn prompt. */
  function TurnLabel(n: nat): string {
    "turn " + NatToString(n) + "/3"
  }

  const TurnHead: string := "Continue this roleplay story. Scenario: \""
  const TurnMid: string := "\". Previous conversation: "
  const FinalTurnIntro: string := ". This is the final turn ("
  const FinalTurnAsk: string := "). Provide an entertaining "
  const FinalTurnTail: string := " to the adventure. Keep it brief and fun."
  const NextTurnIntro: string := ". This is "
  const NextTurnRequest: string :=
    ". Respond in character as the narrator, describe what happens, and ask what the player does next. Keep it brief and entertaining."

  const Conclusion: string := "conclusion"

  /** The closing request of a turn prompt: a conclusion from the third turn on,
      otherwise the turn label and a request to continue. */
  function TurnRequest(newTurnCount: nat): string {
    if newTurnCount >= TurnBudget
    then FinalTurnIntro + (TurnLabel(TurnBudget) + (FinalTurnAsk + (Conclusion + FinalTurnTail)))
    else NextTurnIntro + (TurnLabel(newTurnCount) + NextTurnRequest)
  }

  /** The closing request asks for a conclusion on turn "3/3" and names the
      turn before it. */
  lemma TurnRequestMentions(newTurnCount: nat)
    ensures newTurnCount >= TurnBudget ==>
              Contains(TurnRequest(newTurnCount), "turn 3/3")
              && Contains(TurnRequest(newTurnCount), "conclusion")
    ensures newTurnCount < TurnBudget ==> Contains(TurnRequest(newTurnCount), TurnLabel(newTurnCount))
  {
    if newTurnCount >= TurnBudget {
      var finalLabel := TurnLabel(TurnBudget);
      var ask := FinalTurnAsk + (Conclusion + FinalTurnTail);
      assert finalLabel == "turn 3/3" by {
        assert NatToString(3) == "3";
      }
      ContainsPrefix(finalLabel, ask);
      ContainsAfter(FinalTurnIntro, finalLabel + ask, finalLabel);
      ContainsPrefix(Conclusion, FinalTurnTail);
      ContainsAfter(FinalTurnAsk, Conclusion + FinalTurnTail, Conclusion);
      ContainsAfter(finalLabel, ask, Conclusion);
      ContainsAfter(FinalTurnIntro, finalLabel + ask, Conclusion);
    } else {
      ContainsPrefix(TurnLabel(newTurnCount), NextTurnRequest);
      ContainsAfter(NextTurnIntro, TurnLabel(newTurnCount) + NextTurnRequest, TurnLabel(newTurnCount));
    }
  }

  /** The request sent for player turn `newTurnCount`: the scenario, every entry
      of the conversation so far (the player's new entry included), then the
      closing request. */
  function TurnPrompt(scenario: string, conv: seq<Message>, newTurnCount: nat): string {
    TurnHead + (scenario + (TurnMid + (Transcript(conv) + TurnRequest(newTurnCount))))
  }

  /** Whatever the transcript or the closing request contains, the turn prompt
      contains. */
  lemma TurnPromptEmbeds(scenario: string, conv: seq<Message>, newTurnCount: nat, t: string)
    requires Contains(Transcript(conv), t) || Contains(TurnRequest(newTurnCount), t)
    ensures Contains(TurnPrompt(scenario, conv, newTurnCount), t)
  {
    var transcript := Transcript(conv);
    var request := TurnRequest(newTurnCount);
    if Contains(transcript, t) {
      ContainsBefore(transcript, request, t);
    } else {
      ContainsAfter(transcript, request, t);
    }
    ContainsAfter(TurnMid, transcript + request, t);
    ContainsAfter(scenario, TurnMid + (transcript + request), t);
    ContainsAfter(TurnHead, scenario + (TurnMid + (transcript + request)), t);
  }

  /** What a turn prompt tells the narrator: the scenario, every prior entry as a
      "type: content" line, and which turn this is: on the last turn
      "turn 3/3" with a request for a conclusion, before it "turn N/3". */
  lemma TurnPromptMentions(scenario: string, conv: seq<Message>, newTurnCount: nat)
    ensures Contains(TurnPrompt(scenario, conv, newTurnCount), scenario)
    ensures forall k :: 0 <= k < |conv| ==>
              Contains(TurnPrompt(scenario, conv, newTurnCount), TranscriptLine(conv[k]))
    ensures newTurnCount >= TurnBudget ==>
              Contains(TurnPrompt(scenario, conv, newTurnCount), "turn 3/3")
              && Contains(TurnPrompt(scenario, conv, newTurnCount), "conclusion")
    ensures newTurnCount < TurnBudget ==>
              Contains(TurnPrompt(scenario, conv, newTurnCount), TurnLabel(newTurnCount))
  {
    var rest := TurnMid + (Transcript(conv) + TurnRequest(newTurnCount));
    ContainsPrefix(scenario, rest);
    ContainsAfter(TurnHead, scenario + rest, scenario);
    forall k | 0 <= k < |conv|
      ensures Contains(TurnPrompt(scenario, conv, newTurnCount), TranscriptLine(conv[k]))
    {
      TranscriptMentions(conv, k);
      TurnPromptEmbeds(scenario, conv, newTurnCount, TranscriptLine(conv[k]));
    }
    TurnRequestMentions(newTurnCount);
    if newTurnCount >= TurnBudget {
      TurnPromptEmbeds(scenario, conv, newTurnCount, "turn 3/3");
      TurnPromptEmbeds(scenario, conv, newTurnCount, "conclusion");
    } else {
      TurnPromptEmbeds(scenario, conv, newTurnCount, TurnLabel(newTurnCount));
    }
  }

  /** A request to the narrator, as the handler builds it; `Text` renders it
      into the prompt string that is sent. */
  datatype Prompt =
    | OpeningScene(scenario: string)
    | NextTurn(scenario: string, conversation: seq<Message>, newTurnCount: nat)
  {
    function Text(): string {
      match this
      case OpeningScene(scenario) => OpeningPrompt(scenario)
      case NextTurn(scenario, conversation, newTurnCount) => TurnPrompt(scenario, conversation, newTurnCount)
    }
  }

  const FinalFallback: string := "And so your adventure comes to a wonderfully chaotic end! Thanks for playing!"
  const NextFallback: string := "Something unexpected happens... What do you do next?"

  /** The narrator's answer to player turn `newTurnCount`: the generated text,
      or on failure a fixed ending on the last turn and a fixed plot twist
      before it. */
  function TurnReply(outcome: Outcome, newTurnCount: nat): (r: string)
    ensures outcome.Ok? ==> r == outcome.text
    ensures outcome.Err? ==> r == if newTurnCount >= TurnBudget then FinalFallback else NextFallback
  {
    TextOr(outcome, if newTurnCount >= TurnBudget then FinalFallback else NextFallback)
  }

  /** The guard of `submitAction`: the trimmed input is non-empty and the turn
      budget is not used up. */
  predicate Accepts(userInput: string, turnCount: nat) {
    !IsBlank(userInput) && turnCount < TurnBudget
  }

  /** The guard rejects exactly the inputs made only of whitespace, and every
      input once three turns are played. */
  lemma AcceptsIff(userInput: string, turnCount: nat)
    ensures Accepts(userInput, turnCount)
            <==> turnCount < 3 && exists k :: 0 <= k < |userInput| && !IsWhitespace(userInput[k])
  {
    BlankIffAllWhitespace(userInput);
  }

  /** The enable condition of "Submit Action". */
  predicate CanSubmit(userInput: string, isGenerating: bool, turnCount: nat) {
    !(IsBlank(userInput) || isGenerating || turnCount >= TurnBudget)
  }

  /** The button is enabled exactly when the handler's guard would accept the
      input and no reply is awaited; Enter in the input box reaches the same
      handler with only the handler's guard in front of it. */
  lemma ButtonMatchesGuard(userInput: string, isGenerating: bool, turnCount: nat)
    ensures CanSubmit(userInput, isGenerating, turnCount) <==> Accepts(userInput, turnCount) && !isGenerating
  {
  }

  /** The narrator speaks at even positions, the player at odd ones. */
  ghost predicate Alternates(conv: seq<Message>) {
    forall k :: 0 <= k < |conv| ==> conv[k].speaker == (if k % 2 == 0 then Ai else User)
  }

  /** The component's state variables. */
  datatype Session = Session(
    gameState: GameState,
    scenario: string,
    conversation: seq<Message>,
    userInput: string,
    turnCount: nat,
    isGenerating: bool)

  /** The initial values of the state variables. */
  const Initial: Session := Session(Waiting, "", [], "", 0, false)

  /** The adventure's invariant: at most three turns; while waiting nothing is
      recorded; otherwise the conversation is the opening plus one player
      entry and one narrator entry per turn, alternating, and the game is
      finished exactly when the budget is used up. */
  ghost predicate Shape(s: Session) {
    && s.turnCount <= TurnBudget
    && Alternates(s.conversation)
    && (s.gameState == Waiting ==> s.conversation == [] && s.turnCount == 0)
    && (s.gameState != Waiting ==> |s.conversation| == 1 + 2 * s.turnCount)
    && (s.gameState == Finished <==> s.turnCount == TurnBudget)
  }

  /** `startGame` up to the awaited call. */
  function OpeningPending(s: Session, randomScenario: string): Session {
    s.(scenario := randomScenario, gameState := Playing, conversation := [],
       turnCount := 0, userInput := "", isGenerating := true)
  }

  /** `startGame` after the awaited call, on either path. */
  function OpeningSettled(s: Session, randomScenario: string, outcome: Outcome): Session {
    s.(conversation := [Message(Ai, OpeningReply(randomScenario, outcome))], isGenerating := false)
  }

  /** `startGame` with scenario `i` drawn and the given outcome of its call. */
  function Started(s: Session, i: nat, outcome: Outcome): Session
    requires i < |Scenarios|
  {
    OpeningSettled(OpeningPending(s, Scenarios[i]), Scenarios[i], outcome)
  }

  /** While the opening is being generated the game is already playing, with
      no entry and no turn; once it resolves, on the success and the failure
      path alike, the conversation is exactly one narrator entry and the
      invariant holds, whatever the state before. */
  lemma StartedOpens(s: Session, i: nat, outcome: Outcome)
    requires i < |Scenarios|
    ensures var p := OpeningPending(s, Scenarios[i]);
            p.gameState == Playing && p.conversation == [] && p.turnCount == 0 && p.isGenerating
    ensures var r := Started(s, i, outcome);
            && r.gameState == Playing && r.scenario == Scenarios[i] && r.turnCount == 0
            && r.conversation == [Message(Ai, OpeningReply(Scenarios[i], outcome))]
            && r.userInput == "" && !r.isGenerating && Shape(r)
  {
  }

  /** The request `submitAction` sends for an accepted turn. */
  function TurnPromptOf(s: Session): Prompt {
    NextTurn(s.scenario, s.conversation + [Message(User, s.userInput)], s.turnCount + 1)
  }

  /** `submitAction` up to the awaited call, for an accepted input: the
      player's entry is appended as typed and the input cleared. */
  function TurnPending(s: Session): Session {
    s.(conversation := s.conversation + [Message(User, s.userInput)], userInput := "", isGenerating := true)
  }

  /** `submitAction` after the awaited call, on either path, with the
      conversation and turn count the handler captured before the call. */
  function TurnSettled(s: Session, newConversation: seq<Message>, newTurnCount: nat, outcome: Outcome): Session {
    s.(conversation := newConversation + [Message(Ai, TurnReply(outcome, newTurnCount))],
       gameState := if newTurnCount >= TurnBudget then Finished else s.gameState,
       turnCount := newTurnCount, isGenerating := false)
  }

  /** `submitAction` with the given outcome of its call. */
  function Submitted(s: Session, outcome: Outcome): Session {
    if !Accepts(s.userInput, s.turnCount) then s
    else
      var pending := TurnPending(s);
      TurnSettled(pending, pending.conversation, s.turnCount + 1, outcome)
  }

  /** A blank input or a used-up budget changes nothing at all. */
  lemma SubmitRefused(s: Session, outcome: Outcome)
    requires IsBlank(s.userInput) || s.turnCount >= TurnBudget
    ensures Submitted(s, outcome) == s
  {
  }

  /** An accepted turn appends exactly one player entry (the input as typed)
      and one narrator entry after the earlier ones, which it leaves alone;
      it adds one to the turn count, clears the input, and finishes the game
      exactly when the count reaches three, on either path. */
  lemma SubmitAccepted(s: Session, outcome: Outcome)
    requires Accepts(s.userInput, s.turnCount)
    ensures var r := Submitted(s, outcome);
            && r.conversation == s.conversation + [Message(User, s.userInput), Message(Ai, TurnReply(outcome, r.turnCount))]
            && r.conversation[..|s.conversation|] == s.conversation
            && r.turnCount == s.turnCount + 1 && r.turnCount <= TurnBudget
            && r.gameState == (if r.turnCount == TurnBudget then Finished else s.gameState)
            && r.userInput == "" && !r.isGenerating && r.scenario == s.scenario
  {
    var r := Submitted(s, outcome);
    assert r.conversation == s.conversation + [Message(User, s.userInput)] + [Message(Ai, TurnReply(outcome, r.turnCount))];
  }

  /** Every transition of a game in progress keeps the invariant: the
      conversation stays 1 + 2 * turnCount long and alternating, the turn
      count stays within three, and the game is finished exactly at three. */
  lemma SubmitKeepsShape(s: Session, outcome: Outcome)
    requires Shape(s) && s.gameState != Waiting
    ensures Shape(Submitted(s, outcome))
  {
    if Accepts(s.userInput, s.turnCount) {
      var r := Submitted(s, outcome);
      SubmitAccepted(s, outcome);
      forall k | 0 <= k < |r.conversation|
        ensures r.conversation[k].speaker == (if k % 2 == 0 then Ai else User)
      {
        if k < |s.conversation| {
          assert r.conversation[k] == s.conversation[k];
        } else {
          assert k == |s.conversation| || k == |s.conversation| + 1;
        }
      }
    }
  }

  /** `resetGame`. */
  function ResetSession(s: Session): Session {
    s.(gameState := Waiting, scenario := "", conversation := [], userInput := "", turnCount := 0)
  }

  /** A reset returns to the initial state, except for the narrator-busy flag,
      which it leaves as it was. */
  lemma ResetRestoresInitial(s: Session)
    ensures ResetSession(s) == Initial.(isGenerating := s.isGenerating)
    ensures Shape(ResetSession(s))
  {
  }

  /** The player types each input and submits it, one after the other. */
  function Played(s: Session, inputs: seq<string>, replies: seq<Outcome>): Session
    requires |inputs| == |replies|
    decreases |inputs|
  {
    if inputs == [] then s
    else Played(Submitted(s.(userInput := inputs[0]), replies[0]), inputs[1..], replies[1..])
  }

  /** The entries a run of accepted turns adds, from turn `firstTurn` on:
      each input as typed, followed by the narrator's reply to that turn. */
  function TurnEntries(inputs: seq<string>, replies: seq<Outcome>, firstTurn: nat): seq<Message>
    requires |inputs| == |replies|
    decreases |inputs|
  {
    if inputs == [] then []
    else [Message(User, inputs[0]), Message(Ai, TurnReply(replies[0], firstTurn))]
         + TurnEntries(inputs[1..], replies[1..], firstTurn + 1)
  }

  /** Entry `2k` of a run is the `k`-th input, entry `2k + 1` the reply to it. */
  lemma {:induction false} TurnEntriesAt(inputs: seq<string>, replies: seq<Outcome>, firstTurn: nat, k: nat)
    requires |inputs| == |replies| && k < |inputs|
    ensures |TurnEntries(inputs, replies, firstTurn)| == 2 * |inputs|
    ensures TurnEntries(inputs, replies, firstTurn)[2 * k] == Message(User, inputs[k])
    ensures TurnEntries(inputs, replies, firstTurn)[2 * k + 1] == Message(Ai, TurnReply(replies[k], firstTurn + k))
    decreases |inputs|
  {
    if |inputs| == 1 {
      assert TurnEntries(inputs[1..], replies[1..], firstTurn + 1) == [];
    } else if k == 0 {
      TurnEntriesAt(inputs[1..], replies[1..], firstTurn + 1, 0);
    } else {
      TurnEntriesAt(inputs[1..], replies[1..], firstTurn + 1, k - 1);
    }
  }

  /** One accepted input of a run, in the terms `PlayedAppends` needs. */
  lemma SubmitStep(s: Session, input: string, reply: Outcome)
    requires !IsBlank(input) && s.turnCount < TurnBudget
    ensures var r := Submitted(s.(userInput := input), reply);
            && r.turnCount == s.turnCount + 1 && r.scenario == s.scenario
            && r.conversation == s.conversation + [Message(User, input), Message(Ai, TurnReply(reply, s.turnCount + 1))]
  {
    SubmitAccepted(s.(userInput := input), reply);
  }

  /** Playing non-blank inputs within the budget appends, for each input in
      order, the player's entry and the narrator's reply to that turn, after
      the entries already there; every input is accepted, so the turn count
      rises by the number of inputs. */
  lemma {:induction false} PlayedAppends(s: Session, inputs: seq<string>, replies: seq<Outcome>)
    requires |inputs| == |replies| && s.turnCount + |inputs| <= TurnBudget
    requires forall k :: 0 <= k < |inputs| ==> !IsBlank(inputs[k])
    ensures var r := Played(s, inputs, replies);
            && r.turnCount == s.turnCount + |inputs| && r.scenario == s.scenario
            && r.conversation == s.conversation + TurnEntries(inputs, replies, s.turnCount + 1)
    decreases |inputs|
  {
    if inputs == [] {
      assert s.conversation + [] == s.conversation;
    } else {
      var s1 := Submitted(s.(userInput := inputs[0]), replies[0]);
      SubmitStep(s, inputs[0], replies[0]);
      var first := [Message(User, inputs[0]), Message(Ai, TurnReply(replies[0], s.turnCount + 1))];
      var rest := TurnEntries(inputs[1..], replies[1..], s.turnCount + 2);
      assert TurnEntries(inputs, replies, s.turnCount + 1) == first + rest;
      assert forall k :: 0 <= k < |inputs[1..]| ==> inputs[1..][k] == inputs[k + 1];
      PlayedAppends(s1, inputs[1..], replies[1..]);
      assert (s.conversation + first) + rest == s.conversation + (first + rest);
    }
  }

  /** Playing inputs keeps the invariant of a game in progress. */
  lemma {:induction false} PlayedKeepsShape(s: Session, inputs: seq<string>, replies: seq<Outcome>)
    requires Shape(s) && s.gameState != Waiting && |inputs| == |replies|
    ensures var r := Played(s, inputs, replies); Shape(r) && r.gameState != Waiting
    decreases |inputs|
  {
    if inputs != [] {
      var s1 := Submitted(s.(userInput := inputs[0]), replies[0]);
      SubmitKeepsShape(s.(userInput := inputs[0]), replies[0]);
      assert s1.gameState != Waiting;
      PlayedKeepsShape(s1, inputs[1..], replies[1..]);
    }
  }

  /** A whole adventure: once started, three non-blank inputs finish it with
      seven alternating entries (the opening, then each input followed by the
      narrator's reply to that turn), and any further submission changes
      nothing. */
  lemma ThreeTurnsFinish(s: Session, i: nat, opening: Outcome, inputs: seq<string>,
                         replies: seq<Outcome>, extra: string, extraReply: Outcome)
    requires i < |Scenarios|
    requires |inputs| == TurnBudget && |replies| == TurnBudget
    requires forall k :: 0 <= k < |inputs| ==> !IsBlank(inputs[k])
    ensures var r := Played(Started(s, i, opening), inputs, replies);
            && r.gameState == Finished && r.turnCount == TurnBudget
            && |r.conversation| == 7 && Alternates(r.conversation)
            && r.conversation[0] == Message(Ai, OpeningReply(Scenarios[i], opening))
            && (forall k :: 0 <= k < TurnBudget ==>
                  && r.conversation[2 * k + 1] == Message(User, inputs[k])
                  && r.conversation[2 * k + 2] == Message(Ai, TurnReply(replies[k], k + 1)))
            && Submitted(r.(userInput := extra), extraReply) == r.(userInput := extra)
  {
    var s0 := Started(s, i, opening);
    StartedOpens(s, i, opening);
    PlayedAppends(s0, inputs, replies);
    PlayedKeepsShape(s0, inputs, replies);
    var r := Played(s0, inputs, replies);
    var entries := TurnEntries(inputs, replies, 1);
    assert r.conversation == s0.conversation + entries;
    forall k | 0 <= k < TurnBudget
      ensures && r.conversation[2 * k + 1] == Message(User, inputs[k])
              && r.conversation[2 * k + 2] == Message(Ai, TurnReply(replies[k], k + 1))
    {
      TurnEntriesAt(inputs, replies, 1, k);
    }
  }

  class RoleplayGame {
    var gameState: GameState
    var scenario: string
    var conversation: seq<Message>
    var userInput: string
    var turnCount: nat
    var isGenerating: bool

    function State(): Session
      reads this
    {
      Session(gameState, scenario, conversation, userInput, turnCount, isGenerating)
    }

    ghost predicate Valid()
      reads this
    {
      Shape(State())
    }

    constructor ()
      ensures State() == Initial && Valid()
    {
      gameState := Waiting;
      scenario := "";
      conversation := [];
      userInput := "";
      turnCount := 0;
      isGenerating := false;
    }

    /** The input box's change handler; the box is rendered only while
        playing. */
    method SetUserInput(text: string)
      requires gameState == Playing && Valid()
      modifies this`userInput
      ensures State() == old(State()).(userInput := text) && Valid()
    {
      userInput := text;
    }

    /** `startGame`, with the scenario drawn by index `i` and the outcome of the
        call for the opening scene; returns the request it sent. */
    method StartGame(i: nat, outcome: Outcome) returns (prompt: Prompt)
      requires i < |Scenarios|
      modifies this
      ensures State() == Started(old(State()), i, outcome) && Valid()
      ensures prompt == OpeningScene(Scenarios[i])
    {
      var randomScenario := Scenarios[i];
      scenario := randomScenario;
      gameState := Playing;
      conversation := [];
      turnCount := 0;
      userInput := "";
      isGenerating := true;
      assert State() == OpeningPending(old(State()), randomScenario);
      prompt := OpeningScene(randomScenario);
      match outcome {
        case Ok(response) =>
          conversation := [Message(Ai, response)];
        case Err =>
          conversation := [Message(Ai, WelcomeHead + randomScenario + WelcomeTail)];
      }
      isGenerating := false;
      StartedOpens(old(State()), i, outcome);
    }

    /** `submitAction` with the outcome of its call; returns the request it
        sent, or nothing when the guard refused the input. The button and the
        Enter key that call it are rendered only while playing. */
    method SubmitAction(outcome: Outcome) returns (prompt: Option<Prompt>)
      requires gameState == Playing && Valid()
      modifies this
      ensures State() == Submitted(old(State()), outcome) && Valid()
      ensures prompt == if Accepts(old(userInput), old(turnCount)) then Some(TurnPromptOf(old(State()))) else None
    {
      if IsBlank(userInput) || turnCount >= TurnBudget {
        prompt := None;
        return;
      }
      var newConversation := conversation + [Message(User, userInput)];
      conversation := newConversation;
      userInput := "";
      isGenerating := true;
      var newTurnCount := turnCount + 1;
      ghost var pending := State();
      assert pending == TurnPending(old(State()));
      prompt := Some(NextTurn(scenario, newConversation, newTurnCount));
      match outcome {
        case Ok(response) =>
          conversation := newConversation + [Message(Ai, response)];
          if newTurnCount >= TurnBudget {
            gameState := Finished;
          }
        case Err =>
          conversation := newConversation
                          + [Message(Ai, if newTurnCount >= TurnBudget then FinalFallback else NextFallback)];
          if newTurnCount >= TurnBudget {
            gameState := Finished;
          }
      }
      turnCount := newTurnCount;
      isGenerating := false;
      assert State() == TurnSettled(pending, newConversation, newTurnCount, outcome);
      SubmitKeepsShape(old(State()), outcome);
    }

    /** `resetGame`. */
    method ResetGame()
      modifies this
      ensures State() == ResetSession(old(State())) && Valid()
    {
      gameState := Waiting;
      scenario := "";
      conversation := [];
      userInput := "";
      turnCount := 0;
      ResetRestoresInitial(old(State()));
    }
  }
}
