/** The zero-commitment creativity challenge (src/components/creativity-prompt.js):
    a challenge is drawn, a sixty-second countdown runs while the player writes,
    and the player's answer is shown next to the AI's. */
module Creativity {
  import opened Text
  import opened Gateway

  /** The challenges `startChallenge` draws from. */
  const Challenges: seq<string> := [
    "Invent a new fruit with unexpected side effects",
    "Design a T-shirt slogan for introverts",
    "Create a superhero whose power is completely useless",
    "Describe a restaurant that serves only foods that start with the same letter",
    "Invent a new holiday and explain how people celebrate it",
    "Design a product that solves a problem that doesn't exist",
    "Create a dating app for inanimate objects",
    "Describe a world where gravity works backwards on Tuesdays",
    "Invent a new sport that can only be played in elevators",
    "Design a theme park based on everyday chores",
    "Create a social media platform for time travelers",
    "Describe a job interview for becoming a professional cloud watcher"
  ]

  /** The length of one round, in seconds (ticks). */
  const RoundLength: nat := 60

  /** `gameState`: "waiting", "active" or "comparing". */
  datatype Phase = Waiting | Active | Comparing

  const ChallengeHead: string := "Here's a creative challenge: \""
  const ChallengeTail: string :=
    "\". Give me your creative, funny, and original response. Be imaginative and entertaining. Keep it under 150 words."

  /** The request `startChallenge` sends; `Text` renders it. */
  datatype Prompt = ChallengeRequest(challenge: string)
  {
    function Text(): string {
      ChallengeHead + challenge + ChallengeTail
    }
  }

  /** The request names the challenge it is about. */
  lemma PromptMentions(challenge: string)
    ensures Contains(ChallengeRequest(challenge).Text(), challenge)
  {
    ContainsMiddle(ChallengeHead, challenge, ChallengeTail);
  }

  const AiFallback: string :=
    "The AI got distracted by a shiny object and forgot to respond! But I'm sure your idea is brilliant."

  /** The component's state variables. */
  datatype Session = Session(
    gameState: Phase,
    currentChallenge: string,
    userResponse: string,
    aiResponse: string,
    timeLeft: nat,
    isGeneratingAI: bool)

  /** The initial values of the state variables. */
  const Initial: Session := Session(Waiting, "", "", "", RoundLength, false)

  /** The clock never exceeds a full round, and a round in progress always
      has at least one second left. */
  predicate Shape(s: Session) {
    s.timeLeft <= RoundLength && (s.gameState == Active ==> s.timeLeft >= 1)
  }

  /** The guard of the timer effect: an interval is armed only while a round
      is active and time is left. */
  predicate TickRuns(s: Session) {
    s.gameState == Active && s.timeLeft > 0
  }

  /** One run of the interval's updater: at one second or less the round ends
      with the clock at zero, otherwise one second is taken off. */
  function Ticked(s: Session): Session {
    if s.timeLeft <= 1 then s.(gameState := Comparing, timeLeft := 0)
    else s.(timeLeft := s.timeLeft - 1)
  }

  /** A tick either ends the round at zero or takes off exactly one second and
      leaves the round going; it touches nothing else, and keeps the
      invariant. */
  lemma TickRule(s: Session)
    ensures s.timeLeft <= 1 ==> Ticked(s) == s.(gameState := Comparing, timeLeft := 0)
    ensures s.timeLeft > 1 ==> Ticked(s).timeLeft == s.timeLeft - 1 && Ticked(s).gameState == s.gameState
    ensures Ticked(s).currentChallenge == s.currentChallenge && Ticked(s).userResponse == s.userResponse
    ensures Ticked(s).aiResponse == s.aiResponse && Ticked(s).isGeneratingAI == s.isGeneratingAI
    ensures Shape(s) ==> Shape(Ticked(s))
  {
  }

  /** Under the invariant the timer runs exactly while a round is active. */
  lemma TickRunsWhileActive(s: Session)
    requires Shape(s)
    ensures TickRuns(s) <==> s.gameState == Active
  {
  }

  /** `n` seconds of the interval, which stops as soon as its guard fails. */
  function Countdown(s: Session, n: nat): Session
    decreases n
  {
    if n == 0 || !TickRuns(s) then s else Countdown(Ticked(s), n - 1)
  }

  /** Counting down from `t` seconds: before `t` ticks the round is still
      active with the remaining time, after exactly `t` ticks it is being
      compared with the clock at zero; nothing but the phase and the clock
      changes. */
  lemma {:induction false} CountdownFrom(s: Session, n: nat)
    requires s.gameState == Active && 1 <= s.timeLeft && n <= s.timeLeft
    ensures var r := Countdown(s, n);
            && (n < s.timeLeft ==> r.gameState == Active && r.timeLeft == s.timeLeft - n)
            && (n == s.timeLeft ==> r.gameState == Comparing && r.timeLeft == 0)
            && r == s.(gameState := r.gameState, timeLeft := r.timeLeft)
    decreases n
  {
    if n > 0 {
      if s.timeLeft == 1 {
        assert Countdown(Ticked(s), n - 1) == Ticked(s);
      } else {
        CountdownFrom(Ticked(s), n - 1);
      }
    }
  }

  /** A round left to run its course is active for 59 ticks and ends on the
      sixtieth, with the clock at zero. */
  lemma FullRound(s: Session, n: nat)
    requires s.gameState == Active && s.timeLeft == RoundLength
    ensures n < RoundLength ==> Countdown(s, n).gameState == Active
    ensures Countdown(s, RoundLength).gameState == Comparing && Countdown(s, RoundLength).timeLeft == 0
  {
    if n < RoundLength {
      CountdownFrom(s, n);
    }
    CountdownFrom(s, RoundLength);
  }

  /** `startChallenge` up to the awaited call. */
  function ChallengePending(s: Session, challenge: string): Session {
    s.(currentChallenge := challenge, gameState := Active, timeLeft := RoundLength,
       userResponse := "", aiResponse := "", isGeneratingAI := true)
  }

  /** `startChallenge` with challenge `i` drawn and the given outcome of its call. */
  function Started(s: Session, i: nat, outcome: Outcome): Session
    requires i < |Challenges|
  {
    ChallengePending(s, Challenges[i]).(aiResponse := TextOr(outcome, AiFallback), isGeneratingAI := false)
  }

  /** Starting a challenge, from any state: the round is active with a full
      minute and both answers cleared while the AI works; once its call
      settles its answer (or the apology) is shown and it is no longer busy. */
  lemma StartedResets(s: Session, i: nat, outcome: Outcome)
    requires i < |Challenges|
    ensures var p := ChallengePending(s, Challenges[i]);
            && p.gameState == Active && p.timeLeft == RoundLength
            && p.userResponse == "" && p.aiResponse == "" && p.isGeneratingAI
    ensures var r := Started(s, i, outcome);
            && r.gameState == Active && r.timeLeft == RoundLength && r.currentChallenge == Challenges[i]
            && r.userResponse == "" && r.aiResponse == TextOr(outcome, AiFallback) && !r.isGeneratingAI
            && Shape(r) && TickRuns(r)
  {
  }

  /** The enable condition of "Submit Early", the same test as its handler's
      guard. */
  predicate CanSubmitEarly(userResponse: string) {
    !IsBlank(userResponse)
  }

  /** `submitEarly`. */
  function SubmittedEarly(s: Session): Session {
    if CanSubmitEarly(s.userResponse) then s.(gameState := Comparing) else s
  }

  /** An early submission moves to comparing exactly when the response has a
      character that is not whitespace, and otherwise changes nothing; the
      clock and the responses are left alone either way. */
  lemma SubmitEarlyIff(s: Session)
    ensures SubmittedEarly(s).gameState == Comparing
            <==> s.gameState == Comparing || exists k :: 0 <= k < |s.userResponse| && !IsWhitespace(s.userResponse[k])
    ensures SubmittedEarly(s) == s.(gameState := SubmittedEarly(s).gameState)
    ensures !CanSubmitEarly(s.userResponse) ==> SubmittedEarly(s) == s
    ensures Shape(s) ==> Shape(SubmittedEarly(s))
  {
    BlankIffAllWhitespace(s.userResponse);
  }

  /** `skipChallenge`: always to comparing, nothing else changed. */
  function Skipped(s: Session): Session {
    s.(gameState := Comparing)
  }

  /** `newChallenge`: back to waiting; the challenge, the responses and the
      clock are kept as they were. */
  function Renewed(s: Session): Session {
    s.(gameState := Waiting)
  }

  /** Skipping ends the round and renewing returns to waiting, whatever the
      state; neither clears a field, and both keep the invariant. */
  lemma SkipAndRenew(s: Session)
    ensures Skipped(s).gameState == Comparing && Renewed(s).gameState == Waiting
    ensures Skipped(s) == s.(gameState := Comparing) && Renewed(s) == s.(gameState := Waiting)
    ensures Shape(s) ==> Shape(Skipped(s)) && Shape(Renewed(s))
  {
  }

  /** The response box is disabled when the clock reads zero; under the
      invariant it never is while a round is active, the only time it is
      shown. */
  lemma ResponseBoxEnabledWhileActive(s: Session)
    requires Shape(s) && s.gameState == Active
    ensures s.timeLeft != 0
  {
  }

  /** `formatTime(seconds)`: whole minutes, a colon, then the remaining seconds
      padded to two digits. */
  function FormatTime(seconds: nat): string {
    NatToString(seconds / 60) + (":" + PadStart(NatToString(seconds % 60), 2, '0'))
  }

  /** The seconds field is two digits that read back as the seconds. */
  lemma {:induction false} SecondsField(n: nat)
    requires n < 60
    ensures var ss := PadStart(NatToString(n), 2, '0');
            |ss| == 2 && AllDigits(ss) && ParseNat(ss) == n
  {
    var d := NatToString(n);
    var ss := PadStart(d, 2, '0');
    ParseNatToString(n);
    if n < 10 {
      assert ss == ['0'] + d;
      assert ss[..1] == ['0'];
      assert ParseNat(ss) == 10 * ParseNat(['0']) + DigitValue(ss[1]);
      assert ParseNat(d) == DigitValue(d[0]);
    } else {
      assert ss == d;
    }
  }

  /** The clock reads back as the time it shows: the digits before the colon
      are the whole minutes, the last two digits the seconds past them. */
  lemma {:induction false} FormatTimeReadsBack(seconds: nat)
    ensures var r := FormatTime(seconds);
            && |r| >= 4 && r[|r| - 3] == ':'
            && AllDigits(r[..|r| - 3]) && AllDigits(r[|r| - 2..])
            && ParseNat(r[..|r| - 3]) == seconds / 60
            && ParseNat(r[|r| - 2..]) == seconds % 60
            && 60 * ParseNat(r[..|r| - 3]) + ParseNat(r[|r| - 2..]) == seconds
  {
    var m := NatToString(seconds / 60);
    var ss := PadStart(NatToString(seconds % 60), 2, '0');
    var r := FormatTime(seconds);
    SecondsField(seconds % 60);
    ParseNatToString(seconds / 60);
    assert r[..|r| - 3] == m;
    assert r[|r| - 2..] == ss;
  }

  /** A full minute shows as "1:00" and five seconds as "0:05". */
  lemma FormatTimeExamples()
    ensures FormatTime(60) == "1:00"
    ensures FormatTime(5) == "0:05"
  {
    assert NatToString(1) == "1";
    assert NatToString(0) == "0";
    assert NatToString(5) == "5";
  }

  const Green: string := "text-green-600"
  const Yellow: string := "text-yellow-600"
  const Red: string := "text-red-600"

  /** `getTimerColor()`: the colour class of the clock. */
  function TimerColor(timeLeft: int): (r: string)
    ensures r == Green <==> timeLeft > 30
    ensures r == Yellow <==> 10 < timeLeft <= 30
    ensures r == Red <==> timeLeft <= 10
  {
    if timeLeft > 30 then Green
    else if timeLeft > 10 then Yellow
    else Red
  }

  class CreativityPrompt {
    var gameState: Phase
    var currentChallenge: string
    var userResponse: string
    var aiResponse: string
    var timeLeft: nat
    var isGeneratingAI: bool

    function State(): Session
      reads this
    {
      Session(gameState, currentChallenge, userResponse, aiResponse, timeLeft, isGeneratingAI)
    }

    predicate Valid()
      reads this
    {
      Shape(State())
    }

    constructor ()
      ensures State() == Initial && Valid()
    {
      gameState := Waiting;
      currentChallenge := "";
      userResponse := "";
      aiResponse := "";
      timeLeft := RoundLength;
      isGeneratingAI := false;
    }

    /** The response box's change handler; the box is shown only while a
        round is active and is disabled when the clock reads zero. */
    method SetUserResponse(text: string)
      requires gameState == Active && timeLeft != 0 && Valid()
      modifies this`userResponse
      ensures State() == old(State()).(userResponse := text) && Valid()
    {
      userResponse := text;
    }

    /** One firing of the interval, which is armed only while the effect's
        guard holds. */
    method Tick()
      requires TickRuns(State()) && Valid()
      modifies this
      ensures State() == Ticked(old(State())) && Valid()
    {
      var prev := timeLeft;
      if prev <= 1 {
        gameState := Comparing;
        timeLeft := 0;
      } else {
        timeLeft := prev - 1;
      }
    }

    /** `startChallenge`, with the challenge drawn by index `i` and the outcome
        of the call for the AI's answer; returns the request it sent. */
    method StartChallenge(i: nat, outcome: Outcome) returns (prompt: Prompt)
      requires i < |Challenges|
      modifies this
      ensures State() == Started(old(State()), i, outcome) && Valid()
      ensures prompt == ChallengeRequest(Challenges[i])
    {
      var challenge := Challenges[i];
      currentChallenge := challenge;
      gameState := Active;
      timeLeft := RoundLength;
      userResponse := "";
      aiResponse := "";
      isGeneratingAI := true;
      prompt := ChallengeRequest(challenge);
      match outcome {
        case Ok(response) =>
          aiResponse := response;
        case Err =>
          aiResponse := AiFallback;
      }
      isGeneratingAI := false;
    }

    /** `submitEarly`; its button is rendered only while a round is active. */
    method SubmitEarly()
      requires gameState == Active && Valid()
      modifies this`gameState
      ensures State() == SubmittedEarly(old(State())) && Valid()
    {
      if !IsBlank(userResponse) {
        gameState := Comparing;
      }
    }

    /** `skipChallenge`; its button is rendered only while a round is active. */
    method SkipChallenge()
      requires gameState == Active && Valid()
      modifies this`gameState
      ensures State() == Skipped(old(State())) && Valid()
    {
      gameState := Comparing;
    }

    /** `newChallenge`; its button is rendered only in the comparing view. */
    method NewChallenge()
      requires gameState == Comparing && Valid()
      modifies this`gameState
      ensures State() == Renewed(old(State())) && Valid()
    {
      gameState := Waiting;
    }
  }
}
