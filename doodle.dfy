/** The doodle duel (app/components/doodle-duel.js): the player draws a prompt
    while the AI describes its own take, then the player votes, and the
    win/loss/draw record is kept in the browser's storage. */
module Doodle {
  import opened Text
  import opened Gateway

  /** The prompts `startDuel` draws from. */
  const DrawingPrompts: seq<string> := [
    "a futuristic toaster",
    "a cat wearing a business suit",
    "a tree made of candy",
    "a robot doing yoga",
    "a pizza slice surfing",
    "a dragon reading a book",
    "a house on wheels",
    "a fish with legs",
    "a cloud with sunglasses",
    "a dancing cactus"
  ]

  /** `gameState`: "waiting", "drawing" or "comparing". */
  datatype Stage = Waiting | Drawing | Comparing

  /** The score record `{ user, ai, draws }`. */
  datatype ScoreRecord = ScoreRecord(user: nat, ai: nat, draws: nat)

  /** The record before anything is loaded or played. */
  const NoScores: ScoreRecord := ScoreRecord(0, 0, 0)

  /** The storage key of the record. */
  const ScoresKey: string := "doodleDuelScores"

  function Total(r: ScoreRecord): nat {
    r.user + r.ai + r.draws
  }

  /** The record after a vote for `winner`: "user" and "ai" credit that side,
      anything else counts as a draw. */
  function Tally(r: ScoreRecord, winner: string): ScoreRecord {
    if winner == "user" then r.(user := r.user + 1)
    else if winner == "ai" then r.(ai := r.ai + 1)
    else r.(draws := r.draws + 1)
  }

  /** A vote raises exactly one counter, the one its winner names (any other
      winner raises the draws), by exactly one, and leaves the other two
      alone; the total rises by one. */
  lemma TallyBumpsOne(r: ScoreRecord, winner: string)
    ensures var t := Tally(r, winner);
            && (t.user == r.user + 1 <==> winner == "user")
            && (t.ai == r.ai + 1 <==> winner == "ai")
            && (t.draws == r.draws + 1 <==> winner != "user" && winner != "ai")
            && (t.user == r.user || t.user == r.user + 1)
            && (t.ai == r.ai || t.ai == r.ai + 1)
            && (t.draws == r.draws || t.draws == r.draws + 1)
            && Total(t) == Total(r) + 1
  {
  }

  /** The record after a series of votes. */
  function TallyAll(r: ScoreRecord, winners: seq<string>): ScoreRecord
    decreases |winners|
  {
    if winners == [] then r else TallyAll(Tally(r, winners[0]), winners[1..])
  }

  /** Over any series of votes no counter goes down and the total grows by the
      number of votes. */
  lemma {:induction false} TallyAllGrows(r: ScoreRecord, winners: seq<string>)
    ensures var t := TallyAll(r, winners);
            && t.user >= r.user && t.ai >= r.ai && t.draws >= r.draws
            && Total(t) == Total(r) + |winners|
    decreases |winners|
  {
    if winners != [] {
      TallyBumpsOne(r, winners[0]);
      TallyAllGrows(Tally(r, winners[0]), winners[1..]);
    }
  }

  /** The storage after `setItem("doodleDuelScores", ...)`. */
  function Stored(items: map<string, ScoreRecord>, r: ScoreRecord): map<string, ScoreRecord> {
    items[ScoresKey := r]
  }

  /** The mount effect's result: the saved record when there is one,
      otherwise the scores as they were. */
  function Loaded(items: map<string, ScoreRecord>, current: ScoreRecord): ScoreRecord {
    if ScoresKey in items then items[ScoresKey] else current
  }

  /** Loading after a save gives back the saved record, whatever was stored
      or held before; saving touches no other key; without a saved record
      loading keeps the current scores. */
  lemma SaveThenLoad(items: map<string, ScoreRecord>, r: ScoreRecord, current: ScoreRecord)
    ensures Loaded(Stored(items, r), current) == r
    ensures forall k :: k in items && k != ScoresKey ==> k in Stored(items, r) && Stored(items, r)[k] == items[k]
    ensures ScoresKey !in items ==> Loaded(items, current) == current
  {
  }

  const DescriptionHead: string := "Create a simple, creative description of "
  const DescriptionTail: string :=
    ". Describe it in vivid detail as if you're drawing it. Keep it under 100 words and make it entertaining."

  /** The request `startDuel` sends; `Text` renders it. */
  datatype Prompt = DescriptionRequest(subject: string)
  {
    function Text(): string {
      DescriptionHead + subject + DescriptionTail
    }
  }

  /** The request names the prompt being drawn. */
  lemma PromptMentions(subject: string)
    ensures Contains(DescriptionRequest(subject).Text(), subject)
  {
    ContainsMiddle(DescriptionHead, subject, DescriptionTail);
  }

  const AiFallback: string :=
    "AI is taking a creative break! Imagine a wonderfully quirky interpretation here."

  /** The component's state variables (the canvas and its stroke flag aside). */
  datatype Session = Session(
    currentPrompt: string,
    gameState: Stage,
    aiImage: Option<string>,
    scores: ScoreRecord,
    isGeneratingAI: bool)

  /** The initial values of the state variables. */
  const Initial: Session := Session("", Waiting, None, NoScores, false)

  /** The duel's invariant between handlers: no call is in flight, and once a
      duel is under way the AI's interpretation is there to show. */
  predicate Shape(s: Session) {
    !s.isGeneratingAI && (s.gameState != Waiting ==> s.aiImage.Some?)
  }

  /** The `<canvas>` is rendered, and `canvasRef.current` set, only in the
      drawing and comparing views. */
  predicate CanvasMounted(gameState: Stage) {
    gameState != Waiting
  }

  /** `startDuel` up to the canvas access. */
  function DuelPending(s: Session, subject: string): Session {
    s.(currentPrompt := subject, gameState := Drawing, aiImage := None)
  }

  /** `startDuel` as written: the canvas is dereferenced unguarded; with no
      canvas mounted `canvas.getContext` throws, and the handler stops there,
      before the call and before `isGeneratingAI` is set. */
  function StartedAsWritten(s: Session, i: nat, outcome: Outcome): Session
    requires i < |DrawingPrompts|
  {
    var pending := DuelPending(s, DrawingPrompts[i]);
    if !CanvasMounted(s.gameState) then pending
    else pending.(aiImage := Some(TextOr(outcome, AiFallback)), isGeneratingAI := false)
  }

  /** `startDuel` with the canvas clearing guarded as the `gameState` effect
      guards it: the call is always made. */
  function Started(s: Session, i: nat, outcome: Outcome): Session
    requires i < |DrawingPrompts|
  {
    DuelPending(s, DrawingPrompts[i]).(aiImage := Some(TextOr(outcome, AiFallback)), isGeneratingAI := false)
  }

  /** From the waiting view, the only place its button is shown, `startDuel`
      as written enters drawing with no interpretation and never asks for
      one, whatever the gateway would have answered: the duel's invariant is
      broken. */
  lemma StartedAsWrittenLosesInterpretation(s: Session, i: nat, outcome: Outcome)
    requires i < |DrawingPrompts| && s.gameState == Waiting
    ensures var r := StartedAsWritten(s, i, outcome);
            && r.gameState == Drawing && r.currentPrompt == DrawingPrompts[i]
            && r.aiImage == None && !Shape(r)
  {
  }

  /** `startDuel`, from any state: the drawing begins with the chosen prompt,
      the interpretation is cleared while the call is in flight and is then
      the generated text, or the fixed placeholder on failure; the scores are
      untouched and the invariant holds. */
  lemma StartedShowsInterpretation(s: Session, i: nat, outcome: Outcome)
    requires i < |DrawingPrompts|
    ensures DuelPending(s, DrawingPrompts[i]).aiImage == None
    ensures var r := Started(s, i, outcome);
            && r.gameState == Drawing && r.currentPrompt == DrawingPrompts[i]
            && r.aiImage == Some(TextOr(outcome, AiFallback)) && !r.isGeneratingAI
            && r.scores == s.scores && Shape(r)
  {
  }

  /** `finishDrawing`. */
  function FinishedDrawing(s: Session): Session {
    s.(gameState := Comparing)
  }

  /** `vote(winner)`: the tallied record replaces the scores, and the duel is
      over. */
  function Voted(s: Session, winner: string): Session {
    s.(scores := Tally(s.scores, winner), gameState := Waiting)
  }

  /** Finishing and voting keep the invariant; finishing changes only the
      view, voting only the scores and the view. */
  lemma FinishAndVoteKeepShape(s: Session, winner: string)
    ensures FinishedDrawing(s).gameState == Comparing && Voted(s, winner).gameState == Waiting
    ensures FinishedDrawing(s).scores == s.scores && Voted(s, winner).aiImage == s.aiImage
    ensures Shape(s) && s.gameState != Waiting ==> Shape(FinishedDrawing(s))
    ensures Shape(s) ==> Shape(Voted(s, winner))
  {
  }

  /** The browser's `localStorage`, holding decoded records. */
  class LocalStorage {
    var items: map<string, ScoreRecord>

    constructor ()
      ensures items == map[]
    {
      items := map[];
    }

    /** `getItem(key)`: the stored record, or nothing. */
    method GetItem(key: string) returns (v: Option<ScoreRecord>)
      ensures key in items ==> v == Some(items[key])
      ensures key !in items ==> v == None
    {
      if key in items {
        v := Some(items[key]);
      } else {
        v := None;
      }
    }

    /** `setItem(key, value)`. */
    method SetItem(key: string, value: ScoreRecord)
      modifies this
      ensures items == old(items)[key := value]
    {
      items := items[key := value];
    }
  }

  class DoodleDuel {
    var currentPrompt: string
    var gameState: Stage
    var aiImage: Option<string>
    var scores: ScoreRecord
    var isGeneratingAI: bool
    const store: LocalStorage

    function State(): Session
      reads this
    {
      Session(currentPrompt, gameState, aiImage, scores, isGeneratingAI)
    }

    predicate Valid()
      reads this
    {
      Shape(State())
    }

    constructor (store: LocalStorage)
      ensures State() == Initial && this.store == store && Valid()
    {
      currentPrompt := "";
      gameState := Waiting;
      aiImage := None;
      scores := NoScores;
      isGeneratingAI := false;
      this.store := store;
    }

    /** The mount effect: a saved record replaces the scores. */
    method LoadScores()
      modifies this`scores
      ensures scores == Loaded(store.items, old(scores))
    {
      var savedScores := store.GetItem(ScoresKey);
      if savedScores.Some? {
        scores := savedScores.value;
      }
    }

    /** `saveScores(newScores)`: the same record in state and in storage. */
    method SaveScores(newScores: ScoreRecord)
      modifies this`scores, store
      ensures scores == newScores && store.items == Stored(old(store.items), newScores)
    {
      scores := newScores;
      store.SetItem(ScoresKey, newScores);
    }

    /** `startDuel` as written, with the prompt drawn by index `i` and the
        outcome the call would have; returns the request it sent, if it got
        that far. */
    method StartDuelAsWritten(i: nat, outcome: Outcome) returns (prompt: Option<Prompt>)
      requires i < |DrawingPrompts|
      modifies this
      ensures State() == StartedAsWritten(old(State()), i, outcome)
      ensures prompt == if CanvasMounted(old(gameState)) then Some(DescriptionRequest(DrawingPrompts[i])) else None
    {
      var subject := DrawingPrompts[i];
      var canvasPresent := CanvasMounted(gameState);
      currentPrompt := subject;
      gameState := Drawing;
      aiImage := None;
      if !canvasPresent {
        prompt := None;
        return;
      }
      isGeneratingAI := true;
      prompt := Some(DescriptionRequest(subject));
      aiImage := Some(TextOr(outcome, AiFallback));
      isGeneratingAI := false;
    }

    /** `startDuel` with the canvas clearing guarded, with the prompt drawn by
        index `i` and the outcome of the call; returns the request it sent. */
    method StartDuel(i: nat, outcome: Outcome) returns (prompt: Prompt)
      requires i < |DrawingPrompts|
      modifies this
      ensures State() == Started(old(State()), i, outcome) && Valid()
      ensures prompt == DescriptionRequest(DrawingPrompts[i])
    {
      var subject := DrawingPrompts[i];
      currentPrompt := subject;
      gameState := Drawing;
      aiImage := None;
      isGeneratingAI := true;
      prompt := DescriptionRequest(subject);
      match outcome {
        case Ok(response) =>
          aiImage := Some(response);
        case Err =>
          aiImage := Some(AiFallback);
      }
      isGeneratingAI := false;
    }

    /** `finishDrawing`; its button is rendered only in the drawing view. */
    method FinishDrawing()
      requires gameState == Drawing
      modifies this`gameState
      ensures State() == FinishedDrawing(old(State()))
      ensures old(Valid()) ==> Valid()
    {
      gameState := Comparing;
    }

    /** `vote(winner)`: tallies a copy of the record, saves it to state and
        storage, and returns to waiting. The vote buttons are rendered only
        in the comparing view. */
    method Vote(winner: string)
      requires gameState == Comparing && !isGeneratingAI
      modifies this, store
      ensures State() == Voted(old(State()), winner) && Valid()
      ensures store.items == Stored(old(store.items), scores)
    {
      var newScores := scores;
      if winner == "user" {
        newScores := newScores.(user := newScores.user + 1);
      } else if winner == "ai" {
        newScores := newScores.(ai := newScores.ai + 1);
      } else {
        newScores := newScores.(draws := newScores.draws + 1);
      }
      SaveScores(newScores);
      gameState := Waiting;
    }
  }

  /** A vote followed by a reload of the page: the component mounted afresh
      over the same storage shows the scores the vote left. */
  method VoteThenReload(duel: DoodleDuel, winner: string) returns (reloaded: DoodleDuel)
    requires duel.gameState == Comparing && !duel.isGeneratingAI
    modifies duel, duel.store
    ensures duel.scores == Tally(old(duel.scores), winner)
    ensures fresh(reloaded) && reloaded.store == duel.store
    ensures reloaded.scores == duel.scores && reloaded.gameState == Waiting
  {
    duel.Vote(winner);
    reloaded := new DoodleDuel(duel.store);
    reloaded.LoadScores();
  }

  /** A duel played through the views as written, from the waiting view:
      "Start a Doodle Duel!", "Done Drawing!", then a vote. The start stops at
      the missing canvas before asking for an interpretation, so the comparing
      view the player votes in has none to show; the vote is still tallied
      and saved. Returns the request sent, if any, and the state the
      comparing view displays. */
  method DuelAsWritten(duel: DoodleDuel, i: nat, outcome: Outcome, winner: string)
    returns (prompt: Option<Prompt>, shown: Session)
    requires i < |DrawingPrompts| && duel.gameState == Waiting && duel.Valid()
    modifies duel, duel.store
    ensures prompt == None
    ensures shown.gameState == Comparing && shown.aiImage == None
    ensures shown.currentPrompt == DrawingPrompts[i] && shown.scores == old(duel.scores)
    ensures duel.scores == Tally(old(duel.scores), winner) && duel.gameState == Waiting
    ensures duel.store.items == Stored(old(duel.store.items), duel.scores)
  {
    prompt := duel.StartDuelAsWritten(i, outcome);
    duel.FinishDrawing();
    shown := duel.State();
    duel.Vote(winner);
  }
}
