/** Roast or Toast (app/components/roast-toast.js): the player picks a tone and
    roast or toast, optionally names a target, and gets a short message. */
module RoastToast {
  import opened Text
  import opened Gateway

  /** The ids of the tone buttons. */
  const ToneIds: seq<string> := ["nice", "sarcastic", "absurd"]

  const Roast: string := "roast"
  const Toast: string := "toast"
  const Anonymous: string := "this person"

  /** `isRoast ? "roast" : "toast"` */
  function MessageType(isRoast: bool): (r: string)
    ensures r == Roast <==> isRoast
    ensures r == Toast <==> !isRoast
  {
    if isRoast then Roast else Toast
  }

  /** `userName || "this person"`: any non-empty name is kept as typed, even
      one made only of spaces. */
  function Target(userName: string): (r: string)
    ensures userName != [] ==> r == userName
    ensures userName == [] ==> r == Anonymous
    ensures r != []
  {
    if userName != [] then userName else Anonymous
  }

  const NiceAdjective: string := "uplifting and sweet"
  const SarcasticAdjective: string := "witty and playfully teasing"
  const AbsurdAdjective: string := "completely absurd and random"

  /** The manner the prompt asks for: one phrase for "nice", one for
      "sarcastic", and the absurd phrase for every other tone. */
  function Adjective(tone: string): (r: string)
    ensures tone == "nice" ==> r == NiceAdjective
    ensures tone == "sarcastic" ==> r == SarcasticAdjective
    ensures tone != "nice" && tone != "sarcastic" ==> r == AbsurdAdjective
  {
    if tone == "nice" then NiceAdjective
    else if tone == "sarcastic" then SarcasticAdjective
    else AbsurdAdjective
  }

  const RoastClosing: string := "Light teasing only."
  const ToastClosing: string := "Make them feel good!"

  /** The prompt's last sentence, by message type. */
  function Closing(messageType: string): string {
    if messageType == Roast then RoastClosing else ToastClosing
  }

  const RequestHead: string := "Give me a "
  const RequestFor: string := " message for "
  const RequestMiddle: string := ", no more than 40 words. Be entertaining but not offensive. Make it "

  /** The request `generateMessage` sends; `Text` renders it. */
  datatype Prompt = MessageRequest(tone: string, messageType: string, target: string)
  {
    function Text(): string {
      RequestHead + (tone + (" " + (messageType + (RequestFor + (target + (RequestMiddle
      + (Adjective(tone) + (". " + Closing(messageType)))))))))
    }
  }

  /** The request names the tone, the message type and the target, and asks
      for the tone's manner. */
  lemma PromptMentions(tone: string, messageType: string, target: string)
    ensures var p := MessageRequest(tone, messageType, target).Text();
            && Contains(p, tone) && Contains(p, messageType) && Contains(p, target)
            && Contains(p, Adjective(tone))
  {
    var adjective := Adjective(tone);
    var c5 := ". " + Closing(messageType);
    var r4 := adjective + c5;
    var m4 := RequestMiddle + r4;
    var r3 := target + m4;
    var m3 := RequestFor + r3;
    var r2 := messageType + m3;
    var m2 := " " + r2;
    var r1 := tone + m2;
    ContainsPrefix(adjective, c5);
    ContainsAfter(RequestMiddle, r4, adjective);
    ContainsAfter(target, m4, adjective);
    ContainsAfter(RequestFor, r3, adjective);
    ContainsAfter(messageType, m3, adjective);
    ContainsAfter(" ", r2, adjective);
    ContainsAfter(tone, m2, adjective);
    ContainsAfter(RequestHead, r1, adjective);
    ContainsPrefix(target, m4);
    ContainsAfter(RequestFor, r3, target);
    ContainsAfter(messageType, m3, target);
    ContainsAfter(" ", r2, target);
    ContainsAfter(tone, m2, target);
    ContainsAfter(RequestHead, r1, target);
    ContainsPrefix(messageType, m3);
    ContainsAfter(" ", r2, messageType);
    ContainsAfter(tone, m2, messageType);
    ContainsAfter(RequestHead, r1, messageType);
    ContainsPrefix(tone, m2);
    ContainsAfter(RequestHead, r1, tone);
  }

  const Fire: string := "\U{1F525}"
  const PartyPopper: string := "\U{1F389}"
  const FallbackMiddle: string := " Oops! The AI is taking a coffee break. But you're "
  const RoastPraise: string := "probably awesome anyway"
  const ToastPraise: string := "definitely amazing"

  /** The message shown when the call fails. */
  function Fallback(messageType: string): string {
    if messageType == Roast then Fire + FallbackMiddle + RoastPraise + "!"
    else PartyPopper + FallbackMiddle + ToastPraise + "!"
  }

  /** The fallback depends on the message type alone: a roast's opens with a
      fire emoji and calls the player probably awesome anyway, a toast's opens
      with a party popper and calls them definitely amazing. */
  lemma FallbackByType(messageType: string)
    ensures var f := Fallback(messageType);
            && (messageType == Roast ==> f[..1] == Fire && Contains(f, RoastPraise))
            && (messageType != Roast ==> f[..1] == PartyPopper && Contains(f, ToastPraise))
  {
    var f := Fallback(messageType);
    if messageType == Roast {
      ContainsMiddle(Fire + FallbackMiddle, RoastPraise, "!");
    } else {
      ContainsMiddle(PartyPopper + FallbackMiddle, ToastPraise, "!");
    }
  }

  /** The component's state variables. */
  datatype Session = Session(
    selectedTone: string,
    userName: string,
    isRoast: bool,
    result: string,
    isGenerating: bool,
    showEffect: bool)

  /** The initial values of the state variables. */
  const Initial: Session := Session("", "", true, "", false, false)

  /** The tone is unset or one of the button ids, and no call is in flight
      between handlers. */
  predicate Shape(s: Session) {
    (s.selectedTone == "" || s.selectedTone in ToneIds) && !s.isGenerating
  }

  /** The enable condition of the generate button. */
  predicate CanGenerate(selectedTone: string, isGenerating: bool) {
    selectedTone != "" && !isGenerating
  }

  /** The request built from the current state. */
  function PromptOf(s: Session): Prompt {
    MessageRequest(s.selectedTone, MessageType(s.isRoast), Target(s.userName))
  }

  /** `generateMessage` up to the awaited call. */
  function GenerationPending(s: Session): Session {
    s.(isGenerating := true, result := "")
  }

  /** `generateMessage` with the given outcome of its call. */
  function Generated(s: Session, outcome: Outcome): Session {
    if s.selectedTone == "" then s
    else
      var pending := GenerationPending(s);
      match outcome
      case Ok(text) => pending.(result := text, showEffect := true, isGenerating := false)
      case Err => pending.(result := Fallback(MessageType(s.isRoast)), isGenerating := false)
  }

  /** Without a tone nothing happens. With one, the result is cleared while
      the call is in flight and the busy flag is then lowered on either path;
      the result is the message and the effect shows on success, and on
      failure the fallback for the message type, the effect left as it was.
      Tone, name and type are never changed. */
  lemma GenerateOutcome(s: Session, outcome: Outcome)
    ensures s.selectedTone == "" ==> Generated(s, outcome) == s
    ensures s.selectedTone != "" ==>
              GenerationPending(s).result == "" && GenerationPending(s).isGenerating
    ensures var r := Generated(s, outcome);
            s.selectedTone != "" ==>
              && !r.isGenerating
              && (outcome.Ok? ==> r.result == outcome.text && r.showEffect)
              && (outcome.Err? ==> r.result == Fallback(MessageType(s.isRoast)) && r.showEffect == s.showEffect)
    ensures var r := Generated(s, outcome);
            r.selectedTone == s.selectedTone && r.userName == s.userName && r.isRoast == s.isRoast
    ensures Shape(s) ==> Shape(Generated(s, outcome))
  {
  }

  /** With the button enabled the handler always gets past its guard; with no
      tone selected it is both disabled and a no-op. */
  lemma ButtonMatchesGuard(s: Session, outcome: Outcome)
    ensures CanGenerate(s.selectedTone, s.isGenerating) ==> s.selectedTone != ""
    ensures s.selectedTone == "" ==> !CanGenerate(s.selectedTone, s.isGenerating) && Generated(s, outcome) == s
  {
  }

  class RoastToastGame {
    var selectedTone: string
    var userName: string
    var isRoast: bool
    var result: string
    var isGenerating: bool
    var showEffect: bool

    function State(): Session
      reads this
    {
      Session(selectedTone, userName, isRoast, result, isGenerating, showEffect)
    }

    predicate Valid()
      reads this
    {
      Shape(State())
    }

    constructor ()
      ensures State() == Initial && Valid()
    {
      selectedTone := "";
      userName := "";
      isRoast := true;
      result := "";
      isGenerating := false;
      showEffect := false;
    }

    /** A tone button: `setSelectedTone(tone.id)`. */
    method SelectTone(i: nat)
      requires i < |ToneIds|
      modifies this`selectedTone
      ensures State() == old(State()).(selectedTone := ToneIds[i])
      ensures old(Valid()) ==> Valid()
    {
      selectedTone := ToneIds[i];
    }

    /** The name box's change handler. */
    method SetUserName(text: string)
      modifies this`userName
      ensures State() == old(State()).(userName := text)
    {
      userName := text;
    }

    /** The "Roast Me" and "Toast Me" buttons. */
    method SetIsRoast(roast: bool)
      modifies this`isRoast
      ensures State() == old(State()).(isRoast := roast)
    {
      isRoast := roast;
    }

    /** `generateMessage` with the outcome of its call; returns the request it
        sent, or nothing when no tone is selected. */
    method GenerateMessage(outcome: Outcome) returns (prompt: Option<Prompt>)
      modifies this
      ensures State() == Generated(old(State()), outcome)
      ensures prompt == if old(selectedTone) == "" then None else Some(PromptOf(old(State())))
      ensures old(Valid()) ==> Valid()
    {
      if selectedTone == "" {
        prompt := None;
        return;
      }
      isGenerating := true;
      result := "";
      var messageType := MessageType(isRoast);
      var target := Target(userName);
      prompt := Some(MessageRequest(selectedTone, messageType, target));
      match outcome {
        case Ok(response) =>
          result := response;
          showEffect := true;
        case Err =>
          result := Fallback(messageType);
      }
      isGenerating := false;
    }

    /** The three-second timeout set on success: the effect is hidden. */
    method HideEffect()
      modifies this`showEffect
      ensures State() == old(State()).(showEffect := false)
    {
      showEffect := false;
    }
  }
}
