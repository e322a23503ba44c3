/** The haiku generator (src/components/haiku-generator.js): a haiku is asked
    for on the page title or a theme of the player's, and shown on a randomly
    chosen background. */
module Haiku {
  import opened Text
  import opened Gateway

  /** The background classes a haiku card is shown on. */
  const BackgroundThemes: seq<string> := [
    "bg-gradient-to-br from-blue-400 to-purple-600",
    "bg-gradient-to-br from-green-400 to-blue-500",
    "bg-gradient-to-br from-purple-400 to-pink-600",
    "bg-gradient-to-br from-yellow-400 to-orange-500",
    "bg-gradient-to-br from-pink-400 to-red-500",
    "bg-gradient-to-br from-indigo-400 to-purple-500"
  ]

  const DefaultTheme: string := "life"

  /** `useTabTitle ? tabTitle : theme || "life"`: the page title whenever it
      is chosen, even an empty one; otherwise the theme, or "life" when the
      theme is empty. */
  function Inspiration(useTabTitle: bool, tabTitle: string, theme: string): (r: string)
    ensures useTabTitle ==> r == tabTitle
    ensures !useTabTitle && theme != [] ==> r == theme
    ensures !useTabTitle && theme == [] ==> r == DefaultTheme
  {
    if useTabTitle then tabTitle else if theme != [] then theme else DefaultTheme
  }

  /** The enable condition of "Generate Haiku": disabled while generating, or
      with a custom theme that is empty. */
  predicate CanGenerate(isGenerating: bool, useTabTitle: bool, theme: string) {
    !(isGenerating || (!useTabTitle && theme == []))
  }

  /** Through the main button a custom-theme haiku is always on the theme as
      typed: the "life" default is reached only through the "New Haiku"
      button, which has no such guard. */
  lemma EnabledUsesTheme(isGenerating: bool, useTabTitle: bool, tabTitle: string, theme: string)
    ensures CanGenerate(isGenerating, useTabTitle, theme) && !useTabTitle ==>
              Inspiration(useTabTitle, tabTitle, theme) == theme
    ensures CanGenerate(isGenerating, useTabTitle, theme) <==>
              !isGenerating && (useTabTitle || theme != [])
    ensures Inspiration(useTabTitle, tabTitle, theme) == DefaultTheme && theme != DefaultTheme ==>
              useTabTitle || !CanGenerate(isGenerating, useTabTitle, theme)
  {
  }

  const RequestHead: string := "Write a beautiful 3-line haiku (5-7-5 syllables) inspired by the theme: \""
  const RequestTail: string :=
    "\". Make it poetic, thoughtful, and evocative. Format it as three separate lines."

  /** The request `generateHaiku` sends; `Text` renders it. */
  datatype Prompt = HaikuRequest(inspiration: string)
  {
    function Text(): string {
      RequestHead + inspiration + RequestTail
    }
  }

  /** The request embeds the inspiration. */
  lemma PromptMentions(inspiration: string)
    ensures Contains(HaikuRequest(inspiration).Text(), inspiration)
  {
    ContainsMiddle(RequestHead, inspiration, RequestTail);
  }

  const FirstLine: string := "Code flows through my mind"
  const SecondLine: string := "AI dreams in silicon"
  const ThirdLine: string := "Creativity blooms"

  /** The haiku shown when the call fails. */
  const Fallback: string := FirstLine + "\n" + SecondLine + "\n" + ThirdLine

  /** The fallback is three lines: exactly two line breaks, separating the
      three fixed lines. */
  lemma FallbackHasThreeLines()
    ensures Occurrences(Fallback, '\n') == 2
    ensures Fallback[..|FirstLine|] == FirstLine
    ensures Fallback[|Fallback| - |ThirdLine|..] == ThirdLine
  {
    OccurrencesNone(FirstLine, '\n');
    OccurrencesNone(SecondLine, '\n');
    OccurrencesNone(ThirdLine, '\n');
    assert Occurrences("\n", '\n') == 1 by {
      assert "\n"[..0] == [];
    }
    OccurrencesAppend(FirstLine, "\n", '\n');
    OccurrencesAppend(FirstLine + "\n", SecondLine, '\n');
    OccurrencesAppend(FirstLine + "\n" + SecondLine, "\n", '\n');
    OccurrencesAppend(FirstLine + "\n" + SecondLine + "\n", ThirdLine, '\n');
  }

  /** The component's state variables. */
  datatype Session = Session(
    haiku: string,
    theme: string,
    isGenerating: bool,
    backgroundTheme: string,
    useTabTitle: bool,
    tabTitle: string)

  /** The initial values of the state variables. */
  const Initial: Session := Session("", "", false, BackgroundThemes[0], true, "")

  /** The background is always one of the listed themes, and no call is in
      flight between handlers. */
  predicate Shape(s: Session) {
    s.backgroundTheme in BackgroundThemes && !s.isGenerating
  }

  /** The request built from the current state. */
  function PromptOf(s: Session): Prompt {
    HaikuRequest(Inspiration(s.useTabTitle, s.tabTitle, s.theme))
  }

  /** `generateHaiku` up to the awaited call, with background `i` drawn. */
  function HaikuPending(s: Session, i: nat): Session
    requires i < |BackgroundThemes|
  {
    s.(isGenerating := true, haiku := "", backgroundTheme := BackgroundThemes[i])
  }

  /** `generateHaiku` with background `i` drawn and the given outcome. */
  function Generated(s: Session, i: nat, outcome: Outcome): Session
    requires i < |BackgroundThemes|
  {
    HaikuPending(s, i).(haiku := TextOr(outcome, Fallback), isGenerating := false)
  }

  /** While the call is in flight the haiku is cleared; once it settles the
      haiku is the reply or the fallback, the busy flag is down on either
      path, the background is the one drawn, and the settings are kept. */
  lemma GenerateOutcome(s: Session, i: nat, outcome: Outcome)
    requires i < |BackgroundThemes|
    ensures HaikuPending(s, i).haiku == "" && HaikuPending(s, i).isGenerating
    ensures var r := Generated(s, i, outcome);
            && r.haiku == TextOr(outcome, Fallback) && !r.isGenerating
            && r.backgroundTheme == BackgroundThemes[i] && r.backgroundTheme in BackgroundThemes
            && r.theme == s.theme && r.useTabTitle == s.useTabTitle && r.tabTitle == s.tabTitle
            && Shape(r)
  {
  }

  class HaikuGenerator {
    var haiku: string
    var theme: string
    var isGenerating: bool
    var backgroundTheme: string
    var useTabTitle: bool
    var tabTitle: string

    function State(): Session
      reads this
    {
      Session(haiku, theme, isGenerating, backgroundTheme, useTabTitle, tabTitle)
    }

    predicate Valid()
      reads this
    {
      Shape(State())
    }

    constructor ()
      ensures State() == Initial && Valid()
    {
      haiku := "";
      theme := "";
      isGenerating := false;
      backgroundTheme := BackgroundThemes[0];
      useTabTitle := true;
      tabTitle := "";
    }

    /** The mount effect, given the document's title. */
    method ReadTabTitle(documentTitle: string)
      modifies this`tabTitle
      ensures State() == old(State()).(tabTitle := documentTitle)
    {
      tabTitle := documentTitle;
    }

    /** The theme box's change handler. */
    method SetTheme(text: string)
      modifies this`theme
      ensures State() == old(State()).(theme := text)
    {
      theme := text;
    }

    /** The "Use Page Title" and "Custom Theme" buttons. */
    method SetUseTabTitle(useTitle: bool)
      modifies this`useTabTitle
      ensures State() == old(State()).(useTabTitle := useTitle)
    {
      useTabTitle := useTitle;
    }

    /** `generateHaiku`, with background `i` drawn and the outcome of the call;
        returns the request it sent. */
    method GenerateHaiku(i: nat, outcome: Outcome) returns (prompt: Prompt)
      requires i < |BackgroundThemes|
      modifies this
      ensures State() == Generated(old(State()), i, outcome) && Valid()
      ensures prompt == PromptOf(old(State()))
    {
      isGenerating := true;
      haiku := "";
      backgroundTheme := BackgroundThemes[i];
      var inspiration := if useTabTitle then tabTitle else if theme != [] then theme else DefaultTheme;
      prompt := HaikuRequest(inspiration);
      match outcome {
        case Ok(response) =>
          haiku := response;
        case Err =>
          haiku := Fallback;
      }
      isGenerating := false;
    }
  }
}
