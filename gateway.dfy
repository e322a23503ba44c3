/** The one outbound call every game makes, `generateAIResponse(prompt)`, seen
    from its callers: the awaited promise either resolves with a text or
    rejects. The HTTP exchange itself is not modelled; each game's handler
    takes the outcome as a parameter. */
module Gateway {

  /** How the awaited call ended: resolved with `text`, or rejected (a transport
      failure, a non-2xx status, or an exception while reading the body). */
  datatype Outcome = Ok(text: string) | Err

  /** The text the client returns when the response has no usable content. */
  const CreativeBreak: string := "AI is taking a creative break!"

  /** `data.choices?.[0]?.message?.content || "AI is taking a creative break!"`:
      a missing or empty content field is replaced by the default text, so a
      resolved call never yields the empty string. */
  function ContentOrDefault(content: Option<string>): (r: string)
    ensures r != []
    ensures content.Some? && content.value != [] ==> r == content.value
    ensures content.None? || content.value == [] ==> r == CreativeBreak
  {
    match content
    case Some(c) => if c != [] then c else CreativeBreak
    case None => CreativeBreak
  }

  /** An outcome the client can produce: a resolved call carries the content
      of the response or the default text, never the empty string. */
  predicate Producible(outcome: Outcome) {
    outcome.Ok? ==> outcome.text != []
  }

  /** The outcome of a call whose response was received and parsed: resolved
      with the content, or with the default text when there is none. */
  function Resolved(content: Option<string>): (outcome: Outcome)
    ensures outcome.Ok? && Producible(outcome)
    ensures content.Some? && content.value != [] ==> outcome.text == content.value
  {
    Ok(ContentOrDefault(content))
  }

  /** What a game shows for the outcome of its call: the resolved text, or the
      game's own fallback when the call rejects. Given a non-empty fallback,
      the player never sees an empty answer. */
  function TextOr(outcome: Outcome, fallback: string): (r: string)
    ensures outcome.Ok? ==> r == outcome.text
    ensures outcome.Err? ==> r == fallback
    ensures Producible(outcome) && fallback != [] ==> r != []
  {
    match outcome
    case Ok(text) => text
    case Err => fallback
  }

  /** The stock optional value, standing for JavaScript's `undefined` along an
      optional chain. */
  datatype Option<T> = None | Some(value: T)
}
