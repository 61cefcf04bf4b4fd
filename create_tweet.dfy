/**
 * The post composer of src/components/CreateTweet.tsx: the length rule of
 * `tweetSchema`, and the composer's state (`text`, `error`) together with the
 * create requests it has issued and the cache invalidations it has asked for.
 * The transitions are given first as functions on a state value; the class
 * `Composer` updates the same fields in place and is proved against them.
 */
module CreateTweet {
  import opened Wrappers

  /** A UTF-16 code unit: zod compares JavaScript's `string.length`, which counts these. */
  newtype CodeUnit = x: int | 0 <= x < 0x1_0000

  type Text = seq<CodeUnit>

  const MinLength: nat := 10
  const MaxLength: nat := 280

  /** The zod issue raised by the length checks (`too_small` / `too_big`). */
  datatype Issue = TooSmall | TooBig

  /** The input of the `tweet.create` mutation. */
  datatype CreateInput = CreateInput(text: Text)

  /** `tweetSchema.parse({ text })`: the parsed value, or the error it throws. */
  datatype Parsed = Parsed(value: CreateInput) | ZodError(issue: Issue)

  /** `string().min(10).max(280)`, both bounds inclusive. */
  function Parse(text: Text): (r: Parsed)
    ensures r.Parsed? <==> MinLength <= |text| <= MaxLength
    ensures r.Parsed? ==> r.value == CreateInput(text)
    ensures r == ZodError(TooSmall) <==> |text| < MinLength
    ensures r == ZodError(TooBig) <==> |text| > MaxLength
  {
    if |text| < MinLength then ZodError(TooSmall)
    else if |text| > MaxLength then ZodError(TooBig)
    else Parsed(CreateInput(text))
  }

  predicate Accepts(text: Text) {
    Parse(text).Parsed?
  }

  /** The bounds are inclusive: exactly 10 and exactly 280 code units pass, 9 and 281 do not. */
  lemma BoundsInclusive(text: Text)
    ensures |text| == MinLength || |text| == MaxLength ==> Accepts(text)
    ensures |text| == MinLength - 1 ==> Parse(text) == ZodError(TooSmall)
    ensures |text| == MaxLength + 1 ==> Parse(text) == ZodError(TooBig)
  {
  }

  // ---------------------------------------------------------------------------
  // The composer's state and its transitions
  // ---------------------------------------------------------------------------

  /**
   * `text` and `error` are the two `useState` fields (an empty `error` string
   * is `None`); `requests` lists the `mutateAsync` calls in the order issued;
   * `invalidations` counts the `utils.tweet.invalidate()` calls.
   */
  datatype ComposerState = ComposerState(
    text: Text,
    error: Option<Issue>,
    requests: seq<CreateInput>,
    invalidations: nat)

  /** The textarea's `onChange`: `setText(e.target.value)`. */
  function Change(s: ComposerState, value: Text): (r: ComposerState)
    ensures r.text == value
    ensures r.error == s.error && r.requests == s.requests && r.invalidations == s.invalidations
  {
    s.(text := value)
  }

  /**
   * `handleSubmit`: parse the text the handler closed over; on an error, set
   * `error` and stop; otherwise clear `text` and issue one create request
   * carrying the text as it was before clearing.
   */
  function Submit(s: ComposerState): (r: ComposerState)
    ensures r.invalidations == s.invalidations
    ensures Accepts(s.text) ==>
      r.text == [] && r.requests == s.requests + [CreateInput(s.text)] && r.error == s.error
    ensures !Accepts(s.text) ==>
      r.text == s.text && r.requests == s.requests && r.error.Some? &&
      (r.error.value == TooSmall <==> |s.text| < MinLength)
  {
    match Parse(s.text)
    case ZodError(issue) => s.(error := Some(issue))
    case Parsed(input) => s.(text := [], requests := s.requests + [input])
  }

  /** The mutation's `onSuccess`: `setText('')` and invalidate the tweet cache. */
  function CreateSucceeded(s: ComposerState): (r: ComposerState)
    ensures r.text == [] && r.invalidations == s.invalidations + 1
    ensures r.error == s.error && r.requests == s.requests
  {
    s.(text := [], invalidations := s.invalidations + 1)
  }

  /** Clearing an already empty text leaves it empty; only the invalidation count moves. */
  lemma CreateSucceededClearsIdempotently(s: ComposerState)
    ensures CreateSucceeded(CreateSucceeded(s)).text == CreateSucceeded(s).text == []
    ensures s.text == [] ==> CreateSucceeded(s) == s.(invalidations := s.invalidations + 1)
  {
  }

  /**
   * After an accepted submit, submitting again without typing is rejected as
   * too short: the state's text is already empty, and no second request goes out.
   */
  lemma ResubmitWithoutTyping(s: ComposerState)
    requires Accepts(s.text)
    ensures var once := Submit(s);
      var twice := Submit(once);
      twice.requests == once.requests && twice.text == [] && twice.error == Some(TooSmall)
  {
  }

  // ---------------------------------------------------------------------------
  // Runs of events
  // ---------------------------------------------------------------------------

  datatype Event = Typed(value: Text) | Submitted | Created

  function Step(s: ComposerState, e: Event): ComposerState {
    match e
    case Typed(value) => Change(s, value)
    case Submitted => Submit(s)
    case Created => CreateSucceeded(s)
  }

  function Run(s: ComposerState, events: seq<Event>): ComposerState
    decreases |events|
  {
    if events == [] then s else Run(Step(s, events[0]), events[1..])
  }

  function SubmitCount(events: seq<Event>): nat {
    if events == [] then 0
    else (if events[0].Submitted? then 1 else 0) + SubmitCount(events[1..])
  }

  /** Every create request issued carries a text the schema accepts. */
  predicate RequestsValid(s: ComposerState) {
    forall k :: 0 <= k < |s.requests| ==> Accepts(s.requests[k].text)
  }

  /** No event sequence makes the composer send a text outside [10, 280]. */
  lemma {:induction false} RunKeepsRequestsValid(s: ComposerState, events: seq<Event>)
    requires RequestsValid(s)
    ensures RequestsValid(Run(s, events))
    decreases |events|
  {
    if events != [] {
      RunKeepsRequestsValid(Step(s, events[0]), events[1..]);
    }
  }

  /**
   * Requests are only ever appended, at most one per submit, and never by
   * typing or by a successful create.
   */
  lemma {:induction false} RunAppendsRequests(s: ComposerState, events: seq<Event>)
    ensures var r := Run(s, events);
      |s.requests| <= |r.requests| <= |s.requests| + SubmitCount(events) &&
      r.requests[..|s.requests|] == s.requests
    decreases |events|
  {
    if events != [] {
      var next := Step(s, events[0]);
      RunAppendsRequests(next, events[1..]);
      assert next.requests[..|s.requests|] == s.requests;
    }
  }

  /** `error` is never reset: once a message is shown, it stays shown. */
  lemma {:induction false} RunKeepsError(s: ComposerState, events: seq<Event>)
    requires s.error.Some?
    ensures Run(s, events).error.Some?
    decreases |events|
  {
    if events != [] {
      RunKeepsError(Step(s, events[0]), events[1..]);
    }
  }

  // ---------------------------------------------------------------------------
  // The component, updating its fields in place
  // ---------------------------------------------------------------------------

  class Composer {
    var text: Text
    var error: Option<Issue>
    var requests: seq<CreateInput>
    var invalidations: nat

    function State(): ComposerState
      reads this
    {
      ComposerState(text, error, requests, invalidations)
    }

    /** Every request this composer has issued passed the schema. */
    ghost predicate Valid()
      reads this
    {
      RequestsValid(State())
    }

    /** Mounting: both state fields start as the empty string; nothing issued yet. */
    constructor ()
      ensures Valid()
      ensures text == [] && error == None && requests == [] && invalidations == 0
    {
      text := [];
      error := None;
      requests := [];
      invalidations := 0;
    }

    method OnChange(value: Text)
      requires Valid()
      modifies this
      ensures Valid()
      ensures State() == Change(old(State()), value)
    {
      text := value;
    }

    method HandleSubmit()
      requires Valid()
      modifies this
      ensures Valid()
      ensures State() == Submit(old(State()))
      ensures Accepts(old(text)) ==>
        text == [] && requests == old(requests) + [CreateInput(old(text))] && error == old(error)
      ensures !Accepts(old(text)) ==>
        text == old(text) && requests == old(requests) && error.Some?
    {
      var captured := text;
      var parsed := Parse(captured);
      if parsed.ZodError? {
        error := Some(parsed.issue);
        return;
      }
      text := [];
      requests := requests + [parsed.value];
    }

    method OnCreateSuccess()
      requires Valid()
      modifies this
      ensures Valid()
      ensures State() == CreateSucceeded(old(State()))
    {
      text := [];
      invalidations := invalidations + 1;
    }
  }
}
