/** The translation of a goal request's sentinel-encoded optional fields into the
    keyword arguments of the synthesis engine, and the inverse encoding, so that the
    translation can be stated as a round trip. */
module TtsParams {
  import opened Wrappers
  import opened TtsAction

  /** The arguments handed to the synthesis engine, apart from the output file path. */
  datatype SynthArgs = SynthArgs(
    text: string,
    speaker: Option<string>,
    language: Option<string>,
    speakerWav: Option<string>,
    emotion: Option<string>,
    speed: Option<real>,
    splitSentences: bool)

  /** An empty string on the wire means "not set". */
  function OptionalString(s: string): (o: Option<string>)
    ensures o.None? <==> s == ""
    ensures o.Some? ==> o.value == s
  {
    if s == "" then None else Some(s)
  }

  /** A speed of exactly 0.0 on the wire means "not set" (the engine then uses its default). */
  function OptionalSpeed(x: real): (o: Option<real>)
    ensures o.None? <==> x == 0.0
    ensures o.Some? ==> o.value == x
  {
    if x == 0.0 then None else Some(x)
  }

  /** The wire form of an optional string: unset is sent as the empty string. */
  function WireString(o: Option<string>): string {
    o.GetOr("")
  }

  /** The wire form of an optional speed: unset is sent as 0.0. */
  function WireSpeed(o: Option<real>): real {
    o.GetOr(0.0)
  }

  /** The arguments the node passes to the engine for a request. */
  function Resolve(req: GoalRequest): (r: SynthArgs)
    ensures SentinelFree(r)
    ensures r.text == req.text && r.splitSentences == !req.dontSplitSentences
  {
    SynthArgs(
      req.text,
      OptionalString(req.speaker),
      OptionalString(req.language),
      OptionalString(req.speakerWave),
      OptionalString(req.emotion),
      OptionalSpeed(req.speed),
      !req.dontSplitSentences)
  }

  /** The request a client sends to obtain the given engine arguments and wait. */
  function Encode(a: SynthArgs, waitBeforeSpeaking: real): GoalRequest {
    GoalRequest(
      a.text,
      WireString(a.speaker),
      WireString(a.language),
      WireString(a.speakerWav),
      WireString(a.emotion),
      WireSpeed(a.speed),
      !a.splitSentences,
      waitBeforeSpeaking)
  }

  /** No optional argument holds a value that collides with its wire sentinel. */
  predicate SentinelFree(a: SynthArgs) {
    && a.speaker != Some("")
    && a.language != Some("")
    && a.speakerWav != Some("")
    && a.emotion != Some("")
    && a.speed != Some(0.0)
  }

  /** Every wire value is reproduced by resolving it and sending the result again. */
  lemma ResolveThenEncode(req: GoalRequest)
    ensures Encode(Resolve(req), req.waitBeforeSpeaking) == req
  {
  }

  /** Resolving an encoded argument set gives it back exactly when no argument holds a
      sentinel value; the engine never receives an empty string or a zero speed. */
  lemma EncodeThenResolve(a: SynthArgs, waitBeforeSpeaking: real)
    ensures Resolve(Encode(a, waitBeforeSpeaking)) == a <==> SentinelFree(a)
    ensures SentinelFree(Resolve(Encode(a, waitBeforeSpeaking)))
  {
  }

  /** Two requests yield the same engine arguments exactly when they differ at most in
      the wait before speaking. */
  lemma ResolveInjective(r1: GoalRequest, r2: GoalRequest)
    ensures Resolve(r1) == Resolve(r2) <==> r1 == r2.(waitBeforeSpeaking := r1.waitBeforeSpeaking)
  {
  }

  /** A speed of 0.0 and an unset speed reach the engine as the same arguments, and the
      engine is then left to its default speed. */
  lemma ZeroSpeedIsUnsetSpeed(a: SynthArgs, waitBeforeSpeaking: real)
    ensures Resolve(Encode(a.(speed := Some(0.0)), waitBeforeSpeaking))
         == Resolve(Encode(a.(speed := None), waitBeforeSpeaking))
    ensures Resolve(Encode(a.(speed := None), waitBeforeSpeaking)).speed == None
  {
  }

  /** Sentence splitting is on exactly when the request does not ask to keep sentences
      together, and the empty string leaves each optional string argument unset. */
  lemma ResolveFields(req: GoalRequest)
    ensures Resolve(req).splitSentences <==> !req.dontSplitSentences
    ensures Resolve(req).text == req.text
    ensures Resolve(req).speaker.None? <==> req.speaker == ""
    ensures Resolve(req).language.None? <==> req.language == ""
    ensures Resolve(req).speakerWav.None? <==> req.speakerWave == ""
    ensures Resolve(req).emotion.None? <==> req.emotion == ""
    ensures Resolve(req).speed.None? <==> req.speed == 0.0
    ensures Resolve(req).speed.Some? ==> Resolve(req).speed.value == req.speed
  {
  }
}
