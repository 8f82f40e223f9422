/**
 * The Gemini client (packages/core/dist/src/core/client.js): the index search that splits the
 * history for compression, history compression itself, the session-turn and recursion budget
 * of sendMessageStream, the fallback to the Flash model, the classification done by
 * handleQwenOAuthError, and the validation of embedding responses. The serialised length of a
 * message, the function-response test, token counts, the summary and the fallback handler's
 * answer are inputs.
 */
module Client {
  import opened Wrappers
  import opened Text
  import QwenOAuth2
  import ContentGenerator
  import QwenContentGenerator

  const MAX_TURNS: nat := 100
  const ENV_ACK: string := "Got it. Thanks for the context!"
  const SUMMARY_ACK: string := "Got it. Thanks for the additional context!"
  const FRACTION_ERROR: string := "Fraction must be between 0 and 1"

  /** A part of a message: text, or anything else (inline data, function calls and responses). */
  datatype Part = TextPart(text: string) | OtherPart(id: nat)

  /** A message of the chat history, with its role ("user" or "model"). */
  datatype Content = Content(role: string, parts: seq<Part>)

  // ---------------------------------------------------------------------------
  // findIndexAfterFraction

  function Sum(xs: seq<nat>): nat {
    if xs == [] then 0 else Sum(xs[..|xs| - 1]) + xs[|xs| - 1]
  }

  lemma SumPrefixStep(xs: seq<nat>, i: nat)
    requires i < |xs|
    ensures Sum(xs[..i + 1]) == Sum(xs[..i]) + xs[i]
  {
    assert xs[..i + 1][..i] == xs[..i];
  }

  /** The serialised length of every message. */
  function Lengths(history: seq<Content>, len: Content -> nat): (r: seq<nat>)
    ensures |r| == |history|
    ensures forall i :: 0 <= i < |history| ==> r[i] == len(history[i])
  {
    seq(|history|, i requires 0 <= i < |history| => len(history[i]))
  }

  /** The messages up to and including `i` hold at least the target share (scaled by `q`). */
  predicate Reaches(lengths: seq<nat>, i: nat, q: int, target: int)
    requires i < |lengths|
  {
    Sum(lengths[..i + 1]) * q >= target
  }

  /** The first index from `i` on whose prefix reaches the target, or the length when none does. */
  function FirstReaching(lengths: seq<nat>, i: nat, q: int, target: int): nat
    decreases |lengths| - i
  {
    if i >= |lengths| then |lengths|
    else if Reaches(lengths, i, q, target) then i
    else FirstReaching(lengths, i + 1, q, target)
  }

  /** The index findIndexAfterFraction returns for the fraction `p / q`. */
  function IndexAfterFraction(lengths: seq<nat>, p: int, q: int): nat {
    FirstReaching(lengths, 0, q, Sum(lengths) * p)
  }

  /** FirstReaching is the least reaching index at or after `i`. */
  lemma {:induction false} FirstReachingLeast(lengths: seq<nat>, i: nat, q: int, target: int)
    requires i <= |lengths|
    ensures var r := FirstReaching(lengths, i, q, target);
      i <= r <= |lengths|
      && (r < |lengths| ==> Reaches(lengths, r, q, target))
      && forall j :: i <= j < r ==> !Reaches(lengths, j, q, target)
    decreases |lengths| - i
  {
    if i < |lengths| && !Reaches(lengths, i, q, target) {
      FirstReachingLeast(lengths, i + 1, q, target);
    }
  }

  /**
   * findIndexAfterFraction for the fraction `p / q`: the first index at which the running total
   * of message lengths reaches that fraction of the whole.
   */
  method FindIndexAfterFraction(history: seq<Content>, len: Content -> nat, p: int, q: int) returns (r: Result<nat, string>)
    requires q > 0
    ensures r.Err? <==> p <= 0 || p >= q
    ensures r.Err? ==> r.error == FRACTION_ERROR
    ensures r.Ok? ==> r.value == IndexAfterFraction(Lengths(history, len), p, q)
  {
    if p <= 0 || p >= q {
      return Err(FRACTION_ERROR);
    }
    var contentLengths := Lengths(history, len);
    var totalCharacters := Sum(contentLengths);
    var targetCharacters := totalCharacters * p;
    var charactersSoFar := 0;
    for i := 0 to |contentLengths|
      invariant charactersSoFar == Sum(contentLengths[..i])
      invariant FirstReaching(contentLengths, i, q, targetCharacters) == IndexAfterFraction(contentLengths, p, q)
    {
      SumPrefixStep(contentLengths, i);
      charactersSoFar := charactersSoFar + contentLengths[i];
      if charactersSoFar * q >= targetCharacters {
        return Ok(i);
      }
    }
    return Ok(|contentLengths|);
  }

  /** For a proper fraction the index stays inside a non-empty history; an empty one gives 0. */
  lemma IndexInsideHistory(lengths: seq<nat>, p: int, q: int)
    requires 0 < p < q
    ensures |lengths| > 0 ==> IndexAfterFraction(lengths, p, q) < |lengths|
    ensures |lengths| == 0 ==> IndexAfterFraction(lengths, p, q) == 0
  {
    FirstReachingLeast(lengths, 0, q, Sum(lengths) * p);
    if |lengths| > 0 {
      var last := |lengths| - 1;
      assert lengths[..last + 1] == lengths;
      assert Sum(lengths) * q >= Sum(lengths) * p;
      assert Reaches(lengths, last, q, Sum(lengths) * p);
    }
  }

  // ---------------------------------------------------------------------------
  // tryCompressChat

  /** A message the cut may not start at: a model turn or a function response. */
  predicate Skippable(c: Content, isFunctionResponse: Content -> bool) {
    c.role == "model" || isFunctionResponse(c)
  }

  /** The cut index after advancing from `i` past model turns and function responses. */
  function TurnStart(history: seq<Content>, i: nat, isFunctionResponse: Content -> bool): nat
    decreases |history| - i
  {
    if i < |history| && Skippable(history[i], isFunctionResponse) then TurnStart(history, i + 1, isFunctionResponse)
    else i
  }

  lemma {:induction false} TurnStartSpec(history: seq<Content>, i: nat, isFunctionResponse: Content -> bool)
    requires i <= |history|
    ensures var r := TurnStart(history, i, isFunctionResponse);
      i <= r <= |history|
      && (r < |history| ==> !Skippable(history[r], isFunctionResponse))
      && forall j :: i <= j < r ==> Skippable(history[j], isFunctionResponse)
    decreases |history| - i
  {
    if i < |history| && Skippable(history[i], isFunctionResponse) {
      TurnStartSpec(history, i + 1, isFunctionResponse);
    }
  }

  /** The index before which tryCompressChat compresses: 70% of the characters, then to a turn start. */
  function CompressionCut(history: seq<Content>, len: Content -> nat, isFunctionResponse: Content -> bool): (r: nat)
    ensures r <= |history|
  {
    var lengths := Lengths(history, len);
    FirstReachingLeast(lengths, 0, 10, Sum(lengths) * 7);
    TurnStartSpec(history, IndexAfterFraction(lengths, 7, 10), isFunctionResponse);
    TurnStart(history, IndexAfterFraction(lengths, 7, 10), isFunctionResponse)
  }

  /** The history of the chat restarted after compression. */
  function RebuiltHistory(envParts: seq<Part>, summary: string, historyToKeep: seq<Content>): seq<Content> {
    [Content("user", envParts), Content("model", [TextPart(ENV_ACK)]),
     Content("user", [TextPart(summary)]), Content("model", [TextPart(SUMMARY_ACK)])]
    + historyToKeep
  }

  /** Compression goes ahead: a non-empty history, a known token count, and forced or at 70% of the limit. */
  predicate CompressionApplies(history: seq<Content>, force: bool, tokenLimit: nat, originalTokenCount: Option<nat>) {
    |history| > 0 && originalTokenCount.Some? && (force || originalTokenCount.value * 10 >= 7 * tokenLimit)
  }

  datatype CompressionInfo = CompressionInfo(originalTokenCount: nat, newTokenCount: nat)

  /** The events sendMessageStream yields that the model tracks. */
  datatype StreamEvent = MaxSessionTurnsReached | TurnRan(sessionTurn: int)

  /** What the configured Flash-fallback handler does. */
  datatype FallbackHandler =
    | NoHandler
    | Replied(accepted: Acceptance, modelAfter: string)   // it returned; it may have set the model itself
    | HandlerThrew(modelAfter: string)

  /** The handler's return value: `false`, `null`, or anything else (which accepts). */
  datatype Acceptance = False | Null | Accepted

  function Min(a: nat, b: nat): nat {
    if a < b then a else b
  }

  /** GeminiClient: the chat history, the session turn count, the last prompt id, and the model of the configuration. */
  class GeminiClient {
    var history: seq<Content>
    var sessionTurnCount: int
    var lastPromptId: string
    var model: string
    var fallbackMode: bool

    constructor (sessionId: string, configuredModel: string)
      ensures history == [] && sessionTurnCount == 0 && lastPromptId == sessionId
      ensures model == configuredModel && !fallbackMode
    {
      history := [];
      sessionTurnCount := 0;
      lastPromptId := sessionId;
      model := configuredModel;
      fallbackMode := false;
    }

    /**
     * tryCompressChat. `tokenLimit` is the model's limit, `originalTokenCount` and
     * `newTokenCount` what countTokens reported, `summary` the model's state snapshot and
     * `envParts` the environment context of the restarted chat.
     */
    method TryCompressChat(force: bool, tokenLimit: nat, originalTokenCount: Option<nat>, summary: string,
                           envParts: seq<Part>, newTokenCount: Option<nat>,
                           len: Content -> nat, isFunctionResponse: Content -> bool)
      returns (r: Option<CompressionInfo>)
      modifies this
      ensures !CompressionApplies(old(history), force, tokenLimit, originalTokenCount) ==>
        r.None? && history == old(history)
      ensures CompressionApplies(old(history), force, tokenLimit, originalTokenCount) ==>
        history == RebuiltHistory(envParts, summary, old(history)[CompressionCut(old(history), len, isFunctionResponse)..])
      ensures r.Some? <==> CompressionApplies(old(history), force, tokenLimit, originalTokenCount) && newTokenCount.Some?
      ensures r.Some? ==> r.value == CompressionInfo(originalTokenCount.value, newTokenCount.value)
      ensures sessionTurnCount == old(sessionTurnCount) && lastPromptId == old(lastPromptId)
      ensures model == old(model) && fallbackMode == old(fallbackMode)
    {
      var curatedHistory := history;
      if |curatedHistory| == 0 {
        return None;
      }
      if originalTokenCount.None? {
        return None;
      }
      if !force && originalTokenCount.value * 10 < 7 * tokenLimit {
        return None;
      }
      var found := FindIndexAfterFraction(curatedHistory, len, 7, 10);
      var compressBeforeIndex := found.value;
      FirstReachingLeast(Lengths(curatedHistory, len), 0, 10, Sum(Lengths(curatedHistory, len)) * 7);
      while compressBeforeIndex < |curatedHistory|
            && (curatedHistory[compressBeforeIndex].role == "model" || isFunctionResponse(curatedHistory[compressBeforeIndex]))
        invariant compressBeforeIndex <= |curatedHistory|
        invariant TurnStart(curatedHistory, compressBeforeIndex, isFunctionResponse) == CompressionCut(curatedHistory, len, isFunctionResponse)
        decreases |curatedHistory| - compressBeforeIndex
      {
        compressBeforeIndex := compressBeforeIndex + 1;
      }
      var historyToKeep := curatedHistory[compressBeforeIndex..];
      history := RebuiltHistory(envParts, summary, historyToKeep);
      if newTokenCount.None? {
        return None;
      }
      return Some(CompressionInfo(originalTokenCount.value, newTokenCount.value));
    }

    /**
     * The turn accounting of sendMessageStream. `continues(n)` says whether session turn `n`
     * ends with the model to speak next (no pending tool calls, not aborted, no model switch,
     * no loop detected, within the session token limit), which starts a continuation.
     */
    method SendMessageStream(promptId: string, turns: nat, maxSessionTurns: int, continues: int -> bool)
      returns (events: seq<StreamEvent>)
      modifies this
      decreases turns
      ensures lastPromptId == promptId
      ensures old(sessionTurnCount) < sessionTurnCount <= old(sessionTurnCount) + Min(turns, MAX_TURNS) + 1
      ensures forall k :: 0 <= k < |events| - 1 ==> events[k].TurnRan?
      ensures forall k :: 0 <= k < |events| && events[k].TurnRan? ==>
        k < Min(turns, MAX_TURNS) && events[k].sessionTurn == old(sessionTurnCount) + k + 1
      ensures maxSessionTurns > 0 ==> forall k :: 0 <= k < |events| && events[k].TurnRan? ==> events[k].sessionTurn <= maxSessionTurns
      ensures maxSessionTurns > 0 && old(sessionTurnCount) >= maxSessionTurns ==> events == [MaxSessionTurnsReached]
      ensures history == old(history) && model == old(model) && fallbackMode == old(fallbackMode)
    {
      if lastPromptId != promptId {
        lastPromptId := promptId;
      }
      sessionTurnCount := sessionTurnCount + 1;
      if maxSessionTurns > 0 && sessionTurnCount > maxSessionTurns {
        return [MaxSessionTurnsReached];
      }
      var boundedTurns := Min(turns, MAX_TURNS);
      if boundedTurns == 0 {
        return [];
      }
      events := [TurnRan(sessionTurnCount)];
      if continues(sessionTurnCount) {
        var rest := SendMessageStream(promptId, boundedTurns - 1, maxSessionTurns, continues);
        events := events + rest;
      }
    }

    /**
     * handleFlashFallback. `fallbackModel` is DEFAULT_GEMINI_FLASH_MODEL; the model's answer is
     * the new model name when the switch was accepted.
     */
    method HandleFlashFallback(authType: Option<ContentGenerator.AuthType>, error: QwenContentGenerator.Thrown,
                               fallbackModel: string, handler: FallbackHandler)
      returns (r: Option<string>)
      modifies this
      ensures r.Some? <==> authType == Some(ContentGenerator.LoginWithGoogle) && old(model) != fallbackModel
                           && handler.Replied? && handler.accepted == Accepted
      ensures r.Some? ==> r.value == fallbackModel && model == fallbackModel && fallbackMode
      ensures r.None? ==> fallbackMode == old(fallbackMode)
      ensures (r.None? && authType == Some(ContentGenerator.LoginWithGoogle) && old(model) != fallbackModel
               && !handler.NoHandler?) ==> model == handler.modelAfter
      ensures !(authType == Some(ContentGenerator.LoginWithGoogle) && old(model) != fallbackModel && !handler.NoHandler?) ==>
        model == old(model)
      ensures history == old(history) && sessionTurnCount == old(sessionTurnCount) && lastPromptId == old(lastPromptId)
    {
      if authType == Some(ContentGenerator.QwenOAuth) {
        // handleQwenOAuthError only classifies the error for its log line.
        var _ := QwenOAuthErrorKind(error);
        return None;
      }
      if authType != Some(ContentGenerator.LoginWithGoogle) {
        return None;
      }
      var currentModel := model;
      if currentModel == fallbackModel {
        return None;
      }
      match handler {
        case NoHandler =>
          return None;
        case HandlerThrew(after) =>
          model := after;
          return None;
        case Replied(accepted, after) =>
          model := after;
          if accepted != False && accepted != Null {
            model := fallbackModel;
            fallbackMode := true;
            return Some(fallbackModel);
          }
          return None;
      }
    }
  }

  /** Compression keeps the recent tail whole: the kept part starts at a user turn past 70% of the characters. */
  lemma CompressionKeepsTail(history: seq<Content>, len: Content -> nat, isFunctionResponse: Content -> bool,
                             envParts: seq<Part>, summary: string)
    requires |history| > 0
    ensures var start := IndexAfterFraction(Lengths(history, len), 7, 10);
      var cut := CompressionCut(history, len, isFunctionResponse);
      start < |history|
      && start <= cut <= |history|
      && history[..cut] + history[cut..] == history
      && (cut < |history| ==> history[cut].role != "model" && !isFunctionResponse(history[cut]))
      && (forall j :: start <= j < cut ==> Skippable(history[j], isFunctionResponse))
      && RebuiltHistory(envParts, summary, history[cut..])[4..] == history[cut..]
      && |RebuiltHistory(envParts, summary, history[cut..])| == 4 + |history| - cut
  {
    var lengths := Lengths(history, len);
    IndexInsideHistory(lengths, 7, 10);
    TurnStartSpec(history, IndexAfterFraction(lengths, 7, 10), isFunctionResponse);
  }

  // ---------------------------------------------------------------------------
  // handleQwenOAuthError

  datatype QwenErrorKind = NotAnError | AuthFailure | RateLimited | OtherFailure

  /** The classification handleQwenOAuthError logs; it returns null whatever the kind. */
  function QwenOAuthErrorKind(e: QwenContentGenerator.Thrown): QwenErrorKind {
    if e.Falsy? then NotAnError
    else
      var code := QwenContentGenerator.ErrorCode(e);
      var message := Lower(e.text);
      if code == Some(401) || code == Some(403)
         || Contains(message, "unauthorized") || Contains(message, "forbidden")
         || Contains(message, "invalid api key") || Contains(message, "authentication")
         || Contains(message, "access denied")
         || (Contains(message, "token") && Contains(message, "expired"))
      then AuthFailure
      else if code == Some(429) || Contains(message, "429") || Contains(message, "rate limit")
              || Contains(message, "too many requests")
      then RateLimited
      else OtherFailure
  }

  /**
   * Every error the client classifies as an authentication failure is one the Qwen generator
   * also retries; status 400 is one the generator retries but the client does not.
   */
  lemma ClientAuthIsGeneratorAuth(e: QwenContentGenerator.Thrown)
    ensures QwenOAuthErrorKind(e) == AuthFailure ==> QwenContentGenerator.IsAuthError(e)
    ensures var bad := QwenContentGenerator.Raised("", Some(400), None);
      QwenContentGenerator.IsAuthError(bad) && QwenOAuthErrorKind(bad) == OtherFailure
  {
  }

  // ---------------------------------------------------------------------------
  // generateEmbedding

  datatype EmbeddingError = NoEmbeddings | MismatchedCount(expected: nat, got: nat) | EmptyEmbedding(index: nat, text: string)
  {
    function Message(): string {
      match this
      case NoEmbeddings => "No embeddings found in API response."
      case MismatchedCount(e, g) =>
        "API returned a mismatched number of embeddings. Expected " + QwenOAuth2.DecimalText(e)
        + ", got " + QwenOAuth2.DecimalText(g) + "."
      case EmptyEmbedding(i, t) =>
        "API returned an empty embedding for input text at index " + QwenOAuth2.DecimalText(i) + ": \"" + t + "\""
    }
  }

  predicate EmptyValues<V>(v: Option<seq<V>>) {
    v.None? || |v.value| == 0
  }

  /** The first embedding from `i` on without values. */
  function FirstEmpty<V>(embeddings: seq<Option<seq<V>>>, i: nat): (r: Option<nat>)
    ensures r.Some? ==> i <= r.value < |embeddings| && EmptyValues(embeddings[r.value])
    ensures r.Some? ==> forall j :: i <= j < r.value ==> !EmptyValues(embeddings[j])
    ensures r.None? ==> forall j :: i <= j < |embeddings| ==> !EmptyValues(embeddings[j])
    decreases |embeddings| - i
  {
    if i >= |embeddings| then None
    else if EmptyValues(embeddings[i]) then Some(i)
    else FirstEmpty(embeddings, i + 1)
  }

  /**
   * generateEmbedding, given the response's `embeddings` (None when absent). An empty input
   * returns at once, without asking the API.
   */
  function GenerateEmbedding<V>(texts: seq<string>, embeddings: Option<seq<Option<seq<V>>>>): (r: Result<seq<seq<V>>, EmbeddingError>)
    ensures |texts| == 0 ==> r == Ok([])
    ensures r == Err(NoEmbeddings) <==> |texts| > 0 && (embeddings.None? || |embeddings.value| == 0)
    ensures r.Err? && r.error.MismatchedCount? ==>
      embeddings.Some? && r.error == MismatchedCount(|texts|, |embeddings.value|) && |embeddings.value| != |texts|
    ensures r.Err? && r.error.EmptyEmbedding? ==>
      embeddings.Some? && |embeddings.value| == |texts| && r.error.index < |texts|
      && r.error.text == texts[r.error.index] && EmptyValues(embeddings.value[r.error.index])
      && forall j :: 0 <= j < r.error.index ==> !EmptyValues(embeddings.value[j])
    ensures r.Ok? ==> |r.value| == |texts|
    ensures r.Ok? && |texts| > 0 ==> (embeddings.Some? && |embeddings.value| == |texts|
      && forall i :: 0 <= i < |texts| ==> embeddings.value[i] == Some(r.value[i]) && |r.value[i]| > 0)
  {
    if |texts| == 0 then Ok([])
    else if embeddings.None? || |embeddings.value| == 0 then Err(NoEmbeddings)
    else if |embeddings.value| != |texts| then Err(MismatchedCount(|texts|, |embeddings.value|))
    else
      var embs := embeddings.value;
      match FirstEmpty(embs, 0)
      case Some(i) => Err(EmptyEmbedding(i, texts[i]))
      case None => Ok(seq(|embs|, i requires 0 <= i < |embs| => embs[i].value))
  }

  /** Every non-empty input with a matching, non-empty embedding per text succeeds. */
  lemma EmbeddingSucceeds<V>(texts: seq<string>, values: seq<seq<V>>)
    requires |texts| > 0 && |values| == |texts|
    requires forall i :: 0 <= i < |values| ==> |values[i]| > 0
    ensures GenerateEmbedding(texts, Some(seq(|values|, i requires 0 <= i < |values| => Some(values[i])))) == Ok(values)
  {
    var embs := seq(|values|, i requires 0 <= i < |values| => Some(values[i]));
    var r := GenerateEmbedding(texts, Some(embs));
    assert r.Ok?;
    assert r.value == values;
  }
}
