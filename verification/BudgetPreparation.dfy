/**
 * The token bounds a budgeted request is prepared with, from the size of its body and its output limits. A body is known
 * by its output limits and by the bytes of everything else in it.
 */
module BudgetPreparation {
  import opened Money

  const MAX_SAFE_INTEGER: nat := 9_007_199_254_740_991
  const ENVELOPE: nat := 256
  const DEFAULT_OUTPUT: nat := 4096

  datatype Protocol = OPENAI_CHAT | OPENAI_RESPONSES | ANTHROPIC_MESSAGES | GEMINI

  datatype Limit = MAX_TOKENS | MAX_COMPLETION_TOKENS | MAX_OUTPUT_TOKENS

  /** supported stands for the checks that the content can be priced at all. */
  datatype Body = Body(otherBytes: nat, limits: map<Limit, int>, supported: bool)

  datatype Prepared = Prepared(body: Body, inputTokens: nat, outputTokens: nat)

  function Digits(n: nat): nat {
    if n < 10 then 1 else 1 + Digits(n / 10)
  }

  function NameLength(limit: Limit): nat {
    match limit
    case MAX_TOKENS => 10
    case MAX_COMPLETION_TOKENS => 21
    case MAX_OUTPUT_TOKENS => 17
  }

  /** A quoted name, a colon, a positive number and a comma. */
  function LimitBytes(limits: map<Limit, int>, limit: Limit): nat {
    if limit in limits then NameLength(limit) + 4 + Digits(Max(0, limits[limit])) else 0
  }

  /** The length of the body as JSON. */
  function Bytes(body: Body): nat {
    body.otherBytes + LimitBytes(body.limits, MAX_TOKENS) + LimitBytes(body.limits, MAX_COMPLETION_TOKENS)
    + LimitBytes(body.limits, MAX_OUTPUT_TOKENS)
  }

  function PowerOfTen(n: nat): nat {
    if n == 0 then 1 else 10 * PowerOfTen(n - 1)
  }

  /** How many digits a number is written with. */
  lemma {:induction false} DigitsAre(n: nat)
    ensures n < PowerOfTen(Digits(n)) && (n >= 10 ==> PowerOfTen(Digits(n) - 1) <= n)
    decreases n
  {
    if n >= 10 { DigitsAre(n / 10); }
  }

  /** A limit adds its quoted name, a colon, its digits and a comma. */
  lemma BytesAre(otherBytes: nat, supported: bool, a: nat, b: nat, c: nat)
    ensures Bytes(Body(otherBytes, map[], supported)) == otherBytes
    ensures Bytes(Body(otherBytes, map[MAX_TOKENS := a], supported)) == otherBytes + |"'max_tokens':,"| + Digits(a)
    ensures Bytes(Body(otherBytes, map[MAX_COMPLETION_TOKENS := b], supported)) == otherBytes + |"'max_completion_tokens':,"| + Digits(b)
    ensures Bytes(Body(otherBytes, map[MAX_OUTPUT_TOKENS := c], supported)) == otherBytes + |"'max_output_tokens':,"| + Digits(c)
    ensures Bytes(Body(otherBytes, map[MAX_TOKENS := a, MAX_COMPLETION_TOKENS := b, MAX_OUTPUT_TOKENS := c], supported))
            == otherBytes + |"'max_tokens':,"| + Digits(a) + |"'max_completion_tokens':,"| + Digits(b)
               + |"'max_output_tokens':,"| + Digits(c)
  {
    hide Digits;
  }

  predicate IsTokenCount(n: int) {
    0 < n <= MAX_SAFE_INTEGER
  }

  /** Every given limit is a token count, and they agree. */
  predicate LimitsAgree(limits: map<Limit, int>) {
    forall a, b :: a in limits && b in limits ==> IsTokenCount(limits[a]) && limits[a] == limits[b]
  }

  function LimitOf(protocol: Protocol, limits: map<Limit, int>): Limit {
    if protocol.OPENAI_RESPONSES? then MAX_OUTPUT_TOKENS
    else if protocol.OPENAI_CHAT? && MAX_COMPLETION_TOKENS in limits then MAX_COMPLETION_TOKENS
    else MAX_TOKENS
  }

  predicate LimitsFit(protocol: Protocol, limits: map<Limit, int>) {
    if protocol.OPENAI_CHAT? then MAX_OUTPUT_TOKENS !in limits
    else forall a :: a in limits ==> a == LimitOf(protocol, limits)
  }

  /** None when the limits are invalid, the content cannot be priced or the whole does not fit the context. */
  function Prepare(protocol: Protocol, body: Body, contextSize: int): Option<Prepared> {
    var field := LimitOf(protocol, body.limits);
    var inputTokens := Bytes(body) + ENVELOPE;
    if !IsTokenCount(contextSize) || !body.supported || !LimitsAgree(body.limits) || !LimitsFit(protocol, body.limits) then None
    else
      var outputTokens :=
        if body.limits != map[] then GivenLimit(protocol, body.limits)
        else if DEFAULT_OUTPUT <= contextSize - inputTokens then DEFAULT_OUTPUT
        else contextSize - inputTokens;
      if outputTokens <= 0 || inputTokens + outputTokens > contextSize then None
      else Some(Prepared(body.(limits := map[field := outputTokens]), inputTokens, outputTokens))
  }

  /** The agreed limit: the field of the protocol is always among those given. */
  function GivenLimit(protocol: Protocol, limits: map<Limit, int>): int {
    if LimitOf(protocol, limits) in limits then limits[LimitOf(protocol, limits)] else 0
  }

  /** The field in which a protocol takes its output limit. */
  predicate Takes(protocol: Protocol, limits: map<Limit, int>, field: Limit) {
    match protocol
    case OPENAI_RESPONSES => field.MAX_OUTPUT_TOKENS?
    case OPENAI_CHAT => if MAX_COMPLETION_TOKENS in limits then field.MAX_COMPLETION_TOKENS? else field.MAX_TOKENS?
    case _ => field.MAX_TOKENS?
  }

  /**
   * A request is prepared exactly when its content can be priced, its context is a token count, its limits are positive
   * token counts that agree and are its protocol's own, and the input with its margin leaves room for them in the context.
   */
  lemma PreparedExactly(protocol: Protocol, body: Body, contextSize: int)
    ensures var room := contextSize - (Bytes(body) + 256);
            Prepare(protocol, body, contextSize).Some? <==>
              && body.supported && 0 < contextSize <= 9_007_199_254_740_991
              && (forall a :: a in body.limits ==> 0 < body.limits[a] <= 9_007_199_254_740_991)
              && (forall a, b :: a in body.limits && b in body.limits ==> body.limits[a] == body.limits[b])
              && (if protocol.OPENAI_CHAT? then MAX_OUTPUT_TOKENS !in body.limits
                  else forall a :: a in body.limits ==> Takes(protocol, body.limits, a))
              && room > 0 && forall a :: a in body.limits ==> body.limits[a] <= room
    ensures Prepare(protocol, body, contextSize).Some? ==>
              var p := Prepare(protocol, body, contextSize).value;
              && p.inputTokens == Bytes(body) + 256
              && (forall a :: a in body.limits ==> p.outputTokens == body.limits[a])
              && (body.limits == map[] ==>
                    p.outputTokens == if contextSize - p.inputTokens < 4096 then contextSize - p.inputTokens else 4096)
              && p.body.otherBytes == body.otherBytes && p.body.limits.Values == {p.outputTokens as int}
              && forall field :: field in p.body.limits <==> Takes(protocol, body.limits, field)
  {
    hide Bytes;
    if body.limits != map[] && LimitsFit(protocol, body.limits) {
      FieldIsGiven(protocol, body.limits);
    }
    if Prepare(protocol, body, contextSize).Some? {
      var p := Prepare(protocol, body, contextSize).value;
      assert p.body.limits[LimitOf(protocol, body.limits)] == p.outputTokens;
    }
  }

  lemma FieldIsGiven(protocol: Protocol, limits: map<Limit, int>)
    requires limits != map[] && LimitsFit(protocol, limits)
    ensures LimitOf(protocol, limits) in limits
  {
    var a :| a in limits;
    assert a.MAX_TOKENS? || a.MAX_COMPLETION_TOKENS? || a.MAX_OUTPUT_TOKENS?;
  }

  lemma DefaultIsShort(n: nat)
    requires n <= DEFAULT_OUTPUT
    ensures Digits(n) <= 4
  {
    assert Digits(n / 10 / 10 / 10) == 1;
    assert Digits(n / 10 / 10) <= 2;
    assert Digits(n / 10) <= 3;
  }

  /** Bounds within which the prepared body stays, and that leave room for at least one token each way. */
  predicate WellPrepared(preparedBytes: nat, inputTokens: nat, outputTokens: nat) {
    preparedBytes <= inputTokens && inputTokens >= 1 && outputTokens >= 1 && IsCny(inputTokens) && IsCny(outputTokens)
  }

  /** Replacing the limits by one never adds more than the envelope allows for, so the input bound covers the prepared body. */
  lemma PreparedBoundsHold(protocol: Protocol, body: Body, contextSize: int)
    requires Prepare(protocol, body, contextSize).Some?
    ensures var p := Prepare(protocol, body, contextSize).value;
            WellPrepared(Bytes(p.body), p.inputTokens, p.outputTokens) && p.inputTokens + p.outputTokens <= contextSize
            && (body.limits != map[] ==> forall a :: a in body.limits ==> body.limits[a] == p.outputTokens)
            && p.body.limits.Values == {p.outputTokens as int}
  {
    var p := Prepare(protocol, body, contextSize).value;
    var field := LimitOf(protocol, body.limits);
    assert p.body.limits[field] == p.outputTokens;
    if body.limits != map[] {
      FieldIsGiven(protocol, body.limits);
    } else {
      DefaultIsShort(p.outputTokens);
    }
  }
}
