// Compressing what an agent run has observed: a summary of the older part, the recent part raw.
module Compression {
  import opened Text
  import opened Domain
  import History

  const DEFAULT_RECENT := 10
  const DEFAULT_TRIGGER := 24000
  const DEFAULT_MAX_CONTEXT := 20000

  // `size` is the number of bytes an observation takes up in the source measure.
  datatype Limits = Limits(recent: int, trigger: int, maxContext: int, size: Feedback -> nat)

  function OrDefault(limit: int, default_: int): int {
    if limit <= 0 then default_ else limit
  }

  function Recent(l: Limits): (n: nat)
    ensures n >= 1
  {
    OrDefault(l.recent, DEFAULT_RECENT)
  }

  function Trigger(l: Limits): int {
    OrDefault(l.trigger, DEFAULT_TRIGGER)
  }

  function MaxContext(l: Limits): int {
    OrDefault(l.maxContext, DEFAULT_MAX_CONTEXT)
  }

  function SourceSum(size: Feedback -> nat, obs: seq<Feedback>): nat {
    if obs == [] then 0 else SourceSum(size, obs[..|obs| - 1]) + size(obs[|obs| - 1])
  }

  method AgentObservationSourceChars(size: Feedback -> nat, obs: seq<Feedback>) returns (total: nat)
    ensures total == SourceSum(size, obs)
  {
    total := 0;
    for i := 0 to |obs|
      invariant total == SourceSum(size, obs[..i])
    {
      assert obs[..i + 1][..i] == obs[..i];
      total := total + size(obs[i]);
    }
    assert obs[..|obs|] == obs;
  }

  lemma {:induction false} SourceSumConcat(size: Feedback -> nat, a: seq<Feedback>, b: seq<Feedback>)
    ensures SourceSum(size, a + b) == SourceSum(size, a) + SourceSum(size, b)
    decreases |b|
  {
    if b == [] {
      assert a + b == a;
    } else {
      assert (a + b)[..|a + b| - 1] == a + b[..|b| - 1];
      SourceSumConcat(size, a, b[..|b| - 1]);
    }
  }

  // Limits that are not positive stand for the usual ones.
  lemma LimitsAre(l: Limits)
    ensures Recent(l) == if l.recent > 0 then l.recent else 10
    ensures Trigger(l) == if l.trigger > 0 then l.trigger else 24000
    ensures MaxContext(l) == if l.maxContext > 0 then l.maxContext else 20000
  {
  }

  // What the summary and some observations take up together.
  function SourceChars(l: Limits, previous: string, obs: seq<Feedback>): nat {
    SourceSum(l.size, obs) + History.ByteLen(TrimSpace(previous))
  }

  // The observations older than the recent ones.
  function Older(l: Limits, obs: seq<Feedback>): seq<Feedback> {
    if |obs| <= Recent(l) then [] else obs[..|obs| - Recent(l)]
  }

  // A history of few observations stays as it is.
  lemma FewStay(l: Limits, previous: string, obs: seq<Feedback>, reply: CompressorReply)
    requires |obs| <= Recent(l)
    ensures CompressAgentObservations(l, previous, obs, reply)
         == Some(Compressed(false, TrimSpace(previous), obs, |obs|, SourceChars(l, previous, obs), false))
  {
    hide SourceChars, TrimSpace, MaxContext, Trigger;
  }

  datatype CompressorReply = NotConfigured | CompressorFailed | Summary(text: string)

  predicate Usable(reply: CompressorReply) {
    reply.Summary? && !Blank(reply.text)
  }

  datatype Compressed = Compressed(
    summarized: bool, summary: string, remaining: seq<Feedback>, messageCount: nat, sourceChars: nat, unavailable: bool)

  // A run may go on with these observations and this summary unsummarised: they are few,
  // small, or their older part still fits the context.
  predicate Fits(l: Limits, summary: string, obs: seq<Feedback>) {
    || |obs| <= Recent(l)
    || SourceChars(l, summary, obs) < Trigger(l)
    || SourceChars(l, summary, Older(l, obs)) <= MaxContext(l)
  }

  predicate WantsSummary(l: Limits, previous: string, obs: seq<Feedback>) {
    |obs| > Recent(l) && SourceChars(l, previous, obs) >= Trigger(l)
  }

  // Without a summary of the older part everything stays as it is; the sizes are counted
  // either way, and a compressor that is missing shows only when it was wanted.
  function CompressAgentObservations(l: Limits, previous: string, obs: seq<Feedback>,
        reply: CompressorReply): (r: Option<Compressed>)
    ensures r == None
       <==> WantsSummary(l, previous, obs) && !Usable(reply) && SourceChars(l, previous, Older(l, obs)) > MaxContext(l)
    ensures r.Some? ==> (r.value.summarized <==> WantsSummary(l, previous, obs) && Usable(reply))
    ensures r.Some? && r.value.summarized ==>
              |r.value.remaining| == Recent(l) && Older(l, obs) != [] && Older(l, obs) + r.value.remaining == obs
              && reply.Summary? && r.value.summary == TrimSpace(reply.text) != ""
              && r.value.messageCount == |obs| - Recent(l)
              && r.value.sourceChars
                 == SourceSum(l.size, obs[..|obs| - Recent(l)]) + History.ByteLen(TrimSpace(previous))
    ensures r.Some? && !r.value.summarized ==>
              r.value.remaining == obs && r.value.summary == TrimSpace(previous) && Fits(l, previous, obs)
              && r.value.messageCount == |obs|
              && r.value.sourceChars == SourceSum(l.size, obs) + History.ByteLen(TrimSpace(previous))
    ensures r.Some? ==> (r.value.unavailable <==> WantsSummary(l, previous, obs) && reply == NotConfigured)
  {
    var trimmed := TrimSpace(previous);
    var raw := Compressed(false, trimmed, obs, |obs|, SourceChars(l, previous, obs), false);
    if obs == [] || |obs| <= Recent(l) || raw.sourceChars < Trigger(l) then Some(raw)
    else
      var candidates, recent := obs[..|obs| - Recent(l)], obs[|obs| - Recent(l)..];
      var candidateChars := SourceChars(l, previous, candidates);
      match reply
      case NotConfigured => if candidateChars > MaxContext(l) then None else Some(raw.(unavailable := true))
      case CompressorFailed => if candidateChars > MaxContext(l) then None else Some(raw)
      case Summary(text) =>
        if TrimSpace(text) != "" then Some(Compressed(true, TrimSpace(text), recent, |candidates|, candidateChars,
            false))
        else if candidateChars > MaxContext(l) then None
        else Some(raw)
  }
}
