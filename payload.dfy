/** groq_payload_converter.py: an OpenAI-style request payload is reduced to
    the parameters that Groq's chat-completions call accepts, dropping every
    entry whose value is Python's `None`.

    A payload is a map from parameter name to an optional value; `None`
    stands for Python's `None`, and the value type is left abstract. */
module Payload {
  import opened Wrappers

  /** The parameters Groq's chat-completions endpoint accepts. */
  const SupportedGroqParams: set<string> := {
    "messages", "model", "frequency_penalty", "logit_bias", "logprobs",
    "max_tokens", "n", "presence_penalty", "response_format", "seed", "stop",
    "stream", "temperature", "top_p", "top_logprobs", "tool_choice", "tools",
    "user"
  }

  /** The payload keeps exactly the supported entries that carry a value. */
  function ConvertToGroqPayload<V(==)>(payload: map<string, Option<V>>): (r: map<string, Option<V>>)
    ensures forall k | k in r :: k in SupportedGroqParams
    ensures forall k | k in r :: k in payload && r[k] == payload[k] && r[k].Some?
    ensures forall k | k in payload && k in SupportedGroqParams && payload[k].Some? :: k in r
  {
    map k | k in payload && k in SupportedGroqParams && payload[k].Some? :: payload[k]
  }

  /** Filtering a filtered payload changes nothing. */
  lemma ConvertIdempotent<V>(payload: map<string, Option<V>>)
    ensures ConvertToGroqPayload(ConvertToGroqPayload(payload)) == ConvertToGroqPayload(payload)
  {
    var once := ConvertToGroqPayload(payload);
    var twice := ConvertToGroqPayload(once);
    assert twice.Keys == once.Keys;
  }

  /** A payload with no supported, non-null entry becomes empty; in particular
      the empty payload does. */
  lemma ConvertNothingSupported<V>(payload: map<string, Option<V>>)
    requires forall k | k in payload :: k !in SupportedGroqParams || payload[k].None?
    ensures ConvertToGroqPayload(payload) == map[]
  {
    var r := ConvertToGroqPayload(payload);
    assert r.Keys == {};
  }

  /** A payload that already holds only supported, non-null entries passes
      through unchanged. */
  lemma ConvertKeepsClean<V>(payload: map<string, Option<V>>)
    requires forall k | k in payload :: k in SupportedGroqParams && payload[k].Some?
    ensures ConvertToGroqPayload(payload) == payload
  {
    var r := ConvertToGroqPayload(payload);
    assert r.Keys == payload.Keys;
  }

  /** Adding an unsupported parameter to the request does not change what
      reaches Groq. */
  lemma ConvertIgnoresUnsupported<V>(payload: map<string, Option<V>>, k: string, v: Option<V>)
    requires k !in SupportedGroqParams
    ensures ConvertToGroqPayload(payload[k := v]) == ConvertToGroqPayload(payload - {k})
  {
    var a := ConvertToGroqPayload(payload[k := v]);
    var b := ConvertToGroqPayload(payload - {k});
    assert a.Keys == b.Keys;
  }
}
