/**
 call_llm: checks the credential, then the provider, then builds the request
 (system message annotated with the level, followed by the history) and hands
 it to the remote completion, which is abstracted as an oracle.
 */
module Gateway {
  import opened Wrappers
  import opened MessageLog

  /** The configuration call_llm reads: LLM_API_KEY, LLM_PROVIDER and SYSTEM_PROMPT. */
  datatype GatewayConfig = GatewayConfig(apiKey: string, provider: string, systemPrompt: string)

  /** Why a call fails: the credential assertion, the unknown-provider ValueError,
      or a failure of the remote call itself (HTTP status, timeout, malformed envelope). */
  datatype LlmError = MissingApiKey | UnknownProvider | Upstream(detail: string)

  /** The remote completion: a reply text for a request, or a failure description. */
  type Oracle = seq<ChatMessage> -> Result<string, string>

  const SystemRole: string := "system"
  const Mistral: string := "mistral"

  /** The only character mapping str.lower() needs here: A-Z to a-z. */
  function AsciiLower(c: char): char
  {
    if 'A' <= c <= 'Z' then (c as int + 32) as char else c
  }

  /** LLM_PROVIDER.lower() == "mistral". */
  predicate IsMistral(provider: string)
  {
    |provider| == |Mistral| && forall i :: 0 <= i < |provider| ==> AsciiLower(provider[i]) == Mistral[i]
  }

  /** The system message: the prompt followed by a line naming the level. */
  function SystemMessage(prompt: string, level: string): ChatMessage
  {
    ChatMessage(SystemRole, prompt + "\nNiveau: " + level)
  }

  /** The `messages` field of the payload: the system message, then the whole history. */
  function BuildRequest(prompt: string, level: string, history: seq<ChatMessage>): seq<ChatMessage>
  {
    [SystemMessage(prompt, level)] + history
  }

  /** Reads a request back: the level named after the prompt in the system
      message, and the history that follows it; None when `req` does not start
      with a system message for `prompt`. */
  function ParseRequest(prompt: string, req: seq<ChatMessage>): Option<(string, seq<ChatMessage>)>
  {
    var header := prompt + "\nNiveau: ";
    if req == [] || req[0].role != SystemRole || |req[0].content| < |header| ||
       req[0].content[..|header|] != header
    then None
    else Some((req[0].content[|header|..], req[1..]))
  }

  /** The request carries the level and the history it was built from. */
  lemma ParseBuildRequest(prompt: string, level: string, history: seq<ChatMessage>)
    ensures ParseRequest(prompt, BuildRequest(prompt, level, history)) == Some((level, history))
  {
    var header := prompt + "\nNiveau: ";
    var content := BuildRequest(prompt, level, history)[0].content;
    assert content == header + level;
    assert content[..|header|] == header;
    assert content[|header|..] == level;
  }

  /** Every request ParseRequest accepts is the request built from what it reads. */
  lemma BuildParsedRequest(prompt: string, req: seq<ChatMessage>)
    requires ParseRequest(prompt, req).Some?
    ensures var (level, history) := ParseRequest(prompt, req).value;
      BuildRequest(prompt, level, history) == req
  {
    var header := prompt + "\nNiveau: ";
    var (level, history) := ParseRequest(prompt, req).value;
    assert req[0].content == req[0].content[..|header|] + req[0].content[|header|..];
    assert req == [req[0]] + req[1..];
  }

  /** Requests for one prompt differ whenever their levels or histories do. */
  lemma BuildRequestInjective(prompt: string, l1: string, h1: seq<ChatMessage>, l2: string, h2: seq<ChatMessage>)
    ensures BuildRequest(prompt, l1, h1) == BuildRequest(prompt, l2, h2) <==> l1 == l2 && h1 == h2
  {
    ParseBuildRequest(prompt, l1, h1);
    ParseBuildRequest(prompt, l2, h2);
  }

  /** call_llm(history, level) with the remote call replaced by `complete`. An
      empty key fails first, then an unknown provider; otherwise the oracle's
      answer to the assembled request is passed on. */
  function CallLlm(cfg: GatewayConfig, history: seq<ChatMessage>, level: string, complete: Oracle)
    : (r: Result<string, LlmError>)
    ensures var answer := complete(BuildRequest(cfg.systemPrompt, level, history));
      && (r == Failure(MissingApiKey) <==> cfg.apiKey == "")
      && (r == Failure(UnknownProvider) <==> cfg.apiKey != "" && !IsMistral(cfg.provider))
      && (r.Success? <==> cfg.apiKey != "" && IsMistral(cfg.provider) && answer.Success?)
      && (r.Success? ==> r.value == answer.value)
      && (r.Failure? && cfg.apiKey != "" && IsMistral(cfg.provider) ==> r.error == Upstream(answer.error))
  {
    if cfg.apiKey == "" then Failure(MissingApiKey)
    else if !IsMistral(cfg.provider) then Failure(UnknownProvider)
    else match complete(BuildRequest(cfg.systemPrompt, level, history))
      case Success(text) => Success(text)
      case Failure(detail) => Failure(Upstream(detail))
  }

  // ---------------------------------------------------------------------

  /** The provider test accepts exactly the spellings of "mistral" in any mix of cases. */
  lemma IsMistralSpellings(provider: string)
    ensures IsMistral(provider) <==>
              |provider| == 7 && forall i :: 0 <= i < 7 ==> provider[i] == "mistral"[i] || provider[i] == "MISTRAL"[i]
  {
    if IsMistral(provider) {
      forall i | 0 <= i < 7 ensures provider[i] == "mistral"[i] || provider[i] == "MISTRAL"[i] {
        assert AsciiLower(provider[i]) == Mistral[i];
      }
    }
  }

  /** Neither check consults the oracle: a call that fails on configuration
      fails in the same way whatever the remote side would have answered. */
  lemma ConfigFailureIgnoresOracle(cfg: GatewayConfig, history: seq<ChatMessage>, level: string, c1: Oracle, c2: Oracle)
    requires cfg.apiKey == "" || !IsMistral(cfg.provider)
    ensures CallLlm(cfg, history, level, c1) == CallLlm(cfg, history, level, c2)
    ensures CallLlm(cfg, history, level, c1).Failure?
  {
  }
}
