/** The unified LLM interface: a local Ollama model whose reasoning block is
    cut off, or a fixed list of free proxy providers tried in order. The
    model servers' answers are inputs: `ollama(prompt)` is what the local
    `generate` call returns or raises, `ask(provider, prompt)` what one
    provider call returns or raises. */
module LlmAnalysis {
  import opened Wrappers
  import PyStr
  import PyDict

  /** The tag that closes a reasoning block. */
  const ThinkClose: string := "</think>"

  /** The prefix `query_llm` gives every error it re-raises. */
  const QueryErrorPrefix: string := "Ошибка при запросе к LLM: "

  /** The answer returned when no provider gives a non-empty response. */
  const NoProviderAnswer: string := "Не удалось получить ответ от ни одного провайдера"

  /** `IS_LOCAL_LLM`: the raw environment string, used as a truth value, so
      any non-empty text selects the local model. */
  predicate IsLocalLlm(env: Option<string>) {
    env.Some? && env.value != ""
  }

  /** Even the text "false" selects the local model; only an unset or empty
      variable selects the proxy providers. */
  lemma LocalFlagIsRawString()
    ensures IsLocalLlm(Some("false")) && IsLocalLlm(Some("0"))
    ensures !IsLocalLlm(Some("")) && !IsLocalLlm(None)
  {
  }

  /** The reply of the local model with everything up to and including the
      last "</think>" removed; unchanged when the tag does not occur. */
  function StripThink(response: string): (r: string)
    ensures |r| <= |response| && r == response[|response| - |r|..]
    ensures !PyStr.Contains(r, ThinkClose)
    ensures !PyStr.Contains(response, ThinkClose) ==> r == response
    ensures PyStr.Contains(response, ThinkClose) ==>
      |r| + |ThinkClose| <= |response| &&
      response == response[..|response| - |r| - |ThinkClose|] + ThinkClose + r
  {
    var parts := PyStr.RSplitOnce(response, ThinkClose);
    if |parts| > 1 then
      var r := parts[|parts| - 1];
      assert response == parts[0] + ThinkClose + r;
      assert response[|response| - |r|..] == r;
      assert response[..|response| - |r| - |ThinkClose|] == parts[0];
      r
    else response
  }

  /** `str(e)`. For FastAPI's HTTPException it is "<status>: <detail>". */
  function ExceptionText(e: PyException): string {
    match e
    case AssertionError => ""
    case IndexError => "list index out of range"
    case AttributeError => "'NoneType' object has no attribute 'get'"
    case TypeError => "'<' not supported between instances of 'NoneType' and 'int'"
    case External(message) => message
    case HttpException(status, detail) => PyStr.IntToString(status) + ": " + detail
  }

  /** The proxy providers. */
  datatype Provider = Chatai | Bing | You

  /** The provider named by the caller, when the name is non-empty (truthy)
      and a key of the provider table. */
  function NamedProvider(providers: seq<(string, Provider)>, providerName: Option<string>): Option<Provider> {
    if providerName.Some? && providerName.value != "" then PyDict.Get(providers, providerName.value)
    else None
  }

  /** A reply the fallback loop accepts: returned, and non-empty. */
  predicate Usable(reply: Outcome<string>) {
    reply.Ok? && reply.value != ""
  }

  /** Provider `i` gives the non-empty reply `answer` and every provider
      before it fails or gives an empty reply. */
  predicate ReplyAt(
    providers: seq<(string, Provider)>, ask: (Provider, string) -> Outcome<string>, prompt: string,
    answer: string, i: int)
    requires 0 <= i < |providers|
  {
    && ask(providers[i].1, prompt) == Ok(answer) && answer != ""
    && forall j :: 0 <= j < i ==> !Usable(ask(providers[j].1, prompt))
  }

  /** Some provider gives `answer` as the first usable reply. */
  predicate FoundAt(
    providers: seq<(string, Provider)>, ask: (Provider, string) -> Outcome<string>, prompt: string,
    answer: string)
  {
    exists i :: 0 <= i < |providers| && ReplyAt(providers, ask, prompt, answer, i)
  }

  /** The first usable reply in provider order, if any. */
  function FirstUsable(
    providers: seq<(string, Provider)>, ask: (Provider, string) -> Outcome<string>, prompt: string):
    (r: Option<string>)
    ensures r.None? <==> forall i :: 0 <= i < |providers| ==> !Usable(ask(providers[i].1, prompt))
    ensures r.Some? ==> FoundAt(providers, ask, prompt, r.value)
  {
    if providers == [] then None
    else if Usable(ask(providers[0].1, prompt)) then
      assert ReplyAt(providers, ask, prompt, ask(providers[0].1, prompt).value, 0);
      Some(ask(providers[0].1, prompt).value)
    else
      var r := FirstUsable(providers[1..], ask, prompt);
      assert r.Some? ==> FoundAt(providers, ask, prompt, r.value) by {
        if r.Some? {
          var i :| 0 <= i < |providers[1..]| && ReplyAt(providers[1..], ask, prompt, r.value, i);
          assert ReplyAt(providers, ask, prompt, r.value, i + 1) by {
            forall j | 0 <= j < i + 1 ensures !Usable(ask(providers[j].1, prompt)) {
              if j > 0 { assert providers[j] == providers[1..][j - 1]; }
            }
          }
        }
      }
      r
  }

  /** What `_g4f_llm(prompt, provider_name)` returns or raises. */
  function G4fAnswer(
    providers: seq<(string, Provider)>, providerName: Option<string>,
    ask: (Provider, string) -> Outcome<string>, prompt: string): (r: Outcome<string>)
    ensures NamedProvider(providers, providerName).Some? ==>
      var reply := ask(NamedProvider(providers, providerName).value, prompt);
      && (reply.Ok? ==> r == reply)
      && (reply.Raised? ==>
            r == Raised(HttpException(500, "Provider " + providerName.value + " failed: " + ExceptionText(reply.error))))
    ensures NamedProvider(providers, providerName).None? ==> r.Ok?
    ensures NamedProvider(providers, providerName).None? && r.value != NoProviderAnswer ==>
      FoundAt(providers, ask, prompt, r.value)
    ensures NamedProvider(providers, providerName).None? ==>
      ((forall i :: 0 <= i < |providers| ==> !Usable(ask(providers[i].1, prompt))) ==> r == Ok(NoProviderAnswer))
    ensures NamedProvider(providers, providerName).None? ==>
      ((exists i :: 0 <= i < |providers| && Usable(ask(providers[i].1, prompt))) ==> FoundAt(providers, ask, prompt, r.value))
  {
    match NamedProvider(providers, providerName)
    case Some(p) =>
      (match ask(p, prompt)
       case Ok(response) => Ok(response)
       case Raised(e) =>
         Raised(HttpException(500, "Provider " + providerName.value + " failed: " + ExceptionText(e))))
    case None =>
      (match FirstUsable(providers, ask, prompt)
       case Some(response) => Ok(response)
       case None => Ok(NoProviderAnswer))
  }

  /** What `_local_llm(prompt)` returns or raises. */
  function LocalAnswer(ollama: string -> Outcome<string>, prompt: string): (r: Outcome<string>)
    ensures ollama(prompt).Raised? ==> r == Raised(ollama(prompt).error)
    ensures ollama(prompt).Ok? ==> r == Ok(StripThink(ollama(prompt).value))
    ensures ollama(prompt).Ok? ==>
      var reply := ollama(prompt).value;
      && r.Ok?
      && |r.value| <= |reply| && r.value == reply[|reply| - |r.value|..]
      && !PyStr.Contains(r.value, ThinkClose)
      && (!PyStr.Contains(reply, ThinkClose) ==> r.value == reply)
  {
    match ollama(prompt)
    case Ok(response) => Ok(StripThink(response))
    case Raised(e) => Raised(e)
  }

  /** What `query_llm(prompt, provider_name)` returns or raises: any exception
      of either path comes back as an HTTP 500 whose detail names it. */
  function QueryAnswer(
    providers: seq<(string, Provider)>, env: Option<string>, providerName: Option<string>,
    ollama: string -> Outcome<string>, ask: (Provider, string) -> Outcome<string>, prompt: string):
    (r: Outcome<string>)
    ensures r.Raised? ==> r.error.HttpException? && r.error.status == 500 && QueryErrorPrefix <= r.error.detail
    ensures IsLocalLlm(env) ==> (r.Ok? <==> ollama(prompt).Ok?)
    ensures IsLocalLlm(env) && r.Ok? ==> r == LocalAnswer(ollama, prompt)
    ensures !IsLocalLlm(env) ==> (r.Ok? <==> G4fAnswer(providers, providerName, ask, prompt).Ok?)
    ensures !IsLocalLlm(env) && r.Ok? ==> r == G4fAnswer(providers, providerName, ask, prompt)
  {
    var res := if IsLocalLlm(env) then LocalAnswer(ollama, prompt) else G4fAnswer(providers, providerName, ask, prompt);
    match res
    case Ok(text) => Ok(text)
    case Raised(e) => Raised(HttpException(500, QueryErrorPrefix + ExceptionText(e)))
  }

  /** The provider table of a fresh service, in its order. */
  const DefaultProviders: seq<(string, Provider)> := [("aichat", Chatai), ("bing", Bing), ("you", You)]

  /** The service object and its provider table, fixed at construction. */
  class LlmService {
    const providers: seq<(string, Provider)>

    constructor ()
      ensures providers == DefaultProviders
      ensures PyDict.Keys(providers) == ["aichat", "bing", "you"]
    {
      providers := DefaultProviders;
    }

    /** `_g4f_llm`: a named known provider is asked alone and its reply
        returned as it is; otherwise each provider is asked in order and the
        first non-empty reply wins, failures being skipped. */
    method G4fLlm(prompt: string, providerName: Option<string>, ask: (Provider, string) -> Outcome<string>)
      returns (r: Outcome<string>)
      ensures r == G4fAnswer(providers, providerName, ask, prompt)
    {
      var named := NamedProvider(providers, providerName);
      if named.Some? {
        var response := ask(named.value, prompt);
        if response.Raised? {
          return Raised(HttpException(500, "Provider " + providerName.value + " failed: " + ExceptionText(response.error)));
        }
        return response;
      }
      var i := 0;
      while i < |providers|
        invariant 0 <= i <= |providers|
        invariant FirstUsable(providers, ask, prompt) == FirstUsable(providers[i..], ask, prompt)
      {
        var response := ask(providers[i].1, prompt);
        if response.Ok? && |response.value| > 0 {
          return Ok(response.value);
        }
        assert providers[i..][1..] == providers[i + 1..];
        i := i + 1;
      }
      return Ok(NoProviderAnswer);
    }

    /** `query_llm`: the local model when the environment flag is truthy,
        otherwise the proxy providers; any exception is re-raised as HTTP 500. */
    method QueryLlm(
      prompt: string, providerName: Option<string>, env: Option<string>,
      ollama: string -> Outcome<string>, ask: (Provider, string) -> Outcome<string>)
      returns (r: Outcome<string>)
      ensures r == QueryAnswer(providers, env, providerName, ollama, ask, prompt)
    {
      var res: Outcome<string>;
      if IsLocalLlm(env) {
        res := LocalAnswer(ollama, prompt);
      } else {
        res := G4fLlm(prompt, providerName, ask);
      }
      if res.Raised? {
        return Raised(HttpException(500, QueryErrorPrefix + ExceptionText(res.error)));
      }
      r := res;
    }
  }

  /** A known provider name: only that provider is asked, its reply is
      returned as it is even when empty, and its failure raises HTTP 500
      naming it, with no fallback. */
  lemma NamedProviderAlone(name: string, ask: (Provider, string) -> Outcome<string>, prompt: string, p: Provider)
    requires PyDict.Get(DefaultProviders, name) == Some(p) && name != ""
    ensures ask(p, prompt).Ok? ==> G4fAnswer(DefaultProviders, Some(name), ask, prompt) == ask(p, prompt)
    ensures ask(p, prompt).Raised? ==>
      G4fAnswer(DefaultProviders, Some(name), ask, prompt)
        == Raised(HttpException(500, "Provider " + name + " failed: " + ExceptionText(ask(p, prompt).error)))
    ensures forall ask2: (Provider, string) -> Outcome<string> :: ask2(p, prompt) == ask(p, prompt) ==>
      G4fAnswer(DefaultProviders, Some(name), ask2, prompt) == G4fAnswer(DefaultProviders, Some(name), ask, prompt)
  {
  }

  /** With no name, an empty name or an unknown name, the providers are asked
      in the order aichat, bing, you; the first non-empty reply is returned,
      and if there is none the fixed message is: this path never raises. */
  lemma FallbackOrder(providerName: Option<string>, ask: (Provider, string) -> Outcome<string>, prompt: string)
    requires providerName.None? || providerName.value == "" || PyDict.Get(DefaultProviders, providerName.value).None?
    ensures G4fAnswer(DefaultProviders, providerName, ask, prompt).Ok?
    ensures G4fAnswer(DefaultProviders, providerName, ask, prompt) ==
      if Usable(ask(Chatai, prompt)) then ask(Chatai, prompt)
      else if Usable(ask(Bing, prompt)) then ask(Bing, prompt)
      else if Usable(ask(You, prompt)) then ask(You, prompt)
      else Ok(NoProviderAnswer)
  {
    var ps := DefaultProviders;
    assert ps[1..] == [("bing", Bing), ("you", You)];
    assert ps[1..][1..] == [("you", You)];
    assert ps[1..][1..][1..] == [];
    assert FirstUsable(ps[1..][1..], ask, prompt) ==
      if Usable(ask(You, prompt)) then Some(ask(You, prompt).value) else None;
    assert FirstUsable(ps[1..], ask, prompt) ==
      if Usable(ask(Bing, prompt)) then Some(ask(Bing, prompt).value) else FirstUsable(ps[1..][1..], ask, prompt);
    assert NamedProvider(ps, providerName).None?;
  }

  /** Every exception that leaves `query_llm` is an HTTP 500 whose detail
      starts with the fixed prefix and carries the text of the original. */
  lemma QueryErrorsAreWrapped(
    providers: seq<(string, Provider)>, env: Option<string>, providerName: Option<string>,
    ollama: string -> Outcome<string>, ask: (Provider, string) -> Outcome<string>, prompt: string)
    ensures var r := QueryAnswer(providers, env, providerName, ollama, ask, prompt);
      r.Raised? ==>
        r.error.HttpException? && r.error.status == 500 && QueryErrorPrefix <= r.error.detail
    ensures IsLocalLlm(env) && ollama(prompt).Raised? ==>
      QueryAnswer(providers, env, providerName, ollama, ask, prompt)
        == Raised(HttpException(500, QueryErrorPrefix + ExceptionText(ollama(prompt).error)))
  {
  }

  /** The flag alone picks the path: in local mode the providers are never
      consulted and the answer is the stripped local reply; otherwise the
      local model is never consulted. */
  lemma ModeSelection(
    providers: seq<(string, Provider)>, env: Option<string>, providerName: Option<string>,
    ollama: string -> Outcome<string>, ask: (Provider, string) -> Outcome<string>, prompt: string)
    ensures IsLocalLlm(env) && ollama(prompt).Ok? ==>
      QueryAnswer(providers, env, providerName, ollama, ask, prompt) == Ok(StripThink(ollama(prompt).value))
    ensures !IsLocalLlm(env) ==> forall ollama2: string -> Outcome<string> ::
      QueryAnswer(providers, env, providerName, ollama2, ask, prompt)
        == QueryAnswer(providers, env, providerName, ollama, ask, prompt)
  {
  }

  /** `str(HTTPException(500, detail))`: "500: " and the detail. */
  lemma StatusText500(detail: string)
    ensures PyStr.IntToString(500) == "500"
    ensures ExceptionText(HttpException(500, detail)) == "500: " + detail
  {
    assert PyStr.NatToString(5) == "5";
    assert PyStr.NatToString(50) == "50";
  }

  /** A failing named provider makes `_g4f_llm` raise HTTP 500 naming it. */
  lemma NamedProviderRaises(
    providers: seq<(string, Provider)>, name: string, p: Provider, msg: string,
    ask: (Provider, string) -> Outcome<string>, prompt: string)
    requires PyDict.Get(providers, name) == Some(p) && name != ""
    requires ask(p, prompt) == Raised(External(msg))
    ensures G4fAnswer(providers, Some(name), ask, prompt)
      == Raised(HttpException(500, "Provider " + name + " failed: " + msg))
  {
    assert NamedProvider(providers, Some(name)) == Some(p);
  }

  /** A failing named provider reaches the caller of `query_llm` with both
      prefixes: "<prefix>500: Provider <name> failed: <error>". */
  lemma NamedProviderFailureText(
    providers: seq<(string, Provider)>, env: Option<string>, name: string, p: Provider, msg: string,
    ollama: string -> Outcome<string>, ask: (Provider, string) -> Outcome<string>, prompt: string)
    requires !IsLocalLlm(env)
    requires PyDict.Get(providers, name) == Some(p) && name != ""
    requires ask(p, prompt) == Raised(External(msg))
    ensures QueryAnswer(providers, env, Some(name), ollama, ask, prompt)
      == Raised(HttpException(500, QueryErrorPrefix + ("500: " + ("Provider " + name + " failed: " + msg))))
  {
    var inner := "Provider " + name + " failed: " + msg;
    var e := HttpException(500, inner);
    NamedProviderRaises(providers, name, p, msg, ask, prompt);
    assert QueryAnswer(providers, env, Some(name), ollama, ask, prompt)
      == Raised(HttpException(500, QueryErrorPrefix + ExceptionText(e)));
    StatusText500(inner);
  }
}
