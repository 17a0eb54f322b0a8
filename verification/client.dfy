/** The credential gate in front of the two language-model backends
    (test_tc_generator/processor.py, configure_api_clients), and what one call
    to a backend can give back. */
module Client {
  import opened Values

  const GeminiOption := "Google Gemini"
  const OpenAIOption := "OpenAI GPT-4 Turbo"
  const MissingKeyMessage := "API 키가 설정되지 않았습니다."

  /** The value configure_api_clients returns: the marker string "gemini", or an
      OpenAI client built from the key. */
  datatype Handle = GeminiMarker | OpenAIClient(apiKey: string)

  /** Which branch every stage takes: `if model_option == "Google Gemini"` or the else branch. */
  datatype Backend = Gemini | OpenAI

  /** One backend call as the core sees it. `Unreadable` is a reply whose text cannot be
      read: Gemini's `response.text` raises, or OpenAI's message content is None. */
  datatype Reply = Text(text: string) | Unreadable | CallFailed

  /** The sequence of replies of one run: the k-th call of a stage gets `oracle(k)`. */
  type Oracle = nat -> Reply

  /** json.loads: an uninterpreted partial parser. */
  type Parser = string -> Option<Json>

  function ConfigureApiClients(option: string, apiKeys: map<string, string>): (r: Result<Handle>)
    ensures r.Ok? <==> (option == GeminiOption && "gemini" in apiKeys) || (option == OpenAIOption && "openai" in apiKeys)
    ensures r.Ok? && option == GeminiOption ==> r.value == GeminiMarker
    ensures r.Ok? && option != GeminiOption ==> "openai" in apiKeys && r.value == OpenAIClient(apiKeys["openai"])
    ensures r.Err? ==> r.error == ValueError(MissingKeyMessage)
  {
    if option == GeminiOption && "gemini" in apiKeys then Ok(GeminiMarker)
    else if option == OpenAIOption && "openai" in apiKeys then Ok(OpenAIClient(apiKeys["openai"]))
    else Err(ValueError(MissingKeyMessage))
  }

  function BackendOf(option: string): Backend {
    if option == GeminiOption then Gemini else OpenAI
  }
}
