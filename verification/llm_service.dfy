/**
 * `LLMService.gerar_prova` with the chat-completion call taken out: the
 * reply (or the exception the call raised) and `json.loads` are inputs.
 */
module LlmService {
  import opened Wrappers
  import opened Json
  import opened Cleanup
  import opened Validation

  /** The only provider with a code path; `LLM_PROVIDER` defaults to it. */
  const GroqProvider: string := "groq"
  const ErrorPrefix: string := "Erro ao gerar prova: "
  const InvalidJsonMessage: string := "O modelo retornou um JSON inválido. Por favor, tente novamente."

  /**
   * `gerar_prova` (lines 37-97). `reply` is the message content, or the text
   * of the exception the call raised; `parse` stands for `json.loads`, `None`
   * being a JSONDecodeError. `Ok(None)` is the implicit `return None` of a
   * provider other than groq.
   */
  function Generate(provider: string, reply: Result<string, string>, parse: string -> Option<Json>)
    : (r: Result<Option<Json>, Failure>)
    ensures provider != GroqProvider <==> r == Ok(None)
    ensures r.Ok? && r.value.Some? ==> Accepted(r.value.value, AsWritten)
    ensures provider == GroqProvider && reply.Err? ==> r.Err? && r.error.TransportFailure?
  {
    if provider != GroqProvider then Ok(None)
    else match reply
      case Err(detail) => Err(TransportFailure(detail))
      case Ok(text) =>
        match Clean(text)
        case None => Err(IndexOutOfRange)
        case Some(cleaned) =>
          match parse(cleaned)
          case None => Err(InvalidJson)
          case Some(prova) =>
            match Validate(prova, AsWritten)
            case Err(f) => Err(f)
            case Ok(p) => Ok(Some(p))
  }

  /**
   * Success exactly when the provider is groq, the call answered, the
   * cleanup did not fail, the cleaned text parsed and the parsed object
   * passed every check; the object is then returned unmodified.
   */
  lemma GenerateSucceeds(provider: string, reply: Result<string, string>, parse: string -> Option<Json>, prova: Json)
    ensures Generate(provider, reply, parse) == Ok(Some(prova)) <==>
      && provider == GroqProvider
      && reply.Ok?
      && Clean(reply.value).Some?
      && parse(Clean(reply.value).value) == Some(prova)
      && Accepted(prova, AsWritten)
  {
    if provider == GroqProvider && reply.Ok? {
      match Clean(reply.value)
      case None =>
      case Some(cleaned) =>
        match parse(cleaned)
        case None =>
        case Some(v) => assert Validate(v, AsWritten).Ok? <==> Accepted(v, AsWritten);
    }
  }

  /** Every outcome of `gerar_prova`, by the stage that decided it. */
  lemma GenerateOutcomes(provider: string, reply: Result<string, string>, parse: string -> Option<Json>)
    ensures provider != GroqProvider ==> Generate(provider, reply, parse) == Ok(None)
    ensures provider == GroqProvider && reply.Err? ==>
      Generate(provider, reply, parse) == Err(TransportFailure(reply.error))
    ensures provider == GroqProvider && reply.Ok? && Clean(reply.value).None? ==>
      Generate(provider, reply, parse) == Err(IndexOutOfRange)
    ensures provider == GroqProvider && reply.Ok? && Clean(reply.value).Some? && parse(Clean(reply.value).value).None? ==>
      Generate(provider, reply, parse) == Err(InvalidJson)
    ensures provider == GroqProvider && reply.Ok? && Clean(reply.value).Some? && parse(Clean(reply.value).value).Some? ==>
      var prova := parse(Clean(reply.value).value).value;
      Generate(provider, reply, parse) == (if Accepted(prova, AsWritten) then Ok(Some(prova)) else Err(Validate(prova, AsWritten).error))
  {
  }

  /**
   * The text of the exception `gerar_prova` raises (line 97): every failure
   * is re-raised as `Erro ao gerar prova: ` followed by its own message.
   * The wording of a TypeError or AttributeError Python raises itself is
   * not part of the model.
   */
  function Message(f: Failure): (m: seq<Piece>)
    requires !f.TypeFailure?
    ensures |m| >= 2 && m[0] == Lit(ErrorPrefix)
    ensures f.TransportFailure? ==> m[1..] == [Lit(f.detail)]
    ensures f.InvalidJson? ==> m[1..] == [Lit(InvalidJsonMessage)]
    ensures f.MissingOptions? || f.InvalidAnswer? ==> Str(f.numero) in m
    ensures f.MissingQuestionField? ==>
      m[|m| - 1] == (if f.shown.Some? then Str(f.shown.value) else Lit("?"))
  {
    [Lit(ErrorPrefix)] +
    match f
    case TransportFailure(detail) => [Lit(detail)]
    case IndexOutOfRange => [Lit("list index out of range")]
    case InvalidJson => [Lit(InvalidJsonMessage)]
    case MissingField(c) => [Lit("Campo obrigatório '" + c + "' não encontrado na resposta")]
    case MissingQuestionField(c, shown) =>
      [Lit("Campo '" + c + "' não encontrado na questão "), if shown.Some? then Str(shown.value) else Lit("?")]
    case MissingOptions(n) => [Lit("Questão "), Str(n), Lit(" não tem todas as alternativas (a, b, c, d)")]
    case InvalidAnswer(n) => [Lit("Resposta correta inválida na questão "), Str(n)]
  }

  /** A missing-field message names the field, after the prefix. */
  lemma MessageNamesField(f: Failure)
    requires f.MissingField? || f.MissingQuestionField?
    ensures Message(f)[1].Lit? && IsSubstring(f.field, Message(f)[1].text)
  {
    if f.MissingField? {
      SubstringOfJoin("Campo obrigatório '", f.field, "' não encontrado na resposta");
    } else {
      SubstringOfJoin("Campo '", f.field, "' não encontrado na questão ");
    }
  }
}
