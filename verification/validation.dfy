/**
 * The structural checks `gerar_prova` runs on the parsed reply before it is
 * returned: six top-level keys, four keys per question, options `a`-`d`,
 * and an answer among those letters. The first violation met is reported.
 */
module Validation {
  import opened Wrappers
  import opened Json

  const RequiredFields: seq<string> := ["titulo", "disciplina", "serie", "professor", "data", "questoes"]
  const QuestionFields: seq<string> := ["numero", "enunciado", "alternativas", "resposta_correta"]
  const Letters: seq<string> := ["a", "b", "c", "d"]
  const AnswerValues: seq<Json> := [JStr("a"), JStr("b"), JStr("c"), JStr("d")]

  /** Why generating an exam failed; each case is one `raise` reachable in `gerar_prova`. */
  datatype Failure =
    | TransportFailure(detail: string)         // the chat-completion call raised
    | IndexOutOfRange                          // cleanup: fence line with no newline
    | InvalidJson                              // `json.loads` rejected the cleaned text
    | MissingField(field: string)              // a top-level key is missing
    | MissingQuestionField(field: string, shown: Option<Json>)  // `None` is shown as `?`
    | MissingOptions(numero: Json)             // not all of `a`-`d` among the options
    | InvalidAnswer(numero: Json)              // answer outside `a`-`d`
    | TypeFailure                              // a TypeError/AttributeError from a value of the wrong type

  /** The outcome of `campo in prova` for one required key. */
  function TopFieldFailure(p: Json, field: string): (r: Option<Failure>)
    ensures r.None? <==> PyIn(field, p) == Some(true)
  {
    match PyIn(field, p)
    case None => Some(TypeFailure)
    case Some(present) => if present then None else Some(MissingField(field))
  }

  /** First failure of the top-level key loop (lines 75-77), from position `i` on. */
  function TopFailure(p: Json, i: nat): (r: Option<Failure>)
    requires i <= |RequiredFields|
    decreases |RequiredFields| - i
    ensures r.None? <==> forall j :: i <= j < |RequiredFields| ==> PyIn(RequiredFields[j], p) == Some(true)
  {
    if i == |RequiredFields| then None
    else
      var f := TopFieldFailure(p, RequiredFields[i]);
      if f.Some? then f else TopFailure(p, i + 1)
  }

  /** `questao.get('numero', '?')`: `None` stands for the `?` shown instead. */
  function NumeroOrUnknown(q: Json): (r: Option<Json>)
    requires q.JObj?
    ensures r.None? <==> !HasKey(q, "numero")
    ensures r.Some? ==> r.value == Get(q, "numero")
  {
    if HasKey(q, "numero") then Some(Get(q, "numero")) else None
  }

  /** First missing question key (lines 82-84), from position `i` on. */
  function FieldsFailure(q: Json, i: nat): (r: Option<Failure>)
    requires q.JObj? && i <= |QuestionFields|
    decreases |QuestionFields| - i
    ensures r.None? <==> forall j :: i <= j < |QuestionFields| ==> HasKey(q, QuestionFields[j])
    ensures r.Some? ==> r.value.MissingQuestionField? && r.value.shown == NumeroOrUnknown(q)
  {
    if i == |QuestionFields| then None
    else if !HasKey(q, QuestionFields[i]) then Some(MissingQuestionField(QuestionFields[i], NumeroOrUnknown(q)))
    else FieldsFailure(q, i + 1)
  }

  /**
   * Line 87 as written: `all(letra in alternativas for letra in 'abcd')`,
   * with Python's `in`, from letter `i` on; `None` is the TypeError raised
   * on a value that supports no `in`.
   */
  function OptionsCheckAsWritten(alts: Json, i: nat): (r: Option<bool>)
    requires i <= |Letters|
    decreases |Letters| - i
    ensures alts.JObj? ==> r == Some(forall j :: i <= j < |Letters| ==> HasKey(alts, Letters[j]))
    ensures alts.JArr? ==> r == Some(forall j :: i <= j < |Letters| ==> JStr(Letters[j]) in alts.items)
    ensures alts.JStr? ==> r == Some(forall j :: i <= j < |Letters| ==> IsSubstring(Letters[j], alts.s))
    ensures i < |Letters| && !(alts.JObj? || alts.JArr? || alts.JStr?) ==> r.None?
  {
    if i == |Letters| then Some(true)
    else match PyIn(Letters[i], alts)
      case None => None
      case Some(present) => if present then OptionsCheckAsWritten(alts, i + 1) else Some(false)
  }

  /** Line 87 as intended: the options are a dict holding each of `a`-`d`; other keys are allowed. */
  predicate HasAllOptions(alts: Json) {
    alts.JObj? && forall l :: l in Letters ==> HasKey(alts, l)
  }

  /** On a dict, line 87 as written and as intended give the same verdict. */
  lemma OptionsChecksAgreeOnDicts(alts: Json)
    ensures alts.JObj? ==> OptionsCheckAsWritten(alts, 0) == Some(HasAllOptions(alts))
  {
    if alts.JObj? {
      assert HasAllOptions(alts) <==> forall j :: 0 <= j < |Letters| ==> HasKey(alts, Letters[j]);
    }
  }

  /**
   * Which reading of line 87 a check uses: the code as written, which
   * `gerar_prova` runs, or the dict-only check the rest of the program
   * relies on.
   */
  datatype OptionsRule = AsWritten | AsIntended

  /** The verdict of line 87 under `rule`; `None` is a TypeError. */
  function OptionsVerdict(rule: OptionsRule, alts: Json): (r: Option<bool>)
    ensures alts.JObj? ==> r == Some(HasAllOptions(alts))
    ensures rule.AsIntended? ==> r.Some?
  {
    OptionsChecksAgreeOnDicts(alts);
    match rule
    case AsWritten => OptionsCheckAsWritten(alts, 0)
    case AsIntended => Some(HasAllOptions(alts))
  }

  /** Line 91: `resposta_correta in ['a', 'b', 'c', 'd']`, compared with `==`. */
  predicate AnswerValid(v: Json) {
    v in AnswerValues
  }

  /**
   * The checks on one question (lines 81-92), in source order: missing key,
   * then missing option, then invalid answer. A question that is not a dict
   * fails in every case with a Python-level error: `questao.get` or
   * `questao['alternativas']` raises before any message is built. Options
   * that support no `in` raise a TypeError at line 87.
   */
  function QuestionFailure(q: Json, rule: OptionsRule): (r: Option<Failure>)
    ensures r.None? <==> QuestionAccepted(q, rule)
    ensures !q.JObj? ==> r == Some(TypeFailure)
  {
    QuestionKeysPresent(q);
    if !q.JObj? then Some(TypeFailure)
    else match FieldsFailure(q, 0)
      case Some(f) => Some(f)
      case None =>
        match OptionsVerdict(rule, Get(q, "alternativas"))
        case None => Some(TypeFailure)
        case Some(all) =>
          if !all then Some(MissingOptions(Get(q, "numero")))
          else if !AnswerValid(Get(q, "resposta_correta")) then Some(InvalidAnswer(Get(q, "numero")))
          else None
  }

  /** The declarative condition every question accepted under `rule` meets. */
  predicate QuestionAccepted(q: Json, rule: OptionsRule) {
    && HasKey(q, "numero") && HasKey(q, "enunciado")
    && HasKey(q, "alternativas") && HasKey(q, "resposta_correta")
    && OptionsVerdict(rule, Get(q, "alternativas")) == Some(true)
    && AnswerValid(Get(q, "resposta_correta"))
  }

  lemma QuestionKeysPresent(q: Json)
    ensures q.JObj? && FieldsFailure(q, 0).None? <==>
      HasKey(q, "numero") && HasKey(q, "enunciado") && HasKey(q, "alternativas") && HasKey(q, "resposta_correta")
  {
    if q.JObj? && FieldsFailure(q, 0).None? {
      assert forall j :: 0 <= j < |QuestionFields| ==> HasKey(q, QuestionFields[j]);
      assert HasKey(q, QuestionFields[0]) && HasKey(q, QuestionFields[1]);
      assert HasKey(q, QuestionFields[2]) && HasKey(q, QuestionFields[3]);
    }
  }

  /** First failing question (line 80's loop), from position `i` on. */
  function QuestionsFailure(qs: seq<Json>, i: nat, rule: OptionsRule): (r: Option<Failure>)
    requires i <= |qs|
    decreases |qs| - i
    ensures r.None? <==> forall j :: i <= j < |qs| ==> QuestionAccepted(qs[j], rule)
  {
    if i == |qs| then None
    else
      var f := QuestionFailure(qs[i], rule);
      if f.Some? then f else QuestionsFailure(qs, i + 1, rule)
  }

  /** What the exam loop iterates: `prova['questoes']`, if iterable. */
  function QuestionList(p: Json): Option<seq<Json>>
    requires HasKey(p, "questoes")
  {
    Iter(Get(p, "questoes"))
  }

  /** The declarative condition every exam accepted under `rule` meets. */
  predicate Accepted(p: Json, rule: OptionsRule) {
    && HasKey(p, "titulo") && HasKey(p, "disciplina") && HasKey(p, "serie")
    && HasKey(p, "professor") && HasKey(p, "data") && HasKey(p, "questoes")
    && QuestionList(p).Some?
    && forall q :: q in QuestionList(p).value ==> QuestionAccepted(q, rule)
  }

  /** The checks `Validate` runs in order, all passing. */
  predicate ChecksPass(p: Json, rule: OptionsRule) {
    && TopFailure(p, 0).None?
    && p.JObj?
    && HasKey(p, "questoes")
    && QuestionList(p).Some?
    && QuestionsFailure(QuestionList(p).value, 0, rule).None?
  }

  lemma ChecksPassIffAccepted(p: Json, rule: OptionsRule)
    ensures ChecksPass(p, rule) <==> Accepted(p, rule)
  {
    if p.JObj? {
      AcceptedTopFields(p);
      if HasKey(p, "questoes") && QuestionList(p).Some? {
        AllQuestionsAccepted(QuestionList(p).value, rule);
      }
    }
  }

  /**
   * The validation block of `gerar_prova` (lines 74-94): the exam comes back
   * unmodified exactly when every check passes, otherwise the first
   * violation in source order is reported. `Validate(p, AsWritten)` is the
   * code as it stands.
   */
  function Validate(p: Json, rule: OptionsRule): (r: Result<Json, Failure>)
    ensures r.Ok? <==> Accepted(p, rule)
    ensures r.Ok? ==> r.value == p
  {
    ChecksPassIffAccepted(p, rule);
    match TopFailure(p, 0)
    case Some(f) => Err(f)
    case None =>
      // `prova['questoes']` raises TypeError on a list or a string
      if !p.JObj? then Err(TypeFailure)
      else
        assert HasKey(p, RequiredFields[5]);
        match QuestionList(p)
        case None => Err(TypeFailure)
        case Some(qs) =>
          match QuestionsFailure(qs, 0, rule)
          case Some(f) => Err(f)
          case None => Ok(p)
  }

  lemma AcceptedTopFields(p: Json)
    requires p.JObj?
    ensures TopFailure(p, 0).None? <==>
      && HasKey(p, "titulo") && HasKey(p, "disciplina") && HasKey(p, "serie")
      && HasKey(p, "professor") && HasKey(p, "data") && HasKey(p, "questoes")
  {
    if TopFailure(p, 0).None? {
      assert HasKey(p, RequiredFields[0]) && HasKey(p, RequiredFields[1]) && HasKey(p, RequiredFields[2]);
      assert HasKey(p, RequiredFields[3]) && HasKey(p, RequiredFields[4]) && HasKey(p, RequiredFields[5]);
    } else {
      var j :| 0 <= j < |RequiredFields| && PyIn(RequiredFields[j], p) != Some(true);
      assert !HasKey(p, RequiredFields[j]);
    }
  }

  lemma AllQuestionsAccepted(qs: seq<Json>, rule: OptionsRule)
    ensures QuestionsFailure(qs, 0, rule).None? <==> forall q :: q in qs ==> QuestionAccepted(q, rule)
  {
  }

  lemma {:induction false} TopFailureAt(p: Json, i: nat, j: nat)
    requires p.JObj? && i <= j < |RequiredFields|
    requires forall m :: i <= m < j ==> HasKey(p, RequiredFields[m])
    requires !HasKey(p, RequiredFields[j])
    ensures TopFailure(p, i) == Some(MissingField(RequiredFields[j]))
    decreases j - i
  {
    if i < j {
      TopFailureAt(p, i + 1, j);
    }
  }

  /**
   * Top-level keys are checked in list order, before any question: the
   * first one missing is the one reported, whatever the questions hold.
   */
  lemma MissingTopFieldReported(p: Json, j: nat, rule: OptionsRule)
    requires p.JObj? && j < |RequiredFields|
    requires forall m :: 0 <= m < j ==> HasKey(p, RequiredFields[m])
    requires !HasKey(p, RequiredFields[j])
    ensures Validate(p, rule) == Err(MissingField(RequiredFields[j]))
  {
    TopFailureAt(p, 0, j);
  }

  lemma {:induction false} FieldsFailureAt(q: Json, i: nat, j: nat)
    requires q.JObj? && i <= j < |QuestionFields|
    requires forall m :: i <= m < j ==> HasKey(q, QuestionFields[m])
    requires !HasKey(q, QuestionFields[j])
    ensures FieldsFailure(q, i) == Some(MissingQuestionField(QuestionFields[j], NumeroOrUnknown(q)))
    decreases j - i
  {
    if i < j {
      FieldsFailureAt(q, i + 1, j);
    }
  }

  /**
   * Within one question the keys are checked first, in list order; the
   * number is shown as `?` when `numero` itself is the key missing.
   */
  lemma MissingQuestionFieldReported(q: Json, j: nat, rule: OptionsRule)
    requires q.JObj? && j < |QuestionFields|
    requires forall m :: 0 <= m < j ==> HasKey(q, QuestionFields[m])
    requires !HasKey(q, QuestionFields[j])
    ensures QuestionFailure(q, rule) == Some(MissingQuestionField(QuestionFields[j], NumeroOrUnknown(q)))
    ensures j == 0 ==> QuestionFailure(q, rule) == Some(MissingQuestionField("numero", None))
  {
    FieldsFailureAt(q, 0, j);
  }

  /**
   * With all four keys present, the options are checked before the answer:
   * options that support no `in` raise a TypeError, missing ones are
   * reported next, and only then an invalid answer, both with the
   * question's number.
   */
  lemma OptionsBeforeAnswer(q: Json, rule: OptionsRule)
    requires HasKey(q, "numero") && HasKey(q, "enunciado")
    requires HasKey(q, "alternativas") && HasKey(q, "resposta_correta")
    ensures OptionsVerdict(rule, Get(q, "alternativas")).None? ==>
      QuestionFailure(q, rule) == Some(TypeFailure)
    ensures OptionsVerdict(rule, Get(q, "alternativas")) == Some(false) ==>
      QuestionFailure(q, rule) == Some(MissingOptions(Get(q, "numero")))
    ensures OptionsVerdict(rule, Get(q, "alternativas")) == Some(true) && !AnswerValid(Get(q, "resposta_correta")) ==>
      QuestionFailure(q, rule) == Some(InvalidAnswer(Get(q, "numero")))
  {
    QuestionKeysPresent(q);
  }

  /**
   * Options that are a number, a boolean or `null` make line 87 raise a
   * TypeError as written; the intended check reports them as missing.
   */
  lemma NonIterableOptionsRaise(q: Json)
    requires HasKey(q, "numero") && HasKey(q, "enunciado")
    requires HasKey(q, "alternativas") && HasKey(q, "resposta_correta")
    requires !(Get(q, "alternativas").JObj? || Get(q, "alternativas").JArr? || Get(q, "alternativas").JStr?)
    ensures QuestionFailure(q, AsWritten) == Some(TypeFailure)
    ensures QuestionFailure(q, AsIntended) == Some(MissingOptions(Get(q, "numero")))
  {
    OptionsBeforeAnswer(q, AsWritten);
    OptionsBeforeAnswer(q, AsIntended);
  }

  lemma {:induction false} QuestionsFailureAt(qs: seq<Json>, i: nat, k: nat, rule: OptionsRule)
    requires i <= k < |qs|
    requires forall m :: i <= m < k ==> QuestionAccepted(qs[m], rule)
    requires !QuestionAccepted(qs[k], rule)
    ensures QuestionsFailure(qs, i, rule) == QuestionFailure(qs[k], rule)
    decreases k - i
  {
    QuestionsFailureStep(qs, i, rule);
    if i < k {
      assert QuestionFailure(qs[i], rule).None?;
      QuestionsFailureAt(qs, i + 1, k, rule);
    } else {
      assert QuestionFailure(qs[k], rule).Some?;
    }
  }

  /**
   * With every top-level key present, questions are checked in sequence
   * order and the first failing one decides the error.
   */
  lemma FirstFailingQuestionReported(p: Json, k: nat, rule: OptionsRule)
    requires p.JObj? && forall f :: f in RequiredFields ==> HasKey(p, f)
    requires QuestionList(p).Some? && k < |QuestionList(p).value|
    requires forall m :: 0 <= m < k ==> QuestionAccepted(QuestionList(p).value[m], rule)
    requires !QuestionAccepted(QuestionList(p).value[k], rule)
    ensures Validate(p, rule) == Err(QuestionFailure(QuestionList(p).value[k], rule).value)
  {
    assert TopFailure(p, 0).None?;
    QuestionsFailureAt(QuestionList(p).value, 0, k, rule);
  }

  /** The number of questions is not checked: an empty list passes. */
  lemma EmptyQuestionListAccepted(p: Json, rule: OptionsRule)
    requires p.JObj? && forall f :: f in RequiredFields ==> HasKey(p, f)
    requires Get(p, "questoes") == JArr([])
    ensures Validate(p, rule) == Ok(p)
  {
    AcceptedTopFields(p);
  }

  /** A reply that is not a JSON object never passes. */
  lemma NonObjectRejected(p: Json, rule: OptionsRule)
    requires !p.JObj?
    ensures Validate(p, rule).Err?
  {
  }

  /** The intended check is the stricter one: what it accepts, the code accepts too. */
  lemma IntendedIsStricter(p: Json)
    ensures Accepted(p, AsIntended) ==> Accepted(p, AsWritten)
  {
    if Accepted(p, AsIntended) {
      forall q | q in QuestionList(p).value
        ensures QuestionAccepted(q, AsWritten)
      {
        assert QuestionAccepted(q, AsIntended);
      }
    }
  }

  /** A question whose options, if present, are a dict. */
  predicate DictOptions(q: Json) {
    HasKey(q, "alternativas") ==> Get(q, "alternativas").JObj?
  }

  lemma QuestionFailureAgree(q: Json)
    requires DictOptions(q)
    ensures QuestionFailure(q, AsWritten) == QuestionFailure(q, AsIntended)
  {
    if q.JObj? && FieldsFailure(q, 0).None? {
      QuestionKeysPresent(q);
      assert OptionsVerdict(AsWritten, Get(q, "alternativas")) == OptionsVerdict(AsIntended, Get(q, "alternativas"));
    }
  }

  lemma {:induction false} QuestionsFailureAgree(qs: seq<Json>, i: nat)
    requires i <= |qs| && forall q :: q in qs ==> DictOptions(q)
    decreases |qs| - i
    ensures QuestionsFailure(qs, i, AsWritten) == QuestionsFailure(qs, i, AsIntended)
  {
    if i < |qs| {
      QuestionFailureAgree(qs[i]);
      QuestionsFailureAgree(qs, i + 1);
      QuestionsFailureStep(qs, i, AsWritten);
      QuestionsFailureStep(qs, i, AsIntended);
    }
  }

  lemma QuestionsFailureStep(qs: seq<Json>, i: nat, rule: OptionsRule)
    requires i < |qs|
    ensures QuestionsFailure(qs, i, rule) ==
      if QuestionFailure(qs[i], rule).Some? then QuestionFailure(qs[i], rule) else QuestionsFailure(qs, i + 1, rule)
  {
  }

  /**
   * When every question's options are a dict, the code as written and the
   * intended check return the same verdict, error included.
   */
  lemma ReadingsAgreeOnDictOptions(p: Json)
    requires HasKey(p, "questoes") && QuestionList(p).Some?
    requires forall q :: q in QuestionList(p).value ==> DictOptions(q)
    ensures Validate(p, AsWritten) == Validate(p, AsIntended)
  {
    QuestionsFailureAgree(QuestionList(p).value, 0);
  }

  /**
   * The same checks as `Validate`, as the nested loops of lines 74-92 run
   * them, returning at the first violation.
   */
  method CheckExam(prova: Json) returns (r: Result<Json, Failure>)
    ensures r == Validate(prova, AsWritten)
  {
    for i := 0 to |RequiredFields|
      invariant TopFailure(prova, 0) == TopFailure(prova, i)
    {
      var present := PyIn(RequiredFields[i], prova);
      if present.None? {
        return Err(TypeFailure);
      }
      if !present.value {
        return Err(MissingField(RequiredFields[i]));
      }
    }
    if !prova.JObj? {
      return Err(TypeFailure);
    }
    assert HasKey(prova, RequiredFields[5]);
    var questoes := Iter(Get(prova, "questoes"));
    if questoes.None? {
      return Err(TypeFailure);
    }
    var qs := questoes.value;
    for k := 0 to |qs|
      invariant QuestionsFailure(qs, 0, AsWritten) == QuestionsFailure(qs, k, AsWritten)
    {
      var f := CheckQuestion(qs[k]);
      if f.Some? {
        return Err(f.value);
      }
    }
    return Ok(prova);
  }

  /**
   * The body of the question loop (lines 81-92) for one question; the
   * options loop is the generator of line 87, which stops at the first
   * letter that is not `in` the options.
   */
  method CheckQuestion(questao: Json) returns (r: Option<Failure>)
    ensures r == QuestionFailure(questao, AsWritten)
  {
    if !questao.JObj? {
      return Some(TypeFailure);
    }
    for j := 0 to |QuestionFields|
      invariant FieldsFailure(questao, 0) == FieldsFailure(questao, j)
    {
      if !HasKey(questao, QuestionFields[j]) {
        return Some(MissingQuestionField(QuestionFields[j], NumeroOrUnknown(questao)));
      }
    }
    assert HasKey(questao, QuestionFields[2]) && HasKey(questao, QuestionFields[3]);
    var alternativas := Get(questao, "alternativas");
    for l := 0 to |Letters|
      invariant OptionsCheckAsWritten(alternativas, 0) == OptionsCheckAsWritten(alternativas, l)
    {
      var present := PyIn(Letters[l], alternativas);
      if present.None? {
        return Some(TypeFailure);
      }
      if !present.value {
        return Some(MissingOptions(Get(questao, "numero")));
      }
    }
    if Get(questao, "resposta_correta") !in AnswerValues {
      return Some(InvalidAnswer(Get(questao, "numero")));
    }
    return None;
  }
}
