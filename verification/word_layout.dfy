/**
 * `WordGenerator` (word_generator.py): the paragraphs the generator appends
 * to its document for one exam. A paragraph is kept as the runs it ends up
 * with, its alignment and its indentation; fonts, sizes and the file format
 * are not modelled.
 */
module WordLayout {
  import opened Wrappers
  import opened Json
  import opened Validation

  /** A run of text; `bold` is the only run property the generator sets. */
  datatype Run = Run(text: seq<Piece>, bold: bool)

  /** A paragraph, or the page break `add_page_break` inserts. */
  datatype Paragraph =
    | Paragraph(runs: seq<Run>, centered: bool, indented: bool)
    | PageBreak

  // The fixed texts of the generated document.
  const School: string := "ESCOLA MODELO\n"
  const DisciplineLabel: string := "Disciplina: "
  const SeriesRunLabel: string := "Série: "
  const TeacherLabel: string := "Professor(a): "
  const DateLabel: string := "Data: "
  const LineEnd: string := "\n"
  const HeaderEnd: string := "\n\n"
  const InstructionsTitle: string := "\nInstruções:"
  const InstructionsText: string :=
    "• Leia atentamente cada questão antes de respondê-la;\n"
    + "• Cada questão tem apenas uma alternativa correta;\n"
    + "• A prova deve ser feita individualmente e sem consulta;\n"
    + "• Utilize caneta azul ou preta para marcar suas respostas."
  const QuestionsTitle: string := "\nQuestões:"
  const NumberEnd: string := ". "
  const OptionEnd: string := ") "
  const KeyTitle: string := "GABARITO\n\n"
  const KeyQuestion: string := "Questão "
  const KeyNumberEnd: string := ": "
  const KeyAnswer: string := "Alternativa "

  /** A python-docx document, reduced to its sequence of paragraphs. */
  class Document {
    var paragraphs: seq<Paragraph>

    /** `Document()`: a new, empty document. */
    constructor()
      ensures paragraphs == []
    {
      paragraphs := [];
    }

    /** `add_paragraph`, with the runs and format the caller gives it. */
    method AddParagraph(p: Paragraph)
      modifies this
      ensures paragraphs == old(paragraphs) + [p]
    {
      paragraphs := paragraphs + [p];
    }

    /** `add_page_break`. */
    method AddPageBreak()
      modifies this
      ensures paragraphs == old(paragraphs) + [PageBreak]
    {
      paragraphs := paragraphs + [PageBreak];
    }
  }

  /**
   * What `generate_prova` reads without raising: the five header fields and
   * an iterable `questoes` whose every element is renderable.
   */
  predicate Renderable(p: Json) {
    && HasKey(p, "disciplina") && HasKey(p, "serie") && HasKey(p, "professor")
    && HasKey(p, "data") && HasKey(p, "titulo") && HasKey(p, "questoes")
    && Iter(Get(p, "questoes")).Some?
    && forall q :: q in Iter(Get(p, "questoes")).value ==> RenderableQuestion(q)
  }

  /**
   * A question the loops can render: the four keys they index, options
   * that are a dict (for `.items()`) and an answer that is a string (for
   * `.upper()`).
   */
  predicate RenderableQuestion(q: Json) {
    && HasKey(q, "numero") && HasKey(q, "enunciado")
    && HasKey(q, "alternativas") && HasKey(q, "resposta_correta")
    && Get(q, "alternativas").JObj?
    && Get(q, "resposta_correta").JStr?
  }

  predicate AllRenderable(qs: seq<Json>) {
    forall i :: 0 <= i < |qs| ==> RenderableQuestion(qs[i])
  }

  /** The questions both loops of `generate_prova` iterate. */
  function Questions(p: Json): (qs: seq<Json>)
    requires Renderable(p)
    ensures AllRenderable(qs)
  {
    Iter(Get(p, "questoes")).value
  }

  function Header(p: Json): Paragraph
    requires Renderable(p)
  {
    Paragraph([
      Run([Lit(School)], true),
      Run([Lit(DisciplineLabel), Str(Get(p, "disciplina")), Lit(LineEnd)], false),
      Run([Lit(SeriesRunLabel), Str(Get(p, "serie")), Lit(LineEnd)], false),
      Run([Lit(TeacherLabel), Str(Get(p, "professor")), Lit(LineEnd)], false),
      Run([Lit(DateLabel), Str(Get(p, "data")), Lit(HeaderEnd)], false)], true, false)
  }

  function Title(p: Json): Paragraph
    requires Renderable(p)
  {
    Paragraph([Run([Str(Get(p, "titulo"))], true)], true, false)
  }

  /** A paragraph holding one plain run, as `add_paragraph(text)` makes. */
  function TextParagraph(text: string, indented: bool): Paragraph {
    Paragraph([Run([Lit(text)], false)], false, indented)
  }

  /** The five paragraphs before the first question (lines 19-44). */
  function Opening(p: Json): (r: seq<Paragraph>)
    requires Renderable(p)
  {
    [Header(p), Title(p), TextParagraph(InstructionsTitle, false), TextParagraph(InstructionsText, true), TextParagraph(QuestionsTitle, false)]
  }

  /** A question's statement, with its number in bold (lines 47-49). */
  function QuestionParagraph(q: Json): Paragraph
    requires RenderableQuestion(q)
  {
    Paragraph([Run([Str(Get(q, "numero")), Lit(NumberEnd)], true), Run([Str(Get(q, "enunciado"))], false)], false, false)
  }

  /** One option, indented, with its letter in bold (lines 53-56). */
  function OptionParagraph(e: (string, Json)): Paragraph {
    Paragraph([Run([Lit(e.0 + OptionEnd)], true), Run([Str(e.1)], false)], false, true)
  }

  /** The option paragraphs of a dict's entries, in `.items()` order. */
  function OptionParagraphs(es: seq<(string, Json)>): (r: seq<Paragraph>)
    ensures |r| == |es|
  {
    if es == [] then [] else OptionParagraphs(es[..|es| - 1]) + [OptionParagraph(es[|es| - 1])]
  }

  /** A question followed by its options. */
  function QuestionBlock(q: Json): (r: seq<Paragraph>)
    requires RenderableQuestion(q)
  {
    [QuestionParagraph(q)] + OptionParagraphs(Get(q, "alternativas").entries)
  }

  /** The blocks of the first loop (lines 45-56), in order. */
  function QuestionsBody(qs: seq<Json>): (r: seq<Paragraph>)
    requires AllRenderable(qs)
  {
    if qs == [] then [] else QuestionsBody(qs[..|qs| - 1]) + QuestionBlock(qs[|qs| - 1])
  }

  lemma QuestionsBodyStep(qs: seq<Json>, i: nat)
    requires i < |qs| && AllRenderable(qs)
    ensures QuestionsBody(qs[..i + 1]) == QuestionsBody(qs[..i]) + QuestionBlock(qs[i])
  {
    assert qs[..i + 1][..i] == qs[..i];
  }

  lemma AnswerKeyStep(qs: seq<Json>, i: nat)
    requires i < |qs| && AllRenderable(qs)
    ensures AnswerKey(qs[..i + 1]) == AnswerKey(qs[..i]) + [KeyLine(qs[i])]
  {
    assert qs[..i + 1][..i] == qs[..i];
  }

  lemma OptionParagraphsStep(es: seq<(string, Json)>, j: nat)
    requires j < |es|
    ensures OptionParagraphs(es[..j + 1]) == OptionParagraphs(es[..j]) + [OptionParagraph(es[j])]
  {
    assert es[..j + 1][..j] == es[..j];
  }

  // Regrouping appends, stated once for any element type so that the
  // methods below need not prove it on their own paragraph terms.

  lemma AppendAssoc<T>(a: seq<T>, b: seq<T>, c: seq<T>)
    ensures (a + b) + c == a + (b + c)
  {
  }

  lemma IndexFromEnd<T>(a: seq<T>, b: seq<T>, i: nat)
    requires i < |b|
    ensures |b| <= |a + b| && (a + b)[|a + b| - |b| + i] == b[i]
  {
  }

  lemma Regroup<T>(whole: seq<T>, front: seq<T>, back: seq<T>, before: seq<T>, block: seq<T>)
    requires whole == front + back && front == before + block
    ensures whole == before + block + back
  {
  }

  lemma EmptyAppend<T>(a: seq<T>)
    ensures [] + a == a
  {
  }

  lemma AppendFive<T>(s: seq<T>, a: T, b: T, c: T, d: T, e: T)
    ensures s + [a] + [b] + [c] + [d] + [e] == s + [a, b, c, d, e]
  {
  }

  lemma LayoutParts<T>(s: seq<T>, opening: seq<T>, body: seq<T>, pageBreak: T, heading: T, key: seq<T>)
    ensures (s + opening + body) + [pageBreak] + [heading] + key == s + (opening + body + [pageBreak, heading] + key)
  {
  }

  /** The centered bold heading of the answer key (lines 60-62). */
  function KeyHeading(): Paragraph {
    Paragraph([Run([Lit(KeyTitle)], true)], true, false)
  }

  /** One centered line of the answer key (lines 65-68). */
  function KeyLine(q: Json): Paragraph
    requires RenderableQuestion(q)
  {
    Paragraph([
      Run([Lit(KeyQuestion), Str(Get(q, "numero")), Lit(KeyNumberEnd)], true),
      Run([Lit(KeyAnswer), Upper(Get(q, "resposta_correta").s)], false)], true, false)
  }

  /** The lines of the second loop (lines 64-68), in order. */
  function AnswerKey(qs: seq<Json>): (r: seq<Paragraph>)
    requires AllRenderable(qs)
    ensures |r| == |qs|
  {
    if qs == [] then [] else AnswerKey(qs[..|qs| - 1]) + [KeyLine(qs[|qs| - 1])]
  }

  /** Everything one call of `generate_prova` appends, in order. */
  function Layout(p: Json): (r: seq<Paragraph>)
    requires Renderable(p)
    ensures |r| == 5 + |QuestionsBody(Questions(p))| + 2 + |Questions(p)|
    ensures r[5 + |QuestionsBody(Questions(p))|] == PageBreak
  {
    Opening(p) + QuestionsBody(Questions(p)) + [PageBreak, KeyHeading()] + AnswerKey(Questions(p))
  }

  /** How many options the questions have between them. */
  function OptionCount(qs: seq<Json>): nat
    requires AllRenderable(qs)
  {
    if qs == [] then 0 else OptionCount(qs[..|qs| - 1]) + |Get(qs[|qs| - 1], "alternativas").entries|
  }

  lemma {:induction false} QuestionsBodySize(qs: seq<Json>)
    requires AllRenderable(qs)
    ensures |QuestionsBody(qs)| == |qs| + OptionCount(qs)
  {
    if qs != [] {
      QuestionsBodySize(qs[..|qs| - 1]);
    }
  }

  /**
   * One paragraph per question and per option, five before the questions,
   * the page break and the key heading, and one key line per question.
   */
  lemma LayoutSize(p: Json)
    requires Renderable(p)
    ensures |Layout(p)| == 5 + |Questions(p)| + OptionCount(Questions(p)) + 2 + |Questions(p)|
  {
    QuestionsBodySize(Questions(p));
  }

  lemma {:induction false} QuestionsBodyHasNoBreak(qs: seq<Json>)
    requires AllRenderable(qs)
    ensures forall i :: 0 <= i < |QuestionsBody(qs)| ==> QuestionsBody(qs)[i].Paragraph?
  {
    if qs != [] {
      QuestionsBodyHasNoBreak(qs[..|qs| - 1]);
      OptionParagraphsLines(Get(qs[|qs| - 1], "alternativas").entries);
    }
  }

  /** Option paragraph `j` shows entry `j` of the options, in `.items()` order. */
  lemma {:induction false} OptionParagraphsLines(es: seq<(string, Json)>)
    ensures forall j :: 0 <= j < |es| ==> OptionParagraphs(es)[j] == OptionParagraph(es[j])
  {
    if es != [] {
      OptionParagraphsLines(es[..|es| - 1]);
    }
  }

  /** Key line `i` is the line of question `i`. */
  lemma {:induction false} AnswerKeyLines(qs: seq<Json>)
    requires AllRenderable(qs)
    ensures forall i :: 0 <= i < |qs| ==> AnswerKey(qs)[i] == KeyLine(qs[i])
  {
    if qs != [] {
      AnswerKeyLines(qs[..|qs| - 1]);
    }
  }

  /**
   * The document gets exactly one page break per exam, right after the last
   * option of the last question, so the answer key starts on a new page.
   */
  lemma SinglePageBreak(p: Json)
    requires Renderable(p)
    ensures var at := 5 + |QuestionsBody(Questions(p))|;
      at < |Layout(p)| && Layout(p)[at] == PageBreak &&
      forall i :: 0 <= i < |Layout(p)| && i != at ==> Layout(p)[i].Paragraph?
  {
    var qs := Questions(p);
    var body := QuestionsBody(qs);
    QuestionsBodyHasNoBreak(qs);
    AnswerKeyLines(qs);
    var l := Layout(p);
    forall i | 0 <= i < |l| && i != 5 + |body|
      ensures l[i].Paragraph?
    {
      if i < 5 {
        assert l[i] == Opening(p)[i];
      } else if i < 5 + |body| {
        assert l[i] == body[i - 5];
      } else if i == 6 + |body| {
        assert l[i] == KeyHeading();
      } else {
        assert l[i] == AnswerKey(qs)[i - 7 - |body|];
      }
    }
  }

  /** The key lines close the document part of the exam, question by question. */
  lemma AnswerKeyAtEnd(p: Json, i: nat)
    requires Renderable(p) && i < |Questions(p)|
    ensures |Questions(p)| <= |Layout(p)|
    ensures Layout(p)[|Layout(p)| - |Questions(p)| + i] == KeyLine(Questions(p)[i])
  {
    var qs := Questions(p);
    AnswerKeyLines(qs);
    IndexFromEnd(Opening(p) + QuestionsBody(qs) + [PageBreak, KeyHeading()], AnswerKey(qs), i);
  }

  lemma AllRenderableParts(a: seq<Json>, b: seq<Json>)
    requires AllRenderable(a + b)
    ensures AllRenderable(a) && AllRenderable(b)
  {
    forall i | 0 <= i < |a|
      ensures RenderableQuestion(a[i])
    {
      assert a[i] == (a + b)[i];
    }
    forall i | 0 <= i < |b|
      ensures RenderableQuestion(b[i])
    {
      assert b[i] == (a + b)[|a| + i];
    }
  }

  lemma {:induction false} QuestionsBodyAppend(a: seq<Json>, b: seq<Json>)
    requires AllRenderable(a + b)
    ensures AllRenderable(a) && AllRenderable(b)
    ensures QuestionsBody(a + b) == QuestionsBody(a) + QuestionsBody(b)
  {
    AllRenderableParts(a, b);
    if b == [] {
      assert a + b == a;
    } else {
      var b', last := b[..|b| - 1], b[|b| - 1];
      assert a + b == (a + b') + [last];
      AllRenderableParts(a + b', [last]);
      QuestionsBodyAppend(a, b');
      assert QuestionsBody(a + b) == QuestionsBody(a + b') + QuestionBlock(last);
      AppendAssoc(QuestionsBody(a), QuestionsBody(b'), QuestionBlock(last));
    }
  }

  /**
   * Question `k` sits after the blocks of the questions before it: its
   * statement first, then its options, then the next question.
   */
  lemma QuestionPlacement(qs: seq<Json>, k: nat)
    requires AllRenderable(qs) && k < |qs|
    ensures QuestionsBody(qs) == QuestionsBody(qs[..k]) + QuestionBlock(qs[k]) + QuestionsBody(qs[k + 1..])
  {
    var front, back := qs[..k + 1], qs[k + 1..];
    assert qs == front + back;
    QuestionsBodyAppend(front, back);
    QuestionsBodyStep(qs, k);
    Regroup(QuestionsBody(qs), QuestionsBody(front), QuestionsBody(back), QuestionsBody(qs[..k]), QuestionBlock(qs[k]));
  }

  lemma {:induction false} OptionRendered(es: seq<(string, Json)>, e: (string, Json))
    requires e in es
    ensures OptionParagraph(e) in OptionParagraphs(es)
  {
    var j :| 0 <= j < |es| && es[j] == e;
    OptionParagraphsLines(es);
    assert OptionParagraphs(es)[j] == OptionParagraph(e);
  }

  /**
   * An exam that passes the intended check meets every read of
   * `generate_prova`: every key it indexes is there, each question's
   * options are a dict and each answer a string.
   */
  lemma AcceptedIsRenderable(p: Json)
    requires Validate(p, AsIntended).Ok?
    ensures Renderable(p)
  {
    var qs := Iter(Get(p, "questoes")).value;
    forall q | q in qs
      ensures RenderableQuestion(q)
    {
      assert QuestionAccepted(q, AsIntended);
      assert Get(q, "resposta_correta") in AnswerValues;
    }
  }

  /**
   * Of the exams `gerar_prova` returns as written, exactly those whose
   * options are all dicts can be rendered.
   */
  lemma ReturnedRenderableIffDictOptions(p: Json)
    requires Validate(p, AsWritten).Ok?
    ensures HasKey(p, "questoes") && QuestionList(p).Some?
    ensures Renderable(p) <==> forall q :: q in QuestionList(p).value ==> DictOptions(q)
  {
    var qs := QuestionList(p).value;
    if forall q :: q in qs ==> DictOptions(q) {
      ReadingsAgreeOnDictOptions(p);
      AcceptedIsRenderable(p);
    }
    if Renderable(p) {
      forall q | q in qs
        ensures DictOptions(q)
      {
        assert RenderableQuestion(q);
      }
    }
  }

  /** Each of the options `a`-`d` an accepted question must have appears in its block. */
  lemma AcceptedOptionsShown(q: Json, l: string)
    requires QuestionAccepted(q, AsIntended) && l in Letters
    ensures RenderableQuestion(q) && HasKey(Get(q, "alternativas"), l)
    ensures OptionParagraph((l, Get(Get(q, "alternativas"), l))) in QuestionBlock(q)
  {
    assert Get(q, "resposta_correta") in AnswerValues;
    var alts := Get(q, "alternativas");
    OptionRendered(alts.entries, (l, Get(alts, l)));
  }

  /** In a returned exam every key line names one of the letters `a`-`d`, upper-cased. */
  lemma AcceptedKeyLetters(p: Json, i: nat)
    requires Validate(p, AsWritten).Ok?
    requires Renderable(p) && i < |Questions(p)|
    ensures Get(Questions(p)[i], "resposta_correta").s in Letters
  {
    var q := Questions(p)[i];
    assert q in Questions(p);
    assert QuestionAccepted(q, AsWritten);
    assert Get(q, "resposta_correta") in AnswerValues;
  }

  /**
   * Line 87 as written uses Python's `in`, which also holds for the list
   * `["a", "b", "c", "d"]`: such options pass the check, yet they are not
   * a dict, so the options loop's `.items()` (line 52) raises. The
   * intended check rejects them.
   */
  lemma LetterListPassesOptionsCheck(q: Json)
    requires HasKey(q, "alternativas") && Get(q, "alternativas") == JArr(AnswerValues)
    ensures OptionsCheckAsWritten(Get(q, "alternativas"), 0) == Some(true)
    ensures !RenderableQuestion(q) && !HasAllOptions(Get(q, "alternativas"))
    ensures !QuestionAccepted(q, AsIntended)
  {
    var alts := Get(q, "alternativas");
    assert forall j :: 0 <= j < |Letters| ==> JStr(Letters[j]) in alts.items by {
      assert forall j :: 0 <= j < |Letters| ==> alts.items[j] == JStr(Letters[j]);
    }
  }

  /** The same holds for the string `"abcd"`, where `in` is a substring test. */
  lemma LetterStringPassesOptionsCheck(q: Json)
    requires HasKey(q, "alternativas") && Get(q, "alternativas") == JStr(AllLetters)
    ensures OptionsCheckAsWritten(Get(q, "alternativas"), 0) == Some(true)
    ensures !RenderableQuestion(q) && !HasAllOptions(Get(q, "alternativas"))
    ensures !QuestionAccepted(q, AsIntended)
  {
    var s := Get(q, "alternativas").s;
    forall j | 0 <= j < |Letters|
      ensures IsSubstring(Letters[j], s)
    {
      LetterInWord(s, j);
    }
  }

  const AllLetters: string := "abcd"

  lemma {:induction false} LetterInWord(s: string, j: nat)
    requires s == AllLetters && j < |Letters|
    ensures IsSubstring(Letters[j], s)
  {
    SubstringAt(Letters[j], s, j);
  }

  /**
   * A whole exam whose one question lists its options as `["a", "b", "c",
   * "d"]`: `gerar_prova` as written returns it, `generate_prova` cannot
   * render it, and the intended check reports the options as missing.
   */
  lemma LetterListExamReturned(p: Json, q: Json)
    requires p.JObj? && forall f :: f in RequiredFields ==> HasKey(p, f)
    requires Get(p, "questoes") == JArr([q])
    requires q.JObj? && forall f :: f in QuestionFields ==> HasKey(q, f)
    requires Get(q, "alternativas") == JArr(AnswerValues) && AnswerValid(Get(q, "resposta_correta"))
    ensures Validate(p, AsWritten) == Ok(p)
    ensures !Renderable(p)
    ensures Validate(p, AsIntended) == Err(MissingOptions(Get(q, "numero")))
  {
    LetterListPassesOptionsCheck(q);
    assert QuestionFields[0] == "numero" && QuestionFields[1] == "enunciado";
    assert QuestionFields[2] == "alternativas" && QuestionFields[3] == "resposta_correta";
    assert QuestionAccepted(q, AsWritten);
    assert q in Iter(Get(p, "questoes")).value;
    OptionsBeforeAnswer(q, AsIntended);
    FirstFailingQuestionReported(p, 0, AsIntended);
  }

  class WordGenerator {
    const document: Document

    /** `__init__` (lines 7-9): a generator owning a new, empty document. */
    constructor()
      ensures fresh(document) && document.paragraphs == []
    {
      document := new Document();
    }

    /**
     * `generate_prova` (lines 17-70): appends the exam's paragraphs to the
     * generator's document, after whatever an earlier call left there, and
     * returns that same document.
     */
    method GenerateProva(prova: Json) returns (doc: Document)
      requires Renderable(prova)
      modifies document
      ensures doc == document
      ensures document.paragraphs == old(document.paragraphs) + Layout(prova)
    {
      ghost var start := document.paragraphs;
      document.AddParagraph(Paragraph([
        Run([Lit(School)], true),
        Run([Lit(DisciplineLabel), Str(Get(prova, "disciplina")), Lit(LineEnd)], false),
        Run([Lit(SeriesRunLabel), Str(Get(prova, "serie")), Lit(LineEnd)], false),
        Run([Lit(TeacherLabel), Str(Get(prova, "professor")), Lit(LineEnd)], false),
        Run([Lit(DateLabel), Str(Get(prova, "data")), Lit(HeaderEnd)], false)], true, false));
      document.AddParagraph(Paragraph([Run([Str(Get(prova, "titulo"))], true)], true, false));
      document.AddParagraph(Paragraph([Run([Lit(InstructionsTitle)], false)], false, false));
      document.AddParagraph(Paragraph([Run([Lit(InstructionsText)], false)], false, true));
      document.AddParagraph(Paragraph([Run([Lit(QuestionsTitle)], false)], false, false));
      AppendFive(start, Header(prova), Title(prova), TextParagraph(InstructionsTitle, false),
        TextParagraph(InstructionsText, true), TextParagraph(QuestionsTitle, false));
      var questoes := Questions(prova);
      WriteQuestions(questoes);
      document.AddPageBreak();
      document.AddParagraph(Paragraph([Run([Lit(KeyTitle)], true)], true, false));
      WriteAnswerKey(questoes);
      LayoutParts(start, Opening(prova), QuestionsBody(questoes), PageBreak, KeyHeading(), AnswerKey(questoes));
      doc := document;
    }

    /** The first loop (lines 45-56): every question with its options, in order. */
    method WriteQuestions(questoes: seq<Json>)
      requires AllRenderable(questoes)
      modifies document
      ensures document.paragraphs == old(document.paragraphs) + QuestionsBody(questoes)
    {
      ghost var start := document.paragraphs;
      for i := 0 to |questoes|
        invariant document.paragraphs == start + QuestionsBody(questoes[..i])
      {
        WriteQuestion(questoes[i]);
        QuestionsBodyStep(questoes, i);
        AppendAssoc(start, QuestionsBody(questoes[..i]), QuestionBlock(questoes[i]));
      }
      assert questoes[..|questoes|] == questoes;
    }

    /** The second loop (lines 64-68): one answer-key line per question, in order. */
    method WriteAnswerKey(questoes: seq<Json>)
      requires AllRenderable(questoes)
      modifies document
      ensures document.paragraphs == old(document.paragraphs) + AnswerKey(questoes)
    {
      ghost var start := document.paragraphs;
      for i := 0 to |questoes|
        invariant document.paragraphs == start + AnswerKey(questoes[..i])
      {
        var questao := questoes[i];
        document.AddParagraph(Paragraph([
          Run([Lit(KeyQuestion), Str(Get(questao, "numero")), Lit(KeyNumberEnd)], true),
          Run([Lit(KeyAnswer), Upper(Get(questao, "resposta_correta").s)], false)], true, false));
        AnswerKeyStep(questoes, i);
        AppendAssoc(start, AnswerKey(questoes[..i]), [KeyLine(questao)]);
      }
      assert questoes[..|questoes|] == questoes;
    }

    /** One pass of the first loop's body (lines 47-56): a question and its options. */
    method WriteQuestion(questao: Json)
      requires RenderableQuestion(questao)
      modifies document
      ensures document.paragraphs == old(document.paragraphs) + QuestionBlock(questao)
    {
      ghost var before := document.paragraphs;
      document.AddParagraph(Paragraph([
        Run([Str(Get(questao, "numero")), Lit(NumberEnd)], true),
        Run([Str(Get(questao, "enunciado"))], false)], false, false));
      var alternativas := Get(questao, "alternativas").entries;
      for j := 0 to |alternativas|
        invariant document.paragraphs == before + [QuestionParagraph(questao)] + OptionParagraphs(alternativas[..j])
      {
        var (letra, texto) := alternativas[j];
        document.AddParagraph(Paragraph([Run([Lit(letra + OptionEnd)], true), Run([Str(texto)], false)], false, true));
        OptionParagraphsStep(alternativas, j);
        AppendAssoc(before + [QuestionParagraph(questao)], OptionParagraphs(alternativas[..j]), [OptionParagraph(alternativas[j])]);
      }
      assert alternativas[..|alternativas|] == alternativas;
    }
  }

  /**
   * The generator never clears its document: kept for a second exam, it
   * returns a document holding both, the first exam's paragraphs first.
   */
  method GenerateTwice(first: Json, second: Json) returns (doc: Document)
    requires Renderable(first) && Renderable(second)
    ensures doc.paragraphs == Layout(first) + Layout(second)
  {
    var generator := new WordGenerator();
    var _ := generator.GenerateProva(first);
    EmptyAppend(Layout(first));
    doc := generator.GenerateProva(second);
  }
}
