/** The closing quiz: six multiple-choice questions, some with figures drawn
    at random on every run, answered in one form; on submission the right
    answers are counted, turned into a percentage and mapped to one of three
    profiles. */
module FinalQuiz {
  import opened Text

  /** The figures drawn for one run. */
  datatype Figures = Figures(capital: int, taxa: int, anos: int, inflacao: int, rendimento: int)

  /** The ranges of `randint(1000, 5000)` and the four `choice` lists. */
  predicate ValidFigures(f: Figures)
  {
    && 1000 <= f.capital <= 5000
    && f.taxa in [3, 5, 7]
    && f.anos in [3, 5, 10]
    && f.inflacao in [2, 3, 4]
    && f.rendimento in [6, 8, 10]
  }

  datatype Question = Question(prompt: Prompt, options: seq<string>, correct: string)

  /** Which question is asked, with the figures its text shows. */
  datatype Prompt =
    | GrowthPrompt(capital: int, taxa: int, anos: int)
    | InflationPrompt(inflacao: int)
    | RulePrompt
    | EmergencyPrompt
    | RealReturnPrompt(inflacao: int, rendimento: int)
    | HabitPrompt

  /** The text the page prints for each question. */
  function PromptText(p: Prompt): string
  {
    match p
    case GrowthPrompt(capital, taxa, anos) =>
      "Se investires **" + IntText(capital) + " €** a uma taxa de **" + IntText(taxa)
        + "% ao ano** durante **" + IntText(anos) + " anos**, o que acontece ao teu dinheiro?"
    case InflationPrompt(inflacao) =>
      "A inflação média é de **" + IntText(inflacao) + "% ao ano**. Se guardares 1000 € debaixo do colchão, "
        + "quanto valerá em termos de poder de compra daqui a 5 anos?"
    case RulePrompt => "Qual destas opções representa melhor a **regra 50/30/20**?"
    case EmergencyPrompt => "Ter um **fundo de emergência** significa:"
    case RealReturnPrompt(inflacao, rendimento) =>
      "Se a inflação é de " + IntText(inflacao) + "% e o teu investimento rende " + IntText(rendimento)
        + "%, o teu ganho **real** é de aproximadamente:"
    case HabitPrompt => "Qual destas atitudes demonstra **inteligência financeira**?"
  }

  /** Question 1: what compound interest does to the capital drawn. */
  function GrowthQuestion(f: Figures): Question
  {
    Question(
      GrowthPrompt(f.capital, f.taxa, f.anos),
      ["Cresce de forma linear (acrescentas o mesmo valor todos os anos)",
       "Cresce de forma composta (ganhas juros sobre juros)",
       "Perde valor com o tempo",
       "Mantém-se igual"],
      "Cresce de forma composta (ganhas juros sobre juros)")
  }

  /** Question 2: cash under the mattress at the inflation drawn. */
  function InflationQuestion(f: Figures): Question
  {
    Question(
      InflationPrompt(f.inflacao),
      ["Mais de 1000 €",
       "Aproximadamente o mesmo",
       "Menos de 1000 €",
       "Depende da taxa de juro bancária"],
      "Menos de 1000 €")
  }

  const RuleQuestion := Question(
    RulePrompt,
    ["50% lazer, 30% poupança, 20% necessidades",
     "50% necessidades, 30% desejos, 20% poupança/investimento",
     "30% necessidades, 50% desejos, 20% investimento",
     "20% necessidades, 30% desejos, 50% poupança"],
    "50% necessidades, 30% desejos, 20% poupança/investimento")

  const EmergencyQuestion := Question(
    EmergencyPrompt,
    ["Guardar dinheiro para gastar em férias",
     "Investir em ações de alto risco",
     "Ter poupança suficiente para cobrir despesas por 3 a 6 meses",
     "Fazer um empréstimo quando surgir uma emergência"],
    "Ter poupança suficiente para cobrir despesas por 3 a 6 meses")

  /** Question 5: the real return, whose options are percentages computed
      from the figures drawn. */
  function RealReturnQuestion(f: Figures): Question
  {
    Question(
      RealReturnPrompt(f.inflacao, f.rendimento),
      RealReturnOptions(f.rendimento, f.inflacao),
      PercentText(f.rendimento - f.inflacao))
  }

  /** The options of question 5, for a return `r` and an inflation `i`. */
  function RealReturnOptions(r: int, i: int): seq<string>
  {
    [PercentText(r - i), PercentText(r + i), PercentText(i - r), "Depende do montante inicial"]
  }

  const HabitQuestion := Question(
    HabitPrompt,
    ["Gastar todo o salário, mas sem dívidas",
     "Ter um orçamento e investir regularmente",
     "Evitar qualquer tipo de risco",
     "Esperar ganhar muito dinheiro antes de começar a poupar"],
    "Ter um orçamento e investir regularmente")

  /** The six questions of a run, with the figures written into them. */
  function Questions(f: Figures): (qs: seq<Question>)
    ensures |qs| == 6
  {
    [GrowthQuestion(f), InflationQuestion(f), RuleQuestion, EmergencyQuestion, RealReturnQuestion(f), HabitQuestion]
  }

  /** The position of the correct option of each question. */
  const Key: seq<nat> := [1, 2, 1, 2, 0, 1]

  predicate DistinctOptions(q: Question)
  {
    forall i, j :: 0 <= i < j < |q.options| ==> q.options[i] != q.options[j]
  }

  /** With a positive inflation below the return, the real-return options
      print three different percentages. */
  lemma RealReturnOptionsDistinct(r: int, i: int)
    requires 0 < i < r
    ensures forall a, b :: 0 <= a < b < 4 ==> RealReturnOptions(r, i)[a] != RealReturnOptions(r, i)[b]
  {
    PercentTextDistinct(r - i, r + i);
    PercentTextDistinct(r - i, i - r);
    PercentTextDistinct(r + i, i - r);
    var opts := RealReturnOptions(r, i);
    assert opts[3][|opts[3]| - 1] != '%';
    FourDistinct(opts);
  }

  /** Four strings that differ pair by pair differ at every pair of positions. */
  lemma FourDistinct(o: seq<string>)
    requires |o| == 4
    requires o[0] != o[1] && o[0] != o[2] && o[0] != o[3]
    requires o[1] != o[2] && o[1] != o[3] && o[2] != o[3]
    ensures forall a, b :: 0 <= a < b < 4 ==> o[a] != o[b]
  {
  }

  /** Four options, none repeated, the correct one at position `key`. */
  predicate Keyed(q: Question, key: nat)
  {
    && |q.options| == 4
    && DistinctOptions(q)
    && key < 4 && q.options[key] == q.correct
  }

  lemma FixedQuestionsKeyed(f: Figures)
    ensures Keyed(GrowthQuestion(f), 1) && Keyed(InflationQuestion(f), 2)
    ensures Keyed(RuleQuestion, 1) && Keyed(EmergencyQuestion, 2) && Keyed(HabitQuestion, 1)
  {
    GrowthKeyed(f);
    InflationKeyed(f);
    RuleKeyed();
    EmergencyKeyed();
    HabitKeyed();
  }

  lemma GrowthKeyed(f: Figures)
    ensures Keyed(GrowthQuestion(f), 1)
  {
  }

  lemma InflationKeyed(f: Figures)
    ensures Keyed(InflationQuestion(f), 2)
  {
  }

  lemma RuleKeyed()
    ensures Keyed(RuleQuestion, 1)
  {
  }

  lemma EmergencyKeyed()
    ensures Keyed(EmergencyQuestion, 2)
  {
  }

  lemma HabitKeyed()
    ensures Keyed(HabitQuestion, 1)
  {
  }

  /** Only the key position holds the correct answer of a keyed question. */
  lemma KeyedUnique(q: Question, key: nat, j: nat)
    requires Keyed(q, key) && j < |q.options| && q.options[j] == q.correct
    ensures j == key
  {
  }

  /** Every question of every draw has four different options and its
      correct answer is the option at its key position. */
  lemma KeyIsCorrect(f: Figures)
    requires ValidFigures(f)
    ensures forall k :: 0 <= k < 6 ==> Keyed(Questions(f)[k], Key[k])
  {
    FixedQuestionsKeyed(f);
    RealReturnKeyed(f);
    SixKeyed(Questions(f), Key);
  }

  lemma RealReturnKeyed(f: Figures)
    requires ValidFigures(f)
    ensures Keyed(RealReturnQuestion(f), 0)
  {
    assert 2 <= f.inflacao <= 4 && 6 <= f.rendimento;
    RealReturnOptionsDistinct(f.rendimento, f.inflacao);
  }

  /** Six questions keyed one by one are keyed at every position. */
  lemma SixKeyed(qs: seq<Question>, key: seq<nat>)
    requires |qs| == 6 && |key| == 6
    requires Keyed(qs[0], key[0]) && Keyed(qs[1], key[1]) && Keyed(qs[2], key[2])
    requires Keyed(qs[3], key[3]) && Keyed(qs[4], key[4]) && Keyed(qs[5], key[5])
    ensures forall k :: 0 <= k < 6 ==> Keyed(qs[k], key[k])
  {
  }

  // ---------------------------------------------------------------------
  // Scoring

  /** How many of the first answers match their questions' correct option. */
  function Hits(qs: seq<Question>, answers: seq<string>): (n: nat)
    requires |answers| <= |qs|
    ensures n <= |answers|
  {
    if answers == [] then 0
    else Hits(qs, answers[..|answers| - 1]) + (if answers[|answers| - 1] == qs[|answers| - 1].correct then 1 else 0)
  }

  lemma {:induction false} HitsAll(qs: seq<Question>, answers: seq<string>)
    requires |answers| <= |qs|
    ensures Hits(qs, answers) == |answers| <==> forall k :: 0 <= k < |answers| ==> answers[k] == qs[k].correct
    ensures Hits(qs, answers) == 0 <==> forall k :: 0 <= k < |answers| ==> answers[k] != qs[k].correct
  {
    if answers != [] {
      var n := |answers| - 1;
      HitsAll(qs, answers[..n]);
      assert forall k :: 0 <= k < n ==> answers[..n][k] == answers[k];
    }
  }

  /** The answers the form holds: the option each radio is on, the first one
      when untouched. */
  method CollectAnswers(qs: seq<Question>, choices: seq<nat>) returns (respostas: seq<string>)
    requires forall k :: 0 <= k < |qs| ==> |qs[k].options| == 4
    requires |choices| == |qs| && forall k :: 0 <= k < |choices| ==> choices[k] < 4
    ensures |respostas| == |qs|
    ensures forall k :: 0 <= k < |qs| ==> respostas[k] == qs[k].options[choices[k]]
  {
    respostas := [];
    for i := 0 to |qs|
      invariant |respostas| == i
      invariant forall k :: 0 <= k < i ==> respostas[k] == qs[k].options[choices[k]]
    {
      respostas := respostas + [qs[i].options[choices[i]]];
    }
  }

  /** The counting loop run on submission. */
  method CountCorrect(qs: seq<Question>, respostas: seq<string>) returns (certas: nat)
    requires |respostas| == |qs|
    ensures certas == Hits(qs, respostas)
  {
    certas := 0;
    for i := 0 to |qs|
      invariant certas == Hits(qs, respostas[..i])
    {
      assert respostas[..i + 1][..i] == respostas[..i];
      if respostas[i] == qs[i].correct {
        certas := certas + 1;
      }
    }
    assert respostas[..|qs|] == respostas;
  }

  datatype Profile = Beginner | Balanced | Master

  /** Below 50% a beginner, from 50% below 80% balanced, otherwise a master. */
  function ProfileOf(score: real): Profile
  {
    if score < 50.0 then Beginner
    else if 50.0 <= score < 80.0 then Balanced
    else Master
  }

  /** `respostas_certas / total * 100`. */
  function Score(certas: nat, total: nat): (score: real)
    requires 0 < total && certas <= total
    ensures 0.0 <= score <= 100.0
    ensures score == 100.0 <==> certas == total
  {
    certas as real / total as real * 100.0
  }

  /** With six questions: up to two right is a beginner, three or four
      balanced, five or six a master. */
  lemma ProfileByHits(certas: nat)
    requires certas <= 6
    ensures ProfileOf(Score(certas, 6)) == Beginner <==> certas <= 2
    ensures ProfileOf(Score(certas, 6)) == Balanced <==> 3 <= certas <= 4
    ensures ProfileOf(Score(certas, 6)) == Master <==> certas >= 5
  {
    var score := Score(certas, 6);
    assert score * 6.0 == certas as real * 100.0;
  }

  /** Answers picked at radio positions are all right exactly when every
      position is the key, and all wrong exactly when none is; each one is
      right exactly when its position is the key's. */
  lemma AnswersAgainstKey(qs: seq<Question>, choices: seq<nat>, respostas: seq<string>)
    requires |qs| == |choices| == |respostas| == |Key|
    requires forall k :: 0 <= k < |qs| ==>
      Keyed(qs[k], Key[k]) && choices[k] < 4 && respostas[k] == qs[k].options[choices[k]]
    ensures (forall k :: 0 <= k < |qs| ==> respostas[k] == qs[k].correct) <==> choices == Key
    ensures (forall k :: 0 <= k < |qs| ==> respostas[k] != qs[k].correct) <==> forall k :: 0 <= k < |qs| ==> choices[k] != Key[k]
    ensures forall k :: 0 <= k < |qs| ==> (respostas[k] == qs[k].correct <==> choices[k] == Key[k])
  {
    forall k | 0 <= k < |qs|
      ensures respostas[k] == qs[k].correct <==> choices[k] == Key[k]
    {
      RightIffKey(qs, choices, respostas, k);
    }
  }

  /** Answer `k` is right exactly when its radio position is the key's. */
  lemma RightIffKey(qs: seq<Question>, choices: seq<nat>, respostas: seq<string>, k: nat)
    requires |qs| == |choices| == |respostas| == |Key| && k < |qs|
    requires Keyed(qs[k], Key[k]) && choices[k] < 4 && respostas[k] == qs[k].options[choices[k]]
    ensures respostas[k] == qs[k].correct <==> choices[k] == Key[k]
  {
    if respostas[k] == qs[k].correct {
      KeyedUnique(qs[k], Key[k], choices[k]);
    }
  }

  /** When an answer is right exactly when its radio position is the key's,
      the number of right answers among the first `n` is the number of
      positions among them that are the key's. */
  lemma {:induction false} HitsCountKey(qs: seq<Question>, choices: seq<nat>, key: seq<nat>, respostas: seq<string>, n: nat)
    requires |qs| == |choices| == |respostas| == |key| && n <= |qs|
    requires forall k :: 0 <= k < |qs| ==> (respostas[k] == qs[k].correct <==> choices[k] == key[k])
    ensures Hits(qs, respostas[..n]) == |set k | 0 <= k < n && choices[k] == key[k]|
  {
    if n > 0 {
      HitsCountKey(qs, choices, key, respostas, n - 1);
      assert respostas[..n][..n - 1] == respostas[..n - 1];
      var before := set k | 0 <= k < n - 1 && choices[k] == key[k];
      var after := set k | 0 <= k < n && choices[k] == key[k];
      if choices[n - 1] == key[n - 1] {
        assert after == before + {n - 1};
      } else {
        assert after == before;
      }
    }
  }

  datatype View =
    | Unsubmitted(questions: seq<Question>)
    | Results(questions: seq<Question>, certas: nat, total: nat, score: real, profile: Profile)

  /** One run of the page: the figures of this run, the radio positions and
      whether the form was submitted. */
  method Run(f: Figures, choices: seq<nat>, submit: bool) returns (v: View)
    requires ValidFigures(f)
    requires |choices| == 6 && forall k :: 0 <= k < 6 ==> choices[k] < 4
    ensures v.questions == Questions(f)
    ensures v.Results? <==> submit
    ensures v.Results? ==> v.total == 6 && v.certas <= 6 && v.score == Score(v.certas, 6) && v.profile == ProfileOf(v.score)
    ensures v.Results? ==> v.certas == |set k | 0 <= k < 6 && choices[k] == Key[k]|
    ensures v.Results? ==> (v.certas == 6 <==> choices == Key)
    ensures v.Results? ==> (v.certas == 0 <==> forall k :: 0 <= k < 6 ==> choices[k] != Key[k])
  {
    var perguntas := Questions(f);
    KeyIsCorrect(f);
    var respostas := CollectAnswers(perguntas, choices);
    if !submit {
      return Unsubmitted(perguntas);
    }
    var certas := CountCorrect(perguntas, respostas);
    var total := |perguntas|;
    var score := Score(certas, total);
    v := Results(perguntas, certas, total, score, ProfileOf(score));
    HitsAll(perguntas, respostas);
    AnswersAgainstKey(perguntas, choices, respostas);
    HitsCountKey(perguntas, choices, Key, respostas, 6);
    assert respostas[..6] == respostas;
  }
}
