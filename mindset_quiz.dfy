/** The money-mindset quiz: one question is drawn from each of five themes,
    the draw is shuffled, the questions are answered one at a time, and the
    answers are scored by the weight of the option chosen (0, 1 or 2) and
    classified into one of three mindsets. */
module MindsetQuiz {
  import opened Session
  import HelpClean
  import opened Draws

  datatype Theme = Theme(name: string, questions: seq<WeightedQuestion>)

  function Q(text: string, a: string, wa: nat, b: string, wb: nat, c: string, wc: nat): WeightedQuestion
  {
    WeightedQuestion(text, [WeightedOption(a, wa), WeightedOption(b, wb), WeightedOption(c, wc)])
  }

  /** The question pool, theme by theme, in the dictionary's order. */
  const Themes: seq<Theme> := [
    Theme("Sucesso e comparação", [
      Q("Vês alguém com 25 anos num carro desportivo. O que pensas?",
        "Que bom que ele teve sucesso!", 2, "Deve ser herdeiro.", 0, "Também queria, mas nunca vou conseguir.", 1),
      Q("Vês um amigo abrir um negócio. Qual a tua reação?",
        "Que coragem — podia aprender com ele.", 2, "Vai perder dinheiro.", 0, "Eu não teria coragem, mas admiro.", 1)]),
    Theme("Medo e atitude", [
      Q("Quando pensas em investir, o que sentes?",
        "Curiosidade — quero aprender como funciona.", 2, "Medo — posso perder tudo.", 0, "Indiferença — isso não é para mim.", 1),
      Q("Quando falhas num objetivo financeiro:",
        "Aprendo com o erro e ajusto.", 2, "Fico frustrado e paro por um tempo.", 1, "Acho que não sirvo para isso.", 0)]),
    Theme("Comportamento e hábitos", [
      Q("Tens 100 € extra no fim do mês. O que fazes?",
        "Poupas ou investes parte.", 2, "Gastas em algo que te apetece.", 1, "Nem pensas muito nisso.", 0),
      Q("Quando alguém fala de dinheiro, tu:",
        "Ouves com interesse.", 2, "Ficas desconfortável.", 1, "Mudarias de assunto.", 0)]),
    Theme("Crenças sobre o dinheiro", [
      Q("Qual destas frases se aproxima mais de ti?",
        "O dinheiro é uma ferramenta para viver melhor.", 2, "O dinheiro muda as pessoas.", 0, "Dinheiro é importante, mas perigoso.", 1),
      Q("Quando ouves falar de pessoas ricas, pensas:",
        "Trabalharam duro para chegar lá.", 2, "Devem ter tido sorte ou herança.", 0, "Nem todos conseguem, mas alguns merecem.", 1)]),
    Theme("Aprendizagem e crescimento", [
      Q("Acreditas que todos podem aprender a investir com tempo e prática?",
        "Sim, basta esforço e vontade.", 2, "Não, é preciso nascer com jeito.", 0, "Depende da pessoa.", 1),
      Q("Quando vês alguém a falar de finanças, tu:",
        "Tomas notas e tentas aplicar.", 2, "Achas interessante, mas não fazes nada.", 1, "Desligas logo — não é para ti.", 0)])
  ]

  /** Three options whose weights are exactly 0, 1 and 2 and whose captions differ. */
  predicate WellWeighted(q: WeightedQuestion)
  {
    && |q.options| == 3
    && {q.options[0].weight, q.options[1].weight, q.options[2].weight} == {0, 1, 2}
    && q.options[0].caption != q.options[1].caption
    && q.options[0].caption != q.options[2].caption
    && q.options[1].caption != q.options[2].caption
  }

  lemma PoolWellWeighted()
    ensures |Themes| == 5
    ensures forall t :: 0 <= t < |Themes| ==> |Themes[t].questions| == 2
    ensures forall t, i :: 0 <= t < |Themes| && 0 <= i < |Themes[t].questions| ==> WellWeighted(Themes[t].questions[i])
  {
    forall t, i | 0 <= t < |Themes| && 0 <= i < |Themes[t].questions|
      ensures WellWeighted(Themes[t].questions[i])
    {
      if t == 0 { assert i == 0 || i == 1; }
      else if t == 1 { assert i == 0 || i == 1; }
      else if t == 2 { assert i == 0 || i == 1; }
      else if t == 3 { assert i == 0 || i == 1; }
      else { assert t == 4 && (i == 0 || i == 1); }
    }
  }

  // ---------------------------------------------------------------------
  // Drawing the questions

  /** `random.choice` per theme: the index drawn in each theme's list. */
  predicate ValidPicks(picks: seq<nat>)
  {
    |picks| == |Themes| && forall t :: 0 <= t < |Themes| ==> picks[t] < |Themes[t].questions|
  }

  /** The question list the page stores: the drawn question of each theme, shuffled. */
  function Selection(picks: seq<nat>, order: seq<nat>): (sel: seq<WeightedQuestion>)
    requires ValidPicks(picks) && IsPermutation(order, |Themes|)
    ensures |sel| == |Themes|
  {
    Shuffled(seq(|Themes|, t requires 0 <= t < |Themes| => Themes[t].questions[picks[t]]), order)
  }

  /** Every theme contributes exactly one question, the one drawn for it. */
  lemma SelectionOnePerTheme(picks: seq<nat>, order: seq<nat>, t: nat)
    requires ValidPicks(picks) && IsPermutation(order, |Themes|)
    requires t < |Themes|
    ensures exists k :: 0 <= k < |Themes| && order[k] == t && Selection(picks, order)[k] == Themes[t].questions[picks[t]]
    ensures forall j, k :: 0 <= j < k < |Themes| && order[j] == t ==> order[k] != t
  {
    assert t in order;
    var k :| 0 <= k < |order| && order[k] == t;
    assert Selection(picks, order)[k] == Themes[t].questions[picks[t]];
  }

  /** Every stored question comes from the pool, so each has three options
      weighted 0, 1 and 2. */
  lemma SelectionWellWeighted(picks: seq<nat>, order: seq<nat>)
    requires ValidPicks(picks) && IsPermutation(order, |Themes|)
    ensures AllWellWeighted(Selection(picks, order))
  {
    PoolWellWeighted();
  }

  predicate AllWellWeighted(questions: seq<WeightedQuestion>)
  {
    forall k :: 0 <= k < |questions| ==> WellWeighted(questions[k])
  }

  /** The loop of the page: append `random.choice(lista)` theme by theme,
      then shuffle. */
  method SelectOnePerTheme(picks: seq<nat>, order: seq<nat>) returns (sel: seq<WeightedQuestion>)
    requires ValidPicks(picks) && IsPermutation(order, |Themes|)
    ensures sel == Selection(picks, order)
  {
    var drawn: seq<WeightedQuestion> := [];
    for t := 0 to |Themes|
      invariant |drawn| == t
      invariant forall u :: 0 <= u < t ==> drawn[u] == Themes[u].questions[picks[u]]
    {
      drawn := drawn + [Themes[t].questions[picks[t]]];
    }
    sel := Shuffled(drawn, order);
  }

  // ---------------------------------------------------------------------
  // Scoring

  /** The weight of the option with this caption (`opcoes[resposta]`). */
  function WeightOf(options: seq<WeightedOption>, answer: string): (w: Option)
    ensures w.Some? <==> exists j :: 0 <= j < |options| && options[j].caption == answer
    ensures w.Some? ==> exists j :: 0 <= j < |options| && options[j].caption == answer && options[j].weight == w.value
  {
    if options == [] then None
    else if options[0].caption == answer then Some(options[0].weight)
    else
      var w := WeightOf(options[1..], answer);
      assert w.Some? ==> exists j :: 0 <= j < |options[1..]| && options[1..][j].caption == answer && options[1..][j].weight == w.value;
      w
  }

  datatype Option = None | Some(value: nat)

  /** Each answer so far is one of the options of the question at its position. */
  predicate Answerable(questions: seq<WeightedQuestion>, answers: seq<string>)
  {
    |answers| <= |questions| && forall i :: 0 <= i < |answers| ==> WeightOf(questions[i].options, answers[i]).Some?
  }

  /** Points earned: the weight of the answer given at each position. */
  function Points(questions: seq<WeightedQuestion>, answers: seq<string>): nat
    requires Answerable(questions, answers)
  {
    if answers == [] then 0
    else
      var n := |answers| - 1;
      Points(questions, answers[..n]) + WeightOf(questions[n].options, answers[n]).value
  }

  /** No question is worth more than two points. */
  predicate AtMostTwo(questions: seq<WeightedQuestion>)
  {
    forall k, j :: 0 <= k < |questions| && 0 <= j < |questions[k].options| ==> questions[k].options[j].weight <= 2
  }

  lemma {:induction false} PointsBounded(questions: seq<WeightedQuestion>, answers: seq<string>)
    requires Answerable(questions, answers) && AtMostTwo(questions)
    ensures Points(questions, answers) <= 2 * |answers|
  {
    if answers != [] {
      var n := |answers| - 1;
      assert Answerable(questions, answers[..n]);
      PointsBounded(questions, answers[..n]);
    }
  }

  /** The `pontuacao +=` loop over the answers. */
  method TotalScore(questions: seq<WeightedQuestion>, answers: seq<string>) returns (pontuacao: nat)
    requires Answerable(questions, answers)
    ensures pontuacao == Points(questions, answers)
  {
    pontuacao := 0;
    for i := 0 to |answers|
      invariant Answerable(questions, answers[..i])
      invariant pontuacao == Points(questions, answers[..i])
    {
      assert answers[..i + 1][..i] == answers[..i];
      pontuacao := pontuacao + WeightOf(questions[i].options, answers[i]).value;
    }
    assert answers[..|answers|] == answers;
  }

  // ---------------------------------------------------------------------
  // Classification

  datatype Mindset = Growth | Transition | Barriers

  /** Growth from 75% of the maximum, transition from 50%, barriers below. */
  function Classify(pontuacao: nat, totalMax: nat): Mindset
  {
    if pontuacao as real >= totalMax as real * 0.75 then Growth
    else if pontuacao as real >= totalMax as real * 0.5 then Transition
    else Barriers
  }

  function Rank(m: Mindset): nat
  {
    match m
    case Barriers => 0
    case Transition => 1
    case Growth => 2
  }

  lemma ClassifyThresholds(pontuacao: nat, totalMax: nat)
    ensures Classify(pontuacao, totalMax) == Growth <==> 4 * pontuacao >= 3 * totalMax
    ensures Classify(pontuacao, totalMax) == Transition <==> 2 * pontuacao >= totalMax && 4 * pontuacao < 3 * totalMax
    ensures Classify(pontuacao, totalMax) == Barriers <==> 2 * pontuacao < totalMax
  {
  }

  /** A higher score never lands in a lower mindset. */
  lemma ClassifyMonotone(p1: nat, p2: nat, totalMax: nat)
    requires p1 <= p2
    ensures Rank(Classify(p1, totalMax)) <= Rank(Classify(p2, totalMax))
  {
  }

  // ---------------------------------------------------------------------
  // The page over the session

  datatype View =
    | Asking(number: nat, total: nat, question: WeightedQuestion)
    | Finished(questions: seq<WeightedQuestion>, answers: seq<string>, pontuacao: nat, totalMax: nat, mindset: Mindset)
    | Failed

  /** The session holds a quiz in progress that this page could have written:
      pool questions, a position equal to the number of answers given, and
      answers taken from the options of their questions. */
  predicate Consistent(m: map<string, Value>)
  {
    && QuestionsKey in m && m[QuestionsKey].WeightedQuestions?
    && IndexKey in m && m[IndexKey].Int?
    && AnswersKey in m && m[AnswersKey].Texts?
    && var qs, ans := m[QuestionsKey].weighted, m[AnswersKey].texts;
    && m[IndexKey].n == |ans|
    && Answerable(qs, ans)
    && AtMostTwo(qs)
    && forall k :: 0 <= k < |qs| ==> |qs[k].options| == 3
  }

  /** The keys written when the quiz (re)starts from a fresh draw. */
  function Fresh(m: map<string, Value>, sel: seq<WeightedQuestion>): map<string, Value>
  {
    m[IndexKey := Int(0)][AnswersKey := Texts([])][QuestionsKey := WeightedQuestions(sel)]
  }

  /** A fresh draw of well-weighted questions starts a consistent quiz. */
  lemma FreshConsistent(m: map<string, Value>, sel: seq<WeightedQuestion>)
    requires AllWellWeighted(sel)
    ensures Consistent(Fresh(m, sel))
  {
  }

  /** The initialisation block: only when the session has no position yet. */
  method InitIfAbsent(s: SessionState, picks: seq<nat>, order: seq<nat>)
    requires ValidPicks(picks) && IsPermutation(order, |Themes|)
    modifies s
    ensures s.store == if IndexKey in old(s.store) then old(s.store) else Fresh(old(s.store), Selection(picks, order))
  {
    if IndexKey !in s.store {
      s.store := s.store[IndexKey := Int(0)];
      s.store := s.store[AnswersKey := Texts([])];
      var sel := SelectOnePerTheme(picks, order);
      s.store := s.store[QuestionsKey := WeightedQuestions(sel)];
    }
  }

  /** The session before initialisation, after it: a fresh draw only when
      there is no position yet. */
  function Initialised(m: map<string, Value>, picks: seq<nat>, order: seq<nat>): map<string, Value>
    requires ValidPicks(picks) && IsPermutation(order, |Themes|)
  {
    if IndexKey in m then m else Fresh(m, Selection(picks, order))
  }

  /** What one pass over the page body after initialisation does to the
      session `m`, giving `m'` and the view `v`: show the current question
      and, on "Próxima", record the chosen option and move on; or, past the
      last question, show the score and mindset and, on "Recomeçar", start
      over from the fresh draw `redraw`. A session this page could not have
      written may make the page fail, and then nothing changes. */
  ghost predicate Step(m: map<string, Value>, m': map<string, Value>, v: View, choice: nat, next: bool,
                       restart: bool, redraw: seq<WeightedQuestion>)
  {
    && (Consistent(m) ==> !v.Failed? && Consistent(m'))
    && (v.Failed? ==> m' == m)
    && (Consistent(m) ==> (v.Asking? <==> m[IndexKey].n < |m[QuestionsKey].weighted|))
    && (v.Asking? ==>
          && QuestionsKey in m && m[QuestionsKey].WeightedQuestions?
          && AnswersKey in m && ListOfTexts(m[AnswersKey])
          && IndexKey in m && m[IndexKey].Int?
          && var qs, ans, atual := m[QuestionsKey].weighted, TextsIn(m[AnswersKey]), m[IndexKey].n;
          && 0 <= atual < |qs| && choice < |qs[atual].options|
          && v == Asking(atual + 1, |qs|, qs[atual])
          && m' == if next
                   then m[AnswersKey := Texts(ans + [qs[atual].options[choice].caption])][IndexKey := Int(atual + 1)]
                   else m)
    && (v.Finished? ==>
          && QuestionsKey in m && m[QuestionsKey].WeightedQuestions?
          && AnswersKey in m && ListOfTexts(m[AnswersKey])
          && var qs, ans := m[QuestionsKey].weighted, TextsIn(m[AnswersKey]);
          && Answerable(qs, ans) && |ans| == |qs|
          && v == Finished(qs, ans, Points(qs, ans), 2 * |qs|, Classify(Points(qs, ans), 2 * |qs|))
          && m' == if restart then Fresh(m, redraw) else m)
  }

  /** Recording one of the current question's options and moving on keeps
      a consistent quiz consistent. */
  lemma AnswerKeepsConsistent(m: map<string, Value>, choice: nat)
    requires Consistent(m)
    requires 0 <= m[IndexKey].n < |m[QuestionsKey].weighted|
    requires choice < |m[QuestionsKey].weighted[m[IndexKey].n].options|
    ensures var qs, atual := m[QuestionsKey].weighted, m[IndexKey].n;
      Consistent(m[AnswersKey := Texts(TextsIn(m[AnswersKey]) + [qs[atual].options[choice].caption])]
                  [IndexKey := Int(atual + 1)])
  {
    var qs, ans, atual := m[QuestionsKey].weighted, TextsIn(m[AnswersKey]), m[IndexKey].n;
    var escolha := qs[atual].options[choice].caption;
    assert WeightOf(qs[atual].options, escolha).Some?;
    assert Answerable(qs, ans + [escolha]);
  }

  /** The page body after initialisation; `choice` is the radio position
      selected and `redraw` the questions "Recomeçar" draws. */
  method Proceed(s: SessionState, choice: nat, next: bool, restart: bool, redraw: seq<WeightedQuestion>)
    returns (v: View)
    requires AllWellWeighted(redraw)
    requires choice < 3
    modifies s
    ensures Step(old(s.store), s.store, v, choice, next, restart, redraw)
  {
    if QuestionsKey !in s.store || !s.store[QuestionsKey].WeightedQuestions?
      || IndexKey !in s.store || !s.store[IndexKey].Int?
      || AnswersKey !in s.store || !ListOfTexts(s.store[AnswersKey]) {
      return Failed;
    }
    var perguntas := s.store[QuestionsKey].weighted;
    var respostas := TextsIn(s.store[AnswersKey]);
    var total := |perguntas|;
    var atual := s.store[IndexKey].n;
    if atual < total {
      if atual < 0 || choice >= |perguntas[atual].options| {
        return Failed;
      }
      var pergunta := perguntas[atual];
      v := Asking(atual + 1, total, pergunta);
      var escolha := pergunta.options[choice].caption;
      if next {
        if Consistent(s.store) {
          AnswerKeepsConsistent(s.store, choice);
        }
        s.store := s.store[AnswersKey := Texts(respostas + [escolha])];
        s.store := s.store[IndexKey := Int(atual + 1)];
      }
    } else {
      if !Answerable(perguntas, respostas) || |respostas| != total {
        return Failed;
      }
      var pontuacao := TotalScore(perguntas, respostas);
      var totalMax := total * 2;
      v := Finished(perguntas, respostas, pontuacao, totalMax, Classify(pontuacao, totalMax));
      if restart {
        s.store := s.store[IndexKey := Int(0)];
        s.store := s.store[AnswersKey := Texts([])];
        s.store := s.store[QuestionsKey := WeightedQuestions(redraw)];
        FreshConsistent(old(s.store), redraw);
      }
    }
  }

  /** One run of the page as written: the quiz keys are deleted first, so the
      initialisation always fires and every run shows question 1 of a new
      draw; a press of "Próxima" is forgotten by the next run. */
  method Run(s: SessionState, picks: seq<nat>, order: seq<nat>, choice: nat, next: bool,
             restart: bool, newPicks: seq<nat>, newOrder: seq<nat>) returns (v: View)
    requires ValidPicks(picks) && IsPermutation(order, |Themes|)
    requires ValidPicks(newPicks) && IsPermutation(newOrder, |Themes|)
    requires choice < 3
    modifies s
    ensures Step(Fresh(HelpClean.WithoutQuizKeys(old(s.store)), Selection(picks, order)), s.store, v,
                 choice, next, restart, Selection(newPicks, newOrder))
    ensures v == Asking(1, |Themes|, Selection(picks, order)[0])
    ensures IndexKey in s.store && s.store[IndexKey] == Int(if next then 1 else 0)
  {
    HelpClean.CleanSessionQuestions(s);
    InitIfAbsent(s, picks, order);
    SelectionWellWeighted(picks, order);
    FreshConsistent(HelpClean.WithoutQuizKeys(old(s.store)), Selection(picks, order));
    var redraw := SelectOnePerTheme(newPicks, newOrder);
    SelectionWellWeighted(newPicks, newOrder);
    v := Proceed(s, choice, next, restart, redraw);
  }

  /** The same run without the leading clean: the page then keeps its
      progress between reruns, as the question counter it shows intends. */
  method RunKeepingProgress(s: SessionState, picks: seq<nat>, order: seq<nat>, choice: nat, next: bool,
                            restart: bool, newPicks: seq<nat>, newOrder: seq<nat>) returns (v: View)
    requires ValidPicks(picks) && IsPermutation(order, |Themes|)
    requires ValidPicks(newPicks) && IsPermutation(newOrder, |Themes|)
    requires choice < 3
    modifies s
    ensures Step(Initialised(old(s.store), picks, order), s.store, v, choice, next, restart, Selection(newPicks, newOrder))
    ensures Consistent(old(s.store)) || IndexKey !in old(s.store) ==> !v.Failed?
  {
    InitIfAbsent(s, picks, order);
    if IndexKey !in old(s.store) {
      SelectionWellWeighted(picks, order);
      FreshConsistent(old(s.store), Selection(picks, order));
    }
    var redraw := SelectOnePerTheme(newPicks, newOrder);
    SelectionWellWeighted(newPicks, newOrder);
    v := Proceed(s, choice, next, restart, redraw);
  }

  /** Pressing "Próxima" on every run of the page as written: however many
      times it is pressed, the page is still on question 1. */
  method PressNextAsWritten(s: SessionState, picks: seq<nat>, order: seq<nat>, choices: seq<nat>) returns (v: View)
    requires ValidPicks(picks) && IsPermutation(order, |Themes|)
    requires |choices| > 0 && forall k :: 0 <= k < |choices| ==> choices[k] < 3
    modifies s
    ensures v.Asking? && v.number == 1
    ensures IndexKey in s.store && s.store[IndexKey] == Int(1)
  {
    v := Run(s, picks, order, choices[0], true, false, picks, order);
    for k := 1 to |choices|
      invariant v.Asking? && v.number == 1
      invariant IndexKey in s.store && s.store[IndexKey] == Int(1)
    {
      v := Run(s, picks, order, choices[k], true, false, picks, order);
    }
  }

  /** One press of "Próxima" on the page keeping its progress, after the
      answers `answered` (none yet: the session holds no position). */
  method AnswerNext(s: SessionState, picks: seq<nat>, order: seq<nat>, choice: nat,
                    ghost sel: seq<WeightedQuestion>, ghost answered: seq<string>) returns (v: View)
    requires ValidPicks(picks) && IsPermutation(order, |Themes|) && choice < 3
    requires sel == Selection(picks, order) && |answered| < |Themes|
    requires answered == [] ==> IndexKey !in s.store
    requires answered != [] ==> Consistent(s.store) && s.store[QuestionsKey].weighted == sel
    requires answered != [] ==> s.store[IndexKey].n == |answered| && s.store[AnswersKey].texts == answered
    modifies s
    ensures Consistent(s.store) && s.store[QuestionsKey].weighted == sel
    ensures s.store[IndexKey].n == |answered| + 1
    ensures s.store[AnswersKey].texts == answered + [sel[|answered|].options[choice].caption]
  {
    if answered == [] {
      SelectionWellWeighted(picks, order);
      FreshConsistent(s.store, sel);
    }
    v := RunKeepingProgress(s, picks, order, choice, true, false, picks, order);
  }

  /** The run after the last answer, keeping progress: the results page. */
  method ShowResults(s: SessionState, picks: seq<nat>, order: seq<nat>,
                     ghost sel: seq<WeightedQuestion>, ghost answers: seq<string>) returns (v: View)
    requires ValidPicks(picks) && IsPermutation(order, |Themes|)
    requires Consistent(s.store) && s.store[QuestionsKey].weighted == sel && |sel| == |Themes|
    requires s.store[IndexKey].n == |Themes| && s.store[AnswersKey].texts == answers
    modifies s
    ensures v.Finished? && v.questions == sel && v.answers == answers
    ensures v.totalMax == 2 * |Themes| && v.pontuacao <= v.totalMax
  {
    v := RunKeepingProgress(s, picks, order, 0, false, false, picks, order);
    PointsBounded(sel, answers);
  }

  /** Entering the page once (the clean) and then pressing "Próxima" once per
      question reaches the results, scored on the answers given. */
  method AnswerAllKeepingProgress(s: SessionState, picks: seq<nat>, order: seq<nat>, choices: seq<nat>) returns (v: View)
    requires ValidPicks(picks) && IsPermutation(order, |Themes|)
    requires |choices| == |Themes| && forall k :: 0 <= k < |choices| ==> choices[k] < 3
    modifies s
    ensures v.Finished?
    ensures v.questions == Selection(picks, order)
    ensures v.answers == seq(|Themes|, k requires 0 <= k < |Themes| => Selection(picks, order)[k].options[choices[k]].caption)
    ensures v.totalMax == 10 && v.pontuacao <= v.totalMax
  {
    HelpClean.CleanSessionQuestions(s);
    var sel := Selection(picks, order);
    SelectionWellWeighted(picks, order);
    ghost var expected := seq(|Themes|, k requires 0 <= k < |Themes| => sel[k].options[choices[k]].caption);
    assert IndexKey in HelpClean.QuizKeys;
    v := AnswerNext(s, picks, order, choices[0], sel, expected[..0]);
    PrefixGrows(expected, 0);
    for k := 1 to |Themes|
      invariant Consistent(s.store) && s.store[QuestionsKey].weighted == sel
      invariant s.store[IndexKey].n == k && s.store[AnswersKey].texts == expected[..k]
    {
      v := AnswerNext(s, picks, order, choices[k], sel, expected[..k]);
      PrefixGrows(expected, k);
    }
    WholePrefix(expected, |Themes|);
    v := ShowResults(s, picks, order, sel, expected);
  }
}
