/** The "are you influenced?" self-assessment: two questions are drawn from
    each of five themes, shuffled and answered one at a time with "Sim",
    "Não" or "Depende"; five or more "Sim"/"Depende" answers draw a warning. */
module InfluenceQuiz {
  import opened Session
  import opened Draws
  import HelpClean

  /** The question pool, theme by theme: price, social networks, emotions,
      behaviour and language. */
  const Themes: seq<seq<string>> := [
    [ "Um produto com 999€ parece mais barato do que um com 1000€?",
      "Se vires '-50% desconto', ficas automaticamente mais interessado?",
      "Acreditas que um produto mais caro é, à partida, de melhor qualidade?",
      "Quando algo é anunciado como 'edição limitada', sentes mais vontade de comprar?",
      "Já compraste algo porque 'era uma boa oportunidade', mesmo sem precisares?" ],
    [ "Já sentiste vontade de comprar algo só porque muitos amigos ou influencers o têm?",
      "Já compraste algo por recomendação de alguém que segues nas redes sociais?",
      "Já quiseste um produto apenas para não te sentires 'fora de moda'?",
      "Alguma vez te sentiste mal por não ter o que outras pessoas mostram online?",
      "Segues contas de marcas ou influencers que te fazem gastar mais do que querias?" ],
    [ "Alguma vez compraste algo para te sentires melhor ou recompensado?",
      "Acreditas que certos produtos podem realmente mudar a forma como te sentes (mais confiante, feliz, bonito, etc.)?",
      "Frases como 'Tu mereces!' ou 'Torna-te a tua melhor versão' já te motivaram a comprar algo?",
      "Quando vês uma publicidade emocional, sentes-te mais inclinado a confiar na marca?",
      "Já foste influenciado por um anúncio que usava música, imagens ou histórias inspiradoras?" ],
    [ "Tens tendência a comprar mais quando há promoções ou saldos?",
      "Guardas produtos no carrinho online 'só para ver o preço' e acabas por comprar?",
      "Alguma vez compraste algo e depois arrependeste-te logo de seguida?",
      "Sentes que às vezes compras por impulso?",
      "Costumas esquecer-te de planear as tuas compras?" ],
    [ "Expressões como 'última oportunidade', 'exclusivo' ou 'só hoje' despertam o teu interesse?",
      "Se uma marca usa palavras como 'natural', 'sustentável' ou 'premium', isso muda a tua perceção?",
      "Achas que a forma como uma marca fala contigo (mais próxima, divertida ou emocional) te faz confiar mais nela?",
      "Palavras como 'novo', 'melhorado' ou 'inovador' chamam mais a tua atenção?",
      "Já sentiste que o nome ou o design de um produto te fizeram valorizá-lo mais?" ]
  ]

  /** The answers the radio widget offers, in order. */
  const Choices: seq<string> := ["Sim", "Não", "Depende"]

  /** How many questions each theme contributes. */
  const PerTheme := 2

  /** The whole pool in the dictionary's order. */
  function Pool(): (p: seq<string>)
    ensures |p| == 25
    ensures forall t, i :: 0 <= t < 5 && 0 <= i < 5 ==> p[5 * t + i] == Themes[t][i]
  {
    FlattenFive(Themes);
    Themes[0] + Themes[1] + Themes[2] + Themes[3] + Themes[4]
  }

  /** Five themes of five questions, one after the other: question `i` of
      theme `t` lands at `5t + i`. */
  lemma FlattenFive(themes: seq<seq<string>>)
    requires |themes| == 5 && forall t :: 0 <= t < 5 ==> |themes[t]| == 5
    ensures forall t, i :: 0 <= t < 5 && 0 <= i < 5 ==>
      (themes[0] + themes[1] + themes[2] + themes[3] + themes[4])[5 * t + i] == themes[t][i]
  {
  }

  /** `random.sample(lista, 2)` for every theme. */
  predicate ValidPairs(pairs: seq<seq<nat>>)
  {
    PairsFor(Themes, pairs)
  }

  /** A sample of two indices for every theme of a table of themes. */
  predicate PairsFor(themes: seq<seq<string>>, pairs: seq<seq<nat>>)
  {
    |pairs| == |themes| && forall t :: 0 <= t < |themes| ==> IsSample(pairs[t], PerTheme, |themes[t]|)
  }

  /** The list before the shuffle: theme by theme, the two questions sampled. */
  function Drawn(pairs: seq<seq<nat>>): (d: seq<string>)
    requires ValidPairs(pairs)
    ensures |d| == PerTheme * |Themes|
  {
    DrawnFrom(Themes, pairs)
  }

  function DrawnFrom(themes: seq<seq<string>>, pairs: seq<seq<nat>>): (d: seq<string>)
    requires PairsFor(themes, pairs)
    ensures |d| == PerTheme * |themes|
  {
    seq(PerTheme * |themes|, k requires 0 <= k < PerTheme * |themes| => themes[k / PerTheme][pairs[k / PerTheme][k % PerTheme]])
  }

  /** Entry `2t + i` of the list before the shuffle is the `i`-th question
      sampled from theme `t`. */
  lemma DrawnAt(themes: seq<seq<string>>, pairs: seq<seq<nat>>, t: nat, i: nat)
    requires PairsFor(themes, pairs) && t < |themes| && i < PerTheme
    ensures DrawnFrom(themes, pairs)[PerTheme * t + i] == themes[t][pairs[t][i]]
  {
    var k := PerTheme * t + i;
    assert k / PerTheme == t && k % PerTheme == i;
  }

  /** The first `t` themes' samples are in place, two by two. */
  predicate DrawnUpTo(themes: seq<seq<string>>, pairs: seq<seq<nat>>, drawn: seq<string>, t: nat)
    requires PairsFor(themes, pairs) && t <= |themes|
  {
    && |drawn| == PerTheme * t
    && forall u, i :: 0 <= u < t && 0 <= i < PerTheme ==> drawn[PerTheme * u + i] == themes[u][pairs[u][i]]
  }

  /** `extend` with theme `t`'s sample puts one more theme in place. */
  lemma DrawStep(themes: seq<seq<string>>, pairs: seq<seq<nat>>, drawn: seq<string>, t: nat)
    requires PairsFor(themes, pairs) && t < |themes| && DrawnUpTo(themes, pairs, drawn, t)
    ensures DrawnUpTo(themes, pairs, drawn + [themes[t][pairs[t][0]], themes[t][pairs[t][1]]], t + 1)
  {
  }

  /** With every theme in place, the list is the one before the shuffle. */
  lemma DrawnComplete(themes: seq<seq<string>>, pairs: seq<seq<nat>>, drawn: seq<string>)
    requires PairsFor(themes, pairs) && DrawnUpTo(themes, pairs, drawn, |themes|)
    ensures drawn == DrawnFrom(themes, pairs)
  {
    forall k | 0 <= k < |drawn|
      ensures drawn[k] == DrawnFrom(themes, pairs)[k]
    {
      assert k == PerTheme * (k / PerTheme) + k % PerTheme;
    }
  }

  /** The question list the page stores. */
  function Selection(pairs: seq<seq<nat>>, order: seq<nat>): (sel: seq<string>)
    requires ValidPairs(pairs) && IsPermutation(order, PerTheme * |Themes|)
    ensures |sel| == 10
  {
    Shuffled(Drawn(pairs), order)
  }

  /** Where each stored question sits in the pool. */
  function Positions(pairs: seq<seq<nat>>, order: seq<nat>): (pos: seq<nat>)
    requires ValidPairs(pairs) && IsPermutation(order, PerTheme * |Themes|)
    ensures |pos| == 10
    ensures forall k :: 0 <= k < 10 ==> pos[k] < |Pool()|
  {
    seq(10, k requires 0 <= k < 10 =>
      var d := order[k]; 5 * (d / PerTheme) + pairs[d / PerTheme][d % PerTheme])
  }

  /** The stored questions are the pool entries at `Positions`. */
  lemma SelectionAtPositions(pairs: seq<seq<nat>>, order: seq<nat>)
    requires ValidPairs(pairs) && IsPermutation(order, PerTheme * |Themes|)
    ensures forall k :: 0 <= k < 10 ==> Selection(pairs, order)[k] == Pool()[Positions(pairs, order)[k]]
  {
    var pos, sel, d, pool := Positions(pairs, order), Selection(pairs, order), Drawn(pairs), Pool();
    forall k | 0 <= k < 10
      ensures sel[k] == pool[pos[k]]
    {
      var t, i := order[k] / PerTheme, order[k] % PerTheme;
      var j := pairs[t][i];
      assert order[k] == PerTheme * t + i;
      assert pos[k] == 5 * t + j;
      assert sel[k] == d[order[k]];
      DrawnAt(Themes, pairs, t, i);
      assert pool[5 * t + j] == Themes[t][j];
    }
  }

  /** No pool entry is drawn twice. */
  lemma PositionsDistinct(pairs: seq<seq<nat>>, order: seq<nat>)
    requires ValidPairs(pairs) && IsPermutation(order, PerTheme * |Themes|)
    ensures Distinct(Positions(pairs, order))
  {
    var pos := Positions(pairs, order);
    forall j, k | 0 <= j < k < 10
      ensures pos[j] != pos[k]
    {
      var tj, ij, tk, ik := order[j] / PerTheme, order[j] % PerTheme, order[k] / PerTheme, order[k] % PerTheme;
      assert order[j] != order[k];
      if tj == tk {
        assert ij != ik;
        assert pairs[tj][ij] != pairs[tk][ik];
      } else {
        assert pairs[tj][ij] < 5 && pairs[tk][ik] < 5;
      }
    }
  }

  /** Both questions sampled from every theme are among the ten stored. */
  lemma PositionsCoverSamples(pairs: seq<seq<nat>>, order: seq<nat>)
    requires ValidPairs(pairs) && IsPermutation(order, PerTheme * |Themes|)
    ensures forall t, i :: 0 <= t < |Themes| && 0 <= i < PerTheme ==> 5 * t + pairs[t][i] in Positions(pairs, order)
  {
    var pos := Positions(pairs, order);
    forall t, i | 0 <= t < |Themes| && 0 <= i < PerTheme
      ensures 5 * t + pairs[t][i] in pos
    {
      var d := PerTheme * t + i;
      assert d < 10 && d in order;
      var k :| 0 <= k < 10 && order[k] == d;
      assert d / PerTheme == t && d % PerTheme == i;
      assert pos[k] == 5 * t + pairs[t][i];
    }
  }

  /** The loop of the page: `extend` with the theme's sample, theme by theme,
      then shuffle. */
  method SelectTwoPerTheme(pairs: seq<seq<nat>>, order: seq<nat>) returns (sel: seq<string>)
    requires ValidPairs(pairs) && IsPermutation(order, PerTheme * |Themes|)
    ensures sel == Selection(pairs, order)
  {
    var drawn: seq<string> := [];
    for t := 0 to |Themes|
      invariant DrawnUpTo(Themes, pairs, drawn, t)
    {
      DrawStep(Themes, pairs, drawn, t);
      drawn := drawn + [Themes[t][pairs[t][0]], Themes[t][pairs[t][1]]];
    }
    DrawnComplete(Themes, pairs, drawn);
    sel := Shuffled(drawn, order);
  }

  // ---------------------------------------------------------------------
  // Counting

  predicate IsInfluenced(answer: string)
  {
    answer == "Sim" || answer == "Depende"
  }

  /** How many answers are "Sim" or "Depende". */
  function Influenced(answers: seq<string>): nat
  {
    if answers == [] then 0
    else Influenced(answers[..|answers| - 1]) + (if IsInfluenced(answers[|answers| - 1]) then 1 else 0)
  }

  lemma {:induction false} InfluencedBounded(answers: seq<string>)
    ensures Influenced(answers) <= |answers|
    ensures Influenced(answers) == |answers| <==> forall i :: 0 <= i < |answers| ==> IsInfluenced(answers[i])
    ensures Influenced(answers) == 0 <==> forall i :: 0 <= i < |answers| ==> !IsInfluenced(answers[i])
  {
    if answers != [] {
      var n := |answers| - 1;
      InfluencedBounded(answers[..n]);
      assert forall i :: 0 <= i < n ==> answers[..n][i] == answers[i];
    }
  }

  datatype Verdict = Warning(influenced: nat, total: nat) | Praise(influenced: nat, total: nat)

  /** The warning when five or more answers show influence, praise otherwise. */
  function Assess(answers: seq<string>, total: nat): (v: Verdict)
    ensures v.influenced == Influenced(answers) && v.total == total
    ensures v.Warning? <==> Influenced(answers) >= 5
  {
    var influenciadas := Influenced(answers);
    if influenciadas >= 5 then Warning(influenciadas, total) else Praise(influenciadas, total)
  }

  // ---------------------------------------------------------------------
  // The page over the session

  datatype View =
    | Asking(number: nat, total: nat, question: string)
    | Finished(questions: seq<string>, answers: seq<string>, verdict: Verdict)
    | Failed

  /** A quiz in progress this page could have written. */
  predicate Consistent(m: map<string, Value>)
  {
    && QuestionsKey in m && m[QuestionsKey].Texts?
    && IndexKey in m && m[IndexKey].Int?
    && AnswersKey in m && m[AnswersKey].Texts?
    && var qs, ans := m[QuestionsKey].texts, m[AnswersKey].texts;
    && m[IndexKey].n == |ans| <= |qs|
    && forall i :: 0 <= i < |ans| ==> ans[i] in Choices
  }

  function Fresh(m: map<string, Value>, sel: seq<string>): map<string, Value>
  {
    m[IndexKey := Int(0)][AnswersKey := Texts([])][QuestionsKey := Texts(sel)]
  }

  function Initialised(m: map<string, Value>, pairs: seq<seq<nat>>, order: seq<nat>): map<string, Value>
    requires ValidPairs(pairs) && IsPermutation(order, PerTheme * |Themes|)
  {
    if IndexKey in m then m else Fresh(m, Selection(pairs, order))
  }

  /** What one pass over the page body after initialisation does to the
      session: one question with "Próxima" appending the answer chosen, or
      the verdict with "Recomeçar" drawing ten new questions. */
  ghost predicate Step(m: map<string, Value>, m': map<string, Value>, v: View, choice: nat, next: bool,
                       restart: bool, newPairs: seq<seq<nat>>, newOrder: seq<nat>)
    requires ValidPairs(newPairs) && IsPermutation(newOrder, PerTheme * |Themes|)
  {
    && (Consistent(m) ==> !v.Failed? && Consistent(m'))
    && (v.Failed? ==> m' == m)
    && (Consistent(m) ==> (v.Asking? <==> m[IndexKey].n < |m[QuestionsKey].texts|))
    && (v.Asking? ==>
          && QuestionsKey in m && m[QuestionsKey].Texts?
          && AnswersKey in m && ListOfTexts(m[AnswersKey])
          && IndexKey in m && m[IndexKey].Int?
          && var qs, ans, atual := m[QuestionsKey].texts, TextsIn(m[AnswersKey]), m[IndexKey].n;
          && 0 <= atual < |qs| && choice < |Choices|
          && v == Asking(atual + 1, |qs|, qs[atual])
          && m' == if next then m[AnswersKey := Texts(ans + [Choices[choice]])][IndexKey := Int(atual + 1)] else m)
    && (v.Finished? ==>
          && QuestionsKey in m && m[QuestionsKey].Texts?
          && AnswersKey in m && ListOfTexts(m[AnswersKey])
          && var qs, ans := m[QuestionsKey].texts, TextsIn(m[AnswersKey]);
          && |ans| == |qs|
          && v == Finished(qs, ans, Assess(ans, |qs|))
          && m' == if restart then Fresh(m, Selection(newPairs, newOrder)) else m)
  }

  method InitIfAbsent(s: SessionState, pairs: seq<seq<nat>>, order: seq<nat>)
    requires ValidPairs(pairs) && IsPermutation(order, PerTheme * |Themes|)
    modifies s
    ensures s.store == Initialised(old(s.store), pairs, order)
  {
    if IndexKey !in s.store {
      s.store := s.store[IndexKey := Int(0)];
      s.store := s.store[AnswersKey := Texts([])];
      var sel := SelectTwoPerTheme(pairs, order);
      s.store := s.store[QuestionsKey := Texts(sel)];
    }
  }

  /** The page body after initialisation; `choice` is the radio position. */
  method Proceed(s: SessionState, choice: nat, next: bool, restart: bool, newPairs: seq<seq<nat>>, newOrder: seq<nat>)
    returns (v: View)
    requires ValidPairs(newPairs) && IsPermutation(newOrder, PerTheme * |Themes|)
    requires choice < |Choices|
    modifies s
    ensures Step(old(s.store), s.store, v, choice, next, restart, newPairs, newOrder)
  {
    if QuestionsKey !in s.store || !s.store[QuestionsKey].Texts?
      || IndexKey !in s.store || !s.store[IndexKey].Int?
      || AnswersKey !in s.store || !ListOfTexts(s.store[AnswersKey]) {
      return Failed;
    }
    var perguntas := s.store[QuestionsKey].texts;
    var respostas := TextsIn(s.store[AnswersKey]);
    var total := |perguntas|;
    var atual := s.store[IndexKey].n;
    if atual < total {
      if atual < 0 {
        return Failed;
      }
      v := Asking(atual + 1, total, perguntas[atual]);
      var escolha := Choices[choice];
      if next {
        s.store := s.store[AnswersKey := Texts(respostas + [escolha])];
        s.store := s.store[IndexKey := Int(atual + 1)];
      }
    } else {
      if |respostas| != total {
        return Failed;
      }
      v := Finished(perguntas, respostas, Assess(respostas, total));
      if restart {
        s.store := s.store[IndexKey := Int(0)];
        s.store := s.store[AnswersKey := Texts([])];
        var sel := SelectTwoPerTheme(newPairs, newOrder);
        s.store := s.store[QuestionsKey := Texts(sel)];
      }
    }
  }

  /** One run of the page as written: the clean comes first, so every run
      re-initialises and shows question 1 of a new draw. */
  method Run(s: SessionState, pairs: seq<seq<nat>>, order: seq<nat>, choice: nat, next: bool,
             restart: bool, newPairs: seq<seq<nat>>, newOrder: seq<nat>) returns (v: View)
    requires ValidPairs(pairs) && IsPermutation(order, PerTheme * |Themes|)
    requires ValidPairs(newPairs) && IsPermutation(newOrder, PerTheme * |Themes|)
    requires choice < |Choices|
    modifies s
    ensures Step(Fresh(HelpClean.WithoutQuizKeys(old(s.store)), Selection(pairs, order)), s.store, v,
                 choice, next, restart, newPairs, newOrder)
    ensures v == Asking(1, 10, Selection(pairs, order)[0])
    ensures IndexKey in s.store && s.store[IndexKey] == Int(if next then 1 else 0)
  {
    HelpClean.CleanSessionQuestions(s);
    InitIfAbsent(s, pairs, order);
    ghost var start := s.store;
    v := Proceed(s, choice, next, restart, newPairs, newOrder);
    FirstStep(HelpClean.WithoutQuizKeys(old(s.store)), start, s.store, v, choice, next, restart, newPairs, newOrder,
              Selection(pairs, order));
  }

  /** From a fresh quiz, a pass over the page shows question 1 and, on
      "Próxima", moves to position 1. */
  lemma FirstStep(m: map<string, Value>, start: map<string, Value>, m': map<string, Value>, v: View,
                  choice: nat, next: bool, restart: bool, newPairs: seq<seq<nat>>, newOrder: seq<nat>,
                  sel: seq<string>)
    requires ValidPairs(newPairs) && IsPermutation(newOrder, PerTheme * |Themes|)
    requires start == Fresh(m, sel) && |sel| > 0
    requires Step(start, m', v, choice, next, restart, newPairs, newOrder)
    ensures v == Asking(1, |sel|, sel[0])
    ensures IndexKey in m' && m'[IndexKey] == Int(if next then 1 else 0)
  {
    assert Consistent(start);
  }

  /** The same run without the leading clean, keeping progress between reruns. */
  method RunKeepingProgress(s: SessionState, pairs: seq<seq<nat>>, order: seq<nat>, choice: nat, next: bool,
                            restart: bool, newPairs: seq<seq<nat>>, newOrder: seq<nat>) returns (v: View)
    requires ValidPairs(pairs) && IsPermutation(order, PerTheme * |Themes|)
    requires ValidPairs(newPairs) && IsPermutation(newOrder, PerTheme * |Themes|)
    requires choice < |Choices|
    modifies s
    ensures Step(Initialised(old(s.store), pairs, order), s.store, v, choice, next, restart, newPairs, newOrder)
    ensures Consistent(old(s.store)) || IndexKey !in old(s.store) ==> !v.Failed?
  {
    InitIfAbsent(s, pairs, order);
    v := Proceed(s, choice, next, restart, newPairs, newOrder);
  }

  /** Pressing "Próxima" on every run of the page as written never gets past question 1. */
  method PressNextAsWritten(s: SessionState, pairs: seq<seq<nat>>, order: seq<nat>, choices: seq<nat>) returns (v: View)
    requires ValidPairs(pairs) && IsPermutation(order, PerTheme * |Themes|)
    requires |choices| > 0 && forall k :: 0 <= k < |choices| ==> choices[k] < |Choices|
    modifies s
    ensures v.Asking? && v.number == 1
    ensures IndexKey in s.store && s.store[IndexKey] == Int(1)
  {
    v := Run(s, pairs, order, choices[0], true, false, pairs, order);
    for k := 1 to |choices|
      invariant v.Asking? && v.number == 1
      invariant IndexKey in s.store && s.store[IndexKey] == Int(1)
    {
      v := Run(s, pairs, order, choices[k], true, false, pairs, order);
    }
  }

  /** Entering the page once and pressing "Próxima" on each of the ten
      questions reaches the verdict on exactly the answers given. */
  method AnswerAllKeepingProgress(s: SessionState, pairs: seq<seq<nat>>, order: seq<nat>, choices: seq<nat>) returns (v: View)
    requires ValidPairs(pairs) && IsPermutation(order, PerTheme * |Themes|)
    requires |choices| == 10 && forall k :: 0 <= k < |choices| ==> choices[k] < |Choices|
    modifies s
    ensures v.Finished?
    ensures v.questions == Selection(pairs, order)
    ensures v.answers == seq(10, k requires 0 <= k < 10 => Choices[choices[k]])
    ensures v.verdict.Warning? <==> Influenced(v.answers) >= 5
  {
    HelpClean.CleanSessionQuestions(s);
    var sel := Selection(pairs, order);
    ghost var expected := seq(10, k requires 0 <= k < 10 => Choices[choices[k]]);
    for k := 0 to 10
      invariant k == 0 ==> IndexKey !in s.store
      invariant k > 0 ==> Consistent(s.store) && s.store[QuestionsKey].texts == sel
      invariant k > 0 ==> s.store[IndexKey].n == k && s.store[AnswersKey].texts == expected[..k]
    {
      v := RunKeepingProgress(s, pairs, order, choices[k], true, false, pairs, order);
      PrefixGrows(expected, k);
    }
    v := RunKeepingProgress(s, pairs, order, 0, false, false, pairs, order);
    WholePrefix(expected, 10);
  }
}
