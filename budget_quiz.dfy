/** The first budget quiz: four questions drawn once per session from a pool
    of ten, each shown with its options and a button that reveals whether the
    selected option is the correct one, with the explanation. The drawing and
    display are shared with the second budget quiz, which differs only in its
    pool and its session key. */
module BudgetQuiz {
  import opened Session
  import opened Draws

  /** The session key holding this page's draw. */
  const SampleKey := "perguntas_aleatorias"

  /** How many questions are drawn. */
  const Drawn := 4

  const Pool: seq<CheckedQuestion> := [
    CheckedQuestion(
      "Um orçamento serve apenas para quem tem pouco dinheiro?",
      ["Sim, quem tem pouco dinheiro precisa controlar-se mais.",
       "Não, todos devem ter um orçamento."],
      "Não, todos devem ter um orçamento.",
      "Um orçamento é útil para qualquer pessoa, independentemente do rendimento."),
    CheckedQuestion(
      "Se recebes 1000 € e gastas 900 €, o que te sobra é poupança?",
      ["Sim, os 100 € são poupança.",
       "Não, só é poupança se eu decidir guardá-los."],
      "Não, só é poupança se eu decidir guardá-los.",
      "Só é poupança quando decides não gastar o que sobra."),
    CheckedQuestion(
      "Qual destas é uma boa razão para fazer um orçamento?",
      ["Saber para onde vai o meu dinheiro.",
       "Gastar mais sem me preocupar.",
       "Evitar falar de dinheiro."],
      "Saber para onde vai o meu dinheiro.",
      "O orçamento ajuda-te a controlar e planear os teus gastos."),
    CheckedQuestion(
      "Qual seria o primeiro passo para criar um orçamento?",
      ["Anotar todos os rendimentos e despesas.",
       "Comprar uma aplicação cara de finanças.",
       "Guardar o dinheiro debaixo do colchão."],
      "Anotar todos os rendimentos e despesas.",
      "O primeiro passo é saber quanto entra e quanto sai todos os meses."),
    CheckedQuestion(
      "Se não sabes para onde vai o teu dinheiro, qual é a consequência?",
      ["Gastas menos do que podes.",
       "Gastas sem controlo e não poupas."],
      "Gastas sem controlo e não poupas.",
      "Sem controlo, é fácil gastar mais do que se devia e não criar poupança."),
    CheckedQuestion(
      "O que é considerado uma despesa fixa?",
      ["Renda da casa.", "Comprar roupas novas."],
      "Renda da casa.",
      "Despesas fixas são aquelas que se repetem todos os meses e são obrigatórias."),
    CheckedQuestion(
      "O que é uma despesa variável?",
      ["Contas de luz e água.", "Comer fora ou lazer."],
      "Comer fora ou lazer.",
      "Despesas variáveis mudam de mês para mês e são mais flexíveis."),
    CheckedQuestion(
      "Guardar um pouco de dinheiro todo mês é chamado de:",
      ["Investimento.", "Poupança.", "Orçamento."],
      "Poupança.",
      "Guardar dinheiro regularmente é chamado de poupança."),
    CheckedQuestion(
      "O que deve vir primeiro no teu orçamento mensal?",
      ["Lazer e compras.", "Despesas essenciais e poupança.", "Investimentos arriscados."],
      "Despesas essenciais e poupança.",
      "O orçamento prioriza o essencial e depois o lazer ou extra."),
    CheckedQuestion(
      "Um bom orçamento deve ser:",
      ["Flexível e realista.", "Rígido e impossível de cumprir."],
      "Flexível e realista.",
      "Um orçamento deve ser possível de seguir e ajustar conforme a vida muda.")
  ]

  /** A question the page can check: at least two options, none repeated,
      and the correct answer among them. */
  predicate WellFormed(q: CheckedQuestion)
  {
    && |q.options| >= 2
    && Distinct(q.options)
    && q.correct in q.options
  }

  lemma PoolWellFormed()
    ensures |Pool| == 10
    ensures forall i :: 0 <= i < |Pool| ==> WellFormed(Pool[i])
  {
  }

  // ---------------------------------------------------------------------
  // Checking one answer

  datatype Feedback = Hidden | Correct(explanation: string) | Incorrect(explanation: string)

  /** The feedback under a question: nothing until its button is pressed,
      then right or wrong according to the selected option, with the
      explanation either way. */
  function Check(pressed: bool, resposta: string, q: CheckedQuestion): (f: Feedback)
    ensures f.Hidden? <==> !pressed
    ensures f.Correct? <==> pressed && resposta == q.correct
    ensures !f.Hidden? ==> f.explanation == q.explanation
  {
    if !pressed then Hidden
    else if resposta == q.correct then Correct(q.explanation)
    else Incorrect(q.explanation)
  }

  /** On a well-formed question exactly one option is judged correct. */
  lemma OneCorrectOption(q: CheckedQuestion)
    requires WellFormed(q)
    ensures exists i :: 0 <= i < |q.options| && Check(true, q.options[i], q).Correct?
    ensures forall i, j ::
      (0 <= i < |q.options| && 0 <= j < |q.options|
       && Check(true, q.options[i], q).Correct? && Check(true, q.options[j], q).Correct?) ==> i == j
  {
    var i :| 0 <= i < |q.options| && q.options[i] == q.correct;
    assert Check(true, q.options[i], q).Correct?;
  }

  // ---------------------------------------------------------------------
  // The page over the session

  /** One question as displayed: its number from 1, the selected option
      and the feedback. */
  datatype Panel = Panel(number: nat, prompt: string, options: seq<string>, answer: string, feedback: Feedback)

  datatype View = Shown(panels: seq<Panel>) | Failed

  /** The radio position selected under question `i`; a radio nobody has
      touched sits on its first option. */
  function Position(choices: seq<nat>, i: nat): nat
  {
    if i < |choices| then choices[i] else 0
  }

  function Pressed(presses: seq<bool>, i: nat): bool
  {
    i < |presses| && presses[i]
  }

  /** The panel for the `i`-th question shown. */
  function MakePanel(q: CheckedQuestion, i: nat, choices: seq<nat>, presses: seq<bool>): (p: Panel)
    requires Position(choices, i) < |q.options|
    ensures p.number == i + 1 && p.prompt == q.prompt && p.options == q.options
    ensures p.answer == q.options[Position(choices, i)]
    ensures p.feedback == Check(Pressed(presses, i), p.answer, q)
  {
    var resposta := q.options[Position(choices, i)];
    Panel(i + 1, q.prompt, q.options, resposta, Check(Pressed(presses, i), resposta, q))
  }

  /** The draw the page stores: the pool entries at the sampled positions. */
  function SampleOf(pool: seq<CheckedQuestion>, sample: seq<nat>): (qs: seq<CheckedQuestion>)
    requires IsSample(sample, |sample|, |pool|)
    ensures |qs| == |sample|
    ensures forall k :: 0 <= k < |sample| ==> qs[k] == pool[sample[k]]
  {
    seq(|sample|, k requires 0 <= k < |sample| => pool[sample[k]])
  }

  /** Every selected position fits the question it is under. */
  predicate Answerable(qs: seq<CheckedQuestion>, choices: seq<nat>)
  {
    forall i :: 0 <= i < |qs| ==> Position(choices, i) < |qs[i].options|
  }

  /** The display loop: one panel per stored question, in order. */
  method ShowAll(qs: seq<CheckedQuestion>, choices: seq<nat>, presses: seq<bool>) returns (panels: seq<Panel>)
    requires Answerable(qs, choices)
    ensures |panels| == |qs|
    ensures forall i :: 0 <= i < |qs| ==> panels[i] == MakePanel(qs[i], i, choices, presses)
  {
    panels := [];
    for i := 0 to |qs|
      invariant |panels| == i
      invariant forall j :: 0 <= j < i ==> panels[j] == MakePanel(qs[j], j, choices, presses)
    {
      panels := panels + [MakePanel(qs[i], i, choices, presses)];
    }
  }

  /** One run of a sampled quiz page: draw under `key` only when the session
      has no draw there yet, then display the stored draw. A value of another
      shape under the key, or a selection outside a question's options,
      makes the page fail. */
  method ShowSample(s: SessionState, key: string, pool: seq<CheckedQuestion>, sample: seq<nat>,
                    choices: seq<nat>, presses: seq<bool>) returns (v: View)
    requires IsSample(sample, |sample|, |pool|)
    modifies s
    ensures s.store == if key in old(s.store) then old(s.store)
                       else old(s.store)[key := CheckedQuestions(SampleOf(pool, sample))]
    ensures v.Shown? <==> s.store[key].CheckedQuestions? && Answerable(s.store[key].checked, choices)
    ensures v.Shown? ==>
      var qs := s.store[key].checked;
      |v.panels| == |qs| && forall i :: 0 <= i < |qs| ==> v.panels[i] == MakePanel(qs[i], i, choices, presses)
  {
    if key !in s.store {
      s.store := s.store[key := CheckedQuestions(SampleOf(pool, sample))];
    }
    var stored := s.store[key];
    if !stored.CheckedQuestions? || !Answerable(stored.checked, choices) {
      return Failed;
    }
    var panels := ShowAll(stored.checked, choices, presses);
    v := Shown(panels);
  }

  /** Every question of a draw from a well-formed pool can be answered by a
      selection among its first two options. */
  lemma FirstDrawWellFormed(pool: seq<CheckedQuestion>, sample: seq<nat>, choices: seq<nat>)
    requires IsSample(sample, |sample|, |pool|)
    requires forall i :: 0 <= i < |pool| ==> WellFormed(pool[i])
    requires forall i :: 0 <= i < |choices| ==> choices[i] < 2
    ensures Answerable(SampleOf(pool, sample), choices)
  {
  }

  /** One run of this page; `choices` are the radio positions selected,
      which may be any option of a question, the third included. On a first
      visit the draw is shown whenever every position fits its question, and
      in particular whenever each is one of the first two. */
  method Run(s: SessionState, sample: seq<nat>, choices: seq<nat>, presses: seq<bool>) returns (v: View)
    requires IsSample(sample, Drawn, |Pool|)
    modifies s
    ensures SampleKey in old(s.store) ==> s.store == old(s.store)
    ensures SampleKey !in old(s.store) ==> s.store == old(s.store)[SampleKey := CheckedQuestions(SampleOf(Pool, sample))]
    ensures SampleKey !in old(s.store) ==> (v.Shown? <==> Answerable(SampleOf(Pool, sample), choices))
    ensures SampleKey !in old(s.store) && (forall i :: 0 <= i < |choices| ==> choices[i] < 2) ==> v.Shown?
    ensures v.Shown? ==> forall i :: 0 <= i < |v.panels| ==> v.panels[i].number == i + 1
    ensures v.Shown? && SampleKey !in old(s.store) ==>
      && |v.panels| == Drawn
      && forall i :: 0 <= i < Drawn ==> v.panels[i] == MakePanel(Pool[sample[i]], i, choices, presses)
  {
    PoolWellFormed();
    if forall i :: 0 <= i < |choices| ==> choices[i] < 2 {
      FirstDrawWellFormed(Pool, sample, choices);
    }
    v := ShowSample(s, SampleKey, Pool, sample, choices, presses);
  }
}
