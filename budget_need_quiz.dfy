/** The second budget quiz ("do I need a budget?"): the same four-of-ten
    draw and checked display as the first, over its own pool and under its
    own session key, so the two pages never overwrite each other's draw. */
module BudgetNeedQuiz {
  import opened Session
  import opened Draws
  import BudgetQuiz

  const SampleKey := "perguntas_aleatorias_aula2"

  const Pool: seq<CheckedQuestion> := [
    CheckedQuestion(
      "Se recebes mesada semanal, mas não sabes quanto gastas, precisas de um orçamento?",
      ["Sim, mesmo com pouco dinheiro.", "Não, só quem recebe salário precisa."],
      "Sim, mesmo com pouco dinheiro.",
      "Mesmo pequenas quantias precisam de planeamento para evitar gastar tudo sem perceber."),
    CheckedQuestion(
      "Ter um orçamento ajuda apenas a poupar dinheiro?",
      ["Sim, é só para poupar.", "Não, também ajuda a controlar gastos e tomar decisões."],
      "Não, também ajuda a controlar gastos e tomar decisões.",
      "Orçamento mostra para onde vai o dinheiro e ajuda a priorizar o que é importante."),
    CheckedQuestion(
      "Se anotas todas as tuas despesas de lazer, compras e poupança, já tens um orçamento?",
      ["Sim, isso é suficiente.", "Não, ainda precisas planear limites e objetivos."],
      "Não, ainda precisas planear limites e objetivos.",
      "Registrar gastos é o primeiro passo, mas definir objetivos e limites completa o orçamento."),
    CheckedQuestion(
      "Se fores adulto e recebes salário, mas gastas tudo sem controlar, vais:",
      ["Ter sempre poupança suficiente.", "Ter dificuldade em atingir objetivos e pagar contas."],
      "Ter dificuldade em atingir objetivos e pagar contas.",
      "Sem planeamento, mesmo salários maiores podem desaparecer rapidamente."),
    CheckedQuestion(
      "O orçamento serve apenas para cortar gastos?",
      ["Sim, cortar tudo que é supérfluo.", "Não, serve para equilibrar gastos, poupança e objetivos."],
      "Não, serve para equilibrar gastos, poupança e objetivos.",
      "Orçamento não é só restrição; é sobre **priorizar e organizar**."),
    CheckedQuestion(
      "Se conseguires poupar mesmo pouco dinheiro todo mês, o que acontece com o tempo?",
      ["Nada, é pouco para mudar algo.", "O dinheiro cresce e ajuda a atingir metas maiores."],
      "O dinheiro cresce e ajuda a atingir metas maiores.",
      "Pequenas poupanças acumulam e podem ser investidas ou usadas em objetivos futuros."),
    CheckedQuestion(
      "Qual é um bom hábito financeiro desde jovem?",
      ["Registrar entradas e saídas de dinheiro.", "Gastar sem se preocupar, aprender depois."],
      "Registrar entradas e saídas de dinheiro.",
      "Conhecer os teus hábitos desde cedo ajuda a tomar decisões melhores no futuro."),
    CheckedQuestion(
      "Um orçamento flexível é melhor que um rígido?",
      ["Sim, porque a vida muda e os gastos também.", "Não, rígido é sempre melhor."],
      "Sim, porque a vida muda e os gastos também.",
      "Flexibilidade permite ajustar o plano sem abandonar o orçamento."),
    CheckedQuestion(
      "Se fores adulto e quiseres viajar ou comprar algo grande, o orçamento ajuda-te a:",
      ["Guardar dinheiro e planejar a compra.", "Gastá-lo todo sem pensar."],
      "Guardar dinheiro e planejar a compra.",
      "Planeamento financeiro permite atingir objetivos maiores sem dívidas."),
    CheckedQuestion(
      "Quem deve ter um orçamento?",
      ["Apenas estudantes.", "Todos, jovens e adultos."],
      "Todos, jovens e adultos.",
      "Orçamento é útil para qualquer pessoa que queira controlar o seu dinheiro.")
  ]

  lemma PoolWellFormed()
    ensures |Pool| == 10
    ensures forall i :: 0 <= i < |Pool| ==> BudgetQuiz.WellFormed(Pool[i]) && |Pool[i].options| == 2
  {
  }

  /** One run of this page: it draws under its own key only, so the first
      budget quiz's draw is left as it was. */
  method Run(s: SessionState, sample: seq<nat>, choices: seq<nat>, presses: seq<bool>) returns (v: BudgetQuiz.View)
    requires IsSample(sample, BudgetQuiz.Drawn, |Pool|)
    requires forall i :: 0 <= i < |choices| ==> choices[i] < 2
    modifies s
    ensures SampleKey in old(s.store) ==> s.store == old(s.store)
    ensures SampleKey !in old(s.store) ==> s.store == old(s.store)[SampleKey := CheckedQuestions(BudgetQuiz.SampleOf(Pool, sample))]
    ensures BudgetQuiz.SampleKey in old(s.store) ==>
      BudgetQuiz.SampleKey in s.store && s.store[BudgetQuiz.SampleKey] == old(s.store)[BudgetQuiz.SampleKey]
    ensures SampleKey !in old(s.store) ==> v.Shown? && |v.panels| == BudgetQuiz.Drawn
    ensures v.Shown? && SampleKey !in old(s.store) ==>
      forall i :: 0 <= i < BudgetQuiz.Drawn ==> v.panels[i] == BudgetQuiz.MakePanel(Pool[sample[i]], i, choices, presses)
  {
    PoolWellFormed();
    BudgetQuiz.FirstDrawWellFormed(Pool, sample, choices);
    v := BudgetQuiz.ShowSample(s, SampleKey, Pool, sample, choices, presses);
  }
}
