/** The need-or-want quiz: twelve products in a fixed order, each classified
    as a need or a want; every answer is recorded with whether it matches the
    classification the page holds, and the score is the number of matches. */
module NeedOrWant {
  import opened Session

  datatype Kind = Need | Want

  /** The word the page stores for a kind. */
  function KindName(k: Kind): string
  {
    match k
    case Need => "Necessidade"
    case Want => "Desejo"
  }

  datatype Product = Product(name: string, kind: Kind)

  const Products: seq<Product> := [
    Product("Telemóvel topo de gama", Want),
    Product("Alimentação Básica", Need),
    Product("Snack ou lanche favorito", Want),
    Product("Medicamentos", Need),
    Product("Última consola de jogos", Want),
    Product("Relógio ou pulseira digital", Want),
    Product("Amazon Prime", Want),
    Product("Conta da Eletricidade", Need),
    Product("Jantar Fora", Want),
    Product("Conta da água", Need),
    Product("Roupas de marca / acessórios de moda", Want),
    Product("Carro", Want)
  ]

  /** The captions of the radio widget, in order. */
  const Options: seq<string> := ["💚 Necessidade", "💸 Desejo"]

  /** Python's `needle in haystack` on strings. */
  predicate Contains(haystack: string, needle: string)
  {
    exists i :: 0 <= i <= |haystack| - |needle| && OccursAt(haystack, needle, i)
  }

  predicate OccursAt(haystack: string, needle: string, i: int)
    requires 0 <= i <= |haystack| - |needle|
  {
    haystack[i..i + |needle|] == needle
  }

  /** The answer stripped of its emoji: "Necessidade" when the caption
      contains that word, "Desejo" otherwise. */
  function CleanAnswer(escolha: string): (r: string)
    ensures r == KindName(Need) <==> Contains(escolha, "Necessidade")
    ensures r == KindName(Need) || r == KindName(Want)
  {
    if Contains(escolha, "Necessidade") then "Necessidade" else "Desejo"
  }

  /** The two captions clean to the two kinds, in order. */
  lemma CleanOptions()
    ensures CleanAnswer(Options[0]) == KindName(Need)
    ensures CleanAnswer(Options[1]) == KindName(Want)
  {
    assert OccursAt(Options[0], "Necessidade", 2);
  }

  /** The kind the radio position stands for. */
  function ChosenKind(choice: nat): Kind
    requires choice < |Options|
  {
    if choice == 0 then Need else Want
  }

  /** The row recorded when `choice` is submitted for `product`. */
  function Record(product: Product, choice: nat): (r: AnswerRecord)
    requires choice < |Options|
    ensures r.product == product.name
    ensures r.choice == KindName(ChosenKind(choice))
    ensures r.correct <==> ChosenKind(choice) == product.kind
  {
    CleanOptions();
    var respostaLimpa := CleanAnswer(Options[choice]);
    AnswerRecord(product.name, respostaLimpa, respostaLimpa == KindName(product.kind))
  }

  /** `sum(df["Correto"])`: how many recorded answers are right. */
  function Hits(records: seq<AnswerRecord>): nat
  {
    if records == [] then 0
    else Hits(records[..|records| - 1]) + (if records[|records| - 1].correct then 1 else 0)
  }

  lemma {:induction false} HitsBounded(records: seq<AnswerRecord>)
    ensures Hits(records) <= |records|
    ensures Hits(records) == |records| <==> forall i :: 0 <= i < |records| ==> records[i].correct
    ensures Hits(records) == 0 <==> forall i :: 0 <= i < |records| ==> !records[i].correct
  {
    if records != [] {
      var n := |records| - 1;
      HitsBounded(records[..n]);
      assert forall i :: 0 <= i < n ==> records[..n][i] == records[i];
    }
  }

  /** The records of a full round: one per product, in the page's order. */
  function Round(choices: seq<nat>): (rs: seq<AnswerRecord>)
    requires |choices| <= |Products| && forall k :: 0 <= k < |choices| ==> choices[k] < |Options|
    ensures |rs| == |choices|
    ensures forall k :: 0 <= k < |choices| ==> rs[k] == Record(Products[k], choices[k])
  {
    seq(|choices|, k requires 0 <= k < |choices| => Record(Products[k], choices[k]))
  }

  // ---------------------------------------------------------------------
  // The page over the session

  datatype View =
    | Asking(number: nat, total: nat, product: string)
    | Finished(records: seq<AnswerRecord>, acertos: nat, total: nat)
    | Failed

  /** A round in progress: the position is the number of rows recorded, and
      row `k` is an answer about product `k`. */
  predicate Consistent(m: map<string, Value>)
  {
    && IndexKey in m && m[IndexKey].Int?
    && AnswersKey in m && ListOfRecords(m[AnswersKey])
    && var rs := RecordsIn(m[AnswersKey]);
    && m[IndexKey].n == |rs|
    && Labelled(rs, Products)
  }

  /** Row `k` is an answer about product `k` of `ps`. */
  predicate Labelled(rs: seq<AnswerRecord>, ps: seq<Product>)
  {
    |rs| <= |ps| && forall k :: 0 <= k < |rs| ==> rs[k].product == ps[k].name
  }

  /** Recording an answer about the next product keeps the rows labelled. */
  lemma LabelledGrows(rs: seq<AnswerRecord>, ps: seq<Product>, r: AnswerRecord)
    requires Labelled(rs, ps) && |rs| < |ps| && r.product == ps[|rs|].name
    ensures Labelled(rs + [r], ps)
  {
  }

  /** Recording the answer about the current product and moving on keeps a
      round consistent. */
  lemma AnswerKeepsConsistent(m: map<string, Value>, choice: nat)
    requires Consistent(m) && m[IndexKey].n < |Products| && choice < |Options|
    ensures var atual := m[IndexKey].n;
      Consistent(m[AnswersKey := Records(RecordsIn(m[AnswersKey]) + [Record(Products[atual], choice)])]
                  [IndexKey := Int(atual + 1)])
  {
    var rs := RecordsIn(m[AnswersKey]);
    LabelledGrows(rs, Products, Record(Products[m[IndexKey].n], choice));
  }

  /** The initialisation block: a position and an empty answer list only
      when the session has no position yet. */
  function Initialised(m: map<string, Value>): map<string, Value>
  {
    if IndexKey in m then m else m[IndexKey := Int(0)][AnswersKey := Records([])]
  }

  /** One run of the page: initialise when needed, then show product
      `index` and, on "Próximo", record the answer and move on; past the last
      product, show the score and, on "Recomeçar", empty the answers. The
      empty list another quiz leaves under the answers key is an empty list of
      rows here; a session holding another page's non-empty values under these
      keys makes the page fail, and then nothing changes. */
  method Run(s: SessionState, choice: nat, next: bool, restart: bool) returns (v: View)
    requires choice < |Options|
    modifies s
    ensures Consistent(old(s.store)) || IndexKey !in old(s.store) ==> !v.Failed? && Consistent(s.store)
    ensures v.Failed? ==> s.store == Initialised(old(s.store))
    ensures IndexKey in old(s.store) && old(s.store)[IndexKey] == Int(0)
            && AnswersKey in old(s.store) && EmptyList(old(s.store)[AnswersKey]) ==>
      && v == Asking(1, |Products|, Products[0].name)
      && s.store[AnswersKey] == if next then Records([Record(Products[0], choice)]) else old(s.store)[AnswersKey]
    ensures v.Asking? ==>
      var m := Initialised(old(s.store));
      && AnswersKey in m && ListOfRecords(m[AnswersKey]) && IndexKey in m && m[IndexKey].Int?
      && var atual, rs := m[IndexKey].n, RecordsIn(m[AnswersKey]);
      && 0 <= atual < |Products|
      && v == Asking(atual + 1, |Products|, Products[atual].name)
      && s.store == if next
                    then m[AnswersKey := Records(rs + [Record(Products[atual], choice)])][IndexKey := Int(atual + 1)]
                    else m
    ensures v.Finished? ==>
      var m := Initialised(old(s.store));
      && AnswersKey in m && ListOfRecords(m[AnswersKey]) && IndexKey in m && m[IndexKey].Int?
      && m[IndexKey].n >= |Products|
      && var rs := RecordsIn(m[AnswersKey]);
      && v == Finished(rs, Hits(rs), |Products|)
      && s.store == if restart then m[IndexKey := Int(0)][AnswersKey := Records([])] else m
  {
    if IndexKey !in s.store {
      s.store := s.store[IndexKey := Int(0)];
      s.store := s.store[AnswersKey := Records([])];
    }
    if !s.store[IndexKey].Int? || AnswersKey !in s.store || !ListOfRecords(s.store[AnswersKey]) {
      return Failed;
    }
    var total := |Products|;
    var atual := s.store[IndexKey].n;
    var respostas := RecordsIn(s.store[AnswersKey]);
    if atual < total {
      if atual < 0 {
        return Failed;
      }
      var produto := Products[atual];
      v := Asking(atual + 1, total, produto.name);
      if next {
        if Consistent(s.store) {
          AnswerKeepsConsistent(s.store, choice);
        }
        s.store := s.store[AnswersKey := Records(respostas + [Record(produto, choice)])];
        s.store := s.store[IndexKey := Int(atual + 1)];
      }
    } else {
      if respostas == [] {
        return Failed;
      }
      v := Finished(respostas, Hits(respostas), total);
      if restart {
        s.store := s.store[IndexKey := Int(0)];
        s.store := s.store[AnswersKey := Records([])];
      }
    }
  }

  /** A first visit answered product by product ends on the results, whose
      rows are the answers given in order; the score is full exactly when
      every product is classified as the page classifies it, and zero
      exactly when none is. */
  method AnswerAll(s: SessionState, choices: seq<nat>) returns (v: View)
    requires IndexKey !in s.store
    requires |choices| == |Products| && forall k :: 0 <= k < |choices| ==> choices[k] < |Options|
    modifies s
    ensures v.Finished?
    ensures v.records == Round(choices)
    ensures v.acertos <= v.total == |Products|
    ensures v.acertos == |Products| <==> forall k :: 0 <= k < |Products| ==> ChosenKind(choices[k]) == Products[k].kind
    ensures v.acertos == 0 <==> forall k :: 0 <= k < |Products| ==> ChosenKind(choices[k]) != Products[k].kind
  {
    ghost var all := Round(choices);
    for k := 0 to |Products|
      invariant k == 0 ==> IndexKey !in s.store
      invariant k > 0 ==> Consistent(s.store) && s.store[IndexKey].n == k
      invariant k > 0 ==> RecordsIn(s.store[AnswersKey]) == all[..k]
    {
      v := Run(s, choices[k], true, false);
      PrefixGrows(all, k);
    }
    v := Run(s, 0, false, false);
    WholePrefix(all, |Products|);
    RoundScore(Products, choices, v.records);
  }

  /** The score of a full round over any product list: full exactly when
      every product is classified right, zero exactly when none is. */
  lemma RoundScore(ps: seq<Product>, choices: seq<nat>, rs: seq<AnswerRecord>)
    requires |rs| == |choices| == |ps| && forall k :: 0 <= k < |choices| ==> choices[k] < |Options|
    requires forall k :: 0 <= k < |rs| ==> rs[k] == Record(ps[k], choices[k])
    ensures Hits(rs) <= |rs|
    ensures Hits(rs) == |ps| <==> forall k :: 0 <= k < |ps| ==> ChosenKind(choices[k]) == ps[k].kind
    ensures Hits(rs) == 0 <==> forall k :: 0 <= k < |ps| ==> ChosenKind(choices[k]) != ps[k].kind
  {
    HitsBounded(rs);
  }
}
