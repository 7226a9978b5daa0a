/** Streamlit's per-user `session_state`: a dictionary from string keys to
    values that every page reads and updates in place between reruns. The
    values the lesson pages store there are gathered in `Value`. */
module Session {

  /** One answer option of a weighted question: the caption shown by the radio
      widget and the points it is worth. */
  datatype WeightedOption = WeightedOption(caption: string, weight: nat)

  /** A question of the money-mindset quiz; `options` keeps the dictionary's
      insertion order, which is the order the radio widget shows. */
  datatype WeightedQuestion = WeightedQuestion(text: string, options: seq<WeightedOption>)

  /** One row of the need-or-want results table. */
  datatype AnswerRecord = AnswerRecord(product: string, choice: string, correct: bool)

  /** A question of the budget quizzes, checked against one correct option. */
  datatype CheckedQuestion = CheckedQuestion(prompt: string, options: seq<string>, correct: string, explanation: string)

  /** The monthly budget of the budget challenge, in euros; the rent is the
      half share, so it may end in .5. */
  datatype Scenario = Scenario(
    salario: int, renda: real, alimentacao: int, eletricaAgua: int,
    ginasio: int, jantar: int, carro: int, transporte: int)

  /** The shapes of value the pages keep in the session. */
  datatype Value =
    | Int(n: int)
    | Texts(texts: seq<string>)
    | WeightedQuestions(weighted: seq<WeightedQuestion>)
    | Records(records: seq<AnswerRecord>)
    | CheckedQuestions(checked: seq<CheckedQuestion>)
    | ScenarioValue(scenario: Scenario)

  /** The session of one browser tab; pages update `store` in place. */
  class SessionState {
    var store: map<string, Value>

    constructor ()
      ensures store == map[]
    {
      store := map[];
    }
  }

  /** The keys the question-by-question quizzes share. */
  const QuestionsKey := "perguntas"
  const IndexKey := "index"
  const AnswersKey := "respostas"

  /** A Python list carries no element type: an empty list one page leaves
      under a shared key is, to the next page, an empty list of whatever that
      page keeps there. */
  predicate EmptyList(v: Value)
  {
    v == Texts([]) || v == WeightedQuestions([]) || v == Records([]) || v == CheckedQuestions([])
  }

  /** A list of captions, or an empty list of any kind. */
  predicate ListOfTexts(v: Value)
  {
    v.Texts? || EmptyList(v)
  }

  function TextsIn(v: Value): seq<string>
    requires ListOfTexts(v)
  {
    if v.Texts? then v.texts else []
  }

  /** A list of answer rows, or an empty list of any kind. */
  predicate ListOfRecords(v: Value)
  {
    v.Records? || EmptyList(v)
  }

  function RecordsIn(v: Value): seq<AnswerRecord>
    requires ListOfRecords(v)
  {
    if v.Records? then v.records else []
  }

  /** The answers recorded one press at a time: a prefix one longer is the
      prefix and the next entry. */
  lemma PrefixGrows<T>(s: seq<T>, k: nat)
    requires k < |s|
    ensures s[..k + 1] == s[..k] + [s[k]]
  {
  }

  /** Once every press is recorded, the prefix is the whole. */
  lemma WholePrefix<T>(s: seq<T>, k: nat)
    requires k == |s|
    ensures s[..k] == s
  {
  }
}
