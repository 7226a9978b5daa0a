/** The helper that forgets a quiz in progress: it deletes the question list,
    the position and the answers from the session, whichever are present. */
module HelpClean {
  import opened Session

  /** The keys deleted, in the order the helper visits them. */
  const QuizKeys: seq<string> := [QuestionsKey, IndexKey, AnswersKey]

  /** The session dictionary once the quiz keys are gone. */
  function WithoutQuizKeys(m: map<string, Value>): (r: map<string, Value>)
    ensures forall k :: k in QuizKeys ==> k !in r
    ensures forall k :: k !in QuizKeys ==> (k in r <==> k in m)
    ensures forall k :: k in r ==> r[k] == m[k]
  {
    m - set k | k in QuizKeys
  }

  method CleanSessionQuestions(s: SessionState)
    modifies s
    ensures s.store == WithoutQuizKeys(old(s.store))
  {
    for i := 0 to |QuizKeys|
      invariant s.store == old(s.store) - set k | k in QuizKeys[..i]
    {
      var key := QuizKeys[i];
      if key in s.store {
        s.store := s.store - {key};
      }
      assert QuizKeys[..i + 1] == QuizKeys[..i] + [key];
    }
    assert QuizKeys[..|QuizKeys|] == QuizKeys;
  }

  /** A second clean finds nothing left to delete. */
  lemma CleanIdempotent(m: map<string, Value>)
    ensures WithoutQuizKeys(WithoutQuizKeys(m)) == WithoutQuizKeys(m)
  {
  }

  /** Clean-then-write leaves no trace of what the quiz keys held before:
      two sessions that differ only in the quiz keys are equal once cleaned. */
  lemma {:induction false} CleanForgetsQuizKeys(m1: map<string, Value>, m2: map<string, Value>)
    requires forall k :: k !in QuizKeys ==> (k in m1 <==> k in m2)
    requires forall k :: k !in QuizKeys && k in m1 ==> m1[k] == m2[k]
    ensures WithoutQuizKeys(m1) == WithoutQuizKeys(m2)
  {
    var r1, r2 := WithoutQuizKeys(m1), WithoutQuizKeys(m2);
    assert forall k :: k in r1 <==> k in r2;
  }
}
