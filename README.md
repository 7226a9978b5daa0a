# Aprender a Gerir o meu Dinheiro — a verified model of the lessons' logic

"Aprender a Gerir o meu Dinheiro" is a set of Streamlit lesson pages about
personal finance. This project models in Dafny what those pages compute and
how they keep quiz progress in the session:

- the questions-by-theme quizzes: drawing, advancing, scoring and tiers;
- the budget quizzes, which draw once per session;
- the need-or-want game and the final quiz;
- the savings, compound-interest, inflation and investment simulators;
- the 50/30/20 split and the budget challenge;
- the chapter-0 pages on barter, saving, currency conversion and price
  versus value.

Modules follow the pages, one module per page file:

- `HelpClean` (help_clean/clean_question.py)
- `MindsetQuiz` (cap1/app2)
- `InfluenceQuiz` (cap1/app0)
- `NeedOrWant` (cap1/app1)
- `BudgetQuiz` (cap4/app1) and `BudgetNeedQuiz` (cap4/app2)
- `FinalQuiz` (cap5/app2)
- `SavingsChallenge` (cap2/app1_desafio_poupanca)
- `CompoundInterest` (cap3/app4) and `TimeIsMoney` (cap3/app3)
- `InvestVsInflation` (cap3/app1) and `InvestFuture` (cap3/app2)
- `NominalVsReal` (cap5/app3)
- `HowMuchToSave` (cap2/app2) and `InflationSavings` (cap2/app4)
- `Rule503020` (cap4/app3) and `BudgetChallenge` (cap4/app4)
- `MoneyFunctions` (cap0/app0), `Currency` (cap0/app1) and `PriceVsValue` (cap0/app2)

They share these modules:

- `Session`: the `session_state` dictionary, as a class whose `store` map the
  pages update in place.
- `Draws`: random shuffles and samples, taken as inputs constrained to be
  permutations and samples without repetition.
- `Numeric`: powers, sums, Python's `int()` truncation and `round()`
  (half to even).
- `Growth`: the balance recurrence `saldo = saldo * (1 + taxa) + aporte`
  that every simulator runs, with its closed form and monotonicity.
- `Text`: decimal rendering of integers.

Money amounts are exact reals. Randomness is an input.

The pages turn an annual rate into a per-period rate with a fractional power
`(1 + r/100) ** (1/n) - 1`. Dafny has no such power, so the per-period rate
`taxa` is a parameter tied to the annual rate by
`CompoundInterest.IsPeriodRate`: `taxa >= 0` and `(1 + taxa)^n == 1 + r/100`.

## Model

The question tables and the product list are constants (`Themes` of
cap1/app2 and of cap1/app0, `Products`, `Key`, the two budget `Pool`s); the
rows of `MindsetQuiz.PoolWellWeighted`, `InfluenceQuiz.Pool`,
`NeedOrWant.Round`, `FinalQuiz.FixedQuestionsKeyed`,
`BudgetQuiz.PoolWellFormed` and `BudgetNeedQuiz.PoolWellFormed` state what
they hold.

| member | source | states |
|---|---|---|
| HelpClean.WithoutQuizKeys | help_clean/clean_question.py:3-6 | none of "perguntas", "index", "respostas" remains; every other key is kept with its value; absent keys are skipped |
| HelpClean.CleanSessionQuestions | help_clean/clean_question.py:3-6 | the session after the call is the old session without the three quiz keys |
| HelpClean.CleanIdempotent | help_clean/clean_question.py:3-6 | cleaning twice leaves the same map as cleaning once |
| HelpClean.CleanForgetsQuizKeys | help_clean/clean_question.py:3-6 | two sessions that differ only on the quiz keys are equal after cleaning |
| Draws.Shuffled | cap1/app2/app.py:146 | `random.shuffle` as a permutation input: same length, entry k is the input at position order[k] |
| Draws.ShuffledDistinct | cap1/app0/app.py:87 | shuffling a list without repeats gives a list without repeats |
| Draws.SampleDistinct | cap1/app0/app.py:86 | `random.sample` of distinct items has no repeats |
| Numeric.Trunc | cap2/app2/app.py:36 | `int(x)` truncates toward zero: for x ≥ 0 it is the largest integer ≤ x, for x < 0 the smallest ≥ x |
| Numeric.RoundHalfEven | cap2/app2/app.py:37 | `round(x)` is within one half of x, and even on a tie |
| Numeric.RoundHalfEvenUnique | cap2/app2/app.py:37 | those two properties determine `round(x)` |
| Numeric.RoundTo | cap4/app4/app.py:46-48 | `round(x, d)` is within half a unit of the last kept decimal |
| Text.IntTextInjective | cap5/app2/app.py:90 | different integers print differently with `f"{n}"` |
| Text.PercentTextInjective | cap5/app2/app.py:84-90 | different integers print different `f"{n}%"` options |
| Text.IntText | cap5/app2/app.py:85-90 | `f"{n}"` of an integer is non-empty and starts with "-" iff n < 0 |
| Text.PercentText | cap5/app2/app.py:85-90 | `f"{n}%"` ends with "%" after at least one digit |
| Session.SessionState.constructor | cap1/app2/app.py:138 | a new session starts empty |
| MindsetQuiz.PoolWellWeighted | cap1/app2/app.py:32-123 | five themes of two questions each; every question has three distinct options weighted exactly 0, 1 and 2 |
| MindsetQuiz.Selection | cap1/app2/app.py:143-147 | the stored selection has one question per theme (five) |
| MindsetQuiz.SelectionOnePerTheme | cap1/app2/app.py:143-147 | each theme's drawn question appears at exactly one position of the shuffled selection |
| MindsetQuiz.SelectionWellWeighted | cap1/app2/app.py:143-147 | every selected question has options weighted 0, 1 and 2 |
| MindsetQuiz.SelectOnePerTheme | cap1/app2/app.py:143-147 | the `random.choice` loop followed by the shuffle returns the selection |
| MindsetQuiz.WeightOf | cap1/app2/app.py:192-193 | `opcoes[resposta]` is found exactly when some option has that caption, and is that option's weight |
| MindsetQuiz.PointsBounded | cap1/app2/app.py:190-195 | the score is at most twice the number of answers, so 0 ≤ pontuacao ≤ total_max |
| MindsetQuiz.Points | cap1/app2/app.py:190-193 | the score: the sum over the answers of the weight `opcoes[resposta]` of each in its question |
| MindsetQuiz.TotalScore | cap1/app2/app.py:190-193 | the `pontuacao +=` loop returns the sum of the weights of the answers given |
| MindsetQuiz.ClassifyThresholds | cap1/app2/app.py:200-217 | growth iff 4·score ≥ 3·max, transition iff 2·score ≥ max and below that, barriers otherwise; exactly one applies |
| MindsetQuiz.ClassifyMonotone | cap1/app2/app.py:200-217 | a higher score never gives a lower mindset |
| MindsetQuiz.Classify | cap1/app2/app.py:200-217 | the mindset for a score: growth from 75% of the maximum, transition from 50%, barriers below |
| MindsetQuiz.Fresh | cap1/app2/app.py:138-147 | the keys a (re)start writes: index 0, no answers, the drawn questions |
| MindsetQuiz.Initialised | cap1/app2/app.py:138-147 | the session after the initialisation block: a fresh draw only when "index" is absent |
| MindsetQuiz.FreshConsistent | cap1/app2/app.py:138-147 | a fresh start (index 0, no answers, questions weighted 0, 1 and 2) is a consistent quiz state |
| MindsetQuiz.InitIfAbsent | cap1/app2/app.py:138-147 | initialisation happens only when "index" is absent; otherwise the session is unchanged |
| MindsetQuiz.Step | cap1/app2/app.py:149-231 | one pass over the page body: the question shown and the answer recorded, or the score and mindset and the restart; a consistent session never fails, and a failing one is left as it was |
| MindsetQuiz.AnswerKeepsConsistent | cap1/app2/app.py:166-168 | recording one of the current question's options and moving on keeps a consistent quiz consistent |
| MindsetQuiz.Proceed | cap1/app2/app.py:149-231 | shows question index+1 while index < total, and "Próxima" appends the chosen caption (to an empty list of any kind another page left) and increments index; past the end it scores and classifies, and "Recomeçar" restarts from the new draw it is given; consistency (answers == index ≤ total) is preserved |
| MindsetQuiz.Run | cap1/app2/app.py:126-231 | with the clean first, every run starts from a fresh draw and shows question 1 |
| MindsetQuiz.RunKeepingProgress | cap1/app2/app.py:138-231 | the run without the leading clean: a consistent session never fails, and the step above applies to the kept progress |
| MindsetQuiz.PressNextAsWritten | cap1/app2/app.py:130 | as written, pressing "Próxima" on every run never gets past question 1 |
| MindsetQuiz.AnswerNext | cap1/app2/app.py:138-169 | keeping progress, one press of "Próxima" after the answers given appends the chosen caption and moves index on by one |
| MindsetQuiz.ShowResults | cap1/app2/app.py:171-217 | keeping progress, the run after the last answer shows the results for the drawn questions and the answers given, with a score ≤ 10 |
| MindsetQuiz.AnswerAllKeepingProgress | cap1/app2/app.py:138-195 | keeping progress, five presses reach the results with the chosen captions and a score ≤ 10 |
| InfluenceQuiz.Pool | cap1/app0/app.py:30-66 | 25 questions, five per theme, in dictionary order |
| InfluenceQuiz.DrawnAt | cap1/app0/app.py:84-86 | the list before the shuffle holds, theme by theme, the two questions sampled from each theme: entry 2t + i is the i-th sample of theme t |
| InfluenceQuiz.Selection | cap1/app0/app.py:84-88 | the stored selection has ten questions |
| InfluenceQuiz.Positions | cap1/app0/app.py:84-88 | each stored question's place in the pool |
| InfluenceQuiz.SelectionAtPositions | cap1/app0/app.py:84-88 | stored question k is the pool entry at its position |
| InfluenceQuiz.PositionsDistinct | cap1/app0/app.py:84-88 | no pool question is stored twice |
| InfluenceQuiz.PositionsCoverSamples | cap1/app0/app.py:84-88 | both questions sampled from every theme are among the ten |
| InfluenceQuiz.SelectTwoPerTheme | cap1/app0/app.py:84-88 | the `extend(random.sample(lista, 2))` loop followed by the shuffle returns the selection |
| InfluenceQuiz.InfluencedBounded | cap1/app0/app.py:124 | 0 ≤ influenciadas ≤ number of answers; it equals that number iff every answer is "Sim" or "Depende", and is 0 iff none is |
| InfluenceQuiz.Influenced | cap1/app0/app.py:124 | the number of answers that are "Sim" or "Depende" |
| InfluenceQuiz.Assess | cap1/app0/app.py:124-148 | the warning branch is taken iff influenciadas ≥ 5, the praise branch otherwise |
| InfluenceQuiz.InitIfAbsent | cap1/app0/app.py:79-88 | initialisation only when "index" is absent |
| InfluenceQuiz.Fresh | cap1/app0/app.py:79-88 | the keys a (re)start writes: index 0, no answers, the ten drawn questions |
| InfluenceQuiz.Initialised | cap1/app0/app.py:79-88 | the session after the initialisation block: a fresh draw only when "index" is absent |
| InfluenceQuiz.Step | cap1/app0/app.py:90-162 | one pass over the page body: the question shown and the answer recorded, or the assessment and the restart; a consistent session never fails, and a failing one is left as it was |
| InfluenceQuiz.Proceed | cap1/app0/app.py:90-162 | shows the current question, and "Próxima" appends one of "Sim", "Não", "Depende" (to an empty list of any kind another page left) and increments index only while index < total; past the end it assesses, and "Recomeçar" restarts with a fresh ten-question draw |
| InfluenceQuiz.FirstStep | cap1/app0/app.py:90-110 | from a fresh draw, one pass over the page shows question 1 and "Próxima" moves index to 1 |
| InfluenceQuiz.Run | cap1/app0/app.py:68-162 | with the clean first, every run shows question 1 of 10 of a fresh draw |
| InfluenceQuiz.RunKeepingProgress | cap1/app0/app.py:79-162 | without the clean, a consistent session never fails |
| InfluenceQuiz.PressNextAsWritten | cap1/app0/app.py:71 | as written, pressing "Próxima" on every run never gets past question 1 |
| InfluenceQuiz.AnswerAllKeepingProgress | cap1/app0/app.py:79-148 | keeping progress, ten presses reach the results with the chosen answers; warning iff at least five show influence |
| NeedOrWant.CleanAnswer | cap1/app1/app.py:65 | "Necessidade" iff the radio label contains "Necessidade", else "Desejo" |
| NeedOrWant.CleanOptions | cap1/app1/app.py:58-65 | the two radio labels clean to "Necessidade" and "Desejo" |
| NeedOrWant.Record | cap1/app1/app.py:52-70 | the record names the product; Correto iff the cleaned answer is the product's type |
| NeedOrWant.HitsBounded | cap1/app1/app.py:82-83 | acertos ≤ total; all correct iff every record is correct; zero iff none is |
| NeedOrWant.Hits | cap1/app1/app.py:82 | `sum(df["Correto"])`: the number of records marked correct |
| NeedOrWant.Initialised | cap1/app1/app.py:44-46 | index 0 and an empty list only when "index" is absent |
| NeedOrWant.Round | cap1/app1/app.py:51-71 | record k names PRODUTOS[k]: products are visited in fixed order |
| NeedOrWant.Run | cap1/app1/app.py:36-98 | initialises only when "index" is absent, so an existing index is reused; "Próximo" appends one record and increments index while index < 12; past the end it counts acertos; "Recomeçar" resets; from index 0 and the empty list another quiz leaves, it shows product 1 and records the first answer |
| NeedOrWant.AnswerAll | cap1/app1/app.py:44-83 | twelve presses give the records of the choices and acertos ≤ 12, with 12 iff every choice is right and 0 iff none is |
| NeedOrWant.AnswerKeepsConsistent | cap1/app1/app.py:51-71 | appending the record of the current product and incrementing index keeps index equal to the number of records, each naming its product |
| NeedOrWant.RoundScore | cap1/app1/app.py:82 | over a full round, acertos ≤ total, with full marks iff every choice matches its product's type and zero iff none does |
| BudgetQuiz.PoolWellFormed | cap4/app1/app.py:30-98 | ten questions, each with its correct answer among distinct options |
| BudgetQuiz.Check | cap4/app1/app.py:100-106 | nothing until the button is pressed; "correct" iff the answer is the right one; the explanation is shown either way |
| BudgetQuiz.OneCorrectOption | cap4/app1/app.py:100-106 | on a well-formed question exactly one option is accepted |
| BudgetQuiz.MakePanel | cap4/app1/app.py:123-130 | the panel is numbered from 1, shows the prompt and options, the selected answer and its check |
| BudgetQuiz.SampleOf | cap4/app1/app.py:117-118 | the stored draw is the sampled pool questions, in sample order |
| BudgetQuiz.ShowAll | cap4/app1/app.py:123-130 | the display loop gives one panel per stored question, in order |
| BudgetQuiz.ShowSample | cap4/app1/app.py:117-130 | draw under the key only when absent (write-once), then display the stored draw |
| BudgetQuiz.FirstDrawWellFormed | cap4/app1/app.py:117-118 | every question of a draw from a well-formed pool has at least two options, so a selection among the first two fits it |
| BudgetQuiz.Run | cap4/app1/app.py:108-130 | the first run stores a four-question sample and shows four numbered panels exactly when every radio position fits its question, the third option of a three-option question included, and always when each is among the first two; later runs leave the session unchanged |
| BudgetNeedQuiz.PoolWellFormed | cap4/app2/app.py:30-91 | ten well-formed two-option questions |
| BudgetNeedQuiz.Run | cap4/app2/app.py:101-125 | draws under its own key only, so the first budget quiz's draw is kept; write-once like the first quiz |
| FinalQuiz.Questions | cap5/app2/app.py:37-102 | six questions, in the page's order |
| FinalQuiz.GrowthQuestion | cap5/app2/app.py:39-49 | the compound-growth question with the drawn capital, rate and years |
| FinalQuiz.InflationQuestion | cap5/app2/app.py:50-60 | the purchasing-power question with the drawn inflation |
| FinalQuiz.RealReturnQuestion | cap5/app2/app.py:81-91 | the real-return question: options and correct answer printed from the drawn return and inflation |
| FinalQuiz.RealReturnOptionsDistinct | cap5/app2/app.py:82-90 | with 0 < inflation < return the four real-return options differ |
| FinalQuiz.FixedQuestionsKeyed | cap5/app2/app.py:37-102 | the correct answer of each fixed question sits at its key position among distinct options |
| FinalQuiz.KeyedUnique | cap5/app2/app.py:37-102 | only the key position holds the correct answer |
| FinalQuiz.KeyIsCorrect | cap5/app2/app.py:31-102 | for every possible draw of figures, all six questions are keyed |
| FinalQuiz.HitsAll | cap5/app2/app.py:116-119 | all answers right iff the count equals the number of answers; none right iff the count is 0 |
| FinalQuiz.Hits | cap5/app2/app.py:105-119 | the number of answers equal to their question's correct answer, at most the number of answers |
| FinalQuiz.CollectAnswers | cap5/app2/app.py:108-113 | answer k is the option selected on question k |
| FinalQuiz.CountCorrect | cap5/app2/app.py:116-119 | the loop counts the answers equal to the correct one |
| FinalQuiz.Score | cap5/app2/app.py:124-125 | the percentage lies in 0..100 and is 100 iff every answer is right |
| FinalQuiz.ProfileByHits | cap5/app2/app.py:129-134 | beginner iff ≤ 2 right, balanced iff 3 or 4, master iff ≥ 5 |
| FinalQuiz.ProfileOf | cap5/app2/app.py:129-134 | beginner below 50%, balanced from 50% below 80%, master from 80% |
| FinalQuiz.AnswersAgainstKey | cap5/app2/app.py:108-119 | every answer is right iff the choices equal the key, and none is iff no choice matches the key |
| FinalQuiz.RightIffKey | cap5/app2/app.py:108-119 | answer k is right exactly when its radio position is the key's |
| FinalQuiz.HitsCountKey | cap5/app2/app.py:105-119 | the number of right answers among the first n is the number of radio positions among them on the key |
| FinalQuiz.Run | cap5/app2/app.py:23-134 | results appear iff submitted; the number right is the number of radio positions on the key, so 6 iff the choices are the key and 0 iff no choice is; score and profile follow from it |
| Growth.Compound | cap3/app1/app.py:50-52 | the compound factor (1+r)^n is at least 1 for r ≥ 0 |
| Growth.Balance | cap3/app4/app.py:44-47 | the balance after n periods of `saldo = saldo * (1 + taxa) + aporte` from v0 |
| Growth.CompoundStrict | cap2/app4/app.py:32-34 | at a positive rate the factor grows strictly with every period |
| Growth.BalanceZeroRate | cap3/app3/app.py:26-31 | with rate 0 the balance after n periods is v0 + n·aporte |
| Growth.BalanceNoContribution | cap3/app4/app.py:72-85 | without contributions the balance is v0·(1+r)^n |
| Growth.BalanceClosedForm | cap3/app4/app.py:72-85 | the balance times r equals v0·r·(1+r)^n + aporte·((1+r)^n − 1) |
| Growth.DisplayedFormula | cap3/app4/app.py:72-85 | for r > 0 the balance is v0·(1+r)^n + aporte·((1+r)^n − 1)/r |
| Growth.BalanceAtLeastLinear | cap2/app1_desafio_poupanca/app.py:36-37 | with nothing negative, the balance is at least v0 + n·aporte |
| Growth.BalanceStep | cap3/app4/app.py:46-47 | one period adds at least the contribution |
| Growth.BalanceMonotone | cap3/app3/app.py:48-53 | the balance never falls as periods pass |
| Growth.BalanceMonotoneInContribution | cap2/app1_desafio_poupanca/app.py:36 | contributing more never ends with less |
| Growth.BalanceMonotoneInRate | cap3/app4/app.py:46 | a higher rate never ends with less |
| Growth.BalanceConcat | cap3/app3/app.py:28-31 | m periods then n more equals m + n periods |
| Growth.PowMul | cap3/app4/app.py:40-41 | k periods at a rate whose k-th power is the yearly factor, for n years, compound to the yearly factor to the n |
| Growth.PowAdd | cap3/app4/app.py:40-41 | (x)^(a+b) = x^a·x^b |
| Growth.InterestOfPeriod | cap3/app3/app.py:61-62 | what a period earns: the increase less the contribution is the previous balance times the rate |
| SavingsChallenge.Accumulate | cap2/app1_desafio_poupanca/app.py:32-43 | the history holds the balance of every month; months before the last are below the goal; the warning is raised iff the month count passed 600; otherwise the last balance reaches the goal |
| SavingsChallenge.Simulate | cap2/app1_desafio_poupanca/app.py:23-46 | the reported month is the first that reaches the goal (unless warned); a start already at the goal takes 0 months; a goal reachable by linear saving within 600 months never warns; anos·12 + resto = meses with resto < 12 |
| SavingsChallenge.SavingMoreIsNoSlower | cap2/app1_desafio_poupanca/app.py:32-43 | saving more per month never reaches the goal later |
| CompoundInterest.PeriodsPerYear | cap3/app4/app.py:37-38 | Semanal 52, Mensal 12, Anual 1 |
| CompoundInterest.Year | cap3/app4/app.py:50 | the year of period k: k // n + 1 |
| CompoundInterest.YearOfPeriod | cap3/app4/app.py:50 | the year of period k lies in 1..anos and is y+1 iff y·n ≤ k < (y+1)·n |
| CompoundInterest.Simulate | cap3/app4/app.py:34-51 | anos·n rows; row k has period k+1, the balance after k+1 periods and year (k/n)+1; the values never fall when nothing is negative |
| CompoundInterest.FinalWithoutContributions | cap3/app4/app.py:40-47 | without contributions, anos·n periods give v0·(1 + r/100)^anos |
| CompoundInterest.FinalIsDisplayedFormula | cap3/app4/app.py:72-85 | the last value is the displayed closed form, and v0 + periods·aporte at rate 0 |
| CompoundInterest.Values | cap3/app4/app.py:94 | the value column of the rows |
| CompoundInterest.Increments | cap3/app4/app.py:103-104 | one entry per value: the value less the one before (the start for the first) less the contribution |
| CompoundInterest.InterestAsWritten | cap3/app4/app.py:103-104 | `diff()` with the first entry kept whole, less the contribution: the increments over a start of 0 |
| CompoundInterest.InterestEarned | cap3/app4/app.py:103-104 | the interest actually earned: the increments over the initial value |
| CompoundInterest.IncrementsPrefix | cap3/app4/app.py:103-104 | the interest column of a prefix is the prefix of the interest column |
| CompoundInterest.IncrementsSum | cap3/app4/app.py:103-105 | the column's first n entries sum to V_n − start − n·aporte |
| CompoundInterest.IncrementsTotal | cap3/app4/app.py:103-105 | the whole column sums to V_N − start − N·aporte |
| CompoundInterest.InterestAsWrittenTotal | cap3/app4/app.py:103-105 | the column as written sums to V_N − N·aporte; its first entry is the capital plus the interest earned, and every later entry is the interest earned |
| CompoundInterest.InterestEarnedTotal | cap3/app4/app.py:103-105 | the interest actually earned sums to V_N − v0 − N·aporte |
| CompoundInterest.InterestEarnedAt | cap3/app4/app.py:46-47 | each entry of the interest earned is the balance before the period times the rate |
| CompoundInterest.InterestAsWrittenCountsCapital | cap3/app4/app.py:104 | with 1000 invested at rate 0, the column as written shows 1000 of "interest" where none was earned |
| CompoundInterest.YearlySums | cap3/app4/app.py:105 | one sum per year |
| CompoundInterest.YearlySumAt | cap3/app4/app.py:105 | the sum for year y+1 is the sum over periods y·n..(y+1)·n |
| CompoundInterest.YearlySumsTotal | cap3/app4/app.py:105 | the yearly sums add up to the whole column |
| TimeIsMoney.Simulate | cap3/app3/app.py:23-33 | anos·12 entries; entry m is the balance after m+1 months from 0, so the first is the monthly saving; at rate 0, entry m is valor_mensal·(m+1) |
| TimeIsMoney.StartingEarlier | cap3/app3/app.py:48-53 | the final value with five more years is at least the current final value |
| TimeIsMoney.MonthlyInterest | cap3/app3/app.py:61-62 | starting from 0, the column as written is the interest earned, and month 1's interest is 0 |
| TimeIsMoney.InterestAt | cap3/app3/app.py:61-62 | month m's interest is the previous balance times the monthly rate |
| TimeIsMoney.InterestGrowsAt | cap3/app3/app.py:61-62 | a month's interest is no more than the same month a year later |
| TimeIsMoney.YearlyInterestGrows | cap3/app3/app.py:64-65 | each year's interest is no more than the next year's |
| TimeIsMoney.YearAfterYear | cap3/app3/app.py:64-65 | the interest column summed over one year's twelve months is no more than over the next year's |
| TimeIsMoney.Run | cap3/app3/app.py:43-80 | final values as balances and final ≤ final five years earlier; one interest sum per year, adding up to final − saved; year 1 and the last year always exist; year 5 exists iff anos ≥ 5 |
| InvestVsInflation.Simulate | cap3/app1/app.py:32-66 | four series of anos·12 entries; invested = v0·(1+r_m)^m, held = v0, real values divided by (1+i_m)^m |
| InvestVsInflation.FinalValues | cap3/app1/app.py:34-52 | after anos·12 months the factors are the yearly ones to the anos |
| InvestVsInflation.RealNotAboveNominal | cap3/app1/app.py:51-52 | with i_m ≥ 0, real ≤ nominal |
| InvestVsInflation.HeldRealNonIncreasing | cap3/app1/app.py:52 | the held money's real value never rises |
| InvestVsInflation.InvestedAtLeastHeld | cap3/app1/app.py:47-52 | with r_m ≥ 0, invested ≥ held, in nominal and in real terms |
| InvestVsInflation.ReturnBeatsInflation | cap3/app1/app.py:47-51 | with a return at least the inflation, the invested real value keeps the start |
| InvestFuture.FirstRow | cap3/app2/app.py:56 | the first row whose Ativo matches |
| InvestFuture.NamesUnique | cap3/app2/app.py:22-26 | no two rows share an Ativo |
| InvestFuture.RateOf | cap3/app2/app.py:56 | the rate of the unique matching row, between 1.5 and 6 |
| InvestFuture.GrowthAsWritten | cap3/app2/app.py:29-37 | anos·12 entries |
| InvestFuture.GrowthAsWrittenFlat | cap3/app2/app.py:32 | every entry as written is v0·(1 + r/100)^anos, the final value, and ≥ v0 |
| InvestFuture.MonthlyGrowth | cap3/app2/app.py:29-37 | the series `simular_crescimento` means to return: month m is v0 compounded m months |
| InvestFuture.SameFinalValue | cap3/app2/app.py:61 | the monthly series ends at the figure the page reports |
| InvestFuture.GrowthNonDecreasing | cap3/app2/app.py:29-37 | the monthly series never falls |
| InvestFuture.FlatSeriesOverstatesFirstMonth | cap3/app2/app.py:32 | with a positive rate, month 1 as written shows more than one month of growth |
| InvestFuture.Run | cap3/app2/app.py:52-61 | the rate is that of the chosen row; the series is the flat one `simular_crescimento` returns; the final value read from its last row is v0·(1 + r/100)^anos ≥ v0, the last month of the month-by-month growth |
| NominalVsReal.CompoundValue | cap5/app3/app.py:16-18 | P at y = 0; ≥ P for P ≥ 0 |
| NominalVsReal.Simulate | cap5/app3/app.py:33-42 | the percent inputs are divided by 100; years+1 entries; nominal is compound_interest and real is nominal/(1+inflation)^y |
| NominalVsReal.StartsAtInitial | cap5/app3/app.py:40-42 | both series start at the initial amount |
| NominalVsReal.NominalNonDecreasing | cap5/app3/app.py:41 | the nominal series never falls |
| NominalVsReal.RealNotAboveNominal | cap5/app3/app.py:42 | real ≤ nominal when inflation ≥ 0 |
| NominalVsReal.PowQuotient | cap5/app3/app.py:42 | a^y / b^y = (a/b)^y |
| NominalVsReal.RealGrowth | cap5/app3/app.py:41-42 | real = P·((1+r)/(1+i))^y; equal rates keep P; a return at least the inflation never loses |
| HowMuchToSave.MonthlySaving | cap2/app2/app.py:23-26 | saving·12·anos = objective |
| HowMuchToSave.TimeYears | cap2/app2/app.py:29-32 | years·12·saving = objective, non-negative for a non-negative objective |
| HowMuchToSave.TimeOfMonthlySaving | cap2/app2/app.py:23-32 | calcular_tempo of calcular_poupanca_mensal gives back the years |
| HowMuchToSave.MonthlySavingOfTime | cap2/app2/app.py:23-32 | the converse round trip |
| HowMuchToSave.TimeLabelAsWritten | cap2/app2/app.py:35-44 | whole years int(x), months round(frac·12) in 0..12; months only iff years = 0; years only iff months = 0 |
| HowMuchToSave.Render | cap2/app2/app.py:39-44 | "m meses", "a anos" or "a anos e m meses" |
| HowMuchToSave.FormatTimeAsWritten | cap2/app2/app.py:35-44 | `formatar_tempo` as written: the label as written, rendered |
| HowMuchToSave.TwelveMonths | cap2/app2/app.py:36-40 | 0.99 years prints "12 meses" |
| HowMuchToSave.UnderHalfAMonth | cap2/app2/app.py:39-40 | less than half a month prints "0 meses" |
| HowMuchToSave.TimeLabel | cap2/app2/app.py:35-44 | the corrected label: months in 0..11, and the label stands for round(x·12) months |
| HowMuchToSave.TimeLabelNormalises | cap2/app2/app.py:35-44 | both labels give the same number of months, round(x·12), and agree whenever the label as written has fewer than 12 months |
| HowMuchToSave.Accumulation | cap2/app2/app.py:47-55 | int(anos·12) entries, entry i (from 1) is saving·i |
| HowMuchToSave.AccumulationReachesPrice | cap2/app2/app.py:90-93 | in the saving mode the series ends at the price |
| HowMuchToSave.AccumulationNearPrice | cap2/app2/app.py:104-113 | in the time mode the series ends within one month's saving below the price |
| HowMuchToSave.SavingMode | cap2/app2/app.py:90-93 | the "how much per month" branch |
| HowMuchToSave.TimeMode | cap2/app2/app.py:104-113 | the "how long" branch: the years the price takes, the corrected label standing for round(price/saving) months, and the month-by-month series, whose last month is within one saving below the price |
| InflationSavings.FutureValue | cap2/app4/app.py:32-34 | v·(1 + t/100)^anos; equals v when t = 0 or anos = 0; ≥ v, and > v for positive v, t and anos |
| InflationSavings.InflationFactor | cap2/app4/app.py:32-34 | the inflation factor is 1 without inflation or time, above 1 otherwise |
| InflationSavings.FutureValueGrows | cap2/app4/app.py:32-34 | non-decreasing in anos |
| InflationSavings.MonthlySavingWithInflation | cap2/app4/app.py:43-47 | returns the future price and the saving that reaches it in 12·anos months |
| InflationSavings.InflationCostsMore | cap2/app4/app.py:37-47 | with inflation the saving is at least the one without, and equal iff t = 0 |
| InflationSavings.CostsMoreWhenPositive | cap2/app4/app.py:37-47 | at least the one without for any non-negative price |
| InflationSavings.Run | cap2/app4/app.py:76-101 | the saving with inflation is the one that reaches the future price, at least the plain one and equal to it (for a positive price) iff there is no inflation; both series have 12·anos entries; the one without inflation ends at the price, the one with inflation at the future price |
| Rule503020.SavingsPct | cap4/app3/app.py:46-48 | the three percentages sum to 100; with sliders in 0..100 savings lie in −100..100 |
| Rule503020.TierOf | cap4/app3/app.py:51-61 | error iff p < 0, warning iff 0 ≤ p < 10, info iff 10 ≤ p < 20, success iff p ≥ 20 |
| Rule503020.TierMonotone | cap4/app3/app.py:51-61 | a larger savings share never gets a worse message |
| Rule503020.SuggestedSplitIsAdequate | cap4/app3/app.py:46-61 | any split leaving at least 20% for savings, 50/30/20 included, gets the success message |
| Rule503020.Amounts | cap4/app3/app.py:66-73 | three amounts summing to the total; savings negative iff p < 0, zero iff p = 0 |
| Rule503020.Run | cap4/app3/app.py:41-73 | the error message shows exactly when the savings amount is negative |
| BudgetChallenge.GenerateScenario | cap4/app4/app.py:15-25 | the ranges of every draw; car 300, transit 40 |
| BudgetChallenge.LoadScenario | cap4/app4/app.py:59-61 | the scenario is generated only when "cenario" is absent and reused otherwise |
| BudgetChallenge.LoadTwice | cap4/app4/app.py:59-61 | a second run returns the first run's scenario |
| BudgetChallenge.SharesAddUp | cap4/app4/app.py:43-48 | the unrounded percentages sum to 100 |
| BudgetChallenge.Distribute | cap4/app4/app.py:43-54 | fails iff the total is 0; otherwise the total is the sum, each percentage is within 0.05 of the exact share, and together they are within 0.15 of 100 |
| BudgetChallenge.TotalIsSalary | cap4/app4/app.py:72-78 | since savings are salary − (needs + wants), the total is the salary entered |
| BudgetChallenge.CheckExtraSaving | cap4/app4/app.py:92-99 | question 1 accepts exactly 260 in every scenario |
| BudgetChallenge.NewRateAddsTwenty | cap4/app4/app.py:105-106 | the new rate is the old share plus twenty euros' share |
| BudgetChallenge.CheckNewRate | cap4/app4/app.py:105-112 | question 2 accepts iff round(resposta2, 1) is the new rate; an accepted answer is within 0.1 of the exact rate |
| BudgetChallenge.CheckStrategy | cap4/app4/app.py:115-122 | question 3 accepts only "Reduzir gastos com desejos e lazer" |
| BudgetChallenge.OneBestStrategy | cap4/app4/app.py:116-119 | exactly one offered strategy is accepted |
| BudgetChallenge.Respond | cap4/app4/app.py:72-122 | the page fails iff the salary entered is 0 (the division at line 78 comes before the questions); otherwise the savings, the distribution over the salary and the three checks: nothing until pressed, 260 for question 1, the rounded new rate for question 2, the one strategy for question 3 |
| MoneyFunctions.BarterChickens | cap0/app0/app.py:52-60 | a count only when the chicken price is positive; count·chicken price = bicycle price |
| MoneyFunctions.DearerChickensFewer | cap0/app0/app.py:55-56 | dearer chickens, fewer needed |
| MoneyFunctions.SavingsTotal | cap0/app0/app.py:70-74 | inicial + mensal·meses, the zero-rate balance, ≥ inicial for mensal ≥ 0 |
| MoneyFunctions.LongerSavesMore | cap0/app0/app.py:72-74 | more months never save less |
| MoneyFunctions.ComparePrices | cap0/app0/app.py:92-97 | a three-way partition: first dearer, second dearer, same price |
| MoneyFunctions.CompareSwapped | cap0/app0/app.py:92-97 | swapping the products swaps the message |
| Currency.Rate | cap0/app1/app.py:27-33 | every rate is positive; only the euro's is 1 |
| Currency.Position | cap0/app1/app.py:27-33 | each currency's place in the list |
| Currency.CoinsListed | cap0/app1/app.py:27-33 | no currency is listed twice and the labels differ |
| Currency.Convert | cap0/app1/app.py:44-45 | (valor / rate[origem])·rate[destino]: the same currency returns valor |
| Currency.RoundTrip | cap0/app1/app.py:44-45 | A→B then B→A returns the original value |
| Currency.ThroughAnother | cap0/app1/app.py:44-45 | converting through a third currency changes nothing |
| Currency.Table | cap0/app1/app.py:51-52 | one row per currency in order, each within half a cent of the exact conversion |
| Currency.TableShowsOrigin | cap0/app1/app.py:51-52 | the origin's row shows the amount entered, to the cent |
| PriceVsValue.Evaluate | cap0/app2/app.py:43-48 | good iff price ≤ willingness; slightly above iff up to 20% above; above otherwise |
| PriceVsValue.DearerNeverBetter | cap0/app2/app.py:43-48 | a higher price never gets a better verdict |
| PriceVsValue.WillingMoreNeverWorse | cap0/app2/app.py:43-48 | more willingness never gets a worse verdict |
| PriceVsValue.NothingWilling | cap0/app2/app.py:43-48 | with willingness 0 any positive price is above it |
| PriceVsValue.SlightlyAboveNeedsWillingness | cap0/app2/app.py:45-46 | the middle verdict needs a positive willingness |

## Left out

- Rendering: titles, videos, markdown, tables, charts and the message
  wording are left out; the verdicts and values behind them are modelled.
- Randomness: `random.choice`, `random.sample`, `random.shuffle`,
  `random.randrange` and `random.randint` are inputs constrained by what
  they can return (`Draws`, `BudgetChallenge.ValidDraws`,
  `FinalQuiz.ValidFigures`).
- Floating point: amounts are exact reals, so the models do not capture
  IEEE rounding. `round` is modelled on the exact value.
- Fractional powers `(1 + r/100) ** (1/n)` are replaced by a per-period
  rate constrained by `CompoundInterest.IsPeriodRate`.
- CompoundInterest.Simulate: stated for a per-period rate satisfying
  `IsPeriodRate`, not for the float the fractional power returns.
- TimeIsMoney.Run: the same per-period rate parameter.
- InvestVsInflation.Simulate: the same per-period rate parameters.
- `st.rerun()` and the button semantics are modelled as one pass per run,
  with button presses as inputs.
- NominalVsReal.Simulate: the `np.exp` "cash_real" series is not part of
  this model (no exponential over reals in Dafny).
- `main.py` (navigation), cap3/app1_desafio_poupanca, cap5/app1 and the
  "aulas extras" pages are not part of this model.
- cap1/app2/app.py:183-187 computes a `total_pontos` that is never used; it
  is not modelled.
- MindsetQuiz.Proceed: the questions "Recomeçar" draws are built by its callers
  (`Run`, `RunKeepingProgress`) with the same per-theme loop and passed in,
  rather than drawn inside the button branch; the draws are inputs either way.
- FinalQuiz.Run: the figures are redrawn on every run of the page; the model
  takes one draw per run as input.
- cap4/app2's `verificar_resposta` is the same code as cap4/app1's; both are
  `BudgetQuiz.Check`.
- An empty list another page leaves under "respostas" reads as an empty
  list of answers (`Session.EmptyList`), as in Python. A non-empty list of
  another page's entries can reach only the kept-progress variants
  (`RunKeepingProgress`), because the quiz pages as written clean the keys
  first and leave only empty lists behind. Python would go on appending to
  such a list and raise only at the results. The models return `Failed` at
  once and leave the session as it was. A value that is not a list raises in
  Python and is `Failed` in the model too.
- A negative "index": no page writes one, since every page stores 0 and adds
  1. Python's `perguntas[atual]` would wrap around for an index from −total
  to −1 and raise below that; the models return `Failed` for every negative
  index.
- HowMuchToSave: the radio choice between the two modes is modelled as the
  two functions `SavingMode` and `TimeMode`. `TimeMode` uses the corrected
  `TimeLabel` (see Findings).
- BudgetChallenge.Distribute: the ZeroDivisionError of a zero total is the
  `DivisionByZero` result; `Respond` then returns `PageFailed`, since the
  page stops before the questions.
- Text formats (`:.2f`, `:,.0f`) are not modelled; only `f"{n}"` of integers
  is, in `Text`.

## Findings

| source | as written | input that shows it | evidently intended | confidence | as-written member | corrected member |
|---|---|---|---|---|---|---|
| cap1/app2/app.py:130 | `clean_session_questions()` deletes index, answers and questions at the start of every run, before the `"index" not in session_state` check | press "Próxima" on question 1: the rerun shows question 1 of a new draw | clear once when entering the page, keep progress between reruns | high; not executed | MindsetQuiz.PressNextAsWritten | MindsetQuiz.AnswerAllKeepingProgress |
| cap1/app0/app.py:71 | the same clean at the start of every run | press "Próxima" on question 1: the rerun shows question 1 of 10 again | keep progress between reruns | high; not executed | InfluenceQuiz.PressNextAsWritten | InfluenceQuiz.AnswerAllKeepingProgress |
| cap2/app2/app.py:36-44 | months are `round(frac·12)` without carrying into years | 0.99 years prints "12 meses" | "1 anos"; months always 0..11 | high; not executed | HowMuchToSave.TwelveMonths | HowMuchToSave.TimeLabelNormalises |
| cap3/app4/app.py:104 | the first period's interest is the first value minus the contribution, which includes the initial capital | 1000 € at 0% with no contribution: 1000 € of interest in year 1 | first value − initial value − contribution | high; not executed | CompoundInterest.InterestAsWrittenCountsCapital | CompoundInterest.InterestEarnedTotal |
| cap3/app2/app.py:32 | every month's value uses exponent `meses / 12`, ignoring the loop variable | any positive rate: month 1 of the returned series already holds the final value, so the series is flat; the page reads only its last row, so what it displays is right and the defect stays inside `simular_crescimento` | month m compounds m months | medium; not executed | InvestFuture.FlatSeriesOverstatesFirstMonth | InvestFuture.GrowthNonDecreasing |
