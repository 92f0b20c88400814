# Project-management study page: a verified model of the quiz logic

The study page shows sixteen questions, in page order, about project
management. Each question is rendered by one of three components:

- **MultipleChoice**: checkboxes over the shuffled options. "Verificar" reveals a verdict and "Reiniciar" clears everything.
- **MatchingBlock**: one drop-down per left-hand row over the shuffled right-hand options. Each row shows live green or red feedback, and "Reiniciar" empties the answers.
- **ImageMatching**: one drop-down per figure. "Verificar" is enabled only once every figure is answered. It reveals per-figure feedback and a summary banner, and "Reiniciar" clears the answers and the reveal together.

Every component shows its options in an order drawn once at mount by a
Fisher–Yates shuffle. Image URLs are the build's base URL followed by the
image path, with one leading `/` removed.

The project models this logic in Dafny, one module per concern:

| module | file | contents |
|---|---|---|
| `Quiz` | quiz.dfy | the question variants; the `type`-tag dispatch; option lookups (`find(...)?.text`, `?.text \|\| ''`, `m[k]`); JavaScript truthiness of an answer; well-formedness of a question |
| `Shuffle` | shuffle.dfy | `shuffleArray` as a method on arrays, proved against the specification function `Shuffled`; the random draw becomes an index oracle `picks` with `picks[i] <= i` |
| `Assets` | assets.dfy | URL resolution; the base URL is a parameter |
| `MultipleChoiceWidget` | multiple_choice.dfy | the selection functions (`toggle`, `allCorrect`), the verdict box, and a class holding `selected` and `checked` |
| `MatchingWidget` | matching.dfy | the per-row verdict and rendering, and a class holding `answers` |
| `ImageMatchingWidget` | image_matching.dfy | `allAnswered`, `allCorrect`, per-figure feedback, the banner, and a class holding `answers` and `showResults` |
| `Elementos` | elementos.dfy | the sixteen questions of the bank as constants, each proved well formed |
| `Scenarios` | scenarios.dfy | sessions on questions 1, 5 and 6 driving the component classes |

Each component class keeps the state the component keeps in React state.
Its methods change only that state, and each says exactly what the new
state is. The shuffled order is a `const` field fixed by the constructor:
the component memoises it on the option list, and that list never changes
for a mounted question.

Three details of the code shape the model:

- **The multiple-choice check compares lengths and containment.** The checkboxes make an answer a set of keys. `allCorrect` (src/App.jsx:31) compares the lengths of the selection and the accepted list, and checks that every selected key is accepted. That matches set equality only when neither list repeats a key. `AllCorrectIffSameKeys` proves the match for lists without repeats. `AllCorrectNeedsNoDup` shows the gap on a list with a repeat. `ToggledKeepsNoDup` shows the checkboxes never build such a list.
- **The image-matching message has no fallback text.** The wrong-answer message (src/App.jsx:170) ends in `?.text` with no `|| ''`. For a key that no option carries, it prints `undefined`. `ImageFeedback.Incorrect` therefore holds an `Option<string>`. The matching block's `getText` (src/App.jsx:71) does fall back to `""`, and the model keeps that difference.
- **Matching rows are keyed by `num`.** Each left-hand row carries a `num`, and both the answers and the solution are looked up by it (src/App.jsx:91-92).

## Model

| member | source | states |
|---|---|---|
| Quiz.Question | src/App.jsx:199-530 | the shape of a bank entry: `id`, `title`, an optional `prompt`, and per `type` tag the options and accepted keys, the rows, right-hand options and solution, or the figures and options; `Tag` gives its tag and `WellFormed` its integrity conditions |
| Quiz.Dispatch | src/App.jsx:538-546 | the page renders a MultipleChoice exactly for tag "multiple" and an ImageMatching exactly for tag "image-matching"; every other tag falls through to the matching block |
| Quiz.DispatchMatchesVariant | src/App.jsx:538-546 | every question is rendered by the component written for its own variant, and by no other |
| Quiz.Tag | src/App.jsx:199-530 | the `type` tag each question of the bank carries: "multiple", "matching" or "image-matching" by variant; `DispatchMatchesVariant` ties it to the component rendered |
| Quiz.FindText | src/App.jsx:170 | `find(...)?.text` is absent exactly when no option carries the key; otherwise it is the text of the first option carrying it (no earlier option has the key) |
| Quiz.GetTextSpec | src/App.jsx:71 | with unique keys, `getText(k)` is the text of the option whose key is `k`, and `''` when no option has `k` |
| Quiz.GetText | src/App.jsx:71 | `?.text \|\| ''`: the empty text when no option carries the key, otherwise the text `find` returns; `GetTextSpec` names that text for unique keys |
| Quiz.Lookup | src/App.jsx:91-92 | `m[k]` on an answers or solution object is defined exactly when `k` is an own key of the object, and is then the value stored under `k` |
| Quiz.Truthy | src/App.jsx:102 | JavaScript truthiness of a looked-up answer (present and non-empty); its meaning per row and per figure is stated by `ViewRowMeaning` and `ViewImageMeaning` |
| Quiz.WellFormed | src/App.jsx:199-530 | the integrity conditions of a question: unique, non-empty option keys; accepted answers non-empty, distinct and defined; unique row numbers and figure ids; a solution for every row; every solution value and figure key names an option. `Elementos.BankWellFormed` proves it for every question of the bank |
| Quiz.FigureAnswersNonEmpty | src/App.jsx:139-140 | in a well-formed image question every figure's correct key is non-empty, so it counts as an answer |
| Shuffle.Swap | src/App.jsx:19 | the destructuring swap exchanges positions `i` and `j` and leaves every other position alone |
| Shuffle.SwapPermutes | src/App.jsx:19 | a swap keeps the multiset of elements |
| Shuffle.ShuffleFrom | src/App.jsx:17-20 | what the loop leaves when it starts at index `i`; specified by `ShuffleFromPermutes`, `ShuffleFromKeepsTail` and `ShuffleFromIdentity`, and the loop invariant of `ShuffleArray` |
| Shuffle.Shuffled | src/App.jsx:15-22 | the result of `shuffleArray` under the draws `picks`; specified by `ShuffledPermutes`, `ShuffledShortUnchanged`, `ShuffledIdentity` and `ShuffledLast` |
| Shuffle.ShuffleFromPermutes | src/App.jsx:17-20 | every suffix of the loop keeps the length and the multiset of elements |
| Shuffle.ShuffledPermutes | src/App.jsx:15-22 | whatever the draws, the shuffle returns a permutation of its input (same length, same multiset) |
| Shuffle.ShuffledShortUnchanged | src/App.jsx:17 | inputs of length 0 or 1 come back unchanged, since the loop body never runs |
| Shuffle.ShuffledIdentity | src/App.jsx:17-20 | draws that always pick the current index leave the order unchanged |
| Shuffle.ShuffleFromIdentity | src/App.jsx:17-20 | every suffix of the loop whose draws pick the current index leaves the order unchanged |
| Shuffle.ShuffleFromKeepsTail | src/App.jsx:17-20 | once the loop has passed index `k`, position `k` never changes again |
| Shuffle.ShuffledLast | src/App.jsx:17-20 | the last element of the result is the input element chosen by the first draw |
| Shuffle.ShuffleArray | src/App.jsx:15-22 | copies the argument into a fresh array, leaves the argument unmodified, and returns a result equal to `Shuffled` of the input and a permutation of it |
| Assets.ResolveAssetShape | src/App.jsx:38 | the URL is the base URL followed by the path, with exactly one leading `/` dropped if there is one and nothing dropped otherwise (the same expression appears at lines 82 and 154) |
| Assets.StripLeadingSlash | src/App.jsx:38 | `startsWith('/') ? substring(1) : path`; specified by `ResolveAssetShape` and `ResolveAssetStripsOnce` |
| Assets.ResolveAsset | src/App.jsx:154 | `${BASE_URL}` followed by the stripped path; specified by `ResolveAssetShape` and `ResolveAssetSameUrl` |
| Assets.ResolveAssetStripsOnce | src/App.jsx:82 | only one slash is removed: a path starting with `//` still leaves a `/` right after the base URL |
| Assets.ResolveAssetSameUrl | src/App.jsx:154 | two paths resolve to the same URL exactly when they agree once their leading slash is dropped |
| MultipleChoiceWidget.Without | src/App.jsx:30 | `filter(x => x !== k)` keeps exactly the elements other than `k`, is strictly shorter when `k` occurs, and is the input itself when it does not |
| MultipleChoiceWidget.WithoutKeepsNoDup | src/App.jsx:30 | filtering a duplicate-free selection keeps it duplicate-free |
| MultipleChoiceWidget.WithoutAppended | src/App.jsx:30 | filtering `k` out of `s + [k]` gives the same as filtering it out of `s` |
| MultipleChoiceWidget.Toggled | src/App.jsx:30 | toggling `k` flips whether `k` is selected and changes nothing else (a symmetric difference with `{k}`); an unselected key is appended at the end |
| MultipleChoiceWidget.ToggledKeepsNoDup | src/App.jsx:30 | toggling keeps the selection duplicate-free |
| MultipleChoiceWidget.ToggleTwice | src/App.jsx:30 | toggling the same key twice gives back the same set of keys; an unselected key leaves the list exactly as it was, and a selected one moves to the end |
| MultipleChoiceWidget.AllCorrectIffSameKeys | src/App.jsx:31 | for duplicate-free lists, `allCorrect` holds exactly when the selection and the accepted answers hold the same keys |
| MultipleChoiceWidget.AllCorrect | src/App.jsx:31 | equal length and every selected key accepted; `AllCorrectIffSameKeys` and `AllCorrectNeedsNoDup` state what it decides |
| MultipleChoiceWidget.AllCorrectNeedsNoDup | src/App.jsx:31 | with a repeated key, `allCorrect` accepts `["a","a"]` against `["a","e"]` although the key sets differ |
| MultipleChoiceWidget.ChoiceFeedbackMeaning | src/App.jsx:59-62 | the verdict box appears exactly when checked; it says correct exactly when the selection has the accepted keys, and otherwise lists, in bank order, the text of each accepted option |
| MultipleChoiceWidget.CorrectTexts | src/App.jsx:61 | the text of each accepted key, in the order of `correct`, with `''` for a key no option has; `ChoiceFeedbackMeaning` names each text |
| MultipleChoiceWidget.ChoiceFeedback | src/App.jsx:59-62 | the verdict box: hidden until checked, then correct or the accepted texts; specified by `ChoiceFeedbackMeaning` |
| MultipleChoiceWidget.GetTextAll | src/App.jsx:61 | with unique keys, every option's key looks up that option's own text |
| MultipleChoiceWidget.MultipleChoice.constructor | src/App.jsx:26-28 | mounting starts with nothing selected and nothing checked, and fixes a shuffled order that is a permutation of the options |
| MultipleChoiceWidget.MultipleChoice.Toggle | src/App.jsx:30 | a checkbox change replaces the selection by its toggle, flips that checkbox, keeps `checked`, and keeps the selection duplicate-free |
| MultipleChoiceWidget.MultipleChoice.IsSelected | src/App.jsx:49 | whether the checkbox of `k` is ticked (`selected.includes(k)`); `Toggle` states that it flips |
| MultipleChoiceWidget.MultipleChoice.Verify | src/App.jsx:56 | "Verificar" sets `checked` and leaves the selection alone |
| MultipleChoiceWidget.MultipleChoice.Restart | src/App.jsx:57 | "Reiniciar" returns to the mount state (empty selection, not checked) from any state, so a second press changes nothing |
| MultipleChoiceWidget.MultipleChoice.CurrentFeedback | src/App.jsx:59-62 | the verdict box as currently rendered, that is `ChoiceFeedback` of the current state |
| MatchingWidget.ViewRowMeaning | src/App.jsx:90-104 | for each row of a well-formed question: feedback appears exactly when a non-empty key was chosen; it says correct, and the border is green, exactly when the key equals `solution[num]`; the border is red exactly for a chosen wrong key; a wrong answer names the solution option's text; an unanswered row shows neither colour nor message |
| MatchingWidget.RowIsCorrect | src/App.jsx:91-93 | `chosen === correct`, both looked up under the row number, where an absent entry is `undefined` on either side; specified by `ViewRowMeaning` and `UnansweredUncoveredRowLooksCorrect` |
| MatchingWidget.ViewRow | src/App.jsx:90-104 | the border and message of one row; specified by `ViewRowMeaning` and `SelectLeavesOtherRows` |
| MatchingWidget.UnansweredUncoveredRowLooksCorrect | src/App.jsx:91-98 | a row the solution does not cover and nobody answered compares `undefined === undefined` and is coloured green |
| MatchingWidget.SelectLeavesOtherRows | src/App.jsx:98 | choosing a key for one row leaves how every other row renders unchanged |
| MatchingWidget.MatchingBlock.constructor | src/App.jsx:69-70 | mounting starts with no answers and fixes a shuffled order that is a permutation of the right-hand options |
| MatchingWidget.MatchingBlock.Select | src/App.jsx:98 | a drop-down change sets exactly that row's entry; every other entry keeps its value |
| MatchingWidget.MatchingBlock.Reset | src/App.jsx:73-75 | `reset` empties the answers from any state, so no row is answered and a second reset changes nothing |
| MatchingWidget.MatchingBlock.View | src/App.jsx:90-104 | how row `num` currently renders, that is `ViewRow` of the current answers |
| ImageMatchingWidget.AllCorrectAllAnswered | src/App.jsx:139-140 | when no figure's correct key is empty, `allCorrect` implies `allAnswered` |
| ImageMatchingWidget.Answered | src/App.jsx:147-149 | `answers[img.id]` is truthy |
| ImageMatchingWidget.AllAnswered | src/App.jsx:140 | every figure is answered; `SelectKeepsAllAnswered` and `CheckAnswers` state its role |
| ImageMatchingWidget.IsCorrect | src/App.jsx:148 | `answers[img.id] === img.correct` |
| ImageMatchingWidget.AllCorrect | src/App.jsx:139 | every figure holds its own key; `AllCorrectAllAnswered` and `ViewBannerMeaning` state what it decides |
| ImageMatchingWidget.ViewImage | src/App.jsx:146-171 | one figure's feedback; specified by `ViewImageMeaning` and `SelectLeavesOtherImages` |
| ImageMatchingWidget.ViewBanner | src/App.jsx:189-191 | the summary banner; specified by `ViewBannerMeaning` |
| ImageMatchingWidget.ViewBannerMeaning | src/App.jsx:189-191 | the banner appears exactly when results are revealed and every figure is answered; it says all correct exactly when every figure holds its own correct key |
| ImageMatchingWidget.ViewImageMeaning | src/App.jsx:146-171 | a figure's feedback appears exactly when results are revealed and that figure has a non-empty answer; it says correct exactly when the answer is the figure's key, and otherwise names its option's text |
| ImageMatchingWidget.SelectLeavesOtherImages | src/App.jsx:126-128 | choosing a key for one figure leaves every other figure's feedback unchanged |
| ImageMatchingWidget.SelectKeepsAllAnswered | src/App.jsx:140 | choosing a non-empty key never disables "Verificar" again |
| ImageMatchingWidget.ImageMatching.constructor | src/App.jsx:122-124 | mounting starts with no answers and results hidden, and fixes a shuffled order that is a permutation of the options |
| ImageMatchingWidget.ImageMatching.HandleSelect | src/App.jsx:126-128 | `handleSelect` sets exactly that figure's entry; every other entry and the reveal flag keep their values |
| ImageMatchingWidget.ImageMatching.CanCheck | src/App.jsx:180 | whether "Verificar" is enabled (`disabled={!allAnswered}`); `CheckAnswers` states its effect |
| ImageMatchingWidget.ImageMatching.CheckAnswers | src/App.jsx:178-180 | a press on "Verificar" reveals results exactly when every figure is answered; while the button is disabled nothing changes |
| ImageMatchingWidget.ImageMatching.Reset | src/App.jsx:134-137 | `reset` clears the answers and hides results from any state, so a second reset changes nothing |
| ImageMatchingWidget.ImageMatching.View | src/App.jsx:146-171 | the feedback a figure currently shows, that is `ViewImage` of the current state |
| ImageMatchingWidget.ImageMatching.Summary | src/App.jsx:189-191 | the banner as currently rendered, that is `ViewBanner` of the current state |
| Elementos.Q1WellFormed | src/App.jsx:201-215 | question 1 has unique non-empty keys, and its accepted answers are non-empty, distinct and defined |
| Elementos.Q2WellFormed | src/App.jsx:217-231 | question 2 satisfies the same conditions |
| Elementos.Q3WellFormed | src/App.jsx:233-247 | question 3 satisfies the same conditions |
| Elementos.Q4WellFormed | src/App.jsx:249-263 | question 4 satisfies the same conditions |
| Elementos.Q5WellFormed | src/App.jsx:265-287 | question 5 has unique non-empty option keys and unique row numbers; its solution covers every row, and every solution value names a right-hand option |
| Elementos.Q6WellFormed | src/App.jsx:289-308 | question 6 has unique non-empty option keys and unique figure ids, and every figure's correct key names an option |
| Elementos.Q7WellFormed | src/App.jsx:310-332 | question 7 satisfies the matching conditions |
| Elementos.Q8WellFormed | src/App.jsx:334-362 | question 8 satisfies the multiple-choice conditions |
| Elementos.Q9WellFormed | src/App.jsx:364-387 | question 9 satisfies the matching conditions |
| Elementos.Q10WellFormed | src/App.jsx:389-408 | question 10 satisfies the matching conditions |
| Elementos.Q11WellFormed | src/App.jsx:410-425 | question 11 satisfies the multiple-choice conditions |
| Elementos.Q12WellFormed | src/App.jsx:427-445 | question 12 satisfies the matching conditions |
| Elementos.Q13WellFormed | src/App.jsx:447-462 | question 13 satisfies the multiple-choice conditions |
| Elementos.Q14WellFormed | src/App.jsx:464-482 | question 14 satisfies the matching conditions |
| Elementos.Q15WellFormed | src/App.jsx:484-502 | question 15 satisfies the matching conditions |
| Elementos.Q16WellFormed | src/App.jsx:504-529 | question 16 satisfies the multiple-choice conditions |
| Elementos.Q1 | src/App.jsx:201-215 | question 1 of the bank, field by field; `Q1WellFormed` proves it well formed |
| Elementos.Q2 | src/App.jsx:217-231 | question 2 of the bank, field by field; `Q2WellFormed` proves it well formed |
| Elementos.Q3 | src/App.jsx:233-247 | question 3 of the bank, field by field; `Q3WellFormed` proves it well formed |
| Elementos.Q4 | src/App.jsx:249-263 | question 4 of the bank, field by field; `Q4WellFormed` proves it well formed |
| Elementos.Q5 | src/App.jsx:265-287 | question 5 of the bank, field by field; `Q5WellFormed` proves it well formed |
| Elementos.Q6 | src/App.jsx:289-308 | question 6 of the bank, field by field; `Q6WellFormed` proves it well formed |
| Elementos.Q7 | src/App.jsx:310-332 | question 7 of the bank, field by field; `Q7WellFormed` proves it well formed |
| Elementos.Q8 | src/App.jsx:334-362 | question 8 of the bank, field by field (its markup prompt reduced to its lead sentence); `Q8WellFormed` proves it well formed |
| Elementos.Q9 | src/App.jsx:364-387 | question 9 of the bank, field by field; `Q9WellFormed` proves it well formed |
| Elementos.Q10 | src/App.jsx:389-408 | question 10 of the bank, field by field; `Q10WellFormed` proves it well formed |
| Elementos.Q11 | src/App.jsx:410-425 | question 11 of the bank, field by field; `Q11WellFormed` proves it well formed |
| Elementos.Q12 | src/App.jsx:427-445 | question 12 of the bank, field by field; `Q12WellFormed` proves it well formed |
| Elementos.Q13 | src/App.jsx:447-462 | question 13 of the bank, field by field; `Q13WellFormed` proves it well formed |
| Elementos.Q14 | src/App.jsx:464-482 | question 14 of the bank, field by field; `Q14WellFormed` proves it well formed |
| Elementos.Q15 | src/App.jsx:484-502 | question 15 of the bank, field by field; `Q15WellFormed` proves it well formed |
| Elementos.Q16 | src/App.jsx:504-529 | question 16 of the bank, field by field (its markup prompt reduced to its lead sentence); `Q16WellFormed` proves it well formed |
| Elementos.Bank | src/App.jsx:199-530 | the sixteen questions of `elementos` in page order; stated by `BankMembers`, `BankOrder` and `BankWellFormed` |
| Elementos.BankMembers | src/App.jsx:199-530 | the bank holds exactly the sixteen questions |
| Elementos.BankWellFormed | src/App.jsx:199-530 | every question of the bank is well formed |
| Elementos.BankOrder | src/App.jsx:199-530 | the bank lists sixteen questions in page order: position `i` holds question `i + 1`, so their ids (the components' React keys) are distinct |
| Scenarios.Question1AnswerTexts | src/App.jsx:201-215 | the accepted options "a" and "e" of question 1 display their bank texts |
| Scenarios.Question1AnyOrder | src/App.jsx:31 | question 1 accepts `["e", "a"]`, which is its answer `["a", "e"]` in the other order |
| Scenarios.Question1Missing | src/App.jsx:61 | question 1 rejects `["a"]` and lists the texts of both accepted options |
| Scenarios.Question1CorrectTexts | src/App.jsx:61 | question 1's wrong-answer message lists the texts of "a" and "e" in that order |
| Scenarios.Question1Session | src/App.jsx:25-63 | ticking "e" then "a" and pressing "Verificar" is judged correct, for any shuffle order, and after "Reiniciar" the verdict box is gone |
| Scenarios.Question1Partial | src/App.jsx:59-62 | ticking only "a" and pressing "Verificar" shows the wrong-answer message with both accepted texts |
| Scenarios.Question5TextB | src/App.jsx:71 | `getText("b")` on question 5 is the text of option "b" |
| Scenarios.Question5RightRow | src/App.jsx:90-104 | on question 5, row 1 answered "a" renders green with "Correcto" |
| Scenarios.Question5WrongRow | src/App.jsx:90-104 | on question 5, row 2 answered "c" renders red and names the text of "b" |
| Scenarios.Question5UntouchedRow | src/App.jsx:90-104 | on question 5, an unanswered row renders with neither colour nor message |
| Scenarios.Question5Session | src/App.jsx:68-119 | driving the matching block on question 5 through two selections renders rows 1, 2 and 3 as above, for any shuffle order |
| Scenarios.Question6NotReady | src/App.jsx:140 | on question 6, with one figure answered, "Verificar" is disabled |
| Scenarios.Question6AllRight | src/App.jsx:139-140 | on question 6, with every figure given its own key, all figures are answered and all are correct |
| Scenarios.Question6Session | src/App.jsx:121-196 | on question 6, "Verificar" reveals nothing while a figure is unanswered, and shows the all-correct banner once all five figures hold their keys, for any shuffle order |

## Left out

- The uniformity of the shuffle is not modelled: `Math.random` becomes the index oracle `picks`, and only the permutation property and the positional facts are proved.
- React mechanics are not modelled: `useState`, re-rendering, event wiring, and `useMemo` recomputing the order when the option list changes. The order is fixed per mounted instance.
- The markup is not modelled: JSX, the Tailwind classes, `Card`, the page heading and layout, alt texts, and the emoji and wording of the messages. What each component shows is modelled as a value: `Feedback`, `RowView` with `Border`, `ImageFeedback`, `Banner`.
- Quiz.Lookup: answers and solutions are modelled as maps holding only their own keys. A plain JavaScript object also answers names inherited from `Object.prototype` (`toString`, `constructor`, ...), so a row number or figure id with such a name would read as answered. No row number ("1"–"8") or figure id ("img1"–"img5") of the bank is such a name, so the model is exact for the bank.
- MultipleChoiceWidget.CorrectTexts: gives the list of texts that the wrong-answer message joins with `", "`; the joined string itself is not built.
- `import.meta.env.BASE_URL` is build configuration, taken as the `baseUrl` parameter of `ResolveAsset`.
- The prompts of questions 8 and 16 are markup listing statements A–I and A–E. They are kept as their lead sentence only, because prompts take no part in any check.
- The drop-downs offer a disabled empty placeholder, so the page never sends `""` as an answer. The model accepts any key, including `""`, which it treats as unanswered, as JavaScript truthiness does.
