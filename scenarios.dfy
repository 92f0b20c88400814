/** Sessions on questions of the bank, driving each component the way a
    student would through its buttons and drop-downs. Each session holds
    whatever order the options were shuffled into. */
module Scenarios {
  import opened Quiz
  import opened Shuffle
  import opened Elementos
  import MC = MultipleChoiceWidget
  import MB = MatchingWidget
  import IM = ImageMatchingWidget

  // ---------------------------------------------------------------------
  // Question 1 (multiple choice, accepted keys "a" and "e")

  /** The display texts of question 1's two accepted options. */
  lemma Question1AnswerTexts()
    ensures GetText(Q1.options, "a") == "El proyecto dura 12 semanas."
    ensures GetText(Q1.options, "e") == "40 es el máximo de personas que se necesitan en una semana."
  {
    Q1Options();
    GetTextSpec(Q1.options, "a");
    GetTextSpec(Q1.options, "e");
    assert Q1.options[0].key == "a" && Q1.options[4].key == "e";
  }

  /** Both accepted keys in the other order are judged correct. */
  lemma Question1AnyOrder()
    ensures MC.ChoiceFeedback(Q1.options, Q1.correct, ["e", "a"], true) == MC.Correct
  {
    assert MC.AllCorrect(["e", "a"], Q1.correct);
  }

  /** The texts the wrong-answer message of question 1 lists, in the bank's order. */
  lemma Question1CorrectTexts()
    ensures MC.CorrectTexts(Q1.options, Q1.correct)
         == ["El proyecto dura 12 semanas.",
             "40 es el máximo de personas que se necesitan en una semana."]
  {
    var texts := MC.CorrectTexts(Q1.options, Q1.correct);
    assert Q1.correct == ["a", "e"];
    assert |texts| == 2 && texts[0] == GetText(Q1.options, "a") && texts[1] == GetText(Q1.options, "e");
    Question1AnswerTexts();
  }

  /** One accepted key alone is judged wrong, and the message lists the texts
      of both accepted options in the bank's order. */
  lemma Question1Missing()
    ensures MC.ChoiceFeedback(Q1.options, Q1.correct, ["a"], true)
         == MC.Incorrect(["El proyecto dura 12 semanas.",
                          "40 es el máximo de personas que se necesitan en una semana."])
  {
    Question1CorrectTexts();
    assert !MC.AllCorrect(["a"], Q1.correct);
  }

  /** Ticking "e" then "a" and pressing "Verificar" is judged correct; after
      "Reiniciar" the verdict box is gone. */
  method Question1Session(picks: seq<nat>) returns (verdict: MC.Feedback, afterRestart: MC.Feedback)
    requires ValidPicks(picks, |Q1.options|)
    ensures verdict == MC.Correct
    ensures afterRestart == MC.NoFeedback
  {
    var w := new MC.MultipleChoice(Q1, picks);
    w.Toggle("e");
    w.Toggle("a");
    assert w.selected == ["e", "a"];
    Question1AnyOrder();
    w.Verify();
    verdict := w.CurrentFeedback();
    w.Restart();
    afterRestart := w.CurrentFeedback();
  }

  /** Ticking only "a" and pressing "Verificar" shows the wrong-answer message. */
  method Question1Partial(picks: seq<nat>) returns (verdict: MC.Feedback)
    requires ValidPicks(picks, |Q1.options|)
    ensures verdict == MC.Incorrect(["El proyecto dura 12 semanas.",
                                     "40 es el máximo de personas que se necesitan en una semana."])
  {
    var w := new MC.MultipleChoice(Q1, picks);
    w.Toggle("a");
    assert w.selected == ["a"];
    Question1Missing();
    w.Verify();
    verdict := w.CurrentFeedback();
  }

  // ---------------------------------------------------------------------
  // Question 5 (matching, solution "1" -> "a", "2" -> "b", ...)

  /** The display text of option "b" of question 5. */
  lemma Question5TextB()
    ensures GetText(Q5.right, "b") == "La secuencia de las actividades la define el director del proyecto"
  {
    assert Q5.right[0].key != "b";
    assert Q5.right[1..][0] == Choice("b", "La secuencia de las actividades la define el director del proyecto");
  }

  /** Row 1 answered with its solution's key renders green with "Correcto". */
  lemma Question5RightRow()
    ensures MB.ViewRow(Q5.right, Q5.solution, map["1" := "a", "2" := "c"], "1") == MB.RowView(MB.Green, MB.Correct)
  {
    assert Lookup(Q5.solution, "1") == Some("a");
  }

  /** Row 2 answered with "c" instead of "b" renders red and names the text of "b". */
  lemma Question5WrongRow()
    ensures MB.ViewRow(Q5.right, Q5.solution, map["1" := "a", "2" := "c"], "2")
         == MB.RowView(MB.Red, MB.Incorrect("La secuencia de las actividades la define el director del proyecto"))
  {
    Question5TextB();
  }

  /** Row 3, not answered, renders with neither colour nor message. */
  lemma Question5UntouchedRow()
    ensures MB.ViewRow(Q5.right, Q5.solution, map["1" := "a", "2" := "c"], "3") == MB.RowView(MB.Plain, MB.NoFeedback)
  {
  }

  /** Choosing "a" on row 1 and "c" on row 2: the first turns green, the
      second red naming the text of option "b", the third stays untouched. */
  method Question5Session(picks: seq<nat>) returns (row1: MB.RowView, row2: MB.RowView, row3: MB.RowView)
    requires ValidPicks(picks, |Q5.right|)
    ensures row1 == MB.RowView(MB.Green, MB.Correct)
    ensures row2 == MB.RowView(MB.Red, MB.Incorrect("La secuencia de las actividades la define el director del proyecto"))
    ensures row3 == MB.RowView(MB.Plain, MB.NoFeedback)
  {
    var w := new MB.MatchingBlock(Q5, picks);
    w.Select("1", "a");
    w.Select("2", "c");
    assert w.answers == map["1" := "a", "2" := "c"];
    Question5RightRow();
    Question5WrongRow();
    Question5UntouchedRow();
    row1 := w.View("1");
    row2 := w.View("2");
    row3 := w.View("3");
  }

  // ---------------------------------------------------------------------
  // Question 6 (image matching, five figures)

  /** With only the first figure answered, "Verificar" stays disabled. */
  lemma Question6NotReady()
    ensures !IM.AllAnswered(Q6.images, map["img1" := "adelanto"])
  {
    assert !IM.Answered(map["img1" := "adelanto"], Q6.images[1]);
  }

  /** With every figure given its own key, all are answered and all correct. */
  lemma Question6AllRight()
    ensures var answers := map["img1" := "adelanto", "img2" := "retraso", "img3" := "start-start",
                               "img4" := "finish-finish", "img5" := "start-finish"];
      IM.AllAnswered(Q6.images, answers) && IM.AllCorrect(Q6.images, answers)
  {
    var answers := map["img1" := "adelanto", "img2" := "retraso", "img3" := "start-start",
                       "img4" := "finish-finish", "img5" := "start-finish"];
    Q6Figures();
    forall i | 0 <= i < |Q6.images| ensures IM.IsCorrect(answers, Q6.images[i]) {
      assert Q6.images[i].id == FigureIds(Q6.images)[i];
      assert Q6.images[i].correct == FigureAnswers(Q6.images)[i];
    }
    Q6Options();
    IM.AllCorrectAllAnswered(Q6.images, answers);
  }

  /** "Verificar" does nothing while a figure is unanswered; once all five
      carry their own key it reveals the "all correct" banner. */
  method Question6Session(picks: seq<nat>) returns (revealedEarly: bool, banner: IM.Banner)
    requires ValidPicks(picks, |Q6.options|)
    ensures !revealedEarly
    ensures banner == IM.AllRight
  {
    var w := new IM.ImageMatching(Q6, picks);
    w.HandleSelect("img1", "adelanto");
    Question6NotReady();
    w.CheckAnswers();
    revealedEarly := w.showResults;
    w.HandleSelect("img2", "retraso");
    w.HandleSelect("img3", "start-start");
    w.HandleSelect("img4", "finish-finish");
    w.HandleSelect("img5", "start-finish");
    assert w.answers == map["img1" := "adelanto", "img2" := "retraso", "img3" := "start-start",
                            "img4" := "finish-finish", "img5" := "start-finish"];
    Question6AllRight();
    w.CheckAnswers();
    banner := w.Summary();
  }
}
