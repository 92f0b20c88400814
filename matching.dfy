/** The `MatchingBlock` component: one drop-down per left-hand row over the
    shuffled right-hand options, with live feedback per row and a
    "Reiniciar" button. */
module MatchingWidget {
  import opened Quiz
  import opened Shuffle

  /** The colour of a row's drop-down. */
  datatype Border = Plain | Green | Red

  /** The message under a row's drop-down. */
  datatype RowFeedback = NoFeedback | Correct | Incorrect(correctText: string)

  datatype RowView = RowView(border: Border, feedback: RowFeedback)

  /** `chosen === correct`, both looked up under the row number; an absent
      entry is `undefined` on either side. */
  predicate RowIsCorrect(answers: map<string, Key>, solution: map<string, Key>, num: string)
  {
    Lookup(answers, num) == Lookup(solution, num)
  }

  /** How row `num` renders: green when the verdict holds, red when a choice
      was made and is wrong, plain otherwise; a message only once something
      was chosen, naming the correct option's text when the choice is wrong. */
  function ViewRow(right: seq<Choice>, solution: map<string, Key>,
                   answers: map<string, Key>, num: string): RowView
  {
    var chosen := Lookup(answers, num);
    var isCorrect := RowIsCorrect(answers, solution, num);
    var border := if isCorrect then Green else if Truthy(chosen) then Red else Plain;
    var feedback :=
      if !Truthy(chosen) then NoFeedback
      else if isCorrect then Correct
      else Incorrect(if num in solution then GetText(right, solution[num]) else "");
    RowView(border, feedback)
  }

  /** For a row of a well-formed question: the message appears exactly when a
      key was chosen; it says correct exactly when the chosen key is the
      solution's, and otherwise shows the text of the solution's option; the
      border is green exactly for the solution's key; a row with no choice
      shows neither colour nor message. */
  lemma ViewRowMeaning(q: Question, answers: map<string, Key>, num: string)
    requires q.Matching? && WellFormed(q) && num in q.solution
    ensures var v := ViewRow(q.right, q.solution, answers, num);
      && (v.feedback != NoFeedback <==> num in answers && answers[num] != "")
      && (v.feedback == Correct <==> num in answers && answers[num] == q.solution[num])
      && (v.border == Green <==> num in answers && answers[num] == q.solution[num])
      && (v.border == Red <==> num in answers && answers[num] != "" && answers[num] != q.solution[num])
      && (v.feedback.Incorrect? ==>
            forall j :: 0 <= j < |q.right| && q.right[j].key == q.solution[num]
              ==> v.feedback.correctText == q.right[j].text)
      && (num !in answers ==> v == RowView(Plain, NoFeedback))
  {
    var k := q.solution[num];
    assert HasKey(q.right, k);
    assert k != "";
    GetTextSpec(q.right, k);
  }

  /** A row the solution does not cover and nobody answered compares
      `undefined === undefined` and is coloured as correct; well-formed
      questions have no such row. */
  lemma UnansweredUncoveredRowLooksCorrect(right: seq<Choice>, solution: map<string, Key>,
                                           answers: map<string, Key>, num: string)
    requires num !in solution && num !in answers
    ensures ViewRow(right, solution, answers, num) == RowView(Green, NoFeedback)
  {
  }

  /** Choosing a key for one row leaves how every other row renders unchanged. */
  lemma SelectLeavesOtherRows(right: seq<Choice>, solution: map<string, Key>,
                              answers: map<string, Key>, num: string, value: Key, other: string)
    requires other != num
    ensures ViewRow(right, solution, answers[num := value], other)
         == ViewRow(right, solution, answers, other)
  {
    assert Lookup(answers[num := value], other) == Lookup(answers, other);
  }

  /** The state of one rendered matching question. */
  class MatchingBlock {
    const q: Question
    /** the right-hand order fixed when the component mounts */
    const shuffled: seq<Choice>
    var answers: map<string, Key>

    ghost predicate Valid()
    {
      q.Matching?
    }

    /** Mounting: no row answered, right-hand options shuffled once. */
    constructor (q: Question, picks: seq<nat>)
      requires q.Matching? && ValidPicks(picks, |q.right|)
      ensures Valid() && this.q == q
      ensures answers == map[]
      ensures shuffled == Shuffled(q.right, picks)
      ensures multiset(shuffled) == multiset(q.right)
    {
      var opts := q.right;
      var a := new Choice[|opts|](i requires 0 <= i < |opts| => opts[i]);
      assert a[..] == opts;
      var out := ShuffleArray(a, picks);
      this.q := q;
      shuffled := out[..];
      answers := map[];
    }

    /** The drop-down of row `num` changes to `value`; only that entry moves. */
    method Select(num: string, value: Key)
      modifies this
      ensures answers == old(answers)[num := value]
      ensures forall n :: n != num ==> Lookup(answers, n) == Lookup(old(answers), n)
    {
      answers := answers[num := value];
    }

    /** "Reiniciar": no row answered, as on a fresh mount, whatever came
        before, so a second reset changes nothing. */
    method Reset()
      modifies this
      ensures answers == map[]
      ensures forall n :: !Truthy(Lookup(answers, n))
    {
      answers := map[];
    }

    /** How row `num` currently renders. */
    function View(num: string): RowView
      reads this
      requires Valid()
    {
      ViewRow(q.right, q.solution, answers, num)
    }
  }
}
