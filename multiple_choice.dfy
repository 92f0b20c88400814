/** The `MultipleChoice` component: a list of checkboxes over the shuffled
    options, a "Verificar" button that reveals the verdict and a "Reiniciar"
    button that clears everything. */
module MultipleChoiceWidget {
  import opened Quiz
  import opened Shuffle

  /** `prev.filter(x => x !== k)`: every occurrence of `k` removed, the rest in order. */
  function Without(s: seq<Key>, k: Key): (r: seq<Key>)
    ensures forall x :: x in r <==> x in s && x != k
    ensures |r| <= |s| && (k in s ==> |r| < |s|)
    ensures k !in s ==> r == s
  {
    if s == [] then []
    else (if s[0] == k then [] else [s[0]]) + Without(s[1..], k)
  }

  lemma {:induction false} WithoutKeepsNoDup(s: seq<Key>, k: Key)
    requires NoDup(s)
    ensures NoDup(Without(s, k))
  {
    if s != [] {
      NoDupUncons(s);
      WithoutKeepsNoDup(s[1..], k);
      if s[0] != k {
        NoDupCons(s[0], Without(s[1..], k));
      } else {
        assert Without(s, k) == Without(s[1..], k);
      }
    }
  }

  lemma {:induction false} WithoutAppended(s: seq<Key>, k: Key)
    ensures Without(s + [k], k) == Without(s, k)
  {
    if s == [] {
      assert Without([k], k) == [] + Without([], k);
    } else {
      assert (s + [k])[1..] == s[1..] + [k];
      WithoutAppended(s[1..], k);
    }
  }

  /** The selection after clicking the checkbox of `k`: removed when it was
      selected, appended otherwise, so membership of `k` flips and nothing
      else changes (a symmetric difference with `{k}`). */
  function Toggled(selected: seq<Key>, k: Key): (r: seq<Key>)
    ensures forall x :: x in r <==> (x in selected) != (x == k)
    ensures k in selected ==> |r| < |selected|
    ensures k !in selected ==> r == selected + [k]
  {
    if k in selected then Without(selected, k) else selected + [k]
  }

  /** Toggling never introduces a repeated key. */
  lemma ToggledKeepsNoDup(selected: seq<Key>, k: Key)
    requires NoDup(selected)
    ensures NoDup(Toggled(selected, k))
  {
    if k in selected {
      WithoutKeepsNoDup(selected, k);
    } else {
      NoDupAppend(selected, k);
    }
  }

  /** Toggling the same key twice gives back the same keys; an unselected key
      leaves the selection exactly as it was, a selected one moves to the end. */
  lemma ToggleTwice(selected: seq<Key>, k: Key)
    ensures Elems(Toggled(Toggled(selected, k), k)) == Elems(selected)
    ensures k !in selected ==> Toggled(Toggled(selected, k), k) == selected
    ensures k in selected ==> Toggled(Toggled(selected, k), k) == Without(selected, k) + [k]
  {
    if k !in selected {
      WithoutAppended(selected, k);
    }
  }

  /** `selected.length === q.correct.length && selected.every(k => q.correct.includes(k))` */
  predicate AllCorrect(selected: seq<Key>, correct: seq<Key>)
  {
    |selected| == |correct| && forall i :: 0 <= i < |selected| ==> selected[i] in correct
  }

  lemma SubsetSameSizeEqual(a: set<Key>, b: set<Key>)
    requires a <= b && |a| == |b|
    ensures a == b
  {
    if a != b {
      assert !(b <= a);
      var x :| x in b && x !in a;
      assert a <= b - {x};
      assert |b - {x}| == |b| - 1;
      SubsetSize(a, b - {x});
    }
  }

  lemma {:induction false} SubsetSize(a: set<Key>, b: set<Key>)
    requires a <= b
    ensures |a| <= |b|
    decreases |b|
  {
    if a != {} {
      var x :| x in a;
      SubsetSize(a - {x}, b - {x});
    }
  }

  /** Length plus containment decides set equality as long as neither list
      repeats a key: the check accepts exactly the selections holding the
      same keys as the answer, in any order. */
  lemma AllCorrectIffSameKeys(selected: seq<Key>, correct: seq<Key>)
    requires NoDup(selected) && NoDup(correct)
    ensures AllCorrect(selected, correct) <==> Elems(selected) == Elems(correct)
  {
    NoDupCard(selected);
    NoDupCard(correct);
    if AllCorrect(selected, correct) {
      assert Elems(selected) <= Elems(correct) by {
        forall x | x in Elems(selected) ensures x in Elems(correct) {
          var i :| 0 <= i < |selected| && selected[i] == x;
        }
      }
      SubsetSameSizeEqual(Elems(selected), Elems(correct));
    }
    if Elems(selected) == Elems(correct) {
      forall i | 0 <= i < |selected| ensures selected[i] in correct {
        assert selected[i] in Elems(selected);
      }
    }
  }

  /** With a repeated key the same check accepts a selection that misses an
      answer; toggling never builds such a selection. */
  lemma AllCorrectNeedsNoDup()
    ensures AllCorrect(["a", "a"], ["a", "e"])
    ensures Elems(["a", "a"]) != Elems(["a", "e"])
  {
    assert "e" !in Elems(["a", "a"]);
  }

  /** What the verdict box shows. */
  datatype Feedback =
    | NoFeedback
    | Correct
      /** the texts of the accepted options, which the page joins with ", " */
    | Incorrect(answerTexts: seq<string>)

  /** `q.correct.map(k => q.options.find(o => o.key === k)?.text)`; a key no
      option has prints as the empty string once joined. */
  function CorrectTexts(options: seq<Choice>, correct: seq<Key>): seq<string>
  {
    seq(|correct|, i requires 0 <= i < |correct| => GetText(options, correct[i]))
  }

  /** The verdict box: hidden until checked, then the verdict of `AllCorrect`. */
  function ChoiceFeedback(options: seq<Choice>, correct: seq<Key>,
                          selected: seq<Key>, checked: bool): Feedback
  {
    if !checked then NoFeedback
    else if AllCorrect(selected, correct) then Correct
    else Incorrect(CorrectTexts(options, correct))
  }

  /** The verdict is shown exactly after "Verificar"; it says correct exactly
      when the selection holds the accepted keys, and otherwise lists the text
      of each accepted option in the bank's order. */
  lemma ChoiceFeedbackMeaning(q: Question, selected: seq<Key>, checked: bool)
    requires q.MultipleChoice? && WellFormed(q) && NoDup(selected)
    ensures var f := ChoiceFeedback(q.options, q.correct, selected, checked);
      && (f != NoFeedback <==> checked)
      && (f == Correct <==> checked && Elems(selected) == Elems(q.correct))
      && (f.Incorrect? ==>
            |f.answerTexts| == |q.correct|
            && forall i, j :: 0 <= i < |q.correct| && 0 <= j < |q.options| && q.options[j].key == q.correct[i]
                 ==> f.answerTexts[i] == q.options[j].text)
  {
    AllCorrectIffSameKeys(selected, q.correct);
    GetTextAll(q.options);
  }

  lemma GetTextAll(options: seq<Choice>)
    requires UniqueKeys(options)
    ensures forall k, j :: 0 <= j < |options| && options[j].key == k ==> GetText(options, k) == options[j].text
  {
    forall k | true
      ensures forall j :: 0 <= j < |options| && options[j].key == k ==> GetText(options, k) == options[j].text
    {
      GetTextSpec(options, k);
    }
  }

  /** The state of one rendered multiple-choice question. */
  class MultipleChoice {
    const q: Question
    /** the option order fixed when the component mounts */
    const shuffled: seq<Choice>
    var selected: seq<Key>
    var checked: bool

    ghost predicate Valid()
      reads this
    {
      q.MultipleChoice? && NoDup(selected)
    }

    /** Mounting: nothing selected, nothing checked, options shuffled once. */
    constructor (q: Question, picks: seq<nat>)
      requires q.MultipleChoice? && ValidPicks(picks, |q.options|)
      ensures Valid() && this.q == q
      ensures selected == [] && !checked
      ensures shuffled == Shuffled(q.options, picks)
      ensures multiset(shuffled) == multiset(q.options)
    {
      var opts := q.options;
      var a := new Choice[|opts|](i requires 0 <= i < |opts| => opts[i]);
      assert a[..] == opts;
      var out := ShuffleArray(a, picks);
      this.q := q;
      shuffled := out[..];
      selected := [];
      checked := false;
    }

    /** Whether the checkbox of `k` is ticked (`selected.includes(k)`). */
    function IsSelected(k: Key): bool
      reads this
    {
      k in selected
    }

    /** The checkbox of `k` changes: `k` leaves or joins the selection; a
        verdict already shown stays shown and follows the new selection. */
    method Toggle(k: Key)
      requires Valid()
      modifies this
      ensures Valid()
      ensures selected == Toggled(old(selected), k) && checked == old(checked)
      ensures IsSelected(k) == !old(IsSelected(k))
    {
      ToggledKeepsNoDup(selected, k);
      selected := Toggled(selected, k);
    }

    /** "Verificar". */
    method Verify()
      requires Valid()
      modifies this
      ensures Valid()
      ensures selected == old(selected) && checked
    {
      checked := true;
    }

    /** "Reiniciar": back to the state of a fresh mount, whatever came before,
        so a second reset changes nothing. */
    method Restart()
      requires Valid()
      modifies this
      ensures Valid()
      ensures selected == [] && !checked
    {
      selected := [];
      checked := false;
    }

    /** The verdict box as currently rendered. */
    function CurrentFeedback(): Feedback
      reads this
      requires Valid()
    {
      ChoiceFeedback(q.options, q.correct, selected, checked)
    }
  }
}
