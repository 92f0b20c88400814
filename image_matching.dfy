/** The `ImageMatching` component: one drop-down per figure over the shuffled
    options, a "Verificar" button enabled once every figure has an answer
    that reveals per-figure feedback and a summary, and a "Reiniciar" button. */
module ImageMatchingWidget {
  import opened Quiz
  import opened Shuffle

  /** `answers[img.id]` is truthy. */
  predicate Answered(answers: map<string, Key>, img: Figure)
  {
    Truthy(Lookup(answers, img.id))
  }

  /** `q.images.every(img => answers[img.id])`: the "Verificar" button is enabled. */
  predicate AllAnswered(images: seq<Figure>, answers: map<string, Key>)
  {
    forall i :: 0 <= i < |images| ==> Answered(answers, images[i])
  }

  /** `answers[img.id] === img.correct` */
  predicate IsCorrect(answers: map<string, Key>, img: Figure)
  {
    Lookup(answers, img.id) == Some(img.correct)
  }

  /** `q.images.every(img => answers[img.id] === img.correct)` */
  predicate AllCorrect(images: seq<Figure>, answers: map<string, Key>)
  {
    forall i :: 0 <= i < |images| ==> IsCorrect(answers, images[i])
  }

  /** The feedback on one figure's card; the wrong-answer message prints the
      correct option's text found with `find(...)?.text`, which is absent
      (printed as "undefined") when no option has the figure's key. */
  datatype ImageFeedback = Hidden | Correct | Incorrect(correctText: Option<string>)

  /** The summary banner under the buttons. */
  datatype Banner = NoBanner | AllRight | SomeWrong

  /** `showFeedback = showResults && chosen`, then the verdict of `IsCorrect`. */
  function ViewImage(options: seq<Choice>, answers: map<string, Key>,
                     showResults: bool, img: Figure): ImageFeedback
  {
    if showResults && Answered(answers, img) then
      (if IsCorrect(answers, img) then Correct else Incorrect(FindText(options, img.correct)))
    else Hidden
  }

  /** `showResults && allAnswered`, then the verdict of `AllCorrect`. */
  function ViewBanner(images: seq<Figure>, answers: map<string, Key>, showResults: bool): Banner
  {
    if showResults && AllAnswered(images, answers) then
      (if AllCorrect(images, answers) then AllRight else SomeWrong)
    else NoBanner
  }

  /** When no figure's answer is the empty key, all answers right means all
      figures answered. */
  lemma AllCorrectAllAnswered(images: seq<Figure>, answers: map<string, Key>)
    requires forall i :: 0 <= i < |images| ==> images[i].correct != ""
    requires AllCorrect(images, answers)
    ensures AllAnswered(images, answers)
  {
    forall i | 0 <= i < |images| ensures Answered(answers, images[i]) {
      assert IsCorrect(answers, images[i]);
    }
  }

  /** For a well-formed question the banner appears exactly when results are
      revealed and every figure is answered, and it says "all correct"
      exactly when results are revealed and every figure holds its own key. */
  lemma ViewBannerMeaning(q: Question, answers: map<string, Key>, showResults: bool)
    requires q.ImageMatching? && WellFormed(q)
    ensures var b := ViewBanner(q.images, answers, showResults);
      && (b != NoBanner <==> showResults && AllAnswered(q.images, answers))
      && (b == AllRight <==>
            showResults && forall i :: 0 <= i < |q.images| ==>
              q.images[i].id in answers && answers[q.images[i].id] == q.images[i].correct)
  {
    FigureAnswersNonEmpty(q);
    if forall i :: 0 <= i < |q.images| ==>
         q.images[i].id in answers && answers[q.images[i].id] == q.images[i].correct {
      assert AllCorrect(q.images, answers);
      AllCorrectAllAnswered(q.images, answers);
    }
  }

  /** For a figure of a well-formed question, feedback appears exactly when
      results are revealed and the figure has an answer; it says correct
      exactly when that answer is the figure's key, and otherwise names the
      text of the figure's option. */
  lemma ViewImageMeaning(q: Question, answers: map<string, Key>, showResults: bool, i: nat)
    requires q.ImageMatching? && WellFormed(q) && i < |q.images|
    ensures var img := q.images[i];
      var f := ViewImage(q.options, answers, showResults, img);
      && (f != Hidden <==> showResults && img.id in answers && answers[img.id] != "")
      && (f == Correct <==> showResults && img.id in answers && answers[img.id] == img.correct)
      && (f.Incorrect? ==>
            forall j :: 0 <= j < |q.options| && q.options[j].key == img.correct
              ==> f.correctText == Some(q.options[j].text))
  {
    var img := q.images[i];
    FigureAnswersNonEmpty(q);
    assert HasKey(q.options, FigureAnswers(q.images)[i]);
    GetTextSpec(q.options, img.correct);
  }

  /** Choosing a key for one figure leaves every other figure's feedback as it was. */
  lemma SelectLeavesOtherImages(options: seq<Choice>, answers: map<string, Key>, showResults: bool,
                                imageId: string, value: Key, img: Figure)
    requires img.id != imageId
    ensures ViewImage(options, answers[imageId := value], showResults, img)
         == ViewImage(options, answers, showResults, img)
  {
    assert Lookup(answers[imageId := value], img.id) == Lookup(answers, img.id);
  }

  /** Choosing a non-empty key never disables "Verificar" again. */
  lemma SelectKeepsAllAnswered(images: seq<Figure>, answers: map<string, Key>,
                               imageId: string, value: Key)
    requires AllAnswered(images, answers) && value != ""
    ensures AllAnswered(images, answers[imageId := value])
  {
    forall i | 0 <= i < |images| ensures Answered(answers[imageId := value], images[i]) {
      assert Answered(answers, images[i]);
    }
  }

  /** The state of one rendered image-matching question. */
  class ImageMatching {
    const q: Question
    /** the option order fixed when the component mounts */
    const shuffled: seq<Choice>
    var answers: map<string, Key>
    var showResults: bool

    ghost predicate Valid()
    {
      q.ImageMatching?
    }

    /** Mounting: no figure answered, results hidden, options shuffled once. */
    constructor (q: Question, picks: seq<nat>)
      requires q.ImageMatching? && ValidPicks(picks, |q.options|)
      ensures Valid() && this.q == q
      ensures answers == map[] && !showResults
      ensures shuffled == Shuffled(q.options, picks)
      ensures multiset(shuffled) == multiset(q.options)
    {
      var opts := q.options;
      var a := new Choice[|opts|](i requires 0 <= i < |opts| => opts[i]);
      assert a[..] == opts;
      var out := ShuffleArray(a, picks);
      this.q := q;
      shuffled := out[..];
      answers := map[];
      showResults := false;
    }

    /** Whether "Verificar" is enabled (`disabled={!allAnswered}`). */
    function CanCheck(): bool
      reads this
      requires Valid()
    {
      AllAnswered(q.images, answers)
    }

    /** `handleSelect(imageId, value)`: only that figure's entry moves. */
    method HandleSelect(imageId: string, value: Key)
      modifies this
      ensures answers == old(answers)[imageId := value] && showResults == old(showResults)
      ensures forall id :: id != imageId ==> Lookup(answers, id) == Lookup(old(answers), id)
    {
      answers := answers[imageId := value];
    }

    /** A press on "Verificar": `checkAnswers` runs only when the button is
        enabled, so before every figure is answered nothing changes. */
    method CheckAnswers()
      requires Valid()
      modifies this
      ensures answers == old(answers)
      ensures showResults == (old(showResults) || old(CanCheck()))
    {
      if CanCheck() {
        showResults := true;
      }
    }

    /** "Reiniciar": answers and the reveal gate cleared together, as on a
        fresh mount, whatever came before, so a second reset changes nothing. */
    method Reset()
      modifies this
      ensures answers == map[] && !showResults
    {
      answers := map[];
      showResults := false;
    }

    /** The feedback figure `img` currently shows. */
    function View(img: Figure): ImageFeedback
      reads this
      requires Valid()
    {
      ViewImage(q.options, answers, showResults, img)
    }

    /** The summary banner as currently rendered. */
    function Summary(): Banner
      reads this
      requires Valid()
    {
      ViewBanner(q.images, answers, showResults)
    }
  }
}
