/** The question bank's data model: the three question variants, the option
    lists they share, the lookups the widgets perform on them, and what it
    means for a question to be well formed. */
module Quiz {

  datatype Option<T> = None | Some(value: T)

  type Key = string

  /** One selectable option `{ key, text }`. */
  datatype Choice = Choice(key: Key, text: string)

  /** One left-hand row `{ num, text }` of a matching question. */
  datatype Row = Row(num: string, text: string)

  /** One figure `{ id, src, correct }` of an image-matching question. */
  datatype Figure = Figure(id: string, src: string, correct: Key)

  /** A question of the bank; the variant stands for the `type` tag. Prompts are
      opaque text (two prompts of the bank are rich markup). */
  datatype Question =
    | MultipleChoice(id: nat, title: string, prompt: Option<string>, image: Option<string>,
                     options: seq<Choice>, correct: seq<Key>)
    | Matching(id: nat, title: string, prompt: Option<string>, image: Option<string>,
               left: seq<Row>, right: seq<Choice>, solution: map<string, Key>)
    | ImageMatching(id: nat, title: string, prompt: Option<string>,
                    images: seq<Figure>, options: seq<Choice>)

  /** The component the page renders for a question. */
  datatype Widget = RendersMultipleChoice | RendersImageMatching | RendersMatchingBlock

  /** The `type` tag a question carries in the bank. */
  function Tag(q: Question): string
  {
    match q
    case MultipleChoice(_, _, _, _, _, _) => "multiple"
    case Matching(_, _, _, _, _, _, _) => "matching"
    case ImageMatching(_, _, _, _, _) => "image-matching"
  }

  /** The page's dispatch on the tag: every tag other than the two it tests
      falls through to the matching block. */
  function Dispatch(tag: string): (w: Widget)
    ensures w == RendersMultipleChoice <==> tag == "multiple"
    ensures w == RendersImageMatching <==> tag == "image-matching"
  {
    if tag == "multiple" then RendersMultipleChoice
    else if tag == "image-matching" then RendersImageMatching
    else RendersMatchingBlock
  }

  /** Every question is rendered by the component written for its variant. */
  lemma DispatchMatchesVariant(q: Question)
    ensures Dispatch(Tag(q)) == RendersMultipleChoice <==> q.MultipleChoice?
    ensures Dispatch(Tag(q)) == RendersMatchingBlock <==> q.Matching?
    ensures Dispatch(Tag(q)) == RendersImageMatching <==> q.ImageMatching?
  {
  }

  // ---------------------------------------------------------------------
  // Sequences without repetition

  /** The elements of a sequence, as a set. */
  function Elems<T>(s: seq<T>): set<T>
  {
    set x | x in s
  }

  /** No element occurs twice. */
  predicate NoDup<T(==)>(s: seq<T>)
  {
    forall i, j :: 0 <= i < j < |s| ==> s[i] != s[j]
  }

  /** The head of a repetition-free sequence is not in its tail, and the tail
      is repetition-free. */
  lemma NoDupUncons<T>(s: seq<T>)
    requires NoDup(s) && |s| > 0
    ensures s[0] !in s[1..] && NoDup(s[1..])
  {
    forall i, j | 0 <= i < j < |s[1..]| ensures s[1..][i] != s[1..][j] {
      assert s[1..][i] == s[i + 1] && s[1..][j] == s[j + 1];
    }
  }

  /** Putting an element not yet present in front keeps a sequence repetition-free. */
  lemma NoDupCons<T>(x: T, s: seq<T>)
    requires NoDup(s) && x !in s
    ensures NoDup([x] + s)
  {
    forall i, j | 0 <= i < j < |[x] + s| ensures ([x] + s)[i] != ([x] + s)[j] {
      if i == 0 {
        assert ([x] + s)[j] == s[j - 1];
      } else {
        assert ([x] + s)[i] == s[i - 1] && ([x] + s)[j] == s[j - 1];
      }
    }
  }

  /** A sequence without repetition has as many distinct elements as entries. */
  lemma {:induction false} NoDupCard<T>(s: seq<T>)
    requires NoDup(s)
    ensures |Elems(s)| == |s|
  {
    if |s| > 0 {
      NoDupUncons(s);
      NoDupCard(s[1..]);
      assert Elems(s) == {s[0]} + Elems(s[1..]);
      assert s[0] !in Elems(s[1..]);
    }
  }

  /** Appending an element not yet present keeps a sequence repetition-free. */
  lemma NoDupAppend<T>(s: seq<T>, x: T)
    requires NoDup(s) && x !in s
    ensures NoDup(s + [x])
  {
    forall i, j | 0 <= i < j < |s + [x]| ensures (s + [x])[i] != (s + [x])[j] {
      if j == |s| {
        assert (s + [x])[i] == s[i];
      } else {
        assert (s + [x])[i] == s[i] && (s + [x])[j] == s[j];
      }
    }
  }

  // ---------------------------------------------------------------------
  // Lookups on option lists and answer maps

  /** The keys of an option list, in order. */
  function Keys(opts: seq<Choice>): seq<Key>
  {
    seq(|opts|, i requires 0 <= i < |opts| => opts[i].key)
  }

  /** Whether some option carries key `k`. */
  predicate HasKey(opts: seq<Choice>, k: Key)
  {
    k in Keys(opts)
  }

  /** Option keys are unique within the list. */
  predicate UniqueKeys(opts: seq<Choice>)
  {
    NoDup(Keys(opts))
  }

  /** `opts.find(o => o.key === k)?.text`: the text of the first option with key
      `k`, or nothing when no option has that key. */
  function FindText(opts: seq<Choice>, k: Key): (r: Option<string>)
    ensures r.None? <==> !HasKey(opts, k)
    ensures r.Some? ==> exists i :: 0 <= i < |opts| && opts[i].key == k && opts[i].text == r.value
                                 && forall j :: 0 <= j < i ==> opts[j].key != k
  {
    if opts == [] then None
    else
      assert Keys(opts) == [opts[0].key] + Keys(opts[1..]);
      if opts[0].key == k then Some(opts[0].text) else FindText(opts[1..], k)
  }

  /** The display text of key `k`, empty when no option has it (`?.text || ''`). */
  function GetText(opts: seq<Choice>, k: Key): (t: string)
    ensures !HasKey(opts, k) ==> t == ""
    ensures HasKey(opts, k) ==> FindText(opts, k) == Some(t)
  {
    match FindText(opts, k)
    case Some(t) => t
    case None => ""
  }

  /** With unique keys, the text found for a key is the text of the one option
      carrying it; a key no option carries gives the empty text. */
  lemma {:induction false} GetTextSpec(opts: seq<Choice>, k: Key)
    requires UniqueKeys(opts)
    ensures forall i :: 0 <= i < |opts| && opts[i].key == k ==> GetText(opts, k) == opts[i].text
    ensures !HasKey(opts, k) ==> GetText(opts, k) == ""
  {
    if opts != [] {
      assert Keys(opts) == [opts[0].key] + Keys(opts[1..]);
      NoDupUncons(Keys(opts));
      GetTextSpec(opts[1..], k);
      forall i | 0 < i < |opts| && opts[i].key == k
        ensures opts[i] == opts[1..][i - 1] && opts[0].key != k
      {
        assert Keys(opts)[i] == k;
      }
    }
  }

  /** The value a plain JavaScript object holds under `k` (`m[k]`). */
  function Lookup(m: map<string, string>, k: string): (r: Option<string>)
    ensures r.Some? <==> k in m
    ensures r.Some? ==> r.value == m[k]
  {
    if k in m then Some(m[k]) else None
  }

  /** JavaScript truthiness of a looked-up answer: present and not empty. */
  predicate Truthy(v: Option<string>)
  {
    v.Some? && v.value != ""
  }

  // ---------------------------------------------------------------------
  // Well-formedness of the bank

  /** Row numbers are unique within a matching question. */
  predicate UniqueNums(left: seq<Row>)
  {
    NoDup(RowNums(left))
  }

  function RowNums(left: seq<Row>): seq<string>
  {
    seq(|left|, i requires 0 <= i < |left| => left[i].num)
  }

  /** Image ids are unique within an image-matching question. */
  predicate UniqueIds(images: seq<Figure>)
  {
    NoDup(FigureIds(images))
  }

  function FigureIds(images: seq<Figure>): seq<string>
  {
    seq(|images|, i requires 0 <= i < |images| => images[i].id)
  }

  /** No option key is the empty string (an empty answer reads as "unanswered"). */
  predicate NonEmptyKeys(opts: seq<Choice>)
  {
    "" !in Keys(opts)
  }

  /** Every key in `ks` names an option of `opts`. */
  predicate AllResolve(ks: seq<Key>, opts: seq<Choice>)
  {
    forall k :: k in ks ==> HasKey(opts, k)
  }

  /** The integrity conditions of a question: unique, non-empty option keys; every
      accepted answer, solution entry and figure answer names a defined option;
      the solution defines an answer for every row. */
  predicate WellFormed(q: Question)
  {
    match q
    case MultipleChoice(_, _, _, _, options, correct) =>
      && UniqueKeys(options) && NonEmptyKeys(options)
      && |correct| > 0 && NoDup(correct) && AllResolve(correct, options)
    case Matching(_, _, _, _, left, right, solution) =>
      && UniqueKeys(right) && NonEmptyKeys(right) && UniqueNums(left)
      && (forall n :: n in RowNums(left) ==> n in solution)
      && (forall n :: n in solution ==> HasKey(right, solution[n]))
    case ImageMatching(_, _, _, images, options) =>
      && UniqueKeys(options) && NonEmptyKeys(options) && UniqueIds(images)
      && AllResolve(FigureAnswers(images), options)
  }

  function FigureAnswers(images: seq<Figure>): seq<Key>
  {
    seq(|images|, i requires 0 <= i < |images| => images[i].correct)
  }

  /** In a well-formed image question every figure's answer is a non-empty key. */
  lemma FigureAnswersNonEmpty(q: Question)
    requires q.ImageMatching? && WellFormed(q)
    ensures forall i :: 0 <= i < |q.images| ==> q.images[i].correct != ""
  {
    forall i | 0 <= i < |q.images|
      ensures q.images[i].correct != ""
    {
      assert HasKey(q.options, FigureAnswers(q.images)[i]);
    }
  }
}
