/** The answers to a cohort's questions: what validateAnswers makes of an applicant's input. */
module CohortAnswers {
  import opened Prelude
  import opened JsText
  import opened CohortQuestions

  const SHORT_TEXT_MAX := 200
  const LONG_TEXT_MAX := 2000
  const OTHER_MAX := 60
  const ANSWERS_MAX := 30

  datatype AnswerInput = AnswerInput(questionId: string, text: Option<string>, choices: Option<seq<string>>,
      other: Option<string>)

  datatype Choice = Choice(id: string, caption: Localized)

  datatype Answer = Answer(questionId: string, kind: Kind, caption: Localized, text: Option<string>,
      choices: Option<seq<Choice>>, other: Option<string>)

  datatype Error = AnswersInvalid | OtherDetailRequired

  // ----- One answer -----

  predicate Blank(raw: Option<string>) { raw.None? || Trim(raw.value) == "" }

  /** The option `find` returns for an id: the first with it. */
  predicate Found(options: seq<Choosable>, k: nat, id: string) {
    k < |options| && options[k].id == id && forall j :: 0 <= j < k ==> options[j].id != id
  }

  predicate Picked(options: seq<Choosable>, k: nat, ids: set<string>) {
    exists id :: id in ids && Found(options, k, id)
  }

  /** The chosen options in the order of the question. */
  function Ordered(options: seq<Choosable>, n: nat, ids: set<string>): (r: seq<Choosable>)
    requires n <= |options|
    ensures forall o :: o in r ==> o in options
  {
    if n == 0 then [] else Ordered(options, n - 1, ids) + (if Picked(options, n - 1, ids) then [options[n - 1]] else [])
  }

  function Chosen(q: Question, ids: set<string>): seq<Choosable> {
    if q.options.Some? then Ordered(q.options.value, |q.options.value|, ids) else []
  }

  function AsChoices(os: seq<Choosable>): (r: seq<Choice>)
    ensures |r| == |os| && forall i :: 0 <= i < |os| ==> r[i] == Choice(os[i].id, os[i].caption)
  {
    seq(|os|, i requires 0 <= i < |os| => Choice(os[i].id, os[i].caption))
  }

  predicate SomeDetail(os: seq<Choosable>) { exists o :: o in os && o.withDetail }

  predicate AllKnown(q: Question, ids: set<string>) {
    forall id :: id in ids ==> q.options.Some? && HasOption(q.options.value, id)
  }

  function SetOf(ids: seq<string>): set<string> { set i | 0 <= i < |ids| :: ids[i] }

  /** None is "not answered". */
  function BuildAnswer(rules: Rules, q: Question, a: AnswerInput): Result<Option<Answer>, Error> {
    var hasChoices := a.choices.Some? && |a.choices.value| > 0;
    var hasText := !Blank(a.text);
    if !q.kind.Choice() then
      if hasChoices || !Blank(a.other) then Err(AnswersInvalid)
      else if !hasText || !rules.visible(a.text.value) then Ok(None)
      else
        match Line(rules, Trim(a.text.value), if q.kind == ShortText then SHORT_TEXT_MAX else LONG_TEXT_MAX,
          q.kind == LongText)
        case None => Err(AnswersInvalid)
        case Some(text) => Ok(Some(Answer(q.id, q.kind, q.caption, Some(text), None, None)))
    else if hasText then Err(AnswersInvalid)
    else if !hasChoices then Ok(None)
    else BuildChoice(rules, q, a.choices.value, a.other)
  }

  function BuildChoice(rules: Rules, q: Question, ids: seq<string>,
      detail: Option<string>): Result<Option<Answer>, Error> {
    if !Distinct(ids) || (q.kind == SingleChoice && |ids| != 1) || !AllKnown(q, SetOf(ids)) then Err(AnswersInvalid)
    else
      var ordered := Chosen(q, SetOf(ids));
      var other := if detail.Some? then PlainLine(rules, detail.value, OTHER_MAX) else None;
      if SomeDetail(ordered) && other.None? then Err(OtherDetailRequired)
      else Ok(Some(Answer(q.id, q.kind, q.caption, None, Some(AsChoices(ordered)),
        if SomeDetail(ordered) then other else None)))
  }

  // ----- All answers -----

  predicate OneEach(input: seq<AnswerInput>) {
    forall i, j :: 0 <= i < j < |input| ==> input[i].questionId != input[j].questionId
  }

  predicate KnownQuestion(qs: seq<Question>, id: string) { exists k :: 0 <= k < |qs| && qs[k].id == id }

  function ByQuestion(input: seq<AnswerInput>): map<string, AnswerInput> {
    if input == [] then map[] else ByQuestion(input[..|input| - 1])[input[|input| - 1].questionId := input[|input| - 1]]
  }

  function Built(rules: Rules, q: Question, answers: map<string, AnswerInput>): Result<Option<Answer>, Error> {
    if q.id in answers then BuildAnswer(rules, q, answers[q.id]) else Ok(None)
  }

  /** Question by question; the first refusal counts. */
  function Snapshot(rules: Rules, qs: seq<Question>, answers: map<string, AnswerInput>): Result<seq<Answer>, Error> {
    if qs == [] then Ok([])
    else match Built(rules, qs[0], answers)
      case Err(e) => Err(e)
      case Ok(None) => if qs[0].required then Err(AnswersInvalid) else Snapshot(rules, qs[1..], answers)
      case Ok(Some(a)) => match Snapshot(rules, qs[1..], answers) case Ok(rest) => Ok([a] + rest) case Err(e) => Err(e)
  }

  /** The snapshot that is stored. */
  function NormalAnswers(rules: Rules, qs: seq<Question>, input: seq<AnswerInput>): Result<seq<Answer>, Error> {
    if || |input| > ANSWERS_MAX
       || !OneEach(input)
       || exists i :: 0 <= i < |input| && !KnownQuestion(qs, input[i].questionId)
    then Err(AnswersInvalid)
    else Snapshot(rules, qs, ByQuestion(input))
  }

  // ----- The order of answers and choices does not matter -----

  lemma {:induction false} ByQuestionIs(input: seq<AnswerInput>)
    requires OneEach(input)
    ensures forall i :: 0 <= i < |input| ==>
      input[i].questionId in ByQuestion(input) && ByQuestion(input)[input[i].questionId] == input[i]
    ensures forall id :: id in ByQuestion(input) ==> exists i :: 0 <= i < |input| && input[i].questionId == id
  {
    if input != [] {
      var front := input[..|input| - 1];
      ByQuestionIs(front);
      forall i | 0 <= i < |front|
        ensures input[i].questionId in ByQuestion(input) && ByQuestion(input)[input[i].questionId] == input[i] {
        assert front[i] == input[i];
      }
      forall id | id in ByQuestion(input) ensures exists i :: 0 <= i < |input| && input[i].questionId == id {
        if id != input[|input| - 1].questionId {
          assert id in ByQuestion(front);
          var i :| 0 <= i < |front| && front[i].questionId == id;
          assert input[i].questionId == id;
        }
      }
    }
  }

  /** The same answers in another order. */
  predicate Reordered(a: seq<AnswerInput>, b: seq<AnswerInput>) { |a| == |b| && multiset(a) == multiset(b) }

  lemma DistinctByCount(a: seq<AnswerInput>)
    ensures OneEach(a) <==> (Distinct(a) && forall x, y :: x in a && y in a && x.questionId == y.questionId ==> x == y)
  {
    if OneEach(a) {
      forall x, y | x in a && y in a && x.questionId == y.questionId ensures x == y {
        var i :| 0 <= i < |a| && a[i] == x;
        var j :| 0 <= j < |a| && a[j] == y;
        assert a[i].questionId == a[j].questionId;
      }
    } else if Distinct(a) {
      var i, j :| 0 <= i < j < |a| && a[i].questionId == a[j].questionId;
      assert a[i] in a && a[j] in a && a[i] != a[j];
    }
  }

  lemma {:induction false} DistinctIsSimple<T>(a: seq<T>)
    ensures Distinct(a) <==> forall x :: x in a ==> multiset(a)[x] == 1
  {
    if a != [] {
      var n := |a| - 1;
      var front, last := a[..n], a[n];
      assert a == front + [last];
      DistinctIsSimple(front);
      if Distinct(a) {
        assert Distinct(front) by { assert forall i :: 0 <= i < n ==> front[i] == a[i]; }
        forall i | 0 <= i < n ensures front[i] != last { assert front[i] == a[i]; }
      }
      if forall x :: x in a ==> multiset(a)[x] == 1 {
        assert multiset(a)[last] == 1 && last !in front;
        forall x | x in front ensures multiset(front)[x] == 1 { assert x in a; }
        forall i, j | 0 <= i < j < |a| ensures a[i] != a[j] { assert front[i] in front; if j < n {
          assert front[j] == a[j];
          }
        }
      }
    }
  }

  lemma SameElements<T>(a: seq<T>, b: seq<T>)
    requires multiset(a) == multiset(b)
    ensures forall x :: x in a <==> x in b
    ensures Distinct(a) <==> Distinct(b)
  {
    forall x ensures x in a <==> x in b { assert x in multiset(a) <==> x in multiset(b); }
    DistinctIsSimple(a);
    DistinctIsSimple(b);
  }

  lemma OneEachReordered(a: seq<AnswerInput>, b: seq<AnswerInput>)
    requires Reordered(a, b)
    ensures OneEach(a) <==> OneEach(b)
  {
    hide OneEach;
    SameElements(a, b);
    DistinctByCount(a);
    DistinctByCount(b);
  }

  predicate AllAsked(qs: seq<Question>, input: seq<AnswerInput>) {
    forall x :: x in input ==> KnownQuestion(qs, x.questionId)
  }

  lemma AllAskedIs(qs: seq<Question>, input: seq<AnswerInput>)
    ensures AllAsked(qs, input) <==> !exists i :: 0 <= i < |input| && !KnownQuestion(qs, input[i].questionId)
  {
    hide KnownQuestion;
    if !AllAsked(qs, input) {
      var x :| x in input && !KnownQuestion(qs, x.questionId);
      var i :| 0 <= i < |input| && input[i] == x;
    }
  }

  lemma ByQuestionReordered(a: seq<AnswerInput>, b: seq<AnswerInput>)
    requires Reordered(a, b) && OneEach(a) && OneEach(b)
    ensures ByQuestion(a) == ByQuestion(b)
  {
    SameElements(a, b);
    ByQuestionIs(a);
    ByQuestionIs(b);
    var m, n := ByQuestion(a), ByQuestion(b);
    hide ByQuestion, Reordered, OneEach;
    forall id | id in m ensures id in n && n[id] == m[id] {
      var i :| 0 <= i < |a| && a[i].questionId == id;
      assert a[i] in b;
    }
    forall id | id in n ensures id in m {
      var i :| 0 <= i < |b| && b[i].questionId == id;
      assert b[i] in a;
    }
    assert m == n;
  }

  /** Sending the answers in another order changes nothing: not the snapshot, not the refusal. */
  lemma AnswerOrderIsFree(rules: Rules, qs: seq<Question>, a: seq<AnswerInput>, b: seq<AnswerInput>)
    requires Reordered(a, b)
    ensures NormalAnswers(rules, qs, a) == NormalAnswers(rules, qs, b)
  {
    hide Snapshot, KnownQuestion, OneEach, ByQuestion;
    SameElements(a, b);
    OneEachReordered(a, b);
    AllAskedIs(qs, a);
    AllAskedIs(qs, b);
    if OneEach(a) { ByQuestionReordered(a, b); }
  }

  /** The same answer with its choices in another order. */
  predicate ChoicesReordered(a: AnswerInput, b: AnswerInput) {
    && a.questionId == b.questionId && a.text == b.text && a.other == b.other && (a.choices.Some? <==> b.choices.Some?)
    && (a.choices.Some? ==>
      |a.choices.value| == |b.choices.value| && multiset(a.choices.value) == multiset(b.choices.value))
  }

  lemma ChoiceOrderIsFree(rules: Rules, q: Question, a: AnswerInput, b: AnswerInput)
    requires ChoicesReordered(a, b)
    ensures BuildAnswer(rules, q, a) == BuildAnswer(rules, q, b)
  {
    hide AllKnown, Chosen, SomeDetail, PlainLine, Line, Trim;
    if a.choices.Some? {
      SameElements(a.choices.value, b.choices.value);
      assert SetOf(a.choices.value) == SetOf(b.choices.value) by {
        forall x ensures x in SetOf(a.choices.value) <==> x in SetOf(b.choices.value) {
          assert x in SetOf(a.choices.value) <==> x in a.choices.value;
          assert x in SetOf(b.choices.value) <==> x in b.choices.value;
        }
      }
    }
  }

  lemma {:induction false} SnapshotChoiceOrder(rules: Rules, qs: seq<Question>, m: map<string, AnswerInput>,
      n: map<string, AnswerInput>)
    requires m.Keys == n.Keys && forall id :: id in m ==> ChoicesReordered(m[id], n[id])
    ensures Snapshot(rules, qs, m) == Snapshot(rules, qs, n)
  {
    hide BuildAnswer, ChoicesReordered;
    if qs != [] {
      if qs[0].id in m { ChoiceOrderIsFree(rules, qs[0], m[qs[0].id], n[qs[0].id]); }
      SnapshotChoiceOrder(rules, qs[1..], m, n);
    }
  }

  /** Nor does the order of the choices in each answer. */
  lemma ChoiceOrdersAreFree(rules: Rules, qs: seq<Question>, a: seq<AnswerInput>, b: seq<AnswerInput>)
    requires |a| == |b| && forall i :: 0 <= i < |a| ==> ChoicesReordered(a[i], b[i])
    ensures NormalAnswers(rules, qs, a) == NormalAnswers(rules, qs, b)
  {
    hide Snapshot, KnownQuestion;
    assert forall i :: 0 <= i < |a| ==> a[i].questionId == b[i].questionId;
    if OneEach(a) {
      assert OneEach(b);
      ByQuestionIs(a);
      ByQuestionIs(b);
      var m, n := ByQuestion(a), ByQuestion(b);
      forall id | id in m ensures id in n && ChoicesReordered(m[id], n[id]) {
        var i :| 0 <= i < |a| && a[i].questionId == id;
        assert b[i].questionId == id;
      }
      forall id | id in n ensures id in m {
        var i :| 0 <= i < |b| && b[i].questionId == id;
        assert a[i].questionId == id;
      }
      SnapshotChoiceOrder(rules, qs, m, n);
    }
  }

  // ----- What a snapshot is -----

  /** Position `k` of option `o` among the question's options. */
  predicate OptionAt(q: Question, k: nat, c: Choice) {
    q.options.Some? && k < |q.options.value| && q.options.value[k].id == c.id && q.options.value[k].caption == c.caption
  }

  ghost predicate Offered(q: Question, c: Choice) { exists k: nat :: OptionAt(q, k, c) }

  /** An answer to a choice question lists some of its options, in their order, with a detail exactly when one asks for
      it. */
  ghost predicate FitsChoice(q: Question, a: Answer) {
    && a.text.None? && a.choices.Some? && |a.choices.value| > 0
    && (q.kind == SingleChoice ==> |a.choices.value| == 1)
    && (forall i :: 0 <= i < |a.choices.value| ==> Offered(q, a.choices.value[i]))
    && (forall i, j, k: nat, l: nat ::
          0 <= i < j < |a.choices.value| && OptionAt(q, k, a.choices.value[i]) && OptionAt(q, l, a.choices.value[j])
          ==> k < l)
    && (a.other.Some? <==>
          exists i, k: nat ::
            0 <= i < |a.choices.value| && OptionAt(q, k, a.choices.value[i]) && q.options.value[k].withDetail)
  }

  predicate FitsText(q: Question, a: Answer) {
    a.text.Some? && !Blank(a.text) && Trim(a.text.value) == a.text.value && a.choices.None? && a.other.None?
  }

  ghost predicate Fits(q: Question, a: Answer) {
    a.questionId == q.id && a.kind == q.kind && a.caption == q.caption
      && (if q.kind.Choice() then FitsChoice(q, a) else FitsText(q, a))
  }

  function ChoiceIds(cs: seq<Choice>): (r: seq<string>)
    ensures |r| == |cs| && forall i :: 0 <= i < |cs| ==> r[i] == cs[i].id
  {
    seq(|cs|, i requires 0 <= i < |cs| => cs[i].id)
  }

  /** A stored answer sent again. */
  function Resubmit(a: Answer): AnswerInput {
    AnswerInput(a.questionId, a.text, if a.choices.Some? then Some(ChoiceIds(a.choices.value)) else None, a.other)
  }

  function Resubmitted(snap: seq<Answer>): (r: seq<AnswerInput>)
    ensures |r| == |snap| && forall i :: 0 <= i < |snap| ==> r[i] == Resubmit(snap[i])
  {
    seq(|snap|, i requires 0 <= i < |snap| => Resubmit(snap[i]))
  }

  predicate UniqueOptions(options: seq<Choosable>) {
    forall i, j :: 0 <= i < j < |options| ==> options[i].id != options[j].id
  }

  /** `ks` are the positions of the picked options, in order. */
  ghost predicate Positions(options: seq<Choosable>, n: nat, ids: set<string>, ks: seq<nat>) {
    && n <= |options|
    && (forall i :: 0 <= i < |ks| ==> ks[i] < n && options[ks[i]].id in ids)
    && (forall i, j :: 0 <= i < j < |ks| ==> ks[i] < ks[j])
    && (forall k :: 0 <= k < n && options[k].id in ids ==> k in ks)
  }

  lemma {:induction false} OrderedPositions(options: seq<Choosable>, n: nat, ids: set<string>) returns (ks: seq<nat>)
    requires UniqueOptions(options) && n <= |options|
    ensures Positions(options, n, ids, ks) && |Ordered(options, n, ids)| == |ks|
    ensures forall i :: 0 <= i < |ks| ==> Ordered(options, n, ids)[i] == options[ks[i]]
  {
    ks := [];
    if n > 0 {
      ks := OrderedPositions(options, n - 1, ids);
      var o := options[n - 1];
      assert Found(options, n - 1, o.id);
      assert Picked(options, n - 1, ids) <==> o.id in ids;
      if o.id in ids {
        var longer := ks + [n - 1];
        forall k | 0 <= k < n && options[k].id in ids ensures k in longer { if k < n - 1 { assert k in ks; } else {
          assert longer[|ks|] == k;
          }
        }
        ks := longer;
      }
    }
  }

  /** The chosen options are those of the given ids. */
  lemma ChosenIds(q: Question, ids: set<string>)
    requires q.options.Some? && UniqueOptions(q.options.value) && AllKnown(q, ids)
    ensures SetOf(ChoiceIds(AsChoices(Chosen(q, ids)))) == ids && Distinct(ChoiceIds(AsChoices(Chosen(q, ids))))
  {
    hide Ordered;
    var options := q.options.value;
    var ks := OrderedPositions(options, |options|, ids);
    var back := ChoiceIds(AsChoices(Chosen(q, ids)));
    assert forall i :: 0 <= i < |back| ==> back[i] == options[ks[i]].id;
    forall id | id in ids ensures id in SetOf(back) {
      var k :| 0 <= k < |options| && options[k].id == id;
      assert k in ks;
      var i :| 0 <= i < |ks| && ks[i] == k;
      assert back[i] == id;
    }
  }

  lemma {:induction false} DistinctCard(ids: seq<string>)
    requires Distinct(ids)
    ensures |SetOf(ids)| == |ids|
  {
    if ids != [] {
      var front := ids[..|ids| - 1];
      DistinctCard(front);
      assert SetOf(ids) == SetOf(front) + {ids[|ids| - 1]};
    }
  }

  /** What BuildChoice stored, part by part. */
  lemma ChoiceBuilt(rules: Rules, q: Question, ids: seq<string>, detail: Option<string>)
    requires BuildChoice(rules, q, ids, detail).Ok?
    ensures BuildChoice(rules, q, ids, detail).value.Some? && Distinct(ids)
    ensures (q.kind == SingleChoice ==> |ids| == 1) && AllKnown(q, SetOf(ids))
    ensures var a := BuildChoice(rules, q, ids, detail).value.value;
      var os := Chosen(q, SetOf(ids));
      && a.questionId == q.id && a.kind == q.kind && a.caption == q.caption && a.text.None?
        && a.choices == Some(AsChoices(os))
      && (a.other.Some? <==> SomeDetail(os))
      && (a.other.Some? ==> a.other.value != "" && PlainLine(rules, a.other.value, OTHER_MAX) == a.other)
  {
    hide Distinct, AllKnown, Chosen, SomeDetail;
    if detail.Some? && Line(rules, detail.value, OTHER_MAX, false).Some? {
      LineIsFixed(rules, detail.value, OTHER_MAX, false);
    }
  }

  lemma ChoiceFits(rules: Rules, q: Question, ids: seq<string>, detail: Option<string>)
    requires ValidQuestion(q) && q.kind.Choice() && |ids| > 0 && BuildChoice(rules, q, ids, detail).Ok?
    ensures BuildChoice(rules, q, ids, detail).value.Some? && Fits(q, BuildChoice(rules, q, ids, detail).value.value)
  {
    assert UniqueOptions(q.options.value);
    hide IdPattern, Ordered, PlainLine, BuildChoice, Chosen, SomeDetail, AllKnown, ValidQuestion, SetOf;
    ChoiceBuilt(rules, q, ids, detail);
    var a := BuildChoice(rules, q, ids, detail).value.value;
    var wanted := SetOf(ids);
    var ks := OrderedPositions(q.options.value, |q.options.value|, wanted);
    assert forall i :: 0 <= i < |ks| ==> Chosen(q, wanted)[i] == q.options.value[ks[i]] by {
      ChosenIsOrdered(q, wanted);
    }
    assert |Chosen(q, wanted)| == |ks| by { ChosenIsOrdered(q, wanted); }
    ChoiceListed(q, wanted, a.choices.value, ks);
    DetailIs(q, wanted, ks);
    ChoiceCounts(q, ids);
    ListedFits(q, a, ks);
  }

  lemma ChosenIsOrdered(q: Question, ids: set<string>)
    requires q.options.Some?
    ensures Chosen(q, ids) == Ordered(q.options.value, |q.options.value|, ids)
  {
  }

  lemma ListedFits(q: Question, a: Answer, ks: seq<nat>)
    requires a.text.None? && a.choices.Some? && |a.choices.value| > 0
    requires (q.kind == SingleChoice ==> |a.choices.value| == 1)
    requires q.options.Some? && |ks| == |a.choices.value| && forall i :: 0 <= i < |ks| ==> ks[i] < |q.options.value|
    requires forall i, j :: 0 <= i < j < |ks| ==> ks[i] < ks[j]
    requires forall i :: 0 <= i < |ks| ==> OptionAt(q, ks[i], a.choices.value[i])
    requires forall i, k: nat :: 0 <= i < |ks| && OptionAt(q, k, a.choices.value[i]) ==> k == ks[i]
    requires a.other.Some? <==> exists i :: 0 <= i < |ks| && q.options.value[ks[i]].withDetail
    ensures FitsChoice(q, a)
  {
    var cs, options := a.choices.value, q.options.value;
    forall i, j, k: nat, l: nat | 0 <= i < j < |cs| && OptionAt(q, k, cs[i]) && OptionAt(q, l, cs[j]) ensures k < l {
      assert k == ks[i] && l == ks[j];
    }
    forall i | 0 <= i < |cs| ensures Offered(q, cs[i]) { assert OptionAt(q, ks[i], cs[i]); }
    if i :| 0 <= i < |ks| && options[ks[i]].withDetail { assert OptionAt(q, ks[i], cs[i]); }
    if i, k: nat :| 0 <= i < |cs| && OptionAt(q, k, cs[i]) && options[k].withDetail { assert k == ks[i]; }
  }

  /** As many options are chosen as ids were given. */
  lemma ChoiceCounts(q: Question, ids: seq<string>)
    requires q.options.Some? && UniqueOptions(q.options.value) && Distinct(ids) && AllKnown(q, SetOf(ids))
    ensures |Chosen(q, SetOf(ids))| == |ids|
  {
    hide Chosen, SetOf, AllKnown;
    ChosenIds(q, SetOf(ids));
    DistinctCard(ids);
    DistinctCard(ChoiceIds(AsChoices(Chosen(q, SetOf(ids)))));
  }

  /** Sent again, a stored choice answer is stored unchanged. */
  lemma ChoiceResubmits(rules: Rules, q: Question, ids: seq<string>, detail: Option<string>)
    requires ValidQuestion(q) && q.kind.Choice() && |ids| > 0 && BuildChoice(rules, q, ids, detail).Ok?
    ensures BuildChoice(rules, q, ids, detail).value.Some?
    ensures var a := BuildChoice(rules, q, ids, detail).value.value; BuildAnswer(rules, q, Resubmit(a)) == Ok(Some(a))
  {
    assert UniqueOptions(q.options.value);
    ChoiceBuilt(rules, q, ids, detail);
    var a := BuildChoice(rules, q, ids, detail).value.value;
    hide IdPattern, Ordered, Chosen, SomeDetail, AllKnown, ValidQuestion, SetOf, PlainLine;
    var wanted := SetOf(ids);
    ChosenIds(q, wanted);
    ChoiceCounts(q, ids);
    var back := ChoiceIds(a.choices.value);
    assert BuildChoice(rules, q, back, a.other) == Ok(Some(a));
  }

  lemma ChoiceListed(q: Question, ids: set<string>, cs: seq<Choice>, ks: seq<nat>)
    requires q.options.Some? && UniqueOptions(q.options.value) && cs == AsChoices(Chosen(q, ids)) && |ks| == |cs|
    requires Positions(q.options.value, |q.options.value|, ids, ks)
    requires forall i :: 0 <= i < |ks| ==> Chosen(q, ids)[i] == q.options.value[ks[i]]
    ensures forall i :: 0 <= i < |cs| ==> OptionAt(q, ks[i], cs[i])
    ensures forall i, k: nat :: 0 <= i < |cs| && OptionAt(q, k, cs[i]) ==> k == ks[i]
  {
    hide Chosen;
  }

  lemma DetailIs(q: Question, ids: set<string>, ks: seq<nat>)
    requires q.options.Some? && Positions(q.options.value, |q.options.value|, ids, ks) && |Chosen(q, ids)| == |ks|
    requires forall i :: 0 <= i < |ks| ==> Chosen(q, ids)[i] == q.options.value[ks[i]]
    ensures SomeDetail(Chosen(q, ids)) <==> exists i :: 0 <= i < |ks| && q.options.value[ks[i]].withDetail
  {
    hide Chosen;
    var os := Chosen(q, ids);
    if SomeDetail(os) {
      var o :| o in os && o.withDetail;
      var i :| 0 <= i < |os| && os[i] == o;
      assert q.options.value[ks[i]].withDetail;
    }
    if i :| 0 <= i < |ks| && q.options.value[ks[i]].withDetail { assert os[i] in os; }
  }

  lemma TextFits(rules: Rules, q: Question, a: AnswerInput)
    requires !q.kind.Choice() && BuildAnswer(rules, q, a).Ok? && BuildAnswer(rules, q, a).value.Some?
    ensures var b := BuildAnswer(rules, q, a).value.value;
      Fits(q, b) && BuildAnswer(rules, q, Resubmit(b)) == Ok(Some(b))
  {
    hide Trim, Line;
    LineIsFixed(rules, Trim(a.text.value), if q.kind == ShortText then SHORT_TEXT_MAX else LONG_TEXT_MAX,
      q.kind == LongText);
  }

  /** A built answer fits its question, and sent again it is built again. */
  ghost predicate Settled(rules: Rules, q: Question, a: Answer) {
    Fits(q, a) && BuildAnswer(rules, q, Resubmit(a)) == Ok(Some(a))
  }

  lemma BuiltIsSettled(rules: Rules, q: Question, a: AnswerInput)
    requires ValidQuestion(q) && BuildAnswer(rules, q, a).Ok? && BuildAnswer(rules, q, a).value.Some?
    ensures Settled(rules, q, BuildAnswer(rules, q, a).value.value)
  {
    if q.kind.Choice() {
      hide Fits, BuildChoice, ValidQuestion;
      ChoiceFits(rules, q, a.choices.value, a.other);
      ChoiceResubmits(rules, q, a.choices.value, a.other);
    } else {
      hide Fits;
      TextFits(rules, q, a);
    }
  }

  /** The snapshot goes along the questions: each entry answers the next answered question, only optional ones are
      skipped. */
  ghost predicate Follows(rules: Rules, qs: seq<Question>, snap: seq<Answer>)
    decreases |qs|
  {
    if qs == [] then snap == []
    else if snap != [] && snap[0].questionId == qs[0].id
      then Settled(rules, qs[0], snap[0]) && Follows(rules, qs[1..], snap[1..])
    else !qs[0].required && Follows(rules, qs[1..], snap)
  }

  predicate UniqueQuestions(qs: seq<Question>) { forall i, j :: 0 <= i < j < |qs| ==> qs[i].id != qs[j].id }

  lemma {:induction false} FollowsIds(rules: Rules, qs: seq<Question>, snap: seq<Answer>, i: nat)
    requires Follows(rules, qs, snap) && i < |snap|
    ensures exists k :: 0 <= k < |qs| && qs[k].id == snap[i].questionId
    decreases |qs|
  {
    hide Settled;
    if snap[0].questionId == qs[0].id {
      if i > 0 {
        FollowsIds(rules, qs[1..], snap[1..], i - 1);
        var k :| 0 <= k < |qs[1..]| && qs[1..][k].id == snap[i].questionId;
        assert qs[k + 1].id == snap[i].questionId;
      }
    } else {
      FollowsIds(rules, qs[1..], snap, i);
      var k :| 0 <= k < |qs[1..]| && qs[1..][k].id == snap[i].questionId;
      assert qs[k + 1].id == snap[i].questionId;
    }
  }

  lemma {:induction false} SnapshotFollows(rules: Rules, qs: seq<Question>, answers: map<string, AnswerInput>)
    requires UniqueQuestions(qs) && (forall i :: 0 <= i < |qs| ==> ValidQuestion(qs[i]))
    requires Snapshot(rules, qs, answers).Ok?
    ensures Follows(rules, qs, Snapshot(rules, qs, answers).value)
  {
    hide BuildAnswer, ValidQuestion, Settled;
    if qs != [] {
      SnapshotFollows(rules, qs[1..], answers);
      var snap := Snapshot(rules, qs, answers).value;
      if Built(rules, qs[0], answers).value.Some? {
        BuiltIsSettled(rules, qs[0], answers[qs[0].id]);
        assert snap[1..] == Snapshot(rules, qs[1..], answers).value;
        SettledId(rules, qs[0], snap[0]);
      } else if snap != [] {
        FollowsIds(rules, qs[1..], snap, 0);
      }
    }
  }

  lemma SettledId(rules: Rules, q: Question, a: Answer)
    ensures Settled(rules, q, a) ==>
      a.questionId == q.id && Fits(q, a) && BuildAnswer(rules, q, Resubmit(a)) == Ok(Some(a))
  {
  }

  /** `ks` are the positions of the questions a snapshot answers. */
  ghost predicate Answers(rules: Rules, qs: seq<Question>, snap: seq<Answer>, ks: seq<nat>) {
    && |ks| == |snap| && (forall i :: 0 <= i < |ks| ==> ks[i] < |qs| && Settled(rules, qs[ks[i]], snap[i]))
    && (forall i, j :: 0 <= i < j < |ks| ==> ks[i] < ks[j])
    && (forall k :: 0 <= k < |qs| && qs[k].required ==> k in ks)
  }

  function Moved(ks: seq<nat>): (r: seq<nat>)
    ensures |r| == |ks| && forall i :: 0 <= i < |ks| ==> r[i] == ks[i] + 1
  {
    seq(|ks|, i requires 0 <= i < |ks| => ks[i] + 1)
  }

  lemma AnswersSkip(rules: Rules, qs: seq<Question>, snap: seq<Answer>, ks: seq<nat>)
    requires qs != [] && !qs[0].required && Answers(rules, qs[1..], snap, ks)
    ensures Answers(rules, qs, snap, Moved(ks))
  {
    hide Settled;
    forall k | 0 <= k < |qs| && qs[k].required ensures k in Moved(ks) {
      assert qs[1..][k - 1].required;
      var i :| 0 <= i < |ks| && ks[i] == k - 1;
      assert Moved(ks)[i] == k;
    }
  }

  lemma AnswersHit(rules: Rules, qs: seq<Question>, snap: seq<Answer>, ks: seq<nat>)
    requires qs != [] && snap != [] && Settled(rules, qs[0], snap[0]) && Answers(rules, qs[1..], snap[1..], ks)
    ensures Answers(rules, qs, snap, [0] + Moved(ks))
  {
    hide Settled;
    var all := [0] + Moved(ks);
    forall i | 0 <= i < |all| ensures all[i] < |qs| && Settled(rules, qs[all[i]], snap[i]) {
      if i > 0 {
        assert all[i] == ks[i - 1] + 1;
        assert Settled(rules, qs[1..][ks[i - 1]], snap[1..][i - 1]);
        assert snap[1..][i - 1] == snap[i] && qs[1..][ks[i - 1]] == qs[all[i]];
      }
    }
    HitCovers(qs, ks);
  }

  lemma HitCovers(qs: seq<Question>, ks: seq<nat>)
    requires qs != [] && forall k :: 0 <= k < |qs[1..]| && qs[1..][k].required ==> k in ks
    ensures forall k :: 0 <= k < |qs| && qs[k].required ==> k in [0] + Moved(ks)
  {
    var all := [0] + Moved(ks);
    forall k | 0 <= k < |qs| && qs[k].required ensures k in all {
      if k > 0 {
        assert qs[1..][k - 1].required;
        var i :| 0 <= i < |ks| && ks[i] == k - 1;
        assert all[i + 1] == k;
      } else {
        assert all[0] == 0;
      }
    }
  }

  lemma {:induction false} FollowsPositions(rules: Rules, qs: seq<Question>, snap: seq<Answer>) returns (ks: seq<nat>)
    requires Follows(rules, qs, snap)
    ensures Answers(rules, qs, snap, ks)
    decreases |qs|
  {
    hide Settled;
    ks := [];
    if qs != [] {
      hide Answers;
      if snap != [] && snap[0].questionId == qs[0].id {
        ks := FollowsPositions(rules, qs[1..], snap[1..]);
        AnswersHit(rules, qs, snap, ks);
        ks := [0] + Moved(ks);
      } else {
        ks := FollowsPositions(rules, qs[1..], snap);
        AnswersSkip(rules, qs, snap, ks);
        ks := Moved(ks);
      }
    }
  }

  /** A stored snapshot follows the order of the questions, holds an answer to every required one, and each of its
      answers fits its question: choices in the order of the options, a detail exactly when one asks for it. */
  lemma SnapshotIsCanonical(rules: Rules, qs: seq<Question>, input: seq<AnswerInput>) returns (ks: seq<nat>)
    requires ValidQuestions(qs) && NormalAnswers(rules, qs, input).Ok?
    ensures var snap := NormalAnswers(rules, qs, input).value;
      && |ks| == |snap| && (forall i :: 0 <= i < |ks| ==> ks[i] < |qs| && Fits(qs[ks[i]], snap[i]))
      && (forall i, j :: 0 <= i < j < |ks| ==> ks[i] < ks[j])
      && (forall k :: 0 <= k < |qs| && qs[k].required ==> k in ks)
  {
    hide Snapshot, ValidQuestion, Fits, Settled, Follows, ByQuestion, KnownQuestion;
    SnapshotFollows(rules, qs, ByQuestion(input));
    var snap := NormalAnswers(rules, qs, input).value;
    ks := FollowsPositions(rules, qs, snap);
    forall i | 0 <= i < |ks| ensures Fits(qs[ks[i]], snap[i]) { SettledId(rules, qs[ks[i]], snap[i]); }
  }

  // ----- Resubmission -----

  /** The answers at hand for these questions are the entries of the snapshot, sent again. */
  ghost predicate Holds(qs: seq<Question>, snap: seq<Answer>, answers: map<string, AnswerInput>) {
    && (forall i :: 0 <= i < |snap| ==>
      snap[i].questionId in answers && answers[snap[i].questionId] == Resubmit(snap[i]))
    && (forall k :: 0 <= k < |qs| && qs[k].id in answers ==>
      exists i :: 0 <= i < |snap| && snap[i].questionId == qs[k].id)
  }

  lemma HoldsRest(rules: Rules, qs: seq<Question>, snap: seq<Answer>, answers: map<string, AnswerInput>)
    requires qs != [] && UniqueQuestions(qs) && Holds(qs, snap, answers) && snap != [] && snap[0].questionId == qs[0].id
    ensures Holds(qs[1..], snap[1..], answers)
  {
    hide Resubmit;
    forall i | 0 <= i < |snap[1..]|
      ensures snap[1..][i].questionId in answers && answers[snap[1..][i].questionId] == Resubmit(snap[1..][i]) {
      assert snap[1..][i] == snap[i + 1];
    }
    forall k | 0 <= k < |qs[1..]| && qs[1..][k].id in answers
      ensures exists i :: 0 <= i < |snap[1..]| && snap[1..][i].questionId == qs[1..][k].id {
      assert qs[1..][k] == qs[k + 1];
      var i :| 0 <= i < |snap| && snap[i].questionId == qs[k + 1].id;
      assert snap[1..][i - 1].questionId == qs[1..][k].id;
    }
  }

  lemma {:induction false} SnapshotAgain(rules: Rules, qs: seq<Question>, snap: seq<Answer>,
      answers: map<string, AnswerInput>)
    requires UniqueQuestions(qs) && Follows(rules, qs, snap) && Holds(qs, snap, answers)
    ensures Snapshot(rules, qs, answers) == Ok(snap)
    decreases |qs|
  {
    hide Settled, BuildAnswer, Resubmit;
    if qs != [] {
      if snap != [] && snap[0].questionId == qs[0].id {
        SettledId(rules, qs[0], snap[0]);
        HoldsRest(rules, qs, snap, answers);
        SnapshotAgain(rules, qs[1..], snap[1..], answers);
        assert [snap[0]] + snap[1..] == snap;
      } else {
        assert qs[0].id !in answers by {
          forall i: nat | i < |snap| ensures snap[i].questionId != qs[0].id { FollowsIds(rules, qs[1..], snap, i); }
        }
        SnapshotAgain(rules, qs[1..], snap, answers);
      }
    }
  }

  /** Submitting a stored snapshot again stores the same snapshot. */
  lemma ResubmissionIsStable(rules: Rules, qs: seq<Question>, input: seq<AnswerInput>)
    requires ValidQuestions(qs) && NormalAnswers(rules, qs, input).Ok?
    ensures var snap := NormalAnswers(rules, qs, input).value; NormalAnswers(rules, qs, Resubmitted(snap)) == Ok(snap)
  {
    hide Snapshot, ValidQuestion, Settled, Follows, Resubmit;
    var snap := NormalAnswers(rules, qs, input).value;
    SnapshotFollows(rules, qs, ByQuestion(input));
    ResubmittedIsOk(rules, qs, snap);
    SnapshotAgain(rules, qs, snap, ByQuestion(Resubmitted(snap)));
  }

  lemma ResubmittedIsOk(rules: Rules, qs: seq<Question>, snap: seq<Answer>)
    requires UniqueQuestions(qs) && |qs| <= MAX_QUESTIONS && Follows(rules, qs, snap)
    ensures OneEach(Resubmitted(snap)) && |snap| <= ANSWERS_MAX && Holds(qs, snap, ByQuestion(Resubmitted(snap)))
    ensures !exists i :: 0 <= i < |snap| && !KnownQuestion(qs, Resubmitted(snap)[i].questionId)
  {
    hide Follows;
    var ks := FollowsPositions(rules, qs, snap);
    assert forall i :: 0 <= i < |snap| ==> snap[i].questionId == qs[ks[i]].id by {
      hide Fits, BuildAnswer;
      forall i | 0 <= i < |snap| ensures snap[i].questionId == qs[ks[i]].id {
        SettledId(rules, qs[ks[i]], snap[i]);
      }
    }
    assert forall i :: 0 <= i < |ks| ==> ks[i] < |qs|;
    StrictlyBelow(ks, |qs|);
    hide Answers;
    assert OneEach(Resubmitted(snap)) by { hide KnownQuestion; }
    forall i | 0 <= i < |snap| ensures KnownQuestion(qs, Resubmitted(snap)[i].questionId) {
      assert qs[ks[i]].id == Resubmitted(snap)[i].questionId;
    }
    hide KnownQuestion;
    ResubmittedHolds(qs, snap);
  }

  lemma ResubmittedHolds(qs: seq<Question>, snap: seq<Answer>)
    requires OneEach(Resubmitted(snap))
    ensures Holds(qs, snap, ByQuestion(Resubmitted(snap)))
  {
    var again := Resubmitted(snap);
    ByQuestionIs(again);
    var answers := ByQuestion(again);
    hide ByQuestion;
    forall i | 0 <= i < |snap|
      ensures snap[i].questionId in answers && answers[snap[i].questionId] == Resubmit(snap[i]) {
      assert again[i].questionId == snap[i].questionId;
    }
    forall k | 0 <= k < |qs| && qs[k].id in answers
      ensures exists i :: 0 <= i < |snap| && snap[i].questionId == qs[k].id {
      var i :| 0 <= i < |again| && again[i].questionId == qs[k].id;
      assert snap[i].questionId == qs[k].id;
    }
  }

  lemma {:induction false} StrictlyBelow(ks: seq<nat>, n: nat)
    requires (forall i :: 0 <= i < |ks| ==> ks[i] < n) && forall i, j :: 0 <= i < j < |ks| ==> ks[i] < ks[j]
    ensures |ks| <= n
  {
    if ks != [] { StrictlyBelow(ks[..|ks| - 1], ks[|ks| - 1]); }
  }

  // ----- validateAnswers -----

  method ValidateAnswers(rules: Rules, questions: seq<Question>, input: seq<AnswerInput>)
    returns (r: Result<seq<Answer>, Error>)
    ensures r == NormalAnswers(rules, questions, input)
  {
    hide BuildAnswer, KnownQuestion, Snapshot, ByQuestion, OneEach;
    if |input| > ANSWERS_MAX { return Err(AnswersInvalid); }
    var byQuestion: map<string, AnswerInput> := map[];
    var i := 0;
    NoneSent(input);
    while i < |input|
      invariant 0 <= i <= |input| && OneEach(input[..i]) && byQuestion == ByQuestion(input[..i])
    {
      OneMoreSent(input, i);
      if input[i].questionId in byQuestion { return Err(AnswersInvalid); }
      byQuestion := byQuestion[input[i].questionId := input[i]];
      i := i + 1;
    }
    assert input[..|input|] == input;
    ByQuestionIs(input);
    var known := set k | 0 <= k < |questions| :: questions[k].id;
    KnownIds(questions, known);
    var keys := byQuestion.Keys;
    while keys != {}
      invariant keys <= byQuestion.Keys && forall id :: id in byQuestion.Keys - keys ==> KnownQuestion(questions, id)
      decreases keys
    {
      var id :| id in keys;
      if id !in known {
        var j :| 0 <= j < |input| && input[j].questionId == id;
        return Err(AnswersInvalid);
      }
      keys := keys - {id};
    }
    r := Snapshots(rules, questions, byQuestion);
  }

  lemma NoneSent(input: seq<AnswerInput>)
    ensures OneEach(input[..0]) && ByQuestion(input[..0]) == map[]
  {
  }

  /** A question answered twice is found when its second answer is reached. */
  lemma OneMoreSent(input: seq<AnswerInput>, i: nat)
    requires i < |input| && OneEach(input[..i])
    ensures input[i].questionId in ByQuestion(input[..i]) ==> !OneEach(input)
    ensures input[i].questionId !in ByQuestion(input[..i]) ==>
      OneEach(input[..i + 1]) && ByQuestion(input[..i + 1]) == ByQuestion(input[..i])[input[i].questionId := input[i]]
  {
    ByQuestionIs(input[..i]);
    assert input[..i + 1][..i] == input[..i];
    if input[i].questionId in ByQuestion(input[..i]) {
      var j :| 0 <= j < i && input[..i][j].questionId == input[i].questionId;
      assert input[j].questionId == input[i].questionId;
    } else {
      var front, longer := input[..i], input[..i + 1];
      forall j, k | 0 <= j < k < |longer| ensures longer[j].questionId != longer[k].questionId {
        assert longer[j] == front[j];
        if k < i { assert longer[k] == front[k]; } else { assert front[j].questionId in ByQuestion(front); }
      }
    }
  }

  lemma KnownIds(qs: seq<Question>, known: set<string>)
    requires known == set k | 0 <= k < |qs| :: qs[k].id
    ensures forall id :: id in known <==> KnownQuestion(qs, id)
  {
  }

  /** The loop over the questions. */
  method Snapshots(rules: Rules, questions: seq<Question>, byQuestion: map<string, AnswerInput>)
    returns (r: Result<seq<Answer>, Error>)
    ensures r == Snapshot(rules, questions, byQuestion)
  {
    hide BuildAnswer;
    var snapshot: seq<Answer> := [];
    var k := 0;
    assert questions[0..] == questions;
    PrependedNone(Snapshot(rules, questions, byQuestion));
    while k < |questions|
      invariant 0 <= k <= |questions|
      invariant Snapshot(rules, questions, byQuestion)
        == Prepended(snapshot, Snapshot(rules, questions[k..], byQuestion))
    {
      var question := questions[k];
      assert questions[k..][0] == question && questions[k..][1..] == questions[k + 1..];
      var built: Option<Answer> := None;
      if question.id in byQuestion {
        var b := BuildAnswer(rules, question, byQuestion[question.id]);
        if b.Err? { return Err(b.error); }
        built := b.value;
      }
      if built.None? {
        if question.required { return Err(AnswersInvalid); }
      } else {
        PrependedTwice(snapshot, built.value, Snapshot(rules, questions[k + 1..], byQuestion));
        snapshot := snapshot + [built.value];
      }
      k := k + 1;
    }
    assert questions[k..] == [] && snapshot + [] == snapshot;
    return Ok(snapshot);
  }

  lemma PrependedNone(r: Result<seq<Answer>, Error>)
    ensures Prepended([], r) == r
  {
    if r.Ok? { assert [] + r.value == r.value; }
  }

  function Prepended(front: seq<Answer>, r: Result<seq<Answer>, Error>): Result<seq<Answer>, Error> {
    match r case Ok(rest) => Ok(front + rest) case Err(e) => Err(e)
  }

  lemma PrependedTwice(front: seq<Answer>, a: Answer, r: Result<seq<Answer>, Error>)
    ensures Prepended(front, Prepended([a], r)) == Prepended(front + [a], r)
  {
    if r.Ok? { assert front + ([a] + r.value) == front + [a] + r.value; }
  }
}
