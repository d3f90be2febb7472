/** Exactly which answers and which questions are accepted, and what is stored of them. */
module CohortRules {
  import opened Prelude
  import opened JsText
  import opened CohortQuestions
  import opened CohortAnswers

  // ----- Answers -----

  /** One line of text, trimmed: something to see, nothing but display characters, and not too long. */
  predicate GoodLine(rules: Rules, raw: string, max: nat) {
    rules.visible(Trim(raw)) && rules.plain(Trim(raw)) && rules.length(Trim(raw)) <= max
  }

  /** Several lines: there only the characters that reorder text are refused. */
  predicate GoodLines(rules: Rules, raw: string, max: nat) {
    rules.visible(Trim(raw)) && rules.noBidi(Trim(raw)) && rules.length(Trim(raw)) <= max
  }

  predicate Empty(raw: Option<string>) { raw == None || Trim(raw.value) == "" }

  predicate NoChoices(a: AnswerInput) { a.choices == None || a.choices.value == [] }

  /** One of the chosen options asks for a detail. */
  predicate AsksDetail(options: seq<Choosable>, ids: seq<string>) {
    exists k :: 0 <= k < |options| && options[k].id in ids && options[k].withDetail
  }

  /** Different options of the question, one of them where only one can be chosen. */
  predicate GoodChoices(q: Question, ids: seq<string>)
    requires q.options.Some?
  {
    && (forall i, j :: 0 <= i < j < |ids| ==> ids[i] != ids[j])
    && (forall id :: id in ids ==> exists k :: 0 <= k < |q.options.value| && q.options.value[k].id == id)
    && (q.kind == SingleChoice ==> |ids| == 1)
  }

  predicate GoodDetail(rules: Rules, q: Question, a: AnswerInput)
    requires q.options.Some? && a.choices.Some?
  {
    AsksDetail(q.options.value, a.choices.value) ==> a.other.Some? && GoodLine(rules, a.other.value, 60)
  }

  /** An answer that is accepted for its question. */
  predicate Acceptable(rules: Rules, q: Question, a: AnswerInput)
    requires q.kind.Choice() ==> q.options.Some?
  {
    match q.kind
    case ShortText => NoChoices(a) && Empty(a.other) && (Shown(rules, a.text) ==> GoodLine(rules, a.text.value, 200))
    case LongText => NoChoices(a) && Empty(a.other) && (Shown(rules, a.text) ==> GoodLines(rules, a.text.value, 2000))
    case _ =>
      Empty(a.text) && (NoChoices(a) || (GoodChoices(q, a.choices.value) && GoodDetail(rules, q, a)))
  }

  /** The text is there and shows something. */
  predicate Shown(rules: Rules, text: Option<string>) { !Empty(text) && rules.visible(text.value) }

  /** It says something: text to see, or a choice. */
  predicate Answered(rules: Rules, q: Question, a: AnswerInput) {
    if q.kind == ShortText || q.kind == LongText then Shown(rules, a.text) else !NoChoices(a)
  }

  /** Only the detail is missing. */
  predicate DetailMissing(rules: Rules, q: Question, a: AnswerInput)
    requires q.kind.Choice() ==> q.options.Some?
  {
    q.kind.Choice() && Empty(a.text) && !NoChoices(a) && GoodChoices(q, a.choices.value) && !GoodDetail(rules, q, a)
  }

  /** What is stored: the trimmed text; or exactly the chosen options in their order, and the trimmed detail if one asks
      for it. */
  ghost predicate StoredAs(q: Question, a: AnswerInput, x: Answer) {
    && x.questionId == q.id && x.kind == q.kind && x.caption == q.caption
    && if q.kind == ShortText || q.kind == LongText then
         a.text.Some? && x.text == Some(Trim(a.text.value)) && x.choices == None && x.other == None
       else
         && x.text == None && x.choices.Some? && FitsChoice(q, x) && a.choices.Some? && q.options.Some?
         && (forall id :: id in a.choices.value <==>
           exists i :: 0 <= i < |x.choices.value| && x.choices.value[i].id == id)
         && (AsksDetail(q.options.value, a.choices.value) ==> a.other.Some? && x.other == Some(Trim(a.other.value)))
         && (!AsksDetail(q.options.value, a.choices.value) ==> x.other == None)
  }

  lemma SetOfHolds(ids: seq<string>)
    ensures forall id :: id in SetOf(ids) <==> id in ids
  {
  }

  lemma DetailIsAsked(q: Question, ids: seq<string>)
    requires q.options.Some? && UniqueOptions(q.options.value)
    ensures SomeDetail(Chosen(q, SetOf(ids))) <==> AsksDetail(q.options.value, ids)
  {
    var options, wanted := q.options.value, SetOf(ids);
    SetOfHolds(ids);
    var ks := OrderedPositions(options, |options|, wanted);
    hide Ordered, SetOf, SomeDetail;
    assert forall i :: 0 <= i < |ks| ==> Chosen(q, wanted)[i] == options[ks[i]];
    DetailIs(q, wanted, ks);
    if k :| 0 <= k < |options| && options[k].id in ids && options[k].withDetail {
      assert k in ks;
      var i :| 0 <= i < |ks| && ks[i] == k;
    }
  }

  lemma ChoicesAreKnown(q: Question, ids: seq<string>)
    requires q.options.Some?
    ensures (forall id :: id in ids ==> exists k :: 0 <= k < |q.options.value| && q.options.value[k].id == id)
      <==> AllKnown(q, SetOf(ids))
  {
    SetOfHolds(ids);
    hide SetOf;
    forall id ensures HasOption(q.options.value, id)
      <==> exists k :: 0 <= k < |q.options.value| && q.options.value[k].id == id {}
  }

  lemma TrimTwice(raw: string)
    ensures Trim(Trim(raw)) == Trim(raw)
  {
    TrimIsTrimmed(raw);
  }

  /** What becomes of one answer, in terms of what was sent. */
  ghost predicate Decided(rules: Rules, q: Question, a: AnswerInput, r: Result<Option<Answer>, Error>)
    requires q.kind.Choice() ==> q.options.Some?
  {
    match r
    case Ok(None) => Acceptable(rules, q, a) && !Answered(rules, q, a)
    case Ok(Some(x)) => Acceptable(rules, q, a) && Answered(rules, q, a) && StoredAs(q, a, x)
    case Err(e) =>
      !Acceptable(rules, q, a) && e == if DetailMissing(rules, q, a) then OtherDetailRequired else AnswersInvalid
  }

  lemma TextIsDecided(rules: Rules, q: Question, a: AnswerInput)
    requires !q.kind.Choice()
    ensures Decided(rules, q, a, BuildAnswer(rules, q, a))
  {
    hide Trim;
    if a.text.Some? { TrimTwice(a.text.value); }
  }

  lemma StoredChoices(q: Question, ids: seq<string>, x: Answer)
    requires q.options.Some? && UniqueOptions(q.options.value) && AllKnown(q, SetOf(ids))
    requires x.choices == Some(AsChoices(Chosen(q, SetOf(ids))))
    ensures forall id :: id in ids <==> exists i :: 0 <= i < |x.choices.value| && x.choices.value[i].id == id
  {
    SetOfHolds(ids);
    ChosenIds(q, SetOf(ids));
    var back := ChoiceIds(x.choices.value);
    SetOfHolds(back);
    hide SetOf, Chosen, AllKnown;
    forall id ensures id in ids <==> exists i :: 0 <= i < |x.choices.value| && x.choices.value[i].id == id {
      assert id in ids <==> id in back;
      if id in ids { var i :| 0 <= i < |back| && back[i] == id; assert x.choices.value[i].id == id; }
    }
  }

  lemma ChoiceIsStored(rules: Rules, q: Question, a: AnswerInput)
    requires ValidQuestion(q) && q.kind.Choice() && a.choices.Some? && a.choices.value != []
    requires BuildChoice(rules, q, a.choices.value, a.other).Ok?
    ensures var r := BuildChoice(rules, q, a.choices.value, a.other).value; r.Some? && StoredAs(q, a, r.value)
  {
    assert UniqueOptions(q.options.value);
    var ids := a.choices.value;
    ChoiceBuilt(rules, q, ids, a.other);
    ChoiceFits(rules, q, ids, a.other);
    DetailIsAsked(q, ids);
    var x := BuildChoice(rules, q, ids, a.other).value.value;
    StoredChoices(q, ids, x);
    assert x.other.Some? ==> a.other.Some? && x.other == Some(Trim(a.other.value)) by { hide Trim, Chosen; }
    hide ValidQuestion, Chosen, SetOf, AllKnown, FitsChoice, AsksDetail, SomeDetail, Trim, BuildChoice;
  }

  lemma ChoiceIsDecided(rules: Rules, q: Question, a: AnswerInput)
    requires ValidQuestion(q) && q.kind.Choice()
    ensures Decided(rules, q, a, BuildAnswer(rules, q, a))
  {
    if Empty(a.text) && !NoChoices(a) {
      hide *;
      SentChoicesAreDecided(rules, q, a);
      ChoiceIsBuilt(rules, q, a);
    } else {
      hide ValidQuestion, Trim, StoredAs, BuildChoice, GoodChoices, GoodDetail;
    }
  }

  lemma ChoiceIsBuilt(rules: Rules, q: Question, a: AnswerInput)
    requires q.kind.Choice() && Empty(a.text) && !NoChoices(a)
    ensures a.choices.Some? && BuildAnswer(rules, q, a) == BuildChoice(rules, q, a.choices.value, a.other)
  {
    hide Trim, BuildChoice;
  }

  lemma SentChoicesAreDecided(rules: Rules, q: Question, a: AnswerInput)
    requires ValidQuestion(q) && q.kind.Choice() && Empty(a.text) && !NoChoices(a)
    ensures a.choices.Some? && q.options.Some?
    ensures Decided(rules, q, a, BuildChoice(rules, q, a.choices.value, a.other))
  {
    var ids := a.choices.value;
    hide *;
    OptionsGiven(q);
    ChosenAtAll(a);
    ChoiceRefusals(rules, q, ids, a.other);
    if BuildChoice(rules, q, ids, a.other).Ok? { ChoiceIsStored(rules, q, a); }
    Decides(rules, q, a, BuildChoice(rules, q, ids, a.other));
  }

  lemma ChosenAtAll(a: AnswerInput)
    requires !NoChoices(a)
    ensures a.choices.Some? && a.choices.value != []
  {
  }

  /** When the sent choices are refused, and why. */
  lemma ChoiceRefusals(rules: Rules, q: Question, ids: seq<string>, detail: Option<string>)
    requires ValidQuestion(q) && q.kind.Choice() && q.options.Some?
    ensures var r := BuildChoice(rules, q, ids, detail);
      var asked := AsksDetail(q.options.value, ids) && (detail == None || !GoodLine(rules, detail.value, 60));
      && (r.Ok? <==> GoodChoices(q, ids) && !asked)
      && (r.Err? ==> r.error == if GoodChoices(q, ids) then OtherDetailRequired else AnswersInvalid)
  {
    assert UniqueOptions(q.options.value);
    hide ValidQuestion, Chosen, SetOf, AllKnown, AsksDetail, SomeDetail, Trim, Ordered, IdPattern, UniqueOptions;
    ChoicesAreKnown(q, ids);
    DetailIsAsked(q, ids);
  }

  lemma Decides(rules: Rules, q: Question, a: AnswerInput, r: Result<Option<Answer>, Error>)
    requires q.kind.Choice() && q.options.Some? && Empty(a.text) && !NoChoices(a) && a.choices.Some?
    requires var asked := AsksDetail(q.options.value, a.choices.value)
        && (a.other == None || !GoodLine(rules, a.other.value, 60));
      && (r.Ok? <==> GoodChoices(q, a.choices.value) && !asked)
      && (r.Err? ==> r.error == if GoodChoices(q, a.choices.value) then OtherDetailRequired else AnswersInvalid)
    requires r.Ok? ==> r.value.Some? && StoredAs(q, a, r.value.value)
    ensures Decided(rules, q, a, r)
  {
    hide StoredAs, GoodChoices, AsksDetail, GoodLine, Trim;
  }

  lemma AnswerIsDecided(rules: Rules, q: Question, a: AnswerInput)
    requires ValidQuestion(q)
    ensures q.kind.Choice() ==> q.options.Some?
    ensures Decided(rules, q, a, BuildAnswer(rules, q, a))
  {
    hide ValidQuestion, BuildAnswer;
    if q.kind.Choice() { OptionsGiven(q); }
    if q.kind.Choice() { ChoiceIsDecided(rules, q, a); } else { TextIsDecided(rules, q, a); }
  }

  lemma OptionsGiven(q: Question)
    requires ValidQuestion(q) && q.kind.Choice()
    ensures q.options.Some?
  {
  }

  /** An answer is accepted exactly if it is acceptable for its question, and then stored as it was sent; that a detail
      is missing is told apart from every other refusal. An accepted answer that says nothing stores nothing, and leaves
      a required question open. */
  lemma WhenAnAnswerIsAccepted(rules: Rules, q: Question, a: AnswerInput)
    requires ValidQuestion(q) && a.questionId == q.id
    ensures q.kind.Choice() ==> q.options.Some?
    ensures match NormalAnswers(rules, [q], [a])
      case Ok(snap) =>
        && Acceptable(rules, q, a) && (q.required ==> Answered(rules, q, a))
        && (if Answered(rules, q, a) then |snap| == 1 && StoredAs(q, a, snap[0]) else snap == [])
      case Err(e) =>
        && (Acceptable(rules, q, a) ==> q.required && !Answered(rules, q, a))
        && e == if DetailMissing(rules, q, a) then OtherDetailRequired else AnswersInvalid
  {
    hide ValidQuestion, BuildAnswer, Acceptable, DetailMissing, StoredAs, Answered;
    AnswerIsDecided(rules, q, a);
    OneSent(rules, q, a);
    if q.kind.Choice() { OptionsGiven(q); }
    MissingIsUnacceptable(rules, q, a);
  }

  lemma MissingIsUnacceptable(rules: Rules, q: Question, a: AnswerInput)
    requires q.kind.Choice() ==> q.options.Some?
    ensures DetailMissing(rules, q, a) ==> !Acceptable(rules, q, a)
  {
    hide Trim, AsksDetail, GoodChoices;
  }

  lemma OneSent(rules: Rules, q: Question, a: AnswerInput)
    requires a.questionId == q.id
    ensures NormalAnswers(rules, [q], [a]) ==
      match BuildAnswer(rules, q, a)
      case Err(e) => Err(e)
      case Ok(None) => if q.required then Err(AnswersInvalid) else Ok([])
      case Ok(Some(x)) => Ok([x])
  {
    hide BuildAnswer;
    var one: seq<AnswerInput> := [a];
    assert KnownQuestion([q], one[0].questionId) by { assert [q][0].id == q.id; }
    assert one[..0] == [] && ByQuestion(one) == map[q.id := a];
    assert [q][1..] == [] && Snapshot(rules, [], ByQuestion(one)) == Ok([]);
    var r := BuildAnswer(rules, q, a);
    assert Built(rules, q, ByQuestion(one)) == r;
    if r.Ok? && r.value.Some? { assert [r.value.value] + [] == [r.value.value]; }
    assert !exists i :: 0 <= i < |one| && !KnownQuestion([q], one[i].questionId);
    assert NormalAnswers(rules, [q], one) == Snapshot(rules, [q], ByQuestion(one));
  }

  // ----- All answers of a call -----

  /** What was sent for question `q` is acceptable, and says something if the question is required. */
  ghost predicate GoodFor(rules: Rules, q: Question, answers: map<string, AnswerInput>)
    requires q.kind.Choice() ==> q.options.Some?
  {
    && (q.id in answers ==> Acceptable(rules, q, answers[q.id]))
    && (q.required ==> q.id in answers && Answered(rules, q, answers[q.id]))
  }

  ghost predicate AllGood(rules: Rules, qs: seq<Question>, answers: map<string, AnswerInput>)
    requires forall k :: 0 <= k < |qs| && qs[k].kind.Choice() ==> qs[k].options.Some?
  {
    forall k :: 0 <= k < |qs| ==> GoodFor(rules, qs[k], answers)
  }

  /** Each entry is what was sent for one of the questions, and each question that was answered has an entry. */
  ghost predicate Holding(rules: Rules, qs: seq<Question>, answers: map<string, AnswerInput>, snap: seq<Answer>) {
    && (forall j :: 0 <= j < |snap| ==> HasQuestion(rules, qs, answers, snap[j]))
    && (forall k :: 0 <= k < |qs| && qs[k].id in answers && Answered(rules, qs[k], answers[qs[k].id]) ==>
      HasEntry(rules, qs[k], answers, snap))
  }

  ghost predicate HasQuestion(rules: Rules, qs: seq<Question>, answers: map<string, AnswerInput>, x: Answer) {
    exists k :: 0 <= k < |qs| && EntryOf(rules, qs[k], answers, x)
  }

  ghost predicate HasEntry(rules: Rules, q: Question, answers: map<string, AnswerInput>, snap: seq<Answer>) {
    exists j :: 0 <= j < |snap| && EntryOf(rules, q, answers, snap[j])
  }

  ghost predicate EntryOf(rules: Rules, q: Question, answers: map<string, AnswerInput>, x: Answer) {
    q.id in answers && Answered(rules, q, answers[q.id]) && StoredAs(q, answers[q.id], x)
  }

  lemma {:induction false} SnapshotIsDecided(rules: Rules, qs: seq<Question>, answers: map<string, AnswerInput>)
    requires forall k :: 0 <= k < |qs| ==> ValidQuestion(qs[k])
    ensures forall k :: 0 <= k < |qs| && qs[k].kind.Choice() ==> qs[k].options.Some?
    ensures Snapshot(rules, qs, answers).Ok? <==> AllGood(rules, qs, answers)
    ensures Snapshot(rules, qs, answers).Ok? ==> Holding(rules, qs, answers, Snapshot(rules, qs, answers).value)
  {
    hide ValidQuestion, BuildAnswer, Acceptable, StoredAs, Answered, DetailMissing;
    forall k | 0 <= k < |qs| && qs[k].kind.Choice() ensures qs[k].options.Some? { OptionsGiven(qs[k]); }
    if qs != [] {
      hide Holding, AllGood;
      var q, rest := qs[0], qs[1..];
      SnapshotIsDecided(rules, rest, answers);
      AllGoodSplits(rules, qs, answers);
      if q.id in answers { AnswerIsDecided(rules, q, answers[q.id]); }
      if Snapshot(rules, qs, answers).Ok? {
        HoldingMore(rules, qs, answers, Snapshot(rules, rest, answers).value, Snapshot(rules, qs, answers).value);
      }
    }
  }

  lemma AllGoodSplits(rules: Rules, qs: seq<Question>, answers: map<string, AnswerInput>)
    requires qs != [] && forall k :: 0 <= k < |qs| && qs[k].kind.Choice() ==> qs[k].options.Some?
    ensures AllGood(rules, qs, answers) <==> GoodFor(rules, qs[0], answers) && AllGood(rules, qs[1..], answers)
  {
    hide GoodFor;
    if GoodFor(rules, qs[0], answers) && AllGood(rules, qs[1..], answers) {
      forall k | 0 <= k < |qs| ensures GoodFor(rules, qs[k], answers) {
        if k > 0 { assert GoodFor(rules, qs[1..][k - 1], answers); }
      }
    }
    if AllGood(rules, qs, answers) {
      forall k | 0 <= k < |qs[1..]| ensures GoodFor(rules, qs[1..][k], answers) {
        assert qs[1..][k] == qs[k + 1];
      }
    }
  }

  lemma HoldingMore(rules: Rules, qs: seq<Question>, answers: map<string, AnswerInput>, rest: seq<Answer>,
      snap: seq<Answer>)
    requires qs != [] && Holding(rules, qs[1..], answers, rest)
    requires if qs[0].id in answers && Answered(rules, qs[0], answers[qs[0].id])
      then snap != [] && EntryOf(rules, qs[0], answers, snap[0]) && snap[1..] == rest else snap == rest
    ensures Holding(rules, qs, answers, snap)
  {
    hide Holding, EntryOf, Answered;
    var n := |snap| - |rest|;
    assert forall j :: 0 <= j < |rest| ==> rest[j] == snap[j + n];
    forall j | 0 <= j < |snap| ensures HasQuestion(rules, qs, answers, snap[j]) {
      if j < n {
        assert EntryOf(rules, qs[0], answers, snap[j]);
      } else {
        EntryHas(rules, qs[1..], answers, rest, j - n);
        var k :| 0 <= k < |qs[1..]| && EntryOf(rules, qs[1..][k], answers, rest[j - n]);
        assert EntryOf(rules, qs[k + 1], answers, snap[j]);
      }
    }
    forall k | 0 <= k < |qs| && qs[k].id in answers && Answered(rules, qs[k], answers[qs[k].id])
      ensures HasEntry(rules, qs[k], answers, snap)
    {
      if k == 0 {
        assert EntryOf(rules, qs[0], answers, snap[0]);
      } else {
        assert qs[1..][k - 1] == qs[k];
        QuestionHas(rules, qs[1..], answers, rest, k - 1);
        var j :| 0 <= j < |rest| && EntryOf(rules, qs[k], answers, rest[j]);
        assert EntryOf(rules, qs[k], answers, snap[j + n]);
      }
    }
    AllHeld(rules, qs, answers, snap);
  }

  lemma EntryHas(rules: Rules, qs: seq<Question>, answers: map<string, AnswerInput>, snap: seq<Answer>, j: nat)
    requires Holding(rules, qs, answers, snap) && j < |snap|
    ensures HasQuestion(rules, qs, answers, snap[j])
  {
    hide EntryOf, Answered;
  }

  lemma QuestionHas(rules: Rules, qs: seq<Question>, answers: map<string, AnswerInput>, snap: seq<Answer>, k: nat)
    requires Holding(rules, qs, answers, snap) && k < |qs|
    requires qs[k].id in answers && Answered(rules, qs[k], answers[qs[k].id])
    ensures HasEntry(rules, qs[k], answers, snap)
  {
    hide EntryOf, Answered;
  }

  lemma AllHeld(rules: Rules, qs: seq<Question>, answers: map<string, AnswerInput>, snap: seq<Answer>)
    requires forall j :: 0 <= j < |snap| ==> HasQuestion(rules, qs, answers, snap[j])
    requires forall k :: 0 <= k < |qs| && qs[k].id in answers && Answered(rules, qs[k], answers[qs[k].id]) ==>
      HasEntry(rules, qs[k], answers, snap)
    ensures Holding(rules, qs, answers, snap)
  {
    hide EntryOf, Answered;
  }

  /** Each answer is acceptable for its question. */
  ghost predicate AllAcceptable(rules: Rules, qs: seq<Question>, input: seq<AnswerInput>)
    requires forall k :: 0 <= k < |qs| && qs[k].kind.Choice() ==> qs[k].options.Some?
  {
    forall i, k :: 0 <= i < |input| && 0 <= k < |qs| && input[i].questionId == qs[k].id ==>
      Acceptable(rules, qs[k], input[i])
  }

  ghost predicate AnsweredBy(rules: Rules, q: Question, input: seq<AnswerInput>) {
    exists i :: 0 <= i < |input| && input[i].questionId == q.id && Answered(rules, q, input[i])
  }

  predicate AllKnownTo(qs: seq<Question>, input: seq<AnswerInput>) {
    forall i :: 0 <= i < |input| ==> exists k :: 0 <= k < |qs| && qs[k].id == input[i].questionId
  }

  /** At most thirty answers, no two to the same question, each to a question there is and acceptable for it, and every
      required question answered. */
  ghost predicate AcceptableCall(rules: Rules, qs: seq<Question>, input: seq<AnswerInput>)
    requires forall k :: 0 <= k < |qs| && qs[k].kind.Choice() ==> qs[k].options.Some?
  {
    && |input| <= 30
    && (forall i, j :: 0 <= i < j < |input| ==> input[i].questionId != input[j].questionId)
    && AllKnownTo(qs, input) && AllAcceptable(rules, qs, input)
    && (forall k :: 0 <= k < |qs| && qs[k].required ==> AnsweredBy(rules, qs[k], input))
  }

  lemma SentIs(input: seq<AnswerInput>, id: string)
    requires OneEach(input)
    ensures id in ByQuestion(input) <==> exists i :: 0 <= i < |input| && input[i].questionId == id
    ensures forall i :: 0 <= i < |input| && input[i].questionId == id ==>
      id in ByQuestion(input) && ByQuestion(input)[id] == input[i]
  {
    ByQuestionIs(input);
    hide ByQuestion;
    if id in ByQuestion(input) { var i :| 0 <= i < |input| && input[i].questionId == id; }
  }

  lemma GoodIsAcceptable(rules: Rules, qs: seq<Question>, input: seq<AnswerInput>)
    requires OneEach(input) && forall k :: 0 <= k < |qs| && qs[k].kind.Choice() ==> qs[k].options.Some?
    ensures AllGood(rules, qs, ByQuestion(input)) <==> (
      && AllAcceptable(rules, qs, input)
      && (forall k :: 0 <= k < |qs| && qs[k].required ==> AnsweredBy(rules, qs[k], input)))
  {
    hide Acceptable, Answered, ByQuestion, OneEach;
    forall id: string
      ensures id in ByQuestion(input) <==> exists i :: 0 <= i < |input| && input[i].questionId == id
      ensures forall i :: 0 <= i < |input| && input[i].questionId == id ==>
        id in ByQuestion(input) && ByQuestion(input)[id] == input[i]
    {
      SentIs(input, id);
    }
    if AllGood(rules, qs, ByQuestion(input)) {
      forall i, k | 0 <= i < |input| && 0 <= k < |qs| && input[i].questionId == qs[k].id
        ensures Acceptable(rules, qs[k], input[i]) {
        assert GoodFor(rules, qs[k], ByQuestion(input));
      }
      forall k | 0 <= k < |qs| && qs[k].required ensures AnsweredBy(rules, qs[k], input) {
        assert GoodFor(rules, qs[k], ByQuestion(input));
      }
    }
  }

  lemma CallIs(rules: Rules, qs: seq<Question>, input: seq<AnswerInput>)
    ensures NormalAnswers(rules, qs, input).Ok? <==> (
      && |input| <= 30 && OneEach(input) && AllKnownTo(qs, input)
      && Snapshot(rules, qs, ByQuestion(input)).Ok?)
    ensures NormalAnswers(rules, qs, input).Ok? ==>
      NormalAnswers(rules, qs, input) == Snapshot(rules, qs, ByQuestion(input))
  {
    hide OneEach, Snapshot, ByQuestion;
    if AllKnownTo(qs, input) {
      assert forall i :: 0 <= i < |input| ==> KnownQuestion(qs, input[i].questionId);
    } else {
      var i :| 0 <= i < |input| && !exists k :: 0 <= k < |qs| && qs[k].id == input[i].questionId;
      assert !KnownQuestion(qs, input[i].questionId);
    }
  }

  /** A whole call is accepted exactly if each answer is acceptable for its own question and every required question is
      answered. */
  lemma WhenAnswersAreAccepted(rules: Rules, qs: seq<Question>, input: seq<AnswerInput>)
    requires ValidQuestions(qs)
    ensures forall k :: 0 <= k < |qs| && qs[k].kind.Choice() ==> qs[k].options.Some?
    ensures NormalAnswers(rules, qs, input).Ok? <==> AcceptableCall(rules, qs, input)
  {
    hide ValidQuestion, Snapshot, ByQuestion, NormalAnswers, AllGood, AllAcceptable, AnsweredBy, AllKnownTo;
    forall k | 0 <= k < |qs| && qs[k].kind.Choice() ensures qs[k].options.Some? { OptionsGiven(qs[k]); }
    SnapshotIsDecided(rules, qs, ByQuestion(input));
    CallIs(rules, qs, input);
    if OneEach(input) { GoodIsAcceptable(rules, qs, input); }
  }

  /** What is stored of an accepted call: for each answer that says something, an entry that is that answer; and nothing
      else. */
  lemma WhatIsStored(rules: Rules, qs: seq<Question>, input: seq<AnswerInput>, k: nat)
    requires ValidQuestions(qs) && NormalAnswers(rules, qs, input).Ok? && k < |qs|
    ensures var snap := NormalAnswers(rules, qs, input).value;
      && (AnsweredBy(rules, qs[k], input) <==> exists j :: 0 <= j < |snap| && snap[j].questionId == qs[k].id)
      && forall i, j :: 0 <= i < |input| && 0 <= j < |snap| && input[i].questionId == snap[j].questionId == qs[k].id ==>
        StoredAs(qs[k], input[i], snap[j])
  {
    hide ValidQuestion, Snapshot, ByQuestion, NormalAnswers, AllGood, Answered, Acceptable;
    SnapshotIsDecided(rules, qs, ByQuestion(input));
    CallIs(rules, qs, input);
    SentIs(input, qs[k].id);
    var snap := NormalAnswers(rules, qs, input).value;
    EntriesAre(rules, qs, ByQuestion(input), snap, k);
  }

  lemma EntriesAre(rules: Rules, qs: seq<Question>, answers: map<string, AnswerInput>, snap: seq<Answer>, k: nat)
    requires Holding(rules, qs, answers, snap) && k < |qs|
    requires forall i, j :: 0 <= i < j < |qs| ==> qs[i].id != qs[j].id
    ensures qs[k].id in answers && Answered(rules, qs[k], answers[qs[k].id])
      <==> exists j :: 0 <= j < |snap| && snap[j].questionId == qs[k].id
    ensures forall j :: 0 <= j < |snap| && snap[j].questionId == qs[k].id ==>
      qs[k].id in answers && StoredAs(qs[k], answers[qs[k].id], snap[j])
  {
    hide Answered, FitsChoice, AsksDetail;
    forall j | 0 <= j < |snap| && snap[j].questionId == qs[k].id ensures EntryOf(rules, qs[k], answers, snap[j]) {
      var m :| 0 <= m < |qs| && EntryOf(rules, qs[m], answers, snap[j]);
      assert m == k;
    }
  }

  // ----- Questions -----

  predicate GoodText(rules: Rules, raw: string, max: nat, multi: bool) {
    if multi then GoodLines(rules, raw, max) else GoodLine(rules, raw, max)
  }

  /** The Korean text is needed, a translation can be left out or blank. */
  predicate GoodLocalized(rules: Rules, raw: Localized, max: nat, multi: bool) {
    && GoodText(rules, raw.ko, max, multi)
    && (Empty(raw.en) || GoodText(rules, raw.en.value, max, multi))
    && (Empty(raw.zh) || GoodText(rules, raw.zh.value, max, multi))
  }

  /** Each text trimmed, and a blank translation dropped. */
  predicate TrimmedTo(raw: Localized, v: Localized) {
    && v.ko == Trim(raw.ko)
    && v.en == (if Empty(raw.en) then None else Some(Trim(raw.en.value)))
    && v.zh == (if Empty(raw.zh) then None else Some(Trim(raw.zh.value)))
  }

  lemma LocalizedIs(rules: Rules, raw: Localized, max: nat, multi: bool)
    ensures LocalizedText(rules, raw, max, multi).Some? <==> GoodLocalized(rules, raw, max, multi)
    ensures GoodLocalized(rules, raw, max, multi) ==> TrimmedTo(raw, LocalizedText(rules, raw, max, multi).value)
  {
    hide Trim;
  }

  /** Stored question `k` is the one an id stands for: the last with it. */
  predicate LastWith(stored: seq<Question>, id: string, k: nat) {
    k < |stored| && stored[k].id == id && forall j :: k < j < |stored| ==> stored[j].id != id
  }

  lemma {:induction false} StoredIs(stored: seq<Question>, id: string)
    ensures Stored(stored, id).Some? <==> exists k :: LastWith(stored, id, k)
    ensures forall k: nat :: LastWith(stored, id, k) ==> Stored(stored, id) == Some(stored[k])
  {
    if stored != [] {
      var n := |stored| - 1;
      var front := stored[..n];
      StoredIs(front, id);
      if stored[n].id == id {
        assert LastWith(stored, id, n);
      } else {
        assert Stored(stored, id) == Stored(front, id);
        forall k: nat ensures LastWith(stored, id, k) <==> LastWith(front, id, k) {
          if LastWith(front, id, k) {
            forall j | k < j < |stored| ensures stored[j].id != id { if j < n { assert front[j] == stored[j]; } }
          }
          if LastWith(stored, id, k) {
            forall j | k < j < n ensures front[j].id != id { assert front[j] == stored[j]; }
          }
        }
      }
    }
  }

  /** An option sent with the id it has in the stored question, or without one. */
  predicate GoodOption(rules: Rules, storedOptions: seq<Choosable>, o: OptionInput) {
    && (o.id.Some? ==>
      IdPattern(o.id.value) && exists k :: 0 <= k < |storedOptions| && storedOptions[k].id == o.id.value)
    && GoodLocalized(rules, o.caption, 60, false)
  }

  /** Two to twenty options, no id twice, and at most one that asks for a detail. */
  predicate GoodOptions(rules: Rules, storedOptions: seq<Choosable>, list: seq<OptionInput>) {
    && 2 <= |list| <= 20
    && (forall i, j :: 0 <= i < j < |list| && list[i].id.Some? ==> list[i].id != list[j].id)
    && (forall i :: 0 <= i < |list| ==> GoodOption(rules, storedOptions, list[i]))
    && (forall i, j :: 0 <= i < j < |list| ==> !(list[i].withDetail == Some(true) && list[j].withDetail == Some(true)))
  }

  predicate OptionStored(o: OptionInput, drawn: string, v: Choosable) {
    && v.id == (if o.id.Some? then o.id.value else drawn) && TrimmedTo(o.caption, v.caption)
    && (v.withDetail <==> o.withDetail == Some(true))
  }

  lemma OptionIs(rules: Rules, storedOptions: seq<Choosable>, o: OptionInput, drawn: string)
    ensures NormalOption(rules, storedOptions, o, drawn).Some? <==> GoodOption(rules, storedOptions, o)
    ensures GoodOption(rules, storedOptions, o) ==>
      OptionStored(o, drawn, NormalOption(rules, storedOptions, o, drawn).value)
  {
    hide LocalizedText, GoodLocalized, TrimmedTo, IdPattern;
    LocalizedIs(rules, o.caption, OPTION_LABEL_MAX, false);
  }

  lemma {:induction false} NoDetail(options: seq<Choosable>)
    ensures WithDetail(options) == 0 <==> forall i :: 0 <= i < |options| ==> !options[i].withDetail
  {
    if options != [] {
      var front := options[..|options| - 1];
      NoDetail(front);
      assert forall i :: 0 <= i < |front| ==> front[i] == options[i];
    }
  }

  lemma {:induction false} AtMostOneDetail(options: seq<Choosable>)
    ensures WithDetail(options) <= 1
      <==> forall i, j :: 0 <= i < j < |options| ==> !(options[i].withDetail && options[j].withDetail)
  {
    if options != [] {
      var front := options[..|options| - 1];
      AtMostOneDetail(front);
      NoDetail(front);
      assert forall i :: 0 <= i < |front| ==> front[i] == options[i];
    }
  }

  lemma ResultsAre(rules: Rules, storedOptions: seq<Choosable>, list: seq<OptionInput>, drawn: seq<string>)
    requires |drawn| == |list|
    ensures var r := OptionResults(rules, storedOptions, list, drawn);
      && All(r).Some? == (forall i :: 0 <= i < |list| ==> GoodOption(rules, storedOptions, list[i]))
      && (All(r).Some? ==> forall i :: 0 <= i < |list| ==> OptionStored(list[i], drawn[i], All(r).value[i]))
  {
    hide NormalOption, GoodOption, OptionStored;
    forall i | 0 <= i < |list|
      ensures NormalOption(rules, storedOptions, list[i], drawn[i]).Some? <==> GoodOption(rules, storedOptions, list[i])
      ensures GoodOption(rules, storedOptions, list[i]) ==>
        OptionStored(list[i], drawn[i], NormalOption(rules, storedOptions, list[i], drawn[i]).value)
    {
      OptionIs(rules, storedOptions, list[i], drawn[i]);
    }
  }

  lemma OptionsAre(rules: Rules, storedOptions: seq<Choosable>, list: seq<OptionInput>, drawn: seq<string>)
    requires |drawn| == |list|
    ensures NormalOptions(rules, storedOptions, list, drawn).Some? <==> GoodOptions(rules, storedOptions, list)
    ensures GoodOptions(rules, storedOptions, list) ==>
      var r := NormalOptions(rules, storedOptions, list, drawn).value;
      |r| == |list| && forall i :: 0 <= i < |list| ==> OptionStored(list[i], drawn[i], r[i])
  {
    hide GoodOption, WithDetail, TrimmedTo, OptionResults, NormalOption;
    ResultsAre(rules, storedOptions, list, drawn);
    var all := All(OptionResults(rules, storedOptions, list, drawn));
    if all.Some? { AtMostOneDetail(all.value); }
  }

  /** The options the stored question of this id has. */
  ghost function OldOptions(stored: seq<Question>, id: Option<string>): seq<Choosable> {
    if id.Some? && exists k: nat :: LastWith(stored, id.value, k) then
      var k: nat :| LastWith(stored, id.value, k);
      if stored[k].options.Some? then stored[k].options.value else []
    else []
  }

  /** A question that is accepted: it keeps the id of a stored one or has none yet, its texts are good, and it has
      options if and only if it is a choice. */
  ghost predicate GoodQuestion(rules: Rules, stored: seq<Question>, raw: QuestionInput) {
    && (raw.id.Some? ==> IdPattern(raw.id.value) && exists k: nat :: LastWith(stored, raw.id.value, k))
    && GoodLocalized(rules, raw.caption, 200, false)
    && (raw.help.Some? ==> GoodLocalized(rules, raw.help.value, 500, true))
    && if raw.kind == SingleChoice || raw.kind == MultiChoice
       then raw.options.Some? && GoodOptions(rules, OldOptions(stored, raw.id), raw.options.value)
       else raw.options.None?
  }

  /** What is stored of it: the id given or drawn, the kind, whether it is required, the trimmed texts, the options. */
  ghost predicate QuestionStored(raw: QuestionInput, drawn: string, drawnOptions: seq<string>, q: Question) {
    && q.id == (if raw.id.Some? then raw.id.value else drawn)
    && q.kind == raw.kind && q.required == raw.required && TrimmedTo(raw.caption, q.caption)
    && (q.help.Some? <==> raw.help.Some?) && (q.help.Some? ==> TrimmedTo(raw.help.value, q.help.value))
    && (q.options.Some? <==> raw.options.Some?)
    && (q.options.Some? ==>
      && |q.options.value| == |raw.options.value| == |drawnOptions|
      && forall i :: 0 <= i < |drawnOptions| ==>
        OptionStored(raw.options.value[i], drawnOptions[i], q.options.value[i]))
  }

  lemma OldOptionsAre(stored: seq<Question>, id: Option<string>)
    ensures var q := if id.Some? then Stored(stored, id.value) else None;
      OldOptions(stored, id) == if q.Some? && q.value.options.Some? then q.value.options.value else []
  {
    if id.Some? { StoredIs(stored, id.value); }
  }

  lemma QuestionIs(rules: Rules, stored: seq<Question>, raw: QuestionInput, drawn: string, drawnOptions: seq<string>)
    requires raw.options.Some? ==> |drawnOptions| == |raw.options.value|
    ensures NormalQuestion(rules, stored, raw, drawn, drawnOptions).Some? <==> GoodQuestion(rules, stored, raw)
    ensures GoodQuestion(rules, stored, raw) ==>
      QuestionStored(raw, drawn, drawnOptions, NormalQuestion(rules, stored, raw, drawn, drawnOptions).value)
  {
    hide LocalizedText, GoodLocalized, IdPattern, Stored, NormalOptions, GoodOptions, OptionStored, TrimmedTo, LastWith,
      OldOptions;
    if raw.id.Some? { StoredIs(stored, raw.id.value); }
    OldOptionsAre(stored, raw.id);
    LocalizedIs(rules, raw.caption, LABEL_MAX, false);
    if raw.help.Some? { LocalizedIs(rules, raw.help.value, HELP_MAX, true); }
    if raw.options.Some? { OptionsAre(rules, OldOptions(stored, raw.id), raw.options.value, drawnOptions); }
  }

  /** A list of questions is accepted exactly if there are at most thirty, no id is given twice, and each question is
      good; then each is stored as it was sent. */
  lemma WhenQuestionsAreAccepted(rules: Rules, stored: seq<Question>, input: seq<QuestionInput>, d: Draws)
    requires FreshDraws(input, d)
    ensures NormalQuestions(rules, stored, input, d).Some? <==> (
      && |input| <= 30
      && (forall i, j :: 0 <= i < j < |input| && input[i].id.Some? ==> input[i].id != input[j].id)
      && (forall i :: 0 <= i < |input| ==> GoodQuestion(rules, stored, input[i])))
    ensures NormalQuestions(rules, stored, input, d).Some? ==>
      var qs := NormalQuestions(rules, stored, input, d).value;
      |qs| == |input| == |d.questions| == |d.options|
      && forall i :: 0 <= i < |input| ==> QuestionStored(input[i], d.questions[i], d.options[i], qs[i])
  {
    hide NormalQuestion, GoodQuestion, QuestionStored;
    forall i | 0 <= i < |input|
      ensures NormalQuestion(rules, stored, input[i], d.questions[i], d.options[i]).Some?
        <==> GoodQuestion(rules, stored, input[i])
      ensures GoodQuestion(rules, stored, input[i]) ==> QuestionStored(input[i], d.questions[i], d.options[i],
        NormalQuestion(rules, stored, input[i], d.questions[i], d.options[i]).value)
    {
      QuestionIs(rules, stored, input[i], d.questions[i], d.options[i]);
    }
  }
}
