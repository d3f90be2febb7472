/** The questions of a cohort: what validateQuestions makes of an operator's list. */
module CohortQuestions {
  import opened Prelude
  import opened JsText

  const MAX_QUESTIONS := 30
  const LABEL_MAX := 200
  const HELP_MAX := 500
  const OPTION_LABEL_MAX := 60
  const OPTION_MIN := 2
  const OPTION_MAX := 20

  // ----- Text -----

  /** hasVisibleText, isPlainDisplayText, hasNoBidiOverride and charLength. */
  datatype TextRules = TextRules(visible: string -> bool, plain: string -> bool, noBidi: string -> bool,
      length: string -> nat)

  /** The empty string shows nothing. */
  type Rules = r: TextRules | !r.visible("") witness TextRules((s: string) => s != "", (s: string) => true,
    (s: string) => true, (s: string) => |s|)

  function PlainLine(rules: Rules, raw: string, max: nat): Option<string> {
    var value := Trim(raw);
    if rules.visible(value) && rules.plain(value) && rules.length(value) <= max then Some(value) else None
  }

  function MultiLine(rules: Rules, raw: string, max: nat): Option<string> {
    var value := Trim(raw);
    if rules.visible(value) && rules.noBidi(value) && rules.length(value) <= max then Some(value) else None
  }

  function Line(rules: Rules, raw: string, max: nat, multi: bool): Option<string> {
    if multi then MultiLine(rules, raw, max) else PlainLine(rules, raw, max)
  }

  /** An accepted line is trimmed, not blank, and accepted again as it is. */
  lemma LineIsFixed(rules: Rules, raw: string, max: nat, multi: bool)
    requires Line(rules, raw, max, multi).Some?
    ensures var v := Line(rules, raw, max, multi).value;
      v != "" && Trim(v) == v && rules.visible(v) && Line(rules, v, max, multi) == Some(v)
  {
    TrimIsTrimmed(raw);
  }

  datatype Localized = Localized(ko: string, en: Option<string>, zh: Option<string>)

  /** A translation that is absent, null or blank is none; any other must be a valid line. */
  function Translation(rules: Rules, raw: Option<string>, max: nat, multi: bool): Option<Option<string>> {
    if raw.None? || Trim(raw.value) == "" then Some(None)
    else match Line(rules, raw.value, max, multi) case Some(v) => Some(Some(v)) case None => None
  }

  function LocalizedText(rules: Rules, raw: Localized, max: nat, multi: bool): Option<Localized> {
    var ko := Line(rules, raw.ko, max, multi);
    var en, zh := Translation(rules, raw.en, max, multi), Translation(rules, raw.zh, max, multi);
    if ko.Some? && en.Some? && zh.Some? then Some(Localized(ko.value, en.value, zh.value)) else None
  }

  lemma LocalizedIsFixed(rules: Rules, raw: Localized, max: nat, multi: bool)
    requires LocalizedText(rules, raw, max, multi).Some?
    ensures var v := LocalizedText(rules, raw, max, multi).value; LocalizedText(rules, v, max, multi) == Some(v)
  {
    hide Line, Trim;
    LineIsFixed(rules, raw.ko, max, multi);
    if raw.en.Some? && Trim(raw.en.value) != "" { LineIsFixed(rules, raw.en.value, max, multi); }
    if raw.zh.Some? && Trim(raw.zh.value) != "" { LineIsFixed(rules, raw.zh.value, max, multi); }
  }

  // ----- Questions -----

  datatype Kind = ShortText | LongText | SingleChoice | MultiChoice
  {
    predicate Choice() { SingleChoice? || MultiChoice? }
  }

  datatype Choosable = Choosable(id: string, caption: Localized, withDetail: bool)

  datatype Question = Question(id: string, kind: Kind, caption: Localized, help: Option<Localized>, required: bool,
      options: Option<seq<Choosable>>)

  datatype OptionInput = OptionInput(id: Option<string>, caption: Localized, withDetail: Option<bool>)

  datatype QuestionInput = QuestionInput(id: Option<string>, kind: Kind, caption: Localized, help: Option<Localized>,
      required: bool, options: Option<seq<OptionInput>>)

  predicate IdChar(c: char) { 'A' <= c <= 'Z' || 'a' <= c <= 'z' || '0' <= c <= '9' || c == '_' || c == '-' }

  /** `^[A-Za-z0-9_-]{1,40}$`. */
  predicate IdPattern(id: string) { 1 <= |id| <= 40 && forall i :: 0 <= i < |id| ==> IdChar(id[i]) }

  predicate Distinct<T(==)>(xs: seq<T>) { forall i, j :: 0 <= i < j < |xs| ==> xs[i] != xs[j] }

  /** No two of the given ids are equal. */
  predicate GivenDistinct(ids: seq<Option<string>>) {
    forall i, j :: 0 <= i < j < |ids| && ids[i].Some? ==> ids[i] != ids[j]
  }

  /** What newId promises of the ids it makes for the entries that came without one: well formed, not among the given
      ids, and not made twice. */
  predicate FreshFor(given: seq<Option<string>>, drawn: seq<string>) {
    && |drawn| == |given|
    && (forall i :: 0 <= i < |given| && given[i].None? ==> IdPattern(drawn[i]) && Some(drawn[i]) !in given)
    && (forall i, j :: 0 <= i < j < |given| && given[i].None? && given[j].None? ==> drawn[i] != drawn[j])
  }

  function OptionIds(list: seq<OptionInput>): (r: seq<Option<string>>)
    ensures |r| == |list| && forall i :: 0 <= i < |list| ==> r[i] == list[i].id
  {
    seq(|list|, i requires 0 <= i < |list| => list[i].id)
  }

  function QuestionIds(input: seq<QuestionInput>): (r: seq<Option<string>>)
    ensures |r| == |input| && forall i :: 0 <= i < |input| ==> r[i] == input[i].id
  {
    seq(|input|, i requires 0 <= i < |input| => input[i].id)
  }

  /** The random ids of one call: one for each question, and for each question's options. */
  datatype Draws = Draws(questions: seq<string>, options: seq<seq<string>>)

  predicate FreshDraws(input: seq<QuestionInput>, d: Draws) {
    && FreshFor(QuestionIds(input), d.questions)
    && |d.options| == |input|
    && (forall i :: 0 <= i < |input| && input[i].options.Some? ==>
      FreshFor(OptionIds(input[i].options.value), d.options[i]))
  }

  /** storedById: of stored questions with one id the last counts. */
  function Stored(stored: seq<Question>, id: string): Option<Question> {
    if stored == [] then None
    else if stored[|stored| - 1].id == id then Some(stored[|stored| - 1])
    else Stored(stored[..|stored| - 1], id)
  }

  predicate HasOption(options: seq<Choosable>, id: string) { exists i :: 0 <= i < |options| && options[i].id == id }

  function NormalOption(rules: Rules, storedOptions: seq<Choosable>, o: OptionInput, drawn: string): Option<Choosable> {
    if o.id.Some? && !(IdPattern(o.id.value) && HasOption(storedOptions, o.id.value)) then None
    else match LocalizedText(rules, o.caption, OPTION_LABEL_MAX, false)
      case None => None
      case Some(caption) => Some(Choosable(if o.id.Some? then o.id.value else drawn, caption,
        o.withDetail == Some(true)))
  }

  /** All of them, or none if one is refused. */
  function All<T>(xs: seq<Option<T>>): (r: Option<seq<T>>)
    ensures r.Some? <==> forall i :: 0 <= i < |xs| ==> xs[i].Some?
    ensures r.Some? ==> |r.value| == |xs| && forall i :: 0 <= i < |xs| ==> r.value[i] == xs[i].value
  {
    if xs == [] then Some([])
    else if xs[0].None? then None
    else match All(xs[1..]) case Some(rest) => Some([xs[0].value] + rest) case None => None
  }

  function WithDetail(options: seq<Choosable>): nat {
    if options == [] then 0
    else WithDetail(options[..|options| - 1]) + (if options[|options| - 1].withDetail then 1 else 0)
  }

  function OptionResults(rules: Rules, storedOptions: seq<Choosable>, list: seq<OptionInput>,
      drawn: seq<string>): (r: seq<Option<Choosable>>)
    requires |drawn| == |list|
    ensures |r| == |list| && forall i :: 0 <= i < |list| ==>
      r[i] == NormalOption(rules, storedOptions, list[i], drawn[i])
  {
    seq(|list|, i requires 0 <= i < |list| => NormalOption(rules, storedOptions, list[i], drawn[i]))
  }

  function NormalOptions(rules: Rules, storedOptions: seq<Choosable>, list: seq<OptionInput>,
      drawn: seq<string>): Option<seq<Choosable>>
    requires |drawn| == |list|
  {
    if !(OPTION_MIN <= |list| <= OPTION_MAX) || !GivenDistinct(OptionIds(list)) then None
    else match All(OptionResults(rules, storedOptions, list, drawn))
      case None => None
      case Some(options) => if WithDetail(options) > 1 then None else Some(options)
  }

  function NormalQuestion(rules: Rules, stored: seq<Question>, raw: QuestionInput, drawn: string,
      drawnOptions: seq<string>): Option<Question>
    requires raw.options.Some? ==> |drawnOptions| == |raw.options.value|
  {
    var existing := if raw.id.Some? then Stored(stored, raw.id.value) else None;
    if raw.id.Some? && !(IdPattern(raw.id.value) && existing.Some?) then None
    else
      var id := if raw.id.Some? then raw.id.value else drawn;
      var storedOptions := if existing.Some? && existing.value.options.Some? then existing.value.options.value else [];
      match LocalizedText(rules, raw.caption, LABEL_MAX, false)
      case None => None
      case Some(caption) =>
        var help := if raw.help.None? then Some(None) else
          match LocalizedText(rules, raw.help.value, HELP_MAX, true) case Some(h) => Some(Some(h)) case None => None;
        if help.None? then None
        else if !raw.kind.Choice() then
          if raw.options.Some? then None else Some(Question(id, raw.kind, caption, help.value, raw.required, None))
        else if raw.options.None? then None
        else match NormalOptions(rules, storedOptions, raw.options.value, drawnOptions)
          case None => None
          case Some(options) => Some(Question(id, raw.kind, caption, help.value, raw.required, Some(options)))
  }

  function QuestionResults(rules: Rules, stored: seq<Question>, input: seq<QuestionInput>,
      d: Draws): (r: seq<Option<Question>>)
    requires FreshDraws(input, d)
    ensures |r| == |input|
    ensures forall i :: 0 <= i < |input| ==>
      r[i] == NormalQuestion(rules, stored, input[i], d.questions[i], d.options[i])
  {
    seq(|input|, i requires 0 <= i < |input| => NormalQuestion(rules, stored, input[i], d.questions[i], d.options[i]))
  }

  /** The normalised list; none is the 400 COHORT_QUESTIONS_INVALID. */
  function NormalQuestions(rules: Rules, stored: seq<Question>, input: seq<QuestionInput>,
      d: Draws): Option<seq<Question>>
    requires FreshDraws(input, d)
  {
    if |input| > MAX_QUESTIONS || !GivenDistinct(QuestionIds(input)) then None
    else All(QuestionResults(rules, stored, input, d))
  }

  // ----- What an accepted list is -----

  predicate ValidOptions(options: seq<Choosable>) {
    && OPTION_MIN <= |options| <= OPTION_MAX
    && (forall i, j :: 0 <= i < j < |options| ==> options[i].id != options[j].id)
    && (forall i :: 0 <= i < |options| ==> IdPattern(options[i].id))
    && WithDetail(options) <= 1
  }

  predicate ValidQuestion(q: Question) {
    IdPattern(q.id) && (if q.kind.Choice() then q.options.Some? && ValidOptions(q.options.value) else q.options.None?)
  }

  predicate ValidQuestions(qs: seq<Question>) {
    && |qs| <= MAX_QUESTIONS
    && (forall i, j :: 0 <= i < j < |qs| ==> qs[i].id != qs[j].id)
    && (forall i :: 0 <= i < |qs| ==> ValidQuestion(qs[i]))
  }

  lemma OptionsAreValid(rules: Rules, storedOptions: seq<Choosable>, list: seq<OptionInput>, drawn: seq<string>)
    requires FreshFor(OptionIds(list), drawn) && NormalOptions(rules, storedOptions, list, drawn).Some?
    ensures ValidOptions(NormalOptions(rules, storedOptions, list, drawn).value)
  {
    hide LocalizedText, IdPattern, HasOption, WithDetail;
    var options := NormalOptions(rules, storedOptions, list, drawn).value;
    forall i | 0 <= i < |list|
      ensures options[i].id == (if list[i].id.Some? then list[i].id.value else drawn[i]) && IdPattern(options[i].id) {
      assert OptionResults(rules, storedOptions, list, drawn)[i].Some?;
    }
    forall i, j | 0 <= i < j < |list| ensures options[i].id != options[j].id {
      var ids := OptionIds(list);
      assert ids[i] in ids && ids[j] in ids;
    }
  }

  lemma QuestionIsValid(rules: Rules, stored: seq<Question>, raw: QuestionInput, drawn: string,
      drawnOptions: seq<string>)
    requires raw.options.Some? ==> FreshFor(OptionIds(raw.options.value), drawnOptions)
    requires raw.id.None? ==> IdPattern(drawn)
    requires NormalQuestion(rules, stored, raw, drawn, drawnOptions).Some?
    ensures var q := NormalQuestion(rules, stored, raw, drawn, drawnOptions).value;
      ValidQuestion(q) && q.id == (if raw.id.Some? then raw.id.value else drawn)
  {
    hide LocalizedText, IdPattern, Stored, NormalOptions, ValidOptions;
    if raw.kind.Choice() {
      var existing := if raw.id.Some? then Stored(stored, raw.id.value) else None;
      var storedOptions :=
        if existing.Some? && existing.value.options.Some? then existing.value.options.value else [];
      OptionsAreValid(rules, storedOptions, raw.options.value, drawnOptions);
    }
  }

  /** An accepted list has unique ids, of questions and of the options of each, and meets every limit. */
  lemma AcceptedIsValid(rules: Rules, stored: seq<Question>, input: seq<QuestionInput>, d: Draws)
    requires FreshDraws(input, d) && NormalQuestions(rules, stored, input, d).Some?
    ensures ValidQuestions(NormalQuestions(rules, stored, input, d).value)
  {
    hide NormalQuestion, IdPattern, ValidQuestion;
    var qs := NormalQuestions(rules, stored, input, d).value;
    forall i | 0 <= i < |qs|
      ensures ValidQuestion(qs[i]) && qs[i].id == (if input[i].id.Some? then input[i].id.value else d.questions[i]) {
      assert QuestionResults(rules, stored, input, d)[i].Some?;
      QuestionIsValid(rules, stored, input[i], d.questions[i], d.options[i]);
    }
    forall i, j | 0 <= i < j < |qs| ensures qs[i].id != qs[j].id {
      var ids := QuestionIds(input);
      assert ids[i] in ids && ids[j] in ids;
    }
  }

  // ----- Fed back, it is a fixed point -----

  function OptionAsInput(o: Choosable): OptionInput { OptionInput(Some(o.id), o.caption, Some(o.withDetail)) }

  function OptionsAsInput(options: seq<Choosable>): (r: seq<OptionInput>)
    ensures |r| == |options| && forall i :: 0 <= i < |options| ==> r[i] == OptionAsInput(options[i])
  {
    seq(|options|, i requires 0 <= i < |options| => OptionAsInput(options[i]))
  }

  function AsInput(q: Question): QuestionInput {
    QuestionInput(Some(q.id), q.kind, q.caption, q.help, q.required,
      if q.options.Some? then Some(OptionsAsInput(q.options.value)) else None)
  }

  function AsInputs(qs: seq<Question>): (r: seq<QuestionInput>)
    ensures |r| == |qs| && forall i :: 0 <= i < |qs| ==> r[i] == AsInput(qs[i])
  {
    seq(|qs|, i requires 0 <= i < |qs| => AsInput(qs[i]))
  }

  /** All texts of a question are accepted as they are. */
  predicate TextsFixed(rules: Rules, q: Question) {
    && LocalizedText(rules, q.caption, LABEL_MAX, false) == Some(q.caption)
    && (q.help.Some? ==> LocalizedText(rules, q.help.value, HELP_MAX, true) == Some(q.help.value))
    && (q.options.Some? ==> forall i :: 0 <= i < |q.options.value| ==>
          LocalizedText(rules, q.options.value[i].caption, OPTION_LABEL_MAX, false) == Some(q.options.value[i].caption))
  }

  lemma AcceptedTextsAreFixed(rules: Rules, stored: seq<Question>, raw: QuestionInput, drawn: string,
      drawnOptions: seq<string>)
    requires raw.options.Some? ==> |drawnOptions| == |raw.options.value|
    requires NormalQuestion(rules, stored, raw, drawn, drawnOptions).Some?
    ensures TextsFixed(rules, NormalQuestion(rules, stored, raw, drawn, drawnOptions).value)
  {
    hide LocalizedText, IdPattern, Stored, HasOption, WithDetail;
    LocalizedIsFixed(rules, raw.caption, LABEL_MAX, false);
    if raw.help.Some? { LocalizedIsFixed(rules, raw.help.value, HELP_MAX, true); }
    if raw.kind.Choice() {
      var list := raw.options.value;
      var existing := if raw.id.Some? then Stored(stored, raw.id.value) else None;
      var storedOptions :=
        if existing.Some? && existing.value.options.Some? then existing.value.options.value else [];
      var results := OptionResults(rules, storedOptions, list, drawnOptions);
      forall i | 0 <= i < |list| ensures LocalizedText(rules, list[i].caption, OPTION_LABEL_MAX, false).Some? {
        assert results[i].Some?;
      }
      forall i | 0 <= i < |list|
        ensures var l := LocalizedText(rules, list[i].caption, OPTION_LABEL_MAX, false).value;
          LocalizedText(rules, l, OPTION_LABEL_MAX, false) == Some(l) {
        LocalizedIsFixed(rules, list[i].caption, OPTION_LABEL_MAX, false);
      }
    }
  }

  lemma OptionsFixed(rules: Rules, options: seq<Choosable>, drawn: seq<string>)
    requires ValidOptions(options) && |drawn| == |options|
    requires forall i :: 0 <= i < |options| ==>
      LocalizedText(rules, options[i].caption, OPTION_LABEL_MAX, false) == Some(options[i].caption)
    ensures NormalOptions(rules, options, OptionsAsInput(options), drawn) == Some(options)
  {
    hide LocalizedText, IdPattern, WithDetail;
    var list := OptionsAsInput(options);
    var results := OptionResults(rules, options, list, drawn);
    forall i | 0 <= i < |options| ensures results[i] == Some(options[i]) { assert HasOption(options, options[i].id); }
    assert All(results).value == options;
  }

  lemma {:induction false} StoredIs(qs: seq<Question>, i: nat)
    requires i < |qs| && forall k, j :: 0 <= k < j < |qs| ==> qs[k].id != qs[j].id
    ensures Stored(qs, qs[i].id) == Some(qs[i])
  {
    if i < |qs| - 1 { StoredIs(qs[..|qs| - 1], i); }
  }

  lemma QuestionFixed(rules: Rules, qs: seq<Question>, i: nat, drawn: string, drawnOptions: seq<string>)
    requires i < |qs| && ValidQuestions(qs) && TextsFixed(rules, qs[i])
    requires qs[i].options.Some? ==> |drawnOptions| == |qs[i].options.value|
    ensures NormalQuestion(rules, qs, AsInput(qs[i]), drawn, drawnOptions) == Some(qs[i])
  {
    hide LocalizedText, IdPattern, Stored, NormalOptions, ValidOptions, OptionsAsInput;
    StoredIs(qs, i);
    assert ValidQuestion(qs[i]);
    if qs[i].options.Some? { OptionsFixed(rules, qs[i].options.value, drawnOptions); }
  }

  /** Sent back against itself, an accepted list is accepted unchanged, whatever ids would be drawn. */
  lemma AcceptedIsFixed(rules: Rules, stored: seq<Question>, input: seq<QuestionInput>, d: Draws, d': Draws)
    requires FreshDraws(input, d) && NormalQuestions(rules, stored, input, d).Some?
    requires FreshDraws(AsInputs(NormalQuestions(rules, stored, input, d).value), d')
    ensures var qs := NormalQuestions(rules, stored, input, d).value;
      NormalQuestions(rules, qs, AsInputs(qs), d') == Some(qs)
  {
    hide NormalQuestion, ValidQuestion, TextsFixed;
    var qs := NormalQuestions(rules, stored, input, d).value;
    AcceptedIsValid(rules, stored, input, d);
    var again := QuestionResults(rules, qs, AsInputs(qs), d');
    forall i | 0 <= i < |qs| ensures again[i] == Some(qs[i]) {
      assert QuestionResults(rules, stored, input, d)[i].Some?;
      AcceptedTextsAreFixed(rules, stored, input[i], d.questions[i], d.options[i]);
      QuestionFixed(rules, qs, i, d'.questions[i], d'.options[i]);
    }
    assert All(again).value == qs;
  }

  // ----- validateQuestions -----

  /** The loop over the options of one choice question. */
  method NormalizeOptions(rules: Rules, storedOptions: seq<Choosable>, list: seq<OptionInput>, drawn: seq<string>)
    returns (r: Option<seq<Choosable>>)
    requires FreshFor(OptionIds(list), drawn)
    ensures r == NormalOptions(rules, storedOptions, list, drawn)
  {
    hide LocalizedText, IdPattern, HasOption, WithDetail;
    if |list| < OPTION_MIN || |list| > OPTION_MAX || !GivenDistinct(OptionIds(list)) { return None; }
    var seen: set<string> := {};
    var options: seq<Choosable> := [];
    ghost var results := OptionResults(rules, storedOptions, list, drawn);
    var i := 0;
    while i < |list|
      invariant 0 <= i <= |list| == |results| && |options| == i
      invariant forall k :: 0 <= k < i ==> results[k] == Some(options[k])
      invariant seen == (set k | 0 <= k < i :: options[k].id)
      invariant forall k :: 0 <= k < i ==> options[k].id == (if list[k].id.Some? then list[k].id.value else drawn[k])
    {
      var o := list[i];
      assert results[i] == NormalOption(rules, storedOptions, o, drawn[i]);
      var id;
      if o.id.Some? {
        SeenNever(OptionIds(list), drawn, i, o.id.value);
        if !IdPattern(o.id.value) || !HasOption(storedOptions, o.id.value) || o.id.value in seen { return None; }
        id := o.id.value;
      } else {
        id := drawn[i];
      }
      seen := seen + {id};
      var caption := LocalizedText(rules, o.caption, OPTION_LABEL_MAX, false);
      if caption.None? { return None; }
      options := options + [Choosable(id, caption.value, o.withDetail == Some(true))];
      i := i + 1;
    }
    assert All(results).value == options;
    if WithDetail(options) > 1 { return None; }
    return Some(options);
  }

  /** A given id that passed the first check cannot have been seen: the later check never fires. */
  lemma SeenNever(given: seq<Option<string>>, drawn: seq<string>, i: nat, id: string)
    requires FreshFor(given, drawn) && GivenDistinct(given) && i < |given| && given[i] == Some(id)
    ensures forall k :: 0 <= k < i ==> id != (if given[k].Some? then given[k].value else drawn[k])
  {
    forall k | 0 <= k < i ensures id != (if given[k].Some? then given[k].value else drawn[k]) {
      assert given[i] in given;
    }
  }

  /** The body of the loop over the questions; `seen` are the ids of the questions before this one. */
  method NormalizeQuestion(rules: Rules, stored: seq<Question>, raw: QuestionInput, drawn: string,
      drawnOptions: seq<string>, seen: set<string>)
    returns (r: Option<Question>)
    requires raw.options.Some? ==> FreshFor(OptionIds(raw.options.value), drawnOptions)
    ensures r == if raw.id.Some? && raw.id.value in seen then None
      else NormalQuestion(rules, stored, raw, drawn, drawnOptions)
  {
    hide LocalizedText, IdPattern, Stored, NormalOptions;
    var existing: Option<Question>, id := None, drawn;
    if raw.id.Some? {
      if !IdPattern(raw.id.value) { return None; }
      existing := Stored(stored, raw.id.value);
      if existing.None? || raw.id.value in seen { return None; }
      id := raw.id.value;
    }
    var caption := LocalizedText(rules, raw.caption, LABEL_MAX, false);
    if caption.None? { return None; }
    var help: Option<Localized> := None;
    if raw.help.Some? {
      help := LocalizedText(rules, raw.help.value, HELP_MAX, true);
      if help.None? { return None; }
    }
    var options: Option<seq<Choosable>> := None;
    if raw.kind.Choice() {
      if raw.options.None? { return None; }
      var storedOptions := if existing.Some? && existing.value.options.Some? then existing.value.options.value else [];
      options := NormalizeOptions(rules, storedOptions, raw.options.value, drawnOptions);
      if options.None? { return None; }
    } else if raw.options.Some? {
      return None;
    }
    return Some(Question(id, raw.kind, caption.value, help, raw.required, options));
  }

  function IdAt(given: seq<Option<string>>, drawn: seq<string>, k: nat): string
    requires k < |given| == |drawn|
  {
    if given[k].Some? then given[k].value else drawn[k]
  }

  ghost function SeenIds(given: seq<Option<string>>, drawn: seq<string>, i: nat): set<string>
    requires i <= |given| == |drawn|
  {
    if i == 0 then {} else SeenIds(given, drawn, i - 1) + {IdAt(given, drawn, i - 1)}
  }

  lemma {:induction false} SeenIdsAre(given: seq<Option<string>>, drawn: seq<string>, i: nat, id: string)
    requires i <= |given| == |drawn| && forall k :: 0 <= k < i ==> id != IdAt(given, drawn, k)
    ensures id !in SeenIds(given, drawn, i)
  {
    if i > 0 { SeenIdsAre(given, drawn, i - 1, id); }
  }

  lemma GivenIsUnseen(given: seq<Option<string>>, drawn: seq<string>, i: nat)
    requires FreshFor(given, drawn) && GivenDistinct(given) && i < |given| && given[i].Some?
    ensures given[i].value !in SeenIds(given, drawn, i)
  {
    SeenNever(given, drawn, i, given[i].value);
    SeenIdsAre(given, drawn, i, given[i].value);
  }

  lemma DrawsFit(input: seq<QuestionInput>, d: Draws)
    requires FreshDraws(input, d)
    ensures FreshFor(QuestionIds(input), d.questions) && |d.questions| == |d.options| == |input|
    ensures forall i :: 0 <= i < |input| && input[i].options.Some? ==>
      FreshFor(OptionIds(input[i].options.value), d.options[i])
    ensures forall i :: 0 <= i < |input| && input[i].options.Some? ==> |d.options[i]| == |input[i].options.value|
  {
  }

  lemma Refuses(rules: Rules, stored: seq<Question>, input: seq<QuestionInput>, d: Draws, i: nat)
    requires FreshDraws(input, d) && i < |input|
    requires NormalQuestion(rules, stored, input[i], d.questions[i], d.options[i]).None?
    ensures NormalQuestions(rules, stored, input, d) == None
  {
    hide NormalQuestion, FreshDraws;
    assert QuestionResults(rules, stored, input, d)[i].None?;
  }

  /** The questions normalised so far. */
  ghost predicate SoFar(rules: Rules, stored: seq<Question>, input: seq<QuestionInput>, d: Draws, qs: seq<Question>)
    requires FreshDraws(input, d)
  {
    |qs| <= |input| && forall k :: 0 <= k < |qs| ==>
      NormalQuestion(rules, stored, input[k], d.questions[k], d.options[k]) == Some(qs[k])
  }

  lemma OneMore(rules: Rules, stored: seq<Question>, input: seq<QuestionInput>, d: Draws, qs: seq<Question>,
      q: Question)
    requires FreshDraws(input, d) && SoFar(rules, stored, input, d, qs) && |qs| < |input|
    requires NormalQuestion(rules, stored, input[|qs|], d.questions[|qs|], d.options[|qs|]) == Some(q)
    ensures SoFar(rules, stored, input, d, qs + [q])
  {
    hide NormalQuestion;
  }

  lemma Accepts(rules: Rules, stored: seq<Question>, input: seq<QuestionInput>, d: Draws, qs: seq<Question>)
    requires FreshDraws(input, d) && |input| <= MAX_QUESTIONS && GivenDistinct(QuestionIds(input)) && |qs| == |input|
    requires SoFar(rules, stored, input, d, qs)
    ensures NormalQuestions(rules, stored, input, d) == Some(qs)
  {
    hide NormalQuestion, FreshDraws;
    var results := QuestionResults(rules, stored, input, d);
    assert All(results).value == qs;
  }

  method ValidateQuestions(rules: Rules, stored: seq<Question>, input: seq<QuestionInput>, d: Draws)
    returns (r: Option<seq<Question>>)
    requires FreshDraws(input, d)
    ensures r == NormalQuestions(rules, stored, input, d)
  {
    var given := QuestionIds(input);
    if |input| > MAX_QUESTIONS || !GivenDistinct(given) { return None; }
    DrawsFit(input, d);
    hide *;
    SeenFirst(given, d.questions);
    var seen: set<string> := {};
    var questions: seq<Question> := [];
    var i := 0;
    assert SoFar(rules, stored, input, d, []) by { NoneYet(rules, stored, input, d); }
    while i < |input|
      invariant 0 <= i <= |input| && |questions| == i
      invariant SoFar(rules, stored, input, d, questions)
      invariant seen == SeenIds(given, d.questions, i)
    {
      if input[i].id.Some? { GivenIsUnseen(given, d.questions, i); }
      var q := NormalizeQuestion(rules, stored, input[i], d.questions[i], d.options[i], seen);
      if q.None? {
        Refuses(rules, stored, input, d, i);
        return None;
      }
      OneMore(rules, stored, input, d, questions, q.value);
      SeenNext(given, d.questions, i);
      seen := seen + {IdAt(given, d.questions, i)};
      questions := questions + [q.value];
      i := i + 1;
    }
    Accepts(rules, stored, input, d, questions);
    return Some(questions);
  }

  lemma NoneYet(rules: Rules, stored: seq<Question>, input: seq<QuestionInput>, d: Draws)
    requires FreshDraws(input, d)
    ensures SoFar(rules, stored, input, d, [])
  {
  }

  lemma SeenFirst(given: seq<Option<string>>, drawn: seq<string>)
    requires FreshFor(given, drawn)
    ensures |drawn| == |given| && SeenIds(given, drawn, 0) == {}
  {
  }

  lemma SeenNext(given: seq<Option<string>>, drawn: seq<string>, i: nat)
    requires i < |given| == |drawn|
    ensures SeenIds(given, drawn, i + 1) == SeenIds(given, drawn, i) + {IdAt(given, drawn, i)}
  {
  }
}
