/** The homework page: one card per test, and for students a dialog that
    captures answers per question id and discards them on submit. */
module Homework {
  import opened Model

  /** The acknowledgement shown on submit. */
  const Submitted := "Тест отправлен!"

  /** `[...s]` for a string: one single-character string per character. */
  function Spread(s: string): (r: seq<string>)
    ensures |r| == |s|
    ensures forall i :: 0 <= i < |s| ==> r[i] == [s[i]]
  {
    seq(|s|, i requires 0 <= i < |s| => [s[i]])
  }

  /** The value a checkbox of question `qid` stores when toggled, given what
      is stored under `qid` now: `(answers[qid] as string[]) || []`, then
      append or filter. A missing entry or "" counts as []. A non-empty
      string (possible only under an id shared with a non-checkbox
      question) is spread into characters on check, and has no `filter`
      on uncheck, which throws: None. */
  function ToggledChoice(stored: Option<Answer>, option: string, checked: bool): (r: Option<Answer>)
    ensures (stored.None? || stored == Some(Str("")) || stored.value.List?) ==> r.Some? && r.value.List?
    ensures stored.None? || stored == Some(Str("")) ==> r == Some(List(if checked then [option] else []))
    ensures stored.Some? && stored.value.List? ==> r == Some(List(Toggled(stored.value.items, option, checked)))
    ensures checked && stored.Some? && stored.value.Str? && stored.value.text != "" ==>
              r == Some(List(Spread(stored.value.text) + [option]))
    ensures r.None? <==> !checked && stored.Some? && stored.value.Str? && stored.value.text != ""
    ensures r.Some? ==> r.value.List? && (checked ==> option in r.value.items) && (!checked ==> option !in r.value.items)
  {
    assert [] + [option] == [option];
    match stored
    case None => Some(List(Toggled([], option, checked)))
    case Some(List(items)) => Some(List(Toggled(items, option, checked)))
    case Some(Str(s)) =>
      if s == "" then Some(List(Toggled([], option, checked)))
      else if checked then Some(List(Spread(s) + [option]))
      else None
  }

  function Lookup(answers: map<int, Answer>, qid: int): Option<Answer> {
    if qid in answers then Some(answers[qid]) else None
  }

  /** The action row of a test card. */
  datatype CardActions =
    | TakeTest(test: Test)          // opens the answer dialog
    | PreviewAndStatistics          // two buttons with no handler

  datatype TestCard = TestCard(name: string, questionCount: nat, minutes: nat, actions: CardActions)

  datatype Listing = NoTests | Cards(cards: seq<TestCard>)

  /** The estimated time of a test: two minutes per question. */
  function DurationMinutes(t: Test): (minutes: nat)
    ensures minutes % 2 == 0 && minutes / 2 == |t.questions|
  {
    |t.questions| * 2
  }

  function CardOf(role: Role, t: Test): TestCard {
    TestCard(t.name, |t.questions|, DurationMinutes(t),
      if role == Student then TakeTest(t) else PreviewAndStatistics)
  }

  /** The page body: the empty state for no tests, otherwise one card per
      test in list order; only students can take a test. */
  function ListTests(role: Role, tests: seq<Test>): (l: Listing)
    ensures l.NoTests? <==> tests == []
    ensures l.Cards? ==> |l.cards| == |tests|
    ensures l.Cards? ==> forall i :: 0 <= i < |tests| ==>
              l.cards[i].name == tests[i].name
              && l.cards[i].questionCount == |tests[i].questions|
              && l.cards[i].minutes == 2 * |tests[i].questions|
    ensures l.Cards? ==> forall i :: 0 <= i < |tests| ==>
              (l.cards[i].actions.TakeTest? <==> role == Student)
              && (l.cards[i].actions.TakeTest? ==> l.cards[i].actions.test == tests[i])
  {
    if tests == [] then NoTests
    else Cards(seq(|tests|, i requires 0 <= i < |tests| => CardOf(role, tests[i])))
  }

  class HomeworkPage {
    var selected: Option<Test>
    var answers: map<int, Answer>

    constructor ()
      ensures selected == None && answers == map[]
    {
      selected := None;
      answers := map[];
    }

    /** The take-test button: selects the test; answers already captured
        are kept. */
    method Open(t: Test)
      modifies this`selected
      ensures selected == Some(t) && answers == old(answers)
    {
      selected := Some(t);
    }

    /** `handleAnswerChange`: stores `answer` under `qid`, replacing what was
        there, and leaves every other entry alone. Used as is by the radio
        group of a single-choice question and the text area of a text or
        formula question. */
    method RecordAnswer(qid: int, answer: Answer)
      modifies this`answers
      ensures qid in answers && answers[qid] == answer
      ensures answers.Keys == old(answers).Keys + {qid}
      ensures forall k :: k in old(answers) && k != qid ==> answers[k] == old(answers)[k]
    {
      answers := answers[qid := answer];
    }

    /** A checkbox of a multiple-choice question. Returns false when the
        handler throws, in which case nothing changes. */
    method ToggleChoice(qid: int, option: string, checked: bool) returns (ok: bool)
      modifies this`answers
      ensures ok <==> ToggledChoice(Lookup(old(answers), qid), option, checked).Some?
      ensures ok ==> answers == old(answers)[qid := ToggledChoice(Lookup(old(answers), qid), option, checked).value]
      ensures !ok ==> answers == old(answers)
    {
      var stored := Lookup(answers, qid);
      var next := ToggledChoice(stored, option, checked);
      if next.Some? {
        RecordAnswer(qid, next.value);
        ok := true;
      } else {
        ok := false;
      }
    }

    /** Submitting shows the acknowledgement and discards the selected test
        and every captured answer, whatever they were. */
    method Submit() returns (notice: string)
      modifies this`selected, this`answers
      ensures notice == Submitted
      ensures selected == None && answers == map[]
    {
      notice := Submitted;
      selected := None;
      answers := map[];
    }
  }

  /** Ticking an option and unticking it again leaves the captured answer of
      that question as it was before the tick, when the option was not in
      it. */
  lemma ChoiceOnOffRestores(items: seq<string>, option: string)
    requires option !in items
    ensures ToggledChoice(ToggledChoice(Some(List(items)), option, true), option, false) == Some(List(items))
  {
    ToggleOnOffRestores(items, option);
  }

  /** A student picking one radio option and then another: the last choice
      is what is kept. Submitting then empties the answers. */
  method RadioThenSubmit(t: Test, qid: int) returns (picked: Answer, after: map<int, Answer>)
    ensures picked == Str("б") && after == map[]
  {
    var page := new HomeworkPage();
    page.Open(t);
    page.RecordAnswer(qid, Str("а"));
    page.RecordAnswer(qid, Str("б"));
    picked := page.answers[qid];
    var notice := page.Submit();
    after := page.answers;
  }

  lemma UntickMiddle(a: string, b: string, c: string)
    requires a != b && b != c && a != c
    ensures Without([a, b, c], b) == [a, c]
  {
    WithoutSingle(a, b);
    WithoutSingle(b, b);
    WithoutSingle(c, b);
    assert [a, b] == [a] + [b];
    WithoutConcat([a], [b], b);
    assert Without([a, b], b) == [a];
    assert [a, b, c] == [a, b] + [c];
    WithoutConcat([a, b], [c], b);
  }

  /** A student ticking three options and unticking the middle one: the
      captured answer lists the remaining options in tick order. */
  method TickThreeUntickOne(qid: int, a: string, b: string, c: string) returns (boxes: Answer)
    requires a != b && b != c && a != c
    ensures boxes == List([a, c])
  {
    var page := new HomeworkPage();
    var ok := page.ToggleChoice(qid, a, true);
    assert page.answers[qid] == List([a]);
    ok := page.ToggleChoice(qid, b, true);
    assert page.answers[qid] == List([a, b]);
    ok := page.ToggleChoice(qid, c, true);
    assert page.answers[qid] == List([a, b, c]);
    ok := page.ToggleChoice(qid, b, false);
    UntickMiddle(a, b, c);
    boxes := page.answers[qid];
  }
}
