/** The test authoring form: a test name, the questions added so far, and
    the form for the question being written (text, type, four option slots
    and the correct answer). */
module Authoring {
  import opened Model

  /** The question being written; it has no id until it is added. */
  datatype Draft = Draft(text: string, qtype: QuestionType, options: seq<string>, correct: Answer)

  /** The form's defaults: single choice, four empty options, answer "". */
  const EmptyDraft := Draft("", Single, ["", "", "", ""], Str(""))

  /** What the form hands to its save callback. */
  datatype SaveRequest = SaveRequest(name: string, questions: seq<Question>)

  /** The options offered as correct answers: each non-empty option slot,
      as often as it occurs (empty slots are rendered as nothing). */
  function Offered(options: seq<string>): (r: seq<string>)
    ensures forall o :: o in r <==> o in options && o != ""
    ensures multiset(r) == multiset(options)[[] := 0]
  {
    WithoutCounts(options, "");
    Without(options, "")
  }

  class TestCreator {
    var testName: string
    var questions: seq<Question>
    var current: Draft

    /** Four option slots, and a list-valued correct answer exactly for
        multiple choice. */
    ghost predicate Valid()
      reads this
    {
      |current.options| == 4 && (current.qtype == Multiple <==> current.correct.List?)
    }

    constructor ()
      ensures Valid()
      ensures testName == "" && questions == [] && current == EmptyDraft
    {
      testName := "";
      questions := [];
      current := EmptyDraft;
    }

    /** Whether the Save button is enabled. */
    predicate CanSave()
      reads this
      ensures CanSave() <==> testName != "" && questions != []
    {
      testName != "" && |questions| > 0
    }

    /** Typing in the test name field. */
    method EditTestName(name: string)
      requires Valid()
      modifies this`testName
      ensures Valid()
      ensures testName == name
    {
      testName := name;
    }

    /** Typing in the question text field. */
    method EditText(text: string)
      requires Valid()
      modifies this`current
      ensures Valid()
      ensures current == old(current).(text := text)
    {
      current := current.(text := text);
    }

    /** Choosing a question type resets the correct answer to the empty value
        of that type; text and options are kept. */
    method ChangeType(t: QuestionType)
      requires Valid()
      modifies this`current
      ensures Valid()
      ensures current.text == old(current).text && current.options == old(current).options
      ensures current.qtype == t
      ensures current.correct == if t == Multiple then List([]) else Str("")
    {
      current := current.(qtype := t, correct := if t == Multiple then List([]) else Str(""));
    }

    /** Typing in option slot `i` replaces that slot only. */
    method EditOption(i: nat, value: string)
      requires Valid()
      requires i < |current.options|
      modifies this`current
      ensures Valid()
      ensures |current.options| == 4 && current.options[i] == value
      ensures forall j :: 0 <= j < 4 && j != i ==> current.options[j] == old(current).options[j]
      ensures current.text == old(current).text && current.qtype == old(current).qtype
      ensures current.correct == old(current).correct
    {
      current := current.(options := current.options[i := value]);
    }

    /** The single-choice select: only a non-empty option can be chosen, and
        it becomes the correct answer. */
    method ChooseSingleAnswer(value: string)
      requires Valid()
      requires current.qtype == Single && value in Offered(current.options)
      modifies this`current
      ensures Valid()
      ensures current == old(current).(correct := Str(value))
      ensures value != ""
    {
      current := current.(correct := Str(value));
    }

    /** The free-text correct answer of a text or formula question. */
    method EnterTextAnswer(value: string)
      requires Valid()
      requires current.qtype == Text || current.qtype == Formula
      modifies this`current
      ensures Valid()
      ensures current == old(current).(correct := Str(value))
    {
      current := current.(correct := Str(value));
    }

    /** A correct-answer checkbox of a multiple-choice question: checking
        appends the option, unchecking removes every occurrence of it. */
    method ToggleCorrect(option: string, checked: bool)
      requires Valid()
      requires current.qtype == Multiple && option in Offered(current.options)
      modifies this`current
      ensures Valid()
      ensures current == old(current).(correct := List(Toggled(old(current).correct.items, option, checked)))
      ensures checked ==> current.correct.items == old(current).correct.items + [option]
      ensures !checked ==> option !in current.correct.items
    {
      var answers := current.correct.items;
      if checked {
        current := current.(correct := List(answers + [option]));
      } else {
        current := current.(correct := List(Without(answers, option)));
      }
    }

    /** Adds the question being written when its text is non-empty and its
        correct answer is truthy; `now` is the clock reading used as its id.
        A multiple-choice question with no correct answer ticked is still
        added, since an empty list is truthy. */
    method AddQuestion(now: int) returns (added: bool)
      requires Valid()
      modifies this`questions, this`current
      ensures Valid()
      ensures added <==> old(current).text != "" && old(current).correct != Str("")
      ensures added ==> questions == old(questions) + [Question(now, old(current).text,
                          old(current).qtype, old(current).options, old(current).correct)]
      ensures added ==> current == EmptyDraft
      ensures !added ==> questions == old(questions) && current == old(current)
    {
      if current.text != "" && Truthy(current.correct) {
        var q := Question(now, current.text, current.qtype, current.options, current.correct);
        questions := questions + [q];
        current := EmptyDraft;
        added := true;
      } else {
        added := false;
      }
    }

    /** Hands the name and the questions to the save callback once, when the
        Save button would be enabled, and then clears both; the question
        being written is left as it is. */
    method SaveTest() returns (forwarded: Option<SaveRequest>)
      requires Valid()
      modifies this`testName, this`questions
      ensures Valid()
      ensures forwarded.Some? <==> old(testName) != "" && |old(questions)| > 0
      ensures forwarded.Some? <==> old(CanSave())
      ensures forwarded.Some? ==> forwarded.value == SaveRequest(old(testName), old(questions))
      ensures forwarded.Some? ==> testName == "" && questions == []
      ensures forwarded.None? ==> testName == old(testName) && questions == old(questions)
      ensures current == old(current)
    {
      if testName != "" && |questions| > 0 {
        forwarded := Some(SaveRequest(testName, questions));
        testName := "";
        questions := [];
      } else {
        forwarded := None;
      }
    }
  }

  /** Ticking a correct answer and unticking it again leaves the form as it
      was. The checkbox is controlled by whether the option is among the
      correct answers, so a tick only arrives for an option not in them. */
  method ToggleTwiceRestores(form: TestCreator, option: string)
    requires form.Valid()
    requires form.current.qtype == Multiple && option in Offered(form.current.options)
    requires option !in form.current.correct.items
    modifies form
    ensures form.Valid()
    ensures form.current == old(form.current)
    ensures form.testName == old(form.testName) && form.questions == old(form.questions)
  {
    ghost var items := form.current.correct.items;
    form.ToggleCorrect(option, true);
    form.ToggleCorrect(option, false);
    ToggleOnOffRestores(items, option);
  }

  /** A multiple-choice question with no correct answer ticked is added,
      while a single-choice question with no answer chosen is not. */
  method AddQuestionTruthiness(now: int) returns (multipleAdded: bool, singleAdded: bool)
    ensures multipleAdded && !singleAdded
  {
    var form := new TestCreator();
    form.EditText("Какие вещества являются кислотами?");
    form.ChangeType(Multiple);
    multipleAdded := form.AddQuestion(now);
    form.EditText("Формула воды?");
    singleAdded := form.AddQuestion(now + 1);
  }
}
