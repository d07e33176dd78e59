/** Shared values of the ChemClass front end: users, questions, tests, the
    view names, and the checkbox list operation used by both the test
    authoring form and the homework page. */
module Model {

  datatype Option<T> = None | Some(value: T)

  datatype Role = Student | Teacher

  datatype User = User(name: string, role: Role)

  /** The three top-level screens the session can select. */
  datatype View = DashboardView | CreatorView | HomeworkView

  datatype QuestionType = Single | Multiple | Text | Formula

  /** `string | string[]`: a correct answer or a captured answer. */
  datatype Answer = Str(text: string) | List(items: seq<string>)

  datatype Question = Question(
    id: int,
    text: string,
    qtype: QuestionType,
    options: seq<string>,
    correct: Answer)

  datatype Test = Test(id: int, name: string, questions: seq<Question>, createdAt: int)

  /** JavaScript truthiness of an answer value: only the empty string is
      falsy; every array, even `[]`, is truthy. */
  predicate Truthy(a: Answer)
    ensures Truthy(a) <==> a != Str("")
  {
    match a
    case Str(s) => s != ""
    case List(_) => true
  }

  /** `list.filter((a) => a !== x)`: every occurrence of `x` removed, the
      rest kept in order. */
  function Without(list: seq<string>, x: string): (r: seq<string>)
    ensures x !in r
    ensures forall y :: y != x ==> (y in r <==> y in list)
    ensures x !in list ==> r == list
  {
    if list == [] then []
    else (if list[0] == x then [] else [list[0]]) + Without(list[1..], x)
  }

  /** Filtering keeps every other entry as often as it occurred. */
  lemma {:induction false} WithoutCounts(list: seq<string>, x: string)
    ensures multiset(Without(list, x)) == multiset(list)[x := 0]
  {
    if list != [] {
      WithoutCounts(list[1..], x);
      assert list == [list[0]] + list[1..];
    }
  }

  /** A checkbox toggle: checking appends the option at the end, unchecking
      filters out every occurrence of it. */
  function Toggled(list: seq<string>, x: string, checked: bool): (r: seq<string>)
    ensures checked ==> |r| == |list| + 1 && r[..|list|] == list && r[|list|] == x
    ensures !checked ==> x !in r && forall y :: y != x ==> (y in r <==> y in list)
  {
    if checked then list + [x] else Without(list, x)
  }

  /** Filtering distributes over concatenation. */
  lemma {:induction false} WithoutConcat(a: seq<string>, b: seq<string>, x: string)
    ensures Without(a + b, x) == Without(a, x) + Without(b, x)
  {
    if a == [] {
      assert a + b == b;
    } else {
      assert (a + b)[1..] == a[1..] + b;
      WithoutConcat(a[1..], b, x);
    }
  }

  lemma WithoutSingle(y: string, x: string)
    ensures Without([y], x) == if y == x then [] else [y]
  {
    assert [y][1..] == [];
  }

  /** Checking a box and then unchecking it gives back the list of before
      whenever the option was not already in it. */
  lemma ToggleOnOffRestores(list: seq<string>, x: string)
    requires x !in list
    ensures Toggled(Toggled(list, x, true), x, false) == list
  {
    ToggleOnOffRemovesAll(list, x);
  }

  /** Whatever the list held before, unchecking after checking leaves no
      trace of the option and keeps every other entry in order. */
  lemma ToggleOnOffRemovesAll(list: seq<string>, x: string)
    ensures Toggled(Toggled(list, x, true), x, false) == Without(list, x)
  {
    WithoutConcat(list, [x], x);
    assert Without([x], x) == [];
  }
}
