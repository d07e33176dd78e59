/** The dashboard: four summary cards whose buttons all lead to the homework
    view, a test count for teachers, and the two most recent tests. */
module Dashboard {
  import opened Model

  predicate IsTeacher(user: User)
    ensures IsTeacher(user) <==> user.role != Student
  {
    user.role == Teacher
  }

  /** `Array.prototype.slice(start)`: a negative start counts from the end
      and is clamped at 0, a start past the end gives []. */
  function Slice<T>(s: seq<T>, start: int): (r: seq<T>)
    ensures |r| <= |s| && s == s[..|s| - |r|] + r
    ensures start < 0 ==> |r| == if -start < |s| then -start else |s|
    ensures 0 <= start ==> |r| == if start < |s| then |s| - start else 0
  {
    var from := if start < 0 then (if |s| + start < 0 then 0 else |s| + start)
                else (if start > |s| then |s| else start);
    s[from..]
  }

  /** `tests.slice(-2)`: the last two tests in their original order, or all
      of them when there are fewer than two. */
  function RecentTests(tests: seq<Test>): (recent: seq<Test>)
    ensures |recent| == if |tests| < 2 then |tests| else 2
    ensures tests == tests[..|tests| - |recent|] + recent
  {
    Slice(tests, -2)
  }

  /** After a test is appended it is the last of the recent tests, preceded
      by the test that was last before it, if any. */
  lemma RecentAfterAppend(tests: seq<Test>, t: Test)
    ensures RecentTests(tests + [t]) == (if tests == [] then [] else [tests[|tests| - 1]]) + [t]
  {
    var r := RecentTests(tests + [t]);
    assert (tests + [t])[|tests|] == t;
    if tests != [] {
      assert (tests + [t])[|tests| - 1] == tests[|tests| - 1];
      assert r == [r[0], r[1]];
    } else {
      assert r == [r[0]];
    }
  }

  /** What the homework card says under its title. */
  datatype HomeworkDescription = CreatedCount(count: nat) | DoHomework

  datatype DashboardPage = DashboardPage(
    greeting: string,
    teacher: bool,
    homework: HomeworkDescription,
    recent: Option<seq<Test>>,
    buttons: seq<View>)   // the view each card's button navigates to

  /** The dashboard for a logged-in user and the session's tests. */
  function Render(user: User, tests: seq<Test>): (page: DashboardPage)
    ensures page.greeting == user.name
    ensures page.teacher <==> user.role == Teacher
    ensures page.homework.CreatedCount? <==> user.role == Teacher
    ensures page.homework.CreatedCount? ==> page.homework.count == |tests|
    ensures page.recent.Some? <==> user.role == Teacher && |tests| > 0
    ensures page.recent.Some? ==> page.recent.value == RecentTests(tests)
    ensures |page.buttons| == 4
    ensures forall i :: 0 <= i < |page.buttons| ==> page.buttons[i] == HomeworkView
  {
    var teacher := IsTeacher(user);
    DashboardPage(
      user.name,
      teacher,
      if teacher then CreatedCount(|tests|) else DoHomework,
      if teacher && |tests| > 0 then Some(RecentTests(tests)) else None,
      [HomeworkView, HomeworkView, HomeworkView, HomeworkView])
  }
}
