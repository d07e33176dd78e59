/** The page that owns the session: the logged-in user, the list of tests
    and the current view, the login/logout/save handlers, and the choice of
    what is rendered. */
module Index {
  import opened Model
  import Authoring
  import Dashboard
  import Header

  /** The fixed account table: login name to user record and password. */
  const Accounts: map<string, User> := map[
    "user1" := User("Анна Петрова", Student),
    "user2" := User("Максим Сидоров", Student),
    "teacher" := User("Елена Викторовна", Teacher)]

  const Passwords: map<string, string> := map[
    "user1" := "password1",
    "user2" := "password2",
    "teacher" := "password"]

  /** The alert shown for a failed login. */
  const BadCredentials := "Неверный логин или пароль"

  /** The account a login name and password give access to, if any. */
  function Authenticate(username: string, password: string): (u: Option<User>)
    ensures u.Some? <==> ((username == "user1" && password == "password1")
                          || (username == "user2" && password == "password2")
                          || (username == "teacher" && password == "password"))
    ensures username == "user1" && u.Some? ==> u.value == User("Анна Петрова", Student)
    ensures username == "user2" && u.Some? ==> u.value == User("Максим Сидоров", Student)
    ensures username == "teacher" && u.Some? ==> u.value == User("Елена Викторовна", Teacher)
  {
    if username in Accounts && username in Passwords && Passwords[username] == password
    then Some(Accounts[username])
    else None
  }

  /** The page content below the header. */
  datatype Page = DashboardShown | CreatorShown | HomeworkShown

  datatype Screen =
    | LoginForm
    | Main(user: User, nav: bool, pages: seq<Page>)

  /** What the session renders: the login form when nobody is logged in;
      otherwise the header, the navigation bar for teachers only, and the
      page of the current view, where the test creator additionally needs a
      teacher. */
  function Render(user: Option<User>, view: View): (s: Screen)
    ensures s.LoginForm? <==> user.None?
    ensures s.Main? ==> s.user == user.value
    ensures s.Main? ==> (s.nav <==> s.user.role == Teacher)
    ensures s.Main? ==> |s.pages| <= 1
    ensures s.Main? ==> (DashboardShown in s.pages <==> view == DashboardView)
    ensures s.Main? ==> (HomeworkShown in s.pages <==> view == HomeworkView)
    ensures s.Main? ==> (CreatorShown in s.pages <==> view == CreatorView && s.user.role == Teacher)
  {
    match user
    case None => LoginForm
    case Some(u) =>
      Main(u, u.role == Teacher,
        (if view == DashboardView then [DashboardShown] else [])
        + (if view == CreatorView && u.role == Teacher then [CreatorShown] else [])
        + (if view == HomeworkView then [HomeworkShown] else []))
  }

  class Session {
    var user: Option<User>
    var tests: seq<Test>
    var view: View

    /** Nobody logged in, no tests, the dashboard view. */
    constructor ()
      ensures user == None && tests == [] && view == DashboardView
    {
      user := None;
      tests := [];
      view := DashboardView;
    }

    function Screen(): Screen
      reads this
    {
      Render(user, view)
    }

    /** Checks the credentials against the account table; on success the
        user becomes that account, otherwise the alert is returned and
        nothing changes. Tests and view are kept either way. */
    method Login(username: string, password: string) returns (alert: Option<string>)
      modifies this`user
      ensures alert.None? <==> Authenticate(username, password).Some?
      ensures alert.Some? ==> alert.value == BadCredentials && user == old(user)
      ensures alert.None? ==> user == Authenticate(username, password)
      ensures tests == old(tests) && view == old(view)
    {
      var account := Authenticate(username, password);
      if account.Some? {
        user := account;
        alert := None;
      } else {
        alert := Some(BadCredentials);
      }
    }

    /** Forgets the user and goes back to the dashboard; the tests stay. */
    method Logout()
      modifies this`user, this`view
      ensures user == None && view == DashboardView
      ensures tests == old(tests)
    {
      user := None;
      view := DashboardView;
    }

    /** `handleSaveTest`: appends one test built from the name, the questions
        and the two clock readings, and returns to the dashboard. */
    method SaveTest(name: string, questions: seq<Question>, now: int, createdAt: int)
      modifies this`tests, this`view
      ensures tests == old(tests) + [Test(now, name, questions, createdAt)]
      ensures |tests| == |old(tests)| + 1 && tests[..|old(tests)|] == old(tests)
      ensures view == DashboardView && user == old(user)
    {
      tests := tests + [Test(now, name, questions, createdAt)];
      view := DashboardView;
    }

    /** A navigation tab or the dashboard cards' button: the view changes
        without any role check. */
    method Navigate(target: View)
      modifies this`view
      ensures view == target
      ensures user == old(user) && tests == old(tests)
    {
      view := target;
    }
  }

  /** The test creator's Save button wired to the session: when the form's
      guard holds, exactly one test with the form's name and questions is
      appended and the view returns to the dashboard; otherwise neither the
      session nor the form changes. */
  method SaveFromCreator(session: Session, form: Authoring.TestCreator, now: int, createdAt: int)
      returns (saved: bool)
    requires form.Valid()
    modifies session`tests, session`view, form`testName, form`questions
    ensures form.Valid()
    ensures saved <==> old(form.testName) != "" && |old(form.questions)| > 0
    ensures saved ==> session.tests == old(session.tests) + [Test(now, old(form.testName), old(form.questions), createdAt)]
    ensures saved ==> session.view == DashboardView && form.testName == "" && form.questions == []
    ensures !saved ==> session.tests == old(session.tests) && session.view == old(session.view)
    ensures !saved ==> form.testName == old(form.testName) && form.questions == old(form.questions)
    ensures form.current == old(form.current)
  {
    var request := form.SaveTest();
    saved := request.Some?;
    if saved {
      session.SaveTest(request.value.name, request.value.questions, now, createdAt);
    }
  }

  /** Logging in as user1 gives the student Анна Петрова on the dashboard,
      without the navigation bar; logging out returns to the login form. */
  method StudentLoginLogout() returns (first: Screen, last: Screen)
    ensures first == Main(User("Анна Петрова", Student), false, [DashboardShown])
    ensures last == LoginForm
  {
    var session := new Session();
    var alert := session.Login("user1", "password1");
    first := session.Screen();
    session.Logout();
    last := session.Screen();
  }

  /** The header of user1's session shows the avatar initials АП and the
      student label. */
  method StudentHeader() returns (block: Option<Header.UserBlock>)
    ensures block == Some(Header.UserBlock("АП", "Анна Петрова", "Ученик"))
  {
    var user := Authenticate("user1", "password1");
    block := Header.UserBlockOf(user);
    Header.InitialsOfFullName();
    Header.InitialsAreWordStarts("Анна Петрова");
  }

  /** A student whose view is forced to the test creator sees neither the
      creator nor the navigation bar: only the header is rendered. */
  method StudentForcedToCreator() returns (screen: Screen)
    ensures screen == Main(User("Максим Сидоров", Student), false, [])
  {
    var session := new Session();
    var alert := session.Login("user2", "password2");
    session.Navigate(CreatorView);
    screen := session.Screen();
  }

  /** A wrong password leaves the session logged out, with the alert. */
  method WrongPassword(view: View) returns (alert: Option<string>, screen: Screen)
    ensures alert == Some(BadCredentials) && screen == LoginForm
  {
    var session := new Session();
    session.Navigate(view);
    alert := session.Login("teacher", "password1");
    screen := session.Screen();
  }

  /** A fresh authoring form on which the text question "H2O" with answer
      "вода" is added and the test is named T1. */
  method WriteOneQuestionTest(now: int) returns (form: Authoring.TestCreator)
    ensures fresh(form) && form.Valid()
    ensures form.testName == "T1" && |form.questions| == 1
  {
    form := new Authoring.TestCreator();
    form.EditText("H2O");
    form.ChangeType(Text);
    form.EnterTextAnswer("вода");
    var added := form.AddQuestion(now);
    assert added;
    form.EditTestName("T1");
  }

  /** The teacher writes a test named T1 with one question and saves it: the
      session has that one test and shows the dashboard, whose recent list
      is that test. */
  method TeacherAuthorsOneTest(now: int, createdAt: int)
      returns (tests: seq<Test>, screen: Screen, recent: Option<seq<Test>>)
    ensures |tests| == 1 && tests[0].name == "T1" && |tests[0].questions| == 1
    ensures screen == Main(User("Елена Викторовна", Teacher), true, [DashboardShown])
    ensures recent == Some(tests)
  {
    var session := new Session();
    var alert := session.Login("teacher", "password");
    session.Navigate(CreatorView);
    var form := WriteOneQuestionTest(now);
    var saved := SaveFromCreator(session, form, now + 1, createdAt);
    assert saved;
    var teacher := User("Елена Викторовна", Teacher);
    assert session.user == Some(teacher) && session.view == DashboardView;
    tests := session.tests;
    screen := session.Screen();
    recent := Dashboard.Render(teacher, tests).recent;
  }

  /** Saving with an empty test name adds nothing, even with a question
      written, and the view stays on the test creator. */
  method SaveWithoutName(now: int, createdAt: int) returns (saved: bool, tests: seq<Test>, view: View)
    ensures !saved && tests == [] && view == CreatorView
  {
    var session := new Session();
    var alert := session.Login("teacher", "password");
    session.Navigate(CreatorView);
    var form := new Authoring.TestCreator();
    form.EditText("H2O");
    form.ChangeType(Formula);
    form.EnterTextAnswer("H2O");
    var added := form.AddQuestion(now);
    saved := SaveFromCreator(session, form, now + 1, createdAt);
    tests, view := session.tests, session.view;
  }
}
