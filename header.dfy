/** The page header: the avatar initials computed from the user's name, the
    role label, and the user block shown only while someone is logged in. */
module Header {
  import opened Model

  /** Number of spaces in `s`. */
  function Spaces(s: string): nat {
    if s == [] then 0 else (if s[0] == ' ' then 1 else 0) + Spaces(s[1..])
  }

  /** `s.split(" ")`: the pieces between single spaces, so that leading,
      trailing and repeated spaces give empty pieces and "" gives [""]. */
  function Split(s: string): (pieces: seq<string>)
    ensures |pieces| == Spaces(s) + 1
    ensures forall p :: p in pieces ==> ' ' !in p
  {
    if s == [] then [""]
    else if s[0] == ' ' then [""] + Split(s[1..])
    else
      var rest := Split(s[1..]);
      [[s[0]] + rest[0]] + rest[1..]
  }

  /** `pieces.join(" ")`. */
  function JoinSpaced(pieces: seq<string>): string
    requires pieces != []
  {
    if |pieces| == 1 then pieces[0] else pieces[0] + " " + JoinSpaced(pieces[1..])
  }

  /** Splitting on spaces loses nothing: joining the pieces back with single
      spaces gives the name again. */
  lemma {:induction false} SplitThenJoin(s: string)
    ensures JoinSpaced(Split(s)) == s
  {
    if s != [] {
      SplitThenJoin(s[1..]);
      var rest := Split(s[1..]);
      if s[0] == ' ' {
        assert Split(s)[1..] == rest;
      } else {
        if |rest| > 1 {
          assert Split(s)[1..] == rest[1..];
        }
      }
    }
  }

  /** Splitting a space-joined list of space-free pieces gives those pieces
      back: the two operations are inverse to each other. */
  lemma {:induction false} JoinThenSplit(pieces: seq<string>)
    requires pieces != []
    requires forall p :: p in pieces ==> ' ' !in p
    ensures Split(JoinSpaced(pieces)) == pieces
  {
    if |pieces| == 1 {
      assert pieces[0] in pieces;
      SplitWord(pieces[0], []);
      assert pieces[0] + [] == pieces[0];
    } else {
      JoinThenSplit(pieces[1..]);
      var tail := JoinSpaced(pieces[1..]);
      assert pieces[0] + " " + tail == pieces[0] + ([' '] + tail);
      SplitWord(pieces[0], [' '] + tail);
      SplitLeadingSpace(tail);
      assert pieces[0] + "" == pieces[0];
      assert pieces == [pieces[0]] + pieces[1..];
    }
  }

  lemma SplitLeadingSpace(s: string)
    ensures Split([' '] + s) == [""] + Split(s)
  {
    assert ([' '] + s)[1..] == s;
  }

  /** A space-free word in front of a piece list whose first piece it joins. */
  lemma {:induction false} SplitWord(w: string, rest: string)
    requires ' ' !in w
    requires rest == [] || rest[0] == ' '
    ensures Split(w + rest) == [w + Split(rest)[0]] + Split(rest)[1..]
  {
    if w == [] {
      assert w + rest == rest;
      assert Split(rest)[0] == "" by {
        if rest != [] { SplitLeadingSpace(rest[1..]); assert [' '] + rest[1..] == rest; }
      }
    } else {
      assert (w + rest)[1..] == w[1..] + rest;
      SplitWord(w[1..], rest);
      assert [w[0]] + (w[1..] + Split(rest)[0]) == w + Split(rest)[0];
    }
  }

  /** `n[0]` rendered by `join`: the first character, or nothing for an
      empty piece (where `n[0]` is undefined). */
  function FirstChar(piece: string): string {
    if piece == [] then [] else [piece[0]]
  }

  /** `pieces.map((n) => n[0]).join("")`. */
  function InitialsOf(pieces: seq<string>): string {
    if pieces == [] then [] else FirstChar(pieces[0]) + InitialsOf(pieces[1..])
  }

  /** The avatar text for a name: one initial per non-empty piece, never a
      space, and never longer than the name. */
  function Initials(name: string): (r: string)
    ensures |r| == NonEmptyCount(Split(name))
    ensures ' ' !in r && |r| <= |name|
  {
    InitialsLength(Split(name));
    InitialsSplitTail(name, true);
    WordStartsBounds(name, true);
    InitialsOf(Split(name))
  }

  /** Reference definition on characters: the characters that start a word,
      i.e. non-space characters at the start or right after a space.
      `atStart` says whether the previous character was a space (or there
      was none). */
  function WordStarts(s: string, atStart: bool): string {
    if s == [] then []
    else if atStart && s[0] != ' ' then [s[0]] + WordStarts(s[1..], false)
    else WordStarts(s[1..], s[0] == ' ')
  }

  /** Number of non-empty pieces. */
  function NonEmptyCount(pieces: seq<string>): nat {
    if pieces == [] then 0 else (if pieces[0] != [] then 1 else 0) + NonEmptyCount(pieces[1..])
  }

  lemma {:induction false} InitialsSplitTail(s: string, atStart: bool)
    ensures InitialsOf(if atStart then Split(s) else Split(s)[1..]) == WordStarts(s, atStart)
  {
    if s != [] {
      var rest := Split(s[1..]);
      if s[0] == ' ' {
        assert Split(s)[1..] == rest;
        InitialsSplitTail(s[1..], true);
      } else {
        assert Split(s)[1..] == rest[1..];
        InitialsSplitTail(s[1..], false);
      }
    }
  }

  /** The initials are exactly the characters that begin a word of the name,
      in order: empty pieces from extra spaces contribute nothing. */
  lemma InitialsAreWordStarts(name: string)
    ensures Initials(name) == WordStarts(name, true)
  {
    InitialsSplitTail(name, true);
  }

  /** One initial per non-empty piece of the name. */
  lemma {:induction false} InitialsLength(pieces: seq<string>)
    ensures |InitialsOf(pieces)| == NonEmptyCount(pieces)
  {
    if pieces != [] {
      InitialsLength(pieces[1..]);
    }
  }

  /** No initial is a space, and there are never more initials than
      characters in the name. */
  lemma {:induction false} WordStartsBounds(s: string, atStart: bool)
    ensures ' ' !in WordStarts(s, atStart)
    ensures |WordStarts(s, atStart)| <= |s|
  {
    if s != [] {
      WordStartsBounds(s[1..], s[0] == ' ');
    }
  }

  lemma {:induction false} WordStartsConcat(a: string, b: string, atStart: bool)
    ensures WordStarts(a + b, atStart) == WordStarts(a, atStart) + WordStarts(b, FlagAfter(a, atStart))
  {
    if a == [] {
      assert a + b == b;
    } else {
      var f := a[0] == ' ';
      assert (a + b)[0] == a[0];
      assert (a + b)[1..] == a[1..] + b;
      WordStartsConcat(a[1..], b, if atStart && !f then false else f);
      assert FlagAfter(a[1..], if atStart && !f then false else f) == FlagAfter(a, atStart);
    }
  }

  /** Whether a word may start right after `a`, read from state `atStart`. */
  function FlagAfter(a: string, atStart: bool): bool {
    if a == [] then atStart else a[|a| - 1] == ' '
  }

  lemma {:induction false} WordStartsOfWord(w: string, atStart: bool)
    requires w != [] && ' ' !in w
    ensures WordStarts(w, atStart) == if atStart then [w[0]] else []
  {
    if |w| > 1 {
      assert w[1] in w;
      WordStartsOfWord(w[1..], false);
    }
  }

  /** A name of two words separated by one space gives the first letter of
      each. */
  lemma InitialsOfTwoWords(first: string, second: string)
    requires first != [] && ' ' !in first
    requires second != [] && ' ' !in second
    ensures Initials(first + " " + second) == [first[0], second[0]]
  {
    InitialsAreWordStarts(first + " " + second);
    WordStartsOfWord(first, true);
    WordStartsOfWord(second, true);
    WordStartsConcat(first, " ", true);
    WordStartsConcat(first + " ", second, true);
  }

  /** The worked example: "Анна Петрова" gives "АП". */
  lemma InitialsOfFullName()
    ensures Initials("Анна Петрова") == "АП"
  {
    InitialsOfTwoWords("Анна", "Петрова");
    assert "Анна" + " " + "Петрова" == "Анна Петрова";
  }

  /** An empty name, or a name of spaces only, gives no initials. */
  lemma InitialsOfBlankName(n: nat)
    ensures Initials(seq(n, _ => ' ')) == ""
  {
    InitialsAreWordStarts(seq(n, _ => ' '));
    BlankWordStarts(n, true);
  }

  lemma {:induction false} BlankWordStarts(n: nat, atStart: bool)
    ensures WordStarts(seq(n, _ => ' '), atStart) == ""
  {
    if n > 0 {
      assert seq(n, _ => ' ')[1..] == seq(n - 1, _ => ' ');
      BlankWordStarts(n - 1, true);
    }
  }

  /** The role shown under the name. */
  function RoleLabel(role: Role): (text: string)
    ensures text == "Преподаватель" <==> role == Teacher
    ensures text == "Ученик" <==> role == Student
  {
    match role
    case Teacher => assert "Преподаватель"[0] != "Ученик"[0]; "Преподаватель"
    case Student => "Ученик"
  }

  /** The right-hand user block: avatar initials, name, role label and a
      logout button. */
  datatype UserBlock = UserBlock(initials: string, name: string, roleLabel: string)

  /** The block exists exactly when a user is logged in. */
  function UserBlockOf(user: Option<User>): (b: Option<UserBlock>)
    ensures b.Some? <==> user.Some?
    ensures b.Some? ==> b.value.name == user.value.name
    ensures b.Some? ==> b.value.initials == WordStarts(user.value.name, true)
    ensures b.Some? ==> (b.value.roleLabel == "Преподаватель" <==> user.value.role == Teacher)
    ensures b.Some? ==> (b.value.roleLabel == "Ученик" <==> user.value.role == Student)
  {
    match user
    case None => None
    case Some(u) =>
      InitialsAreWordStarts(u.name);
      Some(UserBlock(Initials(u.name), u.name, RoleLabel(u.role)))
  }
}
