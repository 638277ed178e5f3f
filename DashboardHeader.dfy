/** The dashboard header: the notification badge on the bell and the
    initials shown in the avatar fallback,
    `name.split(" ").map(n => n[0]).join("")`. */
module DashboardHeader {
  import opened Wrappers

  /** The `user` shown when none is passed. */
  const DefaultName: string := "Sarah Wilson"
  /** The `notifications` count shown when none is passed. It is a
      JavaScript number, so a `real` here. */
  const DefaultNotifications: real := 3.0

  // ---------------------------------------------------------------------
  // Notification badge
  // ---------------------------------------------------------------------

  /** The badge on the bell: it shows the count, and only when there is a
      positive number of notifications. */
  function NotificationBadge(notifications: real): (badge: Option<real>)
    ensures badge.Some? <==> notifications > 0.0
    ensures badge.Some? ==> badge.value == notifications
  {
    if notifications > 0.0 then Some(notifications) else None
  }

  /** With the default count the badge shows 3. */
  lemma DefaultBadgeShowsThree()
    ensures NotificationBadge(DefaultNotifications) == Some(3.0)
  {
  }

  // ---------------------------------------------------------------------
  // String splitting, as String.prototype.split with a one-character separator
  // ---------------------------------------------------------------------

  /** The number of occurrences of `c` in `s`. */
  function Occurrences(s: string, c: char): nat
  {
    if s == [] then 0 else (if s[0] == c then 1 else 0) + Occurrences(s[1..], c)
  }

  /** `s.split(sep)`: the pieces between the separators. There is always one
      more piece than separators, so an empty string gives [""] and doubled,
      leading or trailing separators give empty pieces. */
  function Split(s: string, sep: char): (pieces: seq<string>)
    ensures |pieces| == Occurrences(s, sep) + 1
    ensures forall i :: 0 <= i < |pieces| ==> sep !in pieces[i]
  {
    if s == [] then [""]
    else
      var rest := Split(s[1..], sep);
      if s[0] == sep then [""] + rest
      else [[s[0]] + rest[0]] + rest[1..]
  }

  /** The total length of the pieces. */
  function TotalLength(pieces: seq<string>): nat
  {
    if pieces == [] then 0 else |pieces[0]| + TotalLength(pieces[1..])
  }

  /** `pieces.join(sep)`: the pieces with one separator between each pair. */
  function Join(pieces: seq<string>, sep: string): (r: string)
    ensures pieces != [] ==> |r| == TotalLength(pieces) + (|pieces| - 1) * |sep|
    ensures pieces != [] ==> r[..|pieces[0]|] == pieces[0]
  {
    if pieces == [] then ""
    else if |pieces| == 1 then pieces[0]
    else pieces[0] + sep + Join(pieces[1..], sep)
  }

  /** Splitting and joining back with the same separator gives the string back. */
  lemma {:induction false} JoinSplit(s: string, sep: char)
    ensures Join(Split(s, sep), [sep]) == s
  {
    if s != [] {
      var rest := Split(s[1..], sep);
      JoinSplit(s[1..], sep);
      if s[0] == sep {
        assert Split(s, sep) == [""] + rest;
        assert s == [s[0]] + s[1..];
      } else {
        JoinHead(s[0], rest, [sep]);
        assert s == [s[0]] + s[1..];
      }
    }
  }

  /** Prefixing a character to the first piece prefixes it to the join. */
  lemma JoinHead(c: char, pieces: seq<string>, sep: string)
    requires |pieces| > 0
    ensures Join([[c] + pieces[0]] + pieces[1..], sep) == [c] + Join(pieces, sep)
  {
    var ps := [[c] + pieces[0]] + pieces[1..];
    assert ps[1..] == pieces[1..];
  }

  // ---------------------------------------------------------------------
  // Initials
  // ---------------------------------------------------------------------

  /** `n[0]` as `join` renders it: the first character, or "" for the
      `undefined` that an empty piece gives. */
  function FirstChar(piece: string): (r: string)
    ensures |r| <= 1
    ensures r == [] <==> piece == []
    ensures r != [] ==> r[0] == piece[0]
  {
    if piece == [] then "" else [piece[0]]
  }

  /** `pieces.map(n => n[0]).join("")`. */
  function JoinFirstChars(pieces: seq<string>): string
  {
    if pieces == [] then "" else FirstChar(pieces[0]) + JoinFirstChars(pieces[1..])
  }

  /** The avatar fallback text for `name`: never a space, and at most one
      character more than the name has spaces. */
  function Initials(name: string): (r: string)
    ensures ' ' !in r
    ensures |r| <= Occurrences(name, ' ') + 1
  {
    WordStartsOfPieces(name);
    FirstCharsCount(Split(name, ' '));
    JoinFirstChars(Split(name, ' '))
  }

  /** An independent description of the initials: the characters of `s`
      that are not spaces and stand at the start or right after a space
      (`afterSpace` says whether the character before `s` was a space or
      there was none). */
  function WordStarts(s: string, afterSpace: bool): (r: string)
    ensures ' ' !in r
  {
    if s == [] then ""
    else (if afterSpace && s[0] != ' ' then [s[0]] else "") + WordStarts(s[1..], s[0] == ' ')
  }

  /** The initials are exactly the first characters of the words of the
      name, whatever spaces stand around or between them. */
  lemma InitialsAreWordStarts(name: string)
    ensures Initials(name) == WordStarts(name, true)
  {
    WordStartsOfPieces(name);
  }

  /** The induction behind InitialsAreWordStarts: after a space the rest
      contributes the first characters of all its pieces; inside a word it
      contributes those of all but its first piece. */
  lemma {:induction false} WordStartsOfPieces(s: string)
    ensures WordStarts(s, true) == JoinFirstChars(Split(s, ' '))
    ensures WordStarts(s, false) == JoinFirstChars(Split(s, ' ')[1..])
  {
    if s != [] {
      var rest := Split(s[1..], ' ');
      WordStartsOfPieces(s[1..]);
      if s[0] == ' ' {
        assert Split(s, ' ') == [""] + rest;
        assert Split(s, ' ')[1..] == rest;
      } else {
        var pieces := Split(s, ' ');
        assert pieces == [[s[0]] + rest[0]] + rest[1..];
        assert pieces[1..] == rest[1..];
        assert FirstChar(pieces[0]) == [s[0]];
      }
    }
  }

  /** The number of non-empty pieces. */
  function NonEmptyCount(pieces: seq<string>): (n: nat)
    ensures n <= |pieces|
  {
    if pieces == [] then 0 else (if pieces[0] != [] then 1 else 0) + NonEmptyCount(pieces[1..])
  }

  /** One initial per non-empty piece, never a space, so never more than
      one more than the number of spaces. */
  lemma InitialsLength(name: string)
    ensures |Initials(name)| == NonEmptyCount(Split(name, ' '))
    ensures |Initials(name)| <= Occurrences(name, ' ') + 1
    ensures ' ' !in Initials(name)
  {
    FirstCharsCount(Split(name, ' '));
    InitialsAreWordStarts(name);
  }

  /** Each piece contributes one character exactly when it is non-empty. */
  lemma {:induction false} FirstCharsCount(pieces: seq<string>)
    ensures |JoinFirstChars(pieces)| == NonEmptyCount(pieces)
  {
    if pieces != [] {
      FirstCharsCount(pieces[1..]);
    }
  }

  /** A name made only of spaces, the empty name included, has no initials. */
  lemma {:induction false} BlankNameHasNoInitials(name: string)
    requires forall i :: 0 <= i < |name| ==> name[i] == ' '
    ensures Initials(name) == ""
  {
    InitialsAreWordStarts(name);
    NoWordStartsInSpaces(name, true);
  }

  /** A run of spaces starts no word. */
  lemma {:induction false} NoWordStartsInSpaces(s: string, afterSpace: bool)
    requires forall i :: 0 <= i < |s| ==> s[i] == ' '
    ensures WordStarts(s, afterSpace) == ""
  {
    if s != [] {
      NoWordStartsInSpaces(s[1..], true);
    }
  }

  /** Two words separated by one space give their two first characters. */
  lemma TwoWordInitials(first: string, last: string)
    requires ' ' !in first && ' ' !in last && first != [] && last != []
    ensures Initials(first + " " + last) == [first[0], last[0]]
  {
    InitialsAreWordStarts(first + " " + last);
    assert first + " " + last == first + (" " + last);
    WordThenRest(first, " " + last, true);
    SpacesThenRest(" ", last, false);
    WordThenRest(last, "", true);
    assert last + "" == last;
  }

  /** Extra spaces change nothing: leading, trailing and doubled spaces
      give empty pieces, which contribute no initial. */
  lemma ExtraSpacesIgnored(first: string, last: string)
    requires ' ' !in first && ' ' !in last && first != [] && last != []
    ensures Initials(" " + first + "  " + last + " ") == Initials(first + " " + last)
  {
    TwoWordInitials(first, last);
    var padded := " " + first + "  " + last + " ";
    InitialsAreWordStarts(padded);
    assert padded == " " + (first + ("  " + (last + " ")));
    SpacesThenRest(" ", first + ("  " + (last + " ")), true);
    WordThenRest(first, "  " + (last + " "), true);
    SpacesThenRest("  ", last + " ", false);
    WordThenRest(last, " ", true);
    NoWordStartsInSpaces(" ", false);
  }

  /** A word followed by the rest of the string: the word contributes its
      first character after a space and nothing otherwise. */
  lemma WordThenRest(w: string, rest: string, afterSpace: bool)
    requires ' ' !in w && w != []
    ensures WordStarts(w + rest, afterSpace) == (if afterSpace then [w[0]] else "") + WordStarts(rest, false)
  {
    WordStartsAppend(w, rest, afterSpace);
    WordStartsOfWord(w, afterSpace);
    assert w[|w| - 1] in w;
  }

  /** A run of spaces followed by the rest: the rest starts after a space. */
  lemma SpacesThenRest(spaces: string, rest: string, afterSpace: bool)
    requires spaces != [] && forall i :: 0 <= i < |spaces| ==> spaces[i] == ' '
    ensures WordStarts(spaces + rest, afterSpace) == WordStarts(rest, true)
  {
    WordStartsAppend(spaces, rest, afterSpace);
    NoWordStartsInSpaces(spaces, afterSpace);
  }

  /** A word contributes its first character after a space, nothing otherwise. */
  lemma {:induction false} WordStartsOfWord(w: string, afterSpace: bool)
    requires ' ' !in w && w != []
    ensures WordStarts(w, afterSpace) == if afterSpace then [w[0]] else ""
  {
    NoWordStartsInWord(w[1..]);
  }

  /** The inside of a word starts nothing. */
  lemma {:induction false} NoWordStartsInWord(w: string)
    requires ' ' !in w
    ensures WordStarts(w, false) == ""
  {
    if w != [] {
      NoWordStartsInWord(w[1..]);
    }
  }

  /** WordStarts of a concatenation. */
  lemma {:induction false} WordStartsAppend(a: string, b: string, afterSpace: bool)
    requires a != []
    ensures WordStarts(a + b, afterSpace) == WordStarts(a, afterSpace) + WordStarts(b, a[|a| - 1] == ' ')
  {
    var rest := a[1..];
    assert a == [a[0]] + rest;
    assert a + b == [a[0]] + (rest + b);
    WordStartsCons(a[0], rest + b, afterSpace);
    WordStartsCons(a[0], rest, afterSpace);
    if rest != [] {
      WordStartsAppend(rest, b, a[0] == ' ');
      assert rest[|rest| - 1] == a[|a| - 1];
    }
  }

  /** WordStarts of a string given its first character. */
  lemma WordStartsCons(c: char, t: string, afterSpace: bool)
    ensures WordStarts([c] + t, afterSpace) ==
      (if afterSpace && c != ' ' then [c] else "") + WordStarts(t, c == ' ')
  {
    assert ([c] + t)[1..] == t;
  }

  /** The default user "Sarah Wilson" shows "SW". */
  lemma DefaultInitials()
    ensures Initials(DefaultName) == "SW"
  {
    TwoWordInitials("Sarah", "Wilson");
    assert DefaultName == "Sarah" + " " + "Wilson";
  }
}
