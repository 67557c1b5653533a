/**
 * The avatar initials of components/Navigation.tsx:
 * `name.split(' ').map(n => n[0]).join('').toUpperCase()`, with 'U' for a
 * missing or empty name. The same expression appears in
 * enhancements/user-display/EnhancedUserDisplay.tsx and is defined here once.
 */
module Navigation {
  import opened Outcomes
  import opened Strings
  import AuthContext

  /** `.map(n => n[0]).join('')`: `n[0]` of an empty segment is `undefined`, which `join` writes as ''. */
  function FirstChars(parts: seq<string>): (r: string)
    ensures |r| <= |parts|
  {
    if parts == [] then "" else (if parts[0] == "" then "" else [parts[0][0]]) + FirstChars(parts[1..])
  }

  /** `getInitials(name)` */
  function GetInitials(name: Option<string>): (initials: string)
    ensures name.None? || name.value == "" ==> initials == "U"
    ensures name.Some? && name.value != "" ==> |initials| <= |Split(name.value, ' ')|
    ensures name.Some? && name.value != "" ==> initials == Upper(WordStarts(name.value))
  {
    if name.None? || name.value == "" then "U"
    else
      InitialsAreWordStarts(name.value);
      Upper(FirstChars(Split(name.value, ' ')))
  }

  /**
   * A reference reading of the initials: scanning left to right, keep each
   * character that is not a space and comes first or right after a space.
   */
  function Starts(s: string, afterSpace: bool): string {
    if s == [] then ""
    else if s[0] == ' ' then Starts(s[1..], true)
    else (if afterSpace then [s[0]] else "") + Starts(s[1..], false)
  }

  function WordStarts(s: string): string {
    Starts(s, true)
  }

  /** The split/map/join expression keeps exactly the first character of every word. */
  lemma InitialsAreWordStarts(s: string)
    ensures FirstChars(Split(s, ' ')) == WordStarts(s)
  {
    StartsOfSplit(s);
  }

  lemma {:induction false} StartsOfSplit(s: string)
    ensures FirstChars(Split(s, ' ')) == Starts(s, true)
    ensures FirstChars(Split(s, ' ')[1..]) == Starts(s, false)
    decreases |s|
  {
    if s == [] {
    } else if s[0] == ' ' {
      StartsOfSplit(s[1..]);
      assert Split(s, ' ')[1..] == Split(s[1..], ' ');
    } else {
      StartsOfSplit(s[1..]);
      var rest := Split(s[1..], ' ');
      assert Split(s, ' ') == [[s[0]] + rest[0]] + rest[1..];
      assert Split(s, ' ')[1..] == rest[1..];
    }
  }

  /** Two spaces in a row give the same initials as one. */
  lemma {:induction false} DoubleSpace(a: string, b: string, afterSpace: bool)
    ensures Starts(a + "  " + b, afterSpace) == Starts(a + " " + b, afterSpace)
  {
    if a == [] {
      assert a + "  " + b == "  " + b;
      assert a + " " + b == " " + b;
      assert ("  " + b)[1..] == " " + b;
      assert (" " + b)[1..] == b;
    } else {
      DoubleSpace(a[1..], b, a[0] == ' ');
      assert (a + "  " + b)[1..] == a[1..] + "  " + b;
      assert (a + " " + b)[1..] == a[1..] + " " + b;
    }
  }

  lemma InitialsIgnoreDoubleSpaces(a: string, b: string)
    ensures GetInitials(Some(a + "  " + b)) == GetInitials(Some(a + " " + b))
  {
    assert |a + " " + b| > 0 && |a + "  " + b| > 0;
    DoubleSpace(a, b, true);
  }

  lemma InitialsExamples()
    ensures GetInitials(None) == "U"
    ensures GetInitials(Some("")) == "U"
  {
  }

  /** Two words give two initials, upper-cased. */
  lemma TwoWordInitials()
    ensures GetInitials(Some("ab cd")) == "AC"
  {
    var s := "ab cd";
    assert s[1..] == "b cd" && s[1..][1..] == " cd" && s[1..][1..][1..] == "cd" && "cd"[1..] == "d";
    assert Starts("d", false) == "" by { assert "d"[1..] == ""; }
    assert Starts("cd", true) == "c";
    assert WordStarts(s) == "ac";
    assert Upper("ac") == "AC";
  }

  /** A name made of spaces only has no initials at all, not even the 'U' fallback. */
  lemma BlankNameInitials()
    ensures GetInitials(Some(" ")) == ""
  {
    assert Starts(" ", true) == "" by { assert " "[1..] == ""; }
  }

  /** `getInitials(user.name)` in the avatar. */
  function AvatarInitials(user: AuthContext.User): string {
    GetInitials(user.name)
  }

  /** The avatar depends on `user.name` alone; the email is only displayed. */
  lemma AvatarIgnoresEmail(user: AuthContext.User, email: string)
    ensures AvatarInitials(user.(email := email)) == AvatarInitials(user)
  {
  }
}
