/**
 * components/app-sidebar.tsx: the navigation entries with the active one highlighted,
 * and the initials shown in the user's avatar.
 */
module AppSidebar {
  import opened Wrappers
  import opened Text

  datatype MenuItem = MenuItem(title: string, url: string)

  const MenuItems: seq<MenuItem> := [
    MenuItem("Dashboard", "/dashboard"),
    MenuItem("Schedule Call", "/schedule"),
    MenuItem("Call History", "/history"),
    MenuItem("Integrations", "/integrations")
  ]

  /** `isActive={pathname === item.url}`. */
  predicate IsActive(pathname: string, item: MenuItem) {
    pathname == item.url
  }

  /** The entries have different urls, so at most one is highlighted for any path. */
  lemma AtMostOneActive(pathname: string, i: nat, j: nat)
    requires i < |MenuItems| && j < |MenuItems|
    requires IsActive(pathname, MenuItems[i]) && IsActive(pathname, MenuItems[j])
    ensures i == j
  {
    // the urls differ in length, except /schedule and /history, which differ at index 1
    assert MenuItems[1].url[1] == 's' && MenuItems[2].url[1] == 'h';
  }

  /** `.map(n => n[0]).join("")`: the first character of each word; an empty word gives nothing. */
  function FirstChars(words: seq<string>): string
    decreases |words|
  {
    if words == [] then ""
    else (if words[0] == "" then "" else [words[0][0]]) + FirstChars(words[1..])
  }

  /**
   * The characters that start a word of `s`: a non-space character at the start or after
   * a space. `atStart` says whether the previous character was a space (or there was none).
   */
  function WordStarts(s: string, atStart: bool): string
    decreases |s|
  {
    if s == [] then ""
    else (if atStart && s[0] != ' ' then [s[0]] else "") + WordStarts(s[1..], s[0] == ' ')
  }

  /** A space-free string has no word start after its first character. */
  lemma {:induction false} WordStartsInWord(w: string, atStart: bool)
    requires ' ' !in w
    ensures WordStarts(w, atStart) == if atStart && w != [] then [w[0]] else ""
    decreases |w|
  {
    if w != [] {
      WordStartsInWord(w[1..], false);
    }
  }

  /** Across `w + " " + rest`, the word starts are `w`'s first character and those of `rest`. */
  lemma {:induction false} WordStartsAcrossSpace(w: string, rest: string, atStart: bool)
    requires ' ' !in w
    ensures WordStarts(w + [' '] + rest, atStart)
         == (if atStart && w != [] then [w[0]] else "") + WordStarts(rest, true)
    decreases |w|
  {
    var s := w + [' '] + rest;
    if w == [] {
      assert s[1..] == rest;
    } else {
      assert s[1..] == w[1..] + [' '] + rest;
      WordStartsAcrossSpace(w[1..], rest, false);
    }
  }

  /** Taking the first character of each piece of `split(" ")` picks exactly the word starts. */
  lemma {:induction false} FirstCharsOfSplit(s: string)
    ensures FirstChars(Split(s, ' ')) == WordStarts(s, true)
    decreases |s|
  {
    if ' ' in s {
      var k := IndexOf(s, ' ');
      var w, rest := s[..k], s[k + 1..];
      assert s == w + [' '] + rest;
      FirstCharsOfSplit(rest);
      WordStartsAcrossSpace(w, rest, true);
      assert Split(s, ' ') == [w] + Split(rest, ' ');
      assert Split(s, ' ')[1..] == Split(rest, ' ');
    } else {
      WordStartsInWord(s, true);
    }
  }

  /** `getUserInitials(name, email)`. */
  function GetUserInitials(name: Option<string>, email: Option<string>): string {
    if name.Some? && name.value != "" then ToUpper(FirstChars(Split(name.value, ' ')))
    else if email.Some? && email.value != "" then ToUpper(email.value[..if |email.value| < 2 then |email.value| else 2])
    else "U"
  }

  /**
   * A non-empty name gives its word initials upper-cased, whatever the email; otherwise a
   * non-empty email gives its first two characters upper-cased; otherwise "U".
   */
  lemma InitialsSpec(name: Option<string>, email: Option<string>)
    ensures name.Some? && name.value != "" ==>
      GetUserInitials(name, email) == ToUpper(WordStarts(name.value, true))
    ensures (name.None? || name.value == "") && email.Some? && |email.value| >= 2 ==>
      GetUserInitials(name, email) == [ToUpperChar(email.value[0]), ToUpperChar(email.value[1])]
    ensures (name.None? || name.value == "") && email.Some? && |email.value| == 1 ==>
      GetUserInitials(name, email) == [ToUpperChar(email.value[0])]
    ensures (name.None? || name.value == "") && (email.None? || email.value == "") ==>
      GetUserInitials(name, email) == "U"
  {
    if name.Some? && name.value != "" {
      FirstCharsOfSplit(name.value);
    }
  }

  /** A two-word name such as "Jane Doe" gives two letters. */
  lemma TwoWordName(first: string, last: string, email: Option<string>)
    requires first != "" && last != "" && ' ' !in first && ' ' !in last
    ensures GetUserInitials(Some(first + " " + last), email) == ToUpper([first[0], last[0]])
  {
    InitialsSpec(Some(first + " " + last), email);
    WordStartsAcrossSpace(first, last, true);
    WordStartsInWord(last, true);
  }
}
