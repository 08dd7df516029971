/**
 * The navigation rules of src/components/layout/DashboardLayout.tsx: the
 * sidebar entries a user sees, which entry is highlighted for the current
 * location, and the initials shown in the avatar.
 */
module Layout {
  import opened Wrappers
  import opened Auth
  import Text

  /** A sidebar entry: its label and the path it links to. */
  datatype NavItem = NavItem(name: string, href: string)

  /** The six entries every signed-in user sees, in order. */
  const BaseNavigation: seq<NavItem> := [
    NavItem("Dashboard", "/"),
    NavItem("SQL Manager", "/sql"),
    NavItem("NoSQL Manager", "/nosql"),
    NavItem("Export", "/export"),
    NavItem("Alerts", "/alerts"),
    NavItem("Settings", "/settings")
  ]

  /** The entry appended for administrators. */
  const AdminItem: NavItem := NavItem("Admin Panel", "/admin")

  /** The sidebar: the six base entries, then the admin entry iff the user holds the Admin role. */
  function Navigation(user: Option<User>): (nav: seq<NavItem>)
    ensures |nav| == if user.Some? && user.value.role == "Admin" then 7 else 6
    ensures nav[..6] == BaseNavigation
    ensures AdminItem in nav <==> user.Some? && user.value.role == "Admin"
    ensures |nav| == 7 ==> nav[6] == AdminItem
  {
    BaseNavigation + (if HasRole(user, "Admin") then [AdminItem] else [])
  }

  /** Whether the entry linking to `path` is highlighted at `pathname`. */
  function IsCurrentPath(pathname: string, path: string): (r: bool)
    ensures path == "/" ==> (r <==> pathname == "/")
    ensures path != "/" ==> (r <==> |path| <= |pathname| && pathname[..|path|] == path)
  {
    if path == "/" then pathname == "/" else Text.StartsWith(pathname, path)
  }

  /** The prefix match has no segment boundary: "/sql" is highlighted on "/sqlx" but not on "/nosql". */
  lemma PrefixMatchIgnoresSegments()
    ensures IsCurrentPath("/sqlx", "/sql")
    ensures !IsCurrentPath("/nosql", "/sql")
    ensures !IsCurrentPath("/sql", "/")
  {
  }

  /** On the page an entry links to, that entry and no other is highlighted. */
  lemma OnlyOwnEntryHighlighted(user: Option<User>, k: nat, j: nat)
    requires k < |Navigation(user)| && j < |Navigation(user)|
    ensures IsCurrentPath(Navigation(user)[k].href, Navigation(user)[j].href) <==> j == k
  {
  }

  /** `words.map(n => n[0]).join('')`: the first character of each word; an empty word adds nothing. */
  function FirstChars(words: seq<string>): (r: string)
    ensures |r| <= |words|
    ensures r == "" <==> forall i :: 0 <= i < |words| ==> words[i] == ""
    decreases |words|
  {
    if words == [] then ""
    else (if words[0] == "" then "" else [words[0][0]]) + FirstChars(words[1..])
  }

  /**
   * The characters that begin a word of `s`: a non-space character at the
   * start (when `atStart`) or right after a space.
   */
  function WordStarts(s: string, atStart: bool): string
    decreases |s|
  {
    if s == [] then ""
    else (if s[0] != ' ' && atStart then [s[0]] else "") + WordStarts(s[1..], s[0] == ' ')
  }

  /** Taking the first character of each space-separated word picks exactly the word starts. */
  lemma {:induction false} InitialsAreWordStarts(s: string)
    ensures FirstChars(Text.Split(s, ' ')) == WordStarts(s, true)
    ensures FirstChars(Text.Split(s, ' ')[1..]) == WordStarts(s, false)
    decreases |s|
  {
    if s != [] {
      InitialsAreWordStarts(s[1..]);
      var rest := Text.Split(s[1..], ' ');
      if s[0] == ' ' {
        assert Text.Split(s, ' ') == [""] + rest;
        assert Text.Split(s, ' ')[1..] == rest;
      } else {
        var parts := [[s[0]] + rest[0]] + rest[1..];
        assert Text.Split(s, ' ') == parts;
        assert parts[1..] == rest[1..];
      }
    }
  }

  /** A name has no word start exactly when it is all spaces. */
  lemma {:induction false} NoWordStartsIffBlank(s: string)
    ensures WordStarts(s, true) == "" <==> forall i :: 0 <= i < |s| ==> s[i] == ' '
    decreases |s|
  {
    if s != [] {
      NoWordStartsIffBlank(s[1..]);
      if s[0] == ' ' {
        forall i | 0 < i < |s| ensures s[i] == s[1..][i - 1] { }
      } else {
        assert WordStarts(s, true)[0] == s[0];
      }
    }
  }

  /**
   * The avatar text: the initials of the user's name, or "U" when there is no
   * user or the name has no word (it is empty or all spaces).
   */
  function AvatarText(user: Option<User>): (r: string)
    ensures r != ""
    ensures user.None? ==> r == "U"
    ensures user.Some? && (forall i :: 0 <= i < |user.value.name| ==> user.value.name[i] == ' ') ==> r == "U"
    ensures user.Some? && (exists i :: 0 <= i < |user.value.name| && user.value.name[i] != ' ') ==>
      r == WordStarts(user.value.name, true)
  {
    match user
    case None => "U"
    case Some(u) =>
      InitialsAreWordStarts(u.name);
      NoWordStartsIffBlank(u.name);
      var initials := FirstChars(Text.Split(u.name, ' '));
      if initials == "" then "U" else initials
  }

  /** For example, "Al  Bo" (two spaces) gives "AB", and a user named "" gets "U". */
  lemma AvatarExamples()
    ensures AvatarText(Some(User("1", "al@x", "Al  Bo", "Admin"))) == "AB"
    ensures AvatarText(Some(User("1", "x@y", "", "Viewer"))) == "U"
  {
    var name := "Al  Bo";
    assert name[0] != ' ';
    assert WordStarts(name[4..], true) == "B" by {
      assert name[4..][1..] == name[5..];
      assert WordStarts(name[5..], false) == "";
    }
    assert WordStarts(name[1..], false) == "B" by {
      assert name[1..][1..] == name[2..] && name[2..][1..] == name[3..] && name[3..][1..] == name[4..];
    }
    assert WordStarts(name, true) == "AB";
  }
}
