/**
 * The navigation bar (`src/components/Navbar.tsx`): the avatar's initials
 * derived from the user's name, and which of the three links is highlighted.
 */
module Navbar {
  import opened Wrappers
  import opened Text

  /** `s.charAt(0)`: the first character, or the empty string. */
  function FirstChar(s: string): (r: string)
    ensures |r| <= 1
    ensures r == [] <==> s == []
    ensures r != [] ==> r[0] == s[0]
  {
    if s == [] then "" else [s[0]]
  }

  /**
   * `getInitials(name)`: 'U' for the empty name; otherwise the trimmed name is
   * split on single spaces and the first character of the first piece, followed
   * by that of the last piece when there are several, is upper-cased.
   */
  function Initials(name: string): string {
    if name == "" then "U" else PieceInitials(Split(Trim(name), ' '))
  }

  /** The initials of the pieces of a split name. */
  function PieceInitials(names: seq<string>): string
    requires |names| >= 1
  {
    if |names| == 1 then Upper(FirstChar(names[0]))
    else Upper(FirstChar(names[0]) + FirstChar(names[|names| - 1]))
  }

  /** The avatar shows `getInitials(user?.name || '')`. */
  function AvatarText(userName: Option<string>): (r: string)
    ensures userName.None? ==> r == "U"
  {
    Initials(if userName.Some? then userName.value else "")
  }

  /** The initials are never longer than two characters. */
  lemma InitialsLength(name: string)
    ensures |Initials(name)| <= 2
  {
    if name != "" {
      var names := Split(Trim(name), ' ');
      assert |FirstChar(names[0]) + FirstChar(names[|names| - 1])| <= 2;
    }
  }

  /** A name with no space after trimming gives the upper-cased first character of the trimmed name. */
  lemma SingleTokenInitial(name: string)
    requires name != "" && ' ' !in Trim(name)
    ensures Trim(name) != "" ==> Initials(name) == [UpperChar(Trim(name)[0])]
  {
    SplitSingle(Trim(name), ' ');
  }

  /**
   * A blank but non-empty name is not the empty string, so it does not get 'U':
   * it trims to '', splits into `['']`, and the initials are empty.
   */
  lemma BlankNameNoInitials(name: string)
    requires name != "" && forall k :: 0 <= k < |name| ==> IsSpace(name[k])
    ensures Initials(name) == ""
  {
    TrimEmptyIffAllSpace(name);
    assert Split(Trim(name), ' ') == [""];
  }

  /**
   * Several space-separated pieces give two upper-cased characters: the first
   * character of the trimmed name and the first character after its last
   * space (trimming leaves neither the first nor the last piece empty).
   */
  lemma SeveralTokenInitials(name: string)
    requires ' ' in Trim(name)
    ensures var t := Trim(name);
      exists k :: 0 <= k < |t| - 1 && t[k] == ' ' && ' ' !in t[k + 1..]
        && Initials(name) == [UpperChar(t[0]), UpperChar(t[k + 1])]
  {
    var t := Trim(name);
    assert name != "" by {
      assert |t| <= |name|;
    }
    var k := PiecesEnds(t);
    UpperPair(t[0], t[k + 1]);
    assert PieceInitials(Split(t, ' ')) == Upper([t[0], t[k + 1]]);
  }

  /** The first and last pieces of a trimmed text with a space start with its first character and the one after its last space. */
  lemma PiecesEnds(t: string) returns (k: int)
    requires ' ' in t && !IsSpace(t[0]) && !IsSpace(t[|t| - 1])
    ensures 0 <= k < |t| - 1 && t[k] == ' ' && ' ' !in t[k + 1..]
    ensures var names := Split(t, ' ');
      |names| > 1 && FirstChar(names[0]) + FirstChar(names[|names| - 1]) == [t[0], t[k + 1]]
  {
    var names := Split(t, ' ');
    SplitSingle(t, ' ');
    SplitFirst(t, ' ');
    k := SplitLast(t, ' ');
    assert k != |t| - 1 by {
      assert IsSpace(' ');
    }
    assert FirstChar(names[|names| - 1]) == [t[k + 1]];
  }

  lemma UpperPair(a: char, b: char)
    ensures Upper([a, b]) == [UpperChar(a), UpperChar(b)]
  {
  }

  /** No initials exactly for a blank name that is not the empty string. */
  lemma NoInitialsIff(name: string)
    ensures |Initials(name)| == 0 <==> name != "" && forall k :: 0 <= k < |name| ==> IsSpace(name[k])
  {
    TrimEmptyIffAllSpace(name);
    if name != "" {
      var t := Trim(name);
      if ' ' in t {
        SeveralTokenInitials(name);
      } else if t != "" {
        SingleTokenInitial(name);
      } else {
        BlankNameNoInitials(name);
      }
    }
  }

  /** Two initials exactly when a space remains after trimming. */
  lemma TwoInitialsIff(name: string)
    ensures |Initials(name)| == 2 <==> ' ' in Trim(name)
  {
    if name != "" {
      var t := Trim(name);
      if ' ' in t {
        SeveralTokenInitials(name);
      } else if t != "" {
        SingleTokenInitial(name);
      } else {
        TrimEmptyIffAllSpace(name);
        BlankNameNoInitials(name);
      }
    }
  }

  /** A link of the bar. */
  datatype NavItem = NavItem(name: string, path: string)

  /** `navItems` */
  const NavItems: seq<NavItem> := [
    NavItem("Dashboard", "/dashboard"),
    NavItem("Analytics", "/analytics"),
    NavItem("Settings", "/settings")]

  /** `location.pathname === item.path` */
  predicate IsActive(pathname: string, item: NavItem) {
    pathname == item.path
  }

  /** At most one link is highlighted, and one is exactly when the location is one of the three paths. */
  lemma ActiveItemUnique(pathname: string)
    ensures forall i, j :: 0 <= i < j < |NavItems| ==> !(IsActive(pathname, NavItems[i]) && IsActive(pathname, NavItems[j]))
    ensures (exists i :: 0 <= i < |NavItems| && IsActive(pathname, NavItems[i]))
      <==> pathname in {"/dashboard", "/analytics", "/settings"}
  {
    if pathname in {"/dashboard", "/analytics", "/settings"} {
      var i := if pathname == "/dashboard" then 0 else if pathname == "/analytics" then 1 else 2;
      assert IsActive(pathname, NavItems[i]);
    }
  }
}
