/**
 * Displays as the screen API reports them, the choice of the display to
 * dock to, and the list of screens offered to the settings panel: sorted
 * left to right, then top to bottom, and named.
 */
module Displays {
  import opened DockGeometry

  datatype Option<T> = None | Some(value: T)

  /** A point in screen coordinates (the cursor position). */
  datatype Point = Point(x: int, y: int)

  /** A display: its id, its full bounds and its work area (the bounds less taskbars and docks). */
  datatype Display = Display(id: int, bounds: Bounds, workArea: Bounds)

  /** A display as the settings panel lists it: every field of the display plus a name. */
  datatype Screen = Screen(display: Display, name: string)

  // ---------------------------------------------------------------------
  // Choosing the display to dock to

  /** The first display whose id is `id`, if there is one. */
  function FirstWithId(displays: seq<Display>, id: int): (r: Option<Display>)
    ensures r.None? <==> forall i :: 0 <= i < |displays| ==> displays[i].id != id
    ensures r.Some? ==> exists i :: 0 <= i < |displays| && displays[i] == r.value && r.value.id == id
                                    && forall j :: 0 <= j < i ==> displays[j].id != id
  {
    if displays == [] then None
    else if displays[0].id == id then Some(displays[0])
    else
      var r := FirstWithId(displays[1..], id);
      assert r.Some? ==> exists i :: 0 <= i < |displays[1..]| && displays[1..][i] == r.value && r.value.id == id
                                    && forall j :: 0 <= j < i ==> displays[1..][j].id != id;
      assert r.Some? ==> exists i :: 1 <= i < |displays| && displays[i] == r.value && r.value.id == id
                                    && forall j :: 1 <= j < i ==> displays[j].id != id;
      r
  }

  /**
   * The display the window docks to: the first one whose id is the
   * configured `dockScreen`, or else the one the screen API finds nearest
   * to the cursor. The choice never fails.
   */
  function SelectDockDisplay(displays: seq<Display>, dockScreen: int,
                             nearest: Point -> Display, cursor: Point): (d: Display)
    ensures (exists i :: 0 <= i < |displays| && displays[i].id == dockScreen) ==>
              d.id == dockScreen && d in displays
    ensures (exists i :: 0 <= i < |displays| && displays[i].id == dockScreen) ==>
              exists i :: 0 <= i < |displays| && displays[i] == d
                          && forall j :: 0 <= j < i ==> displays[j].id != dockScreen
    ensures (forall i :: 0 <= i < |displays| ==> displays[i].id != dockScreen) ==>
              d == nearest(cursor)
  {
    match FirstWithId(displays, dockScreen)
    case Some(d) => d
    case None => nearest(cursor)
  }

  // ---------------------------------------------------------------------
  // Sorting displays by position

  /** `a` comes no later than `b`: left to right by the x of their bounds, then top to bottom by y. */
  predicate PositionLe(a: Display, b: Display)
  {
    a.bounds.x < b.bounds.x || (a.bounds.x == b.bounds.x && a.bounds.y <= b.bounds.y)
  }

  predicate SortedByPosition(s: seq<Display>)
  {
    forall i, j :: 0 <= i < j < |s| ==> PositionLe(s[i], s[j])
  }

  /** Inserts `d` into a sorted sequence, before the first element it does not follow. */
  function InsertByPosition(d: Display, s: seq<Display>): (r: seq<Display>)
    requires SortedByPosition(s)
    ensures SortedByPosition(r)
    ensures multiset(r) == multiset(s) + multiset{d}
  {
    if s == [] || PositionLe(d, s[0]) then
      assert forall j :: 0 <= j < |s| ==> PositionLe(d, s[j]) by {
        if s != [] { assert forall j :: 0 <= j < |s| ==> PositionLe(s[0], s[j]); }
      }
      [d] + s
    else
      var t := InsertByPosition(d, s[1..]);
      assert forall k :: 0 <= k < |t| ==> PositionLe(s[0], t[k]) by {
        forall k | 0 <= k < |t| ensures PositionLe(s[0], t[k]) {
          assert t[k] in multiset(t);
          if t[k] != d {
            assert t[k] in multiset(s[1..]);
            var j :| 0 <= j < |s[1..]| && s[1..][j] == t[k];
            assert s[j + 1] == t[k];
          }
        }
      }
      assert s == [s[0]] + s[1..];
      [s[0]] + t
  }

  /** The displays in position order; displays at the same position keep their order. */
  function SortByPosition(s: seq<Display>): (r: seq<Display>)
    ensures SortedByPosition(r)
    ensures multiset(r) == multiset(s)
    ensures |r| == |s|
  {
    if s == [] then []
    else
      assert s == [s[0]] + s[1..];
      InsertByPosition(s[0], SortByPosition(s[1..]))
  }

  /** The displays of `s` whose bounds start at (x, y), in the order of `s`. */
  function AtPosition(s: seq<Display>, x: int, y: int): seq<Display>
  {
    if s == [] then []
    else (if s[0].bounds.x == x && s[0].bounds.y == y then [s[0]] else []) + AtPosition(s[1..], x, y)
  }

  /** Inserting puts `d` ahead of every display already at its position. */
  lemma {:induction false} InsertKeepsOrderAtPosition(d: Display, s: seq<Display>, x: int, y: int)
    requires SortedByPosition(s)
    ensures AtPosition(InsertByPosition(d, s), x, y) ==
              if d.bounds.x == x && d.bounds.y == y then [d] + AtPosition(s, x, y) else AtPosition(s, x, y)
  {
    var r := InsertByPosition(d, s);
    if s == [] || PositionLe(d, s[0]) {
      assert r[1..] == s;
    } else {
      assert r[1..] == InsertByPosition(d, s[1..]);
      InsertKeepsOrderAtPosition(d, s[1..], x, y);
    }
  }

  /** The sort is stable: at every position the displays keep the order in which they were listed. */
  lemma {:induction false} SortKeepsOrderAtPosition(s: seq<Display>, x: int, y: int)
    ensures AtPosition(SortByPosition(s), x, y) == AtPosition(s, x, y)
  {
    if s != [] {
      SortKeepsOrderAtPosition(s[1..], x, y);
      InsertKeepsOrderAtPosition(s[0], SortByPosition(s[1..]), x, y);
    }
  }

  // ---------------------------------------------------------------------
  // Names of screens

  function DigitChar(d: nat): (c: char)
    requires d < 10
    ensures '0' <= c <= '9'
  {
    ('0' as int + d) as char
  }

  predicate IsDigits(s: string)
  {
    forall k :: 0 <= k < |s| ==> '0' <= s[k] <= '9'
  }

  /** A natural number written in decimal, as a template literal writes it. */
  function DecimalString(n: nat): (s: string)
    ensures |s| >= 1 && IsDigits(s)
    ensures |s| > 1 ==> s[0] != '0'
  {
    if n < 10 then [DigitChar(n)] else DecimalString(n / 10) + [DigitChar(n % 10)]
  }

  /** The value of a string of decimal digits. */
  function DecimalValue(s: string): nat
    requires IsDigits(s)
  {
    if s == [] then 0 else 10 * DecimalValue(s[..|s| - 1]) + (s[|s| - 1] as int - '0' as int)
  }

  /** Reading back a decimal string gives the number it was written from. */
  lemma {:induction false} DecimalRoundTrip(n: nat)
    ensures DecimalValue(DecimalString(n)) == n
  {
    var s := DecimalString(n);
    if n >= 10 {
      DecimalRoundTrip(n / 10);
      assert s[..|s| - 1] == DecimalString(n / 10);
    }
  }

  /** Distinct numbers are written as distinct strings. */
  lemma DecimalStringInjective(m: nat, n: nat)
    requires m != n
    ensures DecimalString(m) != DecimalString(n)
  {
    DecimalRoundTrip(m);
    DecimalRoundTrip(n);
  }

  const PrimaryDisplayName: string := "Primary Display"

  /** The name of the display at 0-based position `index` of the sorted list. */
  function ScreenName(d: Display, index: nat, primaryId: int): string
  {
    if d.id == primaryId then PrimaryDisplayName else "Display " + DecimalString(index + 1)
  }

  function DisplaysOf(screens: seq<Screen>): (ds: seq<Display>)
    ensures |ds| == |screens|
    ensures forall i :: 0 <= i < |screens| ==> ds[i] == screens[i].display
  {
    seq(|screens|, i requires 0 <= i < |screens| => screens[i].display)
  }

  /**
   * The screens the settings panel lists: every display once, sorted left
   * to right and then top to bottom; the primary one is "Primary Display",
   * every other one at sorted position i is "Display i+1".
   */
  function GetScreens(displays: seq<Display>, primaryId: int): (screens: seq<Screen>)
    ensures |screens| == |displays|
    ensures multiset(DisplaysOf(screens)) == multiset(displays)
    ensures SortedByPosition(DisplaysOf(screens))
    ensures forall x, y :: AtPosition(DisplaysOf(screens), x, y) == AtPosition(displays, x, y)
    ensures forall i :: 0 <= i < |screens| && screens[i].display.id == primaryId ==>
              screens[i].name == "Primary Display"
    ensures forall i :: 0 <= i < |screens| && screens[i].display.id != primaryId ==>
              screens[i].name == "Display " + DecimalString(i + 1)
  {
    var sorted := SortByPosition(displays);
    var screens := seq(|sorted|, i requires 0 <= i < |sorted| => Screen(sorted[i], ScreenName(sorted[i], i, primaryId)));
    assert DisplaysOf(screens) == sorted;
    assert forall x, y :: AtPosition(sorted, x, y) == AtPosition(displays, x, y) by {
      forall x, y ensures AtPosition(sorted, x, y) == AtPosition(displays, x, y) {
        SortKeepsOrderAtPosition(displays, x, y);
      }
    }
    screens
  }

  /** Two screens of the list share a name only when both are the primary display:
      the numbered names differ from each other and from "Primary Display". */
  lemma ScreenNamesDistinct(displays: seq<Display>, primaryId: int, i: nat, j: nat)
    requires i < j < |displays|
    ensures var screens := GetScreens(displays, primaryId);
            screens[i].name == screens[j].name <==>
              screens[i].display.id == primaryId && screens[j].display.id == primaryId
  {
    var screens := GetScreens(displays, primaryId);
    var prefix := "Display ";
    if screens[i].display.id == primaryId || screens[j].display.id == primaryId {
      assert screens[i].display.id != primaryId ==> screens[i].name[0] == 'D';
      assert screens[j].display.id != primaryId ==> screens[j].name[0] == 'D';
    } else {
      DecimalStringInjective(i + 1, j + 1);
      assert screens[i].name[|prefix|..] == DecimalString(i + 1);
      assert screens[j].name[|prefix|..] == DecimalString(j + 1);
    }
  }
}
