/** The sidebar (client/src/components/Sidebar.tsx): which navigation item is highlighted for
    the current location, and the theme button. */
module Sidebar {
  import opened Text

  /** The `href` of each `navigation` item, in order. */
  const Hrefs: seq<string> := ["/", "/cases", "/clients", "/reminders", "/profile"]

  /** `location === href || (href !== "/" && location.startsWith(href))`: there is no
      segment boundary, so "/casesX" highlights "/cases". */
  function IsActive(location: string, href: string): (active: bool)
    ensures href == "/" ==> (active <==> location == "/")
    ensures href != "/" ==> (active <==> StartsWith(location, href))
  {
    location == href || (href != "/" && StartsWith(location, href))
  }

  /** "/casesX" highlights the Cases item. */
  lemma NoSegmentBoundary()
    ensures IsActive("/casesX", "/cases")
  {
    assert "/casesX"[..|"/cases"|] == "/cases";
  }

  /** The positions of the highlighted items. */
  function ActiveItems(location: string): (r: set<nat>)
    ensures forall i | i in r :: i < |Hrefs| && IsActive(location, Hrefs[i])
    ensures forall i | 0 <= i < |Hrefs| && IsActive(location, Hrefs[i]) :: i in r
  {
    set i: nat | i < |Hrefs| && IsActive(location, Hrefs[i])
  }

  /** The five hrefs are such that at most one item is highlighted at any location. */
  lemma AtMostOneActive(location: string)
    ensures |ActiveItems(location)| <= 1
  {
    var r := ActiveItems(location);
    if |r| > 1 {
      var i :| i in r;
      assert |r - {i}| == |r| - 1;
      var j :| j in r - {i};
      ActiveItemSignature(location, i);
      ActiveItemSignature(location, j);
    }
  }

  /** What a highlighted item says about the location: the root item needs the location
      "/", every other item a location of at least three characters whose third character is
      the item's own, and the five items' third characters differ. */
  lemma ActiveItemSignature(location: string, i: nat)
    requires i < |Hrefs| && IsActive(location, Hrefs[i])
    ensures i == 0 ==> |location| == 1
    ensures i > 0 ==> |location| >= 3 && location[2] == Hrefs[i][2]
    ensures i > 0 ==> forall j | 0 < j < |Hrefs| && j != i :: Hrefs[j][2] != Hrefs[i][2]
  {
    if i > 0 {
      assert location[..|Hrefs[i]|] == Hrefs[i];
      assert location[2] == location[..|Hrefs[i]|][2];
    }
  }

  // ---------------------------------------------------------------------------
  // Theme
  // ---------------------------------------------------------------------------

  /** The theme button: light to dark, dark to system, anything else to light. */
  function NextTheme(theme: string): (t: string)
    ensures theme == "light" ==> t == "dark"
    ensures theme == "dark" ==> t == "system"
    ensures theme != "light" && theme != "dark" ==> t == "light"
  {
    if theme == "light" then "dark" else if theme == "dark" then "system" else "light"
  }

  /** Three presses bring each of the three themes back; from any other value, two presses
      reach dark at the latest and the cycle is entered. */
  lemma ThemeCycle(theme: string)
    ensures theme in {"light", "dark", "system"} ==> NextTheme(NextTheme(NextTheme(theme))) == theme
    ensures NextTheme(theme) in {"light", "dark", "system"}
  {
  }
}
