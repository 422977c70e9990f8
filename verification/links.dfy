/**
 * The deep links into Google Sheets that the list tile and the detail view
 * offer: one opens a spreadsheet, the other opens one of its inner sheets by
 * grid id, given both as a query parameter and as a fragment. Each template
 * has a decoder, and the two are proved to be inverse to each other.
 */
module Links {
  import opened Domain
  import opened Text

  const SpreadsheetsBase := "https://docs.google.com/spreadsheets/d/"
  const EditSuffix := "/edit"

  /** The "Open" link of a spreadsheet. */
  function OpenUrl(sheetId: string): (u: string)
    ensures SpreadsheetsBase <= u
    ensures |u| == |SpreadsheetsBase| + |sheetId| + |EditSuffix|
    ensures u[|SpreadsheetsBase|..|u| - |EditSuffix|] == sheetId
    ensures u[|u| - |EditSuffix|..] == EditSuffix
  {
    SpreadsheetsBase + sheetId + EditSuffix
  }

  /** What the tab link appends to the spreadsheet link: the grid id as query and fragment. */
  function GidSelector(gid: nat): string
  {
    "?gid=" + Decimal(gid) + "#gid=" + Decimal(gid)
  }

  /** The "Open tab" link of one inner sheet. */
  function TabUrl(sheetId: string, gid: nat): (u: string)
    ensures OpenUrl(sheetId) <= u
  {
    OpenUrl(sheetId) + GidSelector(gid)
  }

  /** The spreadsheet id an open link names, if `u` has that form. */
  function SheetIdOf(u: string): Option<string>
  {
    if |SpreadsheetsBase| + |EditSuffix| <= |u| && SpreadsheetsBase <= u
       && u[|u| - |EditSuffix|..] == EditSuffix
    then Some(u[|SpreadsheetsBase|..|u| - |EditSuffix|])
    else None
  }

  /** Decoding an open link gives back its spreadsheet id. */
  lemma OpenUrlRoundTrip(sheetId: string)
    ensures SheetIdOf(OpenUrl(sheetId)) == Some(sheetId)
  {
    var u := OpenUrl(sheetId);
    assert u[|u| - |EditSuffix|..] == EditSuffix;
  }

  /** Whatever `SheetIdOf` accepts is exactly the open link of the id it returns. */
  lemma SheetIdOfExact(u: string, sheetId: string)
    requires SheetIdOf(u) == Some(sheetId)
    ensures OpenUrl(sheetId) == u
  {
    assert u == u[..|SpreadsheetsBase|] + u[|SpreadsheetsBase|..|u| - |EditSuffix|] + u[|u| - |EditSuffix|..];
  }

  /** The spreadsheet id and grid id a tab link names, if `u` has that form. */
  function DecodeTabUrl(u: string): Option<(string, nat)>
  {
    var digits := TrailingDigits(u);
    if digits == [] then None
    else
      var gid := ParseDecimal(digits);
      var selector := GidSelector(gid);
      if |selector| <= |u| && u[|u| - |selector|..] == selector then
        match SheetIdOf(u[..|u| - |selector|])
        case Some(sheetId) => Some((sheetId, gid))
        case None => None
      else None
  }

  /** Decoding a tab link gives back its spreadsheet id and grid id. */
  lemma TabUrlRoundTrip(sheetId: string, gid: nat)
    ensures DecodeTabUrl(TabUrl(sheetId, gid)) == Some((sheetId, gid))
  {
    var u := TabUrl(sheetId, gid);
    var d := Decimal(gid);
    var p := OpenUrl(sheetId) + "?gid=" + d + "#gid=";
    assert u == p + d;
    TrailingDigitsAfter(p, d);
    ParseDecimalOfDecimal(gid);
    var selector := GidSelector(gid);
    assert u[|u| - |selector|..] == selector;
    assert u[..|u| - |selector|] == OpenUrl(sheetId);
    OpenUrlRoundTrip(sheetId);
  }

  /** What `DecodeTabUrl` checks of a link it accepts: a grid-id selector after an open link. */
  lemma DecodeTabUrlParts(u: string, sheetId: string, gid: nat)
    requires DecodeTabUrl(u) == Some((sheetId, gid))
    ensures |GidSelector(gid)| <= |u| && u[|u| - |GidSelector(gid)|..] == GidSelector(gid)
    ensures SheetIdOf(u[..|u| - |GidSelector(gid)|]) == Some(sheetId)
  {
  }

  /** An open link followed by a grid-id selector is that tab's link. */
  lemma TabUrlFromParts(u: string, sheetId: string, gid: nat)
    requires |GidSelector(gid)| <= |u| && u[|u| - |GidSelector(gid)|..] == GidSelector(gid)
    requires OpenUrl(sheetId) == u[..|u| - |GidSelector(gid)|]
    ensures TabUrl(sheetId, gid) == u
  {
    assert u == u[..|u| - |GidSelector(gid)|] + u[|u| - |GidSelector(gid)|..];
  }

  /** Whatever `DecodeTabUrl` accepts is exactly the tab link of the ids it returns. */
  lemma DecodeTabUrlExact(u: string, sheetId: string, gid: nat)
    requires DecodeTabUrl(u) == Some((sheetId, gid))
    ensures TabUrl(sheetId, gid) == u
  {
    DecodeTabUrlParts(u, sheetId, gid);
    SheetIdOfExact(u[..|u| - |GidSelector(gid)|], sheetId);
    TabUrlFromParts(u, sheetId, gid);
  }

  /** Different inner sheets never share a tab link. */
  lemma TabUrlInjective(a: string, g: nat, b: string, h: nat)
    requires TabUrl(a, g) == TabUrl(b, h)
    ensures a == b && g == h
  {
    TabUrlRoundTrip(a, g);
    TabUrlRoundTrip(b, h);
  }
}
