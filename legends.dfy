/**
 * The key legends shown at the bottom of the two screens (lib/legends.py):
 * lists of `(key, description)` pairs in display order. The document legend
 * depends on the platform, given here as the value `platform.system()` returns.
 */
module Legends {
  import Dict

  /** A legend: `(key, description)` pairs, left to right. */
  type Legend = seq<(string, string)>

  /** The entry that closes both legends. */
  function Quit(): (string, string)
  {
    ("[Q]", " Quit ")
  }

  /** The entry only macOS gets. */
  function CopyKey(): (string, string)
  {
    ("[C]", " Copy Key ")
  }

  // Each legend below is written as the list its builder ends with: the
  // initial literal followed by the entries it appends, in order.

  /** `main()`: the legend of the connector list, closing with Quit. */
  function MainLegend(): (l: Legend)
    ensures |l| == 9
    ensures Dict.Keys(l) == ["[UP]", "[DOWN]", "[R]", "[O]", "[S]", "[C]", "[U]", "[T]", "[Q]"]
    ensures Dict.Distinct(Dict.Keys(l))
    ensures l[|l| - 1] == Quit()
  {
    var l := [ ("[UP]", " Scroll up "),
               ("[DOWN]", " Scroll down "),
               ("[R]", " Refresh "),
               ("[O]", " Overview "),
               ("[S]", " Status "),
               ("[C]", " Config "),
               ("[U]", " Update Config "),
               ("[T]", " Tasks "),
               ("[Q]", " Quit ")];
    assert Dict.Keys(l) == ["[UP]", "[DOWN]", "[R]", "[O]", "[S]", "[C]", "[U]", "[T]", "[Q]"];
    l
  }

  /**
   * `document()`: the legend of the document screen, with Copy Key right before
   * Quit exactly when the platform is macOS.
   */
  function DocumentLegend(system: string): (l: Legend)
    ensures CopyKey() in l <==> system == "Darwin"
    ensures |l| == if system == "Darwin" then 6 else 5
    ensures l[|l| - 1] == Quit()
    ensures system == "Darwin" ==> l[|l| - 2] == CopyKey()
    ensures Dict.Distinct(Dict.Keys(l))
  {
    if system == "Darwin" then
      var l := [ ("[UP]", " Scroll up "),
                 ("[DOWN]", " Scroll down "),
                 ("[L]", " Toggle Line Numbers "),
                 ("[O]", " Open in System Editor "),
                 ("[C]", " Copy Key "),
                 ("[Q]", " Quit ")];
      assert Dict.Keys(l) == ["[UP]", "[DOWN]", "[L]", "[O]", "[C]", "[Q]"];
      l
    else
      var l := [ ("[UP]", " Scroll up "),
                 ("[DOWN]", " Scroll down "),
                 ("[L]", " Toggle Line Numbers "),
                 ("[O]", " Open in System Editor "),
                 ("[Q]", " Quit ")];
      assert Dict.Keys(l) == ["[UP]", "[DOWN]", "[L]", "[O]", "[Q]"];
      l
  }

  /**
   * The two platform variants of the document legend share their first four
   * entries and their last; macOS adds only Copy Key between them.
   */
  lemma DocumentLegendVariants(system: string)
    requires system != "Darwin"
    ensures DocumentLegend("Darwin")[..4] == DocumentLegend(system)[..4]
    ensures DocumentLegend("Darwin") == DocumentLegend(system)[..4] + [CopyKey(), Quit()]
  {
  }
}
