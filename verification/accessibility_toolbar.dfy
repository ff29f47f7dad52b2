/**
 * The `src` accessibility toolbar's own decisions: the font-size stepper
 * over a fixed list of sizes, and the theme button.
 */
module AccessibilityToolbar {
  import opened SrcAccessibilityStore

  /** The sizes the stepper moves through, smallest first. */
  const Sizes: seq<int> := [14, 16, 18, 20, 24]

  /** `sizes.indexOf(fontSize)`: the position of the size, or -1. */
  function IndexOf(s: seq<int>, x: int): (k: int)
    ensures -1 <= k < |s|
    ensures k == -1 <==> x !in s
    ensures k >= 0 ==> s[k] == x && forall j :: 0 <= j < k ==> s[j] != x
  {
    if s == [] then -1
    else if s[0] == x then 0
    else
      var k := IndexOf(s[1..], x);
      if k == -1 then -1 else k + 1
  }

  /** `increaseFontSize`: the next listed size; the largest stays; an unlisted size goes to the first. */
  function IncreaseFontSize(fontSize: int): (r: int)
    ensures r in Sizes
    ensures fontSize in Sizes && fontSize < 24 ==> r > fontSize && forall x :: x in Sizes && fontSize < x ==> r <= x
    ensures fontSize == 24 ==> r == 24
    ensures fontSize !in Sizes ==> r == 14
  {
    var i := IndexOf(Sizes, fontSize);
    if i < |Sizes| - 1 then Sizes[i + 1] else fontSize
  }

  /** `decreaseFontSize`: the previous listed size; the smallest and unlisted sizes stay. */
  function DecreaseFontSize(fontSize: int): (r: int)
    ensures fontSize in Sizes ==> r in Sizes
    ensures fontSize in Sizes && fontSize > 14 ==> r < fontSize && forall x :: x in Sizes && x < fontSize ==> r >= x
    ensures fontSize == 14 || fontSize !in Sizes ==> r == fontSize
  {
    var i := IndexOf(Sizes, fontSize);
    if i > 0 then Sizes[i - 1] else fontSize
  }

  /** Increasing then decreasing from a listed size below the largest gives the size back, and conversely. */
  lemma StepsUndo(fontSize: int)
    requires fontSize in Sizes
    ensures fontSize != 24 ==> DecreaseFontSize(IncreaseFontSize(fontSize)) == fontSize
    ensures fontSize != 14 ==> IncreaseFontSize(DecreaseFontSize(fontSize)) == fontSize
  {
  }

  /** Any run of presses (true for increase) from a listed size never leaves the list. */
  function Steps(fontSize: int, ups: seq<bool>): (r: int)
    ensures fontSize in Sizes ==> r in Sizes
    decreases ups
  {
    if ups == [] then fontSize
    else Steps(if ups[0] then IncreaseFontSize(fontSize) else DecreaseFontSize(fontSize), ups[1..])
  }

  /** `toggleThemeHandler`: 'light' becomes 'dark', anything else 'light' — the store's own toggle. */
  function ToggleThemeHandler(theme: Theme): (r: Theme)
    ensures r == Dark <==> theme == Light
    ensures r == Light <==> theme != Light
  {
    if theme == Light then Dark else Light
  }

  /** The toolbar's theme button and the store's `toggleTheme` agree. */
  lemma ThemeButtonMatchesStore(s: Settings)
    ensures s.(theme := ToggleThemeHandler(s.theme)) == ToggleTheme(s)
  {
  }
}
