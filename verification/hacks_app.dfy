/** `Hacks/src/App.tsx`: the CSS values chosen for the font preferences. */
module HacksApp {
  import Strings

  const FontSizes: map<string, string> :=
    map["small" := "14px", "medium" := "16px", "large" := "18px", "extra-large" := "22px"]

  const DefaultFontStack := "system-ui, -apple-system, sans-serif"
  const DyslexicFont := "OpenDyslexic"
  const DyslexicFontStack := DyslexicFont + ", \"Comic Sans MS\", cursive, sans-serif"

  const FontFamilies: map<string, string> :=
    map["default" := DefaultFontStack, "dyslexia-friendly" := DyslexicFontStack]

  /** `getFontSizeValue`: the table entry, or the medium size for any other name. */
  function FontSizeValue(size: string): (r: string)
    ensures size in FontSizes ==> r == FontSizes[size]
    ensures size !in FontSizes ==> r == "16px"
    ensures r in FontSizes.Values
  {
    if size in FontSizes then FontSizes[size] else FontSizes["medium"]
  }

  /** `getFontFamilyValue`: the table entry, or the default stack for any other name. */
  function FontFamilyValue(family: string): (r: string)
    ensures family == "dyslexia-friendly" ==> r == DyslexicFontStack && Strings.StartsWith(r, DyslexicFont)
    ensures family != "dyslexia-friendly" ==> r == DefaultFontStack
  {
    if family in FontFamilies then
      assert family == "dyslexia-friendly" ==> FontFamilies[family] == DyslexicFontStack;
      FontFamilies[family]
    else FontFamilies["default"]
  }
}
