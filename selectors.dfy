/**
 * The two cyclic selectors of the control panel (App.tsx): the accent
 * theme and the background index, and how the chosen background, custom
 * image and font reach the card.
 */
module Selectors {
  import opened Wrappers
  import opened DailyLogCard

  /**
   * The accent colours the theme button cycles through; OtherTheme stands
   * for any other value the theme state may hold (the ThemeColor
   * enumeration itself, types.ts, is not part of this model).
   */
  datatype ThemeColor = Emerald | Cyan | Indigo | OtherTheme

  /** The order in which the theme button visits the accent colours. */
  const ThemeCycle: seq<ThemeColor> := [Emerald, Cyan, Indigo]

  /** handleThemeChange: the next accent colour. */
  function NextTheme(t: ThemeColor): (r: ThemeColor)
    ensures r in ThemeCycle
    ensures t in ThemeCycle ==> r != t
    ensures t !in ThemeCycle ==> r == ThemeCycle[0]
  {
    if t == Emerald then Cyan
    else if t == Cyan then Indigo
    else Emerald
  }

  /** The theme after k presses of the theme button. */
  function ThemeAfter(t: ThemeColor, k: nat): ThemeColor
    decreases k
  {
    if k == 0 then t else ThemeAfter(NextTheme(t), k - 1)
  }

  /** Each press moves one place along the cycle, wrapping around. */
  lemma NextThemeFollowsCycle(i: nat)
    requires i < |ThemeCycle|
    ensures NextTheme(ThemeCycle[i]) == ThemeCycle[(i + 1) % |ThemeCycle|]
  {
  }

  /** From a colour of the cycle, k presses land k places further along it. */
  lemma {:induction false} ThemeAfterPresses(i: nat, k: nat)
    requires i < |ThemeCycle|
    ensures ThemeAfter(ThemeCycle[i], k) == ThemeCycle[(i + k) % |ThemeCycle|]
    decreases k
  {
    if k > 0 {
      NextThemeFollowsCycle(i);
      ThemeAfterPresses((i + 1) % |ThemeCycle|, k - 1);
      assert ((i + 1) % 3 + (k - 1)) % 3 == (i + k) % 3;
    }
  }

  /** Three presses bring every colour of the cycle back; any other value joins the cycle at Emerald. */
  lemma ThemeCycleCloses(t: ThemeColor)
    ensures t in ThemeCycle ==> ThemeAfter(t, 3) == t
    ensures t !in ThemeCycle ==> ThemeAfter(t, 1) == Emerald && ThemeAfter(t, 4) == Emerald
  {
    if t in ThemeCycle {
      var i :| 0 <= i < |ThemeCycle| && ThemeCycle[i] == t;
      ThemeAfterPresses(i, 3);
    } else {
      ThemeAfterPresses(0, 3);
    }
  }

  /** An entry of BACKGROUNDS. */
  datatype Background = Background(name: string, cls: string, isDark: bool)

  const Backgrounds: seq<Background> := [
    Background("Dark", "bg-zinc-950", true),
    Background("Light", "bg-white", false)
  ]

  /** handleBgChange: the next background index, modulo the number of backgrounds. */
  function NextBackground(prev: nat): (r: nat)
    ensures r < |Backgrounds|
    ensures prev < |Backgrounds| ==> r != prev
    ensures prev + 1 < |Backgrounds| ==> r == prev + 1
  {
    (prev + 1) % |Backgrounds|
  }

  /**
   * The background button is disabled while a custom image is set, so a
   * press changes the index only without one.
   */
  function BackgroundPressed(prev: nat, customImage: Option<string>): (r: nat)
    ensures IsTruthy(customImage) ==> r == prev
    ensures !IsTruthy(customImage) ==> r == NextBackground(prev)
    ensures prev < |Backgrounds| ==> r < |Backgrounds|
    ensures prev < |Backgrounds| && !IsTruthy(customImage) ==> Backgrounds[r].isDark != Backgrounds[prev].isDark
  {
    if IsTruthy(customImage) then prev else NextBackground(prev)
  }

  /** The background index after k presses (no custom image). */
  function BackgroundAfter(i: nat, k: nat): nat
    decreases k
  {
    if k == 0 then i else BackgroundAfter(NextBackground(i), k - 1)
  }

  /** k presses advance the index by k, modulo the number of backgrounds; it stays a valid index. */
  lemma {:induction false} BackgroundAfterPresses(i: nat, k: nat)
    requires i < |Backgrounds|
    ensures BackgroundAfter(i, k) == (i + k) % |Backgrounds|
    ensures BackgroundAfter(i, k) < |Backgrounds|
    decreases k
  {
    if k > 0 {
      BackgroundAfterPresses(NextBackground(i), k - 1);
      assert ((i + 1) % 2 + (k - 1)) % 2 == (i + k) % 2;
    }
  }

  /**
   * What the card receives for background index i: a custom image turns
   * the root black and the palette dark whatever the index; without one
   * the entry's class and darkness decide, and an `auto` number colour
   * follows the resulting palette.
   */
  lemma CardAppearance(i: nat, customImage: Option<string>, numberColor: string)
    requires i < |Backgrounds|
    ensures IsTruthy(customImage) ==>
      RootBackground(customImage, Backgrounds[i].cls) == "bg-black"
      && Styles(EffectiveIsDarkMode(customImage, Backgrounds[i].isDark)) == DarkPalette
    ensures !IsTruthy(customImage) ==>
      RootBackground(customImage, Backgrounds[i].cls) == Backgrounds[i].cls
      && Styles(EffectiveIsDarkMode(customImage, Backgrounds[i].isDark))
         == (if Backgrounds[i].isDark then DarkPalette else LightPalette)
    ensures numberColor == "auto" ==>
      NumColorClass(numberColor, Styles(EffectiveIsDarkMode(customImage, Backgrounds[i].isDark)))
        == (if IsTruthy(customImage) || i == 0 then "text-white" else "text-zinc-900")
  {
  }

  /** The ids of the font picker, in its order. */
  const FontIds: seq<string> := ["standard", "sketch", "marker", "pen", "novel", "pixel", "cute", "elegant"]

  /** Every picker entry but the first has classes of its own; no two entries share a value font. */
  lemma FontPickerDistinct(i: nat, j: nat)
    requires i < j < |FontIds|
    ensures GetFontClasses(FontIds[i]).valueClass != GetFontClasses(FontIds[j]).valueClass
    ensures (GetFontClasses(FontIds[i]) == DefaultFontClasses) <==> i == 0
  {
  }
}
