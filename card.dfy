/**
 * The presentation-selection rules of the card (components/DailyLogCard.tsx):
 * font classes, the effective dark mode and its palette, the weight-trend
 * colour and icon, the number colour, the reflection text and where the
 * mascot label goes. Rendering itself is not modelled.
 */
module DailyLogCard {
  import opened Wrappers

  // ---------------------------------------------------------------------
  // Fonts

  /** The class of the labels and the class of the values. */
  datatype FontClasses = FontClasses(labelClass: string, valueClass: string)

  /** The classes of `standard` and of every id the switch does not list. */
  const DefaultFontClasses: FontClasses := FontClasses("font-sans font-bold tracking-[0.2em]", "font-mono")

  /** The font ids that have classes of their own, in the order of the switch. */
  const StyledFonts: seq<string> := ["sketch", "marker", "pen", "novel", "pixel", "cute", "elegant"]

  /** getFontClasses */
  function GetFontClasses(fontStyle: string): (r: FontClasses)
    ensures fontStyle !in StyledFonts ==> r == DefaultFontClasses
    ensures fontStyle in StyledFonts ==> r != DefaultFontClasses && r.valueClass <= r.labelClass
  {
    match fontStyle
    case "sketch" => FontClasses("font-hand font-bold tracking-[0.1em]", "font-hand")
    case "marker" => FontClasses("font-marker font-bold tracking-[0.05em]", "font-marker")
    case "pen" => FontClasses("font-pen font-bold tracking-[0.05em]", "font-pen")
    case "novel" => FontClasses("font-serif font-bold tracking-[0.2em]", "font-serif")
    case "pixel" => FontClasses("font-pixel tracking-[0.1em]", "font-pixel")
    case "cute" => FontClasses("font-cute tracking-[0.05em]", "font-cute")
    case "elegant" => FontClasses("font-elegant font-bold tracking-[0.15em]", "font-elegant")
    case _ => DefaultFontClasses
  }

  // ---------------------------------------------------------------------
  // Dark mode, palette and background

  /** The text classes of the palette the selection rules use. */
  datatype Palette = Palette(textPrimary: string, textSecondary: string, textMuted: string)

  const DarkPalette: Palette := Palette("text-white", "text-white/80", "text-white/70")
  const LightPalette: Palette := Palette("text-zinc-900", "text-zinc-700", "text-zinc-800")

  /** A custom image always darkens the card; otherwise the background decides. */
  function EffectiveIsDarkMode(customImage: Option<string>, isDarkMode: bool): (r: bool)
    ensures IsTruthy(customImage) ==> r
    ensures !IsTruthy(customImage) ==> r == isDarkMode
  {
    if IsTruthy(customImage) then true else isDarkMode
  }

  /** `styles` */
  function Styles(effectiveIsDarkMode: bool): (r: Palette)
    ensures r == DarkPalette <==> effectiveIsDarkMode
    ensures r == LightPalette <==> !effectiveIsDarkMode
    ensures r.textPrimary != r.textSecondary && r.textSecondary != r.textMuted && r.textPrimary != r.textMuted
  {
    if effectiveIsDarkMode then DarkPalette else LightPalette
  }

  /** The root element's background class: bgClass, or bg-black under a custom image. */
  function RootBackground(customImage: Option<string>, bgClass: string): (r: string)
    ensures IsTruthy(customImage) ==> r == "bg-black"
    ensures !IsTruthy(customImage) ==> r == bgClass
  {
    if !IsTruthy(customImage) then bgClass else "bg-black"
  }

  /**
   * Under a custom image the card's look does not depend on the background
   * it was given: the root class, the palette and an `auto` number colour
   * are the same for every bgClass and isDarkMode. Without one, the two
   * modes differ in every text class.
   */
  lemma CustomImageOverridesBackground(
    customImage: Option<string>, bgClass1: string, dark1: bool, bgClass2: string, dark2: bool)
    ensures IsTruthy(customImage) ==>
      && RootBackground(customImage, bgClass1) == RootBackground(customImage, bgClass2)
      && Styles(EffectiveIsDarkMode(customImage, dark1)) == Styles(EffectiveIsDarkMode(customImage, dark2))
      && NumColorClass("auto", Styles(EffectiveIsDarkMode(customImage, dark1)))
         == NumColorClass("auto", Styles(EffectiveIsDarkMode(customImage, dark2)))
    ensures !IsTruthy(customImage) && dark1 != dark2 ==>
      var s1, s2 := Styles(EffectiveIsDarkMode(customImage, dark1)), Styles(EffectiveIsDarkMode(customImage, dark2));
      s1.textPrimary != s2.textPrimary && s1.textSecondary != s2.textSecondary && s1.textMuted != s2.textMuted
  {
  }

  // ---------------------------------------------------------------------
  // Weight difference and number colour

  datatype TrendIcon = TrendingDown | TrendingUp | Minus

  /** getWeightDiffIcon */
  function WeightDiffIcon(diff: real): (r: TrendIcon)
    ensures r == TrendingDown <==> diff < 0.0
    ensures r == TrendingUp <==> diff > 0.0
    ensures r == Minus <==> diff == 0.0
  {
    if diff < 0.0 then TrendingDown
    else if diff > 0.0 then TrendingUp
    else Minus
  }

  const LossColour: string := "text-green-500"
  const GainColour: string := "text-red-500"

  /** diffColor: green for a loss, red for a gain, the secondary text class otherwise. */
  function DiffColor(diff: real, styles: Palette): (r: string)
    ensures diff < 0.0 ==> r == LossColour
    ensures diff > 0.0 ==> r == GainColour
    ensures diff == 0.0 ==> r == styles.textSecondary
    ensures r == LossColour || r == GainColour || r == styles.textSecondary
  {
    if diff < 0.0 then LossColour else (if diff > 0.0 then GainColour else styles.textSecondary)
  }

  /** The colour and the icon, computed apart, always tell the same story. */
  lemma DiffColourMatchesIcon(diff: real, dark: bool)
    ensures WeightDiffIcon(diff) == TrendingDown <==> DiffColor(diff, Styles(dark)) == LossColour
    ensures WeightDiffIcon(diff) == TrendingUp <==> DiffColor(diff, Styles(dark)) == GainColour
    ensures WeightDiffIcon(diff) == Minus <==> DiffColor(diff, Styles(dark)) == Styles(dark).textSecondary
  {
  }

  /** The number shown beside the icon: Math.abs(diff); the sign is carried by the icon. */
  function DisplayedDiff(diff: real): (r: real)
    ensures r >= 0.0
    ensures r == diff || r == -diff
  {
    if diff < 0.0 then -diff else diff
  }

  /** With the icon, the displayed magnitude gives the difference back. */
  lemma DiffRecoverable(diff: real)
    ensures diff == (if WeightDiffIcon(diff) == TrendingDown then -DisplayedDiff(diff) else DisplayedDiff(diff))
  {
  }

  /** numColorClass: the chosen colour, except `auto`, which follows the palette. */
  function NumColorClass(numberColor: string, styles: Palette): (r: string)
    ensures numberColor != "auto" ==> r == numberColor
    ensures numberColor == "auto" ==> r == styles.textPrimary
    ensures styles.textPrimary != "auto" ==> r != "auto"
  {
    if numberColor != "auto" then numberColor else styles.textPrimary
  }

  // ---------------------------------------------------------------------
  // Reflection text

  datatype ReflectionAnswer = ReflectionAnswer(id: string, text: string, emoji: string)

  const CustomPlaceholder: string := "カスタム入力..."

  /** REFLECTION_ANSWERS */
  const ReflectionAnswers: seq<ReflectionAnswer> := [
    ReflectionAnswer("yes-absolutely", "Yes, absolutely! ⭐", "⭐"),
    ReflectionAnswer("pretty-good", "Pretty good! 😊", "😊"),
    ReflectionAnswer("it-was-okay", "It was okay 😐", "😐"),
    ReflectionAnswer("amazing-day", "Amazing day! 🎉", "🎉"),
    ReflectionAnswer("not-really", "Not really... 😔", "😔"),
    ReflectionAnswer("custom", CustomPlaceholder, "✏️")
  ]

  /** The characters of the emoji class removed from an answer's text (✏️ is two: U+270F and U+FE0F). */
  const EmojiChars: set<char> := {'⭐', '😊', '😐', '🎉', '😔', '\U{270F}', '\U{FE0F}'}

  /** text.replace(/[…]/g, ''): the text with every emoji character removed. */
  function StripEmoji(s: string): (r: string)
    ensures |r| <= |s|
    ensures forall i :: 0 <= i < |r| ==> r[i] !in EmojiChars
    decreases |s|
  {
    if |s| == 0 then ""
    else (if s[0] in EmojiChars then "" else [s[0]]) + StripEmoji(s[1..])
  }

  lemma {:induction false} StripEmojiAppend(a: string, b: string)
    ensures StripEmoji(a + b) == StripEmoji(a) + StripEmoji(b)
    decreases |a|
  {
    if |a| == 0 {
      assert a + b == b;
    } else {
      assert (a + b)[0] == a[0] && (a + b)[1..] == a[1..] + b;
      StripEmojiAppend(a[1..], b);
    }
  }

  lemma {:induction false} StripEmojiKeepsPlainText(s: string)
    requires forall i :: 0 <= i < |s| ==> s[i] !in EmojiChars
    ensures StripEmoji(s) == s
    decreases |s|
  {
    if |s| > 0 {
      StripEmojiKeepsPlainText(s[1..]);
    }
  }

  lemma {:induction false} StripEmojiRemovesAll(s: string)
    requires forall i :: 0 <= i < |s| ==> s[i] in EmojiChars
    ensures StripEmoji(s) == ""
    decreases |s|
  {
    if |s| > 0 {
      StripEmojiRemovesAll(s[1..]);
    }
  }

  /** The characters String.prototype.trim removes: WhiteSpace and LineTerminator of ECMA-262. */
  predicate IsJsWhitespace(c: char) {
    c in JsWhitespace
  }

  const JsWhitespace: set<char> := {
    '\t', '\n', '\U{000B}', '\U{000C}', '\r', ' ', '\U{00A0}', '\U{1680}',
    '\U{2000}', '\U{2001}', '\U{2002}', '\U{2003}', '\U{2004}', '\U{2005}', '\U{2006}',
    '\U{2007}', '\U{2008}', '\U{2009}', '\U{200A}',
    '\U{2028}', '\U{2029}', '\U{202F}', '\U{205F}', '\U{3000}', '\U{FEFF}'}

  function TrimStart(s: string): (r: string)
    ensures |r| <= |s| && r == s[|s| - |r|..]
    ensures forall i :: 0 <= i < |s| - |r| ==> IsJsWhitespace(s[i])
    ensures r == "" || !IsJsWhitespace(r[0])
    decreases |s|
  {
    if |s| > 0 && IsJsWhitespace(s[0]) then TrimStart(s[1..]) else s
  }

  function TrimEnd(s: string): (r: string)
    ensures |r| <= |s| && r == s[..|r|]
    ensures forall i :: |r| <= i < |s| ==> IsJsWhitespace(s[i])
    ensures r == "" || !IsJsWhitespace(r[|r| - 1])
    decreases |s|
  {
    if |s| > 0 && IsJsWhitespace(s[|s| - 1]) then TrimEnd(s[..|s| - 1]) else s
  }

  /** `r` is `s[i..j]` and everything of `s` outside that slice is whitespace. */
  predicate TrimmedSlice(s: string, r: string, i: int, j: int) {
    && 0 <= i <= j <= |s| && r == s[i..j]
    && (forall k :: 0 <= k < i ==> IsJsWhitespace(s[k]))
    && (forall k :: j <= k < |s| ==> IsJsWhitespace(s[k]))
  }

  /** String.prototype.trim */
  function Trim(s: string): (r: string)
    ensures r == "" || (!IsJsWhitespace(r[0]) && !IsJsWhitespace(r[|r| - 1]))
    ensures exists i, j :: TrimmedSlice(s, r, i, j)
  {
    var t := TrimStart(s);
    var r := TrimEnd(t);
    var i := |s| - |t|;
    TrimEndOfSuffix(s, t, r, i);
    assert TrimmedSlice(s, r, i, i + |r|);
    r
  }

  /** Every character of the trimmed string comes from the string. */
  lemma TrimKeepsChars(s: string)
    ensures forall k :: 0 <= k < |Trim(s)| ==> Trim(s)[k] in s
  {
    var i, j :| TrimmedSlice(s, Trim(s), i, j);
    forall k | 0 <= k < |Trim(s)|
      ensures Trim(s)[k] in s
    {
      assert Trim(s)[k] == s[i + k] && s[i + k] in s;
    }
  }

  /** Trimming the end of the suffix `t == s[i..]` leaves a slice of `s` followed by whitespace only. */
  lemma TrimEndOfSuffix(s: string, t: string, r: string, i: int)
    requires 0 <= i <= |s| && t == s[i..]
    requires |r| <= |t| && r == t[..|r|]
    requires forall k :: |r| <= k < |t| ==> IsJsWhitespace(t[k])
    ensures r == s[i..i + |r|]
    ensures forall k :: i + |r| <= k < |s| ==> IsJsWhitespace(s[k])
  {
    forall k | i + |r| <= k < |s|
      ensures IsJsWhitespace(s[k])
    {
      assert s[k] == t[k - i];
    }
  }

  /** REFLECTION_ANSWERS.find(a => a.id === id): the first entry with that id. */
  function FindAnswer(answers: seq<ReflectionAnswer>, id: string): (r: Option<ReflectionAnswer>)
    ensures r.Some? ==> r.value in answers && r.value.id == id
    ensures r.None? ==> forall a :: a in answers ==> a.id != id
    ensures r.Some? ==> exists k :: 0 <= k < |answers| && answers[k] == r.value && forall j :: 0 <= j < k ==> answers[j].id != id
    decreases |answers|
  {
    if |answers| == 0 then None
    else if answers[0].id == id then Some(answers[0])
    else
      var r := FindAnswer(answers[1..], id);
      if r.Some? then
        var k :| 0 <= k < |answers[1..]| && answers[1..][k] == r.value && forall j :: 0 <= j < k ==> answers[1..][j].id != id;
        assert answers[k + 1] == r.value;
        assert forall j :: 0 <= j < k + 1 ==> answers[j].id != id by {
          forall j | 0 <= j < k + 1 ensures answers[j].id != id {
            if j > 0 { assert answers[j] == answers[1..][j - 1]; }
          }
        }
        r
      else r
  }

  /**
   * The reflection line: for `custom` the user's text (or the placeholder
   * when empty); for a listed id its text without emoji, trimmed; for an
   * unlisted id nothing. No emoji survives in a listed text.
   */
  function ReflectionText(reflectionAnswer: string, customReflectionText: string): (r: Option<string>)
    ensures reflectionAnswer == "custom" ==>
      r == Some(if customReflectionText != "" then customReflectionText else CustomPlaceholder)
    ensures reflectionAnswer != "custom" ==>
      (r.Some? <==> exists a :: a in ReflectionAnswers && a.id == reflectionAnswer)
    ensures reflectionAnswer != "custom" && r.Some? ==> forall i :: 0 <= i < |r.value| ==> r.value[i] !in EmojiChars
    ensures reflectionAnswer != "custom" && FindAnswer(ReflectionAnswers, reflectionAnswer).Some? ==>
      r == Some(Trim(StripEmoji(FindAnswer(ReflectionAnswers, reflectionAnswer).value.text)))
  {
    if reflectionAnswer == "custom" then
      Some(if customReflectionText != "" then customReflectionText else CustomPlaceholder)
    else
      match FindAnswer(ReflectionAnswers, reflectionAnswer)
      case None => None
      case Some(a) =>
        TrimKeepsChars(StripEmoji(a.text));
        Some(Trim(StripEmoji(a.text)))
  }

  /** Trimming words followed by one space leaves the words. */
  lemma TrimWordsSpace(words: string)
    requires words != "" && !IsJsWhitespace(words[0]) && !IsJsWhitespace(words[|words| - 1])
    ensures Trim(words + " ") == words
  {
    var s := words + " ";
    assert s[0] == words[0];
    assert TrimStart(s) == s;
    assert s[..|s| - 1] == words;
    assert IsJsWhitespace(s[|s| - 1]);
    assert TrimEnd(s) == TrimEnd(words);
  }

  /** Plain text followed by emoji only: stripping leaves the plain text. */
  lemma StripTrailingEmoji(plain: string, emoji: string)
    requires forall i :: 0 <= i < |plain| ==> plain[i] !in EmojiChars
    requires forall i :: 0 <= i < |emoji| ==> emoji[i] in EmojiChars
    ensures StripEmoji(plain + emoji) == plain
  {
    StripEmojiAppend(plain, emoji);
    StripEmojiRemovesAll(emoji);
    StripEmojiKeepsPlainText(plain);
  }

  /** A space is not an emoji character: words without emoji stay so with a space after them. */
  lemma SpacedPlain(words: string)
    requires forall i :: 0 <= i < |words| ==> words[i] !in EmojiChars
    ensures forall i :: 0 <= i < |words + " "| ==> (words + " ")[i] !in EmojiChars
  {
  }

  /**
   * The shape of every listed text: words, a space, an emoji. The line
   * shown for such a text is the words alone.
   */
  lemma StrippedAnswer(words: string, emoji: string)
    requires words != "" && !IsJsWhitespace(words[0]) && !IsJsWhitespace(words[|words| - 1])
    requires forall i :: 0 <= i < |words| ==> words[i] !in EmojiChars
    requires forall i :: 0 <= i < |emoji| ==> emoji[i] in EmojiChars
    ensures Trim(StripEmoji(words + " " + emoji)) == words
  {
    SpacedPlain(words);
    StripTrailingEmoji(words + " ", emoji);
    TrimWordsSpace(words);
  }

  /** When no earlier entry has entry k's id, find returns entry k. */
  lemma {:induction false} FindAnswerAt(answers: seq<ReflectionAnswer>, k: nat)
    requires k < |answers|
    requires forall j :: 0 <= j < k ==> answers[j].id != answers[k].id
    ensures FindAnswer(answers, answers[k].id) == Some(answers[k])
    decreases k
  {
    if k > 0 {
      assert answers[1..][k - 1] == answers[k];
      FindAnswerAt(answers[1..], k - 1);
    }
  }

  /** The lines the card shows for the five listed answers, in table order. */
  const ListedTexts: seq<string> := ["Yes, absolutely!", "Pretty good!", "It was okay", "Amazing day!", "Not really..."]

  /** Each listed text is its words, a space, then its emoji. */
  lemma ListedTextShape(k: nat)
    requires k < |ListedTexts|
    ensures ReflectionAnswers[k].text == ListedTexts[k] + " " + ReflectionAnswers[k].emoji
    ensures forall i :: 0 <= i < |ReflectionAnswers[k].emoji| ==> ReflectionAnswers[k].emoji[i] in EmojiChars
    ensures forall i :: 0 <= i < |ListedTexts[k]| ==> ListedTexts[k][i] !in EmojiChars
    ensures ListedTexts[k] != "" && !IsJsWhitespace(ListedTexts[k][0])
    ensures !IsJsWhitespace(ListedTexts[k][|ListedTexts[k]| - 1])
  {
  }

  /** What the card shows for each listed answer other than `custom`: its words, without the emoji. */
  lemma ListedAnswerText(k: nat, custom: string)
    requires k < |ListedTexts|
    ensures ReflectionText(ReflectionAnswers[k].id, custom) == Some(ListedTexts[k])
  {
    assert ReflectionAnswers[k].id != "custom";
    FindAnswerAt(ReflectionAnswers, k);
    ListedTextShape(k);
    StrippedAnswer(ListedTexts[k], ReflectionAnswers[k].emoji);
  }

  /** An id outside the table shows no text. */
  lemma UnlistedAnswerHasNoText(id: string, custom: string)
    requires id != "custom"
    requires forall a :: a in ReflectionAnswers ==> a.id != id
    ensures ReflectionText(id, custom) == None
  {
  }

  // ---------------------------------------------------------------------
  // Where the mascot label goes

  /** The elements below the nutrient panel, in document order. */
  datatype TailBlock = MascotMiddle | Reflection(text: Option<string>) | MascotBottom

  /** The mascot in the middle when there is no reflection; after a non-empty reflection otherwise. */
  function TailBlocks(showReflection: bool, reflectionAnswer: string, customReflectionText: string): (r: seq<TailBlock>)
    ensures |r| <= 2
    ensures MascotMiddle in r <==> !showReflection
    ensures MascotBottom in r <==> showReflection && reflectionAnswer != ""
    ensures Reflection(ReflectionText(reflectionAnswer, customReflectionText)) in r <==> showReflection && reflectionAnswer != ""
  {
    (if !showReflection then [MascotMiddle] else [])
    + (if showReflection && reflectionAnswer != "" then [Reflection(ReflectionText(reflectionAnswer, customReflectionText))] else [])
    + (if showReflection && reflectionAnswer != "" then [MascotBottom] else [])
  }

  function MascotCount(blocks: seq<TailBlock>): nat
    decreases |blocks|
  {
    if |blocks| == 0 then 0
    else (if blocks[0].Reflection? then 0 else 1) + MascotCount(blocks[1..])
  }

  lemma {:induction false} MascotCountAppend(a: seq<TailBlock>, b: seq<TailBlock>)
    ensures MascotCount(a + b) == MascotCount(a) + MascotCount(b)
    decreases |a|
  {
    if |a| == 0 {
      assert a + b == b;
    } else {
      assert (a + b)[0] == a[0] && (a + b)[1..] == a[1..] + b;
      MascotCountAppend(a[1..], b);
    }
  }

  /**
   * The mascot label appears at most once: in the middle without a
   * reflection, last after a non-empty reflection, and not at all when the
   * reflection is on but empty.
   */
  lemma MascotAtMostOnce(showReflection: bool, reflectionAnswer: string, customReflectionText: string)
    ensures MascotCount(TailBlocks(showReflection, reflectionAnswer, customReflectionText)) <= 1
    ensures !showReflection ==> TailBlocks(showReflection, reflectionAnswer, customReflectionText) == [MascotMiddle]
    ensures showReflection && reflectionAnswer != "" ==>
      TailBlocks(showReflection, reflectionAnswer, customReflectionText)
        == [Reflection(ReflectionText(reflectionAnswer, customReflectionText)), MascotBottom]
    ensures showReflection && reflectionAnswer == "" ==>
      MascotCount(TailBlocks(showReflection, reflectionAnswer, customReflectionText)) == 0
  {
    var a: seq<TailBlock> := if !showReflection then [MascotMiddle] else [];
    var b: seq<TailBlock> := if showReflection && reflectionAnswer != "" then [Reflection(ReflectionText(reflectionAnswer, customReflectionText))] else [];
    var c: seq<TailBlock> := if showReflection && reflectionAnswer != "" then [MascotBottom] else [];
    MascotCountAppend(a + b, c);
    MascotCountAppend(a, b);
  }

  /** App renders the card with the default props (no reflection): the mascot sits in the middle. */
  lemma DefaultPropsMascotInMiddle()
    ensures TailBlocks(false, "", "") == [MascotMiddle]
  {
  }
}
