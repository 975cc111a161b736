/** The views derived from the stage: character image, heading, heading
    class and background class. Each is a total function of the state. */
module Views {
  import opened Types

  datatype Image = HelloKittyHopeful | HelloKittySad | KittyKuromiHappy

  /** The heading, as an opaque token per text the component shows. */
  datatype Heading = Question | CorruptedHeading | HappyHeading

  function CharacterImage(g: GameState): Image {
    match g
    case HappyEnding => KittyKuromiHappy
    case SecondClick | ThirdClick => HelloKittySad
    case FinalTakeover => HelloKittySad
    case _ => HelloKittyHopeful
  }

  function HeadingText(g: GameState): Heading {
    match g
    case FinalTakeover => CorruptedHeading
    case HappyEnding => HappyHeading
    case _ => Question
  }

  /** The white-space code points that `String.prototype.trim` removes. */
  predicate IsSpace(c: char) {
    var n := c as int;
    n == 9 || n == 10 || n == 11 || n == 12 || n == 13 || n == 32 || n == 160 ||
    n == 5760 || (8192 <= n <= 8202) || n == 8232 || n == 8233 || n == 8239 ||
    n == 8287 || n == 12288 || n == 65279
  }

  function TrimStart(s: string): string {
    if |s| > 0 && IsSpace(s[0]) then TrimStart(s[1..]) else s
  }

  function TrimEnd(s: string): string {
    if |s| > 0 && IsSpace(s[|s| - 1]) then TrimEnd(s[..|s| - 1]) else s
  }

  function Trim(s: string): string {
    TrimStart(TrimEnd(s))
  }

  const SweetHeading: string := "heading-sweet"
  const CorruptedHeadingClass: string := "heading-corrupted"
  const GlitchClass: string := "glitch"

  /** The template `${base} ${glitch}` followed by `trim()`. */
  function HeadingClass(g: GameState, isGlitching: bool): string {
    var base := if g == FinalTakeover then CorruptedHeadingClass else SweetHeading;
    var glitch := if isGlitching then GlitchClass else "";
    Trim(base + " " + glitch)
  }

  function BackgroundClass(g: GameState): string {
    if g == FinalTakeover then "background-corrupted" else "background-sweet"
  }

  // ---------------------------------------------------------------------
  // Lemmas
  // ---------------------------------------------------------------------

  /** The happy image only at the happy ending, the sad one in the three
      late stages, the hopeful one otherwise. */
  lemma CharacterImageCases(g: GameState)
    ensures CharacterImage(g) == KittyKuromiHappy <==> g == HappyEnding
    ensures CharacterImage(g) == HelloKittySad <==> g in {SecondClick, ThirdClick, FinalTakeover}
    ensures CharacterImage(g) == HelloKittyHopeful <==> g in {Initial, Chase, FirstClick}
  {
  }

  lemma HeadingTextCases(g: GameState)
    ensures HeadingText(g) == CorruptedHeading <==> g == FinalTakeover
    ensures HeadingText(g) == HappyHeading <==> g == HappyEnding
    ensures HeadingText(g) == Question <==> g !in {FinalTakeover, HappyEnding}
  {
  }

  /** A string that neither starts nor ends with white space is its own trim. */
  lemma TrimClean(s: string)
    requires s != [] && !IsSpace(s[0]) && !IsSpace(s[|s| - 1])
    ensures Trim(s) == s
  {
  }

  /** Trimming drops one trailing space. */
  lemma TrimTrailingSpace(s: string)
    requires s != [] && !IsSpace(s[0]) && !IsSpace(s[|s| - 1])
    ensures Trim(s + " ") == s
  {
    var t := s + " ";
    assert t[..|t| - 1] == s;
    assert TrimEnd(t) == TrimEnd(s);
    TrimClean(s);
  }

  /** The heading class is the base class, corrupted exactly in
      'final-takeover', followed by " glitch" exactly while glitching. */
  lemma {:induction false} HeadingClassValue(g: GameState, isGlitching: bool)
    ensures HeadingClass(g, isGlitching) ==
      (if g == FinalTakeover then "heading-corrupted" else "heading-sweet")
      + (if isGlitching then " glitch" else "")
  {
    var base := if g == FinalTakeover then CorruptedHeadingClass else SweetHeading;
    if isGlitching {
      assert base + " " + GlitchClass == base + " glitch";
      TrimClean(base + " glitch");
    } else {
      assert base + " " + "" == base + " ";
      TrimTrailingSpace(base);
    }
  }

  /** The two halves of the heading class, as if-and-only-ifs. */
  lemma HeadingClassCases(g: GameState, isGlitching: bool)
    ensures CorruptedHeadingClass <= HeadingClass(g, isGlitching) <==> g == FinalTakeover
    ensures var c := HeadingClass(g, isGlitching);
      (|c| >= 7 && c[|c| - 7..] == " glitch") <==> isGlitching
  {
    HeadingClassValue(g, isGlitching);
    var c := HeadingClass(g, isGlitching);
    if g != FinalTakeover {
      assert c[4] != CorruptedHeadingClass[4] || c[8] != CorruptedHeadingClass[8];
    }
    if !isGlitching && |c| >= 7 {
      assert c[|c| - 1] == 't' || c[|c| - 1] == 'd';
    }
  }

  lemma BackgroundClassCases(g: GameState)
    ensures BackgroundClass(g) == "background-corrupted" <==> g == FinalTakeover
    ensures BackgroundClass(g) == "background-sweet" <==> g != FinalTakeover
  {
  }
}
