/**
 * A name for every constant of the flower-pot library, so that the table
 * can be quantified over: each name's literal, the SGR parameter it stands
 * for, and the way back from a parameter to a name.
 */
module FlowerPotTable {
  import opened Decimal
  import opened ControlSequence
  import opened FlowerPot

  /** Names of the styles set by parameters 0 to 9. */
  datatype Style = Reset | Bold | Dim | Italic | Underline | SlowBlink | RapidBlink | Inverted | Hidden | Strikethrough

  /** Names of the font selections, parameters 10 to 20. */
  datatype Font = PrimaryFont | AltFont1 | AltFont2 | AltFont3 | AltFont4 | AltFont5 | AltFont6 | AltFont7 | AltFont8 | AltFont9 | FrakturFont

  /** Names of parameters 21 to 29: double underline (which some terminals read as "not bold"), and, except 26 (proportional spacing), the cancellations of the styles 1 to 9. */
  datatype StyleOff = DoubleUnderline | NotBold | NormalIntensity | NotItalicNotBold | NotUnderlined | NotBlinking | ProportionalSpacing | NotInverted | NotHidden | NotStrikethrough

  /** Names of the additional styles, parameters 50 to 55. */
  datatype ExtraStyle = NoProportionalSpacing | Framed | Encircled | Overline | NotFramedNotEncircled | NotOverlined

  /** The eight standard colours, in parameter order. */
  datatype Color = Black | Red | Green | Yellow | Blue | Purple | Cyan | White

  /** The constants of the library: the styles by group, the colours by channel and brightness. */
  datatype Code =
    | Style(style: Style) | Font(font: Font) | StyleOff(off: StyleOff) | ExtraStyle(extra: ExtraStyle)
    | Fg(color: Color) | Bg(color: Color) | BrightFg(color: Color) | BrightBg(color: Color)
    | Default | DefaultBg

  /** The two names that share parameter 21. */
  const AMBIGUOUS: set<Code> := {StyleOff(DoubleUnderline), StyleOff(NotBold)}

  /** The constants for the styles, each the SGR sequence of its parameter. */
  function StyleLiteral(x: Style): (s: string)
    ensures s == Sgr(StyleParameter(x))
  {
    StyleConstants();
    match x
    case Reset => RESET
    case Bold => BOLD
    case Dim => DIM
    case Italic => ITALIC
    case Underline => UNDERLINE
    case SlowBlink => SLOW_BLINK
    case RapidBlink => RAPID_BLINK
    case Inverted => INVERTED
    case Hidden => HIDDEN
    case Strikethrough => STRIKETHROUGH
  }

  /** The constants for the font selections, each the SGR sequence of its parameter. */
  function FontLiteral(x: Font): (s: string)
    ensures s == Sgr(FontParameter(x))
  {
    FontConstants();
    match x
    case PrimaryFont => PRIMARY_FONT
    case AltFont1 => ALT_FONT_1
    case AltFont2 => ALT_FONT_2
    case AltFont3 => ALT_FONT_3
    case AltFont4 => ALT_FONT_4
    case AltFont5 => ALT_FONT_5
    case AltFont6 => ALT_FONT_6
    case AltFont7 => ALT_FONT_7
    case AltFont8 => ALT_FONT_8
    case AltFont9 => ALT_FONT_9
    case FrakturFont => FRAKTUR_FONT
  }

  /** The constants for the parameters 21 to 29, each the SGR sequence of its parameter. */
  function StyleOffLiteral(x: StyleOff): (s: string)
    ensures s == Sgr(StyleOffParameter(x))
  {
    StyleOffConstants();
    match x
    case DoubleUnderline => DOUBLE_UNDERLINE
    case NotBold => NOT_BOLD
    case NormalIntensity => NORMAL_INTENSITY
    case NotItalicNotBold => NOT_ITALIC_NOT_BOLD
    case NotUnderlined => NOT_UNDERLINED
    case NotBlinking => NOT_BLINKING
    case ProportionalSpacing => PROPORTIONAL_SPACING
    case NotInverted => NOT_INVERTED
    case NotHidden => NOT_HIDDEN
    case NotStrikethrough => NOT_STRIKETHROUGH
  }

  /** The constants for the additional styles, each the SGR sequence of its parameter. */
  function ExtraStyleLiteral(x: ExtraStyle): (s: string)
    ensures s == Sgr(ExtraStyleParameter(x))
  {
    ExtraStyleConstants();
    match x
    case NoProportionalSpacing => NO_PROPORTIONAL_SPACING
    case Framed => FRAMED
    case Encircled => ENCIRCLED
    case Overline => OVERLINE
    case NotFramedNotEncircled => NOT_FRAMED_NOT_ENCIRCLED
    case NotOverlined => NOT_OVERLINED
  }

  /** The colour constants: each channel and brightness has a range of eight consecutive parameters. */
  function ColorLiteral(k: Color, foreground: bool, bright: bool): (s: string)
    ensures s == Sgr(ColorBase(foreground, bright) + ColorOffset(k))
  {
    FgConstants();
    BgConstants();
    BrightFgConstants();
    BrightBgConstants();
    match k
    case Black => if bright then (if foreground then BRIGHT_BLACK else BRIGHT_BLACK_BG) else (if foreground then BLACK else BLACK_BG)
    case Red => if bright then (if foreground then BRIGHT_RED else BRIGHT_RED_BG) else (if foreground then RED else RED_BG)
    case Green => if bright then (if foreground then BRIGHT_GREEN else BRIGHT_GREEN_BG) else (if foreground then GREEN else GREEN_BG)
    case Yellow => if bright then (if foreground then BRIGHT_YELLOW else BRIGHT_YELLOW_BG) else (if foreground then YELLOW else YELLOW_BG)
    case Blue => if bright then (if foreground then BRIGHT_BLUE else BRIGHT_BLUE_BG) else (if foreground then BLUE else BLUE_BG)
    case Purple => if bright then (if foreground then BRIGHT_PURPLE else BRIGHT_PURPLE_BG) else (if foreground then PURPLE else PURPLE_BG)
    case Cyan => if bright then (if foreground then BRIGHT_CYAN else BRIGHT_CYAN_BG) else (if foreground then CYAN else CYAN_BG)
    case White => if bright then (if foreground then BRIGHT_WHITE else BRIGHT_WHITE_BG) else (if foreground then WHITE else WHITE_BG)
  }

  /** First parameter of the colour range of a channel and brightness. */
  function ColorBase(foreground: bool, bright: bool): nat {
    if bright then (if foreground then 90 else 100) else (if foreground then 30 else 40)
  }

  /** The constant the library binds to each name: the SGR sequence of the name's parameter. */
  function Literal(c: Code): (s: string)
    ensures s == Sgr(Parameter(c))
  {
    DefaultConstants();
    match c
    case Style(x) => StyleLiteral(x)
    case Font(x) => FontLiteral(x)
    case StyleOff(x) => StyleOffLiteral(x)
    case ExtraStyle(x) => ExtraStyleLiteral(x)
    case Fg(k) => ColorLiteral(k, true, false)
    case Bg(k) => ColorLiteral(k, false, false)
    case BrightFg(k) => ColorLiteral(k, true, true)
    case BrightBg(k) => ColorLiteral(k, false, true)
    case Default => DEFAULT
    case DefaultBg => DEFAULT_BG
  }

  /** The SGR parameter of each of the styles. */
  function StyleParameter(x: Style): (k: nat)
    ensures 0 <= k <= 9
  {
    match x
    case Reset => 0
    case Bold => 1
    case Dim => 2
    case Italic => 3
    case Underline => 4
    case SlowBlink => 5
    case RapidBlink => 6
    case Inverted => 7
    case Hidden => 8
    case Strikethrough => 9
  }

  /** The name among the styles for a parameter in their range. */
  function StyleAt(k: nat): (x: Style)
    requires 0 <= k <= 9
    ensures StyleParameter(x) == k
  {
    match k
    case 0 => Reset
    case 1 => Bold
    case 2 => Dim
    case 3 => Italic
    case 4 => Underline
    case 5 => SlowBlink
    case 6 => RapidBlink
    case 7 => Inverted
    case 8 => Hidden
    case _ => Strikethrough
  }

  /** The SGR parameter of each of the font selections. */
  function FontParameter(x: Font): (k: nat)
    ensures 10 <= k <= 20
  {
    match x
    case PrimaryFont => 10
    case AltFont1 => 11
    case AltFont2 => 12
    case AltFont3 => 13
    case AltFont4 => 14
    case AltFont5 => 15
    case AltFont6 => 16
    case AltFont7 => 17
    case AltFont8 => 18
    case AltFont9 => 19
    case FrakturFont => 20
  }

  /** The name among the font selections for a parameter in their range. */
  function FontAt(k: nat): (x: Font)
    requires 10 <= k <= 20
    ensures FontParameter(x) == k
  {
    match k
    case 10 => PrimaryFont
    case 11 => AltFont1
    case 12 => AltFont2
    case 13 => AltFont3
    case 14 => AltFont4
    case 15 => AltFont5
    case 16 => AltFont6
    case 17 => AltFont7
    case 18 => AltFont8
    case 19 => AltFont9
    case _ => FrakturFont
  }

  /** The SGR parameter of each of the parameters 21 to 29. */
  function StyleOffParameter(x: StyleOff): (k: nat)
    ensures 21 <= k <= 29
  {
    match x
    case DoubleUnderline => 21
    case NotBold => 21
    case NormalIntensity => 22
    case NotItalicNotBold => 23
    case NotUnderlined => 24
    case NotBlinking => 25
    case ProportionalSpacing => 26
    case NotInverted => 27
    case NotHidden => 28
    case NotStrikethrough => 29
  }

  /** The name among the parameters 21 to 29 for a parameter in their range. */
  function StyleOffAt(k: nat): (x: StyleOff)
    requires 21 <= k <= 29
    ensures StyleOffParameter(x) == k
  {
    match k
    case 21 => DoubleUnderline
    case 22 => NormalIntensity
    case 23 => NotItalicNotBold
    case 24 => NotUnderlined
    case 25 => NotBlinking
    case 26 => ProportionalSpacing
    case 27 => NotInverted
    case 28 => NotHidden
    case _ => NotStrikethrough
  }

  /** The SGR parameter of each of the additional styles. */
  function ExtraStyleParameter(x: ExtraStyle): (k: nat)
    ensures 50 <= k <= 55
  {
    match x
    case NoProportionalSpacing => 50
    case Framed => 51
    case Encircled => 52
    case Overline => 53
    case NotFramedNotEncircled => 54
    case NotOverlined => 55
  }

  /** The name among the additional styles for a parameter in their range. */
  function ExtraStyleAt(k: nat): (x: ExtraStyle)
    requires 50 <= k <= 55
    ensures ExtraStyleParameter(x) == k
  {
    match k
    case 50 => NoProportionalSpacing
    case 51 => Framed
    case 52 => Encircled
    case 53 => Overline
    case 54 => NotFramedNotEncircled
    case _ => NotOverlined
  }

  /** Position of a colour within each colour range. */
  function ColorOffset(c: Color): (i: nat)
    ensures i < 8
  {
    match c
    case Black => 0
    case Red => 1
    case Green => 2
    case Yellow => 3
    case Blue => 4
    case Purple => 5
    case Cyan => 6
    case White => 7
  }

  function ColorAt(i: nat): (c: Color)
    requires i < 8
    ensures ColorOffset(c) == i
  {
    [Black, Red, Green, Yellow, Blue, Purple, Cyan, White][i]
  }

  /** The SGR parameter each name stands for. */
  function Parameter(c: Code): nat {
    match c
    case Style(x) => StyleParameter(x)
    case Font(x) => FontParameter(x)
    case StyleOff(x) => StyleOffParameter(x)
    case ExtraStyle(x) => ExtraStyleParameter(x)
    case Fg(k) => 30 + ColorOffset(k)
    case Bg(k) => 40 + ColorOffset(k)
    case BrightFg(k) => 90 + ColorOffset(k)
    case BrightBg(k) => 100 + ColorOffset(k)
    case Default => 39
    case DefaultBg => 49
  }

  /** The parameters the table uses: 0..29, 30..37, 39, 40..47, 49, 50..55, 90..97, 100..107. */
  predicate InTable(k: nat) {
    k <= 29 || 30 <= k <= 37 || k == 39 || 40 <= k <= 47 || k == 49 || 50 <= k <= 55
    || 90 <= k <= 97 || 100 <= k <= 107
  }

  /** The name for parameter `k`, if the table has one; for 21, DoubleUnderline. */
  function CodeOf(k: nat): (r: Option<Code>)
    ensures r.Some? <==> InTable(k)
    ensures r.Some? ==> Parameter(r.value) == k
  {
    if k <= 9 then Some(Style(StyleAt(k)))
    else if k <= 20 then Some(Font(FontAt(k)))
    else if k <= 29 then Some(StyleOff(StyleOffAt(k)))
    else if k <= 37 then Some(Fg(ColorAt(k - 30)))
    else if k == 39 then Some(Default)
    else if 40 <= k <= 47 then Some(Bg(ColorAt(k - 40)))
    else if k == 49 then Some(DefaultBg)
    else if 50 <= k <= 55 then Some(ExtraStyle(ExtraStyleAt(k)))
    else if 90 <= k <= 97 then Some(BrightFg(ColorAt(k - 90)))
    else if 100 <= k <= 107 then Some(BrightBg(ColorAt(k - 100)))
    else None
  }

  // Each constant is the SGR sequence of its parameter.

  /** The styles RESET to STRIKETHROUGH are Sgr(0) to Sgr(9). */
  lemma StyleConstants()
    ensures RESET == Sgr(0)
    ensures BOLD == Sgr(1)
    ensures DIM == Sgr(2)
    ensures ITALIC == Sgr(3)
    ensures UNDERLINE == Sgr(4)
    ensures SLOW_BLINK == Sgr(5)
    ensures RAPID_BLINK == Sgr(6)
    ensures INVERTED == Sgr(7)
    ensures HIDDEN == Sgr(8)
    ensures STRIKETHROUGH == Sgr(9)
  {
    assert Sgr(0) == RESET;
    assert Sgr(1) == BOLD;
    assert Sgr(2) == DIM;
    assert Sgr(3) == ITALIC;
    assert Sgr(4) == UNDERLINE;
    assert Sgr(5) == SLOW_BLINK;
    assert Sgr(6) == RAPID_BLINK;
    assert Sgr(7) == INVERTED;
    assert Sgr(8) == HIDDEN;
    assert Sgr(9) == STRIKETHROUGH;
  }

  /** The fonts PRIMARY_FONT to FRAKTUR_FONT are Sgr(10) to Sgr(20). */
  lemma FontConstants()
    ensures PRIMARY_FONT == Sgr(10)
    ensures ALT_FONT_1 == Sgr(11)
    ensures ALT_FONT_2 == Sgr(12)
    ensures ALT_FONT_3 == Sgr(13)
    ensures ALT_FONT_4 == Sgr(14)
    ensures ALT_FONT_5 == Sgr(15)
    ensures ALT_FONT_6 == Sgr(16)
    ensures ALT_FONT_7 == Sgr(17)
    ensures ALT_FONT_8 == Sgr(18)
    ensures ALT_FONT_9 == Sgr(19)
    ensures FRAKTUR_FONT == Sgr(20)
  {
    assert Sgr(10) == PRIMARY_FONT;
    assert Sgr(11) == ALT_FONT_1;
    assert Sgr(12) == ALT_FONT_2;
    assert Sgr(13) == ALT_FONT_3;
    assert Sgr(14) == ALT_FONT_4;
    assert Sgr(15) == ALT_FONT_5;
    assert Sgr(16) == ALT_FONT_6;
    assert Sgr(17) == ALT_FONT_7;
    assert Sgr(18) == ALT_FONT_8;
    assert Sgr(19) == ALT_FONT_9;
    assert Sgr(20) == FRAKTUR_FONT;
  }

  /** DOUBLE_UNDERLINE and NOT_BOLD are both Sgr(21); NORMAL_INTENSITY to NOT_STRIKETHROUGH are Sgr(22) to Sgr(29). */
  lemma StyleOffConstants()
    ensures DOUBLE_UNDERLINE == Sgr(21)
    ensures NOT_BOLD == Sgr(21)
    ensures NORMAL_INTENSITY == Sgr(22)
    ensures NOT_ITALIC_NOT_BOLD == Sgr(23)
    ensures NOT_UNDERLINED == Sgr(24)
    ensures NOT_BLINKING == Sgr(25)
    ensures PROPORTIONAL_SPACING == Sgr(26)
    ensures NOT_INVERTED == Sgr(27)
    ensures NOT_HIDDEN == Sgr(28)
    ensures NOT_STRIKETHROUGH == Sgr(29)
  {
    assert Sgr(21) == DOUBLE_UNDERLINE;
    assert Sgr(21) == NOT_BOLD;
    assert Sgr(22) == NORMAL_INTENSITY;
    assert Sgr(23) == NOT_ITALIC_NOT_BOLD;
    assert Sgr(24) == NOT_UNDERLINED;
    assert Sgr(25) == NOT_BLINKING;
    assert Sgr(26) == PROPORTIONAL_SPACING;
    assert Sgr(27) == NOT_INVERTED;
    assert Sgr(28) == NOT_HIDDEN;
    assert Sgr(29) == NOT_STRIKETHROUGH;
  }

  /** NO_PROPORTIONAL_SPACING to NOT_OVERLINED are Sgr(50) to Sgr(55). */
  lemma ExtraStyleConstants()
    ensures NO_PROPORTIONAL_SPACING == Sgr(50)
    ensures FRAMED == Sgr(51)
    ensures ENCIRCLED == Sgr(52)
    ensures OVERLINE == Sgr(53)
    ensures NOT_FRAMED_NOT_ENCIRCLED == Sgr(54)
    ensures NOT_OVERLINED == Sgr(55)
  {
    assert Sgr(50) == NO_PROPORTIONAL_SPACING;
    assert Sgr(51) == FRAMED;
    assert Sgr(52) == ENCIRCLED;
    assert Sgr(53) == OVERLINE;
    assert Sgr(54) == NOT_FRAMED_NOT_ENCIRCLED;
    assert Sgr(55) == NOT_OVERLINED;
  }

  /** The standard foreground colours are Sgr(30) to Sgr(37). */
  lemma FgConstants()
    ensures BLACK == Sgr(30)
    ensures RED == Sgr(31)
    ensures GREEN == Sgr(32)
    ensures YELLOW == Sgr(33)
    ensures BLUE == Sgr(34)
    ensures PURPLE == Sgr(35)
    ensures CYAN == Sgr(36)
    ensures WHITE == Sgr(37)
  {
    assert Sgr(30) == BLACK;
    assert Sgr(31) == RED;
    assert Sgr(32) == GREEN;
    assert Sgr(33) == YELLOW;
    assert Sgr(34) == BLUE;
    assert Sgr(35) == PURPLE;
    assert Sgr(36) == CYAN;
    assert Sgr(37) == WHITE;
  }

  /** The standard background colours are Sgr(40) to Sgr(47). */
  lemma BgConstants()
    ensures BLACK_BG == Sgr(40)
    ensures RED_BG == Sgr(41)
    ensures GREEN_BG == Sgr(42)
    ensures YELLOW_BG == Sgr(43)
    ensures BLUE_BG == Sgr(44)
    ensures PURPLE_BG == Sgr(45)
    ensures CYAN_BG == Sgr(46)
    ensures WHITE_BG == Sgr(47)
  {
    assert Sgr(40) == BLACK_BG;
    assert Sgr(41) == RED_BG;
    assert Sgr(42) == GREEN_BG;
    assert Sgr(43) == YELLOW_BG;
    assert Sgr(44) == BLUE_BG;
    assert Sgr(45) == PURPLE_BG;
    assert Sgr(46) == CYAN_BG;
    assert Sgr(47) == WHITE_BG;
  }

  /** The bright foreground colours are Sgr(90) to Sgr(97). */
  lemma BrightFgConstants()
    ensures BRIGHT_BLACK == Sgr(90)
    ensures BRIGHT_RED == Sgr(91)
    ensures BRIGHT_GREEN == Sgr(92)
    ensures BRIGHT_YELLOW == Sgr(93)
    ensures BRIGHT_BLUE == Sgr(94)
    ensures BRIGHT_PURPLE == Sgr(95)
    ensures BRIGHT_CYAN == Sgr(96)
    ensures BRIGHT_WHITE == Sgr(97)
  {
    assert Sgr(90) == BRIGHT_BLACK;
    assert Sgr(91) == BRIGHT_RED;
    assert Sgr(92) == BRIGHT_GREEN;
    assert Sgr(93) == BRIGHT_YELLOW;
    assert Sgr(94) == BRIGHT_BLUE;
    assert Sgr(95) == BRIGHT_PURPLE;
    assert Sgr(96) == BRIGHT_CYAN;
    assert Sgr(97) == BRIGHT_WHITE;
  }

  /** The bright background colours are Sgr(100) to Sgr(107). */
  lemma BrightBgConstants()
    ensures BRIGHT_BLACK_BG == Sgr(100)
    ensures BRIGHT_RED_BG == Sgr(101)
    ensures BRIGHT_GREEN_BG == Sgr(102)
    ensures BRIGHT_YELLOW_BG == Sgr(103)
    ensures BRIGHT_BLUE_BG == Sgr(104)
    ensures BRIGHT_PURPLE_BG == Sgr(105)
    ensures BRIGHT_CYAN_BG == Sgr(106)
    ensures BRIGHT_WHITE_BG == Sgr(107)
  {
    assert DecimalString(10) == "10";
    assert DecimalString(100) == "100";
    assert Sgr(100) == BRIGHT_BLACK_BG;
    assert DecimalString(101) == "101";
    assert Sgr(101) == BRIGHT_RED_BG;
    assert DecimalString(102) == "102";
    assert Sgr(102) == BRIGHT_GREEN_BG;
    assert DecimalString(103) == "103";
    assert Sgr(103) == BRIGHT_YELLOW_BG;
    assert DecimalString(104) == "104";
    assert Sgr(104) == BRIGHT_BLUE_BG;
    assert DecimalString(105) == "105";
    assert Sgr(105) == BRIGHT_PURPLE_BG;
    assert DecimalString(106) == "106";
    assert Sgr(106) == BRIGHT_CYAN_BG;
    assert DecimalString(107) == "107";
    assert Sgr(107) == BRIGHT_WHITE_BG;
  }

  /** The channel resets DEFAULT and DEFAULT_BG are Sgr(39) and Sgr(49). */
  lemma DefaultConstants()
    ensures DEFAULT == Sgr(39) && DEFAULT_BG == Sgr(49)
  {
    assert Sgr(39) == DEFAULT;
    assert Sgr(49) == DEFAULT_BG;
  }

  // Properties of the table as a whole.

  /** Every constant is well formed, reads back as its single parameter, and that parameter is in the table. */
  lemma LiteralShape(c: Code)
    ensures IsSgrShaped(Literal(c))
    ensures Parse(Literal(c)) == Some([Parameter(c)])
    ensures InTable(Parameter(c))
  {
    SgrLayout(Parameter(c));
  }

  lemma StyleAtParameter(x: Style)
    ensures StyleAt(StyleParameter(x)) == x
  {
    match x
    case Reset =>
    case Bold =>
    case Dim =>
    case Italic =>
    case Underline =>
    case SlowBlink =>
    case RapidBlink =>
    case Inverted =>
    case Hidden =>
    case Strikethrough =>
  }

  lemma FontAtParameter(x: Font)
    ensures FontAt(FontParameter(x)) == x
  {
    match x
    case PrimaryFont =>
    case AltFont1 =>
    case AltFont2 =>
    case AltFont3 =>
    case AltFont4 =>
    case AltFont5 =>
    case AltFont6 =>
    case AltFont7 =>
    case AltFont8 =>
    case AltFont9 =>
    case FrakturFont =>
  }

  lemma StyleOffAtParameter(x: StyleOff)
    ensures StyleOffAt(StyleOffParameter(x)) == (if x == NotBold then DoubleUnderline else x)
  {
    match x
    case DoubleUnderline =>
    case NotBold =>
    case NormalIntensity =>
    case NotItalicNotBold =>
    case NotUnderlined =>
    case NotBlinking =>
    case ProportionalSpacing =>
    case NotInverted =>
    case NotHidden =>
    case NotStrikethrough =>
  }

  lemma ExtraStyleAtParameter(x: ExtraStyle)
    ensures ExtraStyleAt(ExtraStyleParameter(x)) == x
  {
    match x
    case NoProportionalSpacing =>
    case Framed =>
    case Encircled =>
    case Overline =>
    case NotFramedNotEncircled =>
    case NotOverlined =>
  }

  /** Looking a name's parameter up again gives the name back, except that NotBold comes back as DoubleUnderline. */
  lemma CodeOfParameter(c: Code)
    ensures CodeOf(Parameter(c)) == Some(if c == StyleOff(NotBold) then StyleOff(DoubleUnderline) else c)
  {
    match c
    case Style(x) => StyleAtParameter(x);
    case Font(x) => FontAtParameter(x);
    case StyleOff(x) => StyleOffAtParameter(x);
    case ExtraStyle(x) => ExtraStyleAtParameter(x);
    case Fg(k) =>
    case Bg(k) =>
    case BrightFg(k) =>
    case BrightBg(k) =>
    case Default =>
    case DefaultBg =>
  }

  /** The table's parameters are exactly the ranges of InTable. */
  lemma TableParameters(k: nat)
    ensures InTable(k) <==> exists c :: Parameter(c) == k
  {
    if InTable(k) {
      assert Parameter(CodeOf(k).value) == k;
    }
    if c :| Parameter(c) == k {
      LiteralShape(c);
    }
  }

  /** Two names share a parameter only when they are the same name or the two names for 21. */
  lemma ParameterInjective(a: Code, b: Code)
    ensures Parameter(a) == Parameter(b) <==> a == b || (a in AMBIGUOUS && b in AMBIGUOUS)
  {
    CodeOfParameter(a);
    CodeOfParameter(b);
  }

  /** Two constants are the same string only when they are the same name or DOUBLE_UNDERLINE and NOT_BOLD. */
  lemma LiteralsDistinct(a: Code, b: Code)
    ensures Literal(a) == Literal(b) <==> a == b || (a in AMBIGUOUS && b in AMBIGUOUS)
  {
    var pa, pb := Parameter(a), Parameter(b);
    SgrLayout(pa);
    SgrLayout(pb);
    assert Literal(a) == Literal(b) <==> pa == pb by {
      if Literal(a) == Literal(b) {
        assert [pa] == [pb];
      }
    }
    ParameterInjective(a, b);
  }

  /** No formatter output ever equals a named constant. */
  lemma FormattersAreNotConstants(c: Code, n: U8, r: U8, g: U8, b: U8)
    ensures Color256(n) != Literal(c) && Color256Bg(n) != Literal(c)
    ensures Truecolor(r, g, b) != Literal(c) && TruecolorBg(r, g, b) != Literal(c)
  {
    LiteralShape(c);
    Color256Layout(n);
    Color256BgLayout(n);
    TruecolorLayout(r, g, b);
    TruecolorBgLayout(r, g, b);
  }
}
