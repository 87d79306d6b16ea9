/**
 * The flower-pot library: named SGR constants for text styles and colours,
 * and the four formatters that select a colour from the 256-colour palette
 * or as an RGB triple, each for the foreground or the background.
 */
module FlowerPot {
  import opened Decimal
  import opened ControlSequence

  /** Rust's `u8`. */
  type U8 = n: nat | n < 256

  /** The single-parameter SGR sequence `ESC [ k m`, the shape of every named constant. */
  function Sgr(k: nat): string {
    "\U{1B}[" + DecimalString(k) + "m"
  }

  // Formatters. Rust's `{n}` for a `u8` is its decimal rendering.

  /** Selects palette entry `n` for the foreground. */
  function Color256(n: U8): (s: string)
    ensures IsSgrShaped(s)
    ensures 9 <= |s| <= 11
  {
    DecimalStringLength(n);
    "\U{1B}[38;5;" + DecimalString(n) + "m"
  }

  /** Selects the RGB colour (r, g, b) for the foreground. */
  function Truecolor(r: U8, g: U8, b: U8): (s: string)
    ensures IsSgrShaped(s)
    ensures 13 <= |s| <= 19
  {
    DecimalStringLength(r);
    DecimalStringLength(g);
    DecimalStringLength(b);
    "\U{1B}[38;2;" + DecimalString(r) + ";" + DecimalString(g) + ";" + DecimalString(b) + "m"
  }

  /** Selects palette entry `n` for the background. */
  function Color256Bg(n: U8): (s: string)
    ensures IsSgrShaped(s)
    ensures 9 <= |s| <= 11
  {
    DecimalStringLength(n);
    "\U{1B}[48;5;" + DecimalString(n) + "m"
  }

  /** Selects the RGB colour (r, g, b) for the background. */
  function TruecolorBg(r: U8, g: U8, b: U8): (s: string)
    ensures IsSgrShaped(s)
    ensures 13 <= |s| <= 19
  {
    DecimalStringLength(r);
    DecimalStringLength(g);
    DecimalStringLength(b);
    "\U{1B}[48;2;" + DecimalString(r) + ";" + DecimalString(g) + ";" + DecimalString(b) + "m"
  }

  // The named constants, as the literals the library defines.
  // DOUBLE_UNDERLINE and NOT_BOLD are the same sequence on purpose: terminals
  // disagree on what parameter 21 means.

  const RESET                   : string := "\U{1B}[0m"
  const BOLD                    : string := "\U{1B}[1m"
  const DIM                     : string := "\U{1B}[2m"
  const ITALIC                  : string := "\U{1B}[3m"
  const UNDERLINE               : string := "\U{1B}[4m"
  const SLOW_BLINK              : string := "\U{1B}[5m"
  const RAPID_BLINK             : string := "\U{1B}[6m"
  const INVERTED                : string := "\U{1B}[7m"
  const HIDDEN                  : string := "\U{1B}[8m"
  const STRIKETHROUGH           : string := "\U{1B}[9m"
  const PRIMARY_FONT            : string := "\U{1B}[10m"
  const ALT_FONT_1              : string := "\U{1B}[11m"
  const ALT_FONT_2              : string := "\U{1B}[12m"
  const ALT_FONT_3              : string := "\U{1B}[13m"
  const ALT_FONT_4              : string := "\U{1B}[14m"
  const ALT_FONT_5              : string := "\U{1B}[15m"
  const ALT_FONT_6              : string := "\U{1B}[16m"
  const ALT_FONT_7              : string := "\U{1B}[17m"
  const ALT_FONT_8              : string := "\U{1B}[18m"
  const ALT_FONT_9              : string := "\U{1B}[19m"
  const FRAKTUR_FONT            : string := "\U{1B}[20m"
  const DOUBLE_UNDERLINE        : string := "\U{1B}[21m"
  const NOT_BOLD                : string := "\U{1B}[21m"
  const NORMAL_INTENSITY        : string := "\U{1B}[22m"
  const NOT_ITALIC_NOT_BOLD     : string := "\U{1B}[23m"
  const NOT_UNDERLINED          : string := "\U{1B}[24m"
  const NOT_BLINKING            : string := "\U{1B}[25m"
  const PROPORTIONAL_SPACING    : string := "\U{1B}[26m"
  const NOT_INVERTED            : string := "\U{1B}[27m"
  const NOT_HIDDEN              : string := "\U{1B}[28m"
  const NOT_STRIKETHROUGH       : string := "\U{1B}[29m"
  const BLACK                   : string := "\U{1B}[30m"
  const RED                     : string := "\U{1B}[31m"
  const GREEN                   : string := "\U{1B}[32m"
  const YELLOW                  : string := "\U{1B}[33m"
  const BLUE                    : string := "\U{1B}[34m"
  const PURPLE                  : string := "\U{1B}[35m"
  const CYAN                    : string := "\U{1B}[36m"
  const WHITE                   : string := "\U{1B}[37m"
  const DEFAULT                 : string := "\U{1B}[39m"
  const BLACK_BG                : string := "\U{1B}[40m"
  const RED_BG                  : string := "\U{1B}[41m"
  const GREEN_BG                : string := "\U{1B}[42m"
  const YELLOW_BG               : string := "\U{1B}[43m"
  const BLUE_BG                 : string := "\U{1B}[44m"
  const PURPLE_BG               : string := "\U{1B}[45m"
  const CYAN_BG                 : string := "\U{1B}[46m"
  const WHITE_BG                : string := "\U{1B}[47m"
  const DEFAULT_BG              : string := "\U{1B}[49m"
  const NO_PROPORTIONAL_SPACING : string := "\U{1B}[50m"
  const FRAMED                  : string := "\U{1B}[51m"
  const ENCIRCLED               : string := "\U{1B}[52m"
  const OVERLINE                : string := "\U{1B}[53m"
  const NOT_FRAMED_NOT_ENCIRCLED: string := "\U{1B}[54m"
  const NOT_OVERLINED           : string := "\U{1B}[55m"
  const BRIGHT_BLACK            : string := "\U{1B}[90m"
  const BRIGHT_RED              : string := "\U{1B}[91m"
  const BRIGHT_GREEN            : string := "\U{1B}[92m"
  const BRIGHT_YELLOW           : string := "\U{1B}[93m"
  const BRIGHT_BLUE             : string := "\U{1B}[94m"
  const BRIGHT_PURPLE           : string := "\U{1B}[95m"
  const BRIGHT_CYAN             : string := "\U{1B}[96m"
  const BRIGHT_WHITE            : string := "\U{1B}[97m"
  const BRIGHT_BLACK_BG         : string := "\U{1B}[100m"
  const BRIGHT_RED_BG           : string := "\U{1B}[101m"
  const BRIGHT_GREEN_BG         : string := "\U{1B}[102m"
  const BRIGHT_YELLOW_BG        : string := "\U{1B}[103m"
  const BRIGHT_BLUE_BG          : string := "\U{1B}[104m"
  const BRIGHT_PURPLE_BG        : string := "\U{1B}[105m"
  const BRIGHT_CYAN_BG          : string := "\U{1B}[106m"
  const BRIGHT_WHITE_BG         : string := "\U{1B}[107m"

  // Formatter layout: each output is the control sequence of its parameter
  // list, and reads back as exactly that list.

  /** Flattens a right-nested concatenation of three fields; a statement about strings only. */
  lemma Flatten3(c: string, x: string, y: string, z: string)
    ensures c + (x + ";" + (y + ";" + z)) + "m" == c + x + ";" + y + ";" + z + "m"
  {
    Regroup(c, x + ";", y + ";" + z);
    Regroup(c + x + ";", y + ";", z);
    Regroup(c + x + ";", y, ";");
  }

  /** Flattens a right-nested concatenation of five fields; a statement about strings only. */
  lemma Flatten5(c: string, v: string, w: string, x: string, y: string, z: string)
    ensures c + (v + ";" + (w + ";" + (x + ";" + (y + ";" + z)))) + "m"
         == c + v + ";" + w + ";" + x + ";" + y + ";" + z + "m"
  {
    var inner := x + ";" + (y + ";" + z);
    Regroup(c, v + ";", w + ";" + inner);
    Regroup(c + v + ";", w + ";", inner);
    Regroup(c + v + ";", w, ";");
    var cw := c + v + ";" + w + ";";
    Regroup(cw, x + ";", y + ";" + z);
    Regroup(cw, x, ";");
    Regroup(cw + x + ";", y + ";", z);
    Regroup(cw + x + ";", y, ";");
  }

  /** Regroups a concatenation. */
  lemma Regroup(a: string, b: string, c: string)
    ensures a + (b + c) == a + b + c
  {
  }

  lemma Render3(p: nat, q: nat, n: nat)
    ensures Sequence([p, q, n]) == CSI + DecimalString(p) + ";" + DecimalString(q) + ";" + DecimalString(n) + "m"
  {
    assert [p, q, n] == [p] + [q, n] && [q, n] == [q] + [n];
    ParametersCons(p, [q, n]);
    ParametersCons(q, [n]);
    Flatten3(CSI, DecimalString(p), DecimalString(q), DecimalString(n));
  }

  lemma Render5(p: nat, q: nat, r: nat, g: nat, b: nat)
    ensures Sequence([p, q, r, g, b]) == CSI + DecimalString(p) + ";" + DecimalString(q) + ";"
      + DecimalString(r) + ";" + DecimalString(g) + ";" + DecimalString(b) + "m"
  {
    assert [p, q, r, g, b] == [p] + [q, r, g, b] && [q, r, g, b] == [q] + [r, g, b];
    assert [r, g, b] == [r] + [g, b] && [g, b] == [g] + [b];
    ParametersCons(p, [q, r, g, b]);
    ParametersCons(q, [r, g, b]);
    ParametersCons(r, [g, b]);
    ParametersCons(g, [b]);
    Flatten5(CSI, DecimalString(p), DecimalString(q), DecimalString(r), DecimalString(g), DecimalString(b));
  }

  /** `color_256(n)` is `ESC [ 38 ; 5 ; n m` and reads back as [38, 5, n]. */
  lemma Color256Layout(n: U8)
    ensures Color256(n) == Sequence([38, 5, n])
    ensures Parse(Color256(n)) == Some([38, 5, n])
  {
    assert CSI + DecimalString(38) + ";" + DecimalString(5) + ";" == "\U{1B}[38;5;";
    Render3(38, 5, n);
    ParseSequence([38, 5, n]);
  }

  /** `color_256_bg(n)` is `ESC [ 48 ; 5 ; n m` and reads back as [48, 5, n]. */
  lemma Color256BgLayout(n: U8)
    ensures Color256Bg(n) == Sequence([48, 5, n])
    ensures Parse(Color256Bg(n)) == Some([48, 5, n])
  {
    assert CSI + DecimalString(48) + ";" + DecimalString(5) + ";" == "\U{1B}[48;5;";
    Render3(48, 5, n);
    ParseSequence([48, 5, n]);
  }

  /** `truecolor(r, g, b)` is `ESC [ 38 ; 2 ; r ; g ; b m` and reads back as [38, 2, r, g, b]. */
  lemma TruecolorLayout(r: U8, g: U8, b: U8)
    ensures Truecolor(r, g, b) == Sequence([38, 2, r, g, b])
    ensures Parse(Truecolor(r, g, b)) == Some([38, 2, r, g, b])
  {
    assert CSI + DecimalString(38) + ";" + DecimalString(2) + ";" == "\U{1B}[38;2;";
    Render5(38, 2, r, g, b);
    ParseSequence([38, 2, r, g, b]);
  }

  /** `truecolor_bg(r, g, b)` is `ESC [ 48 ; 2 ; r ; g ; b m` and reads back as [48, 2, r, g, b]. */
  lemma TruecolorBgLayout(r: U8, g: U8, b: U8)
    ensures TruecolorBg(r, g, b) == Sequence([48, 2, r, g, b])
    ensures Parse(TruecolorBg(r, g, b)) == Some([48, 2, r, g, b])
  {
    assert CSI + DecimalString(48) + ";" + DecimalString(2) + ";" == "\U{1B}[48;2;";
    Render5(48, 2, r, g, b);
    ParseSequence([48, 2, r, g, b]);
  }

  /** Distinct palette indices give distinct palette selectors, on either channel. */
  lemma Color256Injective(m: U8, n: U8)
    ensures Color256(m) == Color256(n) <==> m == n
    ensures Color256Bg(m) == Color256Bg(n) <==> m == n
  {
    Color256Layout(m);
    Color256Layout(n);
    Color256BgLayout(m);
    Color256BgLayout(n);
  }

  /** Distinct RGB triples give distinct truecolor selectors, on either channel. */
  lemma TruecolorInjective(r: U8, g: U8, b: U8, r': U8, g': U8, b': U8)
    ensures Truecolor(r, g, b) == Truecolor(r', g', b') <==> (r, g, b) == (r', g', b')
    ensures TruecolorBg(r, g, b) == TruecolorBg(r', g', b') <==> (r, g, b) == (r', g', b')
  {
    TruecolorLayout(r, g, b);
    TruecolorLayout(r', g', b');
    TruecolorBgLayout(r, g, b);
    TruecolorBgLayout(r', g', b');
    var s, s' := [r, g, b], [r', g', b'];
    assert [38, 2, r, g, b][2..] == s && [38, 2, r', g', b'][2..] == s';
    assert [48, 2, r, g, b][2..] == s && [48, 2, r', g', b'][2..] == s';
    assert s == s' ==> (r, g, b) == (r', g', b') by {
      if s == s' {
        assert s[0] == s'[0] && s[1] == s'[1] && s[2] == s'[2];
      }
    }
  }

  /** No two of the four formatters ever produce the same string, whatever their arguments. */
  lemma FormattersDisjoint(n: U8, m: U8, r: U8, g: U8, b: U8, r': U8, g': U8, b': U8)
    ensures Color256(n) != Color256Bg(m)
    ensures Truecolor(r, g, b) != TruecolorBg(r', g', b')
    ensures Color256(n) != Truecolor(r, g, b) && Color256(n) != TruecolorBg(r, g, b)
    ensures Color256Bg(n) != Truecolor(r, g, b) && Color256Bg(n) != TruecolorBg(r, g, b)
  {
    Color256Layout(n);
    Color256BgLayout(m);
    Color256BgLayout(n);
    TruecolorLayout(r, g, b);
    TruecolorBgLayout(r', g', b');
    TruecolorBgLayout(r, g, b);
    assert [38, 5, n][0] != [48, 5, m][0];
    assert [38, 2, r, g, b][0] != [48, 2, r', g', b'][0];
  }

  /** Palette selections the library's demonstration code formats. */
  lemma PaletteExamples()
    ensures Color256(232) == "\U{1B}[38;5;232m"
    ensures Color256Bg(255) == "\U{1B}[48;5;255m"
  {
  }

  /** Foreground truecolor selections the library's demonstration code formats. */
  lemma TruecolorExamples()
    ensures Truecolor(255, 0, 0) == "\U{1B}[38;2;255;0;0m"
    ensures Truecolor(0, 255, 0) == "\U{1B}[38;2;0;255;0m"
  {
  }

  /** Background truecolor selections the library's demonstration code formats. */
  lemma TruecolorBgExamples()
    ensures TruecolorBg(0, 255, 0) == "\U{1B}[48;2;0;255;0m"
    ensures TruecolorBg(0, 0, 255) == "\U{1B}[48;2;0;0;255m"
  {
  }

  // The constant table.

  /** `Sgr(k)` is the one-parameter control sequence for `k` and reads back as [k]. */
  lemma SgrLayout(k: nat)
    ensures Sgr(k) == Sequence([k])
    ensures Parse(Sgr(k)) == Some([k])
    ensures IsSgrShaped(Sgr(k))
  {
    ParseSequence([k]);
    SequenceShape([k]);
  }
}
