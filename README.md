# flower-pot in Dafny

A verified model of the flower-pot library (`src/lib.rs`). The library holds
the ANSI text-styling codes. Each one is a SELECT GRAPHIC RENDITION (SGR)
control sequence, as defined in section 8.3.117 of ECMA-48, written in the
control-sequence syntax of section 5.4 of ECMA-48: `ESC [`, decimal parameters
separated by `;`, then `m`. The library provides two things:

- 71 named string constants, such as `RESET`, `BOLD`, `RED`, `BRIGHT_CYAN_BG`
  and `DEFAULT_BG`. Each is one complete sequence `ESC [ k m` with a fixed
  parameter `k`.
- Four formatters: `color_256` and `color_256_bg` emit `ESC [ 38|48 ; 5 ; n m`,
  and `truecolor` and `truecolor_bg` emit `ESC [ 38|48 ; 2 ; r ; g ; b m`,
  for `u8` arguments.

The model has four modules:

- `Decimal` (`decimal.dfy`): the decimal rendering that Rust's `{}` gives an
  unsigned integer, and the reading of a digit string back into a number. It
  proves that the renderings are exactly the canonical numerals (no leading
  zeros), that rendering is injective, and how many digits a byte takes.
- `ControlSequence` (`control_sequence.dfy`): `Sequence(ps)` renders an SGR
  sequence for a list of parameters. `Parse` is a strict reader, written for
  the proofs. It proves that `Parse(s) == Some(ps)` exactly when
  `s == Sequence(ps)`.
- `FlowerPot` (`flower_pot.dfy`): the library as written. It has the four
  formatters as the same string concatenations, the constants as the same
  string literals, and `Sgr(k) = ESC [ k m`. It proves each formatter's layout,
  that it reads back, that it is injective, and that the formatters are
  pairwise disjoint.
- `FlowerPotTable` (`code_table.dfy`): a datatype `Code` that names every
  constant, so that the table can be quantified over:
  - `Literal(c)` is the constant bound to the name `c`;
  - `Parameter(c)` is the SGR parameter of `c`;
  - `CodeOf(k)` goes back from a parameter to a name.

  It proves that every constant is `Sgr(Parameter(c))`, which parameter
  ranges the table uses, and that constants are distinct except for the
  intended pair at 21.

`u8` is the subset type `U8` (`0 <= n < 256`). ESC is the character `\U{1B}`.

## Model

| member | source | states |
|---|---|---|
| `Decimal.DecimalString` | src/lib.rs:70 | the rendering of `{n}` is a canonical numeral: non-empty, digits only, and it starts with '0' exactly when n is 0 |
| `Decimal.ValueOfDecimalString` | src/lib.rs:70 | reading the rendering of n back gives n |
| `Decimal.DecimalStringOfValue` | src/lib.rs:70 | every canonical numeral is the rendering of the number it denotes, so the renderings are exactly the numerals with no leading zeros |
| `Decimal.DecimalStringInjective` | src/lib.rs:70 | two numbers have the same rendering if and only if they are equal |
| `Decimal.DecimalStringLength` | src/lib.rs:69-75 | below 1000, a number takes 1 digit below 10, 2 digits below 100, and 3 otherwise |
| `ControlSequence.SequenceShape` | src/lib.rs:24-135 | every rendered SGR sequence starts with ESC '[', ends with 'm', and has only digits and ';' in between |
| `ControlSequence.ParseSequence` | src/lib.rs:69-100 | parsing a rendered sequence gives back exactly its parameter list |
| `ControlSequence.ParseIsInverse` | src/lib.rs:69-100 | `Parse(s) == Some(ps)` holds exactly when ps is non-empty and s is the rendering of ps |
| `ControlSequence.SequenceInjective` | src/lib.rs:69-100 | two parameter lists render to the same string if and only if they are equal |
| `FlowerPot.Color256` | src/lib.rs:69-71 | `color_256(n)` has the SGR shape and is 9 to 11 characters long |
| `FlowerPot.Truecolor` | src/lib.rs:73-75 | `truecolor(r, g, b)` has the SGR shape and is 13 to 19 characters long |
| `FlowerPot.Color256Bg` | src/lib.rs:94-96 | `color_256_bg(n)` has the SGR shape and is 9 to 11 characters long |
| `FlowerPot.TruecolorBg` | src/lib.rs:98-100 | `truecolor_bg(r, g, b)` has the SGR shape and is 13 to 19 characters long |
| `FlowerPot.Color256Layout` | src/lib.rs:69-71 | `color_256(n)` is the SGR sequence of the parameters [38, 5, n], and parses back to exactly that list |
| `FlowerPot.Color256BgLayout` | src/lib.rs:94-96 | `color_256_bg(n)` is the SGR sequence of the parameters [48, 5, n], and parses back to exactly that list |
| `FlowerPot.TruecolorLayout` | src/lib.rs:73-75 | `truecolor(r, g, b)` is the SGR sequence of the parameters [38, 2, r, g, b], and parses back to exactly that list |
| `FlowerPot.TruecolorBgLayout` | src/lib.rs:98-100 | `truecolor_bg(r, g, b)` is the SGR sequence of the parameters [48, 2, r, g, b], and parses back to exactly that list |
| `FlowerPot.Color256Injective` | src/lib.rs:69-71 | on either channel, two palette selectors are equal if and only if their indices are equal |
| `FlowerPot.TruecolorInjective` | src/lib.rs:73-75 | on either channel, two truecolor selectors are equal if and only if their RGB triples are equal |
| `FlowerPot.FormattersDisjoint` | src/lib.rs:69-100 | whatever the arguments, foreground output never equals background output, and palette output never equals truecolor output |
| `FlowerPot.PaletteExamples` | src/lib.rs:158-168 | `color_256(232)` is `ESC[38;5;232m` and `color_256_bg(255)` is `ESC[48;5;255m` |
| `FlowerPot.TruecolorExamples` | src/lib.rs:199-207 | `truecolor(255, 0, 0)` is `ESC[38;2;255;0;0m` and `truecolor(0, 255, 0)` is `ESC[38;2;0;255;0m` |
| `FlowerPot.TruecolorBgExamples` | src/lib.rs:209-215 | `truecolor_bg(0, 255, 0)` is `ESC[48;2;0;255;0m` and `truecolor_bg(0, 0, 255)` is `ESC[48;2;0;0;255m` |
| `FlowerPot.SgrLayout` | src/lib.rs:24-135 | `Sgr(k)` is the one-parameter SGR sequence [k]: it has the SGR shape and parses back to [k] |
| `FlowerPotTable.StyleConstants` | src/lib.rs:24-33 | `RESET` through `STRIKETHROUGH` are `Sgr(0)` through `Sgr(9)` |
| `FlowerPotTable.FontConstants` | src/lib.rs:34-44 | `PRIMARY_FONT`, `ALT_FONT_1` to `ALT_FONT_9` and `FRAKTUR_FONT` are `Sgr(10)` through `Sgr(20)` |
| `FlowerPotTable.StyleOffConstants` | src/lib.rs:45-54 | `DOUBLE_UNDERLINE` and `NOT_BOLD` are both `Sgr(21)`; `NORMAL_INTENSITY` through `NOT_STRIKETHROUGH` are `Sgr(22)` through `Sgr(29)` |
| `FlowerPotTable.ExtraStyleConstants` | src/lib.rs:108-113 | `NO_PROPORTIONAL_SPACING` through `NOT_OVERLINED` are `Sgr(50)` through `Sgr(55)` |
| `FlowerPotTable.FgConstants` | src/lib.rs:58-65 | `BLACK` through `WHITE` are `Sgr(30)` through `Sgr(37)`, in colour order |
| `FlowerPotTable.BgConstants` | src/lib.rs:83-90 | `BLACK_BG` through `WHITE_BG` are `Sgr(40)` through `Sgr(47)` |
| `FlowerPotTable.BrightFgConstants` | src/lib.rs:117-124 | `BRIGHT_BLACK` through `BRIGHT_WHITE` are `Sgr(90)` through `Sgr(97)` |
| `FlowerPotTable.BrightBgConstants` | src/lib.rs:128-135 | `BRIGHT_BLACK_BG` through `BRIGHT_WHITE_BG` are `Sgr(100)` through `Sgr(107)` |
| `FlowerPotTable.DefaultConstants` | src/lib.rs:79 | `DEFAULT` is `Sgr(39)` and `DEFAULT_BG` (line 104) is `Sgr(49)` |
| `FlowerPotTable.ColorLiteral` | src/lib.rs:58-135 | colour i (0..7) of a channel and brightness is `Sgr(base + i)`, with base 30, 40, 90 or 100 for foreground, background, bright foreground and bright background |
| `FlowerPotTable.Literal` | src/lib.rs:24-135 | the constant bound to each name is `Sgr` of that name's parameter |
| `FlowerPotTable.CodeOf` | src/lib.rs:24-135 | a parameter has a name exactly when it lies in 0..29, 30..37, 39, 40..47, 49, 50..55, 90..97 or 100..107, and the name it gives has that parameter |
| `FlowerPotTable.LiteralShape` | src/lib.rs:24-135 | every constant has the SGR shape, parses back to its single parameter, and that parameter is in the table's ranges |
| `FlowerPotTable.CodeOfParameter` | src/lib.rs:24-135 | looking up a name's parameter gives the name back; the one exception is that NOT_BOLD gives DOUBLE_UNDERLINE |
| `FlowerPotTable.TableParameters` | src/lib.rs:24-135 | a parameter lies in the table's ranges if and only if some constant uses it |
| `FlowerPotTable.ParameterInjective` | src/lib.rs:45-46 | two names share a parameter if and only if they are the same name or the pair DOUBLE_UNDERLINE / NOT_BOLD |
| `FlowerPotTable.LiteralsDistinct` | src/lib.rs:24-135 | two constants are the same string if and only if they are the same name or DOUBLE_UNDERLINE and NOT_BOLD |
| `FlowerPotTable.FormattersAreNotConstants` | src/lib.rs:24-135 | no output of any formatter equals any named constant |

## Left out

- The `tests` module (src/lib.rs:139-222) and the documentation example (src/lib.rs:8-14): they only print to standard output, for visual inspection.
- How a terminal interprets or renders the codes, and which terminals support which codes (src/lib.rs:16-20): this lies outside the library.
- Rust `String` allocation and how `format!` works inside: a result is a Dafny `string` built by concatenation, with the model's own decimal rendering.
- Calling a formatter twice on the same inputs gives the same string. The model states this nowhere, because Dafny functions are deterministic by construction.
- `u8` arithmetic: the library does no arithmetic on its arguments, so `U8` only bounds them to 0..255.
