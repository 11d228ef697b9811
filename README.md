# Palette and label consolidation of the human-parsing extractor

`simple_extractor.py` runs a human-parsing network over a batch of images.
Two parts of it are exact integer logic, and this project models both:

- **`get_palette(num_cls)`** builds the colour map used to draw a
  segmentation mask. It reads each class id `j` three bits at a time. In the
  `i`-th group, bit 0 goes to red, bit 1 to green and bit 2 to blue, each at
  bit position `7 - i` of its channel. The result is the flat list
  `[r0, g0, b0, r1, g1, b1, ...]`. Module `Palette` (`Palette.dfy`) models it
  as follows:
  - `GetPalette` preallocates an `array<nat>` and runs the same `for j` /
    `while lab` loops. The loop body is the method `ColorClass`.
  - `GetPalette` is proved against the reference function `PaletteOf`, and
    `ColorClass` against `Channel(j, c)`, from which `PaletteOf` is built:
    bit `3 i + c` of `j` placed at bit `7 - i`.
  - Python integers are unbounded, so all values are `nat`. `>>`, `&`, `<<`
    and `|=` are written out as functions on `nat` (`Shr`, `BitAt`, `Shl`,
    `BitOr`), and lemmas connect them to the reference arithmetic.
  - `x << (7 - i)` with `i = 8` raises `ValueError` in Python (negative
    shift count). That happens for the first class id that needs a ninth
    group, `j = 2^24`. So `GetPalette` returns `Err(NegativeShiftCount)`
    exactly when `num_cls > 2^24`.
- **The label consolidation chain** (`main`, lines 186-211) rewrites the
  argmax label image with sixteen successive whole-array substitutions
  `np.where(p == a, b, p)`, in a fixed order. Module `Relabel`
  (`Relabel.dfy`) models it as follows:
  - A `Rule(from, to)` list, `Chain`, holds the sixteen rules in source
    order.
  - `Fold` applies a rule list left to right to one label.
  - `ApplyRule` is one pass over an `array2<int>`, and `Consolidate` runs
    one pass per rule.
  - The composed per-pixel map is proved equal to the flat table
    `Consolidated`.

Facts about the code that a reader of `get_palette` and of the chain
might not expect:

- `get_palette` returns a flat list of `3 n` ints, not a list of `n`
  triples.
- It raises `ValueError` for `num_cls > 2^24` (`Palette.GetPalette`).
- Colours are distinct for every class count `n <= 2^24`
  (`Palette.PaletteDistinct`).
- The composed relabelling map is not idempotent: 4 goes to 12 and 12 goes
  to 8, and 5 goes to 4 and 4 goes to 12, so a second run of the sixteen
  passes would change labels again (`Relabel.NotIdempotent`).

## Model

| member | source | states |
|---|---|---|
| `Palette.GetPalette` | simple_extractor.py:76-97 | fails with the negative-shift error exactly when `num_cls > 2^24`; otherwise returns `PaletteOf(num_cls)`, the flat list of `3 * max(num_cls, 0)` channel values with class `j`'s triple at `3j .. 3j+2` |
| `Palette.ColorClass` | simple_extractor.py:86-96 | one pass of the `for j` body on the preallocated list: succeeds exactly when `j < 2^24`, then the three entries of class `j` are its red, green and blue channels; every other entry is left as it was |
| `Palette.PaletteOf` | simple_extractor.py:84-85 | the palette has `3 n` entries for `n > 0` and none for `n <= 0` (`[0] * (n * 3)` and `range(0, n)` are empty) |
| `Palette.ProgressStep` | simple_extractor.py:91-96 | one iteration of `while lab` keeps the loop state (`lab` is `j >> 3i`; each channel so far plus what the remaining groups add is the final channel; no bit is set below `8 - i`), and `lab >>= 3` strictly decreases `lab`, so the loop ends |
| `Palette.ProgressDone` | simple_extractor.py:91-96 | when `lab` reaches 0 the three entries are the channels of `j`, and `j < 2^24` |
| `Palette.GroupsLeft` | simple_extractor.py:91-94 | if `lab` is still non-zero after eight groups, then `j >= 2^24`: this is the iteration whose shift by `7 - 8` raises |
| `Palette.OrStep` | simple_extractor.py:92-94 | OR-ing `((lab >> c) & 1) << (7 - i)` into channel `c` adds that bit at position `7 - i`, because no bit at or below that position is set yet; afterwards no bit below `7 - i` is set |
| `Palette.BitOrDisjoint` | simple_extractor.py:92-94 | OR-ing a single bit at position `k` into a value `a` whose bits `0 .. k` are clear (so the new bit lies below every set bit of `a`) equals adding it |
| `Palette.PaletteAt` | simple_extractor.py:87-94 | entry `3 j + c` of the palette for `n` classes is channel `c` of class `j`, whatever `n` is |
| `Palette.PalettePrefix` | simple_extractor.py:85-96 | the palette for `n` classes is a prefix of the palette for any `m >= n` |
| `Palette.BackgroundIsBlack` | simple_extractor.py:86-91 | class 0 is `(0, 0, 0)`: the `while lab` body never runs for it |
| `Palette.ChannelIsByte` | simple_extractor.py:91-96 | every channel value of every class lies in `0 .. 255` |
| `Palette.PaletteIsBytes` | simple_extractor.py:84-97 | every entry of every palette lies in `0 .. 255` |
| `Palette.DecodeColor` | simple_extractor.py:92-96 | for `j < 2^24` the class id is recovered from its colour: bit `7 - i` of channel `c` is bit `3 i + c` of `j` |
| `Palette.ColorInjective` | simple_extractor.py:92-96 | two class ids below 2^24 with the same colour are equal |
| `Palette.PaletteDistinct` | simple_extractor.py:84-97 | in a palette of at most 2^24 classes, two different classes have different triples |
| `Relabel.ApplyRule` | simple_extractor.py:188 | one `np.where(p == a, b, p)`: every cell becomes `b` if it held `a` and keeps its value otherwise; each cell depends on that cell alone |
| `Relabel.Consolidate` | simple_extractor.py:186-211 | after one pass per rule, in order, every cell holds the left-to-right fold of the rules over its own original value |
| `Relabel.ConsolidateParsing` | simple_extractor.py:186-211 | the sixteen passes of the source send every cell to `Consolidated` of its original value |
| `Relabel.ChainIsTable` | simple_extractor.py:186-211 | the composition of the sixteen substitutions, in source order, equals the flat table `{0:0, 1:1, 2:1, 3:3, 4:12, 5:4, 6:4, 7:4, 8:8, 9:8, 10:4, 11:11, 12:8, 13:12, 14:11, 15:13, 16:9, 17:10, 18:5, 19:6}`, with every other id left alone |
| `Relabel.FoldAppend` | simple_extractor.py:186-211 | running one list of passes and then another is the same as running their concatenation |
| `Relabel.FoldUntouched` | simple_extractor.py:186-211 | a label that no remaining rule matches passes through unchanged |
| `Relabel.FoldIsFirstMatch` | simple_extractor.py:186-211 | when no rule rewrites a label produced by an earlier rule, the chain of passes equals a single lookup decided by the first matching rule |
| `Relabel.ChainNoRewrite` | simple_extractor.py:186-211 | in the source order, no substitution matches a label that an earlier one produced |
| `Relabel.ChainIsFirstMatch` | simple_extractor.py:186-211 | so in the source chain, the first matching rule decides each label |
| `Relabel.ConsolidatedRange` | simple_extractor.py:186-213 | every raw id in `0 .. 19` ends in `{0, 1, 3, 4, 5, 6, 8, 9, 10, 11, 12, 13}`, and the `uint8` cast of the saved image keeps it unchanged |
| `Relabel.OutputsReached` | simple_extractor.py:186-211 | every label of that set is the image of some raw id in `0 .. 19` |
| `Relabel.SidesDistinct` | simple_extractor.py:201-211 | left and right shoes, legs and arms keep distinct labels (5/6, 9/10, 11/13) |
| `Relabel.Example` | simple_extractor.py:186-211 | the raw ids `[0, 2, 4, 5, 9, 18]` become `[0, 1, 12, 4, 8, 5]` |
| `Relabel.OrderMatters` | simple_extractor.py:189-194 | `12 -> 8` runs before `4 -> 12`, so a raw 4 ends as 12; with the two swapped it would end as 8, and the swapped order rewrites a produced label |
| `Relabel.NotIdempotent` | simple_extractor.py:193-197 | a second consolidation would change labels 4 and 5 again; running the sixteen passes twice sends a raw 4 to 8, not 12 |

## Left out

- CLI parsing, GPU and environment setup, model construction and checkpoint
  loading: these are glue code and foreign calls into torch.
- Tensor normalisation, bilinear upsampling, `transform_logits` and the
  argmax over float logits: these are floating-point work, and the
  transform modules are not part of this model. The consolidation starts
  from the integer label image the argmax produces.
- Creating directories, copying, moving and splitting file names, the cv2
  edge maps, and the PNG and `.npy` saving: these are I/O and
  image-library calls. Of the save step, only the `uint8` cast is modelled
  (`Relabel.Uint8`).
- Each `np.where` builds a new array that is then bound to
  `parsing_result`. The model updates one `array2<int>` in place instead.
  The two agree because every substitution is elementwise and nothing else
  holds the old array.
- The palette's list of unbounded Python ints is an `array<nat>`, so no
  wrap-around is involved there.
- The label image `np.argmax` produces is a numpy `int64` array; the model
  uses unbounded `int`. No `int64` overflow can arise in the chain: the raw
  ids lie in `0 .. 19` and every rule target is at most 13.
