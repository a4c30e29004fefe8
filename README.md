# PostScript graphics driver: glyph repertoire and device state

This project models two parts of FLTK's PostScript graphics driver
(`Fl_PostScript_Graphics_Driver`, declared in `FL/Fl_PostScript.H`) and proves
properties of them in Dafny.

1. **The vector-glyph repertoire** (`repertoire.dfy`, module `Repertoire`).
   The driver draws a character with a glyph of a built-in PostScript font
   when its code point is in U+0020..U+017F (ASCII, Latin-1 Supplement,
   Latin Extended-A). It does the same for the 39 code points of a
   supplementary table, each with its PostScript glyph name. One of them,
   U+F8FF "apple", counts only on Mac OS. Every other character is drawn as a
   bitmap. `IsVectorGlyph(cp, isMac)` is the classification. `GlyphName(cp)`
   and `CodePointOf(name)` look the table up in both directions.
   `TextRendering` classifies a whole text, character by character.
2. **The driver's device state** (`clip_stack.dfy`, `device_state.dfy`,
   `driver.dfy`). Class `PostScriptDriver.GraphicsDriver` has these fields:
   the clip chain (`clip_` and its `Clip` frames), `gap_`, `shape_` (a `SHAPE`
   code), `interpolate_`, `page_policy_` and the 256-byte `linedash_` buffer.
   Its methods update them in place, as the inline members of the header do.
   One more field, `placed`, is not a field of the driver: it is the model's
   record of the calls made to `transformed_draw`, in order, and stands in for
   the PostScript those calls write to the output stream.
   `DeviceState` gives these fields as a value (`DriverState`) and states the
   effect of each operation as a function (`AfterGap`, `AfterBegin`, ...).
   Each method's `ensures` ties the new state to that function of the old
   state; for the begin and end calls it does so for every field except
   `gap_` (predicate `SameExceptGap`). The lemmas about those functions state
   what the header promises.
   `ClipStack` holds the chain of clip frames as a sequence, oldest first. Its
   last element is `clip_`, and each other element is the `prev` of the one
   after it.

The table is split into three constants, `COLUMN_1`..`COLUMN_3`, following
the three column groups of the header's table. This lets the uniqueness of
code points and names be checked one column at a time. The Apple logo is
listed last in the header. Here it sits at its place in code-point order, so
that the whole table is strictly increasing by code point.

Module `Wrappers` (`wrappers.dfy`) holds the `Option` datatype that the
other modules share.

Text is a `string`, that is, a sequence of Unicode scalar values. The driver
itself receives UTF-8 bytes plus a byte count `n`. The model passes `n`
through unchanged and does not decode UTF-8.

## Model

| member | source | states |
|---|---|---|
| Repertoire.LatinRangeIsVector | FL/Fl_PostScript.H:41-42 | every code point from U+0020 to U+017F is drawn with a vector glyph, on every platform |
| Repertoire.ListedCharactersAreVector | FL/Fl_PostScript.H:45-58 | the table has 39 entries, and every entry except U+F8FF is a vector glyph on every platform |
| Repertoire.OnlyAppleIsMacOnly | FL/Fl_PostScript.H:58 | an entry is Mac OS only exactly when it is U+F8FF |
| Repertoire.AppleOnMacOnly | FL/Fl_PostScript.H:58 | U+F8FF is a vector glyph if and only if the platform is Mac OS; its name is "apple" |
| Repertoire.IsVectorGlyph | FL/Fl_PostScript.H:41-60 | the classification: a code point is a vector glyph if and only if it is in the Latin range or in the table (Mac-only entries on Mac OS only); everything else is a bitmap |
| Repertoire.BitmapExamples | FL/Fl_PostScript.H:60 | U+001F, U+0180, U+2015 and U+4E00 are bitmaps on every platform |
| Repertoire.SupplementOutsideLatin | FL/Fl_PostScript.H:41-58 | every table entry lies above U+017F, so the table and the range do not overlap |
| Repertoire.SupplementEntry | FL/Fl_PostScript.H:45-58 | each table entry is found by its code point and by its name, and it is a vector glyph unless it is Mac-only and the platform is not Mac OS |
| Repertoire.GlyphName | FL/Fl_PostScript.H:45-58 | a code point has a glyph name exactly when it is in the table |
| Repertoire.CodePointOf | FL/Fl_PostScript.H:45-58 | a name has a code point exactly when some table entry carries it |
| Repertoire.GlyphNameRoundTrip | FL/Fl_PostScript.H:45-58 | the code point of the name of a table code point is that code point |
| Repertoire.CodePointRoundTrip | FL/Fl_PostScript.H:45-58 | the name of the code point of a table name is that name |
| Repertoire.GlyphNameInjective | FL/Fl_PostScript.H:45-58 | distinct code points never get the same glyph name |
| Repertoire.NamedExamples | FL/Fl_PostScript.H:46-56 | U+2122 is "trademark", U+20AC is "Euro", U+FB01 is "fi"; U+0041 has no supplementary name |
| Repertoire.Lookup | FL/Fl_PostScript.H:44-59 | lookup by code point: the result is an entry of the table with that code point, and there is none exactly when no entry has it |
| Repertoire.LookupName | FL/Fl_PostScript.H:44-59 | lookup by glyph name, with the same guarantees |
| Repertoire.TextRendering | FL/Fl_PostScript.H:41-60 | a text gives one rendering per character, and a character is drawn as a vector glyph if and only if it is in the repertoire |
| Repertoire.TextRenderingConcat | FL/Fl_PostScript.H:41-60 | classifying a concatenation gives the two classifications concatenated |
| Repertoire.LatinTextIsVector | FL/Fl_PostScript.H:41-42 | a text made only of Latin-range characters is drawn entirely with vector glyphs |
| DeviceState.ShapeCode | FL/Fl_PostScript.H:70 | every SHAPE value is a code from 0 to 4, and the code is 0 exactly for NONE |
| DeviceState.ShapeOf | FL/Fl_PostScript.H:70 | an integer stands for a SHAPE value exactly when it lies between 0 and 4 |
| DeviceState.ShapeCodeRoundTrip | FL/Fl_PostScript.H:70 | code to SHAPE and back, and SHAPE to code and back, are identities |
| DeviceState.OperationsKeepWellFormed | FL/Fl_PostScript.H:86 | every modelled operation keeps `shape_` one of NONE, LINE, LOOP, POLYGON, POINTS |
| DeviceState.GapSetsOnlyGap | FL/Fl_PostScript.H:187 | `gap()` sets `gap_` to 1, changes nothing else, and doing it twice is the same as doing it once |
| DeviceState.InterpolateRoundTrip | FL/Fl_PostScript.H:133-134 | `interpolate()` returns what `interpolate(i)` stored; the setter changes nothing else; the last write wins |
| DeviceState.BeginThenEnd | FL/Fl_PostScript.H:70 | a begin followed by an end leaves no shape being built; from a state with no shape it restores every field except `gap_`, which the model does not determine for begin and end |
| DeviceState.AfterClips | FL/Fl_PostScript.H:72-77 | a run of clip operations changes only the clip chain, and changes it as the stack does |
| DeviceState.BalancedClipsRestore | FL/Fl_PostScript.H:72-77 | a balanced run of pushes and pops restores the whole driver state |
| ClipStack.Top | FL/Fl_PostScript.H:77 | there is no current frame exactly when the chain is empty; otherwise the current frame is the last one pushed |
| ClipStack.Prev | FL/Fl_PostScript.H:75 | the `prev` chain is the chain without its current frame |
| ClipStack.Apply | FL/Fl_PostScript.H:72-77 | a push makes the pushed rectangle current, with the old chain as its `prev`; a pop makes `prev` current; popping an empty chain leaves it empty |
| ClipStack.PushThenPop | FL/Fl_PostScript.H:72-77 | pushing a frame and popping it restores the chain |
| ClipStack.RunKeepsPrefix | FL/Fl_PostScript.H:72-77 | a run that never pops below its start keeps the starting chain underneath and changes the depth by pushes minus pops |
| ClipStack.BalancedRestores | FL/Fl_PostScript.H:72-77 | a balanced run restores the chain exactly |
| PostScriptDriver.GraphicsDriver.constructor | FL/Fl_PostScript.H:68 | a new driver has no clip frame, no shape, a 256-entry dash buffer and the given `gap_`, `interpolate_` and `page_policy_` |
| PostScriptDriver.GraphicsDriver.Gap | FL/Fl_PostScript.H:187 | the new state is the old one with `gap_` = 1 |
| PostScriptDriver.GraphicsDriver.SetInterpolate | FL/Fl_PostScript.H:133 | the new state is the old one with `interpolate_` = i |
| PostScriptDriver.GraphicsDriver.Interpolate | FL/Fl_PostScript.H:134 | returns the stored `interpolate_` |
| PostScriptDriver.GraphicsDriver.PagePolicy | FL/Fl_PostScript.H:127 | returns the stored `page_policy_` |
| PostScriptDriver.GraphicsDriver.BeginPoints | FL/Fl_PostScript.H:172 | `shape_` becomes POINTS, every field except `gap_` is unchanged, and `gap_` is left open |
| PostScriptDriver.GraphicsDriver.BeginLine | FL/Fl_PostScript.H:173 | `shape_` becomes LINE, every field except `gap_` is unchanged, and `gap_` is left open |
| PostScriptDriver.GraphicsDriver.BeginLoop | FL/Fl_PostScript.H:174 | `shape_` becomes LOOP, every field except `gap_` is unchanged, and `gap_` is left open |
| PostScriptDriver.GraphicsDriver.BeginPolygon | FL/Fl_PostScript.H:175 | `shape_` becomes POLYGON, every field except `gap_` is unchanged, and `gap_` is left open |
| PostScriptDriver.GraphicsDriver.EndPoints | FL/Fl_PostScript.H:182 | `shape_` returns to NONE, every field except `gap_` is unchanged, and `gap_` is left open |
| PostScriptDriver.GraphicsDriver.EndLine | FL/Fl_PostScript.H:183 | `shape_` returns to NONE, every field except `gap_` is unchanged, and `gap_` is left open |
| PostScriptDriver.GraphicsDriver.EndLoop | FL/Fl_PostScript.H:184 | `shape_` returns to NONE, every field except `gap_` is unchanged, and `gap_` is left open |
| PostScriptDriver.GraphicsDriver.EndPolygon | FL/Fl_PostScript.H:185 | `shape_` returns to NONE, every field except `gap_` is unchanged, and `gap_` is left open |
| PostScriptDriver.GraphicsDriver.BeginComplexPolygon | FL/Fl_PostScript.H:186 | promises exactly what `begin_polygon()` promises |
| PostScriptDriver.GraphicsDriver.EndComplexPolygon | FL/Fl_PostScript.H:188 | promises exactly what `end_polygon()` promises |
| PostScriptDriver.GraphicsDriver.PushFrame | FL/Fl_PostScript.H:72-77 | links a new current frame whose `prev` is the old `clip_`; nothing else changes |
| PostScriptDriver.GraphicsDriver.PopFrame | FL/Fl_PostScript.H:72-77 | makes `prev` current and reports whether there was a frame; nothing else changes |
| PostScriptDriver.GraphicsDriver.TransformedDraw | FL/Fl_PostScript.H:119 | records one call to the precise text placer with its arguments |
| PostScriptDriver.GraphicsDriver.Draw | FL/Fl_PostScript.H:196 | the integer-position `draw(s, n, x, y)` leaves exactly the state of `transformed_draw(s, n, x, y)` at the same position |
| PostScriptDriver.ClientScenario | FL/Fl_PostScript.H:133-134 | a caller sees `interpolate()` return what it set, no shape left after a complex polygon, `gap_` = 1 after `gap()`, and the clip chain back after a push and a pop |

## Left out

- The bodies of `begin_points`, `begin_line`, `begin_loop`, `begin_polygon`
  and the matching `end_*` calls are not part of this model; the header only
  declares them. The model takes the reading that the `SHAPE` enumeration and
  the `shape_` field give: a begin records its kind and an end returns to
  NONE. It assumes that they leave every other field except `gap_` unchanged.
  Their contracts say nothing about the new value of `gap_`, since a begin or
  an end may well reset that "new contour" flag. The PostScript they emit and
  any check for a begin while a shape is already open are left out.
- `vertex`, `transformed_vertex`, `curve`, `circle`, `arc` and `pie`: their
  bodies are not shown, and they work in floating point.
- PushFrame and PopFrame: they model only how `push_clip` and `pop_clip` link
  and unlink `Clip` frames. The rectangle `push_clip` computes (the
  intersection with the enclosing frame), `push_no_clip`, `clip_box` and
  `not_clipped` are not part of this model, because their bodies are not shown.
- PopFrame: what `pop_clip` does with no frame is not shown. The model leaves
  the chain empty and returns `false`.
- The constructor: the driver's constructor body is not shown. The model
  starts from a driver with no clip frame and no shape. The values of `gap_`,
  `interpolate_` and `page_policy_` are parameters.
- `page_policy(int p)`, `line_style`, `color`, `font`, `recover`, `reset`,
  `concat` and `reconcat`: only declared in the header, so not modelled. The
  `linedash_` buffer is kept at its fixed size of 256 entries, and no
  modelled operation writes to it.
- TransformedDraw: the glyph output, metrics and bitmap fallback of
  `transformed_draw` are in a source file that is not part of this model. The
  model records only the call and its arguments. `Draw` converts its integer
  position to `real`, as C++ converts `int` to `double`; that conversion is
  exact for every 32-bit `int`.
- The angled `draw`, `rtl_draw`, `width`, `height`, `descent` and
  `text_extents`: they depend on font data and a bitmap-glyph renderer that are
  not shown. The mapping to Helvetica, Courier and Times has no table to check
  against.
- The Mac OS `draw(const char*, int, float, float)` variant is left out; it
  forwards to `transformed_draw` just as `Draw` does.
- Image drawing (`draw_image`, `draw_image_mono`, the `Fl_Pixmap`,
  `Fl_Bitmap` and `Fl_RGB_Image` overloads) and `alpha_mask`: they rely on
  callbacks and image classes that are not part of this model.
- All PostScript output to `FILE *output`, `close_command`, `file`,
  `start_postscript`, `page` and the scaling, rotation and margin fields. This
  is stream I/O, a foreign function pointer and floating-point geometry.
- `Fl_PostScript_File_Device`: the job and page lifecycle, the file chooser
  and the Mac OS graphics-context glue.
- The model has no UTF-8 decoding: text is taken as a sequence of Unicode
  scalar values.
