// Which Unicode characters the PostScript graphics driver draws with the
// built-in vector fonts of the PostScript language, and which ones it draws
// as bitmaps.

module Repertoire {
  import opened Wrappers

  /** One cell group of the supplementary glyph table: a code point, the
      PostScript name of its glyph, and whether the glyph exists on Mac OS only. */
  datatype GlyphEntry = GlyphEntry(code: int, name: string, macOnly: bool)

  /** How one character of a text is drawn. */
  datatype Rendering = Vector | Bitmap

  /** First and last code point of the contiguous Latin range
      (ASCII, Latin-1 Supplement, Latin Extended-A). */
  const LATIN_FIRST: int := 0x20
  const LATIN_LAST: int := 0x17F

  /** The private-use code point of the Apple logo. */
  const APPLE: int := 0xF8FF

  /** The three columns of the supplementary table as the driver's
      documentation lays them out, except that the Apple logo, listed last
      there, stands here at its place in code-point order. */
  const COLUMN_1: seq<GlyphEntry> := [
    GlyphEntry(0x0192, "florin", false),
    GlyphEntry(0x02C6, "circumflex", false),
    GlyphEntry(0x02C7, "caron", false),
    GlyphEntry(0x02D8, "breve", false),
    GlyphEntry(0x02D9, "dotaccent", false),
    GlyphEntry(0x02DA, "ring", false),
    GlyphEntry(0x02DB, "ogonek", false),
    GlyphEntry(0x02DC, "tilde", false),
    GlyphEntry(0x02DD, "hungarumlaut", false),
    GlyphEntry(0x2013, "endash", false),
    GlyphEntry(0x2014, "emdash", false),
    GlyphEntry(0x2018, "quoteleft", false),
    GlyphEntry(0x2019, "quoteright", false)
  ]

  const COLUMN_2: seq<GlyphEntry> := [
    GlyphEntry(0x201A, "quotesinglbase", false),
    GlyphEntry(0x201C, "quotedblleft", false),
    GlyphEntry(0x201D, "quotedblright", false),
    GlyphEntry(0x201E, "quotedblbase", false),
    GlyphEntry(0x2020, "dagger", false),
    GlyphEntry(0x2021, "daggerdbl", false),
    GlyphEntry(0x2022, "bullet", false),
    GlyphEntry(0x2026, "ellipsis", false),
    GlyphEntry(0x2030, "perthousand", false),
    GlyphEntry(0x2039, "guilsinglleft", false),
    GlyphEntry(0x203A, "guilsinglright", false),
    GlyphEntry(0x2044, "fraction", false),
    GlyphEntry(0x20AC, "Euro", false)
  ]

  const COLUMN_3: seq<GlyphEntry> := [
    GlyphEntry(0x2122, "trademark", false),
    GlyphEntry(0x2202, "partialdiff", false),
    GlyphEntry(0x2206, "Delta", false),
    GlyphEntry(0x2211, "summation", false),
    GlyphEntry(0x221A, "radical", false),
    GlyphEntry(0x221E, "infinity", false),
    GlyphEntry(0x2260, "notequal", false),
    GlyphEntry(0x2264, "lessequal", false),
    GlyphEntry(0x2265, "greaterequal", false),
    GlyphEntry(0x25CA, "lozenge", false),
    GlyphEntry(APPLE, "apple", true),
    GlyphEntry(0xFB01, "fi", false),
    GlyphEntry(0xFB02, "fl", false)
  ]

  /** The whole supplementary table: 39 entries in increasing code-point
      order, one of them (the Apple logo) Mac OS only. */
  const SUPPLEMENT: seq<GlyphEntry> := COLUMN_1 + COLUMN_2 + COLUMN_3

  predicate InLatinRange(cp: int) {
    LATIN_FIRST <= cp <= LATIN_LAST
  }

  // ---------------------------------------------------------------------
  // Table lookups

  /** The first entry of `t` for code point `cp`. */
  function Lookup(t: seq<GlyphEntry>, cp: int): (r: Option<GlyphEntry>)
    ensures r.Some? ==> r.value in t && r.value.code == cp
    ensures r.None? <==> forall k :: 0 <= k < |t| ==> t[k].code != cp
  {
    if t == [] then None
    else if t[0].code == cp then Some(t[0])
    else Lookup(t[1..], cp)
  }

  /** The first entry of `t` whose glyph is called `name`. */
  function LookupName(t: seq<GlyphEntry>, name: string): (r: Option<GlyphEntry>)
    ensures r.Some? ==> r.value in t && r.value.name == name
    ensures r.None? <==> forall k :: 0 <= k < |t| ==> t[k].name != name
  {
    if t == [] then None
    else if t[0].name == name then Some(t[0])
    else LookupName(t[1..], name)
  }

  /** Code points strictly increase along `t`. */
  predicate CodesIncreasing(t: seq<GlyphEntry>) {
    forall k :: 0 < k < |t| ==> t[k - 1].code < t[k].code
  }

  /** No two entries of `t` share a glyph name. */
  ghost predicate NamesDistinct(t: seq<GlyphEntry>) {
    forall i, j :: 0 <= i < j < |t| ==> t[i].name != t[j].name
  }

  /** No entry of `a` shares a glyph name with an entry of `b`. */
  ghost predicate NamesApart(a: seq<GlyphEntry>, b: seq<GlyphEntry>) {
    forall i, j :: 0 <= i < |a| && 0 <= j < |b| ==> a[i].name != b[j].name
  }

  lemma {:induction false} IncreasingCodes(t: seq<GlyphEntry>, i: int, j: int)
    requires CodesIncreasing(t) && 0 <= i < j < |t|
    ensures t[i].code < t[j].code
  {
    if i < j - 1 {
      IncreasingCodes(t, i, j - 1);
    }
  }

  lemma {:induction false} LookupEntry(t: seq<GlyphEntry>, k: int)
    requires CodesIncreasing(t) && 0 <= k < |t|
    ensures Lookup(t, t[k].code) == Some(t[k])
  {
    if k > 0 {
      IncreasingCodes(t, 0, k);
      assert t[1..][k - 1] == t[k];
      LookupEntry(t[1..], k - 1);
    }
  }

  lemma {:induction false} LookupNameEntry(t: seq<GlyphEntry>, k: int)
    requires NamesDistinct(t) && 0 <= k < |t|
    ensures LookupName(t, t[k].name) == Some(t[k])
  {
    if k > 0 {
      assert t[0].name != t[k].name;
      assert t[1..][k - 1] == t[k];
      LookupNameEntry(t[1..], k - 1);
    }
  }

  lemma DistinctConcat(a: seq<GlyphEntry>, b: seq<GlyphEntry>)
    requires NamesDistinct(a) && NamesDistinct(b) && NamesApart(a, b)
    ensures NamesDistinct(a + b)
  {
    forall i, j | 0 <= i < j < |a + b|
      ensures (a + b)[i].name != (a + b)[j].name
    {
      if j < |a| {
        assert (a + b)[i] == a[i] && (a + b)[j] == a[j];
      } else if i < |a| {
        assert (a + b)[i] == a[i] && (a + b)[j] == b[j - |a|];
      } else {
        assert (a + b)[i] == b[i - |a|] && (a + b)[j] == b[j - |a|];
      }
    }
  }

  lemma SplitDistinct(t: seq<GlyphEntry>, m: int)
    requires 0 <= m <= |t|
    requires NamesDistinct(t[..m]) && NamesDistinct(t[m..]) && NamesApart(t[..m], t[m..])
    ensures NamesDistinct(t)
  {
    DistinctConcat(t[..m], t[m..]);
    assert t[..m] + t[m..] == t;
  }

  lemma ApartConcat(a: seq<GlyphEntry>, b: seq<GlyphEntry>, c: seq<GlyphEntry>)
    requires NamesApart(a, c) && NamesApart(b, c)
    ensures NamesApart(a + b, c)
  {
    forall i, j | 0 <= i < |a + b| && 0 <= j < |c|
      ensures (a + b)[i].name != c[j].name
    {
      if i < |a| {
        assert (a + b)[i] == a[i];
      } else {
        assert (a + b)[i] == b[i - |a|];
      }
    }
  }

  lemma IncreasingConcat(a: seq<GlyphEntry>, b: seq<GlyphEntry>)
    requires CodesIncreasing(a) && CodesIncreasing(b)
    requires a != [] && b != [] ==> a[|a| - 1].code < b[0].code
    ensures CodesIncreasing(a + b)
  {
    forall k | 0 < k < |a + b|
      ensures (a + b)[k - 1].code < (a + b)[k].code
    {
      if k < |a| {
        assert (a + b)[k - 1] == a[k - 1] && (a + b)[k] == a[k];
      } else if k == |a| {
        assert (a + b)[k - 1] == a[k - 1] && (a + b)[k] == b[0];
      } else {
        assert (a + b)[k - 1] == b[k - 1 - |a|] && (a + b)[k] == b[k - |a|];
      }
    }
  }

  // The column facts are checked entry by entry on the literal tables.
  lemma Column1Increasing() ensures CodesIncreasing(COLUMN_1) {}
  lemma Column2Increasing() ensures CodesIncreasing(COLUMN_2) {}
  lemma Column3Increasing() ensures CodesIncreasing(COLUMN_3) {}
  lemma Column1HeadDistinct() ensures NamesDistinct(COLUMN_1[..7]) {}
  lemma Column1TailDistinct() ensures NamesDistinct(COLUMN_1[7..]) {}
  lemma Column1HalvesApart() ensures NamesApart(COLUMN_1[..7], COLUMN_1[7..]) {}
  lemma Column2HeadDistinct() ensures NamesDistinct(COLUMN_2[..7]) {}
  lemma Column2TailDistinct() ensures NamesDistinct(COLUMN_2[7..]) {}
  lemma Column2HalvesApart() ensures NamesApart(COLUMN_2[..7], COLUMN_2[7..]) {}
  lemma Column3HeadDistinct() ensures NamesDistinct(COLUMN_3[..7]) {}
  lemma Column3TailDistinct() ensures NamesDistinct(COLUMN_3[7..]) {}
  lemma Column3HalvesApart() ensures NamesApart(COLUMN_3[..7], COLUMN_3[7..]) {}

  lemma Column1Distinct() ensures NamesDistinct(COLUMN_1) {
    Column1HeadDistinct();
    Column1TailDistinct();
    Column1HalvesApart();
    SplitDistinct(COLUMN_1, 7);
  }

  lemma Column2Distinct() ensures NamesDistinct(COLUMN_2) {
    Column2HeadDistinct();
    Column2TailDistinct();
    Column2HalvesApart();
    SplitDistinct(COLUMN_2, 7);
  }

  lemma Column3Distinct() ensures NamesDistinct(COLUMN_3) {
    Column3HeadDistinct();
    Column3TailDistinct();
    Column3HalvesApart();
    SplitDistinct(COLUMN_3, 7);
  }
  lemma Columns12Apart() ensures NamesApart(COLUMN_1, COLUMN_2) {}
  lemma Columns13Apart() ensures NamesApart(COLUMN_1, COLUMN_3) {}
  lemma Columns23Apart() ensures NamesApart(COLUMN_2, COLUMN_3) {}

  /** Code points increase along the whole table. */
  lemma SupplementIncreasing()
    ensures CodesIncreasing(SUPPLEMENT)
  {
    Column1Increasing();
    Column2Increasing();
    Column3Increasing();
    IncreasingConcat(COLUMN_1, COLUMN_2);
    IncreasingConcat(COLUMN_1 + COLUMN_2, COLUMN_3);
  }

  /** Glyph names are unique across the whole table. */
  lemma SupplementNamesDistinct()
    ensures NamesDistinct(SUPPLEMENT)
  {
    Column1Distinct();
    Column2Distinct();
    Column3Distinct();
    Columns12Apart();
    Columns13Apart();
    Columns23Apart();
    DistinctConcat(COLUMN_1, COLUMN_2);
    ApartConcat(COLUMN_1, COLUMN_2, COLUMN_3);
    DistinctConcat(COLUMN_1 + COLUMN_2, COLUMN_3);
  }

  // ---------------------------------------------------------------------
  // The classification

  /** True when the driver draws `cp` with a vector glyph of a PostScript
      font; `isMac` says whether the program was built for Mac OS. That is
      exactly the Latin range plus the table entries that exist on the
      platform; every other code point is a bitmap. */
  predicate IsVectorGlyph(cp: int, isMac: bool): (b: bool)
    ensures b <==>
      InLatinRange(cp) ||
      exists k :: 0 <= k < |SUPPLEMENT| && SUPPLEMENT[k].code == cp && (isMac || !SUPPLEMENT[k].macOnly)
  {
    SupplementIncreasing();
    VectorInExactly(SUPPLEMENT, cp, isMac);
    IsVectorGlyphIn(SUPPLEMENT, cp, isMac)
  }

  /** The same classification for a supplementary table `t`. */
  predicate IsVectorGlyphIn(t: seq<GlyphEntry>, cp: int, isMac: bool) {
    InLatinRange(cp) ||
    (match Lookup(t, cp)
     case Some(e) => isMac || !e.macOnly
     case None => false)
  }

  function RenderingOf(cp: int, isMac: bool): Rendering {
    if IsVectorGlyph(cp, isMac) then Vector else Bitmap
  }

  /** The PostScript glyph name the supplementary table gives for `cp`. */
  function GlyphName(cp: int): (r: Option<string>)
    ensures r.Some? <==> exists k :: 0 <= k < |SUPPLEMENT| && SUPPLEMENT[k].code == cp
  {
    match Lookup(SUPPLEMENT, cp)
    case Some(e) => Some(e.name)
    case None => None
  }

  /** The code point whose supplementary glyph is called `name`. */
  function CodePointOf(name: string): (r: Option<int>)
    ensures r.Some? <==> exists k :: 0 <= k < |SUPPLEMENT| && SUPPLEMENT[k].name == name
  {
    match LookupName(SUPPLEMENT, name)
    case Some(e) => Some(e.code)
    case None => None
  }

  /** How each character of `text` is drawn, in order. */
  function TextRendering(text: string, isMac: bool): (r: seq<Rendering>)
    ensures |r| == |text|
    ensures forall i :: 0 <= i < |text| ==> (r[i] == Vector <==> IsVectorGlyph(text[i] as int, isMac))
  {
    if text == [] then []
    else [RenderingOf(text[0] as int, isMac)] + TextRendering(text[1..], isMac)
  }

  // ---------------------------------------------------------------------
  // Properties

  /** Drawing a concatenation draws each part in turn. */
  lemma {:induction false} TextRenderingConcat(a: string, b: string, isMac: bool)
    ensures TextRendering(a + b, isMac) == TextRendering(a, isMac) + TextRendering(b, isMac)
  {
    if a != [] {
      assert (a + b)[1..] == a[1..] + b;
      TextRenderingConcat(a[1..], b, isMac);
    }
  }

  /** A text made only of Latin-range characters is drawn entirely with vector glyphs. */
  lemma LatinTextIsVector(text: string, isMac: bool)
    requires forall i :: 0 <= i < |text| ==> InLatinRange(text[i] as int)
    ensures forall i :: 0 <= i < |text| ==> TextRendering(text, isMac)[i] == Vector
  {
  }

  /** The whole range U+0020..U+017F is drawn with vector glyphs. */
  lemma LatinRangeIsVector(cp: int, isMac: bool)
    requires LATIN_FIRST <= cp <= LATIN_LAST
    ensures IsVectorGlyph(cp, isMac)
  {
  }

  /** Every table entry lies above the Latin range. */
  lemma SupplementOutsideLatin(k: int)
    requires 0 <= k < |SUPPLEMENT|
    ensures SUPPLEMENT[k].code > LATIN_LAST
  {
    SupplementIncreasing();
    if k > 0 {
      IncreasingCodes(SUPPLEMENT, 0, k);
    }
  }

  /** Each table entry is found by its own code point and by its own name,
      and it is drawn with a vector glyph unless it is Mac OS only and the
      platform is another one. */
  lemma SupplementEntry(k: int, isMac: bool)
    requires 0 <= k < |SUPPLEMENT|
    ensures GlyphName(SUPPLEMENT[k].code) == Some(SUPPLEMENT[k].name)
    ensures CodePointOf(SUPPLEMENT[k].name) == Some(SUPPLEMENT[k].code)
    ensures IsVectorGlyph(SUPPLEMENT[k].code, isMac) <==> isMac || !SUPPLEMENT[k].macOnly
  {
    SupplementIncreasing();
    SupplementNamesDistinct();
    LookupEntry(SUPPLEMENT, k);
    LookupNameEntry(SUPPLEMENT, k);
    SupplementOutsideLatin(k);
  }

  lemma VectorInExactly(t: seq<GlyphEntry>, cp: int, isMac: bool)
    requires CodesIncreasing(t)
    ensures IsVectorGlyphIn(t, cp, isMac) <==>
      InLatinRange(cp) ||
      exists k :: 0 <= k < |t| && t[k].code == cp && (isMac || !t[k].macOnly)
  {
    if k :| 0 <= k < |t| && t[k].code == cp {
      LookupEntry(t, k);
      forall j | 0 <= j < |t| && t[j].code == cp
        ensures t[j] == t[k]
      {
        LookupEntry(t, j);
      }
    }
  }

  /** No entry of an increasing table lies strictly between entries `k` and
      `k + 1` (or before the first, for `k == -1`). */
  lemma {:induction false} NotInGap(t: seq<GlyphEntry>, k: int, cp: int)
    requires CodesIncreasing(t) && -1 <= k < |t|
    requires k >= 0 ==> t[k].code < cp
    requires k + 1 < |t| ==> cp < t[k + 1].code
    ensures Lookup(t, cp) == None
  {
    forall j | 0 <= j < |t|
      ensures t[j].code != cp
    {
      if j < k {
        IncreasingCodes(t, j, k);
      } else if j > k + 1 {
        IncreasingCodes(t, k + 1, j);
      }
    }
  }

  /** The Apple logo is a vector glyph exactly on Mac OS. */
  lemma AppleOnMacOnly(isMac: bool)
    ensures IsVectorGlyph(APPLE, isMac) <==> isMac
    ensures GlyphName(APPLE) == Some("apple")
  {
    assert SUPPLEMENT[36] == GlyphEntry(APPLE, "apple", true);
    SupplementEntry(36, isMac);
  }

  /** Characters just outside the Latin range, next to an entry of the table,
      or far away from both are bitmaps on every platform. */
  lemma BitmapExamples(isMac: bool)
    ensures !IsVectorGlyph(0x1F, isMac) && !IsVectorGlyph(0x180, isMac)
    ensures !IsVectorGlyph(0x2015, isMac) && !IsVectorGlyph(0x4E00, isMac)
  {
    SupplementIncreasing();
    assert SUPPLEMENT[0].code == 0x0192;
    NotInGap(SUPPLEMENT, -1, 0x1F);
    NotInGap(SUPPLEMENT, -1, 0x180);
    assert SUPPLEMENT[10].code == 0x2014 && SUPPLEMENT[11].code == 0x2018;
    NotInGap(SUPPLEMENT, 10, 0x2015);
    assert SUPPLEMENT[35].code == 0x25CA && SUPPLEMENT[36].code == APPLE;
    NotInGap(SUPPLEMENT, 35, 0x4E00);
  }

  /** Distinct code points never share a glyph name. */
  lemma GlyphNameInjective(a: int, b: int)
    ensures GlyphName(a).Some? && GlyphName(a) == GlyphName(b) ==> a == b
  {
    GlyphNameRoundTrip(a);
    GlyphNameRoundTrip(b);
  }

  /** Looking up a glyph name and then its code point returns the code point. */
  lemma GlyphNameRoundTrip(cp: int)
    ensures GlyphName(cp).Some? ==> CodePointOf(GlyphName(cp).value) == Some(cp)
  {
    if GlyphName(cp).Some? {
      var k :| 0 <= k < |SUPPLEMENT| && SUPPLEMENT[k].code == cp;
      SupplementEntry(k, false);
    }
  }

  /** Looking up a code point and then its glyph name returns the name. */
  lemma CodePointRoundTrip(name: string)
    ensures CodePointOf(name).Some? ==> GlyphName(CodePointOf(name).value) == Some(name)
  {
    if CodePointOf(name).Some? {
      var k :| 0 <= k < |SUPPLEMENT| && SUPPLEMENT[k].name == name;
      SupplementEntry(k, false);
    }
  }

  /** A few entries of the table, by name. */
  lemma NamedExamples()
    ensures GlyphName(0x2122) == Some("trademark")
    ensures GlyphName(0x20AC) == Some("Euro")
    ensures GlyphName(0xFB01) == Some("fi")
    ensures GlyphName(0x41) == None
  {
    assert SUPPLEMENT[26].code == 0x2122 && SUPPLEMENT[26].name == "trademark";
    SupplementEntry(26, false);
    assert SUPPLEMENT[25].code == 0x20AC && SUPPLEMENT[25].name == "Euro";
    SupplementEntry(25, false);
    assert SUPPLEMENT[37].code == 0xFB01 && SUPPLEMENT[37].name == "fi";
    SupplementEntry(37, false);
    forall k | 0 <= k < |SUPPLEMENT| ensures SUPPLEMENT[k].code != 0x41 {
      SupplementOutsideLatin(k);
    }
  }

  /** An entry of an increasing table that is not Mac OS only is a vector glyph. */
  lemma EntryIsVector(t: seq<GlyphEntry>, k: int, isMac: bool)
    requires CodesIncreasing(t) && 0 <= k < |t| && !t[k].macOnly
    ensures IsVectorGlyphIn(t, t[k].code, isMac)
  {
    LookupEntry(t, k);
  }

  /** Every table entry except the Apple logo is a vector glyph on every
      platform: 38 of the 39 entries. */
  lemma ListedCharactersAreVector(isMac: bool)
    ensures |SUPPLEMENT| == 39
    ensures forall k :: 0 <= k < |SUPPLEMENT| && SUPPLEMENT[k].code != APPLE ==> IsVectorGlyph(SUPPLEMENT[k].code, isMac)
  {
    SupplementIncreasing();
    forall k | 0 <= k < |SUPPLEMENT| && SUPPLEMENT[k].code != APPLE
      ensures IsVectorGlyph(SUPPLEMENT[k].code, isMac)
    {
      OnlyAppleIsMacOnly(k);
      EntryIsVector(SUPPLEMENT, k, isMac);
    }
  }

  /** The Apple logo is the one Mac-OS-only entry. */
  lemma OnlyAppleIsMacOnly(k: int)
    requires 0 <= k < |SUPPLEMENT|
    ensures SUPPLEMENT[k].macOnly <==> SUPPLEMENT[k].code == APPLE
  {
    if k < |COLUMN_1| {
      assert SUPPLEMENT[k] == COLUMN_1[k];
    } else if k < |COLUMN_1| + |COLUMN_2| {
      assert SUPPLEMENT[k] == COLUMN_2[k - |COLUMN_1|];
    } else {
      assert SUPPLEMENT[k] == COLUMN_3[k - |COLUMN_1| - |COLUMN_2|];
    }
  }
}
