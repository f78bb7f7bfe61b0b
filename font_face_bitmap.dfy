/**
 * A bitmap font face in the AngelCode BMFont layout: loading it from the XML
 * description, copying or repacking the glyphs of another face onto fresh
 * texture pages, and the byte-level blit that moves a glyph's pixels.
 * Glyphs are keyed by code point; a kerning pair is keyed by its two code
 * points packed into one 32-bit word.
 */
module FontFaceBitmaps {
  import opened Wrappers
  import opened Int32
  import opened XmlTrees

  /** An unsigned 32-bit value. */
  type u32 = x: int | 0 <= x < 0x1_0000_0000

  /** A 32-bit code point. */
  type c32 = u32

  const FONT_TEXTURE_MIN_SIZE: int := 128

  /** A glyph: its rectangle on a texture page, placement metrics and whether text uses it. */
  datatype FontGlyph = FontGlyph(x: int, y: int, width: int, height: int, texWidth: int, texHeight: int,
                                 offsetX: int, offsetY: int, advanceX: int, page: int, used: bool)

  /** The formats a face texture can have; the engine's other formats are `OtherFormat`. */
  datatype TextureFormat = RgbaFormat | RgbFormat | LuminanceAlphaFormat | OtherFormat(code: nat)

  /** A face texture page. */
  datatype Texture = Texture(width: int, height: int, format: TextureFormat)

  /** What a face holds. */
  datatype FaceState = FaceState(glyphs: map<c32, FontGlyph>, kernings: map<u32, real>,
                                 textures: seq<Texture>, pointSize: real, rowHeight: int)

  /** A C++ `(short)` cast: the value wrapped into the signed 16-bit range. */
  function ToShort(v: int): (r: int)
    ensures -0x8000 <= r < 0x8000 && (v - r) % 0x1_0000 == 0
    ensures -0x8000 <= v < 0x8000 ==> r == v
  {
    var m := v % 0x1_0000;
    if m >= 0x8000 then m - 0x1_0000 else m
  }

  /** The number of bytes per pixel of a texture format; anything unnamed has one. */
  function ConvertFormatToNumComponents(format: TextureFormat): (r: nat)
    ensures 1 <= r <= 4
    ensures r == 4 <==> format.RgbaFormat?
    ensures r == 3 <==> format.RgbFormat?
    ensures r == 2 <==> format.LuminanceAlphaFormat?
  {
    match format
    case RgbaFormat => 4
    case RgbFormat => 3
    case LuminanceAlphaFormat => 2
    case OtherFormat(_) => 1
  }

  // ---------------------------------------------------------------- kerning keys

  /** The key of a kerning pair: the first code point in the high half, the second in the low half. */
  function KerningKey(first: bv32, second: bv32): bv32
  {
    (first << 16) | second
  }

  function KerningFirst(key: bv32): bv32
  {
    key >> 16
  }

  function KerningSecond(key: bv32): bv32
  {
    key & 0xFFFF
  }

  /** Code points below 65536 come back out of their key unchanged. */
  lemma KerningKeyRoundTrip(first: bv32, second: bv32)
    requires first < 0x1_0000 && second < 0x1_0000
    ensures KerningFirst(KerningKey(first, second)) == first
    ensures KerningSecond(KerningKey(first, second)) == second
  {
  }

  /** Every key is the key of its own two halves. */
  lemma KerningKeyOfHalves(key: bv32)
    ensures KerningKey(KerningFirst(key), KerningSecond(key)) == key
    ensures KerningFirst(key) < 0x1_0000 && KerningSecond(key) < 0x1_0000
  {
  }

  /** The map key of a kerning pair. */
  function PairKey(first: u32, second: u32): u32
  {
    KerningKey(first as bv32, second as bv32) as u32
  }

  /** The first code point of a kerning pair's map key. */
  function FirstOf(key: u32): c32
  {
    KerningFirst(key as bv32) as c32
  }

  /** The second code point of a kerning pair's map key. */
  function SecondOf(key: u32): c32
  {
    KerningSecond(key as bv32) as c32
  }

  // ---------------------------------------------------------------- blit

  /** `len` bytes of `s` from `from` written over `d` from `at` (a `memcpy`). */
  function CopyRun(d: seq<bv8>, at: nat, s: seq<bv8>, from: nat, len: nat): (r: seq<bv8>)
    requires at + len <= |d| && from + len <= |s|
    ensures |r| == |d|
    ensures forall k :: 0 <= k < |d| ==> r[k] == if at <= k < at + len then s[from + k - at] else d[k]
  {
    d[..at] + s[from..from + len] + d[at + len..]
  }

  /** `rows` runs of `len` bytes, `stride` apart from `at`, all lie inside `size` bytes. */
  predicate RowsFit(at: nat, stride: nat, len: nat, rows: nat, size: nat)
    decreases rows
  {
    rows == 0 || (at + len <= size && RowsFit(at + stride, stride, len, rows - 1, size))
  }

  /** Byte `k` lies in one of those runs. */
  predicate InRows(k: nat, at: nat, stride: nat, len: nat, rows: nat)
    decreases rows
  {
    rows > 0 && ((at <= k < at + len) || InRows(k, at + stride, stride, len, rows - 1))
  }

  /** The rows copied one after another, each image advancing by its own stride. */
  function BlitRows(d: seq<bv8>, at: nat, dStride: nat, s: seq<bv8>, from: nat, sStride: nat, len: nat, rows: nat): (r: seq<bv8>)
    requires RowsFit(at, dStride, len, rows, |d|) && RowsFit(from, sStride, len, rows, |s|)
    ensures |r| == |d|
    decreases rows
  {
    if rows == 0 then d
    else BlitRows(CopyRun(d, at, s, from, len), at + dStride, dStride, s, from + sStride, sStride, len, rows - 1)
  }

  /** The blit leaves every byte outside the target rows unchanged. */
  lemma {:induction false} BlitRowsFrame(d: seq<bv8>, at: nat, dStride: nat, s: seq<bv8>, from: nat, sStride: nat, len: nat, rows: nat, k: nat)
    requires RowsFit(at, dStride, len, rows, |d|) && RowsFit(from, sStride, len, rows, |s|)
    requires k < |d| && !InRows(k, at, dStride, len, rows)
    ensures BlitRows(d, at, dStride, s, from, sStride, len, rows)[k] == d[k]
    decreases rows
  {
    if rows > 0 {
      var d' := CopyRun(d, at, s, from, len);
      BlitRowsFrame(d', at + dStride, dStride, s, from + sStride, sStride, len, rows - 1, k);
    }
  }

  /** Rows that start after `k` do not cover it. */
  lemma {:induction false} NotInLaterRows(k: nat, at: nat, stride: nat, len: nat, rows: nat)
    requires k < at
    ensures !InRows(k, at, stride, len, rows)
    decreases rows
  {
    if rows > 0 {
      NotInLaterRows(k, at + stride, stride, len, rows - 1);
    }
  }

  /**
   * When a row is no longer than the destination stride, byte `j` of row `i`
   * of the target is byte `j` of row `i` of the source.
   */
  lemma {:induction false} BlitRowsCopies(d: seq<bv8>, at: nat, dStride: nat, s: seq<bv8>, from: nat, sStride: nat, len: nat, rows: nat,
                                          i: nat, j: nat)
    requires RowsFit(at, dStride, len, rows, |d|) && RowsFit(from, sStride, len, rows, |s|)
    requires len <= dStride && i < rows && j < len
    ensures at + i * dStride + j < |d| && from + i * sStride + j < |s|
    ensures BlitRows(d, at, dStride, s, from, sStride, len, rows)[at + i * dStride + j] == s[from + i * sStride + j]
    decreases rows
  {
    var d' := CopyRun(d, at, s, from, len);
    if i == 0 {
      NotInLaterRows(at + j, at + dStride, dStride, len, rows - 1);
      BlitRowsFrame(d', at + dStride, dStride, s, from + sStride, sStride, len, rows - 1, at + j);
    } else {
      BlitRowsCopies(d', at + dStride, dStride, s, from + sStride, sStride, len, rows - 1, i - 1, j);
      assert (at + dStride) + (i - 1) * dStride + j == at + i * dStride + j;
      assert (from + sStride) + (i - 1) * sStride + j == from + i * sStride + j;
    }
  }

  /** An image: `width` by `height` pixels of `components` bytes each, row by row. */
  class Image {
    var width: nat
    var height: nat
    var components: nat
    var data: array<bv8>

    ghost predicate Valid()
      reads this
    {
      data.Length == width * height * components
    }

    /** A zero-filled image. */
    constructor (width: nat, height: nat, components: nat)
      ensures Valid() && this.width == width && this.height == height && this.components == components
      ensures fresh(data) && forall k :: 0 <= k < data.Length ==> data[k] == 0
    {
      this.width, this.height, this.components := width, height, components;
      data := new bv8[width * height * components](_ => 0);
    }
  }

  /** The byte offset of pixel (x, y) of an image `w` pixels wide with `c` bytes per pixel. */
  function PixelOffset(x: nat, y: nat, w: nat, c: nat): nat
  {
    (y * w + x) * c
  }

  /** The byte length of `n` pixels of `c` bytes. */
  function RowBytes(n: nat, c: nat): nat
  {
    n * c
  }

  /** A rectangle of `width` by `height` pixels at (x, y) lies inside a `w` by `h` image: its rows fit its bytes. */
  lemma RectFits(x: nat, y: nat, width: nat, height: nat, w: nat, h: nat, c: nat)
    requires x + width <= w && y + height <= h
    ensures RowsFit(PixelOffset(x, y, w, c), RowBytes(w, c), RowBytes(width, c), height, w * h * c)
  {
    RectRowsFit(x, y, width, height, w, h, c);
  }

  lemma {:induction false} RectRowsFit(x: nat, y: nat, width: nat, height: nat, w: nat, h: nat, c: nat)
    requires x + width <= w && y + height <= h
    ensures RowsFit((y * w + x) * c, w * c, width * c, height, w * h * c)
    decreases height
  {
    if height > 0 {
      calc {
        (y * w + x) * c + width * c;
        (y * w + x + width) * c;
      <= { assert y * w + x + width <= (y + 1) * w;
           assert (y * w + x + width) * c <= ((y + 1) * w) * c by { MulMonotone(y * w + x + width, (y + 1) * w, c); } }
        ((y + 1) * w) * c;
      <= { MulMonotone(y + 1, h, w); MulMonotone((y + 1) * w, h * w, c); }
        (h * w) * c;
      }
      assert (h * w) * c == w * h * c;
      RectRowsFit(x, y + 1, width, height - 1, w, h, c);
      assert ((y + 1) * w + x) * c == (y * w + x) * c + w * c;
    }
  }

  lemma MulMonotone(a: nat, b: nat, c: nat)
    requires a <= b
    ensures a * c <= b * c
  {
  }

  /** Copy `n` bytes with a `memcpy`. */
  method CopyBytes(dest: array<bv8>, at: nat, source: array<bv8>, from: nat, n: nat)
    requires dest != source && at + n <= dest.Length && from + n <= source.Length
    modifies dest
    ensures dest[..] == CopyRun(old(dest[..]), at, source[..], from, n)
  {
    var j := 0;
    while j < n
      invariant 0 <= j <= n
      invariant forall k :: 0 <= k < dest.Length ==> dest[k] == if at <= k < at + j then source[from + k - at] else old(dest[k])
    {
      dest[at + j] := source[from + j];
      j := j + 1;
    }
    assert dest[..] == CopyRun(old(dest[..]), at, source[..], from, n);
  }

  /**
   * Copy a `width` by `height` pixel rectangle at (sourceX, sourceY) of
   * `source` to (x, y) of `dest`, row by row; each image advances by its own
   * row length in bytes.
   */
  method Blit(dest: Image, x: nat, y: nat, width: nat, height: nat, source: Image, sourceX: nat, sourceY: nat, components: nat)
    requires dest.data != source.data
    requires dest.data.Length == dest.width * dest.height * components
    requires source.data.Length == source.width * source.height * components
    requires x + width <= dest.width && y + height <= dest.height
    requires sourceX + width <= source.width && sourceY + height <= source.height
    modifies dest.data
    ensures RowsFit(PixelOffset(x, y, dest.width, components), RowBytes(dest.width, components), RowBytes(width, components), height, dest.data.Length)
    ensures RowsFit(PixelOffset(sourceX, sourceY, source.width, components), RowBytes(source.width, components), RowBytes(width, components), height,
                    source.data.Length)
    ensures dest.data[..] == BlitRows(old(dest.data[..]), PixelOffset(x, y, dest.width, components), RowBytes(dest.width, components),
                                      source.data[..], PixelOffset(sourceX, sourceY, source.width, components), RowBytes(source.width, components),
                                      RowBytes(width, components), height)
  {
    RectFits(x, y, width, height, dest.width, dest.height, components);
    RectFits(sourceX, sourceY, width, height, source.width, source.height, components);
    CopyRows(dest.data, PixelOffset(x, y, dest.width, components), RowBytes(dest.width, components),
             source.data, PixelOffset(sourceX, sourceY, source.width, components), RowBytes(source.width, components),
             RowBytes(width, components), height);
  }

  /** The loop of `Blit`: copy `rows` runs of `len` bytes, advancing each position by its own stride. */
  method CopyRows(destData: array<bv8>, destAt: nat, destStride: nat, sourceData: array<bv8>, sourceAt: nat, sourceStride: nat,
                  len: nat, rows: nat)
    requires destData != sourceData
    requires RowsFit(destAt, destStride, len, rows, destData.Length) && RowsFit(sourceAt, sourceStride, len, rows, sourceData.Length)
    modifies destData
    ensures destData[..] == BlitRows(old(destData[..]), destAt, destStride, sourceData[..], sourceAt, sourceStride, len, rows)
  {
    ghost var target := BlitRows(destData[..], destAt, destStride, sourceData[..], sourceAt, sourceStride, len, rows);
    var destPtr: nat, sourcePtr: nat := destAt, sourceAt;
    var i := 0;
    while i < rows
      invariant 0 <= i <= rows
      invariant RowsFit(destPtr, destStride, len, rows - i, destData.Length)
      invariant RowsFit(sourcePtr, sourceStride, len, rows - i, sourceData.Length)
      invariant BlitRows(destData[..], destPtr, destStride, sourceData[..], sourcePtr, sourceStride, len, rows - i) == target
    {
      CopyBytes(destData, destPtr, sourceData, sourcePtr, len);
      destPtr := destPtr + destStride;
      sourcePtr := sourcePtr + sourceStride;
      i := i + 1;
    }
  }

  // ---------------------------------------------------------------- XML description

  /** An attribute of an element; a null element or a missing attribute reads as empty. */
  function Attr(e: Option<XmlNode>, name: string): string
  {
    if e.Some? && name in e.value.attributes then e.value.attributes[name] else ""
  }

  /** The child element a handle names, or null. */
  function ChildAt(children: seq<XmlNode>, handle: Option<nat>): (r: Option<XmlNode>)
    ensures r.Some? <==> handle.Some? && handle.value < |children|
  {
    if handle.Some? && handle.value < |children| then Some(children[handle.value]) else None
  }

  /** The children of an element; a null element has none. */
  function ChildrenOf(e: Option<XmlNode>): seq<XmlNode>
  {
    if e.Some? then e.value.children else []
  }

  /** The number of elements named `name` at or after `from`. */
  function CountFrom(children: seq<XmlNode>, name: string, from: nat): nat
    decreases |children| - from
  {
    if from >= |children| then 0
    else (if Matches(children[from], name) then 1 else 0) + CountFrom(children, name, from + 1)
  }

  /** Skipping elements of other names does not change the count. */
  lemma {:induction false} CountFromFound(children: seq<XmlNode>, name: string, from: nat)
    ensures var next := FindFrom(children, name, from);
            CountFrom(children, name, from) == if next.None? then 0 else CountFrom(children, name, next.value)
    decreases |children| - from
  {
    if from < |children| && !Matches(children[from], name) {
      CountFromFound(children, name, from + 1);
    }
  }

  /** The glyph a `char` element describes; every metric goes through a `(short)` cast. */
  function GlyphOf(e: XmlNode, toI32: string -> i32): FontGlyph
  {
    var width := ToShort(toI32(Attr(Some(e), "width")));
    var height := ToShort(toI32(Attr(Some(e), "height")));
    FontGlyph(ToShort(toI32(Attr(Some(e), "x"))), ToShort(toI32(Attr(Some(e), "y"))), width, height, width, height,
              ToShort(toI32(Attr(Some(e), "xoffset"))), ToShort(toI32(Attr(Some(e), "yoffset"))),
              ToShort(toI32(Attr(Some(e), "xadvance"))), toI32(Attr(Some(e), "page")), false)
  }

  /** A signed attribute read as unsigned: its 32-bit two's complement pattern. */
  function U32Attr(e: XmlNode, name: string, toI32: string -> i32): u32
  {
    ToU32(toI32(Attr(Some(e), name)))
  }

  /** The texture of a `page` element: the image file it names, beside the description. */
  function PageTexture(page: XmlNode, fontPath: string, loadImage: string -> Option<Texture>): Option<Texture>
  {
    loadImage(fontPath + Attr(Some(page), "file"))
  }

  /**
   * Load the page textures: `remaining` more `page` elements are needed,
   * each naming an image file beside the description. A missing element or
   * an image that does not load stops with failure, keeping the pages
   * loaded so far.
   */
  function PagesFrom(pages: seq<XmlNode>, page: Option<nat>, remaining: nat, fontPath: string,
                     loadImage: string -> Option<Texture>, acc: seq<Texture>): (r: (bool, seq<Texture>))
    requires page.Some? ==> page.value < |pages|
    ensures acc <= r.1 && |r.1| <= |acc| + remaining
    ensures r.0 ==> |r.1| == |acc| + remaining
    decreases remaining
  {
    if remaining == 0 then (true, acc)
    else if page.None? then (false, acc)
    else
      var texture := PageTexture(pages[page.value], fontPath, loadImage);
      if texture.None? then (false, acc)
      else PagesFrom(pages, FindFrom(pages, "page", page.value + 1), remaining - 1, fontPath, loadImage, acc + [texture.value])
  }

  /** Fewer `page` elements than the declared page count always fails. */
  lemma {:induction false} PagesFromNeedsElements(pages: seq<XmlNode>, page: Option<nat>, remaining: nat, fontPath: string,
                                                  loadImage: string -> Option<Texture>, acc: seq<Texture>)
    requires page.Some? ==> page.value < |pages|
    requires page.Some? ==> Matches(pages[page.value], "page")
    requires (if page.None? then 0 else CountFrom(pages, "page", page.value)) < remaining
    ensures !PagesFrom(pages, page, remaining, fontPath, loadImage, acc).0
    decreases remaining
  {
    if page.Some? {
      assert CountFrom(pages, "page", page.value) == 1 + CountFrom(pages, "page", page.value + 1);
      var texture := PageTexture(pages[page.value], fontPath, loadImage);
      if texture.Some? {
        var next := FindFrom(pages, "page", page.value + 1);
        CountFromFound(pages, "page", page.value + 1);
        PagesFromNeedsElements(pages, next, remaining - 1, fontPath, loadImage, acc + [texture.value]);
      }
    }
  }

  /** Record the glyph of one `char` element under its id. */
  function AddGlyph(glyphs: map<c32, FontGlyph>, e: XmlNode, toI32: string -> i32): (r: map<c32, FontGlyph>)
    ensures r.Keys == glyphs.Keys + {U32Attr(e, "id", toI32)}
  {
    glyphs[U32Attr(e, "id", toI32) := GlyphOf(e, toI32)]
  }

  /** Record every `char` element from `charElem` on; a later element with the same id wins. */
  function GlyphsFrom(chars: seq<XmlNode>, charElem: Option<nat>, toI32: string -> i32, acc: map<c32, FontGlyph>): map<c32, FontGlyph>
    requires charElem.Some? ==> charElem.value < |chars|
    decreases if charElem.Some? then |chars| - charElem.value else 0
  {
    if charElem.None? then acc
    else
      GlyphsFrom(chars, FindFrom(chars, "char", charElem.value + 1), toI32, AddGlyph(acc, chars[charElem.value], toI32))
  }

  /** The ids of the `char` elements at or after `from`. */
  function CharIds(chars: seq<XmlNode>, from: nat, toI32: string -> i32): set<c32>
    decreases |chars| - from
  {
    if from >= |chars| then {}
    else (if Matches(chars[from], "char") then {U32Attr(chars[from], "id", toI32)} else {}) + CharIds(chars, from + 1, toI32)
  }

  lemma GlyphsFromStep(chars: seq<XmlNode>, at: nat, toI32: string -> i32, acc: map<c32, FontGlyph>)
    requires at < |chars|
    ensures GlyphsFrom(chars, Some(at), toI32, acc) == GlyphsFrom(chars, FindFrom(chars, "char", at + 1), toI32, AddGlyph(acc, chars[at], toI32))
  {
  }

  /** Loading the glyphs adds exactly the ids of the `char` elements. */
  lemma {:induction false} GlyphsFromKeys(chars: seq<XmlNode>, from: nat, toI32: string -> i32, acc: map<c32, FontGlyph>)
    ensures var first := FindFrom(chars, "char", from);
            GlyphsFrom(chars, first, toI32, acc).Keys == acc.Keys + CharIds(chars, from, toI32)
    decreases |chars| - from
  {
    var first := FindFrom(chars, "char", from);
    if from < |chars| {
      var e := chars[from];
      if Matches(e, "char") {
        assert first == Some(from);
        var acc' := AddGlyph(acc, e, toI32);
        GlyphsFromStep(chars, from, toI32, acc);
        assert CharIds(chars, from, toI32) == {U32Attr(e, "id", toI32)} + CharIds(chars, from + 1, toI32);
        GlyphsFromKeys(chars, from + 1, toI32, acc');
      } else {
        assert first == FindFrom(chars, "char", from + 1);
        assert CharIds(chars, from, toI32) == CharIds(chars, from + 1, toI32);
        GlyphsFromKeys(chars, from + 1, toI32, acc);
      }
    }
  }

  /** Record every `kerning` element from `kerningElem` on, keyed by its packed code points. */
  function KerningsFrom(kernings: seq<XmlNode>, kerningElem: Option<nat>, toI32: string -> i32, acc: map<u32, real>): map<u32, real>
    requires kerningElem.Some? ==> kerningElem.value < |kernings|
    decreases if kerningElem.Some? then |kernings| - kerningElem.value else 0
  {
    if kerningElem.None? then acc
    else
      var e := kernings[kerningElem.value];
      var key := PairKey(U32Attr(e, "first", toI32), U32Attr(e, "second", toI32));
      KerningsFrom(kernings, FindFrom(kernings, "kerning", kerningElem.value + 1), toI32,
                   acc[key := ToShort(toI32(Attr(Some(e), "amount"))) as real])
  }

  /**
   * Load a face from its XML description (`None` when the text is not XML):
   * it needs a `font` root with a `pages` child and as many `page` elements
   * as `common` declares; the point size comes from `info` when present, the
   * row height and page count from `common`; then every `char` and every
   * `kerning` element is recorded. A failure keeps what was set before it.
   */
  function LoadXmlSpec(st: FaceState, doc: Option<XmlNode>, fontPath: string, toI32: string -> i32, toU32: string -> nat,
                       loadImage: string -> Option<Texture>): (bool, FaceState)
  {
    if doc.None? || !Matches(doc.value, "font") then (false, st)
    else
      var root := doc.value.children;
      var pagesElem := FindFrom(root, "pages", 0);
      if pagesElem.None? then (false, st)
      else
        var infoElem := ChildAt(root, FindFrom(root, "info", 0));
        var pointSize := if infoElem.Some? then toI32(Attr(infoElem, "size")) as real else st.pointSize;
        var commonElem := ChildAt(root, FindFrom(root, "common", 0));
        var pages := root[pagesElem.value].children;
        var loaded := PagesFrom(pages, FindFrom(pages, "page", 0), toU32(Attr(commonElem, "pages")), fontPath, loadImage, st.textures);
        var st1 := st.(pointSize := pointSize, rowHeight := toI32(Attr(commonElem, "lineHeight")), textures := loaded.1);
        if !loaded.0 then (false, st1)
        else
          var chars := ChildrenOf(ChildAt(root, FindFrom(root, "chars", 0)));
          var glyphs := GlyphsFrom(chars, FindFrom(chars, "char", 0), toI32, st.glyphs);
          var kerningsElem := ChildAt(root, FindFrom(root, "kernings", 0));
          var kernings := if kerningsElem.None? then st.kernings
                          else KerningsFrom(kerningsElem.value.children, FindFrom(kerningsElem.value.children, "kerning", 0), toI32, st.kernings);
          (true, st1.(glyphs := glyphs, kernings := kernings))
  }

  /** Without a `font` root or a `pages` element the load fails and changes nothing. */
  lemma LoadXmlNeedsFontAndPages(st: FaceState, doc: Option<XmlNode>, fontPath: string, toI32: string -> i32, toU32: string -> nat,
                                 loadImage: string -> Option<Texture>)
    requires doc.None? || !Matches(doc.value, "font") || FindFrom(doc.value.children, "pages", 0).None?
    ensures LoadXmlSpec(st, doc, fontPath, toI32, toU32, loadImage) == (false, st)
  {
  }

  /** Declaring more pages than there are `page` elements fails the load. */
  lemma LoadXmlNeedsEveryPage(st: FaceState, doc: XmlNode, fontPath: string, toI32: string -> i32, toU32: string -> nat,
                              loadImage: string -> Option<Texture>)
    requires Matches(doc, "font") && FindFrom(doc.children, "pages", 0).Some?
    requires var pages := doc.children[FindFrom(doc.children, "pages", 0).value].children;
             var commonElem := ChildAt(doc.children, FindFrom(doc.children, "common", 0));
             CountFrom(pages, "page", 0) < toU32(Attr(commonElem, "pages"))
    ensures !LoadXmlSpec(st, Some(doc), fontPath, toI32, toU32, loadImage).0
  {
    var pages := doc.children[FindFrom(doc.children, "pages", 0).value].children;
    var commonElem := ChildAt(doc.children, FindFrom(doc.children, "common", 0));
    CountFromFound(pages, "page", 0);
    PagesFromNeedsElements(pages, FindFrom(pages, "page", 0), toU32(Attr(commonElem, "pages")), fontPath, loadImage, st.textures);
  }

  /** A successful load has every declared page and a glyph for exactly the old ids plus every `char` id. */
  lemma LoadXmlLoadsEveryGlyph(st: FaceState, doc: XmlNode, fontPath: string, toI32: string -> i32, toU32: string -> nat,
                               loadImage: string -> Option<Texture>)
    requires LoadXmlSpec(st, Some(doc), fontPath, toI32, toU32, loadImage).0
    ensures var r := LoadXmlSpec(st, Some(doc), fontPath, toI32, toU32, loadImage).1;
            var chars := ChildrenOf(ChildAt(doc.children, FindFrom(doc.children, "chars", 0)));
            var commonElem := ChildAt(doc.children, FindFrom(doc.children, "common", 0));
            r.glyphs.Keys == st.glyphs.Keys + CharIds(chars, 0, toI32)
            && |r.textures| == |st.textures| + toU32(Attr(commonElem, "pages"))
  {
    var chars := ChildrenOf(ChildAt(doc.children, FindFrom(doc.children, "chars", 0)));
    GlyphsFromKeys(chars, 0, toI32, st.glyphs);
  }

  // ---------------------------------------------------------------- repacking used glyphs

  /** Where the area allocator puts a rectangle, given the sizes placed since it was last reset; `None` when it is full. */
  type Allocate = (seq<(int, int)>, int, int) -> Option<(int, int)>

  /** The repack in progress: pages opened, sizes on the current page, glyphs placed. */
  datatype Packing = Packing(numPages: nat, history: seq<(int, int)>, glyphs: map<c32, FontGlyph>)

  /** The glyph moved to `pos` on the last page, all else kept. */
  function Placed(g: FontGlyph, pos: (int, int), numPages: nat): (r: FontGlyph)
    requires numPages >= 1
    ensures r.page == numPages - 1 && SameGlyph(r, g)
  {
    g.(x := ToShort(pos.0), y := ToShort(pos.1), page := numPages - 1)
  }

  /** The same glyph apart from where it sits. */
  predicate SameGlyph(a: FontGlyph, b: FontGlyph)
  {
    a.(x := 0, y := 0, page := 0) == b.(x := 0, y := 0, page := 0)
  }

  /**
   * Place one glyph with a one-pixel margin: on the current page if it fits,
   * else on a new page; `None` when it does not fit even a fresh page.
   */
  function PlaceGlyph(p: Packing, key: c32, g: FontGlyph, allocate: Allocate): (r: Option<Packing>)
    requires p.numPages >= 1
    ensures allocate(p.history, g.width + 1, g.height + 1).Some? ==> r.Some? && r.value.numPages == p.numPages
    ensures allocate(p.history, g.width + 1, g.height + 1).None? ==>
              (r.Some? <==> allocate([], g.width + 1, g.height + 1).Some?)
              && (r.Some? ==> r.value.numPages == p.numPages + 1 && |r.value.history| == 1)
    ensures r.Some? ==> r.value.glyphs.Keys == p.glyphs.Keys + {key} && r.value.glyphs[key].page == r.value.numPages - 1
                        && SameGlyph(r.value.glyphs[key], g)
                        && forall k :: k in p.glyphs && k != key ==> r.value.glyphs[k] == p.glyphs[k]
  {
    var size := (g.width + 1, g.height + 1);
    var pos := allocate(p.history, size.0, size.1);
    if pos.Some? then
      var glyphs := p.glyphs[key := Placed(g, pos.value, p.numPages)];
      assert glyphs[key] == Placed(g, pos.value, p.numPages);
      Some(Packing(p.numPages, p.history + [size], glyphs))
    else
      var retry := allocate([], size.0, size.1);
      if retry.None? then None
      else
        var glyphs := p.glyphs[key := Placed(g, retry.value, p.numPages + 1)];
        assert glyphs[key] == Placed(g, retry.value, p.numPages + 1);
        Some(Packing(p.numPages + 1, [size], glyphs))
  }

  /**
   * Place the used glyphs of `src` in iteration order `order`; stop with
   * failure, keeping what was placed, at a glyph no page can hold.
   */
  function PlaceGlyphs(src: map<c32, FontGlyph>, order: seq<c32>, p: Packing, allocate: Allocate): (r: (bool, Packing))
    requires p.numPages >= 1 && forall k :: k in order ==> k in src
    ensures r.1.numPages >= p.numPages
    decreases |order|
  {
    if order == [] then (true, p)
    else
      var key := order[0];
      assert key in order;
      if !src[key].used then PlaceGlyphs(src, order[1..], p, allocate)
      else
        var next := PlaceGlyph(p, key, src[key], allocate);
        if next.None? then (false, p) else PlaceGlyphs(src, order[1..], next.value, allocate)
  }

  /** The used glyphs among the keys listed in `order`. */
  function UsedKeys(src: map<c32, FontGlyph>, order: seq<c32>): set<c32>
  {
    set k | k in order && k in src && src[k].used
  }

  /**
   * A successful repack adds exactly the used glyphs; each is the source
   * glyph moved onto an opened page; the glyphs placed before are kept
   * unless placed again.
   */
  lemma {:induction false} PlaceGlyphsPlacesUsed(src: map<c32, FontGlyph>, order: seq<c32>, p: Packing, allocate: Allocate)
    requires p.numPages >= 1 && forall k :: k in order ==> k in src
    requires PlaceGlyphs(src, order, p, allocate).0
    ensures PlaceGlyphs(src, order, p, allocate).1.glyphs.Keys == p.glyphs.Keys + UsedKeys(src, order)
    ensures forall k :: k in UsedKeys(src, order) ==>
              0 <= PlaceGlyphs(src, order, p, allocate).1.glyphs[k].page < PlaceGlyphs(src, order, p, allocate).1.numPages
              && SameGlyph(PlaceGlyphs(src, order, p, allocate).1.glyphs[k], src[k])
    ensures forall k :: k in p.glyphs && k !in UsedKeys(src, order) ==>
              PlaceGlyphs(src, order, p, allocate).1.glyphs[k] == p.glyphs[k]
    decreases |order|
  {
    if order != [] {
      var k0 := order[0];
      assert UsedKeys(src, order) == UsedKeys(src, order[1..]) + (if src[k0].used then {k0} else {}) by {
        assert forall k :: k in order <==> k == k0 || k in order[1..];
      }
      if !src[k0].used {
        PlaceGlyphsPlacesUsed(src, order[1..], p, allocate);
      } else {
        var next := PlaceGlyph(p, k0, src[k0], allocate).value;
        PlaceGlyphsPlacesUsed(src, order[1..], next, allocate);
      }
    }
  }

  /** A repack fails only at a used glyph that does not fit even a fresh page. */
  lemma {:induction false} PlaceGlyphsFailure(src: map<c32, FontGlyph>, order: seq<c32>, p: Packing, allocate: Allocate)
    requires p.numPages >= 1 && forall k :: k in order ==> k in src
    requires !PlaceGlyphs(src, order, p, allocate).0
    ensures exists k :: k in UsedKeys(src, order) && allocate([], src[k].width + 1, src[k].height + 1).None?
    decreases |order|
  {
    var k0 := order[0];
    if src[k0].used && PlaceGlyph(p, k0, src[k0], allocate).None? {
      assert k0 in UsedKeys(src, order);
    } else {
      var next := if src[k0].used then PlaceGlyph(p, k0, src[k0], allocate).value else p;
      PlaceGlyphsFailure(src, order[1..], next, allocate);
      var k :| k in UsedKeys(src, order[1..]) && allocate([], src[k].width + 1, src[k].height + 1).None?;
      assert k in UsedKeys(src, order);
    }
  }

  /** Whether both code points of a kerning key have a glyph. */
  predicate KeepsKerning(key: u32, glyphs: set<c32>)
  {
    FirstOf(key) in glyphs && SecondOf(key) in glyphs
  }

  /** Copy the kerning pairs of `src`, in iteration order `order`, whose glyphs both exist. */
  function KeptKernings(src: map<u32, real>, order: seq<u32>, glyphs: set<c32>, acc: map<u32, real>): map<u32, real>
    requires forall k :: k in order ==> k in src
    decreases |order|
  {
    if order == [] then acc
    else
      var key := order[0];
      assert key in order;
      KeptKernings(src, order[1..], glyphs, if KeepsKerning(key, glyphs) then acc[key := src[key]] else acc)
  }

  /** A pair ends up kept exactly when both of its glyphs exist, with the source's amount. */
  lemma {:induction false} KeptKerningsExactly(src: map<u32, real>, order: seq<u32>, glyphs: set<c32>, acc: map<u32, real>)
    requires forall k :: k in order ==> k in src
    ensures forall key :: key in KeptKernings(src, order, glyphs, acc) <==> key in acc || (key in order && KeepsKerning(key, glyphs))
    ensures forall key :: key in order && KeepsKerning(key, glyphs) ==> KeptKernings(src, order, glyphs, acc)[key] == src[key]
    ensures forall key :: key in acc && !(key in order && KeepsKerning(key, glyphs)) ==> KeptKernings(src, order, glyphs, acc)[key] == acc[key]
    decreases |order|
  {
    if order != [] {
      var k0 := order[0];
      assert k0 in order;
      var acc' := if KeepsKerning(k0, glyphs) then acc[k0 := src[k0]] else acc;
      assert KeptKernings(src, order, glyphs, acc) == KeptKernings(src, order[1..], glyphs, acc');
      KeptKerningsExactly(src, order[1..], glyphs, acc');
      assert forall key :: key in order <==> key == k0 || key in order[1..] by {
        assert order == [k0] + order[1..];
      }
    }
  }

  /** The new pages: full-size pages, then the last one at the allocator's size. */
  function PageTextures(numPages: nat, maxTextureSize: int, lastSize: (int, int), format: TextureFormat): (r: seq<Texture>)
    ensures |r| == numPages
    ensures forall i :: 0 <= i < numPages - 1 ==> r[i] == Texture(maxTextureSize, maxTextureSize, format)
    ensures numPages > 0 ==> r[numPages - 1] == Texture(lastSize.0, lastSize.1, format)
  {
    seq(numPages, i => if i == numPages - 1 then Texture(lastSize.0, lastSize.1, format) else Texture(maxTextureSize, maxTextureSize, format))
  }

  /**
   * Repack the used glyphs of `src` onto fresh pages and keep the kerning
   * pairs whose glyphs both exist. The point size and row height are copied
   * first, so a failure keeps them and the glyphs placed so far.
   */
  function RepackSpec(st: FaceState, src: FaceState, glyphOrder: seq<c32>, kerningOrder: seq<u32>, maxTextureSize: int,
                      allocate: Allocate, allocatorSize: seq<(int, int)> -> (int, int), formatOf: nat -> TextureFormat): (bool, FaceState)
    requires forall k :: k in glyphOrder ==> k in src.glyphs
    requires forall k :: k in kerningOrder ==> k in src.kernings
    requires PlaceGlyphs(src.glyphs, glyphOrder, Packing(1, [], st.glyphs), allocate).0 ==> src.textures != []
  {
    var st1 := st.(pointSize := src.pointSize, rowHeight := src.rowHeight);
    var placed := PlaceGlyphs(src.glyphs, glyphOrder, Packing(1, [], st.glyphs), allocate);
    if !placed.0 then (false, st1.(glyphs := placed.1.glyphs))
    else
      var p := placed.1;
      var components := ConvertFormatToNumComponents(src.textures[0].format);
      var textures := PageTextures(p.numPages, maxTextureSize, allocatorSize(p.history), formatOf(components));
      (true, st1.(glyphs := p.glyphs, textures := textures, kernings := KeptKernings(src.kernings, kerningOrder, p.glyphs.Keys, st.kernings)))
  }

  /** A hash map's iteration order: every key exactly once. */
  ghost predicate ListsKeys<K(!new), V>(order: seq<K>, m: map<K, V>)
  {
    (forall k :: k in m <==> k in order) && forall i, j :: 0 <= i < j < |order| ==> order[i] != order[j]
  }

  class FontFaceBitmap {
    var glyphMapping: map<c32, FontGlyph>
    var kerningMapping: map<u32, real>
    var textures: seq<Texture>
    var pointSize: real
    var rowHeight: int

    function State(): FaceState
      reads this
    {
      FaceState(glyphMapping, kerningMapping, textures, pointSize, rowHeight)
    }

    /** An empty face; the point size and row height are whatever the base face starts with. */
    constructor (pointSize: real, rowHeight: int)
      ensures State() == FaceState(map[], map[], [], pointSize, rowHeight)
    {
      glyphMapping, kerningMapping, textures := map[], map[], [];
      this.pointSize, this.rowHeight := pointSize, rowHeight;
    }

    /** Load the face from an XML description; see `LoadXmlSpec`. */
    method LoadXml(doc: Option<XmlNode>, fontPath: string, toI32: string -> i32, toU32: string -> nat,
                   loadImage: string -> Option<Texture>) returns (ok: bool)
      modifies this
      ensures (ok, State()) == LoadXmlSpec(old(State()), doc, fontPath, toI32, toU32, loadImage)
    {
      if doc.None? || !Matches(doc.value, "font") {
        return false;
      }
      var root := doc.value.children;
      var pagesElem := FindFrom(root, "pages", 0);
      if pagesElem.None? {
        return false;
      }
      var infoElem := ChildAt(root, FindFrom(root, "info", 0));
      if infoElem.Some? {
        pointSize := toI32(Attr(infoElem, "size")) as real;
      }
      var commonElem := ChildAt(root, FindFrom(root, "common", 0));
      rowHeight := toI32(Attr(commonElem, "lineHeight"));
      var numPages := toU32(Attr(commonElem, "pages"));
      ok := LoadPages(root[pagesElem.value].children, numPages, fontPath, loadImage);
      if !ok {
        return false;
      }
      LoadGlyphs(ChildrenOf(ChildAt(root, FindFrom(root, "chars", 0))), toI32);
      var kerningsElem := ChildAt(root, FindFrom(root, "kernings", 0));
      if kerningsElem.Some? {
        LoadKernings(kerningsElem.value.children, toI32);
      }
      return true;
    }

    /** Append the textures of `numPages` page elements; see `PagesFrom`. */
    method LoadPages(pages: seq<XmlNode>, numPages: nat, fontPath: string, loadImage: string -> Option<Texture>) returns (ok: bool)
      modifies this`textures
      ensures (ok, textures) == PagesFrom(pages, FindFrom(pages, "page", 0), numPages, fontPath, loadImage, old(textures))
    {
      var pageElem := FindFrom(pages, "page", 0);
      ghost var loaded := PagesFrom(pages, pageElem, numPages, fontPath, loadImage, textures);
      var i := 0;
      while i < numPages
        invariant 0 <= i <= numPages
        invariant pageElem.Some? ==> pageElem.value < |pages|
        invariant PagesFrom(pages, pageElem, numPages - i, fontPath, loadImage, textures) == loaded
      {
        if pageElem.None? {
          return false;
        }
        var texture := PageTexture(pages[pageElem.value], fontPath, loadImage);
        if texture.None? {
          return false;
        }
        var next := FindFrom(pages, "page", pageElem.value + 1);
        assert loaded == PagesFrom(pages, next, numPages - (i + 1), fontPath, loadImage, textures + [texture.value]);
        textures := textures + [texture.value];
        pageElem := next;
        i := i + 1;
      }
      return true;
    }

    /** Record the glyph of every `char` element; see `GlyphsFrom`. */
    method LoadGlyphs(chars: seq<XmlNode>, toI32: string -> i32)
      modifies this`glyphMapping
      ensures glyphMapping == GlyphsFrom(chars, FindFrom(chars, "char", 0), toI32, old(glyphMapping))
    {
      var charElem := FindFrom(chars, "char", 0);
      ghost var glyphs := GlyphsFrom(chars, charElem, toI32, glyphMapping);
      while charElem.Some?
        invariant charElem.Some? ==> charElem.value < |chars|
        invariant GlyphsFrom(chars, charElem, toI32, glyphMapping) == glyphs
        decreases if charElem.Some? then |chars| - charElem.value else 0
      {
        var e := chars[charElem.value];
        glyphMapping := AddGlyph(glyphMapping, e, toI32);
        charElem := FindFrom(chars, "char", charElem.value + 1);
      }
    }

    /** Record the amount of every `kerning` element; see `KerningsFrom`. */
    method LoadKernings(kernings: seq<XmlNode>, toI32: string -> i32)
      modifies this`kerningMapping
      ensures kerningMapping == KerningsFrom(kernings, FindFrom(kernings, "kerning", 0), toI32, old(kerningMapping))
    {
      var kerningElem := FindFrom(kernings, "kerning", 0);
      ghost var pairs := KerningsFrom(kernings, kerningElem, toI32, kerningMapping);
      while kerningElem.Some?
        invariant kerningElem.Some? ==> kerningElem.value < |kernings|
        invariant KerningsFrom(kernings, kerningElem, toI32, kerningMapping) == pairs
        decreases if kerningElem.Some? then |kernings| - kerningElem.value else 0
      {
        var e := kernings[kerningElem.value];
        var first := U32Attr(e, "first", toI32);
        var second := U32Attr(e, "second", toI32);
        kerningMapping := kerningMapping[PairKey(first, second) := ToShort(toI32(Attr(Some(e), "amount"))) as real];
        kerningElem := FindFrom(kernings, "kerning", kerningElem.value + 1);
      }
    }

    /**
     * Take the glyphs of another face: nothing to do for the face itself; a
     * verbatim copy unless only the used glyphs are wanted; else a repack
     * (see `RepackSpec`). `glyphOrder` and `kerningOrder` are the source
     * face's hash map iteration orders.
     */
    method Load(fontFace: FontFaceBitmap, usedGlyphs: bool, glyphOrder: seq<c32>, kerningOrder: seq<u32>, maxTextureSize: int,
                allocate: Allocate, allocatorSize: seq<(int, int)> -> (int, int), formatOf: nat -> TextureFormat) returns (ok: bool)
      requires ListsKeys(glyphOrder, fontFace.glyphMapping) && ListsKeys(kerningOrder, fontFace.kerningMapping)
      requires usedGlyphs && fontFace != this && PlaceGlyphs(fontFace.glyphMapping, glyphOrder, Packing(1, [], glyphMapping), allocate).0 ==>
                 fontFace.textures != []
      modifies this
      ensures fontFace == this ==> ok && State() == old(State())
      ensures fontFace != this && !usedGlyphs ==> ok && State() == old(fontFace.State())
      ensures fontFace != this && usedGlyphs ==>
                (ok, State()) == RepackSpec(old(State()), old(fontFace.State()), glyphOrder, kerningOrder, maxTextureSize,
                                            allocate, allocatorSize, formatOf)
    {
      if this == fontFace {
        return true;
      }
      if !usedGlyphs {
        glyphMapping := fontFace.glyphMapping;
        kerningMapping := fontFace.kerningMapping;
        textures := fontFace.textures;
        pointSize := fontFace.pointSize;
        rowHeight := fontFace.rowHeight;
        return true;
      }
      pointSize := fontFace.pointSize;
      rowHeight := fontFace.rowHeight;
      var numPages, history;
      ok, numPages, history := PlaceUsedGlyphs(fontFace.glyphMapping, glyphOrder, allocate);
      if !ok {
        return false;
      }
      var components := ConvertFormatToNumComponents(fontFace.textures[0].format);
      textures := PageTextures(numPages, maxTextureSize, allocatorSize(history), formatOf(components));
      KeepKernings(fontFace.kerningMapping, kerningOrder);
      return true;
    }

    /**
     * The glyph loop of the repack: place each used glyph of `src` in
     * iteration order, opening a page when the current one is full; see
     * `PlaceGlyphs`.
     */
    method PlaceUsedGlyphs(src: map<c32, FontGlyph>, glyphOrder: seq<c32>, allocate: Allocate)
      returns (ok: bool, numPages: nat, history: seq<(int, int)>)
      requires forall k :: k in glyphOrder ==> k in src
      modifies this`glyphMapping
      ensures var placed := PlaceGlyphs(src, glyphOrder, Packing(1, [], old(glyphMapping)), allocate);
              ok == placed.0 && glyphMapping == placed.1.glyphs && (ok ==> numPages == placed.1.numPages && history == placed.1.history)
    {
      numPages := 1;
      history := [];
      ghost var placed := PlaceGlyphs(src, glyphOrder, Packing(numPages, history, glyphMapping), allocate);
      var i := 0;
      while i < |glyphOrder|
        invariant 0 <= i <= |glyphOrder| && numPages >= 1
        invariant PlaceGlyphs(src, glyphOrder[i..], Packing(numPages, history, glyphMapping), allocate) == placed
      {
        var key := glyphOrder[i];
        var fontGlyph := src[key];
        assert glyphOrder[i..][0] == key && glyphOrder[i..][1..] == glyphOrder[i + 1..];
        ghost var before := Packing(numPages, history, glyphMapping);
        if fontGlyph.used {
          var size := (fontGlyph.width + 1, fontGlyph.height + 1);
          var pos := allocate(history, size.0, size.1);
          if pos.None? {
            numPages := numPages + 1;
            history := [];
            pos := allocate(history, size.0, size.1);
            if pos.None? {
              assert PlaceGlyph(before, key, fontGlyph, allocate).None?;
              return false, numPages, history;
            }
          }
          history := history + [size];
          glyphMapping := glyphMapping[key := Placed(fontGlyph, pos.value, numPages)];
          assert Packing(numPages, history, glyphMapping) == PlaceGlyph(before, key, fontGlyph, allocate).value;
        }
        i := i + 1;
      }
      assert glyphOrder[i..] == [];
      return true, numPages, history;
    }

    /** The kerning loop of the repack: keep the pairs of `src` whose glyphs both exist; see `KeptKernings`. */
    method KeepKernings(src: map<u32, real>, kerningOrder: seq<u32>)
      requires forall k :: k in kerningOrder ==> k in src
      modifies this`kerningMapping
      ensures kerningMapping == KeptKernings(src, kerningOrder, glyphMapping.Keys, old(kerningMapping))
    {
      ghost var kept := KeptKernings(src, kerningOrder, glyphMapping.Keys, kerningMapping);
      var j := 0;
      while j < |kerningOrder|
        invariant 0 <= j <= |kerningOrder|
        invariant KeptKernings(src, kerningOrder[j..], glyphMapping.Keys, kerningMapping) == kept
      {
        var key := kerningOrder[j];
        assert kerningOrder[j..][0] == key && kerningOrder[j..][1..] == kerningOrder[j + 1..];
        if FirstOf(key) in glyphMapping && SecondOf(key) in glyphMapping {
          kerningMapping := kerningMapping[key := src[key]];
        }
        j := j + 1;
      }
      assert kerningOrder[j..] == [];
    }
  }
}
