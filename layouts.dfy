/**
 * Keyboard layouts of the T3 keyboard: the 36-byte layout encoding (nine keys
 * of four bytes), its key grammar, the lookup of a key by (row, col), and the
 * five predefined layout tables.
 *
 * A C `char` is modelled as a Dafny `char`; the C string terminator is NUL.
 */
module Layouts {

  const NUL: char := '\0'

  /** Bytes per key. */
  const KeySize: nat := 4

  /** Keys per layout, three rows of three. */
  const KeyCount: nat := 9

  /** `_T3_KEYBOARD_SIZE`: the bytes of one layout. */
  const KeyboardSize: nat := KeyCount * KeySize

  /** A layout is a C character array; a usable one has `KeyboardSize` bytes. */
  type Layout = seq<char>

  /** `strlen`: the number of bytes before the first NUL (the whole sequence if there is none). */
  function StrLen(s: seq<char>): (n: nat)
    ensures n <= |s|
    ensures forall j :: 0 <= j < n ==> s[j] != NUL
    ensures n < |s| ==> s[n] == NUL
  {
    if s == [] || s[0] == NUL then 0 else 1 + StrLen(s[1..])
  }

  /** The C string a NUL-terminated buffer holds: its bytes before the first NUL. */
  function CString(s: seq<char>): (r: seq<char>)
    ensures r <= s
    ensures NUL !in r
    ensures |r| < |s| ==> s[|r|] == NUL
  {
    s[..StrLen(s)]
  }

  /**
   * A buffer whose first n bytes are not NUL holds a C string that extends
   * them, and is exactly them when byte n is NUL.
   */
  lemma CStringOfNonNulPrefix(s: seq<char>, n: nat)
    requires n < |s|
    requires forall j :: 0 <= j < n ==> s[j] != NUL
    ensures s[..n] <= CString(s)
    ensures s[n] == NUL ==> CString(s) == s[..n]
  {
  }

  /** The "printable characters" a key may hold: ASCII 0x20 to 0x7E. */
  predicate Printable(c: char)
  {
    ' ' <= c <= '~'
  }

  /**
   * The key grammar of the layout encoding:
   *   key := null null null null | char null null null
   *        | char char null null | char char char null
   */
  predicate ValidKey(k: seq<char>)
  {
    && |k| == KeySize
    && (|| (k[0] == NUL && k[1] == NUL && k[2] == NUL && k[3] == NUL)
        || (Printable(k[0]) && k[1] == NUL && k[2] == NUL && k[3] == NUL)
        || (Printable(k[0]) && Printable(k[1]) && k[2] == NUL && k[3] == NUL)
        || (Printable(k[0]) && Printable(k[1]) && Printable(k[2]) && k[3] == NUL))
  }

  /**
   * The grammar says the same as: a key is four bytes, its characters are the
   * (at most three) printable bytes before the first NUL, and every byte
   * after them is NUL.
   */
  lemma ValidKeyIsWidthAtMostThree(k: seq<char>)
    ensures ValidKey(k) <==>
      && |k| == KeySize
      && StrLen(k) <= 3
      && (forall j :: 0 <= j < StrLen(k) ==> Printable(k[j]))
      && (forall j :: StrLen(k) <= j < KeySize ==> k[j] == NUL)
  {
  }

  /** In a valid key, byte 1 is NUL exactly when the key holds at most one character. */
  lemma SecondByteNulIffSingle(k: seq<char>)
    requires ValidKey(k)
    ensures k[1] == NUL <==> StrLen(k) <= 1
  {
    ValidKeyIsWidthAtMostThree(k);
  }

  /** The index of the key at (row, col), both 1-based, in row-major order. */
  function KeyIndex(row: int, col: int): (idx: nat)
    requires 1 <= row <= 3 && 1 <= col <= 3
    ensures idx < KeyCount
    ensures idx / 3 == row - 1 && idx % 3 == col - 1
  {
    (row - 1) * 3 + (col - 1)
  }

  /** Positions are in one-to-one correspondence with key indexes. */
  lemma KeyIndexInjective(r1: int, c1: int, r2: int, c2: int)
    requires 1 <= r1 <= 3 && 1 <= c1 <= 3 && 1 <= r2 <= 3 && 1 <= c2 <= 3
    ensures KeyIndex(r1, c1) == KeyIndex(r2, c2) <==> r1 == r2 && c1 == c2
  {
  }

  /** The four bytes of key `idx` of a layout. */
  function KeyAt(layout: Layout, idx: nat): (k: seq<char>)
    requires |layout| == KeyboardSize && idx < KeyCount
    ensures |k| == KeySize
    ensures forall j :: 0 <= j < KeySize ==> k[j] == layout[KeySize * idx + j]
  {
    layout[KeySize * idx .. KeySize * idx + KeySize]
  }

  /** `_t3_getCharGroup` on a present keyboard: the key at (row, col) of a layout. */
  function CharGroup(layout: Layout, row: int, col: int): (k: seq<char>)
    requires |layout| == KeyboardSize
    requires 1 <= row <= 3 && 1 <= col <= 3
    ensures |k| == KeySize
    ensures KeySize * KeyIndex(row, col) + KeySize <= KeyboardSize
    ensures forall j :: 0 <= j < KeySize ==> k[j] == layout[KeySize * KeyIndex(row, col) + j]
  {
    KeyAt(layout, KeyIndex(row, col))
  }

  /** A layout in the documented encoding: nine keys that each follow the key grammar. */
  predicate ValidLayout(layout: Layout)
  {
    && |layout| == KeyboardSize
    && forall idx :: 0 <= idx < KeyCount ==> ValidKey(KeyAt(layout, idx))
  }

  // The predefined layouts. Each C literal ends with the compiler's implicit
  // terminator, which supplies the last byte of the ninth key; here that byte
  // is written out.

  const LowercaseLayout: Layout :=
    "abc\0" + "def\0" + "ghi\0" +
    "jkl\0" + "mno\0" + "pqr\0" +
    "stu\0" + "vwx\0" + "yz \0"

  const UppercaseLayout: Layout :=
    "ABC\0" + "DEF\0" + "GHI\0" +
    "JKL\0" + "MNO\0" + "PQR\0" +
    "STU\0" + "VWX\0" + "YZ \0"

  const NumbersLayout: Layout :=
    "01\0\0" + "2\0\0\0" + "3\0\0\0" +
    "4\0\0\0" + "5\0\0\0" + "6\0\0\0" +
    "7\0\0\0" + "8\0\0\0" + "9\0\0\0"

  const PuncLayout: Layout :=
    ".\0\0\0" + "'!\0\0" + ":;\"\0" +
    ",\0\0\0" + "-\0\0\0" + "@$#\0" +
    "?\0\0\0" + "&%\0\0" + "+*=\0"

  /** The last key is read with one byte per character (Latin-1). */
  const BracketsLayout: Layout :=
    "()\0\0" + "<>\0\0" + "{}\0\0" +
    "/\0\0\0" + "\\\0\0\0" + "[]\0\0" +
    "|_\0\0" + "~^`\0" + "¢½\0\0"

  /** Every key of a layout of nine four-byte keys, spelled out. */
  lemma ValidLayoutByKeys(layout: Layout)
    requires |layout| == KeyboardSize
    requires ValidKey(KeyAt(layout, 0)) && ValidKey(KeyAt(layout, 1)) && ValidKey(KeyAt(layout, 2))
    requires ValidKey(KeyAt(layout, 3)) && ValidKey(KeyAt(layout, 4)) && ValidKey(KeyAt(layout, 5))
    requires ValidKey(KeyAt(layout, 6)) && ValidKey(KeyAt(layout, 7)) && ValidKey(KeyAt(layout, 8))
    ensures ValidLayout(layout)
  {
    forall idx | 0 <= idx < KeyCount
      ensures ValidKey(KeyAt(layout, idx))
    {
      assert idx in {0, 1, 2, 3, 4, 5, 6, 7, 8};
    }
  }

  /** The lower-case letters layout follows the documented encoding. */
  lemma LowercaseLayoutValid()
    ensures ValidLayout(LowercaseLayout)
  {
    ValidLayoutByKeys(LowercaseLayout);
  }

  /** The upper-case letters layout follows the documented encoding. */
  lemma UppercaseLayoutValid()
    ensures ValidLayout(UppercaseLayout)
  {
    ValidLayoutByKeys(UppercaseLayout);
  }

  /** The digits layout follows the documented encoding. */
  lemma NumbersLayoutValid()
    ensures ValidLayout(NumbersLayout)
  {
    ValidLayoutByKeys(NumbersLayout);
  }

  /** The punctuation layout follows the documented encoding. */
  lemma PuncLayoutValid()
    ensures ValidLayout(PuncLayout)
  {
    ValidLayoutByKeys(PuncLayout);
  }

  /** The brackets layout follows the encoding in its first eight keys; its last key is not ASCII. */
  lemma BracketsLayoutFirstEightKeysValid()
    ensures |BracketsLayout| == KeyboardSize
    ensures forall idx :: 0 <= idx < 8 ==> ValidKey(KeyAt(BracketsLayout, idx))
    ensures !Printable(KeyAt(BracketsLayout, 8)[0])
  {
    assert ValidKey(KeyAt(BracketsLayout, 0)) && ValidKey(KeyAt(BracketsLayout, 1));
    assert ValidKey(KeyAt(BracketsLayout, 2)) && ValidKey(KeyAt(BracketsLayout, 3));
    assert ValidKey(KeyAt(BracketsLayout, 4)) && ValidKey(KeyAt(BracketsLayout, 5));
    assert ValidKey(KeyAt(BracketsLayout, 6)) && ValidKey(KeyAt(BracketsLayout, 7));
    forall idx | 0 <= idx < 8
      ensures ValidKey(KeyAt(BracketsLayout, idx))
    {
      assert idx in {0, 1, 2, 3, 4, 5, 6, 7};
    }
  }
}
