/** Classification of CJK code points and the pass that surrounds every
    CJK character with spaces (`_is_chinese_char`, `_tokenize_chinese_chars`). */
module Cjk {

  /** A Unicode code point, as Python's `ord` returns it. */
  type CodePoint = cp: int | 0 <= cp <= 0x10FFFF

  /** Text as Python iterates over a `str`: one element per code point. */
  type Text = seq<CodePoint>

  const Space: CodePoint := 0x20

  /** The eight inclusive blocks that `_is_chinese_char` tests, in its order:
      CJK Unified Ideographs, Extension A, Extensions B to E (E split in two),
      CJK Compatibility Ideographs and their Supplement. */
  const CjkBlocks: seq<(int, int)> := [
    (0x4E00, 0x9FFF), (0x3400, 0x4DBF), (0x20000, 0x2A6DF), (0x2A700, 0x2B73F),
    (0x2B740, 0x2B81F), (0x2B820, 0x2CEAF), (0xF900, 0xFAFF), (0x2F800, 0x2FA1F)]

  /** The same code points as disjoint, ascending, non-adjacent ranges:
      the three blocks from 0x2A700 to 0x2CEAF touch and merge into one. */
  const MergedBlocks: seq<(int, int)> := [
    (0x3400, 0x4DBF), (0x4E00, 0x9FFF), (0xF900, 0xFAFF),
    (0x20000, 0x2A6DF), (0x2A700, 0x2CEAF), (0x2F800, 0x2FA1F)]

  /** True when `cp` lies in one of the inclusive ranges of `blocks`. */
  function InBlocks(cp: int, blocks: seq<(int, int)>): bool
  {
    if blocks == [] then false
    else (blocks[0].0 <= cp <= blocks[0].1) || InBlocks(cp, blocks[1..])
  }

  /** `_is_chinese_char`: the range test over the eight blocks. */
  function IsChineseChar(cp: int): (r: bool)
    ensures r ==> 0x3400 <= cp <= 0x2FA1F
  {
    (0x4E00 <= cp <= 0x9FFF) ||
    (0x3400 <= cp <= 0x4DBF) ||
    (0x20000 <= cp <= 0x2A6DF) ||
    (0x2A700 <= cp <= 0x2B73F) ||
    (0x2B740 <= cp <= 0x2B81F) ||
    (0x2B820 <= cp <= 0x2CEAF) ||
    (0xF900 <= cp <= 0xFAFF) ||
    (0x2F800 <= cp <= 0x2FA1F)
  }

  /** The test is true exactly for the code points inside one of the eight
      listed blocks, and false for every other code point. */
  lemma IsChineseCharBlocks(cp: int)
    ensures IsChineseChar(cp) <==> InBlocks(cp, CjkBlocks)
  {
    assert InBlocks(cp, CjkBlocks[7..]) <==> 0x2F800 <= cp <= 0x2FA1F;
    assert InBlocks(cp, CjkBlocks[6..]) <==> 0xF900 <= cp <= 0xFAFF || InBlocks(cp, CjkBlocks[7..]);
    assert InBlocks(cp, CjkBlocks[5..]) <==> 0x2B820 <= cp <= 0x2CEAF || InBlocks(cp, CjkBlocks[6..]);
    assert InBlocks(cp, CjkBlocks[4..]) <==> 0x2B740 <= cp <= 0x2B81F || InBlocks(cp, CjkBlocks[5..]);
    assert InBlocks(cp, CjkBlocks[3..]) <==> 0x2A700 <= cp <= 0x2B73F || InBlocks(cp, CjkBlocks[4..]);
    assert InBlocks(cp, CjkBlocks[2..]) <==> 0x20000 <= cp <= 0x2A6DF || InBlocks(cp, CjkBlocks[3..]);
    assert InBlocks(cp, CjkBlocks[1..]) <==> 0x3400 <= cp <= 0x4DBF || InBlocks(cp, CjkBlocks[2..]);
  }

  /** The merged ranges are ascending, and a gap of at least one code point
      separates each from the next. */
  lemma MergedBlocksSeparated()
    ensures forall i :: 0 <= i < |MergedBlocks| ==> MergedBlocks[i].0 <= MergedBlocks[i].1
    ensures forall i, j :: 0 <= i < j < |MergedBlocks| ==> MergedBlocks[i].1 + 1 < MergedBlocks[j].0
  {
  }

  /** The eight blocks cover exactly the six merged ranges, so the test can
      be read as "inside one of six disjoint intervals". */
  lemma IsChineseCharMerged(cp: int)
    ensures IsChineseChar(cp) <==> InBlocks(cp, MergedBlocks)
  {
    assert InBlocks(cp, MergedBlocks[5..]) <==> 0x2F800 <= cp <= 0x2FA1F;
    assert InBlocks(cp, MergedBlocks[4..]) <==> 0x2A700 <= cp <= 0x2CEAF || 0x2F800 <= cp <= 0x2FA1F;
    assert InBlocks(cp, MergedBlocks[3..]) <==> 0x20000 <= cp <= 0x2A6DF || InBlocks(cp, MergedBlocks[4..]);
    assert InBlocks(cp, MergedBlocks[2..]) <==> 0xF900 <= cp <= 0xFAFF || InBlocks(cp, MergedBlocks[3..]);
    assert InBlocks(cp, MergedBlocks[1..]) <==> 0x4E00 <= cp <= 0x9FFF || InBlocks(cp, MergedBlocks[2..]);
  }

  /** What one input character contributes to the output of the pass. */
  function Piece(c: CodePoint): (p: Text)
  {
    if IsChineseChar(c) then [Space, c, Space] else [c]
  }

  /** Specification of `_tokenize_chinese_chars`: the pieces of the
      characters of `s`, concatenated in order. */
  function Tokenized(s: Text): Text
  {
    if s == [] then [] else Tokenized(s[..|s| - 1]) + Piece(s[|s| - 1])
  }

  /** The number of CJK code points in `s`. */
  function CjkCount(s: Text): nat
  {
    if s == [] then 0
    else CjkCount(s[..|s| - 1]) + (if IsChineseChar(s[|s| - 1]) then 1 else 0)
  }

  /** `_tokenize_chinese_chars`: appends to `output` character by character. */
  method TokenizeChineseChars(text: Text) returns (output: Text)
    ensures output == Tokenized(text)
  {
    output := [];
    for i := 0 to |text|
      invariant output == Tokenized(text[..i])
    {
      var c := text[i];
      assert text[..i + 1][..i] == text[..i];
      if IsChineseChar(c) {
        output := output + [Space];
        output := output + [c];
        output := output + [Space];
      } else {
        output := output + [c];
      }
    }
    assert text[..|text|] == text;
  }

  /** Every CJK character adds two spaces; nothing else changes the length. */
  lemma {:induction false} TokenizedLength(s: Text)
    ensures |Tokenized(s)| == |s| + 2 * CjkCount(s)
  {
    if s != [] {
      TokenizedLength(s[..|s| - 1]);
    }
  }

  /** Text without CJK characters passes through unchanged. */
  lemma {:induction false} TokenizedNoCjk(s: Text)
    requires forall i :: 0 <= i < |s| ==> !IsChineseChar(s[i])
    ensures Tokenized(s) == s
  {
    if s != [] {
      TokenizedNoCjk(s[..|s| - 1]);
    }
  }

  /** The pass works character by character, so it distributes over concatenation. */
  lemma {:induction false} TokenizedAppend(a: Text, b: Text)
    ensures Tokenized(a + b) == Tokenized(a) + Tokenized(b)
  {
    if b == [] {
      assert a + b == a;
    } else {
      assert (a + b)[..|a + b| - 1] == a + b[..|b| - 1];
      TokenizedAppend(a, b[..|b| - 1]);
    }
  }

  /** The output never ends in a CJK character: the last piece ends in a
      space or in a character that is not CJK. */
  lemma TokenizedLastNotCjk(s: Text)
    requires Tokenized(s) != []
    ensures !IsChineseChar(Tokenized(s)[|Tokenized(s)| - 1])
  {
  }

  /** Every CJK character of `r` has a space on each side. */
  predicate SpacedAround(r: Text)
  {
    forall i :: 0 <= i < |r| && IsChineseChar(r[i]) ==> 0 < i < |r| - 1 && r[i - 1] == Space && r[i + 1] == Space
  }

  /** Every CJK character of the output has a space on each side. */
  lemma {:induction false} TokenizedSpaced(s: Text)
    ensures SpacedAround(Tokenized(s))
  {
    if s != [] {
      var t := Tokenized(s[..|s| - 1]);
      var p := Piece(s[|s| - 1]);
      var r := t + p;
      TokenizedSpaced(s[..|s| - 1]);
      assert SpacedAround(t);
      forall i | 0 <= i < |r| && IsChineseChar(r[i])
        ensures 0 < i < |r| - 1 && r[i - 1] == Space && r[i + 1] == Space
      {
        if i < |t| {
          assert r[i] == t[i] && IsChineseChar(t[i]);
          assert 0 < i < |t| - 1 && t[i - 1] == Space && t[i + 1] == Space;
          assert r[i - 1] == t[i - 1] && r[i + 1] == t[i + 1];
        } else {
          assert r[i] == p[i - |t|];
          assert i == |t| + 1 && |p| == 3;
        }
      }
    }
  }

  /** An inverse of the pass, reading from the right: a CJK character
      between two spaces is one piece, anything else is itself. */
  function Untokenized(r: Text): Text
  {
    if r == [] then []
    else if |r| >= 3 && r[|r| - 1] == Space && IsChineseChar(r[|r| - 2]) && r[|r| - 3] == Space
    then Untokenized(r[..|r| - 3]) + [r[|r| - 2]]
    else Untokenized(r[..|r| - 1]) + [r[|r| - 1]]
  }

  /** Reading back a CJK piece. */
  lemma UntokenizedCjkPiece(t: Text, c: CodePoint)
    requires IsChineseChar(c)
    ensures Untokenized(t + [Space, c, Space]) == Untokenized(t) + [c]
  {
    var r := t + [Space, c, Space];
    assert r[..|r| - 3] == t;
    assert r[|r| - 1] == Space && r[|r| - 2] == c && r[|r| - 3] == Space;
  }

  /** Reading back a character that is not CJK, after text that does not end in CJK. */
  lemma UntokenizedPlain(t: Text, c: CodePoint)
    requires !IsChineseChar(c)
    requires t == [] || !IsChineseChar(t[|t| - 1])
    ensures Untokenized(t + [c]) == Untokenized(t) + [c]
  {
    var r := t + [c];
    assert r[..|r| - 1] == t;
    assert r[|r| - 1] == c;
    assert |r| >= 3 ==> r[|r| - 2] == t[|t| - 1];
  }

  /** No information is lost: the spaces the pass inserts can be told
      apart from spaces that were in the text. */
  lemma {:induction false} UntokenizeTokenized(s: Text)
    ensures Untokenized(Tokenized(s)) == s
  {
    if s != [] {
      var init, c := s[..|s| - 1], s[|s| - 1];
      var t := Tokenized(init);
      assert init + [c] == s;
      UntokenizeTokenized(init);
      if IsChineseChar(c) {
        UntokenizedCjkPiece(t, c);
      } else {
        if t != [] {
          TokenizedLastNotCjk(init);
        }
        UntokenizedPlain(t, c);
      }
    }
  }
}
