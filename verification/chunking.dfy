/**
 * Configuration and the external collaborators of the chunking path: the Tiktoken token counter,
 * Document Intelligence layout analysis and Semantic Kernel's `TextChunker`. Their internals are
 * not modelled; they are total functions supplied by the caller.
 */
module Chunking {
  import opened Wrappers
  import opened Text

  /** A `List<T>`: its `Count` is an `int`, so every index fits an `int`. */
  type List<T> = s: seq<T> | |s| < 0x8000_0000 witness []

  /** A `decimal` as read from configuration: `mantissa / 10^scale`. */
  datatype Decimal = Decimal(mantissa: int, scale: nat)

  /** `FunctionSettings.MaxChunkSize` and `FunctionSettings.ChunkOverlapPercent`. */
  datatype Settings = Settings(maxChunkSize: int32, chunkOverlapPercent: Decimal)

  /** The defaults: 512 tokens and 0.25. */
  const DefaultSettings: Settings := Settings(512, Decimal(25, 2))

  datatype Collaborators = Collaborators(
    /** `GetTokenCount`: the Tiktoken encoder of the configured embedding model. */
    countTokens: string -> nat,
    /** `AnalyzeDocumentAsync("prebuilt-layout", ..., ContentFormat.Markdown)`. */
    analyzeLayout: string -> string,
    /** `TextChunker.SplitMarkDownLines(text, maxTokens, tokenCounter)`; `None`: no counter given. */
    splitMarkDownLines: (string, int32, Option<string -> nat>) -> List<string>,
    /** `TextChunker.SplitMarkdownParagraphs(lines, maxTokens, overlapTokens, tokenCounter)`. */
    splitMarkdownParagraphs: (List<string>, int32, int32, Option<string -> nat>) -> List<string>)

  /** The chunker pipeline of the split path: layout, then lines, then overlapping paragraphs. */
  function Paragraphs(svc: Collaborators, settings: Settings, content: string, overlap: int32,
                      counter: Option<string -> nat>): List<string>
  {
    var markdown := svc.analyzeLayout(content);
    var lines := svc.splitMarkDownLines(markdown, settings.maxChunkSize, counter);
    svc.splitMarkdownParagraphs(lines, settings.maxChunkSize, overlap, counter)
  }

  function Abs(x: int): nat {
    if x < 0 then -x else x
  }

  function Pow10(k: nat): (r: nat)
    ensures r >= 1
  {
    if k == 0 then 1 else 10 * Pow10(k - 1)
  }

  /** `r` is the integer nearest to `num / den`, a tie going to the even neighbour. */
  predicate IsNearestEven(num: int, den: int, r: int)
    requires den > 0
  {
    && 2 * Abs(num - r * den) <= den
    && (2 * Abs(num - r * den) == den ==> r % 2 == 0)
  }

  /** `Convert.ToInt32(decimal)` before its range check (banker's rounding). */
  function RoundHalfEven(num: int, den: int): (r: int)
    requires den > 0
    ensures IsNearestEven(num, den, r)
  {
    var q := num / den;
    var rem := num % den;
    assert num - q * den == rem;
    assert num - (q + 1) * den == rem - den;
    if 2 * rem < den then q
    else if 2 * rem > den then q + 1
    else if q % 2 == 0 then q
    else q + 1
  }

  lemma MulAtLeast(d: int, den: int)
    requires d >= 2 && den > 0
    ensures d * den >= 2 * den
  {
    assert d * den == 2 * den + (d - 2) * den;
  }

  lemma MulAtMost(d: int, den: int)
    requires d <= -2 && den > 0
    ensures d * den <= -2 * den
  {
    MulAtLeast(-d, den);
    assert d * den == -((-d) * den);
  }

  lemma NoAdjacentEvens(r: int)
    ensures !(r % 2 == 0 && (r + 1) % 2 == 0)
  {
  }

  /** Only one integer is nearest to `num / den` with ties to even. */
  lemma RoundHalfEvenUnique(num: int, den: int, r: int)
    requires den > 0
    requires IsNearestEven(num, den, r)
    ensures r == RoundHalfEven(num, den)
  {
    var s := RoundHalfEven(num, den);
    var x, y := num - r * den, num - s * den;
    var d := s - r;
    assert x - y == d * den;
    if d >= 2 {
      MulAtLeast(d, den);
      assert false;
    } else if d <= -2 {
      MulAtMost(d, den);
      assert false;
    } else if d == 1 {
      NoAdjacentEvens(r);
      assert false;
    } else if d == -1 {
      NoAdjacentEvens(s);
      assert false;
    }
  }

  /**
   * `Convert.ToInt32(ChunkOverlapPercent * MaxChunkSize)`, the product taken exactly in
   * `decimal`: the nearest integer (ties to even), or `None` for the OverflowException.
   */
  function OverlapTokens(settings: Settings): (r: Option<int32>)
    ensures var p := settings.chunkOverlapPercent;
      r.Some? ==> IsNearestEven(p.mantissa * settings.maxChunkSize, Pow10(p.scale), r.value)
    ensures var p := settings.chunkOverlapPercent;
      r.None? <==> !InInt32Range(RoundHalfEven(p.mantissa * settings.maxChunkSize, Pow10(p.scale)))
  {
    var p := settings.chunkOverlapPercent;
    var v := RoundHalfEven(p.mantissa * settings.maxChunkSize, Pow10(p.scale));
    if InInt32Range(v) then Some(v as int32) else None
  }

  /** With the default settings the overlap is a quarter of 512 tokens. */
  lemma DefaultOverlapIs128()
    ensures OverlapTokens(DefaultSettings) == Some(128)
  {
    assert Pow10(2) == 100;
    RoundHalfEvenUnique(25 * 512, 100, 128);
  }
}
