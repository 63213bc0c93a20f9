/**
 * The pure helpers of the drawing code: the five-line tail of the worker's
 * output shown while downloading, the spinner glyph, and the plural suffix of
 * the completion message. Layout, colours and widgets are not modelled.
 */
module Display {
  import opened RustText

  /** Rust's `u32`. */
  newtype u32 = x: int | 0 <= x < 0x1_0000_0000

  const MaxU32: u32 := 0xFFFF_FFFF

  /** `u32::wrapping_add(1)`: one more, except that the largest value wraps to zero. */
  function WrappingIncrement(x: u32): (r: u32)
    ensures x < MaxU32 ==> r as int == x as int + 1
    ensures x == MaxU32 ==> r == 0
  {
    ((x as int + 1) % 0x1_0000_0000) as u32
  }

  /** How many of the last output lines the progress panel shows. */
  const TailLength: nat := 5

  /** The last (at most five) lines of `output`, oldest first, joined by line feeds. */
  function OutputTail(output: string): (r: string)
    ensures var lines := Lines(output);
      r == Join(lines[|lines| - Min(TailLength, |lines|)..], "\n")
  {
    Join(LastN(Lines(output), TailLength), "\n")
  }

  /** The worker writes every line followed by a line feed; the tail then shows its last five lines. */
  lemma TailOfFramedOutput(lines: seq<string>)
    requires forall k :: 0 <= k < |lines| ==> PlainLine(lines[k])
    ensures OutputTail(Framed(lines)) == Join(lines[|lines| - Min(TailLength, |lines|)..], "\n")
  {
    var output := Framed(lines);
    assert Lines(output) == lines by {
      LinesOfFramed(lines);
    }
    assert OutputTail(output) == Join(LastN(lines, TailLength), "\n");
  }

  /** The ten braille frames of the spinner, in display order. */
  const SpinnerFrames: seq<char> := [
    '\U{280B}', '\U{2819}', '\U{2839}', '\U{2838}', '\U{283C}',
    '\U{2834}', '\U{2826}', '\U{2827}', '\U{2807}', '\U{280F}'
  ]

  /** The frame counter taken modulo the number of frames: always a valid index. */
  function SpinnerIndex(frame: u32): (i: nat)
    ensures i < |SpinnerFrames|
    ensures (frame as int - i) % |SpinnerFrames| == 0
  {
    (frame as int) % |SpinnerFrames|
  }

  function SpinnerGlyph(frame: u32): (c: char)
    ensures c in SpinnerFrames
  {
    SpinnerFrames[SpinnerIndex(frame)]
  }

  /**
   * Each tick shows the next frame, cyclically; the one exception is the wrap of
   * the 32-bit counter, where the spinner jumps from frame 5 back to frame 0
   * because 2^32 is not a multiple of ten.
   */
  lemma SpinnerAdvance(frame: u32)
    ensures frame < MaxU32 ==>
      SpinnerIndex(WrappingIncrement(frame)) == (SpinnerIndex(frame) + 1) % |SpinnerFrames|
    ensures frame == MaxU32 ==>
      SpinnerIndex(frame) == 5 && SpinnerIndex(WrappingIncrement(frame)) == 0
  {
    var f := frame as int;
    var q, i := f / 10, f % 10;
    assert f == 10 * q + i;
    if frame < MaxU32 {
      assert WrappingIncrement(frame) as int == f + 1;
      if i < 9 {
        assert f + 1 == 10 * q + (i + 1);
      } else {
        assert f + 1 == 10 * (q + 1);
      }
    }
  }

  /** The heading line of the progress panel after the spinner glyph. */
  const DownloadingHeading: string := " Downloading...\n"

  /**
   * The text of the progress panel: the current spinner glyph, the heading,
   * then the output tail.
   */
  function ProgressText(frame: u32, output: string): (r: string)
    ensures |r| == 1 + |DownloadingHeading| + |OutputTail(output)|
    ensures r[0] == SpinnerFrames[frame as int % |SpinnerFrames|]
    ensures r[1..1 + |DownloadingHeading|] == DownloadingHeading
    ensures r[1 + |DownloadingHeading|..] == OutputTail(output)
  {
    [SpinnerGlyph(frame)] + DownloadingHeading + OutputTail(output)
  }

  /** The suffix after "file" in "Download Complete! (N file…)". */
  function PluralSuffix(count: nat): (s: string)
    ensures s == "" <==> count == 1
    ensures s != "" ==> s == "s"
  {
    if count == 1 then "" else "s"
  }
}
