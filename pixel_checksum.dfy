/**
  The landmark locator of TestEngine: the checksum of the pixel window around a point
  (getPixelsChecksum) and the row-major search for the first point whose window has a
  given checksum (getCoordinatesWithPixelsChecksum).

  Both operate on a flat, row-major buffer of ARGB pixels. A window is three runs of
  2 * Deviation + 1 consecutive buffer entries, centred on the flat index c = y * width + x
  and on c - width and c + width; the indexing is linear, so near the left or right edge a
  run continues into the neighbouring row.
*/
module PixelChecksum {
  import opened JavaInt

  /** DEVIATION: the half-width of each sampled run. */
  const Deviation: int := 10

  /** A decoded screenshot: its width and height and its pixels in row-major order. */
  datatype Image = Image(width: int, height: int, pixels: seq<int32>) {
    predicate Valid() {
      && 0 <= width <= Int32Max
      && 0 <= height <= Int32Max
      && |pixels| == width * height
      && |pixels| <= Int32Max
    }
  }

  /** Outcome of getPixelsChecksum: the `long` sum, or the ArrayIndexOutOfBoundsException
      raised by the first read outside the buffer. */
  datatype Checksum = Checksum(value: int64) | IndexOutOfBounds

  /** Sum of pixels[lo], ..., pixels[hi] (empty when hi < lo). */
  function RunSum(pixels: seq<int32>, lo: int, hi: int): int
    requires 0 <= lo && hi < |pixels|
    decreases hi - lo
  {
    if hi < lo then 0 else RunSum(pixels, lo, hi - 1) + pixels[hi] as int
  }

  /** Every index of the window around flat index c lies inside the buffer. */
  predicate WindowInBounds(pixels: seq<int32>, c: int, width: int)
  {
    0 <= width && 0 <= c - Deviation - width && c + Deviation + width < |pixels|
  }

  /** The exact sum of the window around flat index c: the runs [c-D-w, c+D-w], [c-D, c+D]
      and [c-D+w, c+D+w], where D is Deviation and w the width. */
  function WindowSum(pixels: seq<int32>, c: int, width: int): int
    requires WindowInBounds(pixels, c, width)
  {
    RunSum(pixels, c - Deviation - width, c + Deviation - width)
    + RunSum(pixels, c - Deviation, c + Deviation)
    + RunSum(pixels, c - Deviation + width, c + Deviation + width)
  }

  /** A run of n Java `int`s sums to between -2^31 * n and (2^31 - 1) * n. */
  lemma {:induction false} RunSumBounds(pixels: seq<int32>, lo: int, hi: int)
    requires 0 <= lo && lo <= hi + 1 && hi < |pixels|
    ensures -0x8000_0000 * (hi - lo + 1) <= RunSum(pixels, lo, hi) <= 0x7fff_ffff * (hi - lo + 1)
    decreases hi - lo
  {
    if lo <= hi {
      RunSumBounds(pixels, lo, hi - 1);
    }
  }

  /** The window holds 3 * (2 * Deviation + 1) = 63 Java `int`s, and 63 * 2^31 < 2^63: the
      `long` checksum never overflows. */
  lemma WindowSumFitsLong(pixels: seq<int32>, c: int, width: int)
    requires WindowInBounds(pixels, c, width)
    ensures -0x8000_0000 * 63 <= WindowSum(pixels, c, width) <= 0x7fff_ffff * 63
    ensures InInt64(WindowSum(pixels, c, width))
  {
    RunSumBounds(pixels, c - Deviation - width, c + Deviation - width);
    RunSumBounds(pixels, c - Deviation, c + Deviation);
    RunSumBounds(pixels, c - Deviation + width, c + Deviation + width);
  }

  /** The `int` index arithmetic of getPixelsChecksum at (x, y) does not overflow. */
  predicate IndexArithmeticFits(width: int, x: int, y: int)
  {
    && InInt32(x) && InInt32(y)
    && InInt32(y * width) && InInt32(y * width + x)
    && InInt32(y * width + x - Deviation - width)
    && InInt32(y * width + x + Deviation + width)
  }

  /** One `for (int i = from; i <= to; i++) sum += pixels[i];` loop on a `long` sum whose
      every read is bounds-checked; the `long` has room for the run's n more `int`s. */
  method AddRunChecked(pixels: seq<int32>, lo: int, hi: int, sum0: int64) returns (r: Checksum)
    requires lo <= hi
    requires InInt64(sum0 as int - 0x8000_0000 * (hi - lo + 1))
    requires InInt64(sum0 as int + 0x7fff_ffff * (hi - lo + 1))
    ensures r.IndexOutOfBounds? <==> lo < 0 || |pixels| <= hi
    ensures r.Checksum? ==> 0 <= lo && hi < |pixels| && r.value as int == sum0 as int + RunSum(pixels, lo, hi)
  {
    var sum := sum0;
    var i := lo;
    while i <= hi
      invariant lo <= i <= hi + 1
      invariant i > lo ==> 0 <= lo && i <= |pixels|
      invariant i == lo ==> sum == sum0
      invariant i > lo ==> sum as int == sum0 as int + RunSum(pixels, lo, i - 1)
    {
      if i < 0 || |pixels| <= i {
        return IndexOutOfBounds;
      }
      RunSumBounds(pixels, lo, i - 1);
      sum := sum + pixels[i] as int64;
      i := i + 1;
    }
    r := Checksum(sum);
  }

  /** getPixelsChecksum(x, y) on a screenshot `img`: the `long` sum of the window around
      y * width + x, or IndexOutOfBounds exactly when that window leaves the buffer. */
  method GetPixelsChecksum(img: Image, x: int, y: int) returns (r: Checksum)
    requires img.Valid()
    requires IndexArithmeticFits(img.width, x, y)
    ensures r.IndexOutOfBounds? <==> !WindowInBounds(img.pixels, y * img.width + x, img.width)
    ensures r.Checksum? ==> r.value as int == WindowSum(img.pixels, y * img.width + x, img.width)
  {
    var width := img.width;
    var pixels := img.pixels;
    var index := y * width + x;
    var lo := index - Deviation - width;
    var hi := index + Deviation - width;
    var first := AddRunChecked(pixels, lo, hi, 0);
    if first.IndexOutOfBounds? {
      return first;
    }
    RunSumBounds(pixels, lo, hi);
    lo, hi := lo + width, hi + width;
    var second := AddRunChecked(pixels, lo, hi, first.value);
    if second.IndexOutOfBounds? {
      return second;
    }
    RunSumBounds(pixels, lo, hi);
    lo, hi := lo + width, hi + width;
    r := AddRunChecked(pixels, lo, hi, second.value);
  }

  /** A candidate of the scan: rows 1 .. height-2, columns Deviation .. width-Deviation-1. */
  predicate InScan(img: Image, x: int, y: int)
  {
    1 <= y <= img.height - 2 && Deviation <= x <= img.width - Deviation - 1
  }

  /** (x1, y1) comes strictly before (x2, y2) in row-major order. */
  predicate Precedes(x1: int, y1: int, x2: int, y2: int)
  {
    y1 < y2 || (y1 == y2 && x1 < x2)
  }

  /** Every window the scan reads lies inside the buffer. */
  lemma CandidateWindowInBounds(img: Image, x: int, y: int)
    requires img.Valid() && InScan(img, x, y)
    ensures WindowInBounds(img.pixels, y * img.width + x, img.width)
  {
    InteriorIndexBounds(img.width, img.height, x, y);
  }

  /** The index arithmetic behind CandidateWindowInBounds, on plain integers. */
  lemma InteriorIndexBounds(w: int, h: int, x: int, y: int)
    requires 0 <= w && 1 <= y <= h - 2 && Deviation <= x <= w - Deviation - 1
    ensures 0 <= y * w + x - Deviation - w
    ensures y * w + x + Deviation + w < h * w
  {
    MulLe(1, y, w);
    MulLe(y + 2, h, w);
    assert (y + 2) * w == y * w + 2 * w;
  }

  lemma MulLe(a: int, b: int, w: int)
    requires a <= b && 0 <= w
    ensures a * w <= b * w
  {
    var d := b - a;
    assert d * w >= 0;
    assert b * w == a * w + d * w;
  }

  /** The exact checksum of candidate (x, y): the `long` that getPixelsChecksum(x, y)
      returns for it. */
  function CandidateChecksum(img: Image, x: int, y: int): (sum: int)
    requires img.Valid() && InScan(img, x, y)
    ensures InInt64(sum)
  {
    CandidateWindowInBounds(img, x, y);
    WindowSumFitsLong(img.pixels, y * img.width + x, img.width);
    WindowSum(img.pixels, y * img.width + x, img.width)
  }

  /** The scan's `int` sum at (x, y), a candidate, widened to `long`, equals checkSum. */
  predicate Matches(img: Image, checkSum: int, x: int, y: int)
    requires img.Valid()
  {
    InScan(img, x, y) && Wrap32(CandidateChecksum(img, x, y)) == checkSum
  }

  /** No candidate strictly before (x, y) matches. */
  ghost predicate NoMatchBefore(img: Image, checkSum: int, x: int, y: int)
    requires img.Valid()
  {
    forall x', y' :: Precedes(x', y', x, y) ==> !Matches(img, checkSum, x', y')
  }

  /** What getCoordinatesWithPixelsChecksum returns: the first matching candidate in
      row-major order, or (-1, -1) when no candidate matches. */
  ghost predicate IsScanResult(img: Image, checkSum: int, rx: int, ry: int)
    requires img.Valid()
  {
    || (Matches(img, checkSum, rx, ry) && NoMatchBefore(img, checkSum, rx, ry))
    || (rx == -1 && ry == -1 && forall x', y' :: !Matches(img, checkSum, x', y'))
  }

  /** `sum += pixels[i]` for i in lo .. hi on an `int` sum: wraps modulo 2^32. */
  method AddRunWrapped(pixels: seq<int32>, lo: int, hi: int, sum0: int) returns (sum: int)
    requires 0 <= lo <= hi + 1 && hi < |pixels|
    requires InInt32(sum0)
    ensures sum == Wrap32(sum0 + RunSum(pixels, lo, hi))
  {
    sum := sum0;
    for i := lo to hi + 1
      invariant sum == Wrap32(sum0 + RunSum(pixels, lo, i - 1))
    {
      WrapAddLeft(sum0 + RunSum(pixels, lo, i - 1), pixels[i] as int);
      sum := Wrap32(sum + pixels[i] as int);
    }
  }

  /** The three `int` run loops of the scan body at candidate (x, y), whose flat index is
      `index`, starting from `sum0`. */
  method CandidateSum(img: Image, x: int, y: int, index: int, sum0: int) returns (sum: int)
    requires img.Valid() && InScan(img, x, y) && index == y * img.width + x
    requires InInt32(sum0)
    ensures WindowInBounds(img.pixels, index, img.width)
    ensures sum == Wrap32(sum0 + WindowSum(img.pixels, index, img.width))
  {
    var width, pixels := img.width, img.pixels;
    CandidateWindowInBounds(img, x, y);
    var lo := index - Deviation - width;
    var hi := index + Deviation - width;
    sum := AddRunWrapped(pixels, lo, hi, sum0);
    lo, hi := lo + width, hi + width;
    sum := AddRunWrapped(pixels, lo, hi, sum);
    lo, hi := lo + width, hi + width;
    sum := AddRunWrapped(pixels, lo, hi, sum);
    ghost var a := RunSum(pixels, index - Deviation - width, index + Deviation - width);
    ghost var b := RunSum(pixels, index - Deviation, index + Deviation);
    WrapAddLeft(sum0 + a, b);
    WrapAddLeft(sum0 + a + b, RunSum(pixels, index - Deviation + width, index + Deviation + width));
  }

  /** One row of the scan: the inner loop of getCoordinatesWithPixelsChecksum over the
      candidates of row y, with the flat index kept by hand. Returns the first matching
      column, or -1 with `index` advanced past the 2 * Deviation columns outside the scan
      to the first candidate of the next row. */
  method ScanRow(img: Image, checkSum: int64, y: int, index0: int) returns (rx: int, index: int)
    requires img.Valid() && 1 <= y <= img.height - 2
    requires img.width > 2 * Deviation ==> index0 == y * img.width + Deviation
    requires NoMatchBefore(img, checkSum as int, Deviation, y)
    ensures rx != -1 ==> Matches(img, checkSum as int, rx, y) && NoMatchBefore(img, checkSum as int, rx, y)
    ensures rx == -1 ==> NoMatchBefore(img, checkSum as int, Deviation, y + 1)
    ensures rx == -1 && img.width > 2 * Deviation ==> index == (y + 1) * img.width + Deviation
    ensures img.width > 2 * Deviation ==> 0 <= index <= |img.pixels|
  {
    var width, height := img.width, img.height;
    MulLe(y + 1, height, width);
    MulLe(y + 2, height, width);
    index := index0;
    var x := Deviation;
    while x < width - Deviation
      invariant x == Deviation || x <= width - Deviation
      invariant width > 2 * Deviation ==>
        index == if x < width - Deviation then y * width + x else (y + 1) * width + Deviation
      invariant width > 2 * Deviation ==> 0 <= index <= |img.pixels|
      invariant NoMatchBefore(img, checkSum as int, x, y)
    {
      var sum := 0;
      sum := CandidateSum(img, x, y, index, sum);
      if sum == checkSum as int {
        return x, index;
      }
      if x == width - Deviation - 1 {
        index := index + 2 * Deviation;
        assert (y + 1) * width == y * width + width;
      }
      index := index + 1;
      x := x + 1;
    }
    assert forall x' :: Deviation <= x' && InScan(img, x', y) ==> x' < x;
    rx := -1;
  }

  /** getCoordinatesWithPixelsChecksum(checkSum) on a screenshot `img`. The flat index of
      the current candidate is kept by hand in `index`: it advances by one per column and
      skips the 2 * Deviation columns outside the scan at the end of each row. */
  method GetCoordinatesWithPixelsChecksum(img: Image, checkSum: int64) returns (rx: int, ry: int)
    requires img.Valid()
    ensures IsScanResult(img, checkSum as int, rx, ry)
    ensures img.width < 2 * Deviation + 1 || img.height < 3 ==> rx == -1 && ry == -1
  {
    var width, height := img.width, img.height;
    var index := Deviation + width;
    var y := 1;
    while y < height - 1
      invariant 1 <= y && (y == 1 || y <= height - 1)
      invariant width > 2 * Deviation ==> index == y * width + Deviation
      invariant NoMatchBefore(img, checkSum as int, Deviation, y)
    {
      var x;
      x, index := ScanRow(img, checkSum, y, index);
      if x != -1 {
        return x, y;
      }
      y := y + 1;
    }
    return -1, -1;
  }

  /** Every candidate's checksum can be taken by getPixelsChecksum: its `int` index
      arithmetic does not overflow. */
  lemma CandidateIndexFits(img: Image, x: int, y: int)
    requires img.Valid() && InScan(img, x, y)
    ensures IndexArithmeticFits(img.width, x, y)
  {
    CandidateWindowInBounds(img, x, y);
    MulLe(0, y, img.width);
  }

  /** Round trip: the checksum taken at candidate (x, y), searched for on the same
      screenshot. When that `long` fits in an `int`, the search finds (x, y) or an earlier
      candidate with the same `int` sum; when it does not, the `int` accumulator of the
      search can never equal it and the search returns (-1, -1). */
  method ChecksumRoundTrip(img: Image, x: int, y: int) returns (rx: int, ry: int)
    requires img.Valid() && InScan(img, x, y)
    ensures InInt32(CandidateChecksum(img, x, y)) ==>
      InScan(img, rx, ry) && ((rx == x && ry == y) || Precedes(rx, ry, x, y))
    ensures !InInt32(CandidateChecksum(img, x, y)) ==> rx == -1 && ry == -1
  {
    CandidateIndexFits(img, x, y);
    var sum := GetPixelsChecksum(img, x, y);
    CandidateWindowInBounds(img, x, y);
    rx, ry := GetCoordinatesWithPixelsChecksum(img, sum.value);
    if InInt32(CandidateChecksum(img, x, y)) {
      ScanFindsFittingChecksum(img, x, y, rx, ry);
    } else {
      ScanMissesWideChecksum(img, x, y, rx, ry);
    }
  }

  /** A scan for the checksum of candidate (x, y) that fits in an `int` succeeds, at (x, y)
      or at an earlier candidate. */
  lemma ScanFindsFittingChecksum(img: Image, x: int, y: int, rx: int, ry: int)
    requires img.Valid() && InScan(img, x, y)
    requires InInt32(CandidateChecksum(img, x, y))
    requires IsScanResult(img, CandidateChecksum(img, x, y), rx, ry)
    ensures InScan(img, rx, ry)
    ensures (rx == x && ry == y) || Precedes(rx, ry, x, y)
  {
    var target := CandidateChecksum(img, x, y);
    assert Matches(img, target, x, y);
  }

  /** A scan for a checksum outside the `int` range never succeeds. */
  lemma ScanMissesWideChecksum(img: Image, x: int, y: int, rx: int, ry: int)
    requires img.Valid() && InScan(img, x, y)
    requires !InInt32(CandidateChecksum(img, x, y))
    requires IsScanResult(img, CandidateChecksum(img, x, y), rx, ry)
    ensures rx == -1 && ry == -1
  {
  }

  /** When no other candidate has the same `int` sum as (x, y), the scan for its checksum
      returns exactly (x, y). */
  lemma ScanFindsUniqueLandmark(img: Image, x: int, y: int, rx: int, ry: int)
    requires img.Valid() && InScan(img, x, y)
    requires InInt32(CandidateChecksum(img, x, y))
    requires forall x', y' :: InScan(img, x', y') && (x' != x || y' != y) ==>
      Wrap32(CandidateChecksum(img, x', y')) != CandidateChecksum(img, x, y)
    requires IsScanResult(img, CandidateChecksum(img, x, y), rx, ry)
    ensures rx == x && ry == y
  {
    ScanFindsFittingChecksum(img, x, y, rx, ry);
  }

  /** A run of pixels that all equal 1 sums to its length. */
  lemma {:induction false} RunSumOfOnes(pixels: seq<int32>, lo: int, hi: int)
    requires 0 <= lo <= hi + 1 && hi < |pixels|
    requires forall i :: lo <= i <= hi ==> pixels[i] == 1
    ensures RunSum(pixels, lo, hi) == hi - lo + 1
    decreases hi - lo
  {
    if lo <= hi {
      RunSumOfOnes(pixels, lo, hi - 1);
    }
  }

  /** A 23 x 4 screenshot whose every pixel is 1. */
  function OnesImage(): (img: Image)
    ensures img.Valid()
  {
    Image(23, 4, seq(92, i => 1))
  }

  /** On a uniform screenshot of ones every window sums to 63, so every candidate matches 63. */
  lemma OnesEveryCandidateMatches(x: int, y: int)
    requires InScan(OnesImage(), x, y)
    ensures Matches(OnesImage(), 63, x, y)
  {
    var img := OnesImage();
    CandidateWindowInBounds(img, x, y);
    var c := y * img.width + x;
    RunSumOfOnes(img.pixels, c - Deviation - img.width, c + Deviation - img.width);
    RunSumOfOnes(img.pixels, c - Deviation, c + Deviation);
    RunSumOfOnes(img.pixels, c - Deviation + img.width, c + Deviation + img.width);
  }

  /** Since every candidate matches, the scan for 63 returns the first candidate in
      row-major order, (Deviation, 1). */
  lemma OnesImageScan(rx: int, ry: int)
    requires IsScanResult(OnesImage(), 63, rx, ry)
    ensures rx == Deviation && ry == 1
  {
    var img := OnesImage();
    assert InScan(img, Deviation, 1);
    OnesEveryCandidateMatches(Deviation, 1);
  }
}
