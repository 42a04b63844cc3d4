/** The image-size derivation of a generation task: the aspect ratio parsed
    from a `"w:h"` string with its fallback to 1:1, and the snapping of each
    side to a multiple of the model's 32-pixel patch. The floating-point part
    between the two (square root, division, rounding) is supplied by the
    caller as `Sizer`. */
module Sizing {
  import opened Wrappers
  import opened PyStr

  /** Both sides of a generated image are multiples of this. */
  const ALIGNMENT := 32

  /** The aspect used when the ratio string cannot be used. */
  const DEFAULT_ASPECT: real := 1.0

  /** The default ratio string of a request. */
  const SQUARE_RATIO := "1:1"

  /** Python's `float(text)`: `None` where it raises. */
  type FloatParser = string -> Option<real>

  /** The floating-point step from (megapixels, aspect) to the rounded
      quotients `round(h / 32.0)` and `round(w / 32.0)`, or the exception it
      raises: `ZeroDivisionError` from `target_total_pixels / aspect_ratio`
      when the aspect is 0 (a ratio such as `"0:1"` passes the ratio parsing
      and fails here), the `ValueError` of `math.sqrt` on a negative argument,
      or the error of `round` on an infinite or undefined value. */
  type Sizer = (real, real) -> Outcome<(int, int)>

  /** The ratio splits on `:` into exactly two fields, both parse, and the
      denominator is not zero: the only case where no exception is raised. */
  predicate WellFormedRatio(ratio: string, parse: FloatParser)
  {
    var fields := Split(ratio, ':');
    |fields| == 2 && parse(fields[0]).Some? && parse(fields[1]).Some?
      && parse(fields[1]).value != 0.0
  }

  /** `rw, rh = ratio.split(':'); aspect = float(rw) / float(rh)`, with every
      exception caught and replaced by 1.0. */
  function AspectRatio(ratio: string, parse: FloatParser): (aspect: real)
    ensures !WellFormedRatio(ratio, parse) ==> aspect == DEFAULT_ASPECT
    ensures WellFormedRatio(ratio, parse) ==>
      aspect * parse(Split(ratio, ':')[1]).value == parse(Split(ratio, ':')[0]).value
  {
    var fields := Split(ratio, ':');
    if |fields| != 2 then DEFAULT_ASPECT
    else match parse(fields[0])
      case None => DEFAULT_ASPECT
      case Some(w) =>
        match parse(fields[1])
        case None => DEFAULT_ASPECT
        case Some(h) => if h == 0.0 then DEFAULT_ASPECT else w / h
  }

  /** A ratio string has the two fields it needs exactly when it holds one
      colon. */
  lemma TwoFieldsIffOneColon(ratio: string)
    ensures |Split(ratio, ':')| == 2 <==> Occurrences(ratio, ':') == 1
  {
  }

  /** The default ratio `"1:1"` splits into two `"1"` fields. */
  lemma SquareRatioFields()
    ensures Split(SQUARE_RATIO, ':') == ["1", "1"]
  {
    assert SQUARE_RATIO == "1" + [':'] + "1";
    SplitAfterField("1", "1", ':');
    SplitSeparatorFree("1", ':');
  }

  /** A ratio that cannot be used gives the same aspect as `"1:1"`. */
  lemma MalformedRatioIsSquare(ratio: string, parse: FloatParser)
    requires !WellFormedRatio(ratio, parse)
    requires parse("1") == Some(1.0)
    ensures AspectRatio(ratio, parse) == AspectRatio(SQUARE_RATIO, parse) == DEFAULT_ASPECT
  {
    SquareRatioFields();
  }

  /** `max(32, int(round(x / 32.0)) * 32)` given the rounded quotient `k`:
      the least multiple of 32 that is at least 32 and at least `32 * k`. */
  function Snap(k: int): (side: int)
    ensures side % ALIGNMENT == 0 && side >= ALIGNMENT && side >= ALIGNMENT * k
    ensures side == ALIGNMENT * k || side == ALIGNMENT
  {
    if k * ALIGNMENT >= ALIGNMENT then k * ALIGNMENT else ALIGNMENT
  }

  /** Snapping never shrinks when the quotient grows. */
  lemma SnapMonotone(j: int, k: int)
    requires j <= k
    ensures Snap(j) <= Snap(k)
  {
  }

  /** Re-snapping a snapped side changes nothing. */
  lemma SnapFixedPoint(k: int)
    ensures Snap(Snap(k) / ALIGNMENT) == Snap(k)
  {
  }

  /** The `(height, width)` handed to the pipeline, or the exception raised
      by the floating-point step. */
  function Dimensions(ratio: string, megapixels: real, parse: FloatParser, sizer: Sizer): (dims: Outcome<(int, int)>)
    ensures dims.Done? ==> dims.value.0 % ALIGNMENT == 0 && dims.value.0 >= ALIGNMENT
    ensures dims.Done? ==> dims.value.1 % ALIGNMENT == 0 && dims.value.1 >= ALIGNMENT
    ensures dims.Done? <==> sizer(megapixels, AspectRatio(ratio, parse)).Done?
    ensures dims.Done? ==>
      var q := sizer(megapixels, AspectRatio(ratio, parse)).value;
      dims.value == (Snap(q.0), Snap(q.1))
    ensures dims.Raised? ==> dims.error == sizer(megapixels, AspectRatio(ratio, parse)).error
  {
    match sizer(megapixels, AspectRatio(ratio, parse))
    case Raised(e) => Raised(e)
    case Done((qh, qw)) => Done((Snap(qh), Snap(qw)))
  }

  /** A ratio that cannot be used gives the same size as `"1:1"` for the same
      megapixel target. */
  lemma MalformedRatioSameSize(ratio: string, megapixels: real, parse: FloatParser, sizer: Sizer)
    requires !WellFormedRatio(ratio, parse)
    requires parse("1") == Some(1.0)
    ensures Dimensions(ratio, megapixels, parse, sizer) == Dimensions(SQUARE_RATIO, megapixels, parse, sizer)
  {
    MalformedRatioIsSquare(ratio, parse);
  }
}
