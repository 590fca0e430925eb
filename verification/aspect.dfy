/** Aspect-ratio classification of a probed video and the object-key prefix
    each class is stored under. */
module Aspect {

  const Landscape: string := "16:9"
  const Portrait: string := "9:16"
  const Other: string := "other"

  /** Geometry of one stream as the probe tool reports it. */
  datatype Stream = Stream(width: int, height: int)

  /** What the probe step yields: an error (tool failure or unparsable
      output) or the list of streams it parsed, possibly empty. */
  datatype Probe = ProbeFailed | Probed(streams: seq<Stream>)

  /** The classification on exact integers. The ratio `width / height` is
      compared with the open windows (1.77, 1.79) and (0.56, 0.57) by
      cross-multiplying with the height; a negative height flips both
      operands so that the comparison keeps its direction, and a zero height
      falls into neither window. */
  function Classify(width: int, height: int): string {
    var (w, h) := if height < 0 then (-width, -height) else (width, height);
    if 177 * h < 100 * w && 100 * w < 179 * h then Landscape
    else if 56 * h < 100 * w && 100 * w < 57 * h then Portrait
    else Other
  }

  /** Every stream gets one of the three labels. */
  lemma ClassifyIsOneOfThree(width: int, height: int)
    ensures Classify(width, height) in {Landscape, Portrait, Other}
  {
  }

  /** The source's rule stated on the ratio itself, with exact reals. */
  function LabelOfRatio(ratio: real): string {
    if 1.77 < ratio < 1.79 then Landscape
    else if 0.56 < ratio < 0.57 then Portrait
    else Other
  }

  /** Reference classification by division. A zero height makes the
      floating-point ratio infinite or not-a-number, which lies in neither
      window. */
  function RatioLabel(width: int, height: int): string {
    if height == 0 then Other else LabelOfRatio(width as real / height as real)
  }

  /** Multiplying through by a positive denominator keeps a comparison. */
  lemma CompareQuotient(n: real, d: real, c: real)
    requires d > 0.0
    ensures n / d > c <==> n > c * d
    ensures n / d < c <==> n < c * d
  {
    var q := n / d;
    assert q * d == n;
    if q > c {
      assert q * d > c * d;
    } else {
      assert q * d <= c * d;
    }
    if q < c {
      assert q * d < c * d;
    } else {
      assert q * d >= c * d;
    }
  }

  /** The integer classification agrees with classifying the exact ratio,
      for every width and every height. */
  lemma ClassifyMatchesRatio(width: int, height: int)
    ensures Classify(width, height) == RatioLabel(width, height)
  {
    if height != 0 {
      var (w, h) := if height < 0 then (-width, -height) else (width, height);
      var n, d := w as real, h as real;
      assert width as real / height as real == n / d;
      CompareQuotient(n, d, 1.77);
      CompareQuotient(n, d, 1.79);
      CompareQuotient(n, d, 0.56);
      CompareQuotient(n, d, 0.57);
    }
  }

  /** For a non-zero height the label names exactly the window the ratio
      lies in, and `"other"` exactly when it lies in neither. */
  lemma ClassifyWindows(width: int, height: int)
    requires height != 0
    ensures var r := width as real / height as real;
      && (Classify(width, height) == Landscape <==> 1.77 < r < 1.79)
      && (Classify(width, height) == Portrait <==> 0.56 < r < 0.57)
      && (Classify(width, height) == Other <==> !(1.77 < r < 1.79) && !(0.56 < r < 0.57))
  {
    ClassifyMatchesRatio(width, height);
  }

  /** The window ends are excluded: a ratio of exactly 1.77, 1.79, 0.56 or
      0.57 is `"other"`, and so is every zero height. */
  lemma BoundariesAreOther(width: int, height: int)
    requires height == 0 || (var r := width as real / height as real;
      r == 1.77 || r == 1.79 || r == 0.56 || r == 0.57)
    ensures Classify(width, height) == Other
  {
    ClassifyMatchesRatio(width, height);
  }

  /** The label the upload handler goes on with. The probe error is
      discarded, so a failed probe leaves the empty label; an empty stream
      list has no first stream (the caller deals with that case). */
  function ProbeLabel(probe: Probe): string
    requires probe.Probed? ==> |probe.streams| > 0
  {
    match probe
    case ProbeFailed => ""
    case Probed(streams) => Classify(streams[0].width, streams[0].height)
  }

  /** The prefix map: the three labels name the three key prefixes, and a
      missing entry reads as the empty string. */
  function Prefix(category: string): string {
    var prefixes := map[Landscape := "landscape", Portrait := "portrait", Other := "other"];
    if category in prefixes then prefixes[category] else ""
  }

  /** The prefix map sends each label to its own prefix and everything else
      to the empty string; no prefix holds a slash or a comma, so it can
      head an object key inside a comma-separated locator. */
  lemma PrefixMap(category: string)
    ensures category == Landscape <==> Prefix(category) == "landscape"
    ensures category == Portrait <==> Prefix(category) == "portrait"
    ensures category == Other <==> Prefix(category) == "other"
    ensures category !in {Landscape, Portrait, Other} <==> Prefix(category) == ""
    ensures '/' !in Prefix(category) && ',' !in Prefix(category)
  {
  }

  /** Every classification has a prefix, and distinct classes get distinct
      prefixes. */
  lemma PrefixOfClassification(width: int, height: int)
    ensures Prefix(Classify(width, height)) in {"landscape", "portrait", "other"}
    ensures Classify(width, height) == Landscape <==> Prefix(Classify(width, height)) == "landscape"
    ensures Classify(width, height) == Portrait <==> Prefix(Classify(width, height)) == "portrait"
  {
  }

  /** A failed probe yields the empty label, and hence the empty prefix; a
      successful one yields neither. */
  lemma PrefixOfProbe(probe: Probe)
    requires probe.Probed? ==> |probe.streams| > 0
    ensures ProbeLabel(probe) == "" <==> probe.ProbeFailed?
    ensures Prefix(ProbeLabel(probe)) == "" <==> probe.ProbeFailed?
  {
    if probe.Probed? {
      ClassifyIsOneOfThree(probe.streams[0].width, probe.streams[0].height);
    }
  }
}
