/**
 * The still-image script: one picture, resized to 750 pixels wide, and only
 * the two largest markers judged. A reversed gate gives '-' rather than '?',
 * and a picture without a pair of posts at ranks 0 and 1 leaves the symbol
 * unset, although the closing summary reads it.
 */
module DetectArucoImage {
  import opened Gates
  import opened Encoding
  import opened Ranking
  import opened Pairing

  /** The picture is resized to this width before detection. */
  const ImageWidth := 750

  /** The symbol for a pair of posts seen the wrong way round. */
  const Reversed := '-'

  /**
   * What the script makes of the picture: no marker (no summary at all), a
   * symbol for the summary, no symbol set at all, or a code with no character.
   */
  datatype ImageOutcome = NoTags | Reported(verdict: Verdict) | Unset | Fault

  /** The outcome for the picture's markers ranked as `tags`. */
  function ImageResult(tags: seq<Marker>): (r: ImageOutcome)
    ensures r == NoTags <==> |tags| == 0
    ensures r.Reported? ==> |tags| >= 2 && IsPostPair(tags[0], tags[1])
    ensures r.Reported? ==> (r.verdict.Letter? <==> GateAligned(tags[0], tags[1]))
    ensures r.Reported? && r.verdict.Letter? ==>
              r.verdict.code == Code(Midpoint(tags[0], tags[1]).x, ImageWidth) && IsCharCode(r.verdict.code)
    ensures r.Reported? && !r.verdict.Letter? ==> r.verdict == Sentinel(Reversed)
  {
    if |tags| == 0 then NoTags
    else if |tags| == 1 then Unset
    else
      match CheckPair(tags[0], tags[1])
      case NotAPair => Unset
      case Misaligned => Reported(Sentinel(Reversed))
      case Passed(target) =>
        var code := Code(target.x, ImageWidth);
        if IsCharCode(code) then Reported(Letter(code)) else Fault
  }

  /** Markers ranked below the second never change the outcome. */
  lemma LaterMarkersIgnored(tags: seq<Marker>, other: seq<Marker>)
    requires |tags| >= 2 && |other| >= 2 && tags[..2] == other[..2]
    ensures ImageResult(tags) == ImageResult(other)
  {
    assert tags[0] == other[0] && tags[1] == other[1];
  }

  /** The symbol stays unset exactly for a lone marker and for two top-ranked markers that are not a pair of posts. */
  lemma UnsetExactly(tags: seq<Marker>)
    ensures ImageResult(tags) == Unset <==> |tags| == 1 || (|tags| >= 2 && !IsPostPair(tags[0], tags[1]))
  {
  }

  /** The script dies on the character exactly for an aligned gate whose code has none. */
  lemma FaultExactly(tags: seq<Marker>)
    ensures ImageResult(tags) == Fault <==>
              |tags| >= 2 && GateAligned(tags[0], tags[1]) && !IsCharCode(Code(Midpoint(tags[0], tags[1]).x, ImageWidth))
  {
  }

  /** With every marker inside the picture, a pair of posts at ranks 0 and 1 always gets a symbol printed. */
  lemma InFramePostsAreReported(detected: seq<Marker>)
    requires InFrame(detected, ImageWidth)
    requires |Ranked(detected)| >= 2 && IsPostPair(Ranked(detected)[0], Ranked(detected)[1])
    ensures ImageResult(Ranked(detected)).Reported?
  {
    var tags := Ranked(detected);
    RankedIsPermutation(detected);
    assert tags[0] in multiset(detected) && tags[1] in multiset(detected);
    assert InFrame([tags[0], tags[1]], ImageWidth);
    VerdictInFrameIsSendable(tags[0], tags[1], ImageWidth);
  }

  /**
   * Where the still-image script and the two-marker rule of the streaming
   * scripts part: a reversed pair of posts is '-' here and '?' there.
   */
  lemma ReversedPairIsDash(first: Marker, second: Marker)
    requires IsPostPair(first, second) && !GateAligned(first, second)
    ensures ImageResult([first, second]) == Reported(Sentinel(Reversed))
    ensures PairVerdict(first, second, 1000) == Sentinel(Unknown)
  {
  }

  /**
   * Judges the picture's detected markers: ranks them in place, then runs the
   * ID and position tests on the two largest.
   */
  method ProcessImage(detected: seq<Detection>) returns (r: ImageOutcome)
    ensures r == ImageResult(Ranked(Records(detected)))
  {
    var tags := Rank(detected);
    if |tags| == 0 {
      return NoTags;
    }
    var asc: Option<Verdict> := None;
    if |tags| >= 2 {
      var centre0, centre1 := CentreX(tags[0]), CentreX(tags[1]);
      var target := Midpoint(tags[0], tags[1]);
      if tags[0].id == LeftPostId && tags[1].id == RightPostId {
        if centre0 < centre1 {
          asc := Some(Letter(Code(target.x, ImageWidth)));
        } else {
          asc := Some(Sentinel(Reversed));
        }
      } else if tags[0].id == RightPostId && tags[1].id == LeftPostId {
        if centre0 > centre1 {
          asc := Some(Letter(Code(target.x, ImageWidth)));
        } else {
          asc := Some(Sentinel(Reversed));
        }
      }
    }
    match asc
    case None =>
      r := Unset;
    case Some(v) =>
      r := if v.Letter? && Chr(v.code).None? then Fault else Reported(v);
  }
}
