/**
 * The gate rules the UART and video scripts share: which ranked markers form
 * a gate, whether the gate is seen the right way round, and the symbol for
 * two and for three or more markers.
 */
module Pairing {
  import opened Gates
  import opened Encoding
  import opened Ranking

  /** The symbol a rule settles on: an encoded target or a fixed character. */
  datatype Verdict = Letter(code: int) | Sentinel(symbol: char)

  /** The symbol for "no gate passed". */
  const Unknown := '?'

  /**
   * The ID tests on an ordered pair of markers: IDs (0, 1) or (1, 0), that
   * is, the two IDs are exactly the two posts' IDs.
   */
  function IsPostPair(a: Marker, b: Marker): (r: bool)
    ensures r <==> {a.id, b.id} == {LeftPostId, RightPostId}
  {
    (a.id == LeftPostId && b.id == RightPostId) || (a.id == RightPostId && b.id == LeftPostId)
  }

  /** Of a pair of posts, the one carrying the left post's ID. */
  function LeftPost(a: Marker, b: Marker): Marker
    requires IsPostPair(a, b)
  {
    if a.id == LeftPostId then a else b
  }

  /** Of a pair of posts, the one carrying the right post's ID. */
  function RightPost(a: Marker, b: Marker): Marker
    requires IsPostPair(a, b)
  {
    if a.id == RightPostId then a else b
  }

  /**
   * A pair of posts seen the right way round: the left post's centre is left
   * of the right post's. For IDs (0, 1) that is the first centre left of the
   * second, for IDs (1, 0) the first centre right of the second.
   */
  function GateAligned(a: Marker, b: Marker): (r: bool)
    ensures r <==> || (a.id == LeftPostId && b.id == RightPostId && CentreX(a) < CentreX(b))
                   || (a.id == RightPostId && b.id == LeftPostId && CentreX(a) > CentreX(b))
  {
    IsPostPair(a, b) && CentreX(LeftPost(a, b)) < CentreX(RightPost(a, b))
  }

  /** What the ID and position tests make of one ordered pair of markers. */
  datatype PairCheck = NotAPair | Misaligned | Passed(target: Point)

  /**
   * IDs (0, 1) need the first centre left of the second; IDs (1, 0) need it
   * right of the second. A passing pair's target is the midpoint of the first
   * marker's top-right and the second marker's bottom-left corner.
   */
  function CheckPair(first: Marker, second: Marker): (r: PairCheck)
    ensures r.NotAPair? <==> !IsPostPair(first, second)
    ensures r.Passed? <==> GateAligned(first, second)
    ensures r.Passed? ==> r.target == Midpoint(first, second)
  {
    if first.id == LeftPostId && second.id == RightPostId then
      if CentreX(first) < CentreX(second) then Passed(Midpoint(first, second)) else Misaligned
    else if first.id == RightPostId && second.id == LeftPostId then
      if CentreX(first) > CentreX(second) then Passed(Midpoint(first, second)) else Misaligned
    else NotAPair
  }

  /** The rule for a frame holding exactly two markers, ranked `first` and `second`. */
  function PairVerdict(first: Marker, second: Marker, width: int): (v: Verdict)
    requires width > 0
    ensures v.Letter? <==> GateAligned(first, second)
    ensures v.Letter? ==> v.code == Code(Midpoint(first, second).x, width)
    ensures !v.Letter? ==> v == Sentinel(Unknown)
  {
    match CheckPair(first, second)
    case Passed(target) => Letter(Code(target.x, width))
    case _ => Sentinel(Unknown)
  }

  /**
   * The rule for a frame holding three or more markers: the ID tests run in
   * the order (0, 1) and (1, 0) on ranks 0 and 1, then (1, 0) and (0, 1) on
   * ranks 1 and 2, and the first ID match decides, whatever the positions.
   */
  function TripleVerdict(m0: Marker, m1: Marker, m2: Marker, width: int): (v: Verdict)
    requires width > 0
    ensures IsPostPair(m0, m1) ==> v == PairVerdict(m0, m1, width)
    ensures !IsPostPair(m0, m1) ==> v == PairVerdict(m1, m2, width)
  {
    if m0.id == LeftPostId && m1.id == RightPostId then
      if CentreX(m0) < CentreX(m1) then Letter(Code(Midpoint(m0, m1).x, width)) else Sentinel(Unknown)
    else if m0.id == RightPostId && m1.id == LeftPostId then
      if CentreX(m0) > CentreX(m1) then Letter(Code(Midpoint(m0, m1).x, width)) else Sentinel(Unknown)
    else if m1.id == RightPostId && m2.id == LeftPostId then
      if CentreX(m1) > CentreX(m2) then Letter(Code(Midpoint(m1, m2).x, width)) else Sentinel(Unknown)
    else if m1.id == LeftPostId && m2.id == RightPostId then
      if CentreX(m1) < CentreX(m2) then Letter(Code(Midpoint(m1, m2).x, width)) else Sentinel(Unknown)
    else Sentinel(Unknown)
  }

  /** The gate rule for a frame of two or more ranked markers, as the streaming scripts apply it. */
  function GateVerdict(tags: seq<Marker>, width: int): Verdict
    requires |tags| >= 2 && width > 0
  {
    if |tags| == 2 then PairVerdict(tags[0], tags[1], width) else TripleVerdict(tags[0], tags[1], tags[2], width)
  }

  /** The character `c` is what the verdict `v` prints or sends. */
  predicate Shows(v: Verdict, c: char)
  {
    match v
    case Sentinel(symbol) => c == symbol
    case Letter(code) => c as int == code
  }

  /** Every detected marker's top-right and bottom-left corners lie horizontally within the frame. */
  predicate InFrame(detected: seq<Marker>, width: int)
  {
    forall m :: m in detected ==>
      && 0.0 <= m.corners.topRight.x <= width as real
      && 0.0 <= m.corners.bottomLeft.x <= width as real
  }

  /** The script can produce the character of the verdict `v`. */
  predicate Sendable(v: Verdict)
  {
    v.Letter? ==> IsCharCode(v.code)
  }

  /** A gate seen between two markers inside the frame encodes a character the script can produce. */
  lemma VerdictInFrameIsSendable(first: Marker, second: Marker, width: int)
    requires width > 0 && InFrame([first, second], width)
    ensures Sendable(PairVerdict(first, second, width))
  {
    var x := Midpoint(first, second).x;
    assert first in [first, second] && second in [first, second];
    CodeInFrame(x, width);
  }

  /** Ranking keeps every marker inside the frame. */
  lemma RankedInFrame(detected: seq<Marker>, width: int)
    requires InFrame(detected, width)
    ensures InFrame(Ranked(detected), width)
  {
    RankedIsPermutation(detected);
    forall m | m in Ranked(detected)
      ensures m in detected
    {
      assert m in multiset(Ranked(detected));
    }
  }

  /**
   * With every marker inside the frame, neither the two-marker nor the
   * three-marker rule produces a code without a character.
   */
  lemma InFrameVerdictsAreSendable(tags: seq<Marker>, width: int)
    requires width > 0 && InFrame(tags, width)
    ensures |tags| >= 2 ==> Sendable(PairVerdict(tags[0], tags[1], width))
    ensures |tags| >= 3 ==> Sendable(TripleVerdict(tags[0], tags[1], tags[2], width))
  {
    if |tags| >= 2 {
      assert tags[0] in tags && tags[1] in tags;
      VerdictInFrameIsSendable(tags[0], tags[1], width);
      if |tags| >= 3 {
        assert tags[2] in tags;
        VerdictInFrameIsSendable(tags[1], tags[2], width);
      }
    }
  }

  /** A square marker of side 10 with its top-left corner at (x, 0). */
  function SquareAt(id: int, x: real): Marker
  {
    NewMarker(Corners(Point(x, 0.0), Point(x + 10.0, 0.0), Point(x + 10.0, 10.0), Point(x, 10.0)), id)
  }

  /**
   * A correctly identified but reversed pair at ranks 0 and 1 gives '?' even
   * when ranks 1 and 2 form a correctly aligned gate.
   */
  lemma MisalignedTopPairHidesNextGate()
    ensures exists m0, m1, m2 :: GateAligned(m1, m2) && TripleVerdict(m0, m1, m2, 1000) == Sentinel(Unknown)
  {
    var m0, m1, m2 := SquareAt(LeftPostId, 500.0), SquareAt(RightPostId, 100.0), SquareAt(LeftPostId, 20.0);
    assert CentreX(m0) == 505 && CentreX(m1) == 105 && CentreX(m2) == 25;
    assert GateAligned(m1, m2);
    assert TripleVerdict(m0, m1, m2, 1000) == Sentinel(Unknown);
  }

  /** Whatever the third marker, a post pair at ranks 0 and 1 alone decides the symbol. */
  lemma TopPostPairDecides(m0: Marker, m1: Marker, m2: Marker, m2': Marker, width: int)
    requires width > 0 && IsPostPair(m0, m1)
    ensures TripleVerdict(m0, m1, m2, width) == TripleVerdict(m0, m1, m2', width)
    ensures !GateAligned(m0, m1) ==> TripleVerdict(m0, m1, m2, width) == Sentinel(Unknown)
  {
  }
}
