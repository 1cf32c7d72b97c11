/**
 * The Raspberry Pi script: it writes one-character control symbols to the
 * UART. At start-up it reports whether the camera opened; then, frame by
 * frame, it ranks the detected markers and sends the stop, start, end, gate
 * and no-marker symbols.
 */
module RaspiAruco {
  import opened Gates
  import opened Encoding
  import opened Ranking
  import opened Pairing

  /** Every frame is resized to 1000 x 700 pixels before detection. */
  const FrameWidth := 1000

  const CameraFailed := '%'
  const CameraReady := '<'
  const NoMarkers := '-'
  const StopSignal := '!'
  const StartSignal := '&'
  const EndSignal := '@'

  /** How the frame loop carries on after a frame: next frame, loop left, or the script died. */
  datatype Control = Continue | Quit | Fault

  /** The symbols written during one frame and how the loop carries on. */
  datatype FrameOutcome = FrameOutcome(symbols: seq<char>, control: Control)

  /** Writes a verdict after the symbols `written` so far; an unencodable code kills the script. */
  function Send(written: seq<char>, v: Verdict): (f: FrameOutcome)
    ensures f.control != Quit
    ensures f.control == Continue ==> |f.symbols| == |written| + 1 && f.symbols[..|written|] == written
    ensures f.control == Fault <==> v.Letter? && !IsCharCode(v.code)
    ensures f.control == Fault ==> f.symbols == written
    ensures f.control == Continue ==> Shows(v, f.symbols[|written|])
  {
    match v
    case Sentinel(c) => FrameOutcome(written + [c], Continue)
    case Letter(code) =>
      match Chr(code)
      case Some(c) => FrameOutcome(written + [c], Continue)
      case None => FrameOutcome(written, Fault)
  }

  /**
   * What the script writes for one frame of ranked markers `tags`: '-' for
   * none; '!' alone when the largest is the stop marker; '&' first when it is
   * the start marker; then '@' and the end of the loop for a start-and-stop
   * pair, the two-marker or three-marker gate symbol, or nothing for a lone marker.
   */
  function FrameSignals(tags: seq<Marker>): (f: FrameOutcome)
    ensures |f.symbols| <= 2
    ensures f.control == Quit <==> |tags| == 2 && tags[0].id == StartId && tags[1].id == StopId
    ensures f.control == Quit ==> f.symbols == [StartSignal, EndSignal]
    ensures |tags| == 0 ==> f == FrameOutcome([NoMarkers], Continue)
    ensures |tags| > 0 && tags[0].id == StopId ==> f == FrameOutcome([StopSignal], Continue)
    ensures |tags| > 0 && tags[0].id == StartId ==> |f.symbols| > 0 && f.symbols[0] == StartSignal
    ensures |tags| == 1 && tags[0].id != StopId ==>
              f == FrameOutcome(if tags[0].id == StartId then [StartSignal] else [], Continue)
    ensures |tags| >= 2 && tags[0].id != StopId && f.control == Continue ==>
              && |f.symbols| == (if tags[0].id == StartId then 2 else 1)
              && Shows(GateVerdict(tags, FrameWidth), f.symbols[|f.symbols| - 1])
    ensures f.control == Fault <==> |tags| >= 2 && tags[0].id != StopId && !Sendable(GateVerdict(tags, FrameWidth))
    ensures f.control == Fault ==> f.symbols == if tags[0].id == StartId then [StartSignal] else []
  {
    if |tags| == 0 then FrameOutcome([NoMarkers], Continue)
    else if tags[0].id == StopId then FrameOutcome([StopSignal], Continue)
    else
      var started := if tags[0].id == StartId then [StartSignal] else [];
      if |tags| == 2 then
        var id0, id1 := tags[0].id, tags[1].id;
        if (id0 == StartId && id1 == StopId) || (id0 == StopId && id1 == StartId) then
          FrameOutcome(started + [EndSignal], Quit)
        else
          Send(started, PairVerdict(tags[0], tags[1], FrameWidth))
      else if |tags| >= 3 then
        Send(started, TripleVerdict(tags[0], tags[1], tags[2], FrameWidth))
      else
        FrameOutcome(started, Continue)
  }

  /** Running: the frame loop is going; Ended: the loop was left or never entered; Crashed: the script died. */
  datatype Phase = Running | Ended | Crashed

  /** What an observer of the session sees: its phase and everything written to the UART. */
  datatype SessionState = SessionState(phase: Phase, output: seq<char>)

  function PhaseAfter(c: Control): Phase
  {
    match c
    case Continue => Running
    case Quit => Ended
    case Fault => Crashed
  }

  /** The session right after start-up: '<' and the loop, or '%' and the exit. */
  function Startup(cameraOpen: bool): (s: SessionState)
    ensures s.phase == Running <==> cameraOpen
    ensures s.output == if cameraOpen then [CameraReady] else [CameraFailed]
  {
    if cameraOpen then SessionState(Running, [CameraReady]) else SessionState(Ended, [CameraFailed])
  }

  /** The session after the frame loop has seen one frame's detected markers. */
  function Advance(s: SessionState, detected: seq<Detection>): (t: SessionState)
    ensures s.phase != Running ==> t == s
    ensures |s.output| <= |t.output| <= |s.output| + 2
    ensures t.output[..|s.output|] == s.output
  {
    if s.phase != Running then s
    else
      var f := FrameSignals(Ranked(Records(detected)));
      SessionState(PhaseAfter(f.control), s.output + f.symbols)
  }

  /** The session after the frame loop has seen the frames in order; what was written stays written. */
  function Replay(s: SessionState, frames: seq<seq<Detection>>): (t: SessionState)
    ensures |s.output| <= |t.output| && t.output[..|s.output|] == s.output
    decreases |frames|
  {
    if frames == [] then s
    else
      var u := Advance(s, frames[0]);
      var t := Replay(u, frames[1..]);
      assert t.output[..|s.output|] == t.output[..|u.output|][..|s.output|];
      t
  }

  /** Once the loop is left or the script has died, no later frame changes anything. */
  lemma {:induction false} ReplayWhenStopped(s: SessionState, frames: seq<seq<Detection>>)
    requires s.phase != Running
    ensures Replay(s, frames) == s
    decreases |frames|
  {
    if frames != [] {
      ReplayWhenStopped(Advance(s, frames[0]), frames[1..]);
    }
  }

  lemma {:induction false} ReplayConcat(s: SessionState, earlier: seq<seq<Detection>>, later: seq<seq<Detection>>)
    ensures Replay(s, earlier + later) == Replay(Replay(s, earlier), later)
    decreases |earlier|
  {
    if earlier == [] {
      assert earlier + later == later;
    } else {
      assert (earlier + later)[1..] == earlier[1..] + later;
      ReplayConcat(Advance(s, earlier[0]), earlier[1..], later);
    }
  }

  /** After the end symbol (or a crash), the frames that follow are never processed. */
  lemma EndIsFinal(s: SessionState, earlier: seq<seq<Detection>>, later: seq<seq<Detection>>)
    requires Replay(s, earlier).phase != Running
    ensures Replay(s, earlier + later) == Replay(s, earlier)
  {
    ReplayConcat(s, earlier, later);
    ReplayWhenStopped(Replay(s, earlier), later);
  }

  /** The UART output only grows, by at most two symbols a frame. */
  lemma {:induction false} ReplayAppends(s: SessionState, frames: seq<seq<Detection>>)
    ensures |s.output| <= |Replay(s, frames).output| <= |s.output| + 2 * |frames|
    ensures Replay(s, frames).output[..|s.output|] == s.output
    decreases |frames|
  {
    if frames != [] {
      var t := Advance(s, frames[0]);
      ReplayAppends(t, frames[1..]);
      assert Replay(s, frames).output[..|t.output|][..|s.output|] == Replay(s, frames).output[..|s.output|];
    }
  }

  /** A frame without markers writes '-' and the loop goes on. */
  lemma EmptyFrameSendsDash(s: SessionState)
    requires s.phase == Running
    ensures Advance(s, []) == SessionState(Running, s.output + [NoMarkers])
  {
  }

  /** A lone marker that is neither the start nor the stop marker writes nothing. */
  lemma LoneMarkerIsSilent(s: SessionState, d: Detection)
    requires s.phase == Running && d.id != StartId && d.id != StopId
    ensures Advance(s, [d]) == s
  {
    var m := d.Record();
    assert Records([d]) == [m];
    assert [m][..0] == [];
    assert Ranked([m]) == Insert(Ranked([]), m) == [m];
  }

  /**
   * When the stop marker is strictly the largest detected marker, the frame
   * writes exactly '!' and no gate is evaluated.
   */
  lemma LargestStopMarkerSendsStop(s: SessionState, detected: seq<Detection>, i: int)
    requires s.phase == Running
    requires 0 <= i < |detected| && detected[i].id == StopId
    requires forall j :: 0 <= j < |detected| && j != i ==>
               SquaredDiagonal(detected[j].corners) < SquaredDiagonal(detected[i].corners)
    ensures Advance(s, detected) == SessionState(Running, s.output + [StopSignal])
  {
    StrictlyLargestRanksFirst(Records(detected), i);
  }

  /**
   * A frame of just the start and the stop marker ends the session with "&@"
   * when the start marker ranks first (larger, or as large and detected
   * first); otherwise the stop marker ranks first and the frame writes '!'
   * only, so the stop-then-start order of the end test never fires.
   */
  lemma StartStopPair(s: SessionState, a: Detection, b: Detection)
    requires s.phase == Running
    requires {a.id, b.id} == {StartId, StopId}
    ensures var start := if a.id == StartId then a else b;
            var stop := if a.id == StartId then b else a;
            var startSize, stopSize := SquaredDiagonal(start.corners), SquaredDiagonal(stop.corners);
            var startFirst := stopSize < startSize || (stopSize == startSize && a == start);
            Advance(s, [a, b]) ==
              if startFirst then SessionState(Ended, s.output + [StartSignal, EndSignal])
              else SessionState(Running, s.output + [StopSignal])
  {
    assert Records([a, b]) == [a.Record(), b.Record()];
    RankedPair(a.Record(), b.Record());
  }

  /**
   * A frame of two or more markers, none of them the start or the stop
   * marker, writes exactly the character of its gate symbol, or kills the
   * script, writing nothing, when that symbol's code has no character.
   */
  lemma GateFrameWritesVerdict(s: SessionState, detected: seq<Detection>)
    requires s.phase == Running && |detected| >= 2
    requires forall d :: d in detected ==> d.id != StartId && d.id != StopId
    ensures |Ranked(Records(detected))| == |detected|
    ensures var t, v := Advance(s, detected), GateVerdict(Ranked(Records(detected)), FrameWidth);
            && (Sendable(v) ==> t.phase == Running && |t.output| == |s.output| + 1 && Shows(v, t.output[|s.output|]))
            && (!Sendable(v) ==> t == SessionState(Crashed, s.output))
  {
    var records := Records(detected);
    var tags := Ranked(records);
    RankedIsPermutation(records);
    assert tags[0] in multiset(records);
    var j :| 0 <= j < |records| && records[j] == tags[0];
    assert detected[j] in detected;
  }

  /**
   * Two markers, neither the start nor the stop marker: the frame writes the
   * letter for the target between the ranked pair (the larger first, the
   * first detected on a tie) when they are a pair of posts seen the right way
   * round, and '?' otherwise; an aligned gate whose code has no character
   * kills the script.
   */
  lemma TwoMarkerGateFrame(s: SessionState, a: Detection, b: Detection)
    requires s.phase == Running
    requires a.id != StartId && a.id != StopId && b.id != StartId && b.id != StopId
    ensures var ma, mb := a.Record(), b.Record();
            var ranked := if ma.size < mb.size then (mb, ma) else (ma, mb);
            var code := Code(Midpoint(ranked.0, ranked.1).x, FrameWidth);
            Advance(s, [a, b]) ==
              if !GateAligned(ma, mb) then SessionState(Running, s.output + [Unknown])
              else if IsCharCode(code) then SessionState(Running, s.output + [code as char])
              else SessionState(Crashed, s.output)
  {
    assert Records([a, b]) == [a.Record(), b.Record()];
    RankedPair(a.Record(), b.Record());
  }

  /** With every marker inside the frame, the script never dies on the encoded symbol. */
  lemma InFrameNeverCrashes(s: SessionState, detected: seq<Detection>)
    requires s.phase == Running && InFrame(Records(detected), FrameWidth)
    ensures Advance(s, detected).phase != Crashed
  {
    RankedInFrame(Records(detected), FrameWidth);
    InFrameVerdictsAreSendable(Ranked(Records(detected)), FrameWidth);
  }

  /** One run of the script: the camera check at start-up, then the frame loop. */
  class Session {
    var phase: Phase
    var output: seq<char>

    function State(): SessionState
      reads this
    {
      SessionState(phase, output)
    }

    constructor (cameraOpen: bool)
      ensures State() == Startup(cameraOpen)
    {
      if cameraOpen {
        phase, output := Running, [CameraReady];
      } else {
        phase, output := Ended, [CameraFailed];
      }
    }

    /** Writes a gate verdict: the character, or death of the script where chr fails. */
    method Transmit(v: Verdict)
      requires phase == Running
      modifies this
      ensures var f := Send(old(output), v); State() == SessionState(PhaseAfter(f.control), f.symbols)
    {
      match v
      case Sentinel(c) =>
        output := output + [c];
      case Letter(code) =>
        var c := Chr(code);
        if c.Some? {
          output := output + [c.value];
        } else {
          phase := Crashed;
        }
    }

    /** One pass of the frame loop over the markers detected in a frame. */
    method Step(detected: seq<Detection>)
      modifies this
      ensures State() == Advance(old(State()), detected)
    {
      if phase != Running {
        return;
      }
      var tags := Rank(detected);
      Signal(tags);
    }

    /** The symbols the frame loop writes for a frame's ranked markers. */
    method Signal(tags: seq<Marker>)
      requires phase == Running
      modifies this
      ensures var f := FrameSignals(tags); State() == SessionState(PhaseAfter(f.control), old(output) + f.symbols)
    {
      if |tags| > 0 {
        if tags[0].id == StopId {
          output := output + [StopSignal];
          return;
        }
        if tags[0].id == StartId {
          output := output + [StartSignal];
        }
        if |tags| == 2 {
          var id0, id1 := tags[0].id, tags[1].id;
          if (id0 == StartId && id1 == StopId) || (id0 == StopId && id1 == StartId) {
            output := output + [EndSignal];
            phase := Ended;
            return;
          }
          Transmit(PairVerdict(tags[0], tags[1], FrameWidth));
        }
        if |tags| >= 3 {
          Transmit(TripleVerdict(tags[0], tags[1], tags[2], FrameWidth));
        }
      } else {
        output := output + [NoMarkers];
      }
    }

    /** The frame loop over a finite stretch of the camera's frames; it stops at the end symbol. */
    method Run(frames: seq<seq<Detection>>)
      modifies this
      ensures State() == Replay(old(State()), frames)
    {
      var i := 0;
      while i < |frames| && phase == Running
        invariant 0 <= i <= |frames|
        invariant Replay(State(), frames[i..]) == Replay(old(State()), frames)
      {
        assert frames[i..][1..] == frames[i + 1..];
        Step(frames[i]);
        i := i + 1;
      }
      if i < |frames| {
        ReplayWhenStopped(State(), frames[i..]);
      } else {
        assert frames[i..] == [];
      }
    }
  }
}
