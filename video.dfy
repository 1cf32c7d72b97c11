/**
 * The desktop video script: the same ranking and gate rules as the UART
 * script, but its symbols only go to the console and the overlay. It has no
 * '-' for an empty frame and no end symbol: only a key press ends its loop.
 */
module DetectArucoVideo {
  import opened Gates
  import opened Encoding
  import opened Ranking
  import opened Pairing
  import RaspiAruco

  /** Every frame is resized to 1000 x 700 pixels before detection. */
  const FrameWidth := 1000

  /** What the script reports for one frame: the start and stop messages and the gate symbol. */
  datatype FrameReport = FrameReport(startShown: bool, stopShown: bool, verdict: Option<Verdict>)

  /**
   * The report for one frame of ranked markers `tags`. The start message does
   * not cut the frame short; the stop message does, before any gate rule runs.
   */
  function VideoFrame(tags: seq<Marker>): (r: FrameReport)
    ensures r.startShown <==> |tags| > 0 && tags[0].id == StartId
    ensures r.stopShown <==> |tags| > 0 && tags[0].id == StopId
    ensures r.verdict.Some? <==> |tags| >= 2 && tags[0].id != StopId
    ensures r.verdict.Some? ==> r.verdict.value == GateVerdict(tags, FrameWidth)
  {
    if |tags| == 0 then FrameReport(false, false, None)
    else
      var started := tags[0].id == StartId;
      if tags[0].id == StopId then FrameReport(started, true, None)
      else if |tags| == 2 then FrameReport(started, false, Some(PairVerdict(tags[0], tags[1], FrameWidth)))
      else if |tags| >= 3 then FrameReport(started, false, Some(TripleVerdict(tags[0], tags[1], tags[2], FrameWidth)))
      else FrameReport(started, false, None)
  }

  /**
   * With the start marker ranked first, the gate rules still run on the same
   * frame: two markers always give '?', since the start marker is no post,
   * and three or more leave the decision to ranks 1 and 2.
   */
  lemma StartMarkerDoesNotSkipGates(tags: seq<Marker>)
    requires |tags| >= 2 && tags[0].id == StartId
    ensures VideoFrame(tags).startShown
    ensures |tags| == 2 ==> VideoFrame(tags).verdict == Some(Sentinel(Unknown))
    ensures |tags| >= 3 ==> VideoFrame(tags).verdict == Some(PairVerdict(tags[1], tags[2], FrameWidth))
  {
  }

  /** A start-and-stop pair ends nothing here: the frame shows the start message and '?'. */
  lemma StartStopPairDoesNotEnd(tags: seq<Marker>)
    requires |tags| == 2 && tags[0].id == StartId && tags[1].id == StopId
    ensures VideoFrame(tags) == FrameReport(true, false, Some(Sentinel(Unknown)))
  {
  }

  /**
   * Where a frame holding markers of both scripts' kinds meets the UART
   * script: whenever that script carries on after a frame of two or more
   * markers without the stop marker first, its last symbol is the video
   * script's gate symbol, and it sent two symbols, '&' first, exactly when the
   * video script shows the start message.
   */
  lemma SameSymbolAsUart(tags: seq<Marker>)
    requires |tags| >= 2 && tags[0].id != StopId
    requires RaspiAruco.FrameSignals(tags).control == RaspiAruco.Continue
    ensures var sent := RaspiAruco.FrameSignals(tags).symbols;
            && |sent| > 0
            && VideoFrame(tags).verdict.Some?
            && Shows(VideoFrame(tags).verdict.value, sent[|sent| - 1])
            && |sent| == (if VideoFrame(tags).startShown then 2 else 1)
            && (VideoFrame(tags).startShown ==> sent[0] == RaspiAruco.StartSignal)
  {
  }

  /**
   * The frame kills the script: a gate symbol is due, two or more markers
   * without the stop marker first, and its code has no character to print.
   */
  function FrameFails(tags: seq<Marker>): (r: bool)
    ensures r <==> |tags| >= 2 && tags[0].id != StopId && !Sendable(GateVerdict(tags, FrameWidth))
  {
    var v := VideoFrame(tags).verdict;
    v.Some? && !Sendable(v.value)
  }

  /**
   * The watch so far: the frames reported, and whether the script has died
   * (on the last of them, whose gate symbol was then never printed).
   */
  datatype Watched = Watched(reports: seq<FrameReport>, failed: bool)

  /** Before the first frame: nothing reported. */
  const Start := Watched([], false)

  /** The watch after one more frame of detected markers; nothing changes once the script has died. */
  function WatchStep(w: Watched, detected: seq<Detection>): (v: Watched)
    ensures w.failed ==> v == w
    ensures !w.failed ==> |v.reports| == |w.reports| + 1 && v.reports[..|w.reports|] == w.reports
    ensures !w.failed ==>
              && v.reports[|w.reports|] == VideoFrame(Ranked(Records(detected)))
              && (v.failed <==> FrameFails(Ranked(Records(detected))))
  {
    if w.failed then w
    else
      var tags := Ranked(Records(detected));
      Watched(w.reports + [VideoFrame(tags)], FrameFails(tags))
  }

  /** The watch after the frames of detected markers `frames`, in order. */
  function Replay(w: Watched, frames: seq<seq<Detection>>): (v: Watched)
    ensures |w.reports| <= |v.reports| <= |w.reports| + |frames|
    decreases |frames|
  {
    if frames == [] then w else Replay(WatchStep(w, frames[0]), frames[1..])
  }

  /** Once the script has died, no later frame changes anything. */
  lemma {:induction false} ReplayWhenFailed(w: Watched, frames: seq<seq<Detection>>)
    requires w.failed
    ensures Replay(w, frames) == w
    decreases |frames|
  {
    if frames != [] {
      ReplayWhenFailed(w, frames[1..]);
    }
  }

  /**
   * Watching more frames only adds reports: the earlier ones stay, one is
   * added per frame, and every frame is reported unless the script dies.
   */
  lemma {:induction false} ReplayExtends(w: Watched, frames: seq<seq<Detection>>)
    ensures var v, n := Replay(w, frames), |w.reports|;
            && v.reports[..n] == w.reports
            && (!v.failed ==> |v.reports| == n + |frames|)
    decreases |frames|
  {
    if frames != [] {
      var u := WatchStep(w, frames[0]);
      ReplayExtends(u, frames[1..]);
      var v, n := Replay(u, frames[1..]), |w.reports|;
      if !w.failed {
        assert v.reports[..n] == v.reports[..n + 1][..n];
      } else {
        ReplayWhenFailed(w, frames);
      }
    }
  }

  /** The report at index `i` is that of the frame at the same place, ranked and judged on its own. */
  lemma {:induction false} ReplayReportAt(w: Watched, frames: seq<seq<Detection>>, i: int)
    requires !w.failed
    requires |w.reports| <= i < |Replay(w, frames).reports|
    ensures Replay(w, frames).reports[i] == VideoFrame(Ranked(Records(frames[i - |w.reports|])))
    decreases |frames|
  {
    var n := |w.reports|;
    var u := WatchStep(w, frames[0]);
    ReplayExtends(u, frames[1..]);
    if i == n {
      assert Replay(w, frames).reports[..n + 1][n] == u.reports[n];
    } else if u.failed {
      ReplayWhenFailed(u, frames[1..]);
    } else {
      ReplayReportAt(u, frames[1..], i);
      assert frames[1..][i - (n + 1)] == frames[i - n];
    }
  }

  /** When the script dies, it dies on the last frame reported, whose code has no character. */
  lemma {:induction false} ReplayFailsOnLast(w: Watched, frames: seq<seq<Detection>>)
    requires !w.failed
    ensures var v, n := Replay(w, frames), |w.reports|;
            v.failed ==> n < |v.reports| && FrameFails(Ranked(Records(frames[|v.reports| - n - 1])))
    decreases |frames|
  {
    if frames != [] {
      var n := |w.reports|;
      var u := WatchStep(w, frames[0]);
      if u.failed {
        ReplayWhenFailed(u, frames[1..]);
      } else {
        ReplayFailsOnLast(u, frames[1..]);
        var v := Replay(u, frames[1..]);
        if v.failed {
          assert frames[1..][|v.reports| - (n + 1) - 1] == frames[|v.reports| - n - 1];
        }
      }
    }
  }

  /**
   * A frame that kills the script ends the watch: once the watch reaches the
   * frame at index `i`, nothing after it is reported.
   */
  lemma {:induction false} FailingFrameKills(w: Watched, frames: seq<seq<Detection>>, i: int)
    requires !w.failed && 0 <= i < |frames|
    requires FrameFails(Ranked(Records(frames[i])))
    ensures Replay(w, frames).failed
    ensures |Replay(w, frames).reports| <= |w.reports| + i + 1
    decreases |frames|
  {
    var u := WatchStep(w, frames[0]);
    if u.failed {
      ReplayWhenFailed(u, frames[1..]);
    } else {
      assert i != 0;
      assert frames[1..][i - 1] == frames[i];
      FailingFrameKills(u, frames[1..], i - 1);
    }
  }

  /**
   * With every marker inside the frame the script never dies on a gate
   * symbol's character: markers alone never end the watch, and every frame
   * is reported.
   */
  lemma {:induction false} InFrameWatchNeverFails(w: Watched, frames: seq<seq<Detection>>)
    requires !w.failed
    requires forall i :: 0 <= i < |frames| ==> InFrame(Records(frames[i]), FrameWidth)
    ensures !Replay(w, frames).failed
    decreases |frames|
  {
    if frames != [] {
      var tags := Ranked(Records(frames[0]));
      assert InFrame(Records(frames[0]), FrameWidth);
      RankedInFrame(Records(frames[0]), FrameWidth);
      InFrameVerdictsAreSendable(tags, FrameWidth);
      assert !FrameFails(tags);
      assert forall i :: 0 <= i < |frames[1..]| ==> frames[1..][i] == frames[i + 1];
      InFrameWatchNeverFails(WatchStep(w, frames[0]), frames[1..]);
    }
  }

  /** One pass of the loop body: ranks the frame's markers in place and judges them. */
  method WatchFrame(detected: seq<Detection>) returns (report: FrameReport, fails: bool)
    ensures report == VideoFrame(Ranked(Records(detected)))
    ensures fails == FrameFails(Ranked(Records(detected)))
  {
    var tags := Rank(detected);
    report := VideoFrame(tags);
    fails := report.verdict.Some? && report.verdict.value.Letter? && Chr(report.verdict.value.code).None?;
  }

  /**
   * The watch loop over a finite stretch of frames: each frame's markers are
   * ranked in place and reported, until a frame kills the script.
   */
  method Watch(frames: seq<seq<Detection>>) returns (reports: seq<FrameReport>, failed: bool)
    ensures Watched(reports, failed) == Replay(Start, frames)
  {
    reports, failed := [], false;
    var i := 0;
    while i < |frames| && !failed
      invariant 0 <= i <= |frames|
      invariant Replay(Watched(reports, failed), frames[i..]) == Replay(Start, frames)
    {
      assert frames[i..][0] == frames[i] && frames[i..][1..] == frames[i + 1..];
      var report, fails := WatchFrame(frames[i]);
      reports, failed := reports + [report], fails;
      i := i + 1;
    }
    if failed {
      ReplayWhenFailed(Watched(reports, failed), frames[i..]);
    } else {
      assert frames[i..] == [];
    }
  }
}
