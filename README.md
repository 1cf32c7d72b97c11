# ArUco gate detection: the gate-decision core in Dafny

The repository drives a small vehicle through gates made of ArUco markers. Each
gate is two posts: marker ID 0 on the left and marker ID 1 on the right. Marker
ID 2 means start and ID 3 means stop. Three scripts turn the markers detected in
a picture into a one-character symbol:

- `src/raspiaruco.py` sends the symbols over a UART to the motor controller.
- `src/detectarucovideo.py` prints them for a desktop camera.
- `src/detectarucoimage.py` judges a single photograph.

This project models the part the three scripts share, and how each script
differs.

- **Marker record and ranking (`Gates`, `Ranking`).** The detector reports
  each marker as a `Detection`: its corners and its ID. The script makes a
  record of each detection, and the record's size is computed from the
  corners (`NewMarker`, `Records`). The detected markers are sorted in place,
  largest first, and markers of equal size keep their detection order.
  `Ranking.RankInPlace` is an insertion sort on an `array<Marker>`. It is proved
  equal to the functional `Ranked`, which is proved to be a permutation, in
  descending order and stable.
- **Centres, target and symbol (`Gates`, `Encoding`).**
  - A centre is the mean of the corners, truncated toward zero.
  - The target is halfway between the first marker's top-right corner and the
    second marker's bottom-left corner.
  - The symbol is `chr(trunc(x * 25 / width + 64))`.
- **Gate rules (`Pairing`).**
  - With two markers, the pair at ranks 0 and 1 is judged.
  - With three or more markers, an ID-driven chain tries ranks (0, 1) and then
    ranks (1, 2). The first ID match decides, even when that pair is the wrong
    way round.
- **UART script (`RaspiAruco`).**
  - A `Session` object holds the loop's phase and everything written to the
    UART.
  - Its constructor sends `%` or `<` after the camera check.
  - `Step` handles one frame: `-` for no marker, `!` for the stop marker, `&`
    for the start marker, `&@` and the end of the loop for a start-and-stop
    pair, otherwise the gate symbol.
  - `Run` handles a finite sequence of frames.
  - Each method is proved against a state-transition function (`Advance`,
    `Replay`), and the protocol properties are proved about those functions.
- **Video script (`DetectArucoVideo`).** It uses the same rules, but it has no
  `-` and no end symbol: a start-and-stop pair ranked start first shows the
  start message and `?`, and the loop goes on.
  `Watch` handles a finite sequence of frames. It is proved against `Replay`,
  and a lemma ties its symbols to the UART script's.
- **Image script (`DetectArucoImage`).**
  - Only ranks 0 and 1 count.
  - A reversed pair gives `-`.
  - A picture without a pair of posts at ranks 0 and 1 leaves the symbol unset,
    although the closing summary prints it.

Each script crashes when `chr` or the encoding for sending or printing fails.
The model shows this as an outcome of its own: `Fault`, `Crashed` or `failed`.
It is proved that this never happens while the markers lie inside the frame.

Two facts about the code that its comments do not spell out, both modelled as
the code has them:

- The comment at src/raspiaruco.py:96-97 speaks of 25 sections and 26
  characters, 0-25. With the offset of 64, bin 0 is `@`, the last bin inside
  the frame is `X`, and a point on the right edge is `Y`; no target in or on the frame gives `Z`.
- The UART script can write two symbols in one frame. When the start marker
  ranks first in a frame of two or more markers, `&` goes out first, then `@`
  for a start-and-stop pair or the gate symbol when its code has a character.
  A lone start marker writes `&` only.

## Model

| member | source | states |
|---|---|---|
| Gates.NewMarker | src/raspiaruco.py:14-18 | The marker record keeps the corners and the ID. Its size is the squared top-left to bottom-right diagonal, which is never negative. The video and image scripts' `gate` classes are the same. |
| Gates.Records | src/raspiaruco.py:86-89 | The frame's records are one per detection, in detection order; each keeps its detection's corners and ID, and its size is the squared diagonal of those corners. |
| Gates.SquaresOrderLikeLengths | src/raspiaruco.py:18 | For non-negative lengths, `d <= e` exactly when `d*d <= e*e`, and `d == e` exactly when `d*d == e*e`. |
| Gates.SizeOrdersLikeDiagonal | src/raspiaruco.py:18 | For any diagonal lengths `d1`, `d2` (the non-negative roots of the squared diagonals), one marker's size is at most, or equal to, the other's exactly when its diagonal length is. So sorting by size and by `cv2.norm` give the same order, ties included. |
| Gates.Trunc | src/raspiaruco.py:148 | `int()` drops the fraction: the result is within 1 of its argument, toward zero, on both sides of 0. |
| Gates.CentreX | src/raspiaruco.py:124-125 | A centre's x is the corner mean truncated toward zero (`astype(int)`), within 1 of the mean on the side toward zero. |
| Gates.Midpoint | src/raspiaruco.py:21-29 | The target is equidistant from the first marker's top-right and the second marker's bottom-left corner in x and y, and lies between them in x. |
| Ranking.Insert | src/raspiaruco.py:92 | One insertion step of the stable sort makes the list one marker longer; which marker lands where is stated by `InsertIsPermutation`, `InsertIsDescending` and `InsertKeepsOrderOfSize`. |
| Ranking.Ranked | src/raspiaruco.py:92 | The sort keeps the number of markers; that it is a permutation, descending and stable is stated by `RankedIsPermutation`, `RankedIsDescending` and `RankedIsStable`. |
| Ranking.RankedIsPermutation | src/raspiaruco.py:86-92 | Ranking neither drops nor invents markers: same length, same multiset. |
| Ranking.RankedIsDescending | src/raspiaruco.py:92 | Ranked markers are in non-increasing size order (`reverse = True`). |
| Ranking.RankedIsStable | src/raspiaruco.py:92 | For every size, the markers of that size keep their detection order, as Python's stable sort does. |
| Ranking.InsertIsPermutation | src/raspiaruco.py:92 | One insertion step adds exactly the inserted marker. |
| Ranking.InsertIsDescending | src/raspiaruco.py:92 | Insertion into a descending list keeps it descending. |
| Ranking.InsertKeepsOrderOfSize | src/raspiaruco.py:92 | Insertion puts the new marker after every marker of its own size. |
| Ranking.RankedHeadIsLargest | src/raspiaruco.py:92 | The marker ranked first is a detected marker at least as large as every detected marker. |
| Ranking.StrictlyLargestRanksFirst | src/raspiaruco.py:92 | A marker strictly larger than all others is ranked first. |
| Ranking.RankedPair | src/raspiaruco.py:92 | Two markers swap only when the second is strictly larger. |
| Ranking.InsertInPlace | src/raspiaruco.py:92 | Shifting the marker at `i` left past the smaller markers before it leaves the first `i+1` slots equal to the functional insertion, and the rest of the array unchanged. |
| Ranking.RankInPlace | src/raspiaruco.py:92 | The in-place sort leaves the array equal to `Ranked` of its old contents, so it is a stable descending permutation. |
| Ranking.Rank | src/raspiaruco.py:86-92 | Building a record for each detection with `NewMarker`, then sorting the list in place, gives `Ranked(Records(detected))`. The same step is at src/detectarucovideo.py:87-96 and src/detectarucoimage.py:63-72. |
| Encoding.Code | src/raspiaruco.py:148 | `int(target[0] * scale_factor + 64)` with `scale_factor = 25 / width`: the code is `@` or above exactly for targets at or right of the frame's left edge. |
| Encoding.Chr | src/raspiaruco.py:148 | A character exists exactly for codes 0..0x10FFFF outside the surrogates, and it has that code. |
| Encoding.CodeMonotone | src/raspiaruco.py:148 | Moving the target right never lowers the symbol's code. |
| Encoding.CodeInFrame | src/raspiaruco.py:98 | For 0 <= x < width the code is in `@`..`X`, x = width gives `Y`, and `Z` is never produced. |
| Encoding.CodeFindsBin | src/raspiaruco.py:98 | The code names the 1/25-of-width bin holding the target: the bin's left edge is <= x < the next bin's left edge. |
| Encoding.LeftmostBinIsAt | src/raspiaruco.py:134 | Every target in the leftmost 25th of the frame encodes `@`, the UART end symbol. |
| Pairing.IsPostPair | src/raspiaruco.py:144-153 | The ID tests (0, 1) and (1, 0) pass exactly when the two IDs are the two posts' IDs. |
| Pairing.GateAligned | src/raspiaruco.py:144-153 | A pair of posts is seen the right way round exactly when IDs (0, 1) have the first centre left of the second, or IDs (1, 0) have it right of the second. |
| Pairing.CheckPair | src/raspiaruco.py:140-156 | IDs (0,1) or (1,0) make a post pair. The pair passes exactly when the left post's truncated centre is strictly left of the right post's, and the passing target is `Midpoint(first, second)`. |
| Pairing.PairVerdict | src/raspiaruco.py:140-162 | Two-marker rule: a letter exactly when the pair is an aligned gate, with code `Code(Midpoint.x)`; otherwise `?`. |
| Pairing.TripleVerdict | src/raspiaruco.py:164-223 | Three-or-more rule: if ranks 0 and 1 are a post pair, they alone decide, as in the two-marker rule; otherwise ranks 1 and 2 decide. |
| Pairing.MisalignedTopPairHidesNextGate | src/raspiaruco.py:176-217 | There are markers where ranks 1 and 2 form an aligned gate but a reversed post pair at ranks 0 and 1 yields `?`. |
| Pairing.TopPostPairDecides | src/raspiaruco.py:176-197 | With a post pair at ranks 0 and 1, the third marker never matters, and a reversed top pair gives `?`. |
| Pairing.VerdictInFrameIsSendable | src/raspiaruco.py:148 | A gate between two markers inside the frame has a code with a character. |
| Pairing.RankedInFrame | src/raspiaruco.py:92 | Ranking keeps every marker inside the frame. |
| Pairing.InFrameVerdictsAreSendable | src/raspiaruco.py:146-216 | With the markers inside the frame, neither gate rule produces a code without a character. |
| RaspiAruco.Send | src/raspiaruco.py:159-161 | Writing a verdict appends one character, the verdict's own (`Shows`), and carries on, or kills the script (nothing appended) exactly when the code has no character. |
| RaspiAruco.FrameSignals | src/raspiaruco.py:84-232 | Per frame: `-` for none; exactly `!` when rank 0 is the stop marker; `&` first when rank 0 is the start marker; a lone marker writes exactly `&` if it is the start marker and nothing otherwise; the loop is left exactly on two markers ranked (start, stop), after `&@`. Otherwise, with two or more markers, the last symbol written is the character of the two-marker or three-marker gate rule's verdict, after `&` exactly when the start marker ranks first; the script dies exactly when that verdict's code has no character. |
| RaspiAruco.Startup | src/raspiaruco.py:43-59 | The loop runs exactly when the camera opened, after `<`; otherwise `%` and the script ends. |
| RaspiAruco.Advance | src/raspiaruco.py:63-232 | One frame changes nothing once the loop is over, and otherwise appends at most two symbols to the UART output. |
| RaspiAruco.Replay | src/raspiaruco.py:63-232 | Running the frame loop over frames keeps everything already written at the front of the UART output. |
| RaspiAruco.GateFrameWritesVerdict | src/raspiaruco.py:140-223 | A frame of two or more markers, none of them the start or stop marker, appends exactly one symbol, the character of the gate rule's verdict, or kills the script with nothing written when that code has no character. |
| RaspiAruco.TwoMarkerGateFrame | src/raspiaruco.py:140-161 | Two markers, neither start nor stop: the frame appends the letter with code `Code(Midpoint.x)` of the ranked pair when they are an aligned gate, `?` when they are not, and kills the script when the aligned gate's code has no character. |
| RaspiAruco.ReplayWhenStopped | src/raspiaruco.py:133-138 | Once the loop is left or the script has died, later frames change nothing. |
| RaspiAruco.ReplayConcat | src/raspiaruco.py:63 | Watching frames in two stretches is watching them in one. |
| RaspiAruco.EndIsFinal | src/raspiaruco.py:133-138 | After the end symbol, the frames that follow are never processed. |
| RaspiAruco.ReplayAppends | src/raspiaruco.py:63-232 | The UART output only grows, by at most two symbols a frame. |
| RaspiAruco.EmptyFrameSendsDash | src/raspiaruco.py:227-232 | A frame without markers writes exactly `-` and the loop goes on. |
| RaspiAruco.LoneMarkerIsSilent | src/raspiaruco.py:101-164 | A lone marker that is neither the start nor the stop marker writes nothing. |
| RaspiAruco.LargestStopMarkerSendsStop | src/raspiaruco.py:101-107 | If the stop marker is strictly the largest, the frame writes exactly `!` and no gate is judged. |
| RaspiAruco.StartStopPair | src/raspiaruco.py:110-138 | A start-and-stop pair ends the session with `&@` when the start marker ranks first; otherwise the frame writes only `!`, so the (3,2) half of the end test never fires. |
| RaspiAruco.InFrameNeverCrashes | src/raspiaruco.py:146-220 | With every marker inside the frame, no frame kills the script. |
| RaspiAruco.Session.constructor | src/raspiaruco.py:43-59 | The new session's state is `Startup(cameraOpen)`. |
| RaspiAruco.Session.Transmit | src/raspiaruco.py:159-161 | The new state is the one `Send` describes. |
| RaspiAruco.Session.Step | src/raspiaruco.py:76-232 | One frame loop pass, ranking the frame in place, takes the state to `Advance(old state, detected)`. |
| RaspiAruco.Session.Signal | src/raspiaruco.py:101-232 | The branch chain over ranked tags appends exactly `FrameSignals(tags)` and sets the phase it implies. |
| RaspiAruco.Session.Run | src/raspiaruco.py:63-232 | The loop over a finite sequence of frames reaches `Replay(old state, frames)`. |
| DetectArucoVideo.VideoFrame | src/detectarucovideo.py:130-263 | The start message is shown exactly when rank 0 is the start marker, and the stop message exactly when it is the stop marker. A gate symbol is printed exactly for two or more markers without the stop marker first, and it is the two-marker or three-marker rule's verdict (`GateVerdict`): no `-` for an empty frame. |
| DetectArucoVideo.StartMarkerDoesNotSkipGates | src/detectarucovideo.py:130-133 | With the start marker first, the gate rules still run: `?` for two markers, and ranks 1 and 2 decide for three or more. |
| DetectArucoVideo.StartStopPairDoesNotEnd | src/detectarucovideo.py:143-178 | A start-and-stop pair ranked start first only shows the start message and `?`; nothing ends. |
| DetectArucoVideo.SameSymbolAsUart | src/detectarucovideo.py:143-263 | On any frame of two or more markers without the stop marker first, where the UART script carries on, it writes two symbols, the first `&`, exactly when the video script shows the start message, and one otherwise. Its last symbol is the video script's gate symbol. |
| DetectArucoVideo.FrameFails | src/detectarucovideo.py:165 | A frame kills the script exactly when a gate symbol is due (two or more markers, stop marker not first) and its verdict's code has no character. |
| DetectArucoVideo.WatchStep | src/detectarucovideo.py:59-266 | Unless the script has already died, one frame adds exactly one report, `VideoFrame` of its ranked records, and the script dies on it exactly when `FrameFails` holds for them. |
| DetectArucoVideo.Replay | src/detectarucovideo.py:59-266 | Watching adds at most one report per frame. |
| DetectArucoVideo.ReplayWhenFailed | src/detectarucovideo.py:165 | After a failed `chr`/print, nothing more happens. |
| DetectArucoVideo.ReplayExtends | src/detectarucovideo.py:59-266 | Earlier reports stay; every frame is reported unless the script dies. Markers never end the loop. |
| DetectArucoVideo.ReplayReportAt | src/detectarucovideo.py:87-263 | The i-th report is `VideoFrame` of the i-th frame's ranked markers. |
| DetectArucoVideo.ReplayFailsOnLast | src/detectarucovideo.py:165 | If the script dies, it dies on the last frame reported, whose gate code has no character. |
| DetectArucoVideo.FailingFrameKills | src/detectarucovideo.py:165-178 | A frame whose gate symbol cannot be printed ends the watch: the script has died, and no frame after it is reported. |
| DetectArucoVideo.InFrameWatchNeverFails | src/detectarucovideo.py:165 | With every marker inside the frame, the watch never dies on a gate symbol's character. |
| DetectArucoVideo.WatchFrame | src/detectarucovideo.py:87-263 | Ranking a frame in place and judging it gives its `VideoFrame` report and failure. |
| DetectArucoVideo.Watch | src/detectarucovideo.py:59-266 | The loop over a finite sequence of frames returns exactly `Replay(Start, frames)`. |
| DetectArucoImage.ImageResult | src/detectarucoimage.py:103-147 | A symbol is set only for a post pair at ranks 0 and 1. It is a letter exactly for an aligned gate, with code `Code(Midpoint.x, 750)`, and otherwise `-`. No markers gives no summary. |
| DetectArucoImage.LaterMarkersIgnored | src/detectarucoimage.py:103-121 | Markers ranked below the second never change the outcome. |
| DetectArucoImage.UnsetExactly | src/detectarucoimage.py:103-172 | The symbol stays unset exactly for one marker or for a top pair that is not a post pair. |
| DetectArucoImage.FaultExactly | src/detectarucoimage.py:128-172 | The script dies, in `chr` or when the symbol is printed, exactly for an aligned gate whose code has no printable character. |
| DetectArucoImage.InFramePostsAreReported | src/detectarucoimage.py:117-144 | With the markers inside the picture, a post pair at ranks 0 and 1 always gets a symbol. |
| DetectArucoImage.ReversedPairIsDash | src/detectarucoimage.py:131-133 | A reversed post pair gives `-` here, where the streaming scripts' two-marker rule gives `?`. |
| DetectArucoImage.ProcessImage | src/detectarucoimage.py:59-147 | Ranking in place and running the two-marker tests gives `ImageResult(Ranked(Records(detected)))`. |

## Left out

- ArUco detection, camera capture and `cv2.resize`/`imutils.resize` are not modelled. The detected markers are inputs, each a `Detection` (four corners and an ID), and the frame width is a constant: 1000 for the streaming scripts and 750 for the photograph.
- `cv2.norm`'s square root is not computed. Size is the squared diagonal, which ranks markers the same way, ties included (`Gates.SizeOrdersLikeDiagonal`).
- Float32/float64 rounding of corners, of `25 / width` and of the means is not modelled. Coordinates are exact reals.
- Rendering is not modelled: bounding boxes, circles, text, `imshow` and screenshots. One consequence is not captured. With three or more markers and no ID match, src/detectarucovideo.py:266 draws at `target`. That point is left over from an earlier frame, and it is unbound (a NameError) if no frame has set it yet.
- Key polling (`waitKey`, the `s` and `q` keys) is not modelled. `Run` and `Watch` take a finite sequence of frames instead of looping forever.
- UART set-up, `flush`, `close` and every `time.sleep` are not modelled. A write is an append to the output sequence.
- `sys.argv` parsing and the camera index are not modelled.
- The post-loop summaries (`tagID`, `tagsize`, `gatedetect`, `target`) are not modelled. The image script's summary is modelled only through its outcome `Unset`, where it reads an unset `asc`. The console log lines (`[INFO] ...`) are also left out.
- RaspiAruco.Send: a lone surrogate code is modelled as killing the script at `chr`. In the script, the failure is raised a step later, by `encode`. Nothing is written in either case.
- DetectArucoVideo.FrameFails and DetectArucoImage.FaultExactly: for a lone surrogate code, `chr` succeeds and the script dies later, when it prints the symbol (src/detectarucovideo.py:178 and 263, src/detectarucoimage.py:172). The model does not separate the two points of death. In the image script, the drawing and the screenshot step before the final print are not modelled either way.
