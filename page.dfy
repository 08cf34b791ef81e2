/**
 * The home page's session: the four pieces of React state (`originalImage`,
 * `processedImage`, `isProcessing`, `progress`) and the asynchronous work that
 * `handleFileSelect` starts. The timers and the fetch are events of a
 * sequential transition system. Every call of `handleFileSelect` is a
 * submission with its own identity, which owns
 *   - a 200 ms interval that ticks `progress` until it is cleared,
 *   - one request that ends in an OK response or a failure,
 *   - after an OK response, a 500 ms timeout that publishes the result.
 * Nothing ties these callbacks to the newest submission, so a late callback of
 * a superseded submission still acts on the shared state, as it does in the page.
 */
module Page {

  import opened Wrappers
  import opened Browser

  type SubmissionId = nat

  /** Name the download link gives the saved file. */
  const DOWNLOAD_NAME := "removed-bg-hd.png"

  /** Ceiling of the synthetic progress ticker. */
  const TICK_CEILING := 90

  datatype Session = Session(
    original: Option<ObjectUrl>,
    processed: Option<ObjectUrl>,
    isProcessing: bool,
    progress: int,
    tickers: set<SubmissionId>,             // submissions whose interval still runs
    awaiting: set<SubmissionId>,            // submissions whose request has not ended
    settling: map<SubmissionId, ObjectUrl>, // scheduled settle timeouts, with the result they publish
    next: SubmissionId                      // identity of the next submission
  )

  /** The state at mount: no images, not processing, progress 0, nothing scheduled. */
  const INITIAL := Session(None, None, false, 0, {}, {}, map[], 0)

  datatype Event =
    | FileSelected(preview: ObjectUrl)          // handleFileSelect, up to its first await
    | IntervalFired(id: SubmissionId)           // one 200 ms tick of a submission's interval
    | ResponseOk(id: SubmissionId, result: ObjectUrl) // response.ok and its blob read
    | SettleFired(id: SubmissionId)             // the 500 ms timeout after an OK response
    | RequestFailed(id: SubmissionId)           // a non-OK response or a thrown error
    | ResetClicked                              // the "Upload Another" button

  /** The functional update the interval hands to `setProgress`. */
  function Tick(prev: int): (next: int)
    ensures prev <= next <= prev + 10
    ensures next == prev <==> prev >= TICK_CEILING
  {
    if prev >= TICK_CEILING then prev else prev + 10
  }

  /** `n` firings of the interval: progress never falls and gains at most 10 per firing. */
  function Ticks(p: int, n: nat): (r: int)
    ensures p <= r <= p + 10 * n
    decreases n
  {
    if n == 0 then p else Ticks(Tick(p), n - 1)
  }

  /** Where the ticker stands after contributing `x` points: `x`, but never above the ceiling. */
  function Capped(x: int): int
  {
    if x <= TICK_CEILING then x else TICK_CEILING
  }

  /** A progress value the ticker can start from and leave behind. */
  predicate OnTickGrid(p: int)
  {
    0 <= p <= TICK_CEILING && p % 10 == 0
  }

  /** From a grid value, `n` ticks add 10 points each until the ceiling is reached. */
  lemma {:induction false} TicksFromGrid(p: int, n: nat)
    requires OnTickGrid(p)
    ensures Ticks(p, n) == Capped(p + 10 * n)
    ensures OnTickGrid(Ticks(p, n))
    decreases n
  {
    if n > 0 {
      TicksFromGrid(Tick(p), n - 1);
    }
  }

  /** Starting from 0 the ticker shows 0, 10, 20, ..., 90 and then stays at 90. */
  lemma TicksFromZero(n: nat)
    ensures Ticks(0, n) == Capped(10 * n)
    ensures 0 <= Ticks(0, n) <= TICK_CEILING && Ticks(0, n) % 10 == 0
  {
    TicksFromGrid(0, n);
  }

  /** More ticks never show less progress. */
  lemma {:induction false} TicksNonDecreasing(p: int, m: nat, n: nat)
    requires m <= n
    ensures p <= Ticks(p, m) <= Ticks(p, n)
    decreases n
  {
    if m > 0 {
      TicksNonDecreasing(Tick(p), m - 1, n - 1);
    } else if n > 0 {
      TicksNonDecreasing(Tick(p), 0, n - 1);
    }
  }

  /** At or above the ceiling every tick is a fixed point. */
  lemma {:induction false} TicksFixedAboveCeiling(p: int, n: nat)
    requires p >= TICK_CEILING
    ensures Ticks(p, n) == p
    decreases n
  {
    if n > 0 {
      TicksFixedAboveCeiling(Tick(p), n - 1);
    }
  }

  /**
   * When an event can occur. The interval, the response and the timeout exist
   * only while they are scheduled (a cleared interval fires no more); a file
   * can be submitted only through the dropzone, which is rendered only while
   * there is no original image; the "Upload Another" button that resets is
   * rendered only beside an original image.
   */
  predicate Enabled(s: Session, e: Event)
    ensures e.FileSelected? ==> (Enabled(s, e) <==> View(s).main.UploadArea?)
    ensures e.ResetClicked? ==> (Enabled(s, e) <==> View(s).main.ResultArea?)
  {
    match e
    case FileSelected(_) => s.original.None?
    case IntervalFired(id) => id in s.tickers
    case ResponseOk(id, _) => id in s.awaiting
    case SettleFired(id) => id in s.settling
    case RequestFailed(id) => id in s.awaiting
    case ResetClicked => s.original.Some?
  }

  /**
   * The effect of one event on the session. Only selection and reset touch
   * the original; only selection, the settle step and reset touch the result;
   * only selection, the settle step and a failure touch `isProcessing`; the
   * settle step and a failure leave progress alone.
   */
  function Step(s: Session, e: Event): (t: Session)
    ensures t.original != s.original ==> e.FileSelected? || e.ResetClicked?
    ensures t.processed != s.processed ==> e.FileSelected? || e.SettleFired? || e.ResetClicked?
    ensures t.isProcessing != s.isProcessing ==> e.FileSelected? || e.SettleFired? || e.RequestFailed?
    ensures t.progress != s.progress ==> e.FileSelected? || e.IntervalFired? || e.ResponseOk? || e.ResetClicked?
    ensures s.next <= t.next
  {
    match e
    case FileSelected(preview) =>
      s.(original := Some(preview), processed := None, isProcessing := true, progress := 0,
         tickers := s.tickers + {s.next}, awaiting := s.awaiting + {s.next}, next := s.next + 1)
    case IntervalFired(id) =>
      s.(progress := Tick(s.progress))
    case ResponseOk(id, result) =>
      s.(tickers := s.tickers - {id}, progress := 100,
         awaiting := s.awaiting - {id}, settling := s.settling[id := result])
    case SettleFired(id) =>
      if id in s.settling then
        s.(processed := Some(s.settling[id]), isProcessing := false, settling := s.settling - {id})
      else s
    case RequestFailed(id) =>
      s.(awaiting := s.awaiting - {id}, isProcessing := false, tickers := s.tickers - {id})
    case ResetClicked =>
      s.(original := None, processed := None, progress := 0)
  }

  /** Runs a trace of events; `None` when some event of it cannot occur where it stands. */
  function Run(s: Session, es: seq<Event>): Option<Session>
    decreases es
  {
    if es == [] then Some(s)
    else if Enabled(s, es[0]) then Run(Step(s, es[0]), es[1..])
    else None
  }

  /**
   * What every reachable session satisfies: progress is a multiple of 10 in
   * [0, 100]; an interval runs only for a submission whose request has not
   * ended (the ticker is cleared no later than the response); a submission is
   * never both awaiting its response and settling; identities are issued in order.
   */
  ghost predicate Inv(s: Session)
  {
    && 0 <= s.progress <= 100 && s.progress % 10 == 0
    && s.tickers <= s.awaiting
    && s.awaiting !! s.settling.Keys
    && (forall id :: id in s.awaiting ==> id < s.next)
    && (forall id :: id in s.settling ==> id < s.next)
  }

  lemma InitialInv()
    ensures Inv(INITIAL)
  {
  }

  lemma StepPreservesInv(s: Session, e: Event)
    requires Inv(s) && Enabled(s, e)
    ensures Inv(Step(s, e))
  {
  }

  /** Every session reached from an invariant one by a trace satisfies the invariant. */
  lemma {:induction false} RunPreservesInv(s: Session, es: seq<Event>)
    requires Inv(s) && Run(s, es).Some?
    ensures Inv(Run(s, es).value)
    decreases es
  {
    if es != [] {
      StepPreservesInv(s, es[0]);
      RunPreservesInv(Step(s, es[0]), es[1..]);
    }
  }

  /** Running `a` then `b` is running `a + b`. */
  lemma {:induction false} RunAppend(s: Session, a: seq<Event>, b: seq<Event>)
    ensures Run(s, a + b) == if Run(s, a).Some? then Run(Run(s, a).value, b) else None
    decreases a
  {
    if a != [] {
      assert (a + b)[0] == a[0];
      assert (a + b)[1..] == a[1..] + b;
      if Enabled(s, a[0]) {
        RunAppend(Step(s, a[0]), a[1..], b);
      }
    } else {
      assert a + b == b;
    }
  }

  // --- the individual transitions, as the page promises them ---

  /** Selecting a file sets the preview, clears the result, starts processing from 0 and a new ticker. */
  lemma SelectEffect(s: Session, preview: ObjectUrl)
    requires Inv(s)
    ensures var t := Step(s, FileSelected(preview));
      && t.original == Some(preview) && t.processed == None && t.isProcessing && t.progress == 0
      && s.next in t.tickers && s.next in t.awaiting && s.next !in s.awaiting
  {
  }

  /** An OK response stops its ticker and shows exactly 100 before anything is published. */
  lemma OkEffect(s: Session, id: SubmissionId, result: ObjectUrl)
    requires Inv(s) && id in s.awaiting
    ensures var t := Step(s, ResponseOk(id, result));
      && id !in t.tickers && t.progress == 100
      && t.processed == s.processed && t.isProcessing == s.isProcessing && t.original == s.original
      && id in t.settling && t.settling[id] == result && Inv(t)
  {
  }

  /** The settle step publishes the result and ends processing together, and changes nothing else. */
  lemma SettleEffect(s: Session, id: SubmissionId)
    requires id in s.settling
    ensures Step(s, SettleFired(id))
         == s.(processed := Some(s.settling[id]), isProcessing := false, settling := s.settling - {id})
  {
  }

  /** A failure stops its ticker and ends processing; it clears neither image. */
  lemma FailureEffect(s: Session, id: SubmissionId)
    requires Inv(s) && id in s.awaiting
    ensures var t := Step(s, RequestFailed(id));
      && id !in t.tickers && id !in t.awaiting && !t.isProcessing
      && t.original == s.original && t.processed == s.processed && t.progress == s.progress
  {
  }

  /** Reset clears both images and the progress, keeps `isProcessing`, and is idempotent. */
  lemma ResetEffect(s: Session)
    ensures var t := Step(s, ResetClicked);
      && t.original == None && t.processed == None && t.progress == 0
      && t.isProcessing == s.isProcessing
      && Step(t, ResetClicked) == t
  {
  }

  // --- the view ---

  datatype Panel =
    | BlurredOriginal(image: ObjectUrl)                  // the original, dimmed, while no result exists
    | Comparison(before: ObjectUrl, after: ObjectUrl)    // the comparison slider

  datatype MainArea =
    | UploadArea                                         // the dropzone: the only way to submit a file
    | ResultArea(panel: Panel, downloadButton: bool)     // result panel, "Upload Another" and maybe "Download"

  /** What the page renders: the loading overlay (with the progress it shows) and the main area. */
  datatype Screen = Screen(overlay: Option<int>, main: MainArea)

  function View(s: Session): (v: Screen)
    ensures v.overlay.Some? <==> s.isProcessing
    ensures v.overlay.Some? ==> v.overlay.value == s.progress
    ensures v.main.UploadArea? <==> s.original.None?
    ensures (v.main.ResultArea? && v.main.panel.Comparison?) <==> (s.original.Some? && s.processed.Some?)
    ensures v.main.ResultArea? && v.main.panel.Comparison? ==>
              v.main.panel.before == s.original.value && v.main.panel.after == s.processed.value
    ensures v.main.ResultArea? && v.main.panel.BlurredOriginal? ==> v.main.panel.image == s.original.value
    ensures v.main.ResultArea? ==> (v.main.downloadButton <==> s.processed.Some?)
  {
    var overlay := if s.isProcessing then Some(s.progress) else None;
    if s.original.None? then Screen(overlay, UploadArea)
    else
      var panel := if s.processed.None? then BlurredOriginal(s.original.value)
                   else Comparison(s.original.value, s.processed.value);
      Screen(overlay, ResultArea(panel, s.processed.Some?))
  }

  // --- whole submissions ---

  /** `k` firings of one submission's interval. */
  function IntervalFirings(id: SubmissionId, k: nat): (es: seq<Event>)
    ensures |es| == k && forall i :: 0 <= i < k ==> es[i] == IntervalFired(id)
  {
    seq(k, _ => IntervalFired(id))
  }

  /** While its interval runs, `k` firings advance the progress by `k` ticks and change nothing else. */
  lemma {:induction false} RunIntervalFirings(s: Session, id: SubmissionId, k: nat)
    requires id in s.tickers
    ensures Run(s, IntervalFirings(id, k)) == Some(s.(progress := Ticks(s.progress, k)))
    decreases k
  {
    if k > 0 {
      var es := IntervalFirings(id, k);
      assert es[1..] == IntervalFirings(id, k - 1);
      RunIntervalFirings(s.(progress := Tick(s.progress)), id, k - 1);
    }
  }

  /** Selecting a file and letting its interval fire `k` times. */
  function Started(preview: ObjectUrl, id: SubmissionId, k: nat): seq<Event>
  {
    [FileSelected(preview)] + IntervalFirings(id, k)
  }

  lemma {:induction false} RunStarted(s: Session, preview: ObjectUrl, k: nat)
    requires Inv(s) && s.original.None?
    ensures var t := Run(s, Started(preview, s.next, k));
      && t.Some?
      && t.value == Step(s, FileSelected(preview)).(progress := Capped(10 * k))
  {
    var t := Step(s, FileSelected(preview));
    RunAppend(s, [FileSelected(preview)], IntervalFirings(s.next, k));
    assert Run(s, [FileSelected(preview)]) == Some(t) by {
      assert [FileSelected(preview)][1..] == [];
    }
    RunIntervalFirings(t, s.next, k);
    TicksFromZero(k);
  }

  /**
   * A successful submission from the upload view: the ticker shows 0, 10, ...,
   * up to 90; the OK response shows exactly 100 while still processing and
   * with no result; the settle step then shows the comparison of the selected
   * original and the result, without the overlay.
   */
  lemma {:induction false} SuccessfulSubmission(s: Session, preview: ObjectUrl, k: nat, result: ObjectUrl)
    requires Inv(s) && s.original.None?
    ensures forall j :: 0 <= j <= k ==>
      var t := Run(s, Started(preview, s.next, j));
      t.Some? && t.value.progress == Capped(10 * j) && t.value.isProcessing && t.value.processed.None?
    ensures var t := Run(s, Started(preview, s.next, k) + [ResponseOk(s.next, result)]);
      && t.Some? && t.value.progress == 100 && t.value.isProcessing && t.value.processed.None?
      && s.next !in t.value.tickers
    ensures var t := Run(s, Started(preview, s.next, k) + [ResponseOk(s.next, result), SettleFired(s.next)]);
      && t.Some? && t.value.progress == 100 && !t.value.isProcessing
      && View(t.value) == Screen(None, ResultArea(Comparison(preview, result), true))
  {
    forall j | 0 <= j <= k
      ensures var t := Run(s, Started(preview, s.next, j));
        t.Some? && t.value.progress == Capped(10 * j) && t.value.isProcessing && t.value.processed.None?
    {
      RunStarted(s, preview, j);
    }
    var id := s.next;
    RunStarted(s, preview, k);
    var started := Run(s, Started(preview, id, k)).value;
    RunAppend(s, Started(preview, id, k), [ResponseOk(id, result)]);
    assert Run(started, [ResponseOk(id, result)]) == Some(Step(started, ResponseOk(id, result))) by {
      assert [ResponseOk(id, result)][1..] == [];
    }
    var done := Step(started, ResponseOk(id, result));
    RunAppend(s, Started(preview, id, k), [ResponseOk(id, result), SettleFired(id)]);
    assert Run(done, [SettleFired(id)]) == Some(Step(done, SettleFired(id))) by {
      assert [SettleFired(id)][1..] == [];
    }
    assert Run(started, [ResponseOk(id, result), SettleFired(id)]) == Run(done, [SettleFired(id)]) by {
      assert [ResponseOk(id, result), SettleFired(id)][1..] == [SettleFired(id)];
    }
  }

  /**
   * A failed submission from the upload view: the ticker is stopped and
   * processing ends, but the original stays and no result appears, so the
   * page shows the dimmed original with "Upload Another" and no download.
   */
  lemma {:induction false} FailedSubmission(s: Session, preview: ObjectUrl, k: nat)
    requires Inv(s) && s.original.None?
    ensures var t := Run(s, Started(preview, s.next, k) + [RequestFailed(s.next)]);
      && t.Some? && !t.value.isProcessing && t.value.processed.None?
      && t.value.original == Some(preview) && t.value.progress == Capped(10 * k)
      && s.next !in t.value.tickers && s.next !in t.value.awaiting
      && View(t.value) == Screen(None, ResultArea(BlurredOriginal(preview), false))
  {
    var id := s.next;
    RunStarted(s, preview, k);
    var started := Run(s, Started(preview, id, k)).value;
    RunAppend(s, Started(preview, id, k), [RequestFailed(id)]);
    assert Run(started, [RequestFailed(id)]) == Some(Step(started, RequestFailed(id))) by {
      assert [RequestFailed(id)][1..] == [];
    }
  }

  // --- interleavings the page does not guard against ---

  /**
   * Reset while a result is settling: the late timeout still publishes the
   * result, leaving a processed image with no original (the page then shows
   * the upload view and never displays that result).
   */
  lemma ResetThenLateSettle(a: ObjectUrl, b: ObjectUrl)
    ensures var t := Run(INITIAL, [FileSelected(a), ResponseOk(0, b), ResetClicked, SettleFired(0)]);
      && t.Some? && t.value.original.None? && t.value.processed == Some(b)
      && View(t.value).main == UploadArea
  {
    var es := [FileSelected(a), ResponseOk(0, b), ResetClicked, SettleFired(0)];
    var s1 := Step(INITIAL, es[0]);
    var s2 := Step(s1, es[1]);
    var s3 := Step(s2, es[2]);
    var s4 := Step(s3, es[3]);
    assert Run(s3, es[3..]) == Some(s4) by { assert es[3..][1..] == []; }
    assert Run(s2, es[2..]) == Run(s3, es[3..]) by { assert es[2..][1..] == es[3..]; }
    assert Run(s1, es[1..]) == Run(s2, es[2..]) by { assert es[1..][1..] == es[2..]; }
  }

  /**
   * Reset while a request is in flight, then a second file: the first
   * request's failure ends processing and hides the overlay although the
   * second request has not ended.
   */
  lemma StaleFailureEndsNewerProcessing(a: ObjectUrl, c: ObjectUrl)
    ensures var t := Run(INITIAL, [FileSelected(a), ResetClicked, FileSelected(c), RequestFailed(0)]);
      && t.Some? && 1 in t.value.awaiting && 1 in t.value.tickers
      && !t.value.isProcessing && View(t.value).overlay.None?
  {
    var es := [FileSelected(a), ResetClicked, FileSelected(c), RequestFailed(0)];
    var s1 := Step(INITIAL, es[0]);
    var s2 := Step(s1, es[1]);
    var s3 := Step(s2, es[2]);
    var s4 := Step(s3, es[3]);
    assert Run(s3, es[3..]) == Some(s4) by { assert es[3..][1..] == []; }
    assert Run(s2, es[2..]) == Run(s3, es[3..]) by { assert es[2..][1..] == es[3..]; }
    assert Run(s1, es[1..]) == Run(s2, es[2..]) by { assert es[1..][1..] == es[2..]; }
  }

  /**
   * Reset while a request is in flight, then a second file: the first
   * request's result is published next to the second file's original.
   */
  lemma StaleResultShownForNewerOriginal(a: ObjectUrl, b: ObjectUrl, c: ObjectUrl)
    ensures var t := Run(INITIAL, [FileSelected(a), ResetClicked, FileSelected(c), ResponseOk(0, b), SettleFired(0)]);
      && t.Some? && View(t.value).main == ResultArea(Comparison(c, b), true)
      && 1 in t.value.awaiting
  {
    var es := [FileSelected(a), ResetClicked, FileSelected(c), ResponseOk(0, b), SettleFired(0)];
    var s1 := Step(INITIAL, es[0]);
    var s2 := Step(s1, es[1]);
    var s3 := Step(s2, es[2]);
    var s4 := Step(s3, es[3]);
    var s5 := Step(s4, es[4]);
    assert Run(s4, es[4..]) == Some(s5) by { assert es[4..][1..] == []; }
    assert Run(s3, es[3..]) == Run(s4, es[4..]) by { assert es[3..][1..] == es[4..]; }
    assert Run(s2, es[2..]) == Run(s3, es[3..]) by { assert es[2..][1..] == es[3..]; }
    assert Run(s1, es[1..]) == Run(s2, es[2..]) by { assert es[1..][1..] == es[2..]; }
  }

  // --- the page component ---

  datatype DownloadLink = DownloadLink(href: ObjectUrl, fileName: string)

  /** The page's state and its handlers; the scheduled callbacks are the event methods. */
  class Home {
    var originalImage: Option<ObjectUrl>
    var processedImage: Option<ObjectUrl>
    var isProcessing: bool
    var progress: int
    var intervals: set<SubmissionId>
    var requests: set<SubmissionId>
    var timeouts: map<SubmissionId, ObjectUrl>
    var submissions: SubmissionId

    function State(): Session
      reads this
    {
      Session(originalImage, processedImage, isProcessing, progress, intervals, requests, timeouts, submissions)
    }

    ghost predicate Valid()
      reads this
    {
      Inv(State())
    }

    constructor ()
      ensures Valid() && State() == INITIAL
    {
      originalImage, processedImage := None, None;
      isProcessing, progress := false, 0;
      intervals, requests, timeouts, submissions := {}, {}, map[], 0;
    }

    /** `handleFileSelect` up to its first await: show the preview, reset, start the ticker and the request. */
    method HandleFileSelect(objectUrl: ObjectUrl) returns (id: SubmissionId)
      requires Valid()
      modifies this
      ensures Valid()
      ensures id == old(submissions) && id !in old(requests)
      ensures originalImage == Some(objectUrl) && processedImage == None && isProcessing && progress == 0
      ensures State() == Step(old(State()), Event.FileSelected(objectUrl))
    {
      originalImage := Some(objectUrl);
      processedImage := None;
      isProcessing := true;
      progress := 0;
      id := submissions;
      intervals := intervals + {id};
      requests := requests + {id};
      submissions := submissions + 1;
    }

    /** One firing of submission `id`'s interval. */
    method IntervalFired(id: SubmissionId)
      requires Valid() && id in intervals
      modifies this
      ensures Valid()
      ensures progress == Tick(old(progress)) && old(progress) <= progress
      ensures State() == Step(old(State()), Event.IntervalFired(id))
    {
      progress := Tick(progress);
    }

    /** The request of `id` returned OK and its blob became `processedUrl`. */
    method ResponseOk(id: SubmissionId, processedUrl: ObjectUrl)
      requires Valid() && id in requests
      modifies this
      ensures Valid()
      ensures id !in intervals && progress == 100 && id in timeouts && timeouts[id] == processedUrl
      ensures processedImage == old(processedImage) && isProcessing == old(isProcessing)
      ensures State() == Step(old(State()), Event.ResponseOk(id, processedUrl))
    {
      requests := requests - {id};
      intervals := intervals - {id};
      progress := 100;
      timeouts := timeouts[id := processedUrl];
    }

    /** The 500 ms timeout scheduled by `id`'s OK response. */
    method SettleFired(id: SubmissionId)
      requires Valid() && id in timeouts
      modifies this
      ensures Valid()
      ensures processedImage == Some(old(timeouts)[id]) && !isProcessing
      ensures originalImage == old(originalImage) && progress == old(progress)
      ensures State() == Step(old(State()), Event.SettleFired(id))
    {
      processedImage := Some(timeouts[id]);
      isProcessing := false;
      timeouts := timeouts - {id};
    }

    /** The request of `id` failed: the catch block. */
    method RequestFailed(id: SubmissionId)
      requires Valid() && id in requests
      modifies this
      ensures Valid()
      ensures !isProcessing && id !in intervals
      ensures originalImage == old(originalImage) && processedImage == old(processedImage)
      ensures State() == Step(old(State()), Event.RequestFailed(id))
    {
      requests := requests - {id};
      isProcessing := false;
      intervals := intervals - {id};
    }

    method Reset()
      requires Valid()
      modifies this
      ensures Valid()
      ensures originalImage == None && processedImage == None && progress == 0
      ensures isProcessing == old(isProcessing)
      ensures State() == Step(old(State()), Event.ResetClicked)
    {
      originalImage := None;
      processedImage := None;
      progress := 0;
    }

    /** The link `downloadImage` clicks; none when there is no processed image. */
    method DownloadImage() returns (link: Option<DownloadLink>)
      ensures link.None? <==> processedImage.None?
      ensures link.Some? ==> link.value == DownloadLink(processedImage.value, DOWNLOAD_NAME)
    {
      if processedImage.None? {
        return None;
      }
      link := Some(DownloadLink(processedImage.value, DOWNLOAD_NAME));
    }
  }
}
