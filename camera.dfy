/** The camera module's `Runner`: a time-lapse loop that takes a picture
    with the current `ImageConfig` on every tick of the interval timer and
    uploads it under a name made from the wall clock. The interval follows
    the same rule as the Smagribot runner, with two differences: a
    `TimelapseConfig` push always replaces the image configuration, and
    only positive periods are offered. Collaborator answers are
    parameters; the calls made to them are recorded in `calls`. */
module Camera {
  import opened Wrappers
  import opened Text
  import opened Models
  import opened Clock
  import opened Scheduling

  datatype PixelFormat = RGBA | I420

  datatype EncodingFormat = BMP | JPEG

  datatype ImageConfig = ImageConfig(
    width: int32,
    height: int32,
    shutterSpeed: int32,
    iso: int32,
    encodingFormat: EncodingFormat,
    pixelFormat: PixelFormat,
    quality: int32)

  /** The configuration used until a push sets another: 640x480 BMP in
      RGBA, automatic shutter speed and ISO, quality 100. */
  const DefaultImageConfig := ImageConfig(640, 480, 0, 0, BMP, RGBA, 100)

  /** A `TimelapseConfig`; the period is in whole seconds and its image
      configuration may be missing (null). */
  datatype TimelapseConfig = TimelapseConfig(period: int, imageConfig: Option<ImageConfig>)

  datatype CameraDesiredProperties = CameraDesiredProperties(timelapseConfig: Option<TimelapseConfig>)

  // ----- file names -----

  /** The date as yyyy-MM-dd. */
  function DateStamp(t: DateTime): (s: string)
    requires ValidDateTime(t)
    ensures |s| == 10
  {
    FixedDigits(t.year, 4) + "-" + FixedDigits(t.month, 2) + "-" + FixedDigits(t.day, 2)
  }

  /** The time of day as HH-mm-ss. */
  function TimeStamp(t: DateTime): (s: string)
    requires ValidDateTime(t)
    ensures |s| == 8
  {
    FixedDigits(t.hour, 2) + "-" + FixedDigits(t.minute, 2) + "-" + FixedDigits(t.second, 2)
  }

  /** `GetFilename`: "timelapse_" and the time as yyyy-MM-dd_HH-mm-ss, then
      ".jpg". */
  function GetFilename(t: DateTime): string
    requires ValidDateTime(t)
  {
    "timelapse_" + DateStamp(t) + "_" + TimeStamp(t) + ".jpg"
  }

  /** Where each field sits in a file name. */
  lemma GetFilenameLayout(t: DateTime)
    requires ValidDateTime(t)
    ensures var name := GetFilename(t);
            |name| == 33 &&
            name[..10] == "timelapse_" && name[10..20] == DateStamp(t) && name[20] == '_' &&
            name[21..29] == TimeStamp(t) && name[29..] == ".jpg"
    ensures var date := DateStamp(t);
            date[..4] == FixedDigits(t.year, 4) && date[4] == '-' && date[5..7] == FixedDigits(t.month, 2) &&
            date[7] == '-' && date[8..] == FixedDigits(t.day, 2)
    ensures var time := TimeStamp(t);
            time[..2] == FixedDigits(t.hour, 2) && time[2] == '-' && time[3..5] == FixedDigits(t.minute, 2) &&
            time[5] == '-' && time[6..] == FixedDigits(t.second, 2)
  {
    FiveLayout("timelapse_", DateStamp(t), "_", TimeStamp(t), ".jpg");
    FiveLayout(FixedDigits(t.year, 4), "-", FixedDigits(t.month, 2), "-", FixedDigits(t.day, 2));
    FiveLayout(FixedDigits(t.hour, 2), "-", FixedDigits(t.minute, 2), "-", FixedDigits(t.second, 2));
  }

  /** Pictures taken in different seconds get different names; pictures
      taken within the same second get the same name. */
  lemma GetFilenameInjective(a: DateTime, b: DateTime)
    requires ValidDateTime(a) && ValidDateTime(b)
    ensures GetFilename(a) == GetFilename(b) <==>
      a.year == b.year && a.month == b.month && a.day == b.day &&
      a.hour == b.hour && a.minute == b.minute && a.second == b.second
  {
    if GetFilename(a) == GetFilename(b) {
      GetFilenameLayout(a);
      GetFilenameLayout(b);
      assert DateStamp(a) == DateStamp(b) && TimeStamp(a) == TimeStamp(b);
      FieldFromDigits(a.year, b.year, 4);
      FieldFromDigits(a.month, b.month, 2);
      FieldFromDigits(a.day, b.day, 2);
      FieldFromDigits(a.hour, b.hour, 2);
      FieldFromDigits(a.minute, b.minute, 2);
      FieldFromDigits(a.second, b.second, 2);
    }
  }

  lemma FieldFromDigits(x: nat, y: nat, w: nat)
    requires x < Pow10(w) && y < Pow10(w)
    requires FixedDigits(x, w) == FixedDigits(y, w)
    ensures x == y
  {
    FixedDigitsValue(x, w);
    FixedDigitsValue(y, w);
  }

  // ----- runner state -----

  /** The interval offered once the cloud is connected: 15 minutes. */
  const DefaultInterval: Seconds := 900

  /** The single cloud connect attempt. */
  datatype Connection = Connecting | Connected | ConnectFailed

  /** The collaborator calls the runner makes. */
  datatype CameraCall =
    | CloudConnectCall
    | TakePictureCall(time: int, config: Option<ImageConfig>)
    | UploadDataCall(time: int, data: seq<bv8>, filename: string)

  /** The runner's fields and its interval subscription. `timerSince` is
      where in `calls` the running timer's calls begin. */
  datatype CameraState = CameraState(
    now: int,
    currentTimerInterval: int,
    timer: Option<Timer>,
    timerSince: nat,
    currentImageConfig: Option<ImageConfig>,
    connection: Connection,
    listening: bool,
    calls: seq<CameraCall>)

  const Initial := CameraState(0, 0, None, 0, Some(DefaultImageConfig), Connecting, true, [])

  /** The times at which pictures were taken among `calls`. */
  function PictureTimes(calls: seq<CameraCall>): seq<int>
    decreases |calls|
  {
    if calls == [] then []
    else (if calls[0].TakePictureCall? then [calls[0].time] else []) + PictureTimes(calls[1..])
  }

  lemma {:induction false} PictureTimesAppend(a: seq<CameraCall>, b: seq<CameraCall>)
    ensures PictureTimes(a + b) == PictureTimes(a) + PictureTimes(b)
    decreases |a|
  {
    if a == [] {
      assert a + b == b;
    } else {
      assert (a + b)[0] == a[0] && (a + b)[1..] == a[1..] + b;
      PictureTimesAppend(a[1..], b);
      var head := if a[0].TakePictureCall? then [a[0].time] else [];
      assert PictureTimes(a + b) == head + PictureTimes(a[1..] + b);
      assert PictureTimes(a) == head + PictureTimes(a[1..]);
    }
  }

  lemma PictureTimesSince(calls: seq<CameraCall>, extra: seq<CameraCall>, since: nat)
    requires since <= |calls|
    ensures PictureTimes((calls + extra)[since..]) == PictureTimes(calls[since..]) + PictureTimes(extra)
  {
    assert (calls + extra)[since..] == calls[since..] + extra;
    PictureTimesAppend(calls[since..], extra);
  }

  /** The timer runs at the current interval, is never overdue, and its
      pictures so far were taken at its firing times. */
  predicate Inv(s: CameraState) {
    s.timer.Some? ==>
      s.timer.value.period == s.currentTimerInterval && s.timer.value.period > 0 &&
      s.now <= NextDue(s.timer.value) && s.timerSince <= |s.calls| &&
      PictureTimes(s.calls[s.timerSince..]) == TickTimes(s.timer.value.start, s.timer.value.period, s.timer.value.fired)
  }

  // ----- events -----

  /** The interval rule after the positive-period guard. */
  function OfferInterval(s: CameraState, period: Seconds): CameraState {
    if !s.listening || period == s.currentTimerInterval then s
    else s.(currentTimerInterval := period, timer := Some(Timer(s.now, period, 0)), timerSince := |s.calls|)
  }

  /** A push with a `TimelapseConfig` replaces the image configuration,
      whatever its period, and offers the period if it is positive. */
  function OnDesiredProperties(s: CameraState, props: Option<CameraDesiredProperties>): CameraState {
    if !s.listening || props.None? || props.value.timelapseConfig.None? then s
    else
      var config := props.value.timelapseConfig.value;
      var configured := s.(currentImageConfig := config.imageConfig);
      if config.period > 0 then OfferInterval(configured, config.period) else configured
  }

  /** `Run`'s connect: on success the 15-minute interval is offered; a
      failure ends the whole chain, so later pushes change nothing. */
  function OnConnect(s: CameraState, connect: Outcome): CameraState {
    if s.connection != Connecting then s
    else if connect.Fail? then s.(calls := s.calls + [CloudConnectCall], connection := ConnectFailed, listening := false)
    else OfferInterval(s.(calls := s.calls + [CloudConnectCall], connection := Connected), DefaultInterval)
  }

  predicate CanAdvance(s: CameraState, time: int) {
    s.now <= time && (s.timer.Some? ==> time <= NextDue(s.timer.value))
  }

  /** A timer tick: a picture is taken with the image configuration of the
      moment; if that succeeds it is uploaded as `filename`, the name
      `GetFilename` gives the wall clock after the picture. A failure of
      either call ends the loop. */
  function OnFire(s: CameraState, picture: Result<seq<bv8>>, upload: Outcome, filename: string): CameraState
    requires s.timer.Some?
  {
    var timer := s.timer.value;
    var due := NextDue(timer);
    var taken := s.(now := due, calls := s.calls + [TakePictureCall(due, s.currentImageConfig)]);
    if picture.Err? then taken.(timer := None)
    else
      var uploaded := taken.(calls := taken.calls + [UploadDataCall(due, picture.value, filename)]);
      if upload.Fail? then uploaded.(timer := None)
      else uploaded.(timer := Some(timer.(fired := timer.fired + 1)))
  }

  lemma OfferIntervalInv(s: CameraState, period: Seconds)
    requires Inv(s)
    ensures Inv(OfferInterval(s, period))
  {
    if s.listening && period != s.currentTimerInterval {
      assert s.calls[|s.calls|..] == [];
    }
  }

  lemma OnDesiredPropertiesInv(s: CameraState, props: Option<CameraDesiredProperties>)
    requires Inv(s)
    ensures Inv(OnDesiredProperties(s, props))
  {
    if s.listening && props.Some? && props.value.timelapseConfig.Some? && props.value.timelapseConfig.value.period > 0 {
      OfferIntervalInv(s.(currentImageConfig := props.value.timelapseConfig.value.imageConfig),
                       props.value.timelapseConfig.value.period);
    }
  }

  lemma OnConnectInv(s: CameraState, connect: Outcome)
    requires Inv(s)
    ensures Inv(OnConnect(s, connect))
  {
    if s.connection == Connecting {
      if s.timer.Some? {
        PictureTimesSince(s.calls, [CloudConnectCall], s.timerSince);
        assert PictureTimes([CloudConnectCall]) == [];
      }
      if connect.Done? {
        OfferIntervalInv(s.(calls := s.calls + [CloudConnectCall], connection := Connected), DefaultInterval);
      }
    }
  }

  /** A picture and its upload at the timer's next due time extend the
      picture times by that time. */
  lemma TickCallsKeepTimes(calls: seq<CameraCall>, since: nat, timer: Timer, take: CameraCall, up: CameraCall)
    requires since <= |calls| && take.TakePictureCall? && up.UploadDataCall? && take.time == NextDue(timer)
    requires PictureTimes(calls[since..]) == TickTimes(timer.start, timer.period, timer.fired)
    ensures PictureTimes((calls + [take, up])[since..]) == TickTimes(timer.start, timer.period, timer.fired + 1)
  {
    PictureTimesSince(calls, [take, up], since);
    assert [take, up][1..] == [up] && [up][1..] == [];
    assert PictureTimes([up]) == [];
    TickTimesNext(timer);
  }

  lemma OnFireInv(s: CameraState, picture: Result<seq<bv8>>, upload: Outcome, filename: string)
    requires Inv(s) && s.timer.Some?
    ensures Inv(OnFire(s, picture, upload, filename))
  {
    var timer := s.timer.value;
    if picture.Ok? && upload.Done? {
      var due := NextDue(timer);
      var take := TakePictureCall(due, s.currentImageConfig);
      var up := UploadDataCall(due, picture.value, filename);
      var r := OnFire(s, picture, upload, filename);
      assert r.calls == s.calls + [take] + [up];
      assert s.calls + [take] + [up] == s.calls + [take, up];
      assert r.timer == Some(timer.(fired := timer.fired + 1));
      NextDueAfterFiring(timer);
      TickCallsKeepTimes(s.calls, s.timerSince, timer, take, up);
    }
  }

  // ----- properties of the events -----

  /** Every push with a `TimelapseConfig` replaces the image configuration,
      even when the period stays the same; changing only the image
      configuration takes no picture and keeps the timer. */
  lemma PushReplacesImageConfig(s: CameraState, config: TimelapseConfig)
    requires s.listening
    requires config.period == s.currentTimerInterval || config.period <= 0
    ensures var r := OnDesiredProperties(s, Some(CameraDesiredProperties(Some(config))));
            r == s.(currentImageConfig := config.imageConfig)
  {
  }

  /** A push that also applies a new positive period replaces the image
      configuration too, and the restarted timer's first picture, taken at
      once, uses the pushed configuration. */
  lemma PushWithNewPeriodUsesConfig(s: CameraState, config: TimelapseConfig,
                                    picture: Result<seq<bv8>>, upload: Outcome, filename: string)
    requires s.listening && config.period > 0 && config.period != s.currentTimerInterval
    ensures var r := OnDesiredProperties(s, Some(CameraDesiredProperties(Some(config))));
            r.currentImageConfig == config.imageConfig &&
            r.timer == Some(Timer(s.now, config.period, 0)) && r.calls == s.calls &&
            OnFire(r, picture, upload, filename).calls[|s.calls|] == TakePictureCall(s.now, config.imageConfig)
  {
  }

  /** A push without desired properties, or without a `TimelapseConfig`,
      changes nothing. */
  lemma PushWithoutTimelapseConfigIgnored(s: CameraState)
    ensures OnDesiredProperties(s, None) == s
    ensures OnDesiredProperties(s, Some(CameraDesiredProperties(None))) == s
  {
  }

  /** A period that is not positive is never offered. */
  lemma NonPositivePeriodIgnored(s: CameraState, config: TimelapseConfig)
    requires config.period <= 0
    ensures var r := OnDesiredProperties(s, Some(CameraDesiredProperties(Some(config))));
            r.timer == s.timer && r.currentTimerInterval == s.currentTimerInterval && r.calls == s.calls
  {
  }

  /** The intervals offered in turn. */
  function OfferAll(s: CameraState, periods: seq<Seconds>): CameraState
    decreases |periods|
  {
    if periods == [] then s else OfferAll(OfferInterval(s, periods[0]), periods[1..])
  }

  /** A run of candidate intervals restarts the timer once per change. */
  lemma {:induction false} OfferAllFollowsRule(s: CameraState, periods: seq<Seconds>)
    requires s.listening
    ensures var r := OfferAll(s, periods);
            var applied := Applied(s.currentTimerInterval, periods);
            r.currentTimerInterval == FinalInterval(s.currentTimerInterval, periods) &&
            r.calls == s.calls && r.now == s.now && r.currentImageConfig == s.currentImageConfig &&
            (applied == [] ==> r.timer == s.timer) &&
            (applied != [] ==> r.timer == Some(Timer(s.now, applied[|applied| - 1], 0)))
    decreases |periods|
  {
    if periods != [] {
      OfferAllFollowsRule(OfferInterval(s, periods[0]), periods[1..]);
    }
  }

  /** Connecting starts the 15-minute timer, whose first picture is taken
      at once with the default image configuration. */
  lemma FirstPictureUsesDefault(picture: seq<bv8>, upload: Outcome, filename: string)
    ensures var connected := OnConnect(Initial, Done);
            connected.timer == Some(Timer(0, DefaultInterval, 0)) &&
            OnFire(connected, Ok(picture), upload, filename).calls ==
              [CloudConnectCall, TakePictureCall(0, Some(DefaultImageConfig)), UploadDataCall(0, picture, filename)]
  {
  }

  /** The next picture after a push uses the pushed image configuration. */
  lemma NextPictureUsesPushedConfig(s: CameraState, config: TimelapseConfig, picture: Result<seq<bv8>>,
                                    upload: Outcome, filename: string)
    requires s.listening && s.timer.Some?
    requires config.period == s.currentTimerInterval || config.period <= 0
    ensures var pushed := OnDesiredProperties(s, Some(CameraDesiredProperties(Some(config))));
            var r := OnFire(pushed, picture, upload, filename);
            r.calls[|s.calls|] == TakePictureCall(NextDue(s.timer.value), config.imageConfig)
  {
  }

  /** A failed picture uploads nothing; a failed upload is not repeated.
      Either ends the loop until another interval is applied. */
  lemma FailureEndsLoop(s: CameraState, picture: Result<seq<bv8>>, upload: Outcome, filename: string)
    requires s.timer.Some?
    requires picture.Err? || upload.Fail?
    ensures var due := NextDue(s.timer.value);
            var r := OnFire(s, picture, upload, filename);
            r.timer.None? && r.currentTimerInterval == s.currentTimerInterval &&
            r.calls == s.calls + [TakePictureCall(due, s.currentImageConfig)] +
                         (if picture.Ok? then [UploadDataCall(due, picture.value, filename)] else [])
  {
  }

  /** A failed connect ends the chain: pushes no longer change the image
      configuration or the interval. */
  lemma FailedConnectIgnoresPushes(s: CameraState, message: string, props: Option<CameraDesiredProperties>)
    requires s.connection == Connecting
    ensures var r := OnConnect(s, Fail(message));
            r.calls == s.calls + [CloudConnectCall] && r.timer == s.timer &&
            OnDesiredProperties(r, props) == r
  {
  }

  /** The running timer's pictures are taken at its start and then every
      `period` seconds. */
  lemma PicturesEvenlySpaced(s: CameraState)
    requires Inv(s) && s.timer.Some? && s.timer.value.fired > 0
    ensures var times := PictureTimes(s.calls[s.timerSince..]);
            |times| == s.timer.value.fired && times[0] == s.timer.value.start &&
            forall i :: 0 < i < |times| ==> times[i] - times[i - 1] == s.currentTimerInterval
  {
    TickTimesEvenlySpaced(s.timer.value.start, s.timer.value.period, s.timer.value.fired);
  }

  // ----- the runner -----

  class CameraRunner {
    var now: int
    var currentTimerInterval: int
    /** `_timedUpdateDisposable`: the picture timer, while it runs. */
    var timer: Option<Timer>
    var timerSince: nat
    var currentImageConfig: Option<ImageConfig>
    var connection: Connection
    /** Whether the interval chain is still subscribed. */
    var listening: bool
    var calls: seq<CameraCall>

    function State(): CameraState
      reads this
    {
      CameraState(now, currentTimerInterval, timer, timerSince, currentImageConfig, connection, listening, calls)
    }

    predicate Valid()
      reads this
    {
      Inv(State())
    }

    constructor()
      ensures Valid() && State() == Initial
    {
      now := 0;
      currentTimerInterval := 0;
      timer := None;
      timerSince := 0;
      currentImageConfig := Some(DefaultImageConfig);
      connection := Connecting;
      listening := true;
      calls := [];
    }

    method StartIntervalledStatusUpdate(period: Seconds)
      modifies this
      ensures State() == old(State()).(currentTimerInterval := period, timer := Some(Timer(old(now), period, 0)),
                                       timerSince := |old(calls)|)
    {
      currentTimerInterval := period;
      timer := Some(Timer(now, period, 0));
      timerSince := |calls|;
    }

    /** A candidate interval reaching the end of the interval chain. */
    method NewInterval(period: Seconds)
      modifies this
      ensures State() == OfferInterval(old(State()), period)
    {
      if listening && period != currentTimerInterval {
        StartIntervalledStatusUpdate(period);
      }
    }

    /** A desired-properties push. */
    method DesiredPropertiesChanged(props: Option<CameraDesiredProperties>)
      requires Valid()
      modifies this
      ensures Valid()
      ensures State() == OnDesiredProperties(old(State()), props)
    {
      ghost var s := State();
      if listening && props.Some? && props.value.timelapseConfig.Some? {
        var config := props.value.timelapseConfig.value;
        currentImageConfig := config.imageConfig;
        if config.period > 0 {
          NewInterval(config.period);
        }
      }
      OnDesiredPropertiesInv(s, props);
    }

    /** `Run`'s cloud connect, with its outcome. */
    method Connect(connect: Outcome)
      requires Valid()
      modifies this
      ensures Valid()
      ensures State() == OnConnect(old(State()), connect)
    {
      ghost var s := State();
      if connection == Connecting {
        calls := calls + [CloudConnectCall];
        if connect.Fail? {
          connection := ConnectFailed;
          listening := false;
        } else {
          connection := Connected;
          NewInterval(DefaultInterval);
        }
      }
      OnConnectInv(s, connect);
    }

    /** The scheduler's clock moves to `time`. */
    method AdvanceClock(time: int)
      requires Valid() && CanAdvance(State(), time)
      modifies this
      ensures Valid()
      ensures State() == old(State()).(now := time)
    {
      now := time;
    }

    /** The picture timer fires, with the answers of `TakePicture` and
        `UploadData` and the wall-clock reading `GetFilename` uses. */
    method FireNextAction(picture: Result<seq<bv8>>, upload: Outcome, wallClock: DateTime)
      requires Valid() && timer.Some? && ValidDateTime(wallClock)
      modifies this
      ensures Valid()
      ensures State() == OnFire(old(State()), picture, upload, GetFilename(wallClock))
    {
      ghost var s := State();
      var t := timer.value;
      var due := NextDue(t);
      var filename := GetFilename(wallClock);
      now := due;
      calls := calls + [TakePictureCall(due, currentImageConfig)];
      if picture.Err? {
        timer := None;
      } else {
        calls := calls + [UploadDataCall(due, picture.value, filename)];
        if upload.Fail? {
          timer := None;
        } else {
          timer := Some(t.(fired := t.fired + 1));
        }
      }
      OnFireInv(s, picture, upload, filename);
    }
  }
}
