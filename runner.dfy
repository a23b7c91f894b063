/** The Smagribot `Runner`: the light schedule drives relay 0, the telemetry
    interval drives a status loop, and firmware reports are merged into a
    snapshot. Each Rx chain set up by `Runner.Run` is an event method:
    a desired-properties push, a clock tick, the connect attempt, a firmware
    report, the clock moving on, and the next due action of the status loop
    (a timer tick or a re-send) firing. Collaborator answers are parameters
    and the calls made to them are recorded in order in `calls`. Times are
    whole seconds on the scheduler's clock. */
module Runner {
  import opened Wrappers
  import opened Models
  import opened Scheduling
  import FirmwareUpdater

  // ----- light schedule -----

  /** `RelayStatusFromHourOfDay`: whether relay 0 is on at `hourOfDay`. */
  function RelayStatusFromHourOfDay(lightSchedule: LightSchedule, hourOfDay: real): (relay: Relay)
    ensures relay.number == 0
    ensures lightSchedule.on == lightSchedule.off ==> !relay.on
  {
    if lightSchedule.on <= lightSchedule.off then
      Relay(0, hourOfDay >= lightSchedule.on && hourOfDay < lightSchedule.off)
    else
      Relay(0, hourOfDay >= lightSchedule.on || hourOfDay < lightSchedule.off)
  }

  /** Hours from `from` forward to `to` on a 24-hour dial. */
  function HoursAfter(from: real, to: real): (h: real)
    requires 0.0 <= from < 24.0 && 0.0 <= to < 24.0
    ensures 0.0 <= h < 24.0
  {
    if to >= from then to - from else to - from + 24.0
  }

  /** On a 24-hour dial the light is on from `On` up to, not including,
      `Off`, across midnight when `Off` comes first; when both are equal
      the window is empty. */
  lemma RelayFollowsWindow(lightSchedule: LightSchedule, hourOfDay: real)
    requires 0.0 <= lightSchedule.on < 24.0 && 0.0 <= lightSchedule.off < 24.0
    requires 0.0 <= hourOfDay < 24.0
    ensures RelayStatusFromHourOfDay(lightSchedule, hourOfDay).on <==>
      HoursAfter(lightSchedule.on, hourOfDay) < HoursAfter(lightSchedule.on, lightSchedule.off)
  {
  }

  // ----- firmware snapshot -----

  /** Neither null nor empty (`!string.IsNullOrEmpty`). */
  predicate IsGiven(value: Option<string>) {
    value.Some? && value.value != ""
  }

  /** The snapshot after `UpdateNotNullProperties(from, to)`. */
  function MergeNotNull(from: CurrentFirmware, to: CurrentFirmware): CurrentFirmware {
    CurrentFirmware(
      if IsGiven(from.currentFwVersion) then from.currentFwVersion else to.currentFwVersion,
      if IsGiven(from.pendingFwVersion) then from.pendingFwVersion else to.pendingFwVersion,
      from.fwUpdateStatus,
      if IsGiven(from.fwUpdateSubstatus) then from.fwUpdateSubstatus else to.fwUpdateSubstatus,
      if IsGiven(from.lastFwUpdateStartTime) then from.lastFwUpdateStartTime else to.lastFwUpdateStartTime,
      if IsGiven(from.lastFwUpdateEndTime) then from.lastFwUpdateEndTime else to.lastFwUpdateEndTime)
  }

  /** The five string fields the merge treats alike. */
  datatype TextField = CurrentFwVersionField | PendingFwVersionField | FwUpdateSubstatusField
                     | LastFwUpdateStartTimeField | LastFwUpdateEndTimeField

  function FieldOf(firmware: CurrentFirmware, field: TextField): Option<string> {
    match field
    case CurrentFwVersionField => firmware.currentFwVersion
    case PendingFwVersionField => firmware.pendingFwVersion
    case FwUpdateSubstatusField => firmware.fwUpdateSubstatus
    case LastFwUpdateStartTimeField => firmware.lastFwUpdateStartTime
    case LastFwUpdateEndTimeField => firmware.lastFwUpdateEndTime
  }

  /** A merge always takes the report's status; a string field keeps its
      old value unless the report gives one. Merging the same report twice
      changes nothing more. */
  lemma MergeNotNullFields(from: CurrentFirmware, to: CurrentFirmware, field: TextField)
    ensures MergeNotNull(from, to).fwUpdateStatus == from.fwUpdateStatus
    ensures FieldOf(MergeNotNull(from, to), field) == if IsGiven(FieldOf(from, field)) then FieldOf(from, field) else FieldOf(to, field)
    ensures MergeNotNull(from, MergeNotNull(from, to)) == MergeNotNull(from, to)
  {
  }

  /** The snapshot after merging a sequence of reports in turn. */
  function MergeAll(to: CurrentFirmware, reports: seq<CurrentFirmware>): CurrentFirmware
    decreases |reports|
  {
    if reports == [] then to else MergeAll(MergeNotNull(reports[0], to), reports[1..])
  }

  /** After a sequence of reports the status is the last report's. */
  lemma {:induction false} MergeAllStatus(to: CurrentFirmware, reports: seq<CurrentFirmware>)
    requires reports != []
    ensures MergeAll(to, reports).fwUpdateStatus == reports[|reports| - 1].fwUpdateStatus
    decreases |reports|
  {
    if |reports| > 1 {
      MergeAllStatus(MergeNotNull(reports[0], to), reports[1..]);
    }
  }

  /** A string field that no report gives keeps its starting value. */
  lemma {:induction false} MergeAllNoneGiven(to: CurrentFirmware, reports: seq<CurrentFirmware>, field: TextField)
    requires forall i :: 0 <= i < |reports| ==> !IsGiven(FieldOf(reports[i], field))
    ensures FieldOf(MergeAll(to, reports), field) == FieldOf(to, field)
    decreases |reports|
  {
    if reports != [] {
      var rest := reports[1..];
      assert forall i :: 0 <= i < |rest| ==> !IsGiven(FieldOf(rest[i], field)) by {
        forall i | 0 <= i < |rest| ensures !IsGiven(FieldOf(rest[i], field)) {
          assert rest[i] == reports[i + 1];
        }
      }
      MergeAllNoneGiven(MergeNotNull(reports[0], to), rest, field);
      MergeNotNullFields(reports[0], to, field);
    }
  }

  /** A string field holds the last value any report gave it. */
  lemma {:induction false} MergeAllLastGivenWins(to: CurrentFirmware, reports: seq<CurrentFirmware>, field: TextField, j: nat)
    requires j < |reports| && IsGiven(FieldOf(reports[j], field))
    requires forall k :: j < k < |reports| ==> !IsGiven(FieldOf(reports[k], field))
    ensures FieldOf(MergeAll(to, reports), field) == FieldOf(reports[j], field)
    decreases |reports|
  {
    var merged := MergeNotNull(reports[0], to);
    var rest := reports[1..];
    if j == 0 {
      assert forall i :: 0 <= i < |rest| ==> !IsGiven(FieldOf(rest[i], field)) by {
        forall i | 0 <= i < |rest| ensures !IsGiven(FieldOf(rest[i], field)) {
          assert rest[i] == reports[i + 1];
        }
      }
      MergeAllNoneGiven(merged, rest, field);
      MergeNotNullFields(reports[0], to, field);
    } else {
      assert rest[j - 1] == reports[j];
      assert forall k :: j - 1 < k < |rest| ==> !IsGiven(FieldOf(rest[k], field)) by {
        forall k | j - 1 < k < |rest| ensures !IsGiven(FieldOf(rest[k], field)) {
          assert rest[k] == reports[k + 1];
        }
      }
      MergeAllLastGivenWins(merged, rest, field, j - 1);
    }
  }

  /** After a successful update the snapshot shows the new version as
      current and "Update successfull", but still shows it as pending: the
      final report clears the pending version with "", which the merge
      skips. */
  lemma SnapshotKeepsPendingAfterUpdate(device: string, fwVersion: string, startTime: string, endTime: string)
    requires fwVersion != "" && startTime != "" && endTime != "" && device != ""
    ensures var reports := [FirmwareUpdater.DownloadingStatus(device, fwVersion, startTime),
                            FirmwareUpdater.VerifyingStatus, FirmwareUpdater.ApplyingStatus,
                            FirmwareUpdater.RebootingStatus, FirmwareUpdater.UpdatedStatus(fwVersion, endTime)];
            MergeAll(NewCurrentFirmware, reports) ==
              CurrentFirmware(Some(fwVersion), Some(fwVersion), Current, Some("Update successfull"), Some(startTime), Some(endTime))
  {
    var reports := [FirmwareUpdater.DownloadingStatus(device, fwVersion, startTime),
                    FirmwareUpdater.VerifyingStatus, FirmwareUpdater.ApplyingStatus,
                    FirmwareUpdater.RebootingStatus, FirmwareUpdater.UpdatedStatus(fwVersion, endTime)];
    var m1 := MergeNotNull(reports[0], NewCurrentFirmware);
    assert m1 == CurrentFirmware(Some(device), Some(fwVersion), Downloading, Some("Start downloading"), Some(startTime), None);
    var m2 := MergeNotNull(reports[1], m1);
    var m3 := MergeNotNull(reports[2], m2);
    var m4 := MergeNotNull(reports[3], m3);
    assert m4 == CurrentFirmware(Some(device), Some(fwVersion), Rebooting, Some("Rebooting connection"), Some(startTime), None);
    var m5 := MergeNotNull(reports[4], m4);
    var r1 := reports[1..];
    var r2 := r1[1..];
    var r3 := r2[1..];
    var r4 := r3[1..];
    assert r4 == [reports[4]] && r4[1..] == [];
    assert MergeAll(m4, r4) == m5;
    assert MergeAll(m3, r3) == MergeAll(m4, r4);
    assert MergeAll(m2, r2) == MergeAll(m3, r3);
    assert MergeAll(m1, r1) == MergeAll(m2, r2);
    assert MergeAll(NewCurrentFirmware, reports) == MergeAll(m1, r1);
  }

  /** The `CurrentFirmware` object the firmware reports are merged into. */
  class FirmwareSnapshot {
    var currentFwVersion: Option<string>
    var pendingFwVersion: Option<string>
    var fwUpdateStatus: UpdateStatus
    var fwUpdateSubstatus: Option<string>
    var lastFwUpdateStartTime: Option<string>
    var lastFwUpdateEndTime: Option<string>

    function Value(): CurrentFirmware
      reads this
    {
      CurrentFirmware(currentFwVersion, pendingFwVersion, fwUpdateStatus, fwUpdateSubstatus,
                      lastFwUpdateStartTime, lastFwUpdateEndTime)
    }

    constructor()
      ensures Value() == NewCurrentFirmware
    {
      currentFwVersion := None;
      pendingFwVersion := None;
      fwUpdateStatus := Current;
      fwUpdateSubstatus := None;
      lastFwUpdateStartTime := None;
      lastFwUpdateEndTime := None;
    }
  }

  /** `UpdateNotNullProperties`: copies the status and every given string
      field of `from` into `to`. */
  method UpdateNotNullProperties(from: CurrentFirmware, to: FirmwareSnapshot)
    modifies to
    ensures to.Value() == MergeNotNull(from, old(to.Value()))
  {
    to.fwUpdateStatus := from.fwUpdateStatus;
    if IsGiven(from.fwUpdateSubstatus) {
      to.fwUpdateSubstatus := from.fwUpdateSubstatus;
    }
    if IsGiven(from.currentFwVersion) {
      to.currentFwVersion := from.currentFwVersion;
    }
    if IsGiven(from.pendingFwVersion) {
      to.pendingFwVersion := from.pendingFwVersion;
    }
    if IsGiven(from.lastFwUpdateStartTime) {
      to.lastFwUpdateStartTime := from.lastFwUpdateStartTime;
    }
    if IsGiven(from.lastFwUpdateEndTime) {
      to.lastFwUpdateEndTime := from.lastFwUpdateEndTime;
    }
  }

  // ----- runner state -----

  /** The interval offered once device and cloud are connected: 15 minutes. */
  const DefaultInterval: Seconds := 900

  /** The delay before a failed status message is sent again. */
  const RetryDelay := 30

  /** The connect attempt `ConnectToSerialAndCloud` makes once. */
  datatype Connection = Connecting | Connected | ConnectFailed

  /** The collaborator calls the runner makes. */
  datatype RunnerCall =
    | DeviceConnectCall
    | CloudConnectCall
    | SetRelayCall(relay: Relay)
    | GetStatusCall(time: int)
    | SendStatusCall(time: int, status: DeviceStatus)

  /** A status message waiting to be sent again. */
  datatype Resend = Resend(due: int, status: DeviceStatus)

  /** The runner's fields and the parts of its Rx subscriptions that matter:
      the running status timer, the re-sends it has pending, and whether
      the interval and schedule chains are still subscribed. `timerSince` is
      where in `calls` the running timer's calls begin. */
  datatype RunnerState = RunnerState(
    now: int,
    currentTimerInterval: int,
    timer: Option<Timer>,
    timerSince: nat,
    resends: seq<Resend>,
    currentLightSchedule: LightSchedule,
    currentRelayStatus: map<byte, Relay>,
    connection: Connection,
    intervalListening: bool,
    scheduleListening: bool,
    calls: seq<RunnerCall>)

  /** A runner just started: no interval (`TimeSpan.Zero`), the default
      light schedule and no relay state. */
  const Initial := RunnerState(0, 0, None, 0, [], DefaultLightSchedule, map[], Connecting, true, true, [])

  /** The times of the status fetches among `calls`. */
  function FetchTimes(calls: seq<RunnerCall>): seq<int>
    decreases |calls|
  {
    if calls == [] then []
    else (if calls[0].GetStatusCall? then [calls[0].time] else []) + FetchTimes(calls[1..])
  }

  lemma {:induction false} FetchTimesAppend(a: seq<RunnerCall>, b: seq<RunnerCall>)
    ensures FetchTimes(a + b) == FetchTimes(a) + FetchTimes(b)
    decreases |a|
  {
    if a == [] {
      assert a + b == b;
    } else {
      assert (a + b)[0] == a[0] && (a + b)[1..] == a[1..] + b;
      FetchTimesAppend(a[1..], b);
      var head := if a[0].GetStatusCall? then [a[0].time] else [];
      assert FetchTimes(a + b) == head + FetchTimes(a[1..] + b);
      assert FetchTimes(a) == head + FetchTimes(a[1..]);
    }
  }

  lemma FetchTimesSince(calls: seq<RunnerCall>, extra: seq<RunnerCall>, since: nat)
    requires since <= |calls|
    ensures FetchTimes((calls + extra)[since..]) == FetchTimes(calls[since..]) + FetchTimes(extra)
  {
    assert (calls + extra)[since..] == calls[since..] + extra;
    FetchTimesAppend(calls[since..], extra);
  }

  /** The last relay state sent for relay `number`, if any. */
  function LastRelaySent(calls: seq<RunnerCall>, number: byte): (r: Option<Relay>)
    ensures r.Some? ==> r.value.number == number
    decreases |calls|
  {
    if calls == [] then None
    else
      var last := calls[|calls| - 1];
      if last.SetRelayCall? && last.relay.number == number then Some(last.relay)
      else LastRelaySent(calls[..|calls| - 1], number)
  }

  lemma LastRelaySentAppend(calls: seq<RunnerCall>, c: RunnerCall, number: byte)
    ensures LastRelaySent(calls + [c], number) ==
      if c.SetRelayCall? && c.relay.number == number then Some(c.relay) else LastRelaySent(calls, number)
  {
    assert (calls + [c])[..|calls|] == calls;
  }

  /** `_currentRelayStatus` holds, for each relay, the last state sent to it. */
  predicate RelayMapMatches(calls: seq<RunnerCall>, relays: map<byte, Relay>) {
    forall k: byte :: LastRelaySent(calls, k) == (if k in relays then Some(relays[k]) else None)
  }

  /** A call that is not a relay write leaves the last relay states alone. */
  lemma RelayMapAfterOtherCall(calls: seq<RunnerCall>, c: RunnerCall, relays: map<byte, Relay>)
    requires RelayMapMatches(calls, relays) && !c.SetRelayCall?
    ensures RelayMapMatches(calls + [c], relays)
  {
    forall k: byte
      ensures LastRelaySent(calls + [c], k) == (if k in relays then Some(relays[k]) else None)
    {
      LastRelaySentAppend(calls, c, k);
    }
  }

  predicate ResendsOrdered(s: RunnerState) {
    (forall i :: 0 <= i < |s.resends| ==> s.now <= s.resends[i].due <= s.now + RetryDelay) &&
    (forall i, j :: 0 <= i < j < |s.resends| ==> s.resends[i].due <= s.resends[j].due)
  }

  /** What every event keeps: the timer runs at the current interval, its
      fetches so far fell at its firing times, it is never overdue, the
      re-sends are due in order within the next 30 s and exist only while
      the timer runs, and the relay map records the last write per relay. */
  predicate Inv(s: RunnerState) {
    (s.timer.Some? ==>
       s.timer.value.period == s.currentTimerInterval && s.timer.value.period > 0 &&
       s.now <= NextDue(s.timer.value) && s.timerSince <= |s.calls| &&
       FetchTimes(s.calls[s.timerSince..]) == TickTimes(s.timer.value.start, s.timer.value.period, s.timer.value.fired)) &&
    (s.resends != [] ==> s.timer.Some?) &&
    ResendsOrdered(s) &&
    RelayMapMatches(s.calls, s.currentRelayStatus)
  }

  lemma InitialInv()
    ensures Inv(Initial)
  {
  }

  // ----- events -----

  /** The interval rule: a candidate equal to `_currentTimerInterval`
      changes nothing; another one becomes the interval and replaces the
      timer (and with it any pending re-send) by one started now, whose
      first fetch is due at once. Once the interval chain has ended
      nothing is offered any more. */
  function OfferInterval(s: RunnerState, period: Seconds): RunnerState {
    if !s.intervalListening || period == s.currentTimerInterval then s
    else s.(currentTimerInterval := period, timer := Some(Timer(s.now, period, 0)), timerSince := |s.calls|, resends := [])
  }

  lemma OfferIntervalInv(s: RunnerState, period: Seconds)
    requires Inv(s)
    ensures Inv(OfferInterval(s, period))
  {
    if s.intervalListening && period != s.currentTimerInterval {
      assert s.calls[|s.calls|..] == [];
    }
  }

  /** One evaluation of the light schedule: the relay state for the hour is
      written to the map and sent to the device unless the map already
      holds exactly that state; a `SetRelay` that throws ends the schedule
      chain. */
  function EvaluateLight(s: RunnerState, lightSchedule: LightSchedule, hourOfDay: real, setRelay: Result<bool>): RunnerState {
    var relay := RelayStatusFromHourOfDay(lightSchedule, hourOfDay);
    if relay.number in s.currentRelayStatus && s.currentRelayStatus[relay.number] == relay then s
    else s.(currentRelayStatus := s.currentRelayStatus[relay.number := relay],
            calls := s.calls + [SetRelayCall(relay)],
            scheduleListening := s.scheduleListening && setRelay.Ok?)
  }

  lemma EvaluateLightInv(s: RunnerState, lightSchedule: LightSchedule, hourOfDay: real, setRelay: Result<bool>)
    requires Inv(s)
    ensures Inv(EvaluateLight(s, lightSchedule, hourOfDay, setRelay))
  {
    var relay := RelayStatusFromHourOfDay(lightSchedule, hourOfDay);
    if !(relay.number in s.currentRelayStatus && s.currentRelayStatus[relay.number] == relay) {
      var r := EvaluateLight(s, lightSchedule, hourOfDay, setRelay);
      forall k: byte
        ensures LastRelaySent(r.calls, k) == (if k in r.currentRelayStatus then Some(r.currentRelayStatus[k]) else None)
      {
        LastRelaySentAppend(s.calls, SetRelayCall(relay), k);
      }
      if s.timer.Some? {
        FetchTimesSince(s.calls, [SetRelayCall(relay)], s.timerSince);
        assert FetchTimes([SetRelayCall(relay)]) == [];
      }
    }
  }

  /** A relay state reaches the device exactly when it differs from the last
      state sent to that relay; the map then holds it and no other entry
      changes. */
  lemma NoRedundantRelayWrites(s: RunnerState, lightSchedule: LightSchedule, hourOfDay: real, setRelay: Result<bool>)
    requires Inv(s)
    ensures var relay := RelayStatusFromHourOfDay(lightSchedule, hourOfDay);
            var r := EvaluateLight(s, lightSchedule, hourOfDay, setRelay);
            if LastRelaySent(s.calls, relay.number) == Some(relay) then r == s
            else r.calls == s.calls + [SetRelayCall(relay)] &&
                 r.currentRelayStatus == s.currentRelayStatus[relay.number := relay]
  {
    var relay := RelayStatusFromHourOfDay(lightSchedule, hourOfDay);
    assert LastRelaySent(s.calls, relay.number) == (if relay.number in s.currentRelayStatus then Some(s.currentRelayStatus[relay.number]) else None);
  }

  /** `ObserveLightSchedule` and `SendStatusAndHearForPeriodUpdates` for
      one push: a light schedule becomes the stored schedule and is
      evaluated at the hour of the push; a telemetry period is offered as
      an interval. */
  function OnDesiredProperties(s: RunnerState, props: Option<DesiredDeviceProperties>, hourOfDay: real,
                               setRelay: Result<bool>): RunnerState
  {
    var lit :=
      if s.scheduleListening && props.Some? && props.value.lightSchedule.Some? then
        var schedule := props.value.lightSchedule.value;
        EvaluateLight(s.(currentLightSchedule := schedule), schedule, hourOfDay, setRelay)
      else s;
    if props.Some? && props.value.telemetryConfig.Some? then OfferInterval(lit, props.value.telemetryConfig.value.period)
    else lit
  }

  /** A clock tick evaluates the stored schedule at the tick's hour. */
  function OnTick(s: RunnerState, hourOfDay: real, setRelay: Result<bool>): RunnerState {
    if s.scheduleListening then EvaluateLight(s, s.currentLightSchedule, hourOfDay, setRelay) else s
  }

  /** `ConnectToSerialAndCloud`: the device first, the cloud only once the
      device is connected, then the 15-minute interval. A failure of either
      ends the interval chain, so no interval is ever applied afterwards;
      a timer already running keeps running. */
  function OnConnect(s: RunnerState, deviceConnect: Outcome, cloudConnect: Outcome): RunnerState {
    if s.connection != Connecting then s
    else if deviceConnect.Fail? then
      s.(calls := s.calls + [DeviceConnectCall], connection := ConnectFailed, intervalListening := false)
    else if cloudConnect.Fail? then
      s.(calls := s.calls + [DeviceConnectCall, CloudConnectCall], connection := ConnectFailed, intervalListening := false)
    else
      OfferInterval(s.(calls := s.calls + [DeviceConnectCall, CloudConnectCall], connection := Connected), DefaultInterval)
  }

  /** The clock may move on as long as no timer tick or re-send is overdue. */
  predicate CanAdvance(s: RunnerState, time: int) {
    s.now <= time &&
    (s.timer.Some? ==> time <= NextDue(s.timer.value)) &&
    (s.resends != [] ==> time <= s.resends[0].due)
  }

  /** Whether the status loop's next action is a re-send; on a tie the
      re-send goes first. */
  predicate ResendIsNext(s: RunnerState)
    requires s.timer.Some?
  {
    s.resends != [] && s.resends[0].due <= NextDue(s.timer.value)
  }

  /** The earliest due action of the status loop, at its due time. A re-send
      sends the status again and its outcome is not looked at. A tick
      fetches the status: if that throws the loop ends with nothing sent;
      otherwise the status is sent and, if that throws, a re-send is queued
      30 s later. */
  function OnFire(s: RunnerState, fetch: Result<DeviceStatus>, send: Outcome): RunnerState
    requires s.timer.Some?
  {
    if ResendIsNext(s) then
      var resend := s.resends[0];
      s.(now := resend.due, calls := s.calls + [SendStatusCall(resend.due, resend.status)], resends := s.resends[1..])
    else
      var timer := s.timer.value;
      var due := NextDue(timer);
      if fetch.Err? then
        s.(now := due, calls := s.calls + [GetStatusCall(due)], timer := None, resends := [])
      else
        s.(now := due,
           calls := s.calls + [GetStatusCall(due), SendStatusCall(due, fetch.value)],
           timer := Some(timer.(fired := timer.fired + 1)),
           resends := if send.Fail? then s.resends + [Resend(due + RetryDelay, fetch.value)] else s.resends)
  }

  lemma OnDesiredPropertiesInv(s: RunnerState, props: Option<DesiredDeviceProperties>, hourOfDay: real, setRelay: Result<bool>)
    requires Inv(s)
    ensures Inv(OnDesiredProperties(s, props, hourOfDay, setRelay))
  {
    if s.scheduleListening && props.Some? && props.value.lightSchedule.Some? {
      var schedule := props.value.lightSchedule.value;
      EvaluateLightInv(s.(currentLightSchedule := schedule), schedule, hourOfDay, setRelay);
      if props.value.telemetryConfig.Some? {
        OfferIntervalInv(EvaluateLight(s.(currentLightSchedule := schedule), schedule, hourOfDay, setRelay),
                         props.value.telemetryConfig.value.period);
      }
    } else if props.Some? && props.value.telemetryConfig.Some? {
      OfferIntervalInv(s, props.value.telemetryConfig.value.period);
    }
  }

  lemma OnTickInv(s: RunnerState, hourOfDay: real, setRelay: Result<bool>)
    requires Inv(s)
    ensures Inv(OnTick(s, hourOfDay, setRelay))
  {
    if s.scheduleListening {
      EvaluateLightInv(s, s.currentLightSchedule, hourOfDay, setRelay);
    }
  }

  /** A connect call neither fetches nor writes a relay. */
  lemma ConnectCallKeepsInv(s: RunnerState, c: RunnerCall)
    requires Inv(s) && (c.DeviceConnectCall? || c.CloudConnectCall?)
    ensures Inv(s.(calls := s.calls + [c]))
  {
    RelayMapAfterOtherCall(s.calls, c, s.currentRelayStatus);
    if s.timer.Some? {
      FetchTimesSince(s.calls, [c], s.timerSince);
      assert FetchTimes([c]) == [];
    }
  }

  lemma OnConnectInv(s: RunnerState, deviceConnect: Outcome, cloudConnect: Outcome)
    requires Inv(s)
    ensures Inv(OnConnect(s, deviceConnect, cloudConnect))
  {
    if s.connection == Connecting {
      var one := s.(calls := s.calls + [DeviceConnectCall]);
      ConnectCallKeepsInv(s, DeviceConnectCall);
      if deviceConnect.Done? {
        var two := one.(calls := one.calls + [CloudConnectCall]);
        ConnectCallKeepsInv(one, CloudConnectCall);
        assert two.calls == s.calls + [DeviceConnectCall, CloudConnectCall];
        if cloudConnect.Done? {
          OfferIntervalInv(two.(connection := Connected), DefaultInterval);
        }
      }
    }
  }

  lemma OnFireResendInv(s: RunnerState, fetch: Result<DeviceStatus>, send: Outcome)
    requires Inv(s) && s.timer.Some? && ResendIsNext(s)
    ensures Inv(OnFire(s, fetch, send))
  {
    var resend := s.resends[0];
    var c := SendStatusCall(resend.due, resend.status);
    RelayMapAfterOtherCall(s.calls, c, s.currentRelayStatus);
    FetchTimesSince(s.calls, [c], s.timerSince);
    assert FetchTimes([c]) == [];
    var r := OnFire(s, fetch, send);
    assert forall i :: 0 <= i < |r.resends| ==> r.resends[i] == s.resends[i + 1];
  }

  /** The calls of a tick whose fetch succeeded keep the relay map and
      extend the running timer's fetch times by the tick's time. */
  lemma TickCallsKeepInv(s: RunnerState, status: DeviceStatus)
    requires Inv(s) && s.timer.Some?
    ensures var due := NextDue(s.timer.value);
            var calls := s.calls + [GetStatusCall(due), SendStatusCall(due, status)];
            RelayMapMatches(calls, s.currentRelayStatus) &&
            FetchTimes(calls[s.timerSince..]) == FetchTimes(s.calls[s.timerSince..]) + [due]
  {
    var due := NextDue(s.timer.value);
    var get := GetStatusCall(due);
    var sendCall := SendStatusCall(due, status);
    assert s.calls + [get, sendCall] == s.calls + [get] + [sendCall];
    RelayMapAfterOtherCall(s.calls, get, s.currentRelayStatus);
    RelayMapAfterOtherCall(s.calls + [get], sendCall, s.currentRelayStatus);
    FetchTimesSince(s.calls, [get, sendCall], s.timerSince);
    assert [get, sendCall][1..] == [sendCall] && [sendCall][1..] == [];
    assert FetchTimes([sendCall]) == [];
    assert FetchTimes([get, sendCall]) == [due];
  }

  /** A tick keeps the re-sends due in order within the next 30 s. */
  lemma TickKeepsResendsOrdered(s: RunnerState, status: DeviceStatus, send: Outcome)
    requires Inv(s) && s.timer.Some? && !ResendIsNext(s)
    ensures ResendsOrdered(OnFire(s, Ok(status), send))
  {
    var due := NextDue(s.timer.value);
    assert forall i :: 0 <= i < |s.resends| ==> due < s.resends[i].due by {
      if s.resends != [] {
        assert due < s.resends[0].due;
      }
    }
  }

  lemma OnFireTickInv(s: RunnerState, fetch: Result<DeviceStatus>, send: Outcome)
    requires Inv(s) && s.timer.Some? && !ResendIsNext(s)
    ensures Inv(OnFire(s, fetch, send))
  {
    var timer := s.timer.value;
    if fetch.Ok? {
      TickCallsKeepInv(s, fetch.value);
      TickTimesNext(timer);
      NextDueAfterFiring(timer);
      TickKeepsResendsOrdered(s, fetch.value, send);
    } else {
      RelayMapAfterOtherCall(s.calls, GetStatusCall(NextDue(timer)), s.currentRelayStatus);
    }
  }

  lemma OnFireInv(s: RunnerState, fetch: Result<DeviceStatus>, send: Outcome)
    requires Inv(s) && s.timer.Some?
    ensures Inv(OnFire(s, fetch, send))
  {
    if ResendIsNext(s) {
      OnFireResendInv(s, fetch, send);
    } else {
      OnFireTickInv(s, fetch, send);
    }
  }

  lemma OnAdvanceInv(s: RunnerState, time: int)
    requires Inv(s) && CanAdvance(s, time)
    ensures Inv(s.(now := time))
  {
  }

  // ----- properties of the events -----

  /** Before any schedule arrives the stored schedule is {On=0, Off=0}, so
      the first tick switches relay 0 off, whatever the hour. */
  lemma FirstTickTurnsRelayOff(hourOfDay: real, setRelay: Result<bool>)
    ensures OnTick(Initial, hourOfDay, setRelay).calls == [SetRelayCall(Relay(0, false))]
  {
  }

  /** A push without a light schedule neither changes the stored schedule
      nor writes a relay. */
  lemma PushWithoutScheduleKeepsSchedule(s: RunnerState, props: DesiredDeviceProperties, hourOfDay: real, setRelay: Result<bool>)
    requires props.lightSchedule.None?
    ensures var r := OnDesiredProperties(s, Some(props), hourOfDay, setRelay);
            r.currentLightSchedule == s.currentLightSchedule && r.currentRelayStatus == s.currentRelayStatus &&
            r.calls == s.calls && r.scheduleListening == s.scheduleListening
  {
  }

  /** A tick evaluates the schedule of the last push that carried one. */
  lemma TickUsesLastSchedule(s: RunnerState, schedule: LightSchedule, pushHour: real, hourOfDay: real,
                             setRelay: Result<bool>, tickSetRelay: Result<bool>)
    requires Inv(s) && s.scheduleListening && setRelay.Ok?
    ensures var pushed := OnDesiredProperties(s, Some(DesiredDeviceProperties(None, Some(schedule), None)), pushHour, setRelay);
            var relay := RelayStatusFromHourOfDay(schedule, hourOfDay);
            var r := OnTick(pushed, hourOfDay, tickSetRelay);
            pushed.currentLightSchedule == schedule &&
            (r.calls == pushed.calls + [SetRelayCall(relay)] <==> LastRelaySent(pushed.calls, relay.number) != Some(relay))
  {
    var pushed := OnDesiredProperties(s, Some(DesiredDeviceProperties(None, Some(schedule), None)), pushHour, setRelay);
    OnDesiredPropertiesInv(s, Some(DesiredDeviceProperties(None, Some(schedule), None)), pushHour, setRelay);
    NoRedundantRelayWrites(pushed, schedule, hourOfDay, tickSetRelay);
  }

  /** Once a `SetRelay` has thrown, the schedule chain is gone: neither
      pushes nor ticks write a relay or change the stored schedule. */
  lemma FailedSetRelayEndsSchedule(s: RunnerState, props: Option<DesiredDeviceProperties>, hourOfDay: real,
                                   setRelay: Result<bool>)
    requires !s.scheduleListening
    ensures OnTick(s, hourOfDay, setRelay) == s
    ensures var r := OnDesiredProperties(s, props, hourOfDay, setRelay);
            r.calls == s.calls && r.currentLightSchedule == s.currentLightSchedule
  {
  }

  /** The intervals offered in turn. */
  function OfferAll(s: RunnerState, periods: seq<Seconds>): RunnerState
    decreases |periods|
  {
    if periods == [] then s else OfferAll(OfferInterval(s, periods[0]), periods[1..])
  }

  /** A run of candidate intervals restarts the timer once per change, as
      the dedup rule says: afterwards the interval is the last candidate and
      the timer is the one started for the last change, or the old one when
      nothing changed. */
  lemma {:induction false} OfferAllFollowsRule(s: RunnerState, periods: seq<Seconds>)
    requires s.intervalListening
    ensures var r := OfferAll(s, periods);
            var applied := Applied(s.currentTimerInterval, periods);
            r.currentTimerInterval == FinalInterval(s.currentTimerInterval, periods) &&
            r.calls == s.calls && r.now == s.now &&
            (applied == [] ==> r.timer == s.timer && r.resends == s.resends) &&
            (applied != [] ==> r.timer == Some(Timer(s.now, applied[|applied| - 1], 0)) && r.resends == [])
    decreases |periods|
  {
    if periods != [] {
      var next := OfferInterval(s, periods[0]);
      OfferAllFollowsRule(next, periods[1..]);
    }
  }

  /** A new interval fetches the status at once and sends it. */
  lemma NewIntervalFetchesAtOnce(s: RunnerState, period: Seconds, status: DeviceStatus, send: Outcome)
    requires s.intervalListening && period != s.currentTimerInterval
    ensures var r := OnFire(OfferInterval(s, period), Ok(status), send);
            r.calls == s.calls + [GetStatusCall(s.now), SendStatusCall(s.now, status)] &&
            r.now == s.now && r.timer == Some(Timer(s.now, period, 1))
  {
  }

  /** The running timer's fetches fall at its start and then every
      `period` seconds. */
  lemma FetchesEvenlySpaced(s: RunnerState)
    requires Inv(s) && s.timer.Some? && s.timer.value.fired > 0
    ensures var times := FetchTimes(s.calls[s.timerSince..]);
            |times| == s.timer.value.fired && times[0] == s.timer.value.start &&
            forall i :: 0 < i < |times| ==> times[i] - times[i - 1] == s.currentTimerInterval
  {
    TickTimesEvenlySpaced(s.timer.value.start, s.timer.value.period, s.timer.value.fired);
  }

  /** The cloud is connected only after the device; if the device fails
      nothing else is called. Either failure ends the interval chain: no
      interval is applied by connecting, and later periods are ignored. */
  lemma ConnectOrder(s: RunnerState, deviceConnect: Outcome, cloudConnect: Outcome,
                     props: Option<DesiredDeviceProperties>, hourOfDay: real, setRelay: Result<bool>)
    requires s.connection == Connecting
    ensures var r := OnConnect(s, deviceConnect, cloudConnect);
            (deviceConnect.Fail? ==> r.calls == s.calls + [DeviceConnectCall]) &&
            (deviceConnect.Done? ==> r.calls == s.calls + [DeviceConnectCall, CloudConnectCall]) &&
            (deviceConnect.Fail? || cloudConnect.Fail? ==>
               r.timer == s.timer && r.currentTimerInterval == s.currentTimerInterval &&
               OnDesiredProperties(r, props, hourOfDay, setRelay).timer == r.timer) &&
            (deviceConnect.Done? && cloudConnect.Done? ==> r == OfferInterval(r.(currentTimerInterval := s.currentTimerInterval, timer := s.timer, timerSince := s.timerSince, resends := s.resends), DefaultInterval))
  {
  }

  /** A fetch that throws sends nothing and ends the status loop, pending
      re-sends included, until another interval is applied. */
  lemma FailedFetchStopsLoop(s: RunnerState, message: string, send: Outcome)
    requires s.timer.Some? && !ResendIsNext(s)
    ensures var r := OnFire(s, Err(message), send);
            r.calls == s.calls + [GetStatusCall(NextDue(s.timer.value))] &&
            r.timer.None? && r.resends == [] && r.currentTimerInterval == s.currentTimerInterval
  {
  }

  /** A send that throws is repeated with the same status 30 s later: the
      re-send is queued at that time, the clock cannot pass it, and it goes
      out at exactly that time. */
  lemma FailedSendIsRepeated(s: RunnerState, status: DeviceStatus, message: string)
    requires Inv(s) && s.timer.Some? && !ResendIsNext(s)
    ensures var due := NextDue(s.timer.value);
            var r := OnFire(s, Ok(status), Fail(message));
            r.resends == s.resends + [Resend(due + RetryDelay, status)] &&
            forall time :: CanAdvance(r, time) ==> time <= due + RetryDelay
  {
  }

  /** A re-send goes out at its due time, with its status, and only once. */
  lemma ResendGoesOutWhenDue(s: RunnerState, fetch: Result<DeviceStatus>, send: Outcome)
    requires s.timer.Some? && ResendIsNext(s)
    ensures var r := OnFire(s, fetch, send);
            r.now == s.resends[0].due &&
            r.calls == s.calls + [SendStatusCall(s.resends[0].due, s.resends[0].status)] &&
            r.resends == s.resends[1..] && r.timer == s.timer
  {
  }

  // ----- the runner -----

  class Runner {
    var now: int
    var currentTimerInterval: int
    /** `_timedUpdateDisposable`: the status timer, while it runs. */
    var timer: Option<Timer>
    var timerSince: nat
    var resends: seq<Resend>
    var currentLightSchedule: LightSchedule
    var currentRelayStatus: map<byte, Relay>
    var connection: Connection
    var intervalListening: bool
    var scheduleListening: bool
    var calls: seq<RunnerCall>
    /** The snapshot the firmware reports are merged into. */
    const currentFirmware: FirmwareSnapshot

    function State(): RunnerState
      reads this
    {
      RunnerState(now, currentTimerInterval, timer, timerSince, resends, currentLightSchedule,
                  currentRelayStatus, connection, intervalListening, scheduleListening, calls)
    }

    predicate Valid()
      reads this
    {
      Inv(State())
    }

    constructor()
      ensures Valid() && State() == Initial
      ensures fresh(currentFirmware) && currentFirmware.Value() == NewCurrentFirmware
    {
      now := 0;
      currentTimerInterval := 0;
      timer := None;
      timerSince := 0;
      resends := [];
      currentLightSchedule := DefaultLightSchedule;
      currentRelayStatus := map[];
      connection := Connecting;
      intervalListening := true;
      scheduleListening := true;
      calls := [];
      currentFirmware := new FirmwareSnapshot();
    }

    method StartIntervalledStatusUpdate(period: Seconds)
      modifies this
      ensures State() == old(State()).(currentTimerInterval := period, timer := Some(Timer(old(now), period, 0)),
                                       timerSince := |old(calls)|, resends := [])
    {
      currentTimerInterval := period;
      timer := Some(Timer(now, period, 0));
      timerSince := |calls|;
      resends := [];
    }

    /** A candidate interval reaching the end of the interval chain. */
    method NewInterval(period: Seconds)
      modifies this
      ensures State() == OfferInterval(old(State()), period)
    {
      if intervalListening && period != currentTimerInterval {
        StartIntervalledStatusUpdate(period);
      }
    }

    /** The relay part of the schedule chain, from the computed relay state
        to `SetRelay`. */
    method SetRelayFromSchedule(lightSchedule: LightSchedule, hourOfDay: real, setRelay: Result<bool>)
      modifies this
      ensures State() == EvaluateLight(old(State()), lightSchedule, hourOfDay, setRelay)
    {
      var relay := RelayStatusFromHourOfDay(lightSchedule, hourOfDay);
      if !(relay.number in currentRelayStatus) || currentRelayStatus[relay.number] != relay {
        currentRelayStatus := currentRelayStatus[relay.number := relay];
        calls := calls + [SetRelayCall(relay)];
        if setRelay.Err? {
          scheduleListening := false;
        }
      }
    }

    /** A desired-properties push, at hour of day `hourOfDay`, with the
        answer `SetRelay` gives if it is called. */
    method DesiredPropertiesChanged(props: Option<DesiredDeviceProperties>, hourOfDay: real, setRelay: Result<bool>)
      requires Valid()
      modifies this
      ensures Valid()
      ensures State() == OnDesiredProperties(old(State()), props, hourOfDay, setRelay)
    {
      ghost var s := State();
      if scheduleListening && props.Some? && props.value.lightSchedule.Some? {
        currentLightSchedule := props.value.lightSchedule.value;
        SetRelayFromSchedule(currentLightSchedule, hourOfDay, setRelay);
      }
      if props.Some? && props.value.telemetryConfig.Some? {
        NewInterval(props.value.telemetryConfig.value.period);
      }
      OnDesiredPropertiesInv(s, props, hourOfDay, setRelay);
    }

    /** A tick of the clock service carrying the hour of day. */
    method Tick(hourOfDay: real, setRelay: Result<bool>)
      requires Valid()
      modifies this
      ensures Valid()
      ensures State() == OnTick(old(State()), hourOfDay, setRelay)
    {
      ghost var s := State();
      if scheduleListening {
        SetRelayFromSchedule(currentLightSchedule, hourOfDay, setRelay);
      }
      OnTickInv(s, hourOfDay, setRelay);
    }

    /** `ConnectToSerialAndCloud` with the outcomes of the two connects. */
    method ConnectToSerialAndCloud(deviceConnect: Outcome, cloudConnect: Outcome)
      requires Valid()
      modifies this
      ensures Valid()
      ensures State() == OnConnect(old(State()), deviceConnect, cloudConnect)
    {
      ghost var s := State();
      if connection == Connecting {
        calls := calls + [DeviceConnectCall];
        if deviceConnect.Fail? {
          connection := ConnectFailed;
          intervalListening := false;
        } else {
          calls := calls + [CloudConnectCall];
          assert calls == s.calls + [DeviceConnectCall, CloudConnectCall];
          if cloudConnect.Fail? {
            connection := ConnectFailed;
            intervalListening := false;
          } else {
            connection := Connected;
            NewInterval(DefaultInterval);
          }
        }
      }
      OnConnectInv(s, deviceConnect, cloudConnect);
    }

    /** The scheduler's clock moves to `time`. */
    method AdvanceClock(time: int)
      requires Valid() && CanAdvance(State(), time)
      modifies this
      ensures Valid()
      ensures State() == old(State()).(now := time)
    {
      ghost var s := State();
      now := time;
      OnAdvanceInv(s, time);
    }

    /** The status loop's earliest due action fires, with the answers of
        `GetStatus` and `SendStatusMessage`. */
    method FireNextAction(fetch: Result<DeviceStatus>, send: Outcome)
      requires Valid() && timer.Some?
      modifies this
      ensures Valid()
      ensures State() == OnFire(old(State()), fetch, send)
    {
      ghost var s := State();
      var t := timer.value;
      var due := NextDue(t);
      if resends != [] && resends[0].due <= due {
        var resend := resends[0];
        now := resend.due;
        calls := calls + [SendStatusCall(resend.due, resend.status)];
        resends := resends[1..];
        assert State() == OnFire(s, fetch, send);
      } else {
        now := due;
        calls := calls + [GetStatusCall(due)];
        if fetch.Err? {
          timer := None;
          resends := [];
          assert State() == OnFire(s, fetch, send);
        } else {
          calls := calls + [SendStatusCall(due, fetch.value)];
          assert calls == s.calls + [GetStatusCall(due), SendStatusCall(due, fetch.value)];
          timer := Some(t.(fired := t.fired + 1));
          if send.Fail? {
            resends := resends + [Resend(due + RetryDelay, fetch.value)];
          }
          assert State() == OnFire(s, fetch, send);
        }
      }
      OnFireInv(s, fetch, send);
    }

    /** A report from `UpdateFirmware`, merged into the snapshot. */
    method FirmwareStatusChanged(firmware: CurrentFirmware)
      modifies currentFirmware
      ensures currentFirmware.Value() == MergeNotNull(firmware, old(currentFirmware.Value()))
    {
      UpdateNotNullProperties(firmware, currentFirmware);
    }
  }
}
