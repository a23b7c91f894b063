/** The firmware-update state machine of `ArduinoSerialDeviceFirmwareUpdater`.
    A desired-properties push naming an `ArduinoSerialFirmware` makes it ask
    the controller for its version. If that equals the desired version it
    reports Current; otherwise it downloads the image, checks its MD5,
    uploads it with arduino-cli between a disconnect and a reconnect, and
    reports every stage. A busy flag refuses a second update while one is
    running. Every report goes to the cloud (`UpdateProperties`) and then
    to the subscribers of `UpdateFirmware`.

    The collaborators are answers handed in: the awaited calls of one update
    are resumed one at a time by `ResumeUpdate`, so that other pushes can
    arrive in between, as they can at each `await` in `FirmwareUpdate`. */
module FirmwareUpdater {
  import opened Wrappers
  import opened Text
  import opened Models
  import opened Parser

  /** The collaborator calls the updater makes, in the order it makes them. */
  datatype Call =
    | GetFirmwareCall
    | SafeFileCall(uri: Option<string>, path: string)
    | Md5Call(path: string)
    | DisconnectCall
    | UploadCall(path: string, port: string, fqbn: string)
    | ConnectCall
    | UpdatePropertiesCall(firmware: CurrentFirmware)

  const InProgressSubstatus := "Firmware update in progress"
  const ChecksumInvalid := "Checksum is invalid try again!"

  function CurrentStatus(currentFwVersion: string): CurrentFirmware {
    CurrentFirmware(Some(currentFwVersion), None, Current, Some("Firmware already up to date"), None, None)
  }

  const BusyStatus := CurrentFirmware(None, None, Error, Some(InProgressSubstatus), None, None)

  function DownloadingStatus(currentFwVersion: string, pendingFwVersion: string, startTime: string): CurrentFirmware {
    CurrentFirmware(Some(currentFwVersion), Some(pendingFwVersion), Downloading, Some("Start downloading"), Some(startTime), None)
  }

  const VerifyingStatus := CurrentFirmware(None, None, Verifying, Some("Start verifying download"), None, None)
  const ApplyingStatus := CurrentFirmware(None, None, Applying, Some("Applying image"), None, None)
  const RebootingStatus := CurrentFirmware(None, None, Rebooting, Some("Rebooting connection"), None, None)

  function UpdatedStatus(fwVersion: string, endTime: string): CurrentFirmware {
    CurrentFirmware(Some(fwVersion), Some(""), Current, Some("Update successfull"), None, Some(endTime))
  }

  function ErrorStatus(message: string): CurrentFirmware {
    CurrentFirmware(None, None, Error, Some("Couldn't update firmware: " + message), None, None)
  }

  /** `Path.Combine` of two non-null paths with the Unix separator. */
  function PathCombine(path1: string, path2: string): string {
    if path2 == [] then path1
    else if path1 == [] || path2[0] == '/' then path2
    else if path1[|path1| - 1] == '/' then path1 + path2
    else path1 + "/" + path2
  }

  function FirmwareFileName(fwVersion: string): string {
    "arduinoserial_" + fwVersion + ".hex"
  }

  /** Where `DownloadFirmware` stores the image. */
  function DownloadPath(firmwareDownloadPath: string, fwVersion: string): string {
    PathCombine(firmwareDownloadPath, FirmwareFileName(fwVersion))
  }

  /** The image lands in the download directory, under a name that tells the
      version: different versions get different files. */
  lemma DownloadPathOfVersion(dir: string, fwVersion: string, other: string)
    ensures var path := DownloadPath(dir, fwVersion);
            var name := FirmwareFileName(fwVersion);
            |path| >= |name| && path[|path| - |name|..] == name &&
            path[..|path| - |name|] == (if dir == [] then "" else if dir[|dir| - 1] == '/' then dir else dir + "/")
    ensures DownloadPath(dir, fwVersion) == DownloadPath(dir, other) <==> fwVersion == other
  {
    var name := FirmwareFileName(fwVersion);
    var otherName := FirmwareFileName(other);
    var prefix := if dir == [] then "" else if dir[|dir| - 1] == '/' then dir else dir + "/";
    assert DownloadPath(dir, fwVersion) == prefix + name;
    assert DownloadPath(dir, other) == prefix + otherName;
    assert (prefix + name)[|prefix|..] == name;
    assert (prefix + otherName)[|prefix|..] == otherName;
    if name == otherName {
      assert fwVersion == name[14..|name| - 4];
      assert other == otherName[14..|otherName| - 4];
    }
  }

  /** The awaited call an update is suspended at. */
  datatype Phase =
    | AwaitDownload
    | AwaitChecksum
    | AwaitDisconnect
    | AwaitUpload
    | AwaitReconnect(uploadError: string)
    | AwaitConnect

  /** One running `FirmwareUpdate`. */
  datatype Job = Job(fw: ArduinoSerialFirmware, fwVersion: string, path: string, phase: Phase)

  /** What resuming a job does: the call whose answer came in, the status it
      then reports, if any, and the job left afterwards, if any. */
  datatype Step = Step(call: Call, status: Option<CurrentFirmware>, next: Option<Job>)

  /** Resuming a job with the answer of the call it awaits. An `Ok` answer's
      text is used only as the MD5 digest; the one catch block turns every
      failure into an Error report and ends the job. `endTime` is the clock
      reading a successful update reports. */
  function StepJob(job: Job, serialPortName: string, fqbn: string, answer: Result<string>, endTime: string): (s: Step)
  {
    match job.phase
    case AwaitDownload =>
      var call := SafeFileCall(job.fw.fwPackageUri, job.path);
      if answer.Ok? then Step(call, Some(VerifyingStatus), Some(job.(phase := AwaitChecksum)))
      else Step(call, Some(ErrorStatus(answer.message)), None)
    case AwaitChecksum =>
      var call := Md5Call(job.path);
      if answer.Err? then Step(call, Some(ErrorStatus(answer.message)), None)
      else if Some(answer.value) != job.fw.fwPackageCheckValue then Step(call, Some(ErrorStatus(ChecksumInvalid)), None)
      else Step(call, Some(ApplyingStatus), Some(job.(phase := AwaitDisconnect)))
    case AwaitDisconnect =>
      if answer.Ok? then Step(DisconnectCall, None, Some(job.(phase := AwaitUpload)))
      else Step(DisconnectCall, Some(ErrorStatus(answer.message)), None)
    case AwaitUpload =>
      var call := UploadCall(job.path, serialPortName, fqbn);
      if answer.Ok? then Step(call, Some(RebootingStatus), Some(job.(phase := AwaitConnect)))
      else Step(call, None, Some(job.(phase := AwaitReconnect(answer.message))))
    case AwaitReconnect(uploadError) =>
      Step(ConnectCall, Some(ErrorStatus(if answer.Ok? then uploadError else answer.message)), None)
    case AwaitConnect =>
      if answer.Ok? then Step(ConnectCall, Some(UpdatedStatus(job.fwVersion, endTime)), None)
      else Step(ConnectCall, Some(ErrorStatus(answer.message)), None)
  }

  /** A job resumed with a sequence of answers until it ends or they run out. */
  datatype Run = Run(calls: seq<Call>, statuses: seq<CurrentFirmware>, remaining: Option<Job>)

  function RunJob(job: Job, serialPortName: string, fqbn: string, answers: seq<Result<string>>, endTime: string): (r: Run)
    decreases |answers|
  {
    if answers == [] then Run([], [], Some(job))
    else
      var step := StepJob(job, serialPortName, fqbn, answers[0], endTime);
      var reported := if step.status.Some? then [step.status.value] else [];
      if step.next.None? then Run([step.call], reported, None)
      else
        var rest := RunJob(step.next.value, serialPortName, fqbn, answers[1..], endTime);
        Run([step.call] + rest.calls, reported + rest.statuses, rest.remaining)
  }

  /** After download, checksum, disconnect, upload and connect all succeed,
      the update reports Verifying, Applying, Rebooting and Current, in that
      order, with no Error, and is over. */
  lemma SuccessfulRun(job: Job, serialPortName: string, fqbn: string, answers: seq<Result<string>>, endTime: string)
    requires job.phase == AwaitDownload
    requires |answers| == 5 && forall i :: 0 <= i < 5 ==> answers[i].Ok?
    requires job.fw.fwPackageCheckValue == Some(answers[1].value)
    ensures RunJob(job, serialPortName, fqbn, answers, endTime) ==
      Run([SafeFileCall(job.fw.fwPackageUri, job.path), Md5Call(job.path), DisconnectCall,
           UploadCall(job.path, serialPortName, fqbn), ConnectCall],
          [VerifyingStatus, ApplyingStatus, RebootingStatus, UpdatedStatus(job.fwVersion, endTime)],
          None)
  {
    var a := answers;
    assert a[1..][1..][1..][1..][1..] == [];
    var j1 := job.(phase := AwaitChecksum);
    var j2 := job.(phase := AwaitDisconnect);
    var j3 := job.(phase := AwaitUpload);
    var j4 := job.(phase := AwaitConnect);
    assert RunJob(j4, serialPortName, fqbn, a[1..][1..][1..][1..], endTime) ==
      Run([ConnectCall], [UpdatedStatus(job.fwVersion, endTime)], None);
    assert RunJob(j3, serialPortName, fqbn, a[1..][1..][1..], endTime) ==
      Run([UploadCall(job.path, serialPortName, fqbn), ConnectCall],
          [RebootingStatus, UpdatedStatus(job.fwVersion, endTime)], None);
    assert RunJob(j2, serialPortName, fqbn, a[1..][1..], endTime) ==
      Run([DisconnectCall, UploadCall(job.path, serialPortName, fqbn), ConnectCall],
          [RebootingStatus, UpdatedStatus(job.fwVersion, endTime)], None);
    assert RunJob(j1, serialPortName, fqbn, a[1..], endTime) ==
      Run([Md5Call(job.path), DisconnectCall, UploadCall(job.path, serialPortName, fqbn), ConnectCall],
          [ApplyingStatus, RebootingStatus, UpdatedStatus(job.fwVersion, endTime)], None);
  }

  predicate IsError(status: CurrentFirmware) {
    status.fwUpdateStatus == Error
  }

  /** An Error report ends the update: it is the last report, it comes
      alone, and a job that is over has reported an Error or its final
      Current. */
  lemma {:induction false} ErrorEndsRun(job: Job, serialPortName: string, fqbn: string, answers: seq<Result<string>>, endTime: string)
    ensures var r := RunJob(job, serialPortName, fqbn, answers, endTime);
            (forall i :: 0 <= i < |r.statuses| && IsError(r.statuses[i]) ==> i == |r.statuses| - 1 && r.remaining.None?) &&
            (r.remaining.None? ==>
               r.statuses != [] &&
               (IsError(r.statuses[|r.statuses| - 1]) || r.statuses[|r.statuses| - 1] == UpdatedStatus(job.fwVersion, endTime)))
    decreases |answers|
  {
    if answers != [] {
      var step := StepJob(job, serialPortName, fqbn, answers[0], endTime);
      if step.next.Some? {
        ErrorEndsRun(step.next.value, serialPortName, fqbn, answers[1..], endTime);
        assert step.next.value.fwVersion == job.fwVersion;
      }
    }
  }

  /** A wrong digest, or a digest that cannot be computed, reports
      Verifying then a single Error, never Applying, and apply never starts. */
  lemma ChecksumFailureNeverApplies(job: Job, serialPortName: string, fqbn: string, answers: seq<Result<string>>, endTime: string)
    requires job.phase == AwaitDownload
    requires |answers| >= 2 && answers[0].Ok?
    requires answers[1].Err? || Some(answers[1].value) != job.fw.fwPackageCheckValue
    ensures RunJob(job, serialPortName, fqbn, answers, endTime) ==
      Run([SafeFileCall(job.fw.fwPackageUri, job.path), Md5Call(job.path)],
          [VerifyingStatus, ErrorStatus(if answers[1].Err? then answers[1].message else ChecksumInvalid)],
          None)
  {
    assert RunJob(job.(phase := AwaitChecksum), serialPortName, fqbn, answers[1..], endTime) ==
      Run([Md5Call(job.path)], [ErrorStatus(if answers[1].Err? then answers[1].message else ChecksumInvalid)], None);
  }

  /** Apply disconnects first; if that fails, nothing is uploaded. */
  lemma DisconnectFailureSkipsUpload(job: Job, serialPortName: string, fqbn: string, answers: seq<Result<string>>, endTime: string)
    requires job.phase == AwaitDisconnect
    requires answers != [] && answers[0].Err?
    ensures RunJob(job, serialPortName, fqbn, answers, endTime) ==
      Run([DisconnectCall], [ErrorStatus(answers[0].message)], None)
  {
  }

  /** A failed upload reconnects before the failure is reported; the Error
      carries the upload's message, or the reconnect's if that fails too. */
  lemma UploadFailureReconnects(job: Job, serialPortName: string, fqbn: string, answers: seq<Result<string>>, endTime: string)
    requires job.phase == AwaitUpload
    requires |answers| >= 2 && answers[0].Err?
    ensures RunJob(job, serialPortName, fqbn, answers, endTime) ==
      Run([UploadCall(job.path, serialPortName, fqbn), ConnectCall],
          [ErrorStatus(if answers[1].Ok? then answers[0].message else answers[1].message)],
          None)
  {
    assert RunJob(job.(phase := AwaitReconnect(answers[0].message)), serialPortName, fqbn, answers[1..], endTime) ==
      Run([ConnectCall], [ErrorStatus(if answers[1].Ok? then answers[0].message else answers[1].message)], None);
  }

  /** The whole observable state of the updater. */
  datatype UpdaterState = UpdaterState(
    isUpdatingFirmware: bool,
    listening: bool,
    job: Option<Job>,
    calls: seq<Call>,
    updateFirmware: seq<CurrentFirmware>)

  /** The busy flag is set exactly while an update is running. */
  predicate Consistent(s: UpdaterState) {
    s.isUpdatingFirmware <==> s.job.Some?
  }

  /** Reporting a status: while `UpdateFirmware` is still subscribed it
      goes to `UpdateProperties` and, once that returns, to the
      subscribers; a failing `UpdateProperties` ends the subscription. After
      that, statuses of a running update go nowhere. */
  function Reported(s: UpdaterState, status: CurrentFirmware, updateProperties: Outcome): (r: UpdaterState)
  {
    if !s.listening then s
    else s.(calls := s.calls + [UpdatePropertiesCall(status)],
             updateFirmware := if updateProperties.Done? then s.updateFirmware + [status] else s.updateFirmware,
             listening := updateProperties.Done?)
  }

  /** The effect of one desired-properties push. `deviceFirmware` is what
      `GetFirmware` returns; a failure there, or a desired version that
      `Version.Parse` refuses, ends the subscription without any report. */
  function OnDesiredProperties(s: UpdaterState, firmwareDownloadPath: string, props: Option<DesiredDeviceProperties>,
                               deviceFirmware: Result<Version>, startTime: string, updateProperties: Outcome): (r: UpdaterState)
  {
    if !s.listening || props.None? || props.value.arduinoSerialFirmware.None? then s
    else
      var fw := props.value.arduinoSerialFirmware.value;
      var asked := s.(calls := s.calls + [GetFirmwareCall]);
      if deviceFirmware.Err? then asked.(listening := false)
      else
        var desired := ParseVersion(fw.fwVersion);
        if desired.None? then asked.(listening := false)
        else if desired.value == deviceFirmware.value then
          Reported(asked, CurrentStatus(VersionToString(deviceFirmware.value)), updateProperties)
        else if s.isUpdatingFirmware then
          Reported(asked, BusyStatus, updateProperties)
        else
          var fwVersion := fw.fwVersion.value;
          var job := Job(fw, fwVersion, DownloadPath(firmwareDownloadPath, fwVersion), AwaitDownload);
          Reported(asked.(isUpdatingFirmware := true, job := Some(job)),
                   DownloadingStatus(VersionToString(deviceFirmware.value), fwVersion, startTime), updateProperties)
  }

  /** The effect of the running update's awaited call returning `answer`;
      the `finally` block clears the flag when the job ends. */
  function OnAnswer(s: UpdaterState, serialPortName: string, fqbn: string, answer: Result<string>,
                    endTime: string, updateProperties: Outcome): (r: UpdaterState)
    requires s.job.Some?
  {
    var step := StepJob(s.job.value, serialPortName, fqbn, answer, endTime);
    var resumed := s.(calls := s.calls + [step.call], job := step.next, isUpdatingFirmware := step.next.Some?);
    if step.status.Some? then Reported(resumed, step.status.value, updateProperties) else resumed
  }

  /** Both events keep the busy flag in step with the running job. */
  lemma EventsKeepConsistent(s: UpdaterState, dir: string, props: Option<DesiredDeviceProperties>,
                             deviceFirmware: Result<Version>, serialPortName: string, fqbn: string,
                             answer: Result<string>, time: string, updateProperties: Outcome)
    requires Consistent(s)
    ensures Consistent(OnDesiredProperties(s, dir, props, deviceFirmware, time, updateProperties))
    ensures s.job.Some? ==> Consistent(OnAnswer(s, serialPortName, fqbn, answer, time, updateProperties))
  {
  }

  /** Up to date: a single Current report carrying the device's version and
      "Firmware already up to date"; nothing is downloaded and the flag is
      left as it was. */
  lemma UpToDateReportsCurrent(s: UpdaterState, dir: string, fw: ArduinoSerialFirmware, device: Version, startTime: string)
    requires s.listening
    requires ParseVersion(fw.fwVersion) == Some(device)
    ensures var r := OnDesiredProperties(s, dir, Some(DesiredDeviceProperties(None, None, Some(fw))), Ok(device), startTime, Done);
            r == s.(calls := s.calls + [GetFirmwareCall, UpdatePropertiesCall(CurrentStatus(VersionToString(device)))],
                    updateFirmware := s.updateFirmware + [CurrentStatus(VersionToString(device))])
  {
    var asked := s.(calls := s.calls + [GetFirmwareCall]);
    var status := CurrentStatus(VersionToString(device));
    UpToDateReported(s, dir, fw, device, startTime);
    ReportedWhenDone(asked, status);
    assert s.calls + [GetFirmwareCall] + [UpdatePropertiesCall(status)] ==
      s.calls + [GetFirmwareCall, UpdatePropertiesCall(status)];
  }

  /** A push while an update runs reports only "Firmware update in
      progress", downloads nothing and leaves the flag and the running
      update alone. */
  lemma BusyReportsInProgress(s: UpdaterState, dir: string, fw: ArduinoSerialFirmware, device: Version, startTime: string)
    requires s.listening && s.isUpdatingFirmware
    requires ParseVersion(fw.fwVersion).Some? && ParseVersion(fw.fwVersion).value != device
    ensures var r := OnDesiredProperties(s, dir, Some(DesiredDeviceProperties(None, None, Some(fw))), Ok(device), startTime, Done);
            r == s.(calls := s.calls + [GetFirmwareCall, UpdatePropertiesCall(BusyStatus)],
                    updateFirmware := s.updateFirmware + [BusyStatus])
  {
    var asked := s.(calls := s.calls + [GetFirmwareCall]);
    BusyReported(s, dir, fw, device, startTime);
    ReportedWhenDone(asked, BusyStatus);
    assert s.calls + [GetFirmwareCall] + [UpdatePropertiesCall(BusyStatus)] ==
      s.calls + [GetFirmwareCall, UpdatePropertiesCall(BusyStatus)];
  }

  lemma UpToDateReported(s: UpdaterState, dir: string, fw: ArduinoSerialFirmware, device: Version, startTime: string)
    requires s.listening
    requires ParseVersion(fw.fwVersion) == Some(device)
    ensures OnDesiredProperties(s, dir, Some(DesiredDeviceProperties(None, None, Some(fw))), Ok(device), startTime, Done) ==
            Reported(s.(calls := s.calls + [GetFirmwareCall]), CurrentStatus(VersionToString(device)), Done)
  {
    var desired := ParseVersion(fw.fwVersion);
    assert desired.Some? && desired.value == device;
  }

  lemma BusyReported(s: UpdaterState, dir: string, fw: ArduinoSerialFirmware, device: Version, startTime: string)
    requires s.listening && s.isUpdatingFirmware
    requires ParseVersion(fw.fwVersion).Some? && ParseVersion(fw.fwVersion).value != device
    ensures OnDesiredProperties(s, dir, Some(DesiredDeviceProperties(None, None, Some(fw))), Ok(device), startTime, Done) ==
            Reported(s.(calls := s.calls + [GetFirmwareCall]), BusyStatus, Done)
  {
    var desired := ParseVersion(fw.fwVersion);
    assert desired.Some? && desired.value != device;
  }

  /** A device that cannot report its version, or a desired version that
      does not parse, silences the updater for good: no status at all, not
      even an Error, and no later push is looked at. */
  lemma BadVersionEndsListening(s: UpdaterState, dir: string, props: DesiredDeviceProperties,
                                deviceFirmware: Result<Version>, startTime: string, updateProperties: Outcome,
                                later: Option<DesiredDeviceProperties>, laterFirmware: Result<Version>)
    requires s.listening && props.arduinoSerialFirmware.Some?
    requires deviceFirmware.Err? || ParseVersion(props.arduinoSerialFirmware.value.fwVersion).None?
    ensures var r := OnDesiredProperties(s, dir, Some(props), deviceFirmware, startTime, updateProperties);
            r == s.(calls := s.calls + [GetFirmwareCall], listening := false) &&
            OnDesiredProperties(r, dir, later, laterFirmware, startTime, updateProperties) == r
  {
  }

  /** Once `UpdateProperties` has failed, the subscription is over: the
      running update still makes its calls and clears the busy flag when it
      ends, but none of its statuses reach the cloud or the subscribers. */
  lemma SilencedUpdateContinues(s: UpdaterState, serialPortName: string, fqbn: string, answer: Result<string>,
                                endTime: string, updateProperties: Outcome)
    requires !s.listening && s.job.Some?
    ensures var step := StepJob(s.job.value, serialPortName, fqbn, answer, endTime);
            OnAnswer(s, serialPortName, fqbn, answer, endTime, updateProperties) ==
              s.(calls := s.calls + [step.call], job := step.next, isUpdatingFirmware := step.next.Some?)
  {
  }

  /** A report the cloud refuses is not delivered and ends the subscription. */
  lemma FailedReportEndsListening(s: UpdaterState, status: CurrentFirmware, message: string)
    requires s.listening
    ensures Reported(s, status, Fail(message)) ==
      s.(calls := s.calls + [UpdatePropertiesCall(status)], listening := false)
  {
  }

  /** Answers to the running update, each report accepted by the cloud. */
  function AnswerAll(s: UpdaterState, serialPortName: string, fqbn: string, answers: seq<Result<string>>, endTime: string): (r: UpdaterState)
    decreases |answers|
  {
    if answers == [] || s.job.None? then s
    else AnswerAll(OnAnswer(s, serialPortName, fqbn, answers[0], endTime, Done), serialPortName, fqbn, answers[1..], endTime)
  }

  /** One answer, its report accepted: the step's status, if any, is
      delivered and the step's job is left. */
  lemma OnAnswerDelivers(s: UpdaterState, serialPortName: string, fqbn: string, answer: Result<string>, endTime: string)
    requires s.listening && s.job.Some?
    ensures var step := StepJob(s.job.value, serialPortName, fqbn, answer, endTime);
            var r := OnAnswer(s, serialPortName, fqbn, answer, endTime, Done);
            r.updateFirmware == s.updateFirmware + (if step.status.Some? then [step.status.value] else []) &&
            r.job == step.next && r.isUpdatingFirmware == step.next.Some? && r.listening
  {
    var step := StepJob(s.job.value, serialPortName, fqbn, answer, endTime);
    if step.status.None? {
      assert s.updateFirmware + [] == s.updateFirmware;
    }
  }

  /** Resuming the running update delivers exactly the reports of its
      `RunJob`, in order, and leaves its remaining job. */
  lemma {:induction false} AnswerAllDeliversRun(s: UpdaterState, serialPortName: string, fqbn: string,
                                               answers: seq<Result<string>>, endTime: string)
    requires s.listening && s.job.Some?
    ensures var r := AnswerAll(s, serialPortName, fqbn, answers, endTime);
            var run := RunJob(s.job.value, serialPortName, fqbn, answers, endTime);
            r.updateFirmware == s.updateFirmware + run.statuses && r.job == run.remaining &&
            (answers != [] ==> r.isUpdatingFirmware == run.remaining.Some?) && r.listening
    decreases |answers|
  {
    if answers != [] {
      var step := StepJob(s.job.value, serialPortName, fqbn, answers[0], endTime);
      var next := OnAnswer(s, serialPortName, fqbn, answers[0], endTime, Done);
      var reported := if step.status.Some? then [step.status.value] else [];
      OnAnswerDelivers(s, serialPortName, fqbn, answers[0], endTime);
      assert AnswerAll(s, serialPortName, fqbn, answers, endTime) == AnswerAll(next, serialPortName, fqbn, answers[1..], endTime);
      if step.next.Some? {
        var rest := RunJob(step.next.value, serialPortName, fqbn, answers[1..], endTime);
        assert RunJob(s.job.value, serialPortName, fqbn, answers, endTime) ==
          Run([step.call] + rest.calls, reported + rest.statuses, rest.remaining);
        AnswerAllDeliversRun(next, serialPortName, fqbn, answers[1..], endTime);
        assert s.updateFirmware + reported + rest.statuses == s.updateFirmware + (reported + rest.statuses);
      } else {
        assert RunJob(s.job.value, serialPortName, fqbn, answers, endTime) == Run([step.call], reported, None);
      }
    }
  }

  /** A push naming another version while idle sets the busy flag, starts
      downloading into the versioned file and reports Downloading with the
      device's version current and the desired one pending. */
  lemma NewVersionStartsUpdate(s: UpdaterState, dir: string, fw: ArduinoSerialFirmware, device: Version, startTime: string)
    requires s.listening && !s.isUpdatingFirmware
    requires ParseVersion(fw.fwVersion).Some? && ParseVersion(fw.fwVersion).value != device
    ensures var r := OnDesiredProperties(s, dir, Some(DesiredDeviceProperties(None, None, Some(fw))), Ok(device), startTime, Done);
            var status := DownloadingStatus(VersionToString(device), fw.fwVersion.value, startTime);
            r == UpdaterState(true, true, Some(Job(fw, fw.fwVersion.value, DownloadPath(dir, fw.fwVersion.value), AwaitDownload)),
                              s.calls + [GetFirmwareCall, UpdatePropertiesCall(status)],
                              s.updateFirmware + [status])
  {
    var fwVersion := NewVersionText(fw, device);
    var status := DownloadingStatus(VersionToString(device), fwVersion, startTime);
    var asked := s.(calls := s.calls + [GetFirmwareCall], isUpdatingFirmware := true,
                    job := Some(Job(fw, fwVersion, DownloadPath(dir, fwVersion), AwaitDownload)));
    NewVersionReported(s, dir, fw, device, startTime);
    ReportedWhenDone(asked, status);
  }

  /** The desired version text of a push that parses to another version. */
  lemma NewVersionText(fw: ArduinoSerialFirmware, device: Version) returns (text: string)
    requires ParseVersion(fw.fwVersion).Some? && ParseVersion(fw.fwVersion).value != device
    ensures fw.fwVersion == Some(text)
  {
    text := fw.fwVersion.value;
  }

  lemma NewVersionReported(s: UpdaterState, dir: string, fw: ArduinoSerialFirmware, device: Version, startTime: string)
    requires s.listening && !s.isUpdatingFirmware
    requires ParseVersion(fw.fwVersion).Some? && ParseVersion(fw.fwVersion).value != device
    ensures fw.fwVersion.Some?
    ensures var fwVersion := fw.fwVersion.value;
            OnDesiredProperties(s, dir, Some(DesiredDeviceProperties(None, None, Some(fw))), Ok(device), startTime, Done) ==
            Reported(s.(calls := s.calls + [GetFirmwareCall], isUpdatingFirmware := true,
                        job := Some(Job(fw, fwVersion, DownloadPath(dir, fwVersion), AwaitDownload))),
                     DownloadingStatus(VersionToString(device), fwVersion, startTime), Done)
  {
    var desired := ParseVersion(fw.fwVersion);
    assert desired.Some? && desired.value != device;
  }

  /** A report the cloud accepts is appended to the calls and the statuses. */
  lemma ReportedWhenDone(s: UpdaterState, status: CurrentFirmware)
    requires s.listening
    ensures Reported(s, status, Done) == s.(calls := s.calls + [UpdatePropertiesCall(status)], updateFirmware := s.updateFirmware + [status])
  {
  }

  /** A started update whose five calls all succeed, the digest matching,
      delivers Verifying, Applying, Rebooting and Current and clears the flag. */
  lemma ResumedUpdateSucceeds(started: UpdaterState, serialPortName: string, fqbn: string,
                              answers: seq<Result<string>>, endTime: string)
    requires started.listening && started.job.Some? && started.job.value.phase == AwaitDownload
    requires |answers| == 5 && forall i :: 0 <= i < 5 ==> answers[i].Ok?
    requires started.job.value.fw.fwPackageCheckValue == Some(answers[1].value)
    ensures var r := AnswerAll(started, serialPortName, fqbn, answers, endTime);
            r.updateFirmware == started.updateFirmware +
              [VerifyingStatus, ApplyingStatus, RebootingStatus, UpdatedStatus(started.job.value.fwVersion, endTime)] &&
            !r.isUpdatingFirmware && r.job.None? && r.listening
  {
    SuccessfulRun(started.job.value, serialPortName, fqbn, answers, endTime);
    AnswerAllDeliversRun(started, serialPortName, fqbn, answers, endTime);
  }

  /** A whole successful update, from the push to the reconnect: the
      subscribers see Downloading (device version current, desired version
      pending), Verifying, Applying, Rebooting and Current (desired version
      current, nothing pending), and the flag is clear again, so that the
      same push repeats the whole sequence. */
  lemma SuccessfulUpdate(s: UpdaterState, dir: string, serialPortName: string, fqbn: string,
                         fw: ArduinoSerialFirmware, device: Version, answers: seq<Result<string>>,
                         startTime: string, endTime: string)
    requires s.listening && !s.isUpdatingFirmware && s.job.None?
    requires ParseVersion(fw.fwVersion).Some? && ParseVersion(fw.fwVersion).value != device
    requires |answers| == 5 && forall i :: 0 <= i < 5 ==> answers[i].Ok?
    requires fw.fwPackageCheckValue == Some(answers[1].value)
    ensures var started := OnDesiredProperties(s, dir, Some(DesiredDeviceProperties(None, None, Some(fw))), Ok(device), startTime, Done);
            var r := AnswerAll(started, serialPortName, fqbn, answers, endTime);
            r.updateFirmware == s.updateFirmware +
              [DownloadingStatus(VersionToString(device), fw.fwVersion.value, startTime)] +
              [VerifyingStatus, ApplyingStatus, RebootingStatus, UpdatedStatus(fw.fwVersion.value, endTime)] &&
            !r.isUpdatingFirmware && r.job.None? && r.listening
  {
    var started := OnDesiredProperties(s, dir, Some(DesiredDeviceProperties(None, None, Some(fw))), Ok(device), startTime, Done);
    NewVersionStartsUpdate(s, dir, fw, device, startTime);
    assert started.job.value.fwVersion == fw.fwVersion.value;
    ResumedUpdateSucceeds(started, serialPortName, fqbn, answers, endTime);
  }

  class ArduinoSerialDeviceFirmwareUpdater {
    const firmwareDownloadPath: string
    const serialPortName: string
    const fqbn: string

    var isUpdatingFirmware: bool
    /** Whether `UpdateFirmware` is still subscribed to the desired properties. */
    var listening: bool
    /** The update in progress, suspended at an awaited call. */
    var job: Option<Job>
    var calls: seq<Call>
    /** The statuses `UpdateFirmware` has delivered to its subscribers. */
    var updateFirmware: seq<CurrentFirmware>

    function State(): UpdaterState
      reads this
    {
      UpdaterState(isUpdatingFirmware, listening, job, calls, updateFirmware)
    }

    predicate Valid()
      reads this
    {
      Consistent(State())
    }

    constructor(firmwareDownloadPath: string, serialPortName: string, fqbn: string)
      ensures Valid()
      ensures this.firmwareDownloadPath == firmwareDownloadPath && this.serialPortName == serialPortName && this.fqbn == fqbn
      ensures State() == UpdaterState(false, true, None, [], [])
    {
      this.firmwareDownloadPath := firmwareDownloadPath;
      this.serialPortName := serialPortName;
      this.fqbn := fqbn;
      isUpdatingFirmware := false;
      listening := true;
      job := None;
      calls := [];
      updateFirmware := [];
    }

    method Report(status: CurrentFirmware, updateProperties: Outcome)
      modifies this
      ensures State() == Reported(old(State()), status, updateProperties)
    {
      if listening {
        calls := calls + [UpdatePropertiesCall(status)];
        if updateProperties.Done? {
          updateFirmware := updateFirmware + [status];
        } else {
          listening := false;
        }
      }
    }

    /** `ListenForDesiredFirmware`, `FirmwareIsCurrent` and the start of
        `FirmwareUpdate` for one push. */
    method DesiredPropertiesChanged(props: Option<DesiredDeviceProperties>, deviceFirmware: Result<Version>,
                                    startTime: string, updateProperties: Outcome)
      requires Valid()
      modifies this
      ensures Valid()
      ensures State() == OnDesiredProperties(old(State()), firmwareDownloadPath, props, deviceFirmware, startTime, updateProperties)
    {
      if !listening || props.None? || props.value.arduinoSerialFirmware.None? {
        return;
      }
      var fw := props.value.arduinoSerialFirmware.value;
      calls := calls + [GetFirmwareCall];
      if deviceFirmware.Err? {
        listening := false;
        return;
      }
      var desiredFwVersion := ParseVersion(fw.fwVersion);
      if desiredFwVersion.None? {
        listening := false;
        return;
      }
      if desiredFwVersion.value == deviceFirmware.value {
        Report(CurrentStatus(VersionToString(deviceFirmware.value)), updateProperties);
      } else if isUpdatingFirmware {
        Report(BusyStatus, updateProperties);
      } else {
        isUpdatingFirmware := true;
        var fwVersion := fw.fwVersion.value;
        job := Some(Job(fw, fwVersion, DownloadPath(firmwareDownloadPath, fwVersion), AwaitDownload));
        Report(DownloadingStatus(VersionToString(deviceFirmware.value), fwVersion, startTime), updateProperties);
      }
    }

    /** The running update's awaited call returns `answer`. */
    method ResumeUpdate(answer: Result<string>, endTime: string, updateProperties: Outcome)
      requires Valid() && job.Some?
      modifies this
      ensures Valid()
      ensures State() == OnAnswer(old(State()), serialPortName, fqbn, answer, endTime, updateProperties)
    {
      var step := StepJob(job.value, serialPortName, fqbn, answer, endTime);
      calls := calls + [step.call];
      job := step.next;
      isUpdatingFirmware := step.next.Some?;
      if step.status.Some? {
        Report(step.status.value, updateProperties);
      }
    }
  }
}
