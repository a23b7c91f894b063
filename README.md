# Smagribot agent core in Dafny

Smagribot is an IoT agent written in C#. It sits between a serial-attached
grow-box controller (or a Raspberry Pi camera) and an Azure device twin. This
project models the agent's decision logic and proves properties of it:

- the Smagribot `Runner`: the light schedule driving relay 0 with redundant
  writes suppressed; the telemetry interval rule and the periodic status loop
  with its single delayed re-send; the connect handshake; the firmware
  snapshot merge;
- the camera `Runner`: the same interval rule behind a positive-period guard,
  the image configuration each capture uses, and the upload file name;
- `ArduinoSerialDeviceFirmwareUpdater`: the version comparison, the busy flag,
  and the download / verify / apply / reboot sequence with its one catch
  block and its `finally`;
- `SerialDeviceResultParser`, the `SmagriBotDevice` command layer over a
  scripted serial link, and the `ClockService` hour-of-day conversion.

Modules and files:

- `wrappers.dfy` (module `Wrappers`): `Option`, `Result` (a thrown exception carries its message), `Outcome` of a `Task`
- `text.dfy` (module `Text`): decimal printing of `int`, zero-padded date fields, `string.Split`, `Trim`, ASCII-and-Kelvin `ToLower`
- `models.dfy` (module `Models`): the value types: `Relay`, `Fan`, `LightSchedule`, `DesiredDeviceProperties`, `ArduinoSerialFirmware`, `CurrentFirmware`, `UpdateStatus`, `DeviceStatus`, `System.Version`
- `clock.dfy` (module `Clock`): `DateTime` readings and `ClockService.HourOfDay`
- `parser.dfy` (module `Parser`): `SerialDeviceResultParser` and `Version.Parse` / `ToString`
- `device.dfy` (module `Device`): `SmagriBotDevice` over a `CommunicationService` class whose replies are scripted
- `scheduling.dfy` (module `Scheduling`): the timer that `Observable.Interval(p).Merge(Observable.Return(0))` runs, and the shared interval rule
- `firmware_updater.dfy` (module `FirmwareUpdater`): the update state machine: a pure step function plus the class that holds the flag
- `runner.dfy` (module `Runner`): the Smagribot `Runner` as a state function per event plus the class with one method per event
- `camera.dfy` (module `Camera`): the camera `Runner` and `GetFilename`

Each Rx chain is an explicit event. There are methods for a desired-properties
push, a clock tick, the connect attempt, a firmware report, the virtual clock
moving on, and the next due timer action. Collaborators (the cloud, the serial
link, the camera, HTTP, MD5, arduino-cli, the wall clock) are arguments
holding their answers. The calls made to them are recorded in order. Each
class method is specified by a state function (`ensures State() ==
OnTick(old(State()), ...)`). The invariants, and the properties the code and
its tests promise, are lemmas about those functions.

The model follows the code as written; these behaviours are easy to misread:

- **Re-sends.** `SendStatusToCloudWithRetry` zips the failures with one
  delayed value. A failed status message is therefore sent again once, 30 s
  later, and then given up; it is not retried forever.
- **SetRelay failures.** `ObserveLightSchedule` has no retry around
  `SetRelay`. A `SetRelay` that throws ends the schedule chain for good.
- **Failed fetches.** A failed `GetStatus` (or a failed `TakePicture` or
  `UploadData` in the camera) does not just skip one tick. It errors the
  timer's chain, so the periodic loop stops until a different interval
  is applied.
- **Connect failures.** The connect attempt is made once. A failure errors
  the merged interval chain, so no interval is ever applied afterwards,
  whatever later pushes say. In the camera this also ends the
  image-configuration updates.
- **Stale pending version.** A successful update reports
  `PendingFwVersion = ""`. `UpdateNotNullProperties` does not copy empty
  strings, so the runner's snapshot keeps the old pending version.
- **Null image configuration.** A camera push whose `TimelapseConfig` has no
  `ImageConfig` sets the current configuration to null. The next capture
  uses null.

## Model

| member | source | states |
|---|---|---|
| Clock.HourOfDay | modules/Smagribot/Services/Utils/ClockService.cs:22-29 | the result times 3600 is the second of the day, hour·3600 + minute·60 + second |
| Clock.HourOfDayInRange | modules/Smagribot/Services/Utils/ClockService.cs:24-28 | for valid clock fields the hour of day lies in [0, 24) |
| Clock.HourOfDayOnTheHour | modules/Smagribot/Services/Utils/ClockService.cs:25-28 | with minute and second 0 the result is the hour |
| Clock.HourOfDayIgnoresSubseconds | modules/Smagribot/Services/Utils/ClockService.cs:24-27 | readings that agree on hour, minute and second convert alike, whatever their date and milliseconds |
| Clock.HourOfDayIncreasing | modules/Smagribot/Services/Utils/ClockService.cs:25-28 | strictly increasing in (hour, minute, second) order within a day |
| Clock.SecondOfDayFields | modules/Smagribot/Services/Utils/ClockService.cs:25-27 | hour, minute and second can be read back from the second of the day |
| Clock.HourOfDayDeterminesTime | modules/Smagribot/Services/Utils/ClockService.cs:22-29 | equal hours of day mean equal hour, minute and second, the converse of the above |
| Text.NatToStringValue | modules/Smagribot/Services/Device/SmagriBotDevice.cs:87 | a number printed in decimal reads back as that number |
| Text.NatToStringInjective | modules/Smagribot/Services/Device/SmagriBotDevice.cs:87 | two numbers print alike exactly when they are equal |
| Text.IntToString | modules/Smagribot/Services/Device/SmagriBotDevice.cs:81 | `Int32.ToString`: a leading '-' exactly for negative values, followed by the decimal digits of the magnitude |
| Text.IntToStringInjective | modules/Smagribot/Services/Device/SmagriBotDevice.cs:81 | two integers print alike exactly when they are equal |
| Text.FixedDigitsValue | modules/Camera/Runner.cs:98 | a zero-padded date field of width w reads back as its value when below 10^w |
| Text.Split | modules/Smagribot/Services/Device/SmagriBotDevice.cs:56 | at least one piece, no piece holds the separator, and joining the pieces gives the text back |
| Text.SplitJoin | modules/Smagribot/Services/Device/SmagriBotDevice.cs:56 | splitting a join of separator-free pieces gives the pieces back |
| Text.ToLower | Smagribot/Services/Parser/SerialDeviceResultParser.cs:44 | same length; capital ASCII letters move down to their lower-case letter and the Kelvin sign U+212A becomes 'k'; every other character is kept; no capital ASCII letter or Kelvin sign is left |
| Text.ToLowerIdempotent | Smagribot/Services/Parser/SerialDeviceResultParser.cs:44 | lower-casing twice is lower-casing once |
| Text.TrimStart | Smagribot/Services/Parser/SerialDeviceResultParser.cs:34 | the result is a suffix, everything dropped is white space, and it starts with non-white space |
| Text.TrimTrailingNuls | Smagribot/Services/Parser/SerialDeviceResultParser.cs:34 | the result is a prefix, everything dropped is a NUL character, and it does not end in one |
| Text.TrimEnd | Smagribot/Services/Parser/SerialDeviceResultParser.cs:34 | the result is a prefix, everything dropped is white space, and it ends with non-white space |
| Parser.ParseBool | Smagribot/Services/Parser/SerialDeviceResultParser.cs:7-15 | true exactly for "1", false exactly for "0"; every other text and null throws "Can't parse … to bool!" |
| Parser.FormatBool | Smagribot/Services/Parser/SerialDeviceResultParser.cs:17-20 | the text is "1" or "0" and parses back to the flag |
| Parser.FormatParsedBool | Smagribot/Services/Parser/SerialDeviceResultParser.cs:7-20 | formatting a parsed flag gives the text back |
| Parser.ParseIntAcceptsExactly | Smagribot/Services/Parser/SerialDeviceResultParser.cs:32-40 | a reply is accepted exactly when, after dropping its trailing NUL characters and then the white space around it, it is an optional '+' or '-' and one or more digits whose value lies in the `Int32` range, and the result is that value |
| Parser.ParseIntNeedsADigit | Smagribot/Services/Parser/SerialDeviceResultParser.cs:32-40 | a reply without a digit is refused: "", blank text, a lone sign with white space around it |
| Parser.ParseIntOfIntToString | Smagribot/Services/Parser/SerialDeviceResultParser.cs:32-40 | every `Int32` printed by `ToString` ("1", "-1", "0", …) parses back to itself |
| Parser.ParseIntIgnoresTrailingNuls | Smagribot/Services/Parser/SerialDeviceResultParser.cs:32-40 | NUL characters appended to a reply change neither whether it is accepted nor its value: "5\0" and "5 \0" read as 5 |
| Parser.ParseIntRefusesNulBeforeWhiteSpace | Smagribot/Services/Parser/SerialDeviceResultParser.cs:32-40 | a NUL followed by white space is not trailing: "5\0 " is refused |
| Parser.ParseIntAcceptsOnlyNumerals | Smagribot/Services/Parser/SerialDeviceResultParser.cs:32-40 | a reply holding, anywhere before its last non-NUL character, a character other than white space, a sign or a digit is refused, "1.0.0" and free text included |
| Parser.ParseCommandAccepts | Smagribot/Services/Parser/SerialDeviceResultParser.cs:42-45 | the acknowledgements are exactly the two-letter replies "ok" in any letter case; null and every other text give false, nothing throws |
| Parser.ParseComponents | Smagribot/Services/Parser/SerialDeviceResultParser.cs:47-50 | a parsed version has one component per dot-separated part |
| Parser.ParseVersionOfToString | Smagribot/Services/Parser/SerialDeviceResultParser.cs:47-50 | `Version.Parse(v.ToString())` gives v back |
| Parser.ParseVersionIgnoresTrailingNuls | Smagribot/Services/Parser/SerialDeviceResultParser.cs:47-50 | `v.ToString()` followed by any run of NUL characters still parses to v: "1.2\0" is 1.2 |
| Parser.VersionEqualityIsTextual | Smagribot/Services/DeviceFirmwareUpdater/ArduinoSerialDeviceFirmwareUpdater.cs:90 | two versions are equal exactly when they print the same |
| Device.CommunicationService.Send | modules/Smagribot/Services/DeviceCommunication/ICommunicationService.cs:9 | records the command and returns the scripted reply for its position |
| Device.CommunicationService.constructor | modules/Smagribot/Services/DeviceCommunication/ICommunicationService.cs:5-10 | a fresh link has made no calls and answers from the given scripts |
| Device.CommunicationService.Start | modules/Smagribot/Services/DeviceCommunication/ICommunicationService.cs:7 | records one `Start` and returns the scripted outcome for its position |
| Device.CommunicationService.Stop | modules/Smagribot/Services/DeviceCommunication/ICommunicationService.cs:8 | records one `Stop` and returns the scripted outcome for its position |
| Device.SmagriBotDevice.Connect | modules/Smagribot/Services/Device/SmagriBotDevice.cs:25-28 | records exactly one `Start` and returns its outcome |
| Device.SmagriBotDevice.Disconnect | modules/Smagribot/Services/Device/SmagriBotDevice.cs:30-33 | records exactly one `Stop` and returns its outcome |
| Device.SmagriBotDevice.AddFill | modules/Smagribot/Services/Device/SmagriBotDevice.cs:61-65 | sends "getfill" and sets `Fill` from `ParseBool` of the reply, or fails with its message |
| Device.SmagriBotDevice.AddHumidityAndTemperature | modules/Smagribot/Services/Device/SmagriBotDevice.cs:53-59 | sends "getdht"; token 0 of the space split becomes `Humidity` and token 1 becomes `Temp`, or it fails |
| Device.SmagriBotDevice.AddWaterTemp | modules/Smagribot/Services/Device/SmagriBotDevice.cs:67-71 | sends "getwatertmp" and sets `WaterTemp` from `ParseFloat` of the reply, or fails |
| Device.SmagriBotDevice.GetStatus | modules/Smagribot/Services/Device/SmagriBotDevice.cs:35-45 | the calls made and the result are those of `GetStatusQuery` for the link's next call number |
| Device.StatusQueryOrder | modules/Smagribot/Services/Device/SmagriBotDevice.cs:35-45 | the queries are a prefix of "getfill", "getdht", "getwatertmp"; a status needs all three; "getfan" is never sent |
| Device.GetStatusReadsReplies | modules/Smagribot/Services/Device/SmagriBotDevice.cs:35-71 | a status comes back exactly when all three replies parse; it then holds their values, with `FanSpeed` 0 |
| Device.DhtReadingOfTwoTokens | modules/Smagribot/Services/Device/SmagriBotDevice.cs:53-59 | "h t" yields humidity h and temperature t |
| Device.DhtReadingOfOneToken | modules/Smagribot/Services/Device/SmagriBotDevice.cs:56-58 | a one-token reply fails with the index-out-of-range message, or the float message when the token does not parse |
| Device.SmagriBotDevice.GetFirmware | modules/Smagribot/Services/Device/SmagriBotDevice.cs:47-51 | sends "getfw" and returns `ParseVersion` of the reply, or fails |
| Device.SmagriBotDevice.SetFan | modules/Smagribot/Services/Device/SmagriBotDevice.cs:79-83 | sends `SetFanCommand(fan)` and returns `ParseCommand` of the reply |
| Device.SetFanCommandDecodes | modules/Smagribot/Services/Device/SmagriBotDevice.cs:81 | the command is "setfan" and the speed, which `ParseInt` reads back; the fan number is not sent |
| Device.SmagriBotDevice.SetRelay | modules/Smagribot/Services/Device/SmagriBotDevice.cs:85-90 | sends `SetRelayCommand(relay)` and returns `ParseCommand` of the reply |
| Device.SmagriBotDevice.constructor | modules/Smagribot/Services/Device/SmagriBotDevice.cs:17-23 | the device holds the given link and float parser |
| Device.SetRelayCommandParts | modules/Smagribot/Services/Device/SmagriBotDevice.cs:87 | the command splits into "setrelay", the decimal number and `ParseBool(On)` |
| Device.SetRelayCommandDecodes | modules/Smagribot/Services/Device/SmagriBotDevice.cs:87 | number and state read back from the command, so two relays send the same command exactly when equal |
| Scheduling.AppliedChanges | Smagribot/Runner.cs:162-163 | every applied interval differs from the one before it and is one of the candidates |
| Scheduling.AppliedNothingWhenUnchanged | Smagribot/Runner.cs:162-163 | candidates equal to the current interval apply nothing and leave it |
| Scheduling.FinalIntervalIsLastCandidate | Smagribot/Runner.cs:162-163 | after a run of candidates the interval is the last candidate |
| Scheduling.AppliedSnoc | Smagribot/Runner.cs:162-163 | one more candidate is applied exactly when it differs from the interval reached so far |
| FirmwareUpdater.DownloadPathOfVersion | Smagribot/Services/DeviceFirmwareUpdater/ArduinoSerialDeviceFirmwareUpdater.cs:194-199 | the image goes to the download directory under "arduinoserial_" + version + ".hex"; different versions get different paths |
| FirmwareUpdater.SuccessfulRun | Smagribot/Services/DeviceFirmwareUpdater/ArduinoSerialDeviceFirmwareUpdater.cs:137-170 | with every step succeeding: download, MD5, disconnect, upload, connect in order, reporting Verifying, Applying, Rebooting, Current |
| FirmwareUpdater.ErrorEndsRun | Smagribot/Services/DeviceFirmwareUpdater/ArduinoSerialDeviceFirmwareUpdater.cs:172-186 | an Error is the last status and ends the job; a finished job ended in one Error or in Current |
| FirmwareUpdater.ChecksumFailureNeverApplies | Smagribot/Services/DeviceFirmwareUpdater/ArduinoSerialDeviceFirmwareUpdater.cs:201-206 | a wrong or failing MD5 reports Verifying then Error ("Checksum is invalid try again!" or the MD5 message), and nothing is disconnected or uploaded |
| FirmwareUpdater.DisconnectFailureSkipsUpload | Smagribot/Services/DeviceFirmwareUpdater/ArduinoSerialDeviceFirmwareUpdater.cs:208-211 | a failing disconnect reports its Error and no upload is attempted |
| FirmwareUpdater.UploadFailureReconnects | Smagribot/Services/DeviceFirmwareUpdater/ArduinoSerialDeviceFirmwareUpdater.cs:212-220 | a failing upload is followed by a connect before its Error is reported |
| FirmwareUpdater.EventsKeepConsistent | Smagribot/Services/DeviceFirmwareUpdater/ArduinoSerialDeviceFirmwareUpdater.cs:112-186 | the busy flag is set exactly while an update is running, after every push and every answer |
| FirmwareUpdater.UpToDateReportsCurrent | Smagribot/Services/DeviceFirmwareUpdater/ArduinoSerialDeviceFirmwareUpdater.cs:86-98 | equal versions: one Current report with the device version and "Firmware already up to date"; nothing else changes |
| FirmwareUpdater.BusyReportsInProgress | Smagribot/Services/DeviceFirmwareUpdater/ArduinoSerialDeviceFirmwareUpdater.cs:112-122 | while busy, a new version yields only Error "Firmware update in progress"; the flag and the running job stay |
| FirmwareUpdater.NewVersionStartsUpdate | Smagribot/Services/DeviceFirmwareUpdater/ArduinoSerialDeviceFirmwareUpdater.cs:124-133 | a new version sets the flag and reports Downloading with current = device version and pending = desired version |
| FirmwareUpdater.BadVersionEndsListening | Smagribot/Services/DeviceFirmwareUpdater/ArduinoSerialDeviceFirmwareUpdater.cs:62-67 | a failing `GetFirmware` or a malformed desired version reports nothing and ends the subscription, so later pushes change nothing |
| FirmwareUpdater.SilencedUpdateContinues | Smagribot/Services/DeviceFirmwareUpdater/ArduinoSerialDeviceFirmwareUpdater.cs:110-191 | once the subscription has ended, a running update still makes its calls and clears the flag, but reports nothing |
| FirmwareUpdater.FailedReportEndsListening | Smagribot/Services/DeviceFirmwareUpdater/ArduinoSerialDeviceFirmwareUpdater.cs:78-79 | a failing `UpdateProperties` delivers nothing and ends the subscription |
| FirmwareUpdater.AnswerAllDeliversRun | Smagribot/Services/DeviceFirmwareUpdater/ArduinoSerialDeviceFirmwareUpdater.cs:76-186 | answering the running job delivers its statuses one `UpdateProperties` each, in order |
| FirmwareUpdater.ResumedUpdateSucceeds | Smagribot/Services/DeviceFirmwareUpdater/ArduinoSerialDeviceFirmwareUpdater.cs:137-186 | a started update whose steps succeed delivers Verifying, Applying, Rebooting, Current and clears the flag |
| FirmwareUpdater.SuccessfulUpdate | Smagribot/Services/DeviceFirmwareUpdater/ArduinoSerialDeviceFirmwareUpdater.cs:124-186 | a new version plus five good answers delivers Downloading … Current, the last with the desired version; the flag is clear again, so a second identical push repeats the sequence |
| FirmwareUpdater.ArduinoSerialDeviceFirmwareUpdater.Report | Smagribot/Services/DeviceFirmwareUpdater/ArduinoSerialDeviceFirmwareUpdater.cs:76-81 | the new state is `Reported` of the old |
| FirmwareUpdater.ArduinoSerialDeviceFirmwareUpdater.constructor | Smagribot/Services/DeviceFirmwareUpdater/ArduinoSerialDeviceFirmwareUpdater.cs:29-55 | not busy, listening, no running job and nothing reported or called |
| FirmwareUpdater.ArduinoSerialDeviceFirmwareUpdater.DesiredPropertiesChanged | Smagribot/Services/DeviceFirmwareUpdater/ArduinoSerialDeviceFirmwareUpdater.cs:57-133 | the new state is `OnDesiredProperties` of the old, keeping the busy flag consistent |
| FirmwareUpdater.ArduinoSerialDeviceFirmwareUpdater.ResumeUpdate | Smagribot/Services/DeviceFirmwareUpdater/ArduinoSerialDeviceFirmwareUpdater.cs:135-221 | the new state is `OnAnswer` of the old, keeping the busy flag consistent |
| Runner.RelayStatusFromHourOfDay | Smagribot/Runner.cs:96-108 | always relay 0; off when On = Off |
| Runner.RelayFollowsWindow | Smagribot/Runner.cs:96-108 | on a 24-hour dial the relay is on exactly within [On, Off), across midnight when Off < On |
| Runner.MergeNotNullFields | Smagribot/Runner.cs:130-143 | the status is always taken over; each string field only when given (not null or empty); merging twice changes nothing |
| Runner.UpdateNotNullProperties | Smagribot/Runner.cs:130-143 | the snapshot becomes `MergeNotNull` of the report and its old value |
| Runner.MergeAllStatus | Smagribot/Runner.cs:113-118 | after a run of reports the snapshot's status is the last report's |
| Runner.MergeAllNoneGiven | Smagribot/Runner.cs:113-118 | a field that no report gives keeps its old value |
| Runner.MergeAllLastGivenWins | Smagribot/Runner.cs:113-118 | a field holds the last value some report gave it |
| Runner.SnapshotKeepsPendingAfterUpdate | Smagribot/Runner.cs:112-138 | after a successful update the snapshot still shows the pending version, since the final "" is not copied |
| Runner.Runner.FirmwareStatusChanged | Smagribot/Runner.cs:113-118 | a firmware report is merged into the snapshot |
| Runner.FirmwareSnapshot.constructor | Smagribot/Runner.cs:112 | the snapshot starts as `new CurrentFirmware()`: every string field null and the status `Current`, the enum's default |
| Runner.InitialInv | Smagribot/Runner.cs:30-32 | the fresh runner satisfies the invariant |
| Runner.OfferIntervalInv | Smagribot/Runner.cs:161-180 | the interval rule keeps the invariant |
| Runner.EvaluateLightInv | Smagribot/Runner.cs:83-88 | a light evaluation keeps the invariant |
| Runner.OnDesiredPropertiesInv | Smagribot/Runner.cs:77-163 | a push keeps the invariant |
| Runner.OnTickInv | Smagribot/Runner.cs:82-88 | a clock tick keeps the invariant |
| Runner.OnConnectInv | Smagribot/Runner.cs:145-161 | the connect attempt keeps the invariant |
| Runner.OnFireInv | Smagribot/Runner.cs:179-199 | firing the next due fetch or re-send keeps the invariant: fetches fall at the timer's ticks, re-sends are due within 30 s and in order |
| Runner.OnAdvanceInv | Smagribot/Runner.cs:179-196 | the clock may move on to any time at which nothing is overdue |
| Runner.NoRedundantRelayWrites | Smagribot/Runner.cs:83-88 | a relay state is sent exactly when it differs from the last one sent to that relay; the map then holds it and no other entry changes |
| Runner.FirstTickTurnsRelayOff | Smagribot/Runner.cs:31-88 | before any schedule the stored {On=0, Off=0} makes the first tick switch relay 0 off |
| Runner.PushWithoutScheduleKeepsSchedule | Smagribot/Runner.cs:78-79 | a push without a light schedule leaves the schedule, the relay map and the relay calls alone |
| Runner.TickUsesLastSchedule | Smagribot/Runner.cs:79-82 | a tick evaluates the last pushed schedule and writes only a changed relay state |
| Runner.FailedSetRelayEndsSchedule | Smagribot/Runner.cs:88-91 | once a `SetRelay` has thrown, ticks and pushes send no more relay commands |
| Runner.OfferAllFollowsRule | Smagribot/Runner.cs:155-180 | a run of candidates restarts the timer once per change, at the last changed interval; repeats leave the timer alone |
| Runner.NewIntervalFetchesAtOnce | Smagribot/Runner.cs:176-182 | applying an interval fetches and sends status at once, then waits one period |
| Runner.FetchesEvenlySpaced | Smagribot/Runner.cs:179-181 | the running timer's fetches start at its start and are one interval apart |
| Runner.ConnectOrder | Smagribot/Runner.cs:145-161 | the cloud is connected only after the device; a failure applies no interval, now or after later pushes; success offers 15 minutes |
| Runner.FailedFetchStopsLoop | Smagribot/Runner.cs:181 | a failing `GetStatus` sends nothing and stops the status loop |
| Runner.FailedSendIsRepeated | Smagribot/Runner.cs:189-199 | a failing send is queued for 30 s later and the clock cannot pass that moment without it |
| Runner.ResendGoesOutWhenDue | Smagribot/Runner.cs:193-197 | a due re-send goes out at its time and the timer is untouched |
| Runner.Runner.StartIntervalledStatusUpdate | Smagribot/Runner.cs:176-187 | replaces the timer, and any pending re-send, by one started now |
| Runner.Runner.constructor | Smagribot/Runner.cs:30-43 | the initial state: no interval, {On=0, Off=0} stored, empty relay map, no calls; the invariant holds |
| Runner.Runner.NewInterval | Smagribot/Runner.cs:162-168 | the new state is `OfferInterval` of the old |
| Runner.Runner.SetRelayFromSchedule | Smagribot/Runner.cs:83-88 | the new state is `EvaluateLight` of the old |
| Runner.Runner.DesiredPropertiesChanged | Smagribot/Runner.cs:77-163 | the new state is `OnDesiredProperties` of the old, invariant kept |
| Runner.Runner.Tick | Smagribot/Runner.cs:82-88 | the new state is `OnTick` of the old, invariant kept |
| Runner.Runner.ConnectToSerialAndCloud | Smagribot/Runner.cs:145-161 | the new state is `OnConnect` of the old, invariant kept |
| Runner.Runner.AdvanceClock | Smagribot/Runner.cs:179-196 | only the time changes, invariant kept |
| Runner.Runner.FireNextAction | Smagribot/Runner.cs:179-199 | the new state is `OnFire` of the old, invariant kept |
| Camera.GetFilenameLayout | modules/Camera/Runner.cs:96-99 | "timelapse_" + yyyy-MM-dd + "_" + HH-mm-ss + ".jpg", 33 characters, each field at its place |
| Camera.GetFilenameInjective | modules/Camera/Runner.cs:96-99 | two names are equal exactly when the readings agree down to the second |
| Camera.OfferIntervalInv | modules/Camera/Runner.cs:66-85 | the interval rule keeps the invariant |
| Camera.OnDesiredPropertiesInv | modules/Camera/Runner.cs:57-67 | a push keeps the invariant |
| Camera.OnConnectInv | modules/Camera/Runner.cs:49-65 | the connect attempt keeps the invariant |
| Camera.OnFireInv | modules/Camera/Runner.cs:83-89 | a capture keeps the invariant: pictures fall at the timer's ticks |
| Camera.PushReplacesImageConfig | modules/Camera/Runner.cs:58-59 | a push with a `TimelapseConfig` whose period is unchanged or not positive replaces the image configuration and changes nothing else |
| Camera.PushWithNewPeriodUsesConfig | modules/Camera/Runner.cs:58-85 | a push with a new positive period replaces the image configuration and restarts the timer now; its first picture uses the pushed configuration |
| Camera.PushWithoutTimelapseConfigIgnored | modules/Camera/Runner.cs:57-59 | a push without properties or without a `TimelapseConfig` changes nothing |
| Camera.NonPositivePeriodIgnored | modules/Camera/Runner.cs:61 | a period that is not positive leaves the timer and the interval alone |
| Camera.OfferAllFollowsRule | modules/Camera/Runner.cs:65-85 | a run of candidates restarts the timer once per change, at the last changed interval |
| Camera.FirstPictureUsesDefault | modules/Camera/Runner.cs:24-85 | after connecting, the first picture is taken at once with width 640, height 480, BMP, RGBA, quality 100 |
| Camera.NextPictureUsesPushedConfig | modules/Camera/Runner.cs:59-85 | changing only the image configuration takes no picture; the next picture uses it |
| Camera.FailureEndsLoop | modules/Camera/Runner.cs:85-89 | a failing capture uploads nothing; a failing capture or upload stops the loop and nothing is retried |
| Camera.FailedConnectIgnoresPushes | modules/Camera/Runner.cs:49-67 | after a failed connect, pushes change nothing |
| Camera.PicturesEvenlySpaced | modules/Camera/Runner.cs:83-85 | the running timer's pictures start at its start and are one interval apart |
| Camera.CameraRunner.StartIntervalledStatusUpdate | modules/Camera/Runner.cs:80-94 | replaces the timer by one started now |
| Camera.CameraRunner.constructor | modules/Camera/Runner.cs:22-45 | the initial state with the default image configuration; the invariant holds |
| Camera.CameraRunner.NewInterval | modules/Camera/Runner.cs:66-72 | the new state is `OfferInterval` of the old |
| Camera.CameraRunner.DesiredPropertiesChanged | modules/Camera/Runner.cs:57-67 | the new state is `OnDesiredProperties` of the old, invariant kept |
| Camera.CameraRunner.Connect | modules/Camera/Runner.cs:49-65 | the new state is `OnConnect` of the old, invariant kept |
| Camera.CameraRunner.AdvanceClock | modules/Camera/Runner.cs:83-84 | only the time changes, invariant kept |
| Camera.CameraRunner.FireNextAction | modules/Camera/Runner.cs:83-99 | the new state is `OnFire` of the old with the file name of the wall-clock reading, invariant kept |

## Left out

- Rx plumbing (`Publish`, `RefCount`, `SubscribeOn`, schedulers, the test virtual clock): each chain is an event method on a discrete timeline of whole seconds.
- Concurrency: events are handled one at a time and collaborator calls answer at once. Within one push, the order across the interval, schedule and firmware streams is fixed by the model.
- Order of a re-send and a timer tick due at the same moment: the re-send goes first.
- `ObserveSetFan` and its retry: the fan relay from cloud to device (`Runner.cs:57-73`) is not part of this model; `SetFan` itself is.
- Periods that are fractional, zero or negative: Smagribot periods are whole positive seconds. The camera's `period > 0` guard is modelled on whole seconds.
- Periods too large for a `TimeSpan`: `TimeSpan.FromSeconds` (`Smagribot/Runner.cs:158`, `modules/Camera/Runner.cs:62`) throws for NaN or for more than about 9.2e11 s, which ends the interval chain. Model periods are unbounded, so that throw is not modelled.
- Cloud transports, device-twin JSON and `ICloudService`: their answers are parameters.
- Serial port I/O, its semaphore and its timeout: `CommunicationService` returns scripted replies.
- MD5 and Base64 (`Checksum.cs`), HTTP download (`HttpClient.cs`) and arduino-cli (`ArduinoCli.cs`): each is an answer that succeeds with a text or fails with a message.
- Camera hardware (`RpiCameraModule.cs`, `MMALEncodingExtensions.cs`): `TakePicture` is an answer holding bytes or an error.
- Bootstrap (`Program.cs`), logging, `Dispose` and `CompositeDisposable` lifetimes.
- `RaspberryPiDevice.cs` is commented out.
- `AddFanSpeed` (`SmagriBotDevice.cs:73-77`) is never called.
- Parser.ParseFloat: `float.TryParse` is a parameter, so floating-point parsing and the sensor values' precision are not modelled.
- Parser.ParseInt: models `int.TryParse` with the invariant culture only — ASCII white space and digits, one sign, trailing NUL characters after the trailing white space, the `Int32` range; cultures, Unicode digits and the thousands, hex and exponent styles are not modelled.
- Parser.ParseVersion: `Version.Parse` failures are `None`, without their exception types or messages.
- Text.ToLower: the culture-sensitive `ToLower()` is modelled by a mapping of the ASCII letters and the Kelvin sign only. Other Unicode letters and culture rules (the Turkish dotted I) are not modelled. Only comparison with "ok" depends on it.
- `DateTime.Now` strings in firmware reports: the start and end times are parameters.
- Camera.CameraRunner.FireNextAction: the wall clock that `GetFilename` reads is a parameter.
- Clock.HourOfDay: hours of day and the light schedule's On and Off are exact reals; the rounding of `TimeSpan.TotalHours` to a double and the double comparison in `RelayStatusFromHourOfDay` are not modelled, so the two can disagree on a boundary tick.
- Runner.RelayFollowsWindow: stated for the hour of day, On and Off in [0, 24). The code accepts any double for On and Off (Off = 24.0 meaning "until midnight"). `RelayStatusFromHourOfDay` itself takes any value.
