/** The value types of the Smagribot agent: device-twin properties, the
    method payloads `Relay` and `Fan`, the firmware report and the device
    status message. Their hand-written `Equals` compare every field, which
    is the structural equality of a Dafny datatype. */
module Models {
  import opened Wrappers

  /** `System.Byte`. */
  type byte = x: int | 0 <= x < 0x100

  /** `System.Int32`. */
  type int32 = x: int | -0x8000_0000 <= x < 0x8000_0000

  /** A whole, positive number of seconds. */
  type Seconds = p: int | p > 0 witness 1

  /** One component of a `System.Version`: a non-negative `Int32`. */
  type Component = x: int | 0 <= x < 0x8000_0000

  /** `System.Version`: major and minor, optionally build and revision.
      Two versions are equal when they have the same defined components. */
  type Version = s: seq<Component> | 2 <= |s| <= 4 witness [0, 0]

  datatype Relay = Relay(number: byte, on: bool)

  datatype Fan = Fan(number: int32, speed: int32)

  /** Hours of the day, as doubles, at which the light goes on and off. */
  datatype LightSchedule = LightSchedule(on: real, off: real)

  /** A `new LightSchedule()`: both hours 0. */
  const DefaultLightSchedule := LightSchedule(0.0, 0.0)

  datatype TelemetryConfig = TelemetryConfig(period: Seconds)

  /** The desired firmware; each field may be missing (null) in the twin. */
  datatype ArduinoSerialFirmware = ArduinoSerialFirmware(
    fwVersion: Option<string>,
    fwPackageUri: Option<string>,
    fwPackageCheckValue: Option<string>)

  datatype DesiredDeviceProperties = DesiredDeviceProperties(
    telemetryConfig: Option<TelemetryConfig>,
    lightSchedule: Option<LightSchedule>,
    arduinoSerialFirmware: Option<ArduinoSerialFirmware>)

  /** The firmware update states reported to the twin; `Current` is the
      enum's default. */
  datatype UpdateStatus = Current | Downloading | Verifying | Applying | Rebooting | Error | Rolledback

  /** The reported firmware state; a string field that was never assigned
      is null (`None`). */
  datatype CurrentFirmware = CurrentFirmware(
    currentFwVersion: Option<string>,
    pendingFwVersion: Option<string>,
    fwUpdateStatus: UpdateStatus,
    fwUpdateSubstatus: Option<string>,
    lastFwUpdateStartTime: Option<string>,
    lastFwUpdateEndTime: Option<string>)

  /** A `new CurrentFirmware()`. */
  const NewCurrentFirmware := CurrentFirmware(None, None, Current, None, None, None)

  /** The status message sent to the cloud. Sensor readings are the values
      the float parser produced for the device's replies. */
  datatype DeviceStatus = DeviceStatus(
    fanSpeed: int32,
    fill: bool,
    temp: real,
    humidity: real,
    waterTemp: real)
}
