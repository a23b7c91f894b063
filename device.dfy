/** The device command layer (`SmagriBotDevice`) over the serial link. The
    link (`ICommunicationService`) records every call and answers from a
    script; the device formats the commands, fixes the order of the status
    queries and parses the replies. */
module Device {
  import opened Wrappers
  import opened Text
  import opened Models
  import opened Parser

  datatype CommCall = StartCall | StopCall | SendCall(command: string)

  /** The serial link. The n-th recorded call (from 0) gets the scripted
      answer for n: `startOutcome(n)`, `stopOutcome(n)` or
      `reply(n, command)`. */
  class CommunicationService {
    var calls: seq<CommCall>
    const reply: (nat, string) -> Result<string>
    const startOutcome: nat -> Outcome
    const stopOutcome: nat -> Outcome

    constructor(reply: (nat, string) -> Result<string>, startOutcome: nat -> Outcome, stopOutcome: nat -> Outcome)
      ensures calls == []
      ensures this.reply == reply && this.startOutcome == startOutcome && this.stopOutcome == stopOutcome
    {
      calls := [];
      this.reply := reply;
      this.startOutcome := startOutcome;
      this.stopOutcome := stopOutcome;
    }

    method Start() returns (o: Outcome)
      modifies this
      ensures calls == old(calls) + [StartCall]
      ensures o == startOutcome(|old(calls)|)
    {
      o := startOutcome(|calls|);
      calls := calls + [StartCall];
    }

    method Stop() returns (o: Outcome)
      modifies this
      ensures calls == old(calls) + [StopCall]
      ensures o == stopOutcome(|old(calls)|)
    {
      o := stopOutcome(|calls|);
      calls := calls + [StopCall];
    }

    method Send(command: string) returns (r: Result<string>)
      modifies this
      ensures calls == old(calls) + [SendCall(command)]
      ensures r == reply(|old(calls)|, command)
    {
      r := reply(|calls|, command);
      calls := calls + [SendCall(command)];
    }
  }

  /** The message of the `IndexOutOfRangeException` a missing token raises. */
  const IndexOutOfRange := "Index was outside the bounds of the array."

  /** The status queries in the order `GetStatus` issues them. */
  const StatusCommands: seq<string> := ["getfill", "getdht", "getwatertmp"]

  function Sends(commands: seq<string>): (calls: seq<CommCall>)
    ensures |calls| == |commands|
    ensures forall i :: 0 <= i < |commands| ==> calls[i] == SendCall(commands[i])
  {
    seq(|commands|, i requires 0 <= i < |commands| => SendCall(commands[i]))
  }

  /** The command `SetFan` sends: only the speed, never the fan number. */
  function SetFanCommand(fan: Fan): string {
    "setfan " + IntToString(fan.speed)
  }

  /** The command `SetRelay` sends, e.g. "setrelay 0 1". */
  function SetRelayCommand(relay: Relay): string {
    "setrelay " + NatToString(relay.number) + " " + FormatBool(relay.on)
  }

  /** The two readings of a "getdht" reply: token 0 is the humidity, token 1
      the temperature. Tokens after the second are ignored. */
  function DhtReading(tryParse: string -> Option<real>, dhtResult: string): (r: Result<(real, real)>)
  {
    var tokens := Split(dhtResult, ' ');
    var humidity := ParseFloat(tryParse, Some(tokens[0]));
    if humidity.Err? then Err(humidity.message)
    else if |tokens| < 2 then Err(IndexOutOfRange)
    else
      var temp := ParseFloat(tryParse, Some(tokens[1]));
      if temp.Err? then Err(temp.message) else Ok((humidity.value, temp.value))
  }

  datatype StatusQuery = StatusQuery(sent: seq<string>, result: Result<DeviceStatus>)

  /** What `GetStatus` sends and returns when the link's next call has
      number `n`: fill, then humidity and temperature, then water
      temperature, stopping at the first failure. `FanSpeed` keeps its default
      0. */
  function GetStatusQuery(reply: (nat, string) -> Result<string>, tryParse: string -> Option<real>, n: nat): StatusQuery
  {
    var fillResult := reply(n, "getfill");
    var fill := if fillResult.Ok? then ParseBool(Some(fillResult.value)) else Err(fillResult.message);
    if fill.Err? then StatusQuery(["getfill"], Err(fill.message))
    else
      var dhtResult := reply(n + 1, "getdht");
      var dht := if dhtResult.Ok? then DhtReading(tryParse, dhtResult.value) else Err(dhtResult.message);
      if dht.Err? then StatusQuery(["getfill", "getdht"], Err(dht.message))
      else
        var waterResult := reply(n + 2, "getwatertmp");
        var water := if waterResult.Ok? then ParseFloat(tryParse, Some(waterResult.value)) else Err(waterResult.message);
        if water.Err? then StatusQuery(StatusCommands, Err(water.message))
        else StatusQuery(StatusCommands, Ok(DeviceStatus(0, fill.value, dht.value.1, dht.value.0, water.value)))
  }

  class SmagriBotDevice {
    const communicationService: CommunicationService
    /** `float.TryParse`, used by the reply parser. */
    const floatTryParse: string -> Option<real>

    constructor(communicationService: CommunicationService, floatTryParse: string -> Option<real>)
      ensures this.communicationService == communicationService && this.floatTryParse == floatTryParse
    {
      this.communicationService := communicationService;
      this.floatTryParse := floatTryParse;
    }

    /** `Connect` only starts the link. */
    method Connect() returns (o: Outcome)
      modifies communicationService
      ensures communicationService.calls == old(communicationService.calls) + [StartCall]
      ensures o == communicationService.startOutcome(|old(communicationService.calls)|)
    {
      o := communicationService.Start();
    }

    /** `Disconnect` only stops the link. */
    method Disconnect() returns (o: Outcome)
      modifies communicationService
      ensures communicationService.calls == old(communicationService.calls) + [StopCall]
      ensures o == communicationService.stopOutcome(|old(communicationService.calls)|)
    {
      o := communicationService.Stop();
    }

    method AddFill(status: DeviceStatus) returns (r: Result<DeviceStatus>)
      modifies communicationService
      ensures communicationService.calls == old(communicationService.calls) + [SendCall("getfill")]
      ensures var reply := communicationService.reply(|old(communicationService.calls)|, "getfill");
              var fill := if reply.Ok? then ParseBool(Some(reply.value)) else Err(reply.message);
              r == if fill.Ok? then Ok(status.(fill := fill.value)) else Err(fill.message)
    {
      var fillResult := communicationService.Send("getfill");
      if fillResult.Err? {
        return Err(fillResult.message);
      }
      var fill := ParseBool(Some(fillResult.value));
      if fill.Err? {
        return Err(fill.message);
      }
      r := Ok(status.(fill := fill.value));
    }

    method AddHumidityAndTemperature(status: DeviceStatus) returns (r: Result<DeviceStatus>)
      modifies communicationService
      ensures communicationService.calls == old(communicationService.calls) + [SendCall("getdht")]
      ensures var reply := communicationService.reply(|old(communicationService.calls)|, "getdht");
              var dht := if reply.Ok? then DhtReading(floatTryParse, reply.value) else Err(reply.message);
              r == if dht.Ok? then Ok(status.(humidity := dht.value.0, temp := dht.value.1)) else Err(dht.message)
    {
      var dhtResult := communicationService.Send("getdht");
      if dhtResult.Err? {
        return Err(dhtResult.message);
      }
      var splittedDhtResult := Split(dhtResult.value, ' ');
      var humidity := ParseFloat(floatTryParse, Some(splittedDhtResult[0]));
      if humidity.Err? {
        return Err(humidity.message);
      }
      if |splittedDhtResult| < 2 {
        return Err(IndexOutOfRange);
      }
      var temp := ParseFloat(floatTryParse, Some(splittedDhtResult[1]));
      if temp.Err? {
        return Err(temp.message);
      }
      r := Ok(status.(humidity := humidity.value, temp := temp.value));
    }

    method AddWaterTemp(status: DeviceStatus) returns (r: Result<DeviceStatus>)
      modifies communicationService
      ensures communicationService.calls == old(communicationService.calls) + [SendCall("getwatertmp")]
      ensures var reply := communicationService.reply(|old(communicationService.calls)|, "getwatertmp");
              var water := if reply.Ok? then ParseFloat(floatTryParse, Some(reply.value)) else Err(reply.message);
              r == if water.Ok? then Ok(status.(waterTemp := water.value)) else Err(water.message)
    {
      var waterTempResult := communicationService.Send("getwatertmp");
      if waterTempResult.Err? {
        return Err(waterTempResult.message);
      }
      var waterTemp := ParseFloat(floatTryParse, Some(waterTempResult.value));
      if waterTemp.Err? {
        return Err(waterTemp.message);
      }
      r := Ok(status.(waterTemp := waterTemp.value));
    }

    /** `GetStatus`: a fresh status filled by the three queries in turn; the
        first failure is the call's exception. */
    method GetStatus() returns (r: Result<DeviceStatus>)
      modifies communicationService
      ensures var q := GetStatusQuery(communicationService.reply, floatTryParse, |old(communicationService.calls)|);
              communicationService.calls == old(communicationService.calls) + Sends(q.sent) && r == q.result
    {
      ghost var before := communicationService.calls;
      var status := DeviceStatus(0, false, 0.0, 0.0, 0.0);
      var filled := AddFill(status);
      assert communicationService.calls == before + Sends(["getfill"]);
      if filled.Err? {
        return filled;
      }
      filled := AddHumidityAndTemperature(filled.value);
      assert communicationService.calls == before + Sends(["getfill", "getdht"]);
      if filled.Err? {
        return filled;
      }
      r := AddWaterTemp(filled.value);
      assert communicationService.calls == before + Sends(StatusCommands);
    }

    /** `GetFirmware`: the version the controller reports for "getfw". The
        exception `Version.Parse` throws is represented by the reply text. */
    method GetFirmware() returns (r: Result<Version>)
      modifies communicationService
      ensures communicationService.calls == old(communicationService.calls) + [SendCall("getfw")]
      ensures var reply := communicationService.reply(|old(communicationService.calls)|, "getfw");
              r == if reply.Err? then Err(reply.message)
                   else if ParseVersion(Some(reply.value)).Some? then Ok(ParseVersion(Some(reply.value)).value)
                   else Err(reply.value)
    {
      var fwResult := communicationService.Send("getfw");
      if fwResult.Err? {
        return Err(fwResult.message);
      }
      var version := ParseVersion(Some(fwResult.value));
      r := if version.Some? then Ok(version.value) else Err(fwResult.value);
    }

    /** `SetFan`: whether the controller acknowledged the speed command. */
    method SetFan(fan: Fan) returns (r: Result<bool>)
      modifies communicationService
      ensures communicationService.calls == old(communicationService.calls) + [SendCall(SetFanCommand(fan))]
      ensures var reply := communicationService.reply(|old(communicationService.calls)|, SetFanCommand(fan));
              r == if reply.Ok? then Ok(ParseCommand(Some(reply.value))) else Err(reply.message)
    {
      var fanResult := communicationService.Send(SetFanCommand(fan));
      r := if fanResult.Ok? then Ok(ParseCommand(Some(fanResult.value))) else Err(fanResult.message);
    }

    /** `SetRelay`: whether the controller acknowledged the relay command. */
    method SetRelay(relay: Relay) returns (r: Result<bool>)
      modifies communicationService
      ensures communicationService.calls == old(communicationService.calls) + [SendCall(SetRelayCommand(relay))]
      ensures var reply := communicationService.reply(|old(communicationService.calls)|, SetRelayCommand(relay));
              r == if reply.Ok? then Ok(ParseCommand(Some(reply.value))) else Err(reply.message)
    {
      var message := SetRelayCommand(relay);
      var result := communicationService.Send(message);
      r := if result.Ok? then Ok(ParseCommand(Some(result.value))) else Err(result.message);
    }
  }

  /** The status queries go out as "getfill", "getdht", "getwatertmp" in
      that order, stopping after the first failing one; they are all sent
      exactly when the status is obtained, and "getfan" is never sent. */
  lemma StatusQueryOrder(reply: (nat, string) -> Result<string>, tryParse: string -> Option<real>, n: nat)
    ensures var q := GetStatusQuery(reply, tryParse, n);
            1 <= |q.sent| <= 3 && q.sent == StatusCommands[..|q.sent|] &&
            (q.sent == StatusCommands <== q.result.Ok?) &&
            (q.result.Ok? <== |q.sent| == 3 && reply(n + 2, "getwatertmp").Ok? &&
                              tryParse(reply(n + 2, "getwatertmp").value).Some?) &&
            "getfan" !in q.sent
  {
  }

  /** A status is obtained exactly when every reply arrives and parses: the
      fill flag from "1" or "0", two space-separated readings for "getdht"
      (humidity first) and the water temperature. The fan speed is 0. */
  lemma GetStatusReadsReplies(reply: (nat, string) -> Result<string>, tryParse: string -> Option<real>, n: nat)
    ensures var q := GetStatusQuery(reply, tryParse, n);
            q.result.Ok? <==>
              (reply(n, "getfill").Ok? && ParseBool(Some(reply(n, "getfill").value)).Ok? &&
               reply(n + 1, "getdht").Ok? && |Split(reply(n + 1, "getdht").value, ' ')| >= 2 &&
               tryParse(Split(reply(n + 1, "getdht").value, ' ')[0]).Some? &&
               tryParse(Split(reply(n + 1, "getdht").value, ' ')[1]).Some? &&
               reply(n + 2, "getwatertmp").Ok? && tryParse(reply(n + 2, "getwatertmp").value).Some?)
    ensures var q := GetStatusQuery(reply, tryParse, n);
            q.result.Ok? ==>
              var tokens := Split(reply(n + 1, "getdht").value, ' ');
              q.result.value.fanSpeed == 0 &&
              ParseBool(Some(reply(n, "getfill").value)) == Ok(q.result.value.fill) &&
              Some(q.result.value.humidity) == tryParse(tokens[0]) &&
              Some(q.result.value.temp) == tryParse(tokens[1]) &&
              Some(q.result.value.waterTemp) == tryParse(reply(n + 2, "getwatertmp").value)
  {
  }

  /** A "getdht" reply of two space-free readings gives humidity and
      temperature in that order. */
  lemma DhtReadingOfTwoTokens(tryParse: string -> Option<real>, humidity: string, temp: string)
    requires ' ' !in humidity && ' ' !in temp
    requires tryParse(humidity).Some? && tryParse(temp).Some?
    ensures DhtReading(tryParse, humidity + " " + temp) == Ok((tryParse(humidity).value, tryParse(temp).value))
  {
    assert Join([humidity, temp], ' ') == humidity + " " + temp;
    SplitJoin([humidity, temp], ' ');
  }

  /** A "getdht" reply without a space has no temperature token: the
      humidity is parsed first, then the missing token raises. */
  lemma DhtReadingOfOneToken(tryParse: string -> Option<real>, reading: string)
    requires ' ' !in reading
    ensures DhtReading(tryParse, reading) ==
      if tryParse(reading).Some? then Err(IndexOutOfRange) else Err("Can't parse " + reading + " to float!")
  {
    SplitJoin([reading], ' ');
  }

  /** The fan command carries the speed and nothing else: it reads back as
      "setfan" and the speed, and two fans get the same command exactly when
      their speeds agree. */
  lemma SetFanCommandDecodes(fan: Fan, other: Fan)
    ensures var parts := Split(SetFanCommand(fan), ' ');
            |parts| == 2 && parts[0] == "setfan" && ParseInt(Some(parts[1])) == Ok(fan.speed)
    ensures SetFanCommand(fan) == SetFanCommand(other) <==> fan.speed == other.speed
  {
    var speed := IntToString(fan.speed);
    assert ' ' !in speed by {
      assert forall i :: 0 <= i < |speed| ==> speed[i] == '-' || IsDigit(speed[i]) by {
        if fan.speed < 0 {
          assert speed == "-" + NatToString(-(fan.speed as int));
          forall i | 0 <= i < |speed| ensures speed[i] == '-' || IsDigit(speed[i]) {
            if i > 0 {
              assert speed[i] == NatToString(-(fan.speed as int))[i - 1];
            }
          }
        }
      }
    }
    assert Join(["setfan", speed], ' ') == SetFanCommand(fan);
    SplitJoin(["setfan", speed], ' ');
    ParseIntOfIntToString(fan.speed);
    if SetFanCommand(fan) == SetFanCommand(other) {
      assert speed == SetFanCommand(fan)[7..];
      assert IntToString(other.speed) == SetFanCommand(other)[7..];
      IntToStringInjective(fan.speed, other.speed);
    }
  }

  /** The relay command is the three pieces "setrelay", the number and the
      flag, joined by spaces. */
  lemma SetRelayCommandParts(relay: Relay)
    ensures Split(SetRelayCommand(relay), ' ') == ["setrelay", NatToString(relay.number), FormatBool(relay.on)]
  {
    var parts := ["setrelay", NatToString(relay.number), FormatBool(relay.on)];
    assert ' ' !in parts[1] by {
      assert AllDigits(parts[1]);
    }
    assert parts[1..][1..] == [parts[2]];
    assert Join(parts[1..], ' ') == parts[1] + " " + parts[2];
    assert Join(parts, ' ') == SetRelayCommand(relay);
    SplitJoin(parts, ' ');
  }

  /** The relay command reads back as "setrelay", the relay number in
      decimal and the flag text; different relays get different commands. */
  lemma SetRelayCommandDecodes(relay: Relay, other: Relay)
    ensures var parts := Split(SetRelayCommand(relay), ' ');
            |parts| == 3 && parts[0] == "setrelay" &&
            AllDigits(parts[1]) && DigitsValue(parts[1]) == relay.number &&
            ParseBool(Some(parts[2])) == Ok(relay.on)
    ensures SetRelayCommand(relay) == SetRelayCommand(other) <==> relay == other
  {
    SetRelayCommandParts(relay);
    SetRelayCommandParts(other);
    NatToStringValue(relay.number);
    if SetRelayCommand(relay) == SetRelayCommand(other) {
      NatToStringInjective(relay.number, other.number);
      assert FormatBool(relay.on) == FormatBool(other.on);
    }
  }
}
