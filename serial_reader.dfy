/** The operator's command line: `receiveSerialCommand` reads one line from
    the USB serial port and runs a flat chain of tests on it. Exact `STATE=`
    and `CALIB-` lines are compared for equality; `TEMP=`, `PH=`, `DO=`,
    `CO2=` and `O2=` are parsed with `sscanf(line, "<literal>%f", buf)`, and
    a branch runs whenever `sscanf` returns nonzero -- a converted value (1)
    or an input failure before the conversion (EOF, -1).

    The chain is modelled as the ordered list of setter calls it makes. The
    float conversion of `%f` is the parameter `number`; the content of the
    never-initialised parse buffer, read when `sscanf` returns EOF, is the
    parameter `stale`. */
module SerialReader {
  import opened Mcu
  import Bioreactor
  import PressureChamber
  import Atlas

  /** One setter call of the command chain. */
  datatype Action =
    | SetState(phase: Bioreactor.Phase)               // setBioreactorState((uint8_t)phase)
    | SetReferenceTemperature(celsius: real)          // temperatureController.setReferenceTemperature
    | PutFloat(key: string, value: real)              // bioreactorParameter.putFloat
    | SetReferenceLevel(valve: PressureChamber.Valve, level: real)  // pressureChamber.setReferenceLevel
    | CalibratePh(point: Atlas.CalibrationValue)      // pHSensor.calibrateSinglePoint

  // ---------------------------------------------------------------------
  // sscanf("<literal>%f")

  /** Walking a format literal along the input: the input ended first, a
      character differed, or the literal matched and `rest` follows it. */
  datatype LiteralMatch = InputEnded | Mismatch | Rest(rest: string)

  function MatchLiteral(rx: string, lit: string): LiteralMatch
    decreases |lit|
  {
    if |lit| == 0 then Rest(rx)
    else if |rx| == 0 then InputEnded
    else if rx[0] != lit[0] then Mismatch
    else MatchLiteral(rx[1..], lit[1..])
  }

  /** The white-space characters of `isspace` in the C locale. */
  predicate IsSpace(c: char)
  {
    c == ' ' || c == '\t' || c == '\n' || c == '\r' || c == '\U{B}' || c == '\U{C}'
  }

  predicate AllSpace(s: string)
  {
    forall i :: 0 <= i < |s| ==> IsSpace(s[i])
  }

  /** `%f` first skips white space. */
  function SkipSpace(s: string): string
  {
    if |s| > 0 && IsSpace(s[0]) then SkipSpace(s[1..]) else s
  }

  /** What is skipped is a run of white space at the front, and what is
      left starts with something else. */
  lemma {:induction false} SkipSpaceSpec(s: string)
    ensures var t := SkipSpace(s);
      |t| <= |s| && t == s[|s| - |t|..] && AllSpace(s[..|s| - |t|]) && (|t| > 0 ==> !IsSpace(t[0]))
    decreases |s|
  {
    if |s| > 0 && IsSpace(s[0]) {
      SkipSpaceSpec(s[1..]);
      var t := SkipSpace(s[1..]);
      assert s[1..][|s| - 1 - |t|..] == s[|s| - |t|..];
      forall i | 0 <= i < |s| - |t| ensures IsSpace(s[i]) {
        if i > 0 {
          assert s[i] == s[1..][..|s| - 1 - |t|][i - 1];
        }
      }
    }
  }

  /** The return of `sscanf` reduced to what the chain uses. */
  datatype ScanResult = ScanEof | ScanNoMatch | ScanValue(value: real)

  /** `sscanf(rx, lit + "%f", buf)`: EOF when the line runs out before the
      conversion starts, 0 on a differing character or a text `number`
      does not convert, 1 with the converted value otherwise. */
  function ScanFloat(rx: string, lit: string, number: string -> Option<real>): ScanResult
  {
    match MatchLiteral(rx, lit)
    case InputEnded => ScanEof
    case Mismatch => ScanNoMatch
    case Rest(rest) =>
      var t := SkipSpace(rest);
      if |t| == 0 then ScanEof
      else match number(t)
        case Some(v) => ScanValue(v)
        case None => ScanNoMatch
  }

  /** `if (sscanf(...))`: any nonzero return, EOF included. */
  predicate Fires(r: ScanResult)
  {
    !r.ScanNoMatch?
  }

  /** The float the branch reads from the buffer: the converted value, or
      whatever the buffer held when nothing was converted. */
  function BufferValue(r: ScanResult, stale: real): real
  {
    if r.ScanValue? then r.value else stale
  }

  // ---------------------------------------------------------------------
  // The chain

  /** An exact command, `prefix + name`, and the call it makes. */
  datatype Command = Command(name: string, action: Action)

  const STATE_PREFIX: string := "STATE="
  const CALIB_PH_PREFIX: string := "CALIB-PH="

  /** The `STATE=` comparisons, in source order. */
  const STATE_COMMANDS: seq<Command> := [
    Command("APPROV", SetState(Bioreactor.Approv)),
    Command("HEAT", SetState(Bioreactor.Prepare)),
    Command("CULTURE", SetState(Bioreactor.Run)),
    Command("RETURN", SetState(Bioreactor.GrowthLiquidReturn)),
    Command("CLEANING", SetState(Bioreactor.CleaningLiquidApprov)),
    Command("CLEANING-CIRCUL", SetState(Bioreactor.CleaningCirculation)),
    Command("CLEANING-RETURN", SetState(Bioreactor.CleaningReturn)),
    Command("RINSING", SetState(Bioreactor.RinsingLiquidApprov)),
    Command("RINSING-CIRCUL", SetState(Bioreactor.RinsingCirculation)),
    Command("RINSING-RETURN", SetState(Bioreactor.RinsingReturn)),
    Command("REDUCE-OVERFLOW", SetState(Bioreactor.ReduceOverflow)),
    Command("TEST", SetState(Bioreactor.Test)),
    Command("OPEN-VALVES", SetState(Bioreactor.OpenValves)),
    Command("IDLE", SetState(Bioreactor.Idle)),
    Command("SAMPLING", SetState(Bioreactor.Sampling))]

  /** The `CALIB-PH=` comparisons; the two `CALIB-DO=` branches are empty. */
  const CALIB_COMMANDS: seq<Command> := [
    Command("4", CalibratePh(Atlas.CalPh4)),
    Command("7", CalibratePh(Atlas.CalPh7)),
    Command("10", CalibratePh(Atlas.CalPh10))]

  /** A run of `if (rx == prefix + name) { action }` tests, in order. */
  function ExactActions(prefix: string, t: seq<Command>, rx: string): seq<Action>
    decreases |t|
  {
    if |t| == 0 then []
    else (if rx == prefix + t[0].name then [t[0].action] else []) + ExactActions(prefix, t[1..], rx)
  }

  /** The fifteen `STATE=` comparisons. */
  function StateActions(rx: string): seq<Action>
  {
    ExactActions(STATE_PREFIX, STATE_COMMANDS, rx)
  }

  /** The three `CALIB-PH=` comparisons. */
  function CalibrationActions(rx: string): seq<Action>
  {
    ExactActions(CALIB_PH_PREFIX, CALIB_COMMANDS, rx)
  }

  /** The `TEMP=` branch: the new reference, then its persistence. */
  function TemperatureActions(rx: string, number: string -> Option<real>, stale: real): seq<Action>
  {
    var r := ScanFloat(rx, "TEMP=", number);
    if Fires(r) then
      [SetReferenceTemperature(BufferValue(r, stale)), PutFloat("temperature", BufferValue(r, stale))]
    else []
  }

  /** The `PH=` and `DO=` branches persist a value and nothing else. */
  function PersistActions(rx: string, lit: string, key: string, number: string -> Option<real>, stale: real): seq<Action>
  {
    var r := ScanFloat(rx, lit, number);
    if Fires(r) then [PutFloat(key, BufferValue(r, stale))] else []
  }

  /** The `CO2=` and `O2=` branches persist first, then set the chamber
      reference of that gas. */
  function GasActions(rx: string, lit: string, key: string, valve: PressureChamber.Valve,
                      number: string -> Option<real>, stale: real): seq<Action>
  {
    var r := ScanFloat(rx, lit, number);
    if Fires(r) then [PutFloat(key, BufferValue(r, stale)), SetReferenceLevel(valve, BufferValue(r, stale))]
    else []
  }

  /** The body of `receiveSerialCommand` for one received line. The
      `PUMP-SPEED=` branch and the `CALIB-DO=` branches have empty bodies
      and contribute nothing. */
  function Dispatch(rx: string, number: string -> Option<real>, stale: real): seq<Action>
  {
    StateActions(rx)
    + TemperatureActions(rx, number, stale)
    + PersistActions(rx, "PH=", "ph", number, stale)
    + PersistActions(rx, "DO=", "do", number, stale)
    + GasActions(rx, "CO2=", "CO2", PressureChamber.ValveCo2, number, stale)
    + GasActions(rx, "O2=", "O2", PressureChamber.ValveO2, number, stale)
    + CalibrationActions(rx)
  }

  /** `receiveSerialCommand()`: nothing unless a line is available. */
  function ReceiveSerialCommand(line: Option<string>, number: string -> Option<real>, stale: real): seq<Action>
  {
    match line
    case None => []
    case Some(rx) => Dispatch(rx, number, stale)
  }

  /** The `putFloat` calls of a list of actions, applied to the store. */
  function Persist(store: Bioreactor.Store, acts: seq<Action>): Bioreactor.Store
    decreases |acts|
  {
    if |acts| == 0 then store
    else
      var s := if acts[0].PutFloat? then store[acts[0].key := Bioreactor.PrefFloat(acts[0].value)] else store;
      Persist(s, acts[1..])
  }

  /** The number of phase changes in a list of actions. */
  function StateChanges(acts: seq<Action>): nat
    decreases |acts|
  {
    if |acts| == 0 then 0 else (if acts[0].SetState? then 1 else 0) + StateChanges(acts[1..])
  }

  // ---------------------------------------------------------------------
  // Properties of sscanf

  /** Walking the literal: the input ends first exactly when it is a proper
      prefix of the literal, and the literal matches exactly when it is a
      prefix of the input, leaving the rest of the line. */
  lemma {:induction false} MatchLiteralSpec(rx: string, lit: string)
    ensures MatchLiteral(rx, lit).InputEnded? <==> |rx| < |lit| && rx == lit[..|rx|]
    ensures MatchLiteral(rx, lit).Rest? <==> lit <= rx
    ensures lit <= rx ==> MatchLiteral(rx, lit) == Rest(rx[|lit|..])
    decreases |lit|
  {
    if |lit| > 0 && |rx| > 0 && rx[0] == lit[0] {
      MatchLiteralSpec(rx[1..], lit[1..]);
      assert rx == [rx[0]] + rx[1..] && lit == [lit[0]] + lit[1..];
      if |rx| >= |lit| {
        assert rx[1..][|lit| - 1..] == rx[|lit|..];
      } else {
        assert lit[1..][..|rx| - 1] == lit[1..|rx|];
        assert rx == lit[..|rx|] <==> rx[1..] == lit[1..][..|rx| - 1];
      }
    } else if |lit| > 0 && |rx| > 0 {
      assert rx[0] != lit[0];
      assert !(lit <= rx);
    }
  }

  /** A line that differs from the literal at some position does not
      match. */
  lemma DifferAt(rx: string, lit: string, k: nat, number: string -> Option<real>)
    requires k < |rx| && k < |lit| && rx[k] != lit[k]
    ensures ScanFloat(rx, lit, number) == ScanNoMatch
  {
    MatchLiteralSpec(rx, lit);
    assert !(lit <= rx) && !(|rx| < |lit| && rx == lit[..|rx|]);
  }

  /** The three outcomes of `sscanf(rx, lit + "%f")`, stated on the line:
      EOF for a proper prefix of the literal or the literal followed by
      white space only; a value when the literal is followed by text that
      converts; 0 in every other case. */
  lemma ScanFloatSpec(rx: string, lit: string, number: string -> Option<real>)
    ensures ScanFloat(rx, lit, number) == ScanEof <==>
              (|rx| < |lit| && rx == lit[..|rx|]) || (lit <= rx && AllSpace(rx[|lit|..]))
    ensures forall v :: ScanFloat(rx, lit, number) == ScanValue(v) <==>
              lit <= rx && !AllSpace(rx[|lit|..]) && number(SkipSpace(rx[|lit|..])) == Some(v)
  {
    MatchLiteralSpec(rx, lit);
    if lit <= rx {
      var rest := rx[|lit|..];
      var t := SkipSpace(rest);
      SkipSpaceSpec(rest);
      if |t| == 0 {
        assert rest[..|rest|] == rest;
      } else {
        assert !IsSpace(rest[|rest| - |t|]);
      }
    }
  }

  /** A line of the form `lit` + `s`, where `s` converts, yields its value. */
  lemma ScanCommand(lit: string, s: string, number: string -> Option<real>, v: real)
    requires |s| > 0 && !IsSpace(s[0]) && number(s) == Some(v)
    ensures ScanFloat(lit + s, lit, number) == ScanValue(v)
  {
    MatchLiteralSpec(lit + s, lit);
    assert lit <= lit + s;
    assert (lit + s)[|lit|..] == s;
  }


  // ---------------------------------------------------------------------
  // Properties of the chain

  /** The names of a table are pairwise different. */
  predicate DistinctNames(t: seq<Command>)
  {
    forall i, j :: 0 <= i < j < |t| ==> t[i].name != t[j].name
  }

  /** A line equal to no `prefix + name` of the table makes none of its
      calls. */
  lemma {:induction false} ExactActionsNone(prefix: string, t: seq<Command>, rx: string)
    requires forall i :: 0 <= i < |t| ==> rx != prefix + t[i].name
    ensures ExactActions(prefix, t, rx) == []
    decreases |t|
  {
    if |t| > 0 {
      assert rx != prefix + t[0].name;
      forall k | 0 <= k < |t[1..]| ensures rx != prefix + t[1..][k].name {
        assert t[1..][k] == t[k + 1];
      }
      ExactActionsNone(prefix, t[1..], rx);
    }
  }

  /** In a table of different names, the line `prefix + t[i].name` makes
      exactly the call `t[i].action`. */
  lemma {:induction false} ExactActionsHit(prefix: string, t: seq<Command>, rx: string, i: nat)
    requires DistinctNames(t) && i < |t| && rx == prefix + t[i].name
    ensures ExactActions(prefix, t, rx) == [t[i].action]
    decreases |t|
  {
    var tail := t[1..];
    if i == 0 {
      forall k | 0 <= k < |tail| ensures rx != prefix + tail[k].name {
        assert tail[k] == t[k + 1];
        assert (prefix + t[0].name)[|prefix|..] == t[0].name;
        assert (prefix + tail[k].name)[|prefix|..] == tail[k].name;
      }
      ExactActionsNone(prefix, tail, rx);
    } else {
      assert rx != prefix + t[0].name by {
        assert (prefix + t[0].name)[|prefix|..] == t[0].name;
        assert (prefix + t[i].name)[|prefix|..] == t[i].name;
      }
      assert tail[i - 1] == t[i];
      assert DistinctNames(tail) by {
        forall a, b | 0 <= a < b < |tail| ensures tail[a].name != tail[b].name {
          assert tail[a] == t[a + 1] && tail[b] == t[b + 1];
        }
      }
      ExactActionsHit(prefix, tail, rx, i - 1);
    }
  }

  /** Two tables of different names with no name in common join into one. */
  lemma DistinctSplit(t: seq<Command>, m: nat)
    requires m <= |t| && DistinctNames(t[..m]) && DistinctNames(t[m..])
    requires forall i, j :: 0 <= i < m <= j < |t| ==> t[i].name != t[j].name
    ensures DistinctNames(t)
  {
    forall i, j | 0 <= i < j < |t| ensures t[i].name != t[j].name {
      if j < m {
        assert t[..m][i] == t[i] && t[..m][j] == t[j];
      } else if m <= i {
        assert t[m..][i - m] == t[i] && t[m..][j - m] == t[j];
      }
    }
  }

  lemma StateNamesLow()
    ensures DistinctNames(STATE_COMMANDS[..8])
  {
  }

  lemma StateNamesHigh()
    ensures DistinctNames(STATE_COMMANDS[8..])
  {
  }

  lemma StateNamesCross()
    ensures forall i, j :: 0 <= i < 8 <= j < |STATE_COMMANDS| ==> STATE_COMMANDS[i].name != STATE_COMMANDS[j].name
  {
  }

  /** The fifteen `STATE=` names and the three `CALIB-PH=` names are
      pairwise different. */
  lemma CommandTablesDistinct()
    ensures DistinctNames(STATE_COMMANDS) && DistinctNames(CALIB_COMMANDS)
  {
    StateNamesLow();
    StateNamesHigh();
    StateNamesCross();
    DistinctSplit(STATE_COMMANDS, 8);
  }

  // Each branch is ruled out by one or two leading letters of the line.

  lemma {:induction false} NoStateCallIn(t: seq<Command>, rx: string)
    requires |rx| > 0 && rx[0] != 'S'
    ensures ExactActions(STATE_PREFIX, t, rx) == []
    decreases |t|
  {
    if |t| > 0 {
      assert (STATE_PREFIX + t[0].name)[0] == 'S';
      NoStateCallIn(t[1..], rx);
    }
  }

  lemma NoStateCall(rx: string)
    requires |rx| > 0 && rx[0] != 'S'
    ensures StateActions(rx) == []
  {
    NoStateCallIn(STATE_COMMANDS, rx);
  }

  /** `k` is 0, 1 or 6, a position where `CALIB-PH=` and the line differ. */
  lemma {:induction false} NoCalibrationCallIn(t: seq<Command>, rx: string, k: nat)
    requires (k == 0 && |rx| > 0 && rx[0] != 'C') || (k == 1 && |rx| > 1 && rx[1] != 'A')
          || (k == 6 && |rx| > 6 && rx[6] != 'P')
    ensures ExactActions(CALIB_PH_PREFIX, t, rx) == []
    decreases |t|
  {
    if |t| > 0 {
      var line := CALIB_PH_PREFIX + t[0].name;
      assert line[0] == 'C' && line[1] == 'A' && line[6] == 'P';
      assert rx != line by {
        assert rx[k] != line[k];
      }
      NoCalibrationCallIn(t[1..], rx, k);
    }
  }

  lemma NoCalibrationCall(rx: string)
    requires (|rx| > 0 && rx[0] != 'C') || (|rx| > 1 && rx[1] != 'A')
    ensures CalibrationActions(rx) == []
  {
    if rx[0] != 'C' {
      NoCalibrationCallIn(CALIB_COMMANDS, rx, 0);
    } else {
      NoCalibrationCallIn(CALIB_COMMANDS, rx, 1);
    }
  }

  lemma NoTemperatureCall(rx: string, number: string -> Option<real>, stale: real)
    requires |rx| > 0 && rx[0] != 'T'
    ensures TemperatureActions(rx, number, stale) == []
  {
    DifferAt(rx, "TEMP=", 0, number);
  }

  lemma NoPhCall(rx: string, number: string -> Option<real>, stale: real)
    requires (|rx| > 0 && rx[0] != 'P') || (|rx| > 1 && rx[1] != 'H')
    ensures PersistActions(rx, "PH=", "ph", number, stale) == []
  {
    if rx[0] != 'P' {
      DifferAt(rx, "PH=", 0, number);
    } else {
      DifferAt(rx, "PH=", 1, number);
    }
  }

  lemma NoDoCall(rx: string, number: string -> Option<real>, stale: real)
    requires |rx| > 0 && rx[0] != 'D'
    ensures PersistActions(rx, "DO=", "do", number, stale) == []
  {
    DifferAt(rx, "DO=", 0, number);
  }

  lemma NoCo2Call(rx: string, number: string -> Option<real>, stale: real)
    requires (|rx| > 0 && rx[0] != 'C') || (|rx| > 1 && rx[1] != 'O')
    ensures GasActions(rx, "CO2=", "CO2", PressureChamber.ValveCo2, number, stale) == []
  {
    if rx[0] != 'C' {
      DifferAt(rx, "CO2=", 0, number);
    } else {
      DifferAt(rx, "CO2=", 1, number);
    }
  }

  lemma NoO2Call(rx: string, number: string -> Option<real>, stale: real)
    requires |rx| > 0 && rx[0] != 'O'
    ensures GasActions(rx, "O2=", "O2", PressureChamber.ValveO2, number, stale) == []
  {
    DifferAt(rx, "O2=", 0, number);
  }

  /** A line starting `S` reaches only the `STATE=` comparisons. */
  lemma StateLine(rx: string, number: string -> Option<real>, stale: real)
    requires |rx| > 0 && rx[0] == 'S'
    ensures Dispatch(rx, number, stale) == StateActions(rx)
  {
    NoCalibrationCall(rx);
    NoTemperatureCall(rx, number, stale);
    NoPhCall(rx, number, stale);
    NoDoCall(rx, number, stale);
    NoCo2Call(rx, number, stale);
    NoO2Call(rx, number, stale);
  }

  /** Each `STATE=` line changes the phase as the table says and does
      nothing else. */
  lemma StateCommand(i: nat, number: string -> Option<real>, stale: real)
    requires i < |STATE_COMMANDS|
    ensures Dispatch(STATE_PREFIX + STATE_COMMANDS[i].name, number, stale) == [STATE_COMMANDS[i].action]
  {
    var rx := STATE_PREFIX + STATE_COMMANDS[i].name;
    CommandTablesDistinct();
    ExactActionsHit(STATE_PREFIX, STATE_COMMANDS, rx, i);
    assert rx[0] == 'S';
    StateLine(rx, number, stale);
  }

  /** A line starting `CA` reaches only the `CALIB-PH=` comparisons. */
  lemma CalibrationLine(rx: string, number: string -> Option<real>, stale: real)
    requires |rx| > 1 && rx[0] == 'C' && rx[1] == 'A'
    ensures Dispatch(rx, number, stale) == CalibrationActions(rx)
  {
    NoStateCall(rx);
    NoTemperatureCall(rx, number, stale);
    NoPhCall(rx, number, stale);
    NoDoCall(rx, number, stale);
    NoCo2Call(rx, number, stale);
    NoO2Call(rx, number, stale);
  }

  /** Each `CALIB-PH=` line runs its single-point calibration and nothing
      else. */
  lemma CalibrationCommand(i: nat, number: string -> Option<real>, stale: real)
    requires i < |CALIB_COMMANDS|
    ensures Dispatch(CALIB_PH_PREFIX + CALIB_COMMANDS[i].name, number, stale) == [CALIB_COMMANDS[i].action]
  {
    var rx := CALIB_PH_PREFIX + CALIB_COMMANDS[i].name;
    CommandTablesDistinct();
    ExactActionsHit(CALIB_PH_PREFIX, CALIB_COMMANDS, rx, i);
    assert rx[0] == 'C' && rx[1] == 'A';
    CalibrationLine(rx, number, stale);
  }

  /** A `CALIB-DO=` line matches a branch whose body is empty: it makes
      no call at all. */
  lemma CalibDoIgnored(rx: string, number: string -> Option<real>, stale: real)
    requires "CALIB-DO=" <= rx
    ensures Dispatch(rx, number, stale) == []
  {
    assert rx[0] == 'C' && rx[1] == 'A';
    CalibrationLine(rx, number, stale);
    CalibDoIsNotPh(rx);
  }

  lemma CalibDoIsNotPh(rx: string)
    requires "CALIB-DO=" <= rx
    ensures CalibrationActions(rx) == []
  {
    assert rx[6] == 'D';
    NoCalibrationCallIn(CALIB_COMMANDS, rx, 6);
  }

  /** So does a `PUMP-SPEED=` line, whatever its four numbers. */
  lemma PumpSpeedIgnored(rx: string, number: string -> Option<real>, stale: real)
    requires "PUMP-SPEED=" <= rx
    ensures Dispatch(rx, number, stale) == []
  {
    assert rx[0] == 'P' && rx[1] == 'U';
    NoStateCall(rx);
    NoCalibrationCall(rx);
    NoTemperatureCall(rx, number, stale);
    NoPhCall(rx, number, stale);
    NoDoCall(rx, number, stale);
    NoCo2Call(rx, number, stale);
    NoO2Call(rx, number, stale);
  }

  /** A line starting `T` reaches only the `TEMP=` branch. */
  lemma TemperatureLine(rx: string, number: string -> Option<real>, stale: real)
    requires |rx| > 0 && rx[0] == 'T'
    ensures Dispatch(rx, number, stale) == TemperatureActions(rx, number, stale)
  {
    NoStateCall(rx);
    NoPhCall(rx, number, stale);
    NoDoCall(rx, number, stale);
    NoCo2Call(rx, number, stale);
    NoO2Call(rx, number, stale);
    NoCalibrationCall(rx);
  }

  /** `TEMP=<value>` sets the temperature reference and persists it under
      "temperature". */
  lemma TemperatureCommand(s: string, v: real, number: string -> Option<real>, stale: real)
    requires |s| > 0 && !IsSpace(s[0]) && number(s) == Some(v)
    ensures Dispatch("TEMP=" + s, number, stale) == [SetReferenceTemperature(v), PutFloat("temperature", v)]
  {
    var rx := "TEMP=" + s;
    assert rx[0] == 'T';
    TemperatureLine(rx, number, stale);
    ScanCommand("TEMP=", s, number, v);
  }

  /** A line starting `PH` reaches only the `PH=` branch. */
  lemma PhLine(rx: string, number: string -> Option<real>, stale: real)
    requires |rx| > 1 && rx[0] == 'P' && rx[1] == 'H'
    ensures Dispatch(rx, number, stale) == PersistActions(rx, "PH=", "ph", number, stale)
  {
    NoStateCall(rx);
    NoTemperatureCall(rx, number, stale);
    NoDoCall(rx, number, stale);
    NoCo2Call(rx, number, stale);
    NoO2Call(rx, number, stale);
    NoCalibrationCall(rx);
  }

  /** `PH=<value>` only persists the value under "ph". */
  lemma PhCommand(s: string, v: real, number: string -> Option<real>, stale: real)
    requires |s| > 0 && !IsSpace(s[0]) && number(s) == Some(v)
    ensures Dispatch("PH=" + s, number, stale) == [PutFloat("ph", v)]
  {
    var rx := "PH=" + s;
    assert rx[0] == 'P' && rx[1] == 'H';
    PhLine(rx, number, stale);
    ScanCommand("PH=", s, number, v);
  }

  /** A line starting `D` reaches only the `DO=` branch. */
  lemma DoLine(rx: string, number: string -> Option<real>, stale: real)
    requires |rx| > 0 && rx[0] == 'D'
    ensures Dispatch(rx, number, stale) == PersistActions(rx, "DO=", "do", number, stale)
  {
    NoStateCall(rx);
    NoTemperatureCall(rx, number, stale);
    NoPhCall(rx, number, stale);
    NoCo2Call(rx, number, stale);
    NoO2Call(rx, number, stale);
    NoCalibrationCall(rx);
  }

  /** `DO=<value>` only persists the value under "do". */
  lemma DoCommand(s: string, v: real, number: string -> Option<real>, stale: real)
    requires |s| > 0 && !IsSpace(s[0]) && number(s) == Some(v)
    ensures Dispatch("DO=" + s, number, stale) == [PutFloat("do", v)]
  {
    var rx := "DO=" + s;
    assert rx[0] == 'D';
    DoLine(rx, number, stale);
    ScanCommand("DO=", s, number, v);
  }

  /** A line starting `CO` reaches only the `CO2=` branch. */
  lemma Co2Line(rx: string, number: string -> Option<real>, stale: real)
    requires |rx| > 1 && rx[0] == 'C' && rx[1] == 'O'
    ensures Dispatch(rx, number, stale) == GasActions(rx, "CO2=", "CO2", PressureChamber.ValveCo2, number, stale)
  {
    NoStateCall(rx);
    NoTemperatureCall(rx, number, stale);
    NoPhCall(rx, number, stale);
    NoDoCall(rx, number, stale);
    NoO2Call(rx, number, stale);
    NoCalibrationCall(rx);
  }

  /** `CO2=<value>` persists the value under "CO2", then sets the CO2
      reference of the chamber. */
  lemma Co2Command(s: string, v: real, number: string -> Option<real>, stale: real)
    requires |s| > 0 && !IsSpace(s[0]) && number(s) == Some(v)
    ensures Dispatch("CO2=" + s, number, stale) == [PutFloat("CO2", v), SetReferenceLevel(PressureChamber.ValveCo2, v)]
  {
    var rx := "CO2=" + s;
    assert rx[0] == 'C' && rx[1] == 'O';
    Co2Line(rx, number, stale);
    ScanCommand("CO2=", s, number, v);
  }

  /** A line starting `O` reaches only the `O2=` branch. */
  lemma O2Line(rx: string, number: string -> Option<real>, stale: real)
    requires |rx| > 0 && rx[0] == 'O'
    ensures Dispatch(rx, number, stale) == GasActions(rx, "O2=", "O2", PressureChamber.ValveO2, number, stale)
  {
    NoStateCall(rx);
    NoTemperatureCall(rx, number, stale);
    NoPhCall(rx, number, stale);
    NoDoCall(rx, number, stale);
    NoCo2Call(rx, number, stale);
    NoCalibrationCall(rx);
  }

  /** `O2=<value>` persists the value under "O2", then sets the O2
      reference of the chamber. */
  lemma O2Command(s: string, v: real, number: string -> Option<real>, stale: real)
    requires |s| > 0 && !IsSpace(s[0]) && number(s) == Some(v)
    ensures Dispatch("O2=" + s, number, stale) == [PutFloat("O2", v), SetReferenceLevel(PressureChamber.ValveO2, v)]
  {
    var rx := "O2=" + s;
    assert rx[0] == 'O';
    O2Line(rx, number, stale);
    ScanCommand("O2=", s, number, v);
  }

  /** Before any character of the literal, `sscanf` meets the end of the
      line: EOF. */
  lemma EmptyLineScan(rx: string, lit: string, number: string -> Option<real>)
    requires |rx| == 0 && |lit| > 0
    ensures ScanFloat(rx, lit, number) == ScanEof
  {
  }

  /** An empty line equals no `prefix + name` when the prefix is not
      empty. */
  lemma {:induction false} EmptyLineNoExact(prefix: string, t: seq<Command>, rx: string)
    requires |rx| == 0 && |prefix| > 0
    ensures ExactActions(prefix, t, rx) == []
    decreases |t|
  {
    if |t| > 0 {
      assert |prefix + t[0].name| > 0;
      EmptyLineNoExact(prefix, t[1..], rx);
    }
  }

  /** An empty line makes every `sscanf` return EOF, so every numeric
      branch runs, with whatever the parse buffer held. */
  lemma EmptyLineFiresEveryBranch(rx: string, number: string -> Option<real>, stale: real)
    requires |rx| == 0
    ensures Dispatch(rx, number, stale) == [
      SetReferenceTemperature(stale), PutFloat("temperature", stale),
      PutFloat("ph", stale), PutFloat("do", stale),
      PutFloat("CO2", stale), SetReferenceLevel(PressureChamber.ValveCo2, stale),
      PutFloat("O2", stale), SetReferenceLevel(PressureChamber.ValveO2, stale)]
  {
    var state, calib := StateActions(rx), CalibrationActions(rx);
    var temp := TemperatureActions(rx, number, stale);
    var ph := PersistActions(rx, "PH=", "ph", number, stale);
    var dox := PersistActions(rx, "DO=", "do", number, stale);
    var co2 := GasActions(rx, "CO2=", "CO2", PressureChamber.ValveCo2, number, stale);
    var o2 := GasActions(rx, "O2=", "O2", PressureChamber.ValveO2, number, stale);
    assert Dispatch(rx, number, stale) == state + temp + ph + dox + co2 + o2 + calib;
    EmptyLineNoExact(STATE_PREFIX, STATE_COMMANDS, rx);
    EmptyLineNoExact(CALIB_PH_PREFIX, CALIB_COMMANDS, rx);
    EmptyLineScan(rx, "TEMP=", number);
    EmptyLineScan(rx, "PH=", number);
    EmptyLineScan(rx, "DO=", number);
    EmptyLineScan(rx, "CO2=", number);
    EmptyLineScan(rx, "O2=", number);
    ConcatEight(state, temp, ph, dox, co2, o2, calib);
  }

  lemma ConcatEight(s: seq<Action>, a: seq<Action>, b: seq<Action>, c: seq<Action>, d: seq<Action>, e: seq<Action>, t: seq<Action>)
    requires |s| == 0 && |a| == 2 && |b| == 1 && |c| == 1 && |d| == 2 && |e| == 2 && |t| == 0
    ensures s + a + b + c + d + e + t == [a[0], a[1], b[0], c[0], d[0], d[1], e[0], e[1]]
  {
    assert s + a == a && (a + b + c + d + e) + t == a + b + c + d + e;
  }

  // ---------------------------------------------------------------------
  // One phase change per line at most

  /** The line is one of the fifteen `STATE=` commands. */
  predicate IsStateLine(rx: string)
  {
    exists i :: 0 <= i < |STATE_COMMANDS| && rx == STATE_PREFIX + STATE_COMMANDS[i].name
  }

  lemma {:induction false} StateChangesAppend(a: seq<Action>, b: seq<Action>)
    ensures StateChanges(a + b) == StateChanges(a) + StateChanges(b)
    decreases |a|
  {
    if |a| > 0 {
      assert (a + b)[1..] == a[1..] + b;
      StateChangesAppend(a[1..], b);
    } else {
      assert a + b == b;
    }
  }

  /** A table whose calls are all phase changes makes one exactly when the
      line is one of its commands. */
  lemma ExactStateChanges(prefix: string, t: seq<Command>, rx: string)
    requires DistinctNames(t) && forall i :: 0 <= i < |t| ==> t[i].action.SetState?
    ensures StateChanges(ExactActions(prefix, t, rx))
            == if exists i :: 0 <= i < |t| && rx == prefix + t[i].name then 1 else 0
  {
    if i :| 0 <= i < |t| && rx == prefix + t[i].name {
      ExactActionsHit(prefix, t, rx, i);
      assert StateChanges([t[i].action]) == 1 + StateChanges([]);
    } else {
      ExactActionsNone(prefix, t, rx);
    }
  }

  /** A table without phase changes makes none, whatever the line. */
  lemma {:induction false} ExactNoStateChanges(prefix: string, t: seq<Command>, rx: string)
    requires forall i :: 0 <= i < |t| ==> !t[i].action.SetState?
    ensures StateChanges(ExactActions(prefix, t, rx)) == 0
    decreases |t|
  {
    if |t| > 0 {
      var head := if rx == prefix + t[0].name then [t[0].action] else [];
      assert StateChanges(head) == 0 by {
        if |head| == 1 {
          assert StateChanges(head) == 0 + StateChanges([]);
        }
      }
      forall k | 0 <= k < |t[1..]| ensures !t[1..][k].action.SetState? {
        assert t[1..][k] == t[k + 1];
      }
      ExactNoStateChanges(prefix, t[1..], rx);
      StateChangesAppend(head, ExactActions(prefix, t[1..], rx));
    }
  }

  /** The numeric branches make no phase change. */
  lemma NumericNoStateChanges(rx: string, number: string -> Option<real>, stale: real)
    ensures StateChanges(TemperatureActions(rx, number, stale)) == 0
    ensures StateChanges(PersistActions(rx, "PH=", "ph", number, stale)) == 0
    ensures StateChanges(PersistActions(rx, "DO=", "do", number, stale)) == 0
    ensures StateChanges(GasActions(rx, "CO2=", "CO2", PressureChamber.ValveCo2, number, stale)) == 0
    ensures StateChanges(GasActions(rx, "O2=", "O2", PressureChamber.ValveO2, number, stale)) == 0
  {
    forall a: Action, b: Action | !a.SetState? && !b.SetState?
      ensures StateChanges([a]) == 0 && StateChanges([a, b]) == 0
    {
      assert [a][1..] == [] && [b][1..] == [] && [a, b][1..] == [b];
      assert StateChanges([b]) == 0;
    }
  }

  /** Every `STATE=` command changes the phase; no `CALIB-PH=` command
      does. */
  lemma TableActions()
    ensures forall i :: 0 <= i < |STATE_COMMANDS| ==> STATE_COMMANDS[i].action.SetState?
    ensures forall i :: 0 <= i < |CALIB_COMMANDS| ==> !CALIB_COMMANDS[i].action.SetState?
  {
  }

  /** A received line changes the phase at most once, and exactly once
      when it is one of the `STATE=` commands. */
  lemma OnePhaseChangePerLine(rx: string, number: string -> Option<real>, stale: real)
    ensures StateChanges(Dispatch(rx, number, stale)) == if IsStateLine(rx) then 1 else 0
  {
    var state, calib := StateActions(rx), CalibrationActions(rx);
    var temp := TemperatureActions(rx, number, stale);
    var ph := PersistActions(rx, "PH=", "ph", number, stale);
    var dox := PersistActions(rx, "DO=", "do", number, stale);
    var co2 := GasActions(rx, "CO2=", "CO2", PressureChamber.ValveCo2, number, stale);
    var o2 := GasActions(rx, "O2=", "O2", PressureChamber.ValveO2, number, stale);
    assert Dispatch(rx, number, stale) == state + temp + ph + dox + co2 + o2 + calib;
    CommandTablesDistinct();
    TableActions();
    ExactStateChanges(STATE_PREFIX, STATE_COMMANDS, rx);
    ExactNoStateChanges(CALIB_PH_PREFIX, CALIB_COMMANDS, rx);
    NumericNoStateChanges(rx, number, stale);
    StateChangesAppend(state, temp);
    StateChangesAppend(state + temp, ph);
    StateChangesAppend(state + temp + ph, dox);
    StateChangesAppend(state + temp + ph + dox, co2);
    StateChangesAppend(state + temp + ph + dox + co2, o2);
    StateChangesAppend(state + temp + ph + dox + co2 + o2, calib);
  }

  /** A line whose first character starts no command makes no call. */
  lemma OrdinaryLineIgnored(rx: string, number: string -> Option<real>, stale: real)
    requires |rx| > 0 && rx[0] !in "STPDCO"
    ensures Dispatch(rx, number, stale) == []
  {
    NoStateCall(rx);
    NoCalibrationCall(rx);
    NoTemperatureCall(rx, number, stale);
    NoPhCall(rx, number, stale);
    NoDoCall(rx, number, stale);
    NoCo2Call(rx, number, stale);
    NoO2Call(rx, number, stale);
  }

  /** A `putFloat` alone, or before or after a call that is not one,
      leaves the store with just that key updated. */
  lemma PersistOne(store: Bioreactor.Store, a: Action, key: string, v: real)
    requires !a.PutFloat?
    ensures Persist(store, [PutFloat(key, v)]) == store[key := Bioreactor.PrefFloat(v)]
    ensures Persist(store, [a, PutFloat(key, v)]) == store[key := Bioreactor.PrefFloat(v)]
    ensures Persist(store, [PutFloat(key, v), a]) == store[key := Bioreactor.PrefFloat(v)]
  {
    var s1 := store[key := Bioreactor.PrefFloat(v)];
    assert Persist(store, [PutFloat(key, v)]) == Persist(s1, []);
    assert Persist(store, [a, PutFloat(key, v)]) == Persist(store, [PutFloat(key, v)]) by {
      assert [a, PutFloat(key, v)][1..] == [PutFloat(key, v)];
    }
    assert Persist(store, [PutFloat(key, v), a]) == Persist(s1, [a]) by {
      assert [PutFloat(key, v), a][1..] == [a];
    }
    assert Persist(s1, [a]) == Persist(s1, []);
  }

  /** `TEMP=<value>` leaves the store with "temperature" updated and no other key changed. */
  lemma TemperaturePersists(s: string, v: real, number: string -> Option<real>, stale: real, store: Bioreactor.Store)
    requires |s| > 0 && !IsSpace(s[0]) && number(s) == Some(v)
    ensures Persist(store, Dispatch("TEMP=" + s, number, stale)) == store["temperature" := Bioreactor.PrefFloat(v)]
  {
    TemperatureCommand(s, v, number, stale);
    PersistOne(store, SetReferenceTemperature(v), "temperature", v);
  }

  /** `PH=<value>` leaves the store with "ph" updated and no other key changed. */
  lemma PhPersists(s: string, v: real, number: string -> Option<real>, stale: real, store: Bioreactor.Store)
    requires |s| > 0 && !IsSpace(s[0]) && number(s) == Some(v)
    ensures Persist(store, Dispatch("PH=" + s, number, stale)) == store["ph" := Bioreactor.PrefFloat(v)]
  {
    PhCommand(s, v, number, stale);
    PersistOne(store, SetReferenceTemperature(v), "ph", v);
  }

  /** `DO=<value>` leaves the store with "do" updated and no other key changed. */
  lemma DoPersists(s: string, v: real, number: string -> Option<real>, stale: real, store: Bioreactor.Store)
    requires |s| > 0 && !IsSpace(s[0]) && number(s) == Some(v)
    ensures Persist(store, Dispatch("DO=" + s, number, stale)) == store["do" := Bioreactor.PrefFloat(v)]
  {
    DoCommand(s, v, number, stale);
    PersistOne(store, SetReferenceTemperature(v), "do", v);
  }

  /** `CO2=<value>` leaves the store with "CO2" updated and no other key changed. */
  lemma Co2Persists(s: string, v: real, number: string -> Option<real>, stale: real, store: Bioreactor.Store)
    requires |s| > 0 && !IsSpace(s[0]) && number(s) == Some(v)
    ensures Persist(store, Dispatch("CO2=" + s, number, stale)) == store["CO2" := Bioreactor.PrefFloat(v)]
  {
    Co2Command(s, v, number, stale);
    PersistOne(store, SetReferenceLevel(PressureChamber.ValveCo2, v), "CO2", v);
  }

  /** `O2=<value>` leaves the store with "O2" updated and no other key changed. */
  lemma O2Persists(s: string, v: real, number: string -> Option<real>, stale: real, store: Bioreactor.Store)
    requires |s| > 0 && !IsSpace(s[0]) && number(s) == Some(v)
    ensures Persist(store, Dispatch("O2=" + s, number, stale)) == store["O2" := Bioreactor.PrefFloat(v)]
  {
    O2Command(s, v, number, stale);
    PersistOne(store, SetReferenceLevel(PressureChamber.ValveO2, v), "O2", v);
  }

  /** A `TEMP=` setpoint is what the next boot's `beginBioreactorPreferences`
      reloads. */
  lemma TemperatureReloads(s: string, v: real, number: string -> Option<real>, stale: real, store: Bioreactor.Store)
    requires |s| > 0 && !IsSpace(s[0]) && number(s) == Some(v)
    ensures Bioreactor.LoadPreferences(Persist(store, Dispatch("TEMP=" + s, number, stale))).temperature == v
  {
    TemperaturePersists(s, v, number, stale, store);
  }

  /** A `CO2=` setpoint is what the next boot's `beginBioreactorPreferences`
      reloads. */
  lemma Co2Reloads(s: string, v: real, number: string -> Option<real>, stale: real, store: Bioreactor.Store)
    requires |s| > 0 && !IsSpace(s[0]) && number(s) == Some(v)
    ensures Bioreactor.LoadPreferences(Persist(store, Dispatch("CO2=" + s, number, stale))).co2 == v
  {
    Co2Persists(s, v, number, stale, store);
  }

  /** A `O2=` setpoint is what the next boot's `beginBioreactorPreferences`
      reloads. */
  lemma O2Reloads(s: string, v: real, number: string -> Option<real>, stale: real, store: Bioreactor.Store)
    requires |s| > 0 && !IsSpace(s[0]) && number(s) == Some(v)
    ensures Bioreactor.LoadPreferences(Persist(store, Dispatch("O2=" + s, number, stale))).o2 == v
  {
    O2Persists(s, v, number, stale, store);
  }
}
