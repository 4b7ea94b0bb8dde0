/**
 The clock role and register state machine of main.c: boot, the GPS thread, and the loop
 of thread_send_ptp_time_handle split at the one point where the GPS thread can matter,
 between the work of a tick and the role switch at its end.

 Assumptions: the configuration register reads back what was written to it and has no
 other writer; FPGA accessor calls do not overlap; `system(...)` is an emitted command
 that returns.  Clock readings, the carrier file, the trigger and the device's own
 registers are inputs.
 */
module Clock {

  import opened FpgaBus

  const CLOCK_MASTER: nat := 0x01
  const CLOCK_SLAVE: nat := 0x02
  /** get_conf's -1 in an unsigned char. */
  const CLOCK_UNKNOWN: nat := 0xFF

  const GPS_CONNECT: nat := 0
  const GPS_UNCONNECT: nat := 1

  const PTP_VALID: Word := 0x2000
  const CLK_GPS: Word := 0x4000
  const CLK_PTP: Word := 0xC000
  const CLK_SLAVE: Word := 0x0800
  const OMAP_RUN_LED: Word := 0xefff

  const CARRIER_UP: nat := 49    // '1'
  const CARRIER_DOWN: nat := 48  // '0'

  const UINT_VALUES: nat := 0x1_0000_0000

  /** An increment of an unsigned int. */
  function Succ(n: nat): nat {
    (n + 1) % UINT_VALUES
  }

  /** The sign test of an int held in a 32-bit word. */
  predicate Positive(x: Word) {
    x != 0 && x < 0x8000_0000
  }

  /** Why the master set the system time from the PTP clock. */
  datatype Cause = Counter | Flag

  datatype Command = SlaveSync | MasterSync(cause: Cause) | Reboot | Ntpd

  /** A struct tm, each int as the 32-bit word it is. */
  datatype Calendar = Calendar(year: Word, mon: Word, mday: Word, hour: Word, min: Word, sec: Word)

  datatype Carrier = CannotOpen | NothingRead | Byte(b: nat)

  /** What one pass of the loop sees of the outside world. */
  datatype Input = Input(
    workStatus: Word,
    ptpSec: int,             // ts.tv_sec
    systemSec: int,          // tv.tv_sec
    carrier: Carrier,
    trigger: int,            // what read() on the trigger left in ptp_val
    triggerFails: bool,      // read() returned a negative value
    calendar: Calendar,      // gmtime of the PTP clock
    deviceTime: SixWords)    // the FPGA time registers when they are read

  /** ClockParameter, as far as these threads write it. */
  datatype Parameter = Parameter(
    deviceMode: nat,
    fpgaState: Word,
    clockSource: Word,
    gpsLock: Word,
    ptpLock: Word,
    net: nat,
    armRun: Word)

  datatype Phase = AtTop | AtSwitch | Stopped

  datatype State = State(
    machType: nat,
    curStatus: nat,
    gpsStatus: nat,
    gpsThread: bool,
    waitPtp: nat,            // wait_ptp_flag
    ptpNum: nat,
    cached: Word,            // fpga_config
    netFlag: nat,
    netCount: nat,
    carrier: nat,            // buffnet
    phase: Phase,
    config: Word,            // register ADDR_CONFIG
    ptpTime: seq<Word>,      // registers ADDR_PTP_TIME ..
    published: Parameter,
    log: seq<Command>)

  // ------------------------------------------------------- specification

  /** The state when the loop starts. */
  function Boot(conf: nat, config: Word, ptpTime: SixWords): State {
    State(conf, conf, GPS_UNCONNECT, conf == CLOCK_MASTER, 0, 0, 0, 0, 0, 0, AtTop,
          if conf == CLOCK_SLAVE then config | CLK_SLAVE else config & !CLK_SLAVE,
          ptpTime, Parameter(conf, 0, 0, 0, 0, 0, 0), [])
  }

  function GpsPoll(s: State, status: Word): State {
    if !s.gpsThread then s
    else
      var lock := status & 0x80;
      s.(published := s.published.(gpsLock := lock),
         gpsStatus := if lock != 0 then GPS_CONNECT else GPS_UNCONNECT)
  }

  /** Years since 2000, unless that is not positive. */
  function YearWord(year: Word): Word {
    var since2000 := year + 1900 - 2000;
    if Positive(since2000) then since2000 else year
  }

  function TimeWords(c: Calendar): SixWords {
    [YearWord(c.year), c.mon + 1, c.mday, c.hour, c.min, c.sec]
  }

  predicate NineOClock(t: SixWords) {
    t[3] == 9 && t[4] == 0 && t[5] == 0
  }

  /** send_system_time */
  function SendTime(s: State, i: Input): State {
    s.(ptpTime := TimeWords(i.calendar),
       waitPtp := if NineOClock(i.deviceTime) then 1 else s.waitPtp)
  }

  predicate SecondsAgree(i: Input) {
    i.ptpSec == i.systemSec
  }

  function SlaveSource(config: Word): Word {
    (config | PTP_VALID | CLK_PTP) & OMAP_RUN_LED
  }

  /** With agreeing seconds a slave selects the PTP source and publishes it. */
  function SlaveSelect(s: State, i: Input): State {
    var source := SlaveSource(s.config);
    var synced := s.(log := s.log + [SlaveSync]);
    if SecondsAgree(i) then
      synced.(config := source, cached := source,
              published := s.published.(clockSource := source & 0xc000, ptpLock := source & 0x2000,
                                        armRun := source & 0x1000))
    else synced
  }

  function RebootIfDue(s: State): State {
    if s.netFlag == 1 && s.netCount >= 3 then
      s.(netFlag := 0, netCount := 0, log := s.log + [Reboot])
    else s
  }

  function SlaveUp(s: State, i: Input): State {
    RebootIfDue(SendTime(SlaveSelect(s, i), i))
  }

  function Invalidated(config: Word): Word {
    (config | PTP_VALID) & !PTP_VALID
  }

  function SlaveDown(s: State): State {
    var invalid := Invalidated(s.config);
    s.(config := invalid, cached := invalid, netFlag := 1, netCount := Succ(s.netCount))
  }

  /** The master's counter after one tick, and whether the tick synchronises. */
  function CountTick(n: nat): nat {
    if n == 60 then 100 else if n == 3800 then 3700 else n
  }

  predicate CounterSyncs(n: nat) {
    n == 60 || n == 3700
  }

  function Running(config: Word): Word {
    (config | PTP_VALID) & OMAP_RUN_LED
  }

  function GpsSource(config: Word): Word {
    (config | PTP_VALID | CLK_GPS) & OMAP_RUN_LED
  }

  /** The counter's part of a master tick; the count-60 tick also restarts the run light. */
  function MasterCount(s: State): State {
    var c := s.(ptpNum := CountTick(s.ptpNum),
                log := if CounterSyncs(s.ptpNum) then s.log + [MasterSync(Counter)] else s.log);
    if s.ptpNum == 60 then
      c.(config := Running(s.config), cached := Running(s.config))
    else c
  }

  /** With agreeing seconds a master selects the GPS source, computed from the register as
      it was before the tick; it publishes what it last read back in any case. */
  function MasterPublish(s: State, before: Word, agree: bool): State {
    var a := if agree then s.(config := GpsSource(before), cached := GpsSource(before)) else s;
    a.(published := a.published.(clockSource := a.cached & 0x4000, ptpLock := a.cached & 0x2000,
                                 armRun := a.cached & 0x1000))
  }

  function MasterSelect(s: State, i: Input): State {
    MasterPublish(MasterCount(s), s.config, SecondsAgree(i))
  }

  function ConsumeFlag(s: State): State {
    if s.waitPtp == 1 then s.(waitPtp := 0, log := s.log + [MasterSync(Flag)]) else s
  }

  function MasterUp(s: State, i: Input): State {
    ConsumeFlag(SendTime(MasterSelect(s, i), i))
  }

  function ByRole(s: State, i: Input): State {
    if s.curStatus == CLOCK_SLAVE && s.carrier == CARRIER_UP then SlaveUp(s, i)
    else if s.curStatus == CLOCK_SLAVE && s.carrier == CARRIER_DOWN then SlaveDown(s)
    else if s.curStatus == CLOCK_MASTER && s.carrier == CARRIER_UP then MasterUp(s, i)
    else s
  }

  /** The work of a pass whose trigger fired. */
  function Triggered(s: State, i: Input): State {
    ByRole(s.(ptpNum := Succ(s.ptpNum)), i)
  }

  function Sensed(s: State, i: Input): State {
    s.(published := s.published.(fpgaState := i.workStatus))
  }

  function WithCarrier(s: State, i: Input): State {
    var buffnet := if i.carrier.Byte? then i.carrier.b else s.carrier;
    s.(carrier := buffnet, published := s.published.(net := buffnet))
  }

  /** A pass up to the role switch. */
  function Tick(s: State, i: Input): State {
    var a := Sensed(s, i);
    if i.carrier.CannotOpen? then a.(phase := Stopped)
    else
      var b := WithCarrier(a, i);
      if i.triggerFails then b.(phase := Stopped)
      else (if i.trigger == 1 then Triggered(b, i) else b).(phase := AtSwitch)
  }

  function Recovered(config: Word): Word {
    (config & !CLK_PTP) | CLK_GPS
  }

  /** The switch at the end of a pass. */
  function Switch(s: State): State {
    if s.curStatus == CLOCK_MASTER && s.gpsStatus == GPS_UNCONNECT then
      s.(curStatus := CLOCK_SLAVE, phase := AtTop)
    else if s.curStatus == CLOCK_SLAVE && s.machType == CLOCK_MASTER && s.gpsStatus == GPS_CONNECT then
      s.(curStatus := CLOCK_MASTER, config := Recovered(s.config), log := s.log + [Ntpd], phase := AtTop)
    else
      s.(phase := AtTop)
  }

  // ------------------------------------------------------------ program

  /** The globals of main.c and the locals of thread_send_ptp_time_handle. */
  class ClockNode {
    const bus: Bus
    var machType: nat
    var curStatus: nat
    var gpsStatus: nat
    var gpsThread: bool
    const masterToSlave: nat := 0
    var waitPtp: nat
    var ptpNum: nat
    var fpgaConfig: Word
    var netFlag: nat
    var netCount: nat
    var buffnet: nat
    var parameter: Parameter
    var log: seq<Command>
    // Where the tick thread stands.
    ghost var phase: Phase

    ghost predicate Valid()
      reads this, bus, bus.regs
    {
      bus.Valid()
    }

    ghost function View(): State
      reads this, bus, bus.regs
      requires Valid()
    {
      State(machType, curStatus, gpsStatus, gpsThread, waitPtp, ptpNum, fpgaConfig, netFlag,
            netCount, buffnet, phase, bus.regs[ADDR_CONFIG],
            bus.regs[ADDR_PTP_TIME..ADDR_GPS_TIME], parameter, log)
    }

    /** The part of main that reads the configuration, sets the roles and the CLK_SLAVE
        bit, and starts the threads; `conf` is what get_conf returned, as a byte. */
    constructor (bus: Bus, conf: nat)
      requires bus.Valid()
      requires conf == CLOCK_MASTER || conf == CLOCK_SLAVE || conf == CLOCK_UNKNOWN
      modifies bus, bus.regs
      ensures Valid() && this.bus == bus
      ensures View() == Boot(conf, old(bus.regs[ADDR_CONFIG]), old(bus.regs[ADDR_PTP_TIME..ADDR_GPS_TIME]))
    {
      this.bus := bus;
      gpsStatus, waitPtp := GPS_UNCONNECT, 0;
      ptpNum, fpgaConfig, netFlag, netCount, buffnet, log := 0, 0, 0, 0, 0, [];
      curStatus := conf;
      parameter := Parameter(conf, 0, 0, 0, 0, 0, 0);
      machType := conf;
      gpsThread := conf == CLOCK_MASTER;
      phase := AtTop;
      new;
      var fpgaDate := bus.ReadConfig();
      if machType == CLOCK_SLAVE {
        bus.WriteConfig(fpgaDate | CLK_SLAVE);
      } else {
        bus.WriteConfig(fpgaDate & !CLK_SLAVE);
      }
    }

    /** One pass of thread_check_gps_status_handle. */
    method PollGps(status: Word)
      requires Valid() && gpsThread
      modifies this, bus, bus.regs
      ensures Valid() && View() == GpsPoll(old(View()), status)
      ensures bus.regs[..] == old(bus.regs[..])[0x1C := status]
      ensures parameter.gpsLock == status & 0x80
      ensures gpsStatus == if status & 0x80 != 0 then 0 else 1
    {
      bus.DeviceSets(ADDR_LOGIC_STATUS, status);
      var val := bus.ReadRegister(ADDR_LOGIC_STATUS);
      parameter := parameter.(gpsLock := val & 0x80);
      if val & 0x80 != 0 {
        gpsStatus := GPS_CONNECT;
      } else {
        gpsStatus := GPS_UNCONNECT;
      }
    }

    method FillTime(c: Calendar) returns (buff: array<Word>)
      ensures fresh(buff) && buff[..] == TimeWords(c)
    {
      var month, year := c.mon + 1, YearWord(c.year);
      buff := new Word[6];
      buff[5] := c.sec;
      buff[4] := c.min;
      buff[3] := c.hour;
      buff[2] := c.mday;
      buff[1] := month;
      buff[0] := year;
      assert buff[..] == [year, month, c.mday, c.hour, c.min, c.sec];
    }

    /** The two transfer loops. */
    method ExchangeTime(i: Input, buff: array<Word>)
      requires Valid() && buff.Length == TIME_DATA_LENGTH && buff != bus.regs
      modifies bus, bus.regs, buff
      ensures Valid() && View() == old(View()).(ptpTime := old(buff[..]))
      ensures forall k :: 0 <= k < TIME_DATA_LENGTH ==> buff[k] == i.deviceTime[k]
    {
      ghost var start := bus.regs[..];
      bus.WriteTimes(buff);
      ghost var sent := bus.regs[..];
      assert sent[ADDR_CONFIG] == sent[..ADDR_PTP_TIME][ADDR_CONFIG] == start[..ADDR_PTP_TIME][ADDR_CONFIG];
      bus.ReadTimes(buff, i.deviceTime);
      ghost var end := bus.regs[..];
      assert end[ADDR_CONFIG] == end[..ADDR_FPGA_TIME][ADDR_CONFIG] == sent[..ADDR_FPGA_TIME][ADDR_CONFIG];
      assert end[ADDR_PTP_TIME..ADDR_GPS_TIME] == end[ADDR_PTP_TIME..][..6] == sent[ADDR_PTP_TIME..][..6];
      assert forall k :: 0 <= k < TIME_DATA_LENGTH ==> buff[k] == buff[..][k];
    }

    method SendSystemTime(i: Input)
      requires Valid()
      modifies this`waitPtp, bus, bus.regs
      ensures Valid() && View() == SendTime(old(View()), i)
    {
      var buff := FillTime(i.calendar);
      ExchangeTime(i, buff);
      if buff[3] == 9 && buff[4] == 0 && buff[5] == 0 {
        waitPtp := 1;
      }
    }

    method Publish(sourceMask: Word)
      requires Valid()
      modifies this`parameter
      ensures parameter == old(parameter).(clockSource := fpgaConfig & sourceMask,
                                           ptpLock := fpgaConfig & 0x2000,
                                           armRun := fpgaConfig & 0x1000)
    {
      parameter := parameter.(clockSource := fpgaConfig & sourceMask);
      parameter := parameter.(ptpLock := fpgaConfig & 0x2000);
      parameter := parameter.(armRun := fpgaConfig & 0x1000);
    }

    method SyncSlave(i: Input, fpgaStatus: Word)
      requires Valid() && fpgaStatus == bus.regs[ADDR_CONFIG] | PTP_VALID
      modifies this, bus, bus.regs
      ensures Valid() && View() == SlaveSelect(old(View()), i)
    {
      log := log + [SlaveSync];
      if i.ptpSec == i.systemSec {
        bus.WriteConfig((fpgaStatus | CLK_PTP) & OMAP_RUN_LED);
        fpgaConfig := bus.ReadConfig();
        Publish(0xc000);
      }
    }

    method Slave(i: Input, fpgaStatus: Word)
      requires Valid() && fpgaStatus == bus.regs[ADDR_CONFIG] | PTP_VALID
      modifies this, bus, bus.regs
      ensures Valid() && View() == SlaveUp(old(View()), i)
    {
      SyncSlave(i, fpgaStatus);
      SendSystemTime(i);
      if netFlag == 1 && netCount >= 3 {
        netFlag := 0;
        netCount := 0;
        log := log + [Reboot];
      }
    }

    method LostCarrier(fpgaStatus: Word)
      requires Valid() && fpgaStatus == bus.regs[ADDR_CONFIG] | PTP_VALID
      modifies this, bus, bus.regs
      ensures Valid() && View() == SlaveDown(old(View()))
    {
      bus.WriteConfig(fpgaStatus & !PTP_VALID);
      fpgaConfig := bus.ReadConfig();
      netFlag := 1;
      netCount := Succ(netCount);
    }

    method CountMaster(fpgaStatus: Word)
      requires Valid() && fpgaStatus == bus.regs[ADDR_CONFIG] | PTP_VALID
      modifies this, bus, bus.regs
      ensures Valid() && View() == MasterCount(old(View()))
    {
      if ptpNum == 60 {
        log := log + [MasterSync(Counter)];
        bus.WriteConfig(fpgaStatus & OMAP_RUN_LED);
        fpgaConfig := bus.ReadConfig();
        ptpNum := 100;
      } else if ptpNum == 3700 {
        log := log + [MasterSync(Counter)];
        ptpNum := 3700;
      }
      if ptpNum == 3800 {
        ptpNum := 3700;
      }
    }

    method SyncMaster(i: Input, fpgaStatus: Word, ghost before: Word)
      requires Valid() && fpgaStatus == before | PTP_VALID
      modifies this, bus, bus.regs
      ensures Valid() && View() == MasterPublish(old(View()), before, SecondsAgree(i))
    {
      if i.ptpSec == i.systemSec {
        bus.WriteConfig((fpgaStatus | CLK_GPS) & OMAP_RUN_LED);
        fpgaConfig := bus.ReadConfig();
      }
      Publish(0x4000);
    }

    method SelectMaster(i: Input, fpgaStatus: Word)
      requires Valid() && fpgaStatus == bus.regs[ADDR_CONFIG] | PTP_VALID
      modifies this, bus, bus.regs
      ensures Valid() && View() == MasterSelect(old(View()), i)
    {
      ghost var before := bus.regs[ADDR_CONFIG];
      CountMaster(fpgaStatus);
      SyncMaster(i, fpgaStatus, before);
    }

    method Master(i: Input, fpgaStatus: Word)
      requires Valid() && fpgaStatus == bus.regs[ADDR_CONFIG] | PTP_VALID
      modifies this, bus, bus.regs
      ensures Valid() && View() == MasterUp(old(View()), i)
    {
      SelectMaster(i, fpgaStatus);
      SendSystemTime(i);
      if waitPtp == 1 {
        waitPtp := 0;
        log := log + [MasterSync(Flag)];
      }
    }

    method ActByRole(i: Input, fpgaStatus: Word)
      requires Valid() && fpgaStatus == bus.regs[ADDR_CONFIG] | PTP_VALID
      modifies this, bus, bus.regs
      ensures Valid() && View() == ByRole(old(View()), i)
    {
      if curStatus == CLOCK_SLAVE && buffnet == CARRIER_UP {
        Slave(i, fpgaStatus);
      } else if curStatus == CLOCK_SLAVE && buffnet == CARRIER_DOWN {
        LostCarrier(fpgaStatus);
      } else if curStatus == CLOCK_MASTER && buffnet == CARRIER_UP {
        Master(i, fpgaStatus);
      }
    }

    /** The work of a pass whose trigger fired. */
    method OnTrigger(i: Input)
      requires Valid()
      modifies this, bus, bus.regs
      ensures Valid() && View() == Triggered(old(View()), i)
    {
      ptpNum := Succ(ptpNum);
      var fpgaStatus := bus.ReadConfig();
      fpgaStatus := fpgaStatus | PTP_VALID;
      ActByRole(i, fpgaStatus);
    }

    method ReadWorkStatus(i: Input)
      requires Valid()
      modifies this, bus, bus.regs
      ensures Valid() && View() == Sensed(old(View()), i)
      ensures bus.regs[..] == old(bus.regs[..])[0x01 := i.workStatus]
      ensures parameter.fpgaState == i.workStatus
    {
      bus.DeviceSets(ADDR_WORK_STATUS, i.workStatus);
      var fpgaDate := bus.ReadRegister(ADDR_WORK_STATUS);
      parameter := parameter.(fpgaState := fpgaDate);
    }

    /** The loop body of thread_send_ptp_time_handle, up to its switch statement. */
    method Work(i: Input)
      requires Valid() && phase == AtTop
      modifies this, bus, bus.regs
      ensures Valid() && View() == Tick(old(View()), i)
    {
      ReadWorkStatus(i);
      if i.carrier.CannotOpen? {
        phase := Stopped;
        return;
      }
      if i.carrier.Byte? {
        buffnet := i.carrier.b;
      }
      parameter := parameter.(net := buffnet);
      if i.triggerFails {
        phase := Stopped;
        return;
      }
      if i.trigger == 1 {
        OnTrigger(i);
      }
      phase := AtSwitch;
    }

    /** The switch statement that ends the loop body. */
    method SwitchRole()
      requires Valid() && phase == AtSwitch
      modifies this, bus, bus.regs
      ensures Valid() && View() == Switch(old(View()))
    {
      if curStatus == CLOCK_MASTER {
        if gpsStatus == GPS_UNCONNECT {
          curStatus := CLOCK_SLAVE;
        }
      } else if curStatus == CLOCK_SLAVE {
        if machType == CLOCK_MASTER && gpsStatus == GPS_CONNECT && masterToSlave == 0 {
          curStatus := CLOCK_MASTER;
          log := log + [Ntpd];
          var fpgaStatus := bus.ReadConfig();
          bus.WriteConfig((fpgaStatus & !CLK_PTP) | CLK_GPS);
        }
      }
      phase := AtTop;
    }
  }
}
