/**
 The FPGA accessors of fpga_ctl.c: one shared message structure through which single
 device registers are read and written.  Assumptions: accessor calls do not overlap, and
 a register changes only when it is written here or, for the status and time registers
 the device drives itself, when the device updates it.
 */
module FpgaBus {

  type Word = bv32

  const ADDR_WORK_STATUS: nat := 0x01
  const ADDR_CONFIG: nat := 0x02
  const ADDR_FPGA_TIME: nat := 0x04
  const ADDR_PTP_TIME: nat := 0x0A
  const ADDR_GPS_TIME: nat := 0x10
  const ADDR_LOGIC_STATUS: nat := 0x1C
  const REGISTERS: nat := 0x21

  const TIME_DATA_LENGTH: nat := 6

  type SixWords = s: seq<Word> | |s| == TIME_DATA_LENGTH witness [0, 0, 0, 0, 0, 0]

  /** Registers only this program writes; the device drives the others. */
  predicate Commanded(addr: nat) {
    addr == ADDR_CONFIG || ADDR_PTP_TIME <= addr < ADDR_PTP_TIME + TIME_DATA_LENGTH
  }

  class Bus {
    // fpga_msg
    var addr: nat
    var txVal: Word
    var rxVal: Word
    // the device
    const regs: array<Word>

    ghost predicate Valid()
      reads this, regs
    {
      regs.Length == REGISTERS
    }

    constructor (initial: seq<Word>)
      requires |initial| == REGISTERS
      ensures Valid() && fresh(regs) && regs[..] == initial
    {
      addr, txVal, rxVal := 0, 0, 0;
      regs := new Word[REGISTERS](i requires 0 <= i < |initial| => initial[i]);
    }

    /** ioctl(fd, EMIFA_READ, &fpga_msg) */
    method Read()
      requires Valid() && addr < REGISTERS
      modifies this`rxVal
      ensures rxVal == regs[addr]
    {
      rxVal := regs[addr];
    }

    /** ioctl(fd, EMIFA_WRITE, &fpga_msg) */
    method Write()
      requires Valid() && addr < REGISTERS
      modifies regs
      ensures regs[..] == old(regs[..])[addr := txVal]
    {
      regs[addr] := txVal;
    }

    /** The device updates one of its own registers. */
    method DeviceSets(a: nat, v: Word)
      requires Valid() && a < REGISTERS && !Commanded(a)
      modifies regs
      ensures regs[..] == old(regs[..])[a := v]
    {
      regs[a] := v;
    }

    method ReadRegister(a: nat) returns (v: Word)
      requires Valid() && a < REGISTERS
      modifies this
      ensures v == regs[a]
    {
      addr := a;
      rxVal := 0;
      Read();
      return rxVal;
    }

    method ReadConfig() returns (v: Word)
      requires Valid()
      modifies this
      ensures v == regs[ADDR_CONFIG]
    {
      v := ReadRegister(ADDR_CONFIG);
    }

    method WriteConfig(val: Word)
      requires Valid()
      modifies this, regs
      ensures regs[..] == old(regs[..])[0x02 := val]
    {
      addr := ADDR_CONFIG;
      txVal := val;
      Write();
    }

    /** fpga_rdwr_config: sets bits and clears none. */
    method RdwrConfig(val: Word)
      requires Valid()
      modifies this, regs
      ensures regs[..] == old(regs[..])[0x02 := old(regs[0x02]) | val]
    {
      addr := ADDR_CONFIG;
      rxVal := 0;
      Read();
      txVal := rxVal | val;
      Write();
    }

    method WritePtpTime(buff: array<Word>, offset: nat)
      requires Valid() && offset < buff.Length && ADDR_PTP_TIME + offset < REGISTERS
      requires buff != regs
      modifies this, regs
      ensures regs[..] == old(regs[..])[ADDR_PTP_TIME + offset := buff[offset]]
    {
      addr := ADDR_PTP_TIME + offset;
      txVal := buff[offset];
      Write();
    }

    /** The first transfer loop of send_system_time: the six words of the buffer go to the
        PTP time registers and nothing else on the device changes. */
    method WriteTimes(buff: array<Word>)
      requires Valid() && buff.Length == TIME_DATA_LENGTH && buff != regs
      modifies this, regs
      ensures regs[0x0A..0x10] == buff[..]
      ensures regs[..0x0A] == old(regs[..0x0A])
      ensures regs[0x10..] == old(regs[0x10..])
    {
      ghost var before := regs[..];
      var i := 0;
      while i < TIME_DATA_LENGTH
        invariant i <= TIME_DATA_LENGTH
        invariant forall a :: 0 <= a < REGISTERS ==>
                    regs[a] == if ADDR_PTP_TIME <= a < ADDR_PTP_TIME + i then buff[a - ADDR_PTP_TIME]
                               else before[a]
      {
        WritePtpTime(buff, i);
        assert forall a :: 0 <= a < REGISTERS ==> regs[a] == regs[..][a];
        i := i + 1;
      }
    }

    /** The second transfer loop: the buffer comes to hold the six FPGA time registers,
        which the device may have advanced before each read. */
    method ReadTimes(buff: array<Word>, deviceTime: SixWords)
      requires Valid() && buff.Length == TIME_DATA_LENGTH && buff != regs
      modifies this, regs, buff
      ensures buff[..] == deviceTime && regs[0x04..0x0A] == deviceTime
      ensures regs[..0x04] == old(regs[..0x04])
      ensures regs[0x0A..] == old(regs[0x0A..])
    {
      ghost var before := regs[..];
      var i := 0;
      while i < TIME_DATA_LENGTH
        invariant i <= TIME_DATA_LENGTH
        invariant forall k :: 0 <= k < i ==> buff[k] == deviceTime[k]
        invariant forall a :: 0 <= a < REGISTERS ==>
                    regs[a] == if ADDR_FPGA_TIME <= a < ADDR_FPGA_TIME + i then deviceTime[a - ADDR_FPGA_TIME]
                               else before[a]
      {
        DeviceSets(ADDR_FPGA_TIME + i, deviceTime[i]);
        assert forall a :: 0 <= a < REGISTERS ==> regs[a] == regs[..][a];
        buff[i] := ReadRegister(ADDR_FPGA_TIME + i);
        i := i + 1;
      }
    }
  }
}
