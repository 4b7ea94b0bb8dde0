/**
 What the gateway is told: the texts Trap_msg_to_snmpd and the work-mode query look up
 from the published status words, and what they say about the run of the clock that
 published them.
 */
module StatusTexts {

  import opened FpgaBus
  import opened Clock
  import opened ClockRuns
  import opened ClockTicks

  const CLOCK_SOURCES: seq<string> := ["AutoClock", "GPSClock", "RS422Clock", "PTPClock"]
  const LOCK_STATES: seq<string> := ["UnLock", "Lock"]
  const FPGA_STATES: seq<string> := ["FPGAslaveState", "FPGAmasterState", "Error"]
  const NET_STATES: seq<string> := ["Disconnected", "Connected"]
  const RUN_STATES: seq<string> := ["Run", "Stop"]
  const WORK_MODES: seq<string> := ["Master", "Slave", "Error"]

  const FPGA_WORK_STATE_MASTER: Word := 0x5a
  const FPGA_WORK_STATE_SLAVE: Word := 0xaa

  function SourceIndex(source: Word): (i: nat)
    ensures i < 4
  {
    var bits := (source >> 14) & 3;
    if bits == 0 then 0 else if bits == 1 then 1 else if bits == 2 then 2 else 3
  }

  function FpgaIndex(state: Word): (i: nat)
    ensures i < 3
  {
    if state == FPGA_WORK_STATE_SLAVE || state == FPGA_WORK_STATE_MASTER then
      if state == FPGA_WORK_STATE_MASTER then 1 else 0
    else 2
  }

  function ModeIndex(mode: nat): (i: nat)
    ensures i < 3
  {
    if mode == 1 || mode == 2 then mode - 1 else 2
  }

  /** The status text of a trap; other codes leave the text empty. */
  function TrapText(code: nat, p: Parameter): string {
    match code
    case 0x70 => CLOCK_SOURCES[SourceIndex(p.clockSource)]
    case 0x71 => LOCK_STATES[if p.gpsLock & 0x80 != 0 then 1 else 0]
    case 0x72 => LOCK_STATES[if p.ptpLock & 0x2000 != 0 then 1 else 0]
    case 0x73 => FPGA_STATES[FpgaIndex(p.fpgaState)]
    case 0x74 => NET_STATES[if p.net == CARRIER_UP then 1 else 0]
    case 0x75 => RUN_STATES[if p.armRun & 0x1000 != 0 then 1 else 0]
    case _ => ""
  }

  /** The answer to a read of operation code 0x60. */
  function WorkModeText(p: Parameter): string {
    WORK_MODES[ModeIndex(p.deviceMode)]
  }

  lemma SourceText(p: Parameter)
    ensures p.clockSource & 0xC000 == 0 ==> TrapText(0x70, p) == "AutoClock"
    ensures p.clockSource & 0xC000 == 0x4000 ==> TrapText(0x70, p) == "GPSClock"
    ensures p.clockSource & 0xC000 == 0x8000 ==> TrapText(0x70, p) == "RS422Clock"
    ensures p.clockSource & 0xC000 == 0xC000 ==> TrapText(0x70, p) == "PTPClock"
  {
    SourceBits(p.clockSource);
  }

  lemma SourceBits(x: Word)
    ensures (x >> 14) & 3 == 0 <==> x & 0xC000 == 0
    ensures (x >> 14) & 3 == 1 <==> x & 0xC000 == 0x4000
    ensures (x >> 14) & 3 == 2 <==> x & 0xC000 == 0x8000
    ensures (x >> 14) & 3 == 3 <==> x & 0xC000 == 0xC000
  {
  }

  /** Each trap's text, by the words it is looked up from. */
  lemma TextsByWord(p: Parameter)
    ensures TrapText(0x71, p) == if p.gpsLock & 0x80 == 0x80 then "Lock" else "UnLock"
    ensures TrapText(0x72, p) == if p.ptpLock & 0x2000 == 0x2000 then "Lock" else "UnLock"
    ensures TrapText(0x73, p) == FpgaText(p.fpgaState)
    ensures TrapText(0x74, p) == if p.net == 49 then "Connected" else "Disconnected"
    ensures TrapText(0x75, p) == if p.armRun & 0x1000 == 0x1000 then "Stop" else "Run"
    ensures WorkModeText(p)
            == if p.deviceMode == 1 then "Master" else if p.deviceMode == 2 then "Slave" else "Error"
  {
    OneBit(p.gpsLock, p.ptpLock, p.armRun);
  }

  lemma OneBit(g: Word, p: Word, a: Word)
    ensures g & 0x80 == 0 || g & 0x80 == 0x80
    ensures p & 0x2000 == 0 || p & 0x2000 == 0x2000
    ensures a & 0x1000 == 0 || a & 0x1000 == 0x1000
  {
  }

  /** What an FPGA work status is called. */
  function FpgaText(status: Word): string {
    if status == 0x5a then "FPGAmasterState" else if status == 0xaa then "FPGAslaveState" else "Error"
  }

  // ------------------------------------------------ status words of a run

  /** The published GPS lock and carrier agree with the state that decides the role. */
  predicate StatusLaw(s: State) {
    && (s.published.gpsLock & 0x80 != 0 <==> s.gpsStatus == GPS_CONNECT)
    && s.published.net == s.carrier
  }

  predicate SameStatus(s: State, t: State) {
    && t.published.gpsLock == s.published.gpsLock && t.gpsStatus == s.gpsStatus
    && t.published.net == s.published.net && t.carrier == s.carrier
  }

  lemma SlaveUpKeepsStatus(s: State, i: Input)
    ensures SameStatus(s, SlaveUp(s, i))
  {
  }

  lemma MasterUpKeepsStatus(s: State, i: Input)
    ensures SameStatus(s, MasterUp(s, i))
  {
    var a := MasterCount(s);
    assert SameStatus(s, a);
    assert SameStatus(a, MasterSelect(s, i));
  }

  lemma ByRoleKeepsStatus(s: State, i: Input)
    ensures SameStatus(s, ByRole(s, i))
  {
    if s.curStatus == CLOCK_SLAVE {
      SlaveUpKeepsStatus(s, i);
      SlaveDownKeepsStatus(s);
    } else {
      MasterUpKeepsStatus(s, i);
    }
  }

  lemma SlaveDownKeepsStatus(s: State)
    ensures SameStatus(s, SlaveDown(s))
  {
  }

  lemma LockBit(status: Word)
    ensures (status & 0x80) & 0x80 == status & 0x80
  {
  }

  lemma StepKeepsStatusLaw(s: State, e: Event)
    requires StatusLaw(s)
    ensures StatusLaw(Next(s, e))
  {
    match e
    case Pass(i) =>
      if s.phase.AtTop? && !i.carrier.CannotOpen? {
        ByRoleKeepsStatus(Entered(s, i), i);
      }
    case RoleSwitch =>
    case Poll(status) => LockBit(status);
  }

  lemma {:induction false} ExecKeepsStatusLaw(w: World, es: seq<Event>)
    requires StatusLaw(w.s)
    ensures StatusLaw(Exec(w, es).s)
  {
    if es != [] {
      ExecKeepsStatusLaw(w, es[..|es| - 1]);
      StepKeepsStatusLaw(Exec(w, es[..|es| - 1]).s, es[|es| - 1]);
    }
  }

  lemma ReachedHasStatusLaw(w: World, conf: nat)
    requires Reached(w, conf)
    ensures StatusLaw(w.s)
  {
    var config: Word, ptpTime: SixWords, es: seq<Event> :| w == Exec(Start(conf, config, ptpTime), es);
    ExecKeepsStatusLaw(Start(conf, config, ptpTime), es);
  }

  lemma SourceIndexOf(source: Word)
    ensures source == 0 ==> SourceIndex(source) == 0
    ensures source == 0x4000 ==> SourceIndex(source) == 1
    ensures source == 0xC000 ==> SourceIndex(source) == 3
  {
  }

  /** In every run the clock-source trap never names RS422, and it names PTP exactly when
      the last tick that published was a slave's; whenever it does, the PTP-lock trap says
      "Lock". */
  lemma SourceTrapIsTrue(w: World, conf: nat)
    requires Reached(w, conf)
    ensures TrapText(0x70, w.s.published) != "RS422Clock"
    ensures TrapText(0x70, w.s.published) == "PTPClock" <==> w.h.publisher == BySlave
    ensures TrapText(0x70, w.s.published) == "PTPClock" ==> TrapText(0x72, w.s.published) == "Lock"
    ensures w.h.publisher == Nobody ==> TrapText(0x70, w.s.published) == "AutoClock"
  {
    RunLaws(w, conf);
    PublishedText(w);
  }

  lemma PublishedText(w: World)
    requires PublishLaw(w)
    ensures TrapText(0x70, w.s.published) != "RS422Clock"
    ensures TrapText(0x70, w.s.published) == "PTPClock" <==> w.h.publisher == BySlave
    ensures TrapText(0x70, w.s.published) == "PTPClock" ==> TrapText(0x72, w.s.published) == "Lock"
    ensures w.h.publisher == Nobody ==> TrapText(0x70, w.s.published) == "AutoClock"
  {
    SourceIndexOf(w.s.published.clockSource);
    assert CLOCK_SOURCES[0][0] == 'A' && CLOCK_SOURCES[1][0] == 'G' && CLOCK_SOURCES[3][0] == 'P';
  }

  /** The two traps are composed at different moments: once the source trap has named PTP,
      the PTP-lock trap says "Lock" for as long as no master tick with carrier publishes. */
  lemma LockTrapFollows(w: World, es: seq<Event>, v: World, conf: nat)
    requires Reached(w, conf) && TrapText(0x70, w.s.published) == "PTPClock"
    requires v == Exec(w, es)
    requires forall i :: 0 <= i < |es| ==> !KindOf(Exec(w, es[..i]).s, es[i]).MasterUpTick?
    ensures TrapText(0x72, v.s.published) == "Lock"
  {
    SourceTrapIsTrue(w, conf);
    RunLaws(w, conf);
    ExecKeepsLaws(w, es, conf);
    SlaveStaysPublisher(w, es);
    PublishedText(v);
  }

  lemma {:induction false} SlaveStaysPublisher(w: World, es: seq<Event>)
    requires w.h.publisher == BySlave
    requires forall i :: 0 <= i < |es| ==> !KindOf(Exec(w, es[..i]).s, es[i]).MasterUpTick?
    ensures Exec(w, es).h.publisher == BySlave
  {
    if es != [] {
      var n := |es| - 1;
      forall i | 0 <= i < n
        ensures !KindOf(Exec(w, es[..n][..i]).s, es[..n][i]).MasterUpTick?
      {
        assert es[..n][..i] == es[..i];
      }
      SlaveStaysPublisher(w, es[..n]);
    }
  }

  /** The work status the latest pass of a run from w read; what w shows if none has. */
  function LastWork(w: World, es: seq<Event>): Word {
    if es == [] then w.s.published.fpgaState
    else
      var n := |es| - 1;
      match es[n]
      case Pass(i) => if Exec(w, es[..n]).s.phase.AtTop? then i.workStatus else LastWork(w, es[..n])
      case _ => LastWork(w, es[..n])
  }

  /** The carrier byte a run from w has read last; what w holds if none was read. */
  function LastByte(w: World, es: seq<Event>): nat {
    if es == [] then w.s.carrier
    else
      var n := |es| - 1;
      match es[n]
      case Pass(i) =>
        if Exec(w, es[..n]).s.phase.AtTop? && i.carrier.Byte? then i.carrier.b
        else LastByte(w, es[..n])
      case _ => LastByte(w, es[..n])
  }

  lemma StepReads(s: State, e: Event)
    ensures var t := Next(s, e);
            if e.Pass? && s.phase.AtTop?
            then t.published.fpgaState == e.input.workStatus
                 && t.carrier == (if e.input.carrier.Byte? then e.input.carrier.b else s.carrier)
            else t.published.fpgaState == s.published.fpgaState && t.carrier == s.carrier
  {
    match e
    case Pass(i) =>
      if s.phase.AtTop? {
        PassSenses(s, i, Tick(s, i));
      }
    case RoleSwitch =>
    case Poll(_) =>
  }

  lemma {:induction false} RunReads(w: World, es: seq<Event>, v: World)
    requires v == Exec(w, es)
    ensures v.s.published.fpgaState == LastWork(w, es)
    ensures v.s.carrier == LastByte(w, es)
    decreases |es|
  {
    if es != [] {
      var n := |es| - 1;
      RunReads(w, es[..n], Exec(w, es[..n]));
      StepReads(Exec(w, es[..n]).s, es[n]);
    }
  }

  /** In every run: the GPS trap says "Lock" exactly on a master-configured machine whose
      last poll found bit 7 set; the FPGA trap names the work status read last; the net trap
      says "Connected" exactly when the carrier byte read last is '1'; the run trap says
      "Run" for ever after the first OMAP_RUN_LED write; and the work mode is the configured
      one for ever. */
  lemma OtherTextsAreTrue(w: World, conf: nat, config: Word, ptpTime: SixWords, es: seq<Event>)
    requires Conf(conf) && w == Exec(Start(conf, config, ptpTime), es)
    ensures TrapText(0x71, w.s.published)
            == if conf == 1 && LastStatus(es) & 0x80 == 0x80 then "Lock" else "UnLock"
    ensures TrapText(0x73, w.s.published) == FpgaText(LastWork(Start(conf, config, ptpTime), es))
    ensures TrapText(0x74, w.s.published)
            == if LastByte(Start(conf, config, ptpTime), es) == 49 then "Connected" else "Disconnected"
    ensures w.h.latched ==> TrapText(0x75, w.s.published) == "Run"
    ensures WorkModeText(w.s.published)
            == if conf == 1 then "Master" else if conf == 2 then "Slave" else "Error"
  {
    ReachedHasStatusLaw(w, conf);
    RunLaws(w, conf);
    RunReads(Start(conf, config, ptpTime), es, w);
    if conf == 1 {
      GpsFollowsLastPoll(w, config, ptpTime, es);
    }
    TextsOf(w, conf, LastStatus(es));
  }

  lemma TextsOf(w: World, conf: nat, last: Word)
    requires Conf(conf) && RoleLaw(w, conf) && LatchLaw(w) && StatusLaw(w.s)
    requires conf == 1 ==> GpsLaw(w.s, last)
    ensures TrapText(0x71, w.s.published)
            == if conf == 1 && last & 0x80 == 0x80 then "Lock" else "UnLock"
    ensures TrapText(0x73, w.s.published) == FpgaText(w.s.published.fpgaState)
    ensures TrapText(0x74, w.s.published) == if w.s.carrier == 49 then "Connected" else "Disconnected"
    ensures w.h.latched ==> TrapText(0x75, w.s.published) == "Run"
    ensures WorkModeText(w.s.published)
            == if conf == 1 then "Master" else if conf == 2 then "Slave" else "Error"
  {
    TextsByWord(w.s.published);
    LockBit(last);
  }
}
