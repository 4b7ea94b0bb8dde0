/**
 What one boot, one pass of the clock's loop, one role switch and one GPS poll do, told in
 the numbers of the device: register bits, role codes (1 master, 2 slave), the bytes of
 the carrier file (49 is '1', 48 is '0'), status words and counter values.
 */
module ClockTicks {

  import opened FpgaBus
  import opened Clock
  import opened ClockRuns

  /** The pass reaches its triggered part, in role `role`, with carrier byte `byte`. */
  predicate Reaches(s: State, i: Input, role: nat, byte: nat) {
    && s.phase.AtTop? && s.curStatus == role
    && !i.carrier.CannotOpen? && !i.triggerFails && i.trigger == 1
    && byte == (if i.carrier.Byte? then i.carrier.b else s.carrier)
  }

  /** The device reads nine o'clock: its hour, minute and second registers. */
  predicate ReadsNine(i: Input) {
    i.deviceTime[3] == 9 && i.deviceTime[4] == 0 && i.deviceTime[5] == 0
  }

  // ------------------------------------------------------ register values

  lemma SlaveSourceValue(c: Word)
    ensures SlaveSource(c) == (c | 0xE000) & 0xEFFF
  {
  }

  lemma GpsSourceValue(c: Word)
    ensures GpsSource(c) == (c | 0x6000) & 0xEFFF
  {
  }

  lemma RunningValue(c: Word)
    ensures Running(c) == (c | 0x2000) & 0xEFFF
  {
  }

  lemma InvalidatedValue(c: Word)
    ensures Invalidated(c) == c & 0xFFFF_DFFF
  {
  }

  lemma RecoveredValue(c: Word)
    ensures Recovered(c) == (c & 0xFFFF_3FFF) | 0x4000
  {
  }

  lemma SlaveSourcePublishes(c: Word)
    ensures SlaveSource(c) & 0xC000 == 0xC000 && SlaveSource(c) & 0x2000 == 0x2000
    ensures SlaveSource(c) & 0x1000 == 0
  {
  }

  // ---------------------------------------------------------------- passes

  /** A slave tick with carrier: with agreeing seconds it selects the PTP source and
      publishes it as selected, locked and running; the system clock is set from PTP in any
      case, and three accumulated lost-carrier ticks are paid off by a reboot. */
  predicate SlaveTick(s: State, i: Input, t: State) {
    var due := s.netFlag == 1 && s.netCount >= 3;
    && t.curStatus == 2 && t.ptpNum == (s.ptpNum + 1) % 0x1_0000_0000
    && (if i.ptpSec == i.systemSec
        then t.config == t.cached == (s.config | 0xE000) & 0xEFFF
             && t.published.clockSource == 0xC000 && t.published.ptpLock == 0x2000
             && t.published.armRun == 0
        else t.config == s.config && t.cached == s.cached && PublishedStays(s, t))
    && t.waitPtp == (if ReadsNine(i) then 1 else s.waitPtp)
    && t.log == s.log + (if due then [SlaveSync, Reboot] else [SlaveSync])
    && t.netFlag == (if due then 0 else s.netFlag)
    && t.netCount == (if due then 0 else s.netCount)
  }

  /** A slave tick without carrier clears the PTP-valid bit, and only that, in the register
      and its cached copy, and counts a lost-carrier tick; what is published stays. */
  predicate LostCarrierTick(s: State, t: State) {
    && t.curStatus == 2 && t.ptpNum == (s.ptpNum + 1) % 0x1_0000_0000
    && t.config == s.config & !0x2000 && t.cached == t.config
    && t.netFlag == 1 && t.netCount == (s.netCount + 1) % 0x1_0000_0000
    && PublishedStays(s, t) && t.waitPtp == s.waitPtp && t.log == s.log
  }

  /** A master tick with carrier, n being its count: it synchronises at 60 and 3700, jumps
      from 60 to 100 and from 3800 to 3700, writes the register with the run light on when
      the seconds agree (selecting GPS) or at 60 (not), publishes what it last read back,
      and consumes a nine o'clock reading. */
  predicate MasterTick(s: State, i: Input, t: State) {
    && MasterWrites(s, i, t, (s.config | 0x6000) & 0xEFFF, (s.config | 0x2000) & 0xEFFF)
    && MasterAccounts(s, i, t)
  }

  /** The register part of a master tick: `gps` is written to select GPS and `running` to
      restart the run light only. */
  predicate MasterWrites(s: State, i: Input, t: State, gps: Word, running: Word) {
    var n := (s.ptpNum + 1) % 0x1_0000_0000;
    var agree := i.ptpSec == i.systemSec;
    && t.config == (if agree then gps else if n == 60 then running else s.config)
    && t.cached == (if agree || n == 60 then t.config else s.cached)
    && t.published.clockSource == t.cached & 0x4000
    && t.published.ptpLock == t.cached & 0x2000
    && t.published.armRun == t.cached & 0x1000
  }

  /** The counter, the commands and the accounts of a master tick. */
  predicate MasterAccounts(s: State, i: Input, t: State) {
    var n := (s.ptpNum + 1) % 0x1_0000_0000;
    var nine := s.waitPtp == 1 || ReadsNine(i);
    && t.curStatus == 1
    && t.ptpNum == (if n == 60 then 100 else if n == 3800 then 3700 else n)
    && t.waitPtp == (if nine then 0 else s.waitPtp)
    && t.log == s.log + ((if n == 60 || n == 3700 then [MasterSync(Counter)] else [])
                         + (if nine then [MasterSync(Flag)] else []))
    && t.netFlag == s.netFlag && t.netCount == s.netCount
  }

  /** Any other pass leaves the register, what is published of it, the accounts and the
      commands alone; it counts only if the trigger fired. */
  predicate OtherPass(s: State, i: Input, t: State) {
    && t.curStatus == s.curStatus && t.config == s.config && t.cached == s.cached
    && PublishedStays(s, t) && t.waitPtp == s.waitPtp && t.log == s.log
    && t.netFlag == s.netFlag && t.netCount == s.netCount
    && t.ptpNum == (if !i.carrier.CannotOpen? && !i.triggerFails && i.trigger == 1
                    then (s.ptpNum + 1) % 0x1_0000_0000 else s.ptpNum)
  }

  predicate PublishedStays(s: State, t: State) {
    && t.published.clockSource == s.published.clockSource
    && t.published.ptpLock == s.published.ptpLock
    && t.published.armRun == s.published.armRun
  }

  lemma SlaveEffectValues(s: State, i: Input, t: State)
    requires Effect(s, Pass(i), t) && Reaches(s, i, 2, 49)
    ensures SlaveTick(s, i, t)
  {
    assert KindOf(s, Pass(i)) == SlaveUpTick;
    SlaveSourceValue(s.config);
    SlaveSourcePublishes(s.config);
    SlaveWrites(s, i, t, SlaveSource(s.config));
    SlaveAccounts(s, i, t);
  }

  lemma SlaveWrites(s: State, i: Input, t: State, source: Word)
    requires SlaveUpEffect(s, i, t) && source == SlaveSource(s.config)
    ensures if i.ptpSec == i.systemSec
            then t.config == t.cached == source
                 && t.published.clockSource == source & 0xC000
                 && t.published.ptpLock == source & 0x2000
                 && t.published.armRun == source & 0x1000
            else t.config == s.config && t.cached == s.cached && PublishedStays(s, t)
  {
  }

  lemma SlaveAccounts(s: State, i: Input, t: State)
    requires SlaveUpEffect(s, i, t)
    ensures var due := s.netFlag == 1 && s.netCount >= 3;
            && t.waitPtp == (if ReadsNine(i) then 1 else s.waitPtp)
            && t.log == s.log + (if due then [SlaveSync, Reboot] else [SlaveSync])
            && t.netFlag == (if due then 0 else s.netFlag)
            && t.netCount == (if due then 0 else s.netCount)
  {
  }

  lemma LostCarrierEffectValues(s: State, i: Input, t: State)
    requires Effect(s, Pass(i), t) && Reaches(s, i, 2, 48)
    ensures LostCarrierTick(s, t)
  {
    assert KindOf(s, Pass(i)) == SlaveDownTick;
    assert SlaveDownEffect(s, t);
    InvalidatedValue(s.config);
  }

  lemma MasterKind(s: State, i: Input, t: State)
    requires Effect(s, Pass(i), t) && Reaches(s, i, 1, 49)
    ensures MasterUpEffect(s, i, t) && t.ptpNum == CountTick(Succ(s.ptpNum))
  {
    assert KindOf(s, Pass(i)) == MasterUpTick;
  }

  lemma MasterEffectValues(s: State, i: Input, t: State)
    requires Effect(s, Pass(i), t) && Reaches(s, i, 1, 49)
    ensures MasterTick(s, i, t)
  {
    MasterKind(s, i, t);
    MasterWritesHold(s, i, t, GpsSource(s.config), Running(s.config));
    MasterWritesValues(s, i, t, GpsSource(s.config), Running(s.config));
    MasterAccountsHold(s, i, t);
  }

  lemma MasterWritesValues(s: State, i: Input, t: State, g: Word, r: Word)
    requires MasterWrites(s, i, t, g, r)
    requires g == GpsSource(s.config) && r == Running(s.config)
    ensures MasterWrites(s, i, t, (s.config | 0x6000) & 0xEFFF, (s.config | 0x2000) & 0xEFFF)
  {
    GpsSourceValue(s.config);
    RunningValue(s.config);
    assert g == (s.config | 0x6000) & 0xEFFF;
    assert r == (s.config | 0x2000) & 0xEFFF;
  }

  lemma MasterWritesHold(s: State, i: Input, t: State, gps: Word, running: Word)
    requires MasterUpEffect(s, i, t) && gps == GpsSource(s.config) && running == Running(s.config)
    ensures MasterWrites(s, i, t, gps, running)
  {
  }

  lemma MasterAccountsHold(s: State, i: Input, t: State)
    requires MasterUpEffect(s, i, t) && s.curStatus == 1 && t.ptpNum == CountTick(Succ(s.ptpNum))
    ensures MasterAccounts(s, i, t)
  {
  }

  lemma OtherEffectValues(s: State, i: Input, t: State)
    requires Effect(s, Pass(i), t) && s.phase.AtTop?
    requires !Reaches(s, i, 2, 49) && !Reaches(s, i, 2, 48) && !Reaches(s, i, 1, 49)
    ensures OtherPass(s, i, t)
  {
    assert KindOf(s, Pass(i)) == OtherTick || KindOf(s, Pass(i)) == NoTick;
  }

  /** What every pass does, by its role and carrier byte. */
  lemma PassValues(s: State, i: Input, t: State)
    requires s.phase.AtTop? && t == Tick(s, i)
    ensures if Reaches(s, i, 2, 49) then SlaveTick(s, i, t)
            else if Reaches(s, i, 2, 48) then LostCarrierTick(s, t)
            else if Reaches(s, i, 1, 49) then MasterTick(s, i, t)
            else OtherPass(s, i, t)
  {
    StepHasEffect(s, Pass(i));
    EffectValues(s, i, t);
  }

  lemma EffectValues(s: State, i: Input, t: State)
    requires s.phase.AtTop? && Effect(s, Pass(i), t)
    ensures if Reaches(s, i, 2, 49) then SlaveTick(s, i, t)
            else if Reaches(s, i, 2, 48) then LostCarrierTick(s, t)
            else if Reaches(s, i, 1, 49) then MasterTick(s, i, t)
            else OtherPass(s, i, t)
  {
    if Reaches(s, i, 2, 49) {
      SlaveEffectValues(s, i, t);
    } else if Reaches(s, i, 2, 48) {
      LostCarrierEffectValues(s, i, t);
    } else if Reaches(s, i, 1, 49) {
      MasterEffectValues(s, i, t);
    } else {
      OtherEffectValues(s, i, t);
    }
  }

  // ------------------------------------------- sensing and the time registers

  /** What a pass leaves of its inputs in the published words and the PTP time registers. */
  predicate Shows(s: State, t: State) {
    && t.published.fpgaState == s.published.fpgaState && t.published.net == s.published.net
    && t.carrier == s.carrier && t.gpsStatus == s.gpsStatus
    && t.published.gpsLock == s.published.gpsLock
  }

  lemma SlaveShows(s: State, i: Input)
    ensures Shows(s, SlaveUp(s, i)) && SlaveUp(s, i).ptpTime == TimeWords(i.calendar)
  {
  }

  lemma MasterShows(s: State, i: Input)
    ensures Shows(s, MasterUp(s, i)) && MasterUp(s, i).ptpTime == TimeWords(i.calendar)
  {
    var a := MasterCount(s);
    assert Shows(s, a);
    assert Shows(a, MasterPublish(a, s.config, SecondsAgree(i)));
  }

  lemma RoleShows(s: State, i: Input)
    ensures Shows(s, ByRole(s, i))
    ensures ByRole(s, i).ptpTime
            == if (s.curStatus == 2 || s.curStatus == 1) && s.carrier == 49
               then TimeWords(i.calendar) else s.ptpTime
  {
    SlaveShows(s, i);
    MasterShows(s, i);
  }

  /** What a pass shows of its inputs: every pass publishes the FPGA work status; one that
      can open the carrier file takes its byte, if it holds one, and publishes it; none
      touches the GPS state. */
  predicate Sensing(s: State, i: Input, t: State) {
    && t.published.fpgaState == i.workStatus
    && t.carrier == (if i.carrier.Byte? then i.carrier.b else s.carrier)
    && t.published.net == (if i.carrier.CannotOpen? then s.published.net else t.carrier)
    && t.gpsStatus == s.gpsStatus && t.published.gpsLock == s.published.gpsLock
    && t.phase == (if i.carrier.CannotOpen? || i.triggerFails then Stopped else AtSwitch)
  }

  lemma EnteredSenses(s: State, i: Input)
    requires Fires(s, Pass(i))
    ensures Sensing(s, i, Entered(s, i).(phase := AtSwitch))
    ensures Entered(s, i).ptpTime == s.ptpTime && Entered(s, i).curStatus == s.curStatus
  {
  }

  lemma FiringSenses(s: State, i: Input, p: State, t: State)
    requires Sensing(s, i, p.(phase := AtSwitch)) && Shows(p, t)
    ensures Sensing(s, i, t.(phase := AtSwitch))
  {
  }

  lemma QuietSenses(s: State, i: Input)
    requires s.phase.AtTop? && !Fires(s, Pass(i))
    ensures Sensing(s, i, Tick(s, i)) && Tick(s, i).ptpTime == s.ptpTime
  {
    QuietTickSenses(s, i);
  }

  lemma PassSenses(s: State, i: Input, t: State)
    requires s.phase.AtTop? && t == Tick(s, i)
    ensures Sensing(s, i, t)
  {
    if Fires(s, Pass(i)) {
      FiringTick(s, i);
      EnteredSenses(s, i);
      RoleShows(Entered(s, i), i);
      FiringSenses(s, i, Entered(s, i), ByRole(Entered(s, i), i));
    } else {
      QuietSenses(s, i);
    }
  }

  /** The six time words: years since 2000, or as they came if that is not positive; months
      from 1; day, hour, minute and second. */
  predicate TimeRegisters(ptpTime: seq<Word>, c: Calendar) {
    && |ptpTime| == 6
    && ptpTime[0] == (if 100 < c.year < 0x8000_0064 then c.year - 100 else c.year)
    && ptpTime[1] == c.mon + 1 && ptpTime[2] == c.mday
    && ptpTime[3] == c.hour && ptpTime[4] == c.min && ptpTime[5] == c.sec
  }

  lemma TimeWordsValue(c: Calendar)
    ensures TimeRegisters(TimeWords(c), c)
  {
    YearValue(c.year);
  }

  /** A triggered tick with carrier in either role puts its PTP time into the PTP time
      registers; other passes leave them. */
  lemma PassSetsTime(s: State, i: Input, t: State)
    requires s.phase.AtTop? && t == Tick(s, i)
    ensures if Reaches(s, i, 1, 49) || Reaches(s, i, 2, 49)
            then TimeRegisters(t.ptpTime, i.calendar) else t.ptpTime == s.ptpTime
  {
    TimeWordsValue(i.calendar);
    if Fires(s, Pass(i)) {
      FiringTick(s, i);
      EnteredSenses(s, i);
      RoleShows(Entered(s, i), i);
    } else {
      QuietSenses(s, i);
    }
  }

  lemma YearValue(year: Word)
    ensures YearWord(year) == if 100 < year < 0x8000_0064 then year - 100 else year
  {
  }

  // ------------------------------------------- boot, the switch and the poll

  lemma SlaveBitValues(c: Word)
    ensures c | CLK_SLAVE == c | 0x0800 && c & !CLK_SLAVE == c & 0xFFFF_F7FF
  {
  }

  /** A slave boots with bit 11 of the register set, any other machine with it clear, and
      no other bit changes; everything else starts from nothing. */
  lemma BootValues(conf: nat, config: Word, ptpTime: SixWords, s: State)
    requires s == Boot(conf, config, ptpTime)
    ensures s.config == if conf == 2 then config | 0x0800 else config & 0xFFFF_F7FF
    ensures s.machType == s.curStatus == s.published.deviceMode == conf
    ensures s.gpsStatus == 1 && (s.gpsThread <==> conf == 1)
    ensures s.waitPtp == s.ptpNum == s.netFlag == s.netCount == s.carrier == 0
    ensures s.cached == 0 && s.published == Parameter(conf, 0, 0, 0, 0, 0, 0)
    ensures s.log == [] && s.ptpTime == ptpTime && s.phase == AtTop
  {
    SlaveBitValues(config);
  }

  /** A slave configured as master that has GPS again. */
  predicate Recovers(s: State) {
    s.curStatus == 2 && s.machType == 1 && s.gpsStatus == 0
  }

  /** The switch: a master without GPS becomes a slave and nothing else changes; a slave
      configured as master becomes master again with GPS, starts ntpd, and selects the GPS
      source by bits 15 and 14 alone; all other switches change nothing. */
  lemma SwitchValues(s: State, t: State)
    requires t == Switch(s)
    ensures t.curStatus == if s.curStatus == 1 && s.gpsStatus == 1 then 2
                           else if Recovers(s) then 1 else s.curStatus
    ensures t.config == if Recovers(s) then (s.config & 0xFFFF_3FFF) | 0x4000 else s.config
    ensures t.log == if Recovers(s) then s.log + [Ntpd] else s.log
    ensures t == s.(curStatus := t.curStatus, config := t.config, log := t.log, phase := AtTop)
  {
    RecoveredValue(s.config);
    SwitchWrites(s, t, Recovered(s.config));
    SwitchFrame(s, t);
  }

  lemma SwitchWrites(s: State, t: State, recovered: Word)
    requires t == Switch(s) && recovered == Recovered(s.config)
    ensures t.curStatus == if s.curStatus == 1 && s.gpsStatus == 1 then 2
                           else if Recovers(s) then 1 else s.curStatus
    ensures t.config == if Recovers(s) then recovered else s.config
    ensures t.log == if Recovers(s) then s.log + [Ntpd] else s.log
  {
  }

  lemma SwitchFrame(s: State, t: State)
    requires t == Switch(s)
    ensures t == s.(curStatus := t.curStatus, config := t.config, log := t.log, phase := AtTop)
  {
  }

  /** A poll of the GPS thread: bit 7 of the logic status is published and is the
      connection state (0 connected, 1 not); nothing else changes. */
  lemma PollValues(s: State, status: Word, t: State)
    requires t == GpsPoll(s, status) && s.gpsThread
    ensures t.published.gpsLock == status & 0x80
    ensures t.gpsStatus == if status & 0x80 == 0x80 then 0 else 1
    ensures t == s.(gpsStatus := t.gpsStatus,
                    published := s.published.(gpsLock := t.published.gpsLock))
  {
  }

  // --------------------------------------------------- the GPS state of a run

  /** The status the last poll of a run found; none has bit 7 before the first. */
  function LastStatus(es: seq<Event>): Word {
    if es == [] then 0 as Word
    else match es[|es| - 1]
         case Poll(status) => status
         case _ => LastStatus(es[..|es| - 1])
  }

  /** The GPS state says what the last poll found. */
  ghost predicate GpsLaw(s: State, last: Word) {
    && s.gpsThread
    && s.published.gpsLock == last & 0x80
    && s.gpsStatus == (if last & 0x80 == 0x80 then 0 else 1)
  }

  lemma StepKeepsGpsLaw(s: State, e: Event, last: Word)
    requires GpsLaw(s, last)
    ensures GpsLaw(Next(s, e), match e case Poll(status) => status case _ => last)
  {
    match e
    case Pass(i) =>
      if s.phase.AtTop? {
        PassSenses(s, i, Tick(s, i));
        StepHasEffect(s, e);
      }
    case RoleSwitch =>
    case Poll(status) => PollValues(s, status, Next(s, e));
  }

  /** In every run of a master-configured machine the connection state and the published
      lock are bit 7 of the status polled last: not connected and not locked before the
      first poll. */
  lemma {:induction false} GpsFollowsLastPoll(w: World, config: Word, ptpTime: SixWords, es: seq<Event>)
    requires w == Exec(Start(1, config, ptpTime), es)
    ensures GpsLaw(w.s, LastStatus(es))
    decreases |es|
  {
    if es != [] {
      var n := |es| - 1;
      var v := Exec(Start(1, config, ptpTime), es[..n]);
      GpsFollowsLastPoll(v, config, ptpTime, es[..n]);
      StepKeepsGpsLaw(v.s, es[n], LastStatus(es[..n]));
    }
  }

  /** So whatever has happened, its next switch leaves it master (1) if the status polled
      last has bit 7 set, and slave (2) if not. */
  lemma MasterFollowsLastPoll(w: World, config: Word, ptpTime: SixWords, es: seq<Event>)
    requires w == Exec(Start(1, config, ptpTime), es) && w.s.phase.AtSwitch?
    ensures Step(w, RoleSwitch).s.curStatus == if LastStatus(es) & 0x80 == 0x80 then 1 else 2
  {
    GpsFollowsLastPoll(w, config, ptpTime, es);
    RunLaws(w, 1);
    SwitchValues(w.s, Step(w, RoleSwitch).s);
  }

  // ---------------------------------------------- the PTP-valid bit of a run

  /** Event e is a triggered slave tick without carrier. */
  predicate LosesCarrier(s: State, e: Event) {
    e.Pass? && Reaches(s, e.input, 2, 48)
  }

  /** Event e is a triggered tick with carrier and agreeing seconds, in either role, or the
      master's tick that counts to 60. */
  predicate Restores(s: State, e: Event) {
    && e.Pass?
    && var agree := e.input.ptpSec == e.input.systemSec;
       || (Reaches(s, e.input, 2, 49) && agree)
       || (Reaches(s, e.input, 1, 49) && (agree || (s.ptpNum + 1) % 0x1_0000_0000 == 60))
  }

  lemma ValidBitValues(c: Word)
    ensures (c & !0x2000) & 0x2000 == 0
    ensures ((c | 0xE000) & 0xEFFF) & 0x2000 == 0x2000
    ensures ((c | 0x6000) & 0xEFFF) & 0x2000 == 0x2000
    ensures ((c | 0x2000) & 0xEFFF) & 0x2000 == 0x2000
    ensures ((c & 0xFFFF_3FFF) | 0x4000) & 0x2000 == c & 0x2000
  {
  }

  /** The PTP-valid bit after one event. */
  function ValidBitAfter(s: State, e: Event): Word {
    if LosesCarrier(s, e) then 0 else if Restores(s, e) then 0x2000 else s.config & 0x2000
  }

  lemma NextSetsValidBit(s: State, e: Event, t: State)
    requires t == Next(s, e)
    ensures t.config & 0x2000 == ValidBitAfter(s, e)
  {
    match e
    case Pass(i) =>
      if s.phase.AtTop? {
        PassValues(s, i, t);
        PassSetsValidBit(s, i, t);
      }
    case RoleSwitch =>
      if s.phase.AtSwitch? {
        SwitchValues(s, t);
        ValidBitValues(s.config);
      }
    case Poll(_) =>
  }

  lemma PassSetsValidBit(s: State, i: Input, t: State)
    requires if Reaches(s, i, 2, 49) then SlaveTick(s, i, t)
             else if Reaches(s, i, 2, 48) then LostCarrierTick(s, t)
             else if Reaches(s, i, 1, 49) then MasterTick(s, i, t)
             else OtherPass(s, i, t)
    ensures t.config & 0x2000 == ValidBitAfter(s, Pass(i))
  {
    if Reaches(s, i, 2, 49) {
      SlaveSetsValidBit(s, i, t);
    } else if Reaches(s, i, 2, 48) {
      LostCarrierClearsValidBit(s, t);
    } else if Reaches(s, i, 1, 49) {
      MasterSetsValidBit(s, i, t);
    } else {
      assert t.config == s.config;
    }
  }

  lemma SlaveSetsValidBit(s: State, i: Input, t: State)
    requires SlaveTick(s, i, t)
    ensures t.config & 0x2000 == if i.ptpSec == i.systemSec then 0x2000 else s.config & 0x2000
  {
    ValidBitValues(s.config);
  }

  lemma LostCarrierClearsValidBit(s: State, t: State)
    requires LostCarrierTick(s, t)
    ensures t.config & 0x2000 == 0
  {
    ValidBitValues(s.config);
  }

  lemma MasterSetsValidBit(s: State, i: Input, t: State)
    requires MasterTick(s, i, t)
    ensures t.config & 0x2000
            == if i.ptpSec == i.systemSec || (s.ptpNum + 1) % 0x1_0000_0000 == 60 then 0x2000
               else s.config & 0x2000
  {
    ValidBitValues(s.config);
  }

  /** The state in which event k of a run from w finds the machine. */
  function At(w: World, es: seq<Event>, k: nat): State
    requires k <= |es|
  {
    Exec(w, es[..k]).s
  }

  lemma AtNext(w: World, es: seq<Event>, k: nat)
    requires k < |es|
    ensures At(w, es, k + 1) == Next(At(w, es, k), es[k])
  {
    assert es[..k + 1][..k] == es[..k];
  }

  /** From event k on, nothing has set or cleared the PTP-valid bit. */
  predicate Untouched(w: World, es: seq<Event>, k: nat) {
    forall m: nat :: k <= m < |es| ==>
      !LosesCarrier(At(w, es, m), es[m]) && !Restores(At(w, es, m), es[m])
  }

  lemma {:induction false} Constant(bits: seq<Word>, k: nat, n: nat)
    requires k <= n < |bits|
    requires forall m :: k <= m < n ==> bits[m + 1] == bits[m]
    ensures bits[n] == bits[k]
  {
    if k < n {
      Constant(bits, k, n - 1);
    }
  }

  lemma UntouchedStays(w: World, es: seq<Event>, k: nat)
    requires k <= |es| && Untouched(w, es, k)
    ensures At(w, es, |es|).config & 0x2000 == At(w, es, k).config & 0x2000
  {
    var bits := seq(|es| + 1, m requires 0 <= m <= |es| => At(w, es, m).config & 0x2000);
    forall m | k <= m < |es|
      ensures bits[m + 1] == bits[m]
    {
      AtNext(w, es, m);
      NextSetsValidBit(At(w, es, m), es[m], At(w, es, m + 1));
    }
    Constant(bits, k, |es|);
  }

  /** The PTP-valid bit (bit 13) of any run: clear from a lost-carrier tick on until one of
      the ticks that restore it, set from such a tick on until a lost-carrier tick, and as
      it was found if there has been neither. */
  lemma ValidBitFollows(w: World, es: seq<Event>)
    ensures Untouched(w, es, 0) ==> Exec(w, es).s.config & 0x2000 == w.s.config & 0x2000
    ensures forall k: nat :: k < |es| && Untouched(w, es, k + 1) ==>
              && (LosesCarrier(At(w, es, k), es[k]) ==> Exec(w, es).s.config & 0x2000 == 0)
              && (Restores(At(w, es, k), es[k]) ==> Exec(w, es).s.config & 0x2000 == 0x2000)
  {
    assert es[..|es|] == es && es[..0] == [];
    assert At(w, es, |es|) == Exec(w, es).s && At(w, es, 0) == w.s;
    if Untouched(w, es, 0) {
      UntouchedStays(w, es, 0);
    }
    forall k: nat | k < |es| && Untouched(w, es, k + 1)
      ensures LosesCarrier(At(w, es, k), es[k]) ==> At(w, es, |es|).config & 0x2000 == 0
      ensures Restores(At(w, es, k), es[k]) ==> At(w, es, |es|).config & 0x2000 == 0x2000
    {
      AtNext(w, es, k);
      NextSetsValidBit(At(w, es, k), es[k], At(w, es, k + 1));
      UntouchedStays(w, es, k + 1);
    }
  }
}
