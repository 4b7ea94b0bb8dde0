/**
 What every run of the clock keeps: any interleaving of passes of the tick loop, role
 switches and GPS polls, with any inputs, from any boot state.
 */
module ClockRuns {

  import opened FpgaBus
  import opened Clock

  datatype Event = Pass(input: Input) | RoleSwitch | Poll(status: Word)

  /** What a pass does, told from the state before it and its inputs alone. */
  datatype Kind = SlaveUpTick | SlaveDownTick | MasterUpTick | OtherTick | NoTick

  function CarrierSeen(s: State, i: Input): nat {
    if i.carrier.Byte? then i.carrier.b else s.carrier
  }

  predicate Fires(s: State, e: Event) {
    && e.Pass? && s.phase.AtTop?
    && !e.input.carrier.CannotOpen? && !e.input.triggerFails && e.input.trigger == 1
  }

  function KindOf(s: State, e: Event): Kind {
    if !Fires(s, e) then NoTick
    else if s.curStatus == CLOCK_SLAVE && CarrierSeen(s, e.input) == CARRIER_UP then SlaveUpTick
    else if s.curStatus == CLOCK_SLAVE && CarrierSeen(s, e.input) == CARRIER_DOWN then SlaveDownTick
    else if s.curStatus == CLOCK_MASTER && CarrierSeen(s, e.input) == CARRIER_UP then MasterUpTick
    else OtherTick
  }

  /** Which role last published the clock source. */
  datatype Publisher = Nobody | BySlave | ByMaster

  /** A record of the run, kept beside the state and read by no step. */
  datatype History = History(
    boot: Word,              // the configuration register found at boot
    triggers: nat,           // passes whose trigger fired
    wraps: nat,              // of those, passes on which the 32-bit counter wrapped
    onlyMaster: bool,        // every one of them was a master tick with carrier
    lost: nat,               // slave ticks with the carrier lost
    lostSince: nat,          // those since the last reboot
    publisher: Publisher,
    latched: bool,           // some tick wrote with OMAP_RUN_LED
    nines: nat,              // device time readings of 09:00:00
    held: bool,              // one was taken by a slave, with no master tick since
    due: nat,                // master ticks that found a reading, their own or held
    failovers: nat)          // role switches from master to slave

  datatype World = World(s: State, h: History)

  function Next(s: State, e: Event): State {
    match e
    case Pass(i) => if s.phase.AtTop? then Tick(s, i) else s
    case RoleSwitch => if s.phase.AtSwitch? then Switch(s) else s
    case Poll(status) => GpsPoll(s, status)
  }

  predicate RebootDue(s: State, e: Event, lostSince: nat) {
    KindOf(s, e).SlaveUpTick? && lostSince > 0 && lostSince % UINT_VALUES >= 3
  }

  /** The record after event e took the state from s to t. */
  function Observe(h: History, s: State, e: Event, t: State): History {
    var kind := KindOf(s, e);
    var nine := (kind.SlaveUpTick? || kind.MasterUpTick?) && NineOClock(e.input.deviceTime);
    var agree := e.Pass? && SecondsAgree(e.input);
    History(
      h.boot,
      if Fires(s, e) then h.triggers + 1 else h.triggers,
      if Fires(s, e) && s.ptpNum + 1 >= UINT_VALUES then h.wraps + 1 else h.wraps,
      h.onlyMaster && (Fires(s, e) ==> kind.MasterUpTick?),
      if kind.SlaveDownTick? then h.lost + 1 else h.lost,
      if kind.SlaveDownTick? then h.lostSince + 1
      else if RebootDue(s, e, h.lostSince) then 0 else h.lostSince,
      if kind.SlaveUpTick? && agree then BySlave
      else if kind.MasterUpTick? then ByMaster else h.publisher,
      h.latched || Latches(s, e),
      if nine then h.nines + 1 else h.nines,
      if kind.MasterUpTick? then false else h.held || (nine && kind.SlaveUpTick?),
      if kind.MasterUpTick? && (nine || h.held) then h.due + 1 else h.due,
      if e.RoleSwitch? && s.curStatus == CLOCK_MASTER && t.curStatus == CLOCK_SLAVE
      then h.failovers + 1 else h.failovers)
  }

  function Step(w: World, e: Event): World {
    World(Next(w.s, e), Observe(w.h, w.s, e, Next(w.s, e)))
  }

  function Exec(w: World, es: seq<Event>): World {
    if es == [] then w else Step(Exec(w, es[..|es| - 1]), es[|es| - 1])
  }

  function Start(conf: nat, config: Word, ptpTime: SixWords): World {
    World(Boot(conf, config, ptpTime),
          History(config, 0, 0, true, 0, 0, Nobody, false, 0, false, 0, 0))
  }

  /** The values get_conf can leave in an unsigned char. */
  predicate Conf(conf: nat) {
    conf == CLOCK_MASTER || conf == CLOCK_SLAVE || conf == CLOCK_UNKNOWN
  }

  ghost function Times(log: seq<Command>, c: Command): nat {
    multiset(log)[c]
  }

  // ------------------------------------------------ the effect of one event

  /** Everything the laws below speak of, except the counter, is unchanged. */
  predicate Same(s: State, t: State) {
    && t.curStatus == s.curStatus && t.gpsStatus == s.gpsStatus && t.waitPtp == s.waitPtp
    && t.cached == s.cached && t.netFlag == s.netFlag && t.netCount == s.netCount
    && t.config == s.config && t.log == s.log
    && t.published.clockSource == s.published.clockSource
    && t.published.ptpLock == s.published.ptpLock
    && t.published.armRun == s.published.armRun
  }

  function RebootLog(s: State): seq<Command> {
    if s.netFlag == 1 && s.netCount >= 3 then [SlaveSync, Reboot] else [SlaveSync]
  }

  predicate SlaveUpEffect(s: State, i: Input, t: State) {
    var source := if SecondsAgree(i) then SlaveSource(s.config) else s.config;
    && t.curStatus == s.curStatus && t.gpsStatus == s.gpsStatus
    && t.waitPtp == (if NineOClock(i.deviceTime) then 1 else s.waitPtp)
    && t.config == source
    && t.cached == (if SecondsAgree(i) then source else s.cached)
    && t.published.clockSource == (if SecondsAgree(i) then source & 0xc000 else s.published.clockSource)
    && t.published.ptpLock == (if SecondsAgree(i) then source & 0x2000 else s.published.ptpLock)
    && t.published.armRun == (if SecondsAgree(i) then source & 0x1000 else s.published.armRun)
    && t.log == s.log + RebootLog(s)
    && t.netFlag == (if s.netFlag == 1 && s.netCount >= 3 then 0 else s.netFlag)
    && t.netCount == (if s.netFlag == 1 && s.netCount >= 3 then 0 else s.netCount)
  }

  predicate SlaveDownEffect(s: State, t: State) {
    && t.curStatus == s.curStatus && t.gpsStatus == s.gpsStatus && t.waitPtp == s.waitPtp
    && t.config == Invalidated(s.config) && t.cached == Invalidated(s.config)
    && t.published.clockSource == s.published.clockSource
    && t.published.ptpLock == s.published.ptpLock
    && t.published.armRun == s.published.armRun && t.log == s.log
    && t.netFlag == 1 && t.netCount == Succ(s.netCount)
  }

  /** The commands of a master tick whose counter has become n. */
  function MasterLog(n: nat, flag: bool): seq<Command> {
    (if CounterSyncs(n) then [MasterSync(Counter)] else []) + (if flag then [MasterSync(Flag)] else [])
  }

  predicate MasterUpEffect(s: State, i: Input, t: State) {
    var n := Succ(s.ptpNum);
    && t.curStatus == s.curStatus && t.gpsStatus == s.gpsStatus
    && t.waitPtp == (if s.waitPtp == 1 || NineOClock(i.deviceTime) then 0 else s.waitPtp)
    && t.config == (if SecondsAgree(i) then GpsSource(s.config)
                    else if n == 60 then Running(s.config) else s.config)
    && t.cached == (if SecondsAgree(i) || n == 60 then t.config else s.cached)
    && t.published.clockSource == t.cached & 0x4000
    && t.published.ptpLock == t.cached & 0x2000
    && t.published.armRun == t.cached & 0x1000
    && t.log == s.log + MasterLog(n, s.waitPtp == 1 || NineOClock(i.deviceTime))
    && t.netFlag == s.netFlag && t.netCount == s.netCount
  }

  predicate SwitchEffect(s: State, t: State) {
    if s.curStatus == CLOCK_MASTER && s.gpsStatus == GPS_UNCONNECT then
      Same(s.(curStatus := CLOCK_SLAVE), t)
    else if s.curStatus == CLOCK_SLAVE && s.machType == CLOCK_MASTER && s.gpsStatus == GPS_CONNECT then
      Same(s.(curStatus := CLOCK_MASTER, config := Recovered(s.config), log := s.log + [Ntpd]), t)
    else Same(s, t)
  }

  predicate PollEffect(s: State, t: State) {
    && (t.gpsStatus == GPS_CONNECT || t.gpsStatus == GPS_UNCONNECT)
    && Same(s.(gpsStatus := t.gpsStatus), t)
  }

  predicate Effect(s: State, e: Event, t: State) {
    && Frame(s, t)
    && match KindOf(s, e)
       case SlaveUpTick => SlaveUpEffect(s, e.input, t) && t.ptpNum == Succ(s.ptpNum)
       case SlaveDownTick => SlaveDownEffect(s, t) && t.ptpNum == Succ(s.ptpNum)
       case MasterUpTick => MasterUpEffect(s, e.input, t) && t.ptpNum == CountTick(Succ(s.ptpNum))
       case OtherTick => Same(s, t) && t.ptpNum == Succ(s.ptpNum)
       case NoTick =>
         t.ptpNum == s.ptpNum
         && if e.RoleSwitch? && s.phase.AtSwitch? then SwitchEffect(s, t)
            else if e.Poll? && s.gpsThread then PollEffect(s, t)
            else Same(s, t)
  }

  /** What no event changes. */
  predicate Frame(s: State, t: State) {
    && t.machType == s.machType && t.gpsThread == s.gpsThread
    && t.published.deviceMode == s.published.deviceMode
  }

  lemma SlaveSelectHasEffect(s: State, i: Input)
    ensures var t := SlaveSelect(s, i);
            var source := if SecondsAgree(i) then SlaveSource(s.config) else s.config;
            && Frame(s, t) && t.ptpNum == s.ptpNum && t.waitPtp == s.waitPtp
            && t.curStatus == s.curStatus && t.gpsStatus == s.gpsStatus
            && t.config == source && t.cached == (if SecondsAgree(i) then source else s.cached)
            && t.published.clockSource == (if SecondsAgree(i) then source & 0xc000 else s.published.clockSource)
            && t.published.ptpLock == (if SecondsAgree(i) then source & 0x2000 else s.published.ptpLock)
            && t.published.armRun == (if SecondsAgree(i) then source & 0x1000 else s.published.armRun)
            && t.log == s.log + [SlaveSync]
            && t.netFlag == s.netFlag && t.netCount == s.netCount
  {
  }

  lemma SettleSlaveTick(s: State, i: Input)
    ensures var t := RebootIfDue(SendTime(s, i));
            var due := s.netFlag == 1 && s.netCount >= 3;
            && Frame(s, t) && t.ptpNum == s.ptpNum
            && t.waitPtp == (if NineOClock(i.deviceTime) then 1 else s.waitPtp)
            && t.log == s.log + (if due then [Reboot] else [])
            && t.netFlag == (if due then 0 else s.netFlag)
            && t.netCount == (if due then 0 else s.netCount)
            && Same(s.(waitPtp := t.waitPtp, log := t.log, netFlag := t.netFlag, netCount := t.netCount), t)
  {
  }

  lemma SlaveUpHasEffect(s: State, i: Input)
    ensures SlaveUpEffect(s, i, SlaveUp(s, i)) && Frame(s, SlaveUp(s, i))
    ensures SlaveUp(s, i).ptpNum == s.ptpNum
  {
    SlaveSelectHasEffect(s, i);
    SettleSlaveTick(SlaveSelect(s, i), i);
    assert s.log + [SlaveSync] + [Reboot] == s.log + [SlaveSync, Reboot];
    assert s.log + [SlaveSync] + [] == s.log + [SlaveSync];
  }

  lemma MasterCountHasEffect(s: State)
    ensures var t := MasterCount(s);
            && Frame(s, t) && t.ptpNum == CountTick(s.ptpNum)
            && t.config == (if s.ptpNum == 60 then Running(s.config) else s.config)
            && t.cached == (if s.ptpNum == 60 then t.config else s.cached)
            && t.log == s.log + MasterLog(s.ptpNum, false)
            && Same(s.(config := t.config, cached := t.cached, log := t.log), t)
  {
    assert s.log + [] == s.log;
  }

  lemma MasterPublishHasEffect(s: State, before: Word, agree: bool)
    ensures var t := MasterPublish(s, before, agree);
            && Frame(s, t) && t.ptpNum == s.ptpNum && t.waitPtp == s.waitPtp
            && t.curStatus == s.curStatus && t.gpsStatus == s.gpsStatus
            && t.config == (if agree then GpsSource(before) else s.config)
            && t.cached == (if agree then t.config else s.cached)
            && t.published.clockSource == t.cached & 0x4000
            && t.published.ptpLock == t.cached & 0x2000
            && t.published.armRun == t.cached & 0x1000
            && t.log == s.log && t.netFlag == s.netFlag && t.netCount == s.netCount
  {
  }

  predicate MasterSelectEffect(s: State, agree: bool, t: State) {
    && Frame(s, t) && t.curStatus == s.curStatus && t.gpsStatus == s.gpsStatus
    && t.ptpNum == CountTick(s.ptpNum) && t.waitPtp == s.waitPtp
    && t.config == (if agree then GpsSource(s.config)
                    else if s.ptpNum == 60 then Running(s.config) else s.config)
    && t.cached == (if agree || s.ptpNum == 60 then t.config else s.cached)
    && t.published.clockSource == t.cached & 0x4000
    && t.published.ptpLock == t.cached & 0x2000
    && t.published.armRun == t.cached & 0x1000
    && t.log == s.log + MasterLog(s.ptpNum, false)
    && t.netFlag == s.netFlag && t.netCount == s.netCount
  }

  lemma MasterSelectHasEffect(s: State, i: Input)
    ensures MasterSelectEffect(s, SecondsAgree(i), MasterSelect(s, i))
  {
    MasterCountHasEffect(s);
    MasterPublishHasEffect(MasterCount(s), s.config, SecondsAgree(i));
  }

  lemma FinishHasEffect(s: State, i: Input)
    ensures var t := ConsumeFlag(SendTime(s, i));
            var nine := NineOClock(i.deviceTime);
            && Frame(s, t) && t.ptpNum == s.ptpNum
            && t.waitPtp == (if nine || s.waitPtp == 1 then 0 else s.waitPtp)
            && Same(s.(waitPtp := t.waitPtp, log := t.log), t)
            && t.log == s.log + (if nine || s.waitPtp == 1 then [MasterSync(Flag)] else [])
  {
  }

  lemma MasterUpHasEffect(s: State, i: Input, n: nat)
    requires s.ptpNum == Succ(n)
    ensures MasterUpEffect(s.(ptpNum := n), i, MasterUp(s, i)) && Frame(s, MasterUp(s, i))
    ensures MasterUp(s, i).ptpNum == CountTick(s.ptpNum)
  {
    MasterSelectHasEffect(s, i);
    FinishHasEffect(MasterSelect(s, i), i);
    MasterLogParts(s.log, s.ptpNum);
  }

  lemma MasterLogParts(log: seq<Command>, n: nat)
    ensures log + MasterLog(n, false) + [MasterSync(Flag)] == log + MasterLog(n, true)
    ensures log + MasterLog(n, false) + [] == log + MasterLog(n, false)
  {
  }

  /** The state in which the triggered part of a pass starts. */
  function Entered(s: State, i: Input): State {
    WithCarrier(Sensed(s, i), i).(ptpNum := Succ(s.ptpNum))
  }

  lemma EnteredFrame(s: State, i: Input)
    ensures var p := Entered(s, i);
            Frame(s, p) && Same(s, p) && p.carrier == CarrierSeen(s, i) && p.ptpNum == Succ(s.ptpNum)
  {
  }

  lemma FiringTick(s: State, i: Input)
    requires Fires(s, Pass(i))
    ensures Tick(s, i) == ByRole(Entered(s, i), i).(phase := AtSwitch)
  {
  }

  /** A pass that does not fire gets as far as the sensing it managed. */
  lemma QuietTickSenses(s: State, i: Input)
    requires !Fires(s, Pass(i)) && s.phase.AtTop?
    ensures Tick(s, i)
            == if i.carrier.CannotOpen? then Sensed(s, i).(phase := Stopped)
               else WithCarrier(Sensed(s, i), i).(phase := if i.triggerFails then Stopped else AtSwitch)
  {
  }

  lemma SensingFrame(s: State, i: Input, phase: Phase)
    ensures var a := Sensed(s, i).(phase := phase);
            Frame(s, a) && Same(s, a) && a.ptpNum == s.ptpNum
    ensures var b := WithCarrier(Sensed(s, i), i).(phase := phase);
            Frame(s, b) && Same(s, b) && b.ptpNum == s.ptpNum
  {
  }

  lemma QuietTick(s: State, i: Input)
    requires s.phase.AtTop? && !Fires(s, Pass(i))
    ensures Frame(s, Tick(s, i)) && Same(s, Tick(s, i)) && Tick(s, i).ptpNum == s.ptpNum
  {
    QuietTickSenses(s, i);
    SensingFrame(s, i, Stopped);
    SensingFrame(s, i, AtSwitch);
  }

  // Sensing and the trigger count do not matter to what a tick does (p for s), nor does
  // the phase to what it did (u for t).

  lemma SlaveUpOfFields(s: State, i: Input, p: State, t: State, u: State)
    requires Same(s, p) && SlaveUpEffect(p, i, t) && Same(t, u)
    ensures SlaveUpEffect(s, i, u)
  {
  }

  lemma SlaveDownOfFields(s: State, p: State, t: State, u: State)
    requires Same(s, p) && SlaveDownEffect(p, t) && Same(t, u)
    ensures SlaveDownEffect(s, u)
  {
  }

  lemma MasterUpOfFields(s: State, i: Input, p: State, t: State, u: State)
    requires Same(s, p) && p.ptpNum == s.ptpNum && MasterUpEffect(p, i, t) && Same(t, u)
    ensures MasterUpEffect(s, i, u)
  {
  }

  lemma SlaveDownHasEffect(s: State)
    ensures SlaveDownEffect(s, SlaveDown(s)) && Frame(s, SlaveDown(s)) && SlaveDown(s).ptpNum == s.ptpNum
  {
  }

  predicate Starts(s: State, i: Input, p: State) {
    && Fires(s, Pass(i)) && Frame(s, p) && Same(s, p)
    && p.carrier == CarrierSeen(s, i) && p.ptpNum == Succ(s.ptpNum)
  }

  predicate Ends(t: State, u: State) {
    Frame(t, u) && Same(t, u) && u.ptpNum == t.ptpNum
  }

  lemma SlaveUpTickHasEffect(s: State, i: Input, p: State, u: State)
    requires Starts(s, i, p) && KindOf(s, Pass(i)).SlaveUpTick? && Ends(SlaveUp(p, i), u)
    ensures Effect(s, Pass(i), u)
  {
    SlaveUpHasEffect(p, i);
    SlaveUpOfFields(s, i, p, SlaveUp(p, i), u);
  }

  lemma SlaveDownTickHasEffect(s: State, i: Input, p: State, u: State)
    requires Starts(s, i, p) && KindOf(s, Pass(i)).SlaveDownTick? && Ends(SlaveDown(p), u)
    ensures Effect(s, Pass(i), u)
  {
    SlaveDownHasEffect(p);
    SlaveDownOfFields(s, p, SlaveDown(p), u);
  }

  lemma MasterUpTickHasEffect(s: State, i: Input, p: State, u: State)
    requires Starts(s, i, p) && KindOf(s, Pass(i)).MasterUpTick? && Ends(MasterUp(p, i), u)
    ensures Effect(s, Pass(i), u)
  {
    MasterUpHasEffect(p, i, s.ptpNum);
    MasterUpOfFields(s, i, p.(ptpNum := s.ptpNum), MasterUp(p, i), u);
  }

  lemma FiringTickHasEffect(s: State, i: Input, p: State, u: State)
    requires Starts(s, i, p) && Ends(ByRole(p, i), u)
    ensures Effect(s, Pass(i), u)
  {
    match KindOf(s, Pass(i))
    case SlaveUpTick => SlaveUpTickHasEffect(s, i, p, u);
    case SlaveDownTick => SlaveDownTickHasEffect(s, i, p, u);
    case MasterUpTick => MasterUpTickHasEffect(s, i, p, u);
    case OtherTick =>
  }

  /** Every event of every run has the effect its kind says. */
  lemma StepHasEffect(s: State, e: Event)
    ensures Effect(s, e, Next(s, e))
  {
    match e
    case Pass(i) =>
      if Fires(s, e) {
        FiringTick(s, i);
        EnteredFrame(s, i);
        FiringTickHasEffect(s, i, Entered(s, i), Tick(s, i));
      } else if s.phase.AtTop? {
        QuietTick(s, i);
      }
    case RoleSwitch =>
    case Poll(_) =>
  }

  // --------------------------------------------------------- register bits

  lemma SlaveSourceBits(c: Word)
    ensures SlaveSource(c) & 0xC000 == 0xC000 && SlaveSource(c) & 0x1000 == 0
    ensures SlaveSource(c) & 0x0800 == c & 0x0800 && SlaveSource(c) & 0x2000 == 0x2000
  {
  }

  lemma InvalidatedBits(c: Word)
    ensures Invalidated(c) & 0x8000 == c & 0x8000 && Invalidated(c) & 0xC000 == c & 0xC000
    ensures Invalidated(c) & 0x1000 == c & 0x1000 && Invalidated(c) & 0x0800 == c & 0x0800
  {
  }

  lemma RunningBits(c: Word)
    ensures Running(c) & 0x8000 == c & 0x8000 && Running(c) & 0x1000 == 0
    ensures Running(c) & 0x0800 == c & 0x0800
  {
  }

  lemma GpsSourceBits(c: Word)
    ensures GpsSource(c) & 0x8000 == c & 0x8000 && GpsSource(c) & 0x4000 == 0x4000
    ensures GpsSource(c) & 0x1000 == 0 && GpsSource(c) & 0x0800 == c & 0x0800
  {
  }

  lemma RecoveredBits(c: Word)
    ensures Recovered(c) & 0x8000 == 0 && Recovered(c) & 0x4000 == 0x4000
    ensures Recovered(c) & 0x1000 == c & 0x1000 && Recovered(c) & 0x0800 == c & 0x0800
  {
  }

  // ---------------------------------------------------------------- roles

  /** The configured type never changes; only a master-configured machine ever changes
      role, and its failovers and recoveries alternate. */
  ghost predicate RoleLaw(w: World, conf: nat) {
    && w.s.machType == conf && w.s.published.deviceMode == conf
    && (w.s.gpsThread <==> conf == CLOCK_MASTER)
    && (w.s.gpsStatus == GPS_CONNECT || w.s.gpsStatus == GPS_UNCONNECT)
    && (conf != CLOCK_MASTER ==>
          w.s.curStatus == conf && w.s.gpsStatus == GPS_UNCONNECT && w.h.failovers == 0)
    && (conf == CLOCK_MASTER ==> w.s.curStatus == CLOCK_MASTER || w.s.curStatus == CLOCK_SLAVE)
    && w.h.failovers == Times(w.s.log, Ntpd)
                        + (if conf == CLOCK_MASTER && w.s.curStatus == CLOCK_SLAVE then 1 else 0)
  }

  /** A machine that is master has its PTP source bit as it was at boot until the first
      recovery, and clear from then on; the CLK_SLAVE bit is always as set at boot. */
  ghost predicate SourceLaw(w: World, conf: nat) {
    && (w.s.curStatus == CLOCK_MASTER ==>
          (w.s.config & 0x8000 != 0 <==> w.h.boot & 0x8000 != 0 && Times(w.s.log, Ntpd) == 0))
    && w.s.config & 0x0800 == (if conf == CLOCK_SLAVE then 0x0800 else 0)
  }

  /** The published source is PTP exactly when a slave published last, and then the PTP
      clock is published as locked. */
  ghost predicate PublishLaw(w: World) {
    match w.h.publisher
    case Nobody => w.s.published.clockSource == 0
    case BySlave => w.s.published.clockSource == 0xC000 && w.s.published.ptpLock == 0x2000
    case ByMaster => w.s.published.clockSource == 0 || w.s.published.clockSource == 0x4000
  }

  /** The stop bit of the run light: as at boot until the first OMAP_RUN_LED write, and
      from then on clear in the register, in the cached copy and in what is published. */
  ghost predicate LatchLaw(w: World) {
    if w.h.latched then
      w.s.config & 0x1000 == 0 && w.s.cached & 0x1000 == 0 && w.s.published.armRun == 0
    else w.s.config & 0x1000 == w.h.boot & 0x1000
  }

  /** The counter after n triggers if all of them were master ticks with carrier. */
  function MasterCounter(n: nat): nat {
    if n < 60 then n else if n < 3660 then n + 40 else 3700 + (n - 3660) % 100
  }

  function MasterCounterSyncs(n: nat): nat {
    (if n >= 60 then 1 else 0) + (if n >= 3660 then 1 else 0)
  }

  /** How many counter-driven synchronisations can lie behind a counter value. */
  function Passed(ptpNum: nat): nat {
    if ptpNum < 60 then 0 else if ptpNum < 3700 then 1 else 2
  }

  ghost predicate CounterLaw(w: World) {
    && w.s.ptpNum < UINT_VALUES
    && Times(w.s.log, MasterSync(Counter)) <= 2 * w.h.wraps + Passed(w.s.ptpNum)
    && (w.h.onlyMaster ==>
          && w.s.ptpNum == MasterCounter(w.h.triggers)
          && Times(w.s.log, MasterSync(Counter)) == MasterCounterSyncs(w.h.triggers))
  }

  /** Lost-carrier ticks are counted since the last reboot, modulo the counter's width. */
  ghost predicate RebootLaw(w: World) {
    && w.s.netFlag == (if w.h.lostSince > 0 then 1 else 0)
    && w.s.netCount == w.h.lostSince % UINT_VALUES
    && 3 * Times(w.s.log, Reboot) + w.h.lostSince <= w.h.lost
  }

  /** The one-shot flag is up exactly while a slave's reading is held, and every master
      tick that finds a reading synchronises once. */
  ghost predicate FlagLaw(w: World) {
    && w.s.waitPtp == (if w.h.held then 1 else 0)
    && Times(w.s.log, MasterSync(Flag)) == w.h.due
    && w.h.due + w.s.waitPtp <= w.h.nines
  }

  ghost predicate Laws(w: World, conf: nat) {
    RoleLaw(w, conf) && SourceLaw(w, conf) && PublishLaw(w) && LatchLaw(w) && CounterLaw(w)
    && RebootLaw(w) && FlagLaw(w)
  }

  function After(w: World, e: Event, t: State): World {
    World(t, Observe(w.h, w.s, e, t))
  }

  /** Roles change only in a switch, GPS states only in a poll. */
  lemma RoleChoices(s: State, e: Event, t: State)
    requires Effect(s, e, t)
    ensures Frame(s, t)
    ensures t.curStatus != s.curStatus ==>
              && e.RoleSwitch? && t.gpsStatus == s.gpsStatus
              && ((s.curStatus == CLOCK_MASTER && t.curStatus == CLOCK_SLAVE && s.gpsStatus == GPS_UNCONNECT)
                  || (s.curStatus == CLOCK_SLAVE && t.curStatus == CLOCK_MASTER
                      && s.machType == CLOCK_MASTER && s.gpsStatus == GPS_CONNECT))
    ensures t.gpsStatus != s.gpsStatus ==>
              s.gpsThread && (t.gpsStatus == GPS_CONNECT || t.gpsStatus == GPS_UNCONNECT)
  {
    match KindOf(s, e)
    case SlaveUpTick => assert SlaveUpEffect(s, e.input, t);
    case SlaveDownTick => assert SlaveDownEffect(s, t);
    case MasterUpTick => assert MasterUpEffect(s, e.input, t);
    case _ =>
  }

  lemma StepKeepsRoleLaw(w: World, e: Event, t: State, conf: nat)
    requires RoleLaw(w, conf) && Effect(w.s, e, t)
    ensures RoleLaw(After(w, e, t), conf)
  {
    RoleChoices(w.s, e, t);
    ResyncCount(w.s, e, t);
  }

  /** What an event can do to the register. */
  lemma ConfigChoices(s: State, e: Event, t: State)
    requires Effect(s, e, t)
    ensures || t.config == s.config
            || (s.curStatus == CLOCK_SLAVE == t.curStatus
                && (t.config == SlaveSource(s.config) || t.config == Invalidated(s.config)))
            || (s.curStatus == CLOCK_MASTER == t.curStatus
                && (t.config == GpsSource(s.config) || t.config == Running(s.config)))
            || (s.curStatus == CLOCK_SLAVE && t.curStatus == CLOCK_MASTER && e.RoleSwitch?
                && t.config == Recovered(s.config))
  {
  }

  lemma ConfigBits(c: Word)
    ensures SlaveSource(c) & 0x0800 == Invalidated(c) & 0x0800 == c & 0x0800
    ensures GpsSource(c) & 0x0800 == Running(c) & 0x0800 == Recovered(c) & 0x0800 == c & 0x0800
    ensures GpsSource(c) & 0x8000 == Running(c) & 0x8000 == c & 0x8000
    ensures Recovered(c) & 0x8000 == 0
  {
    SlaveSourceBits(c);
    InvalidatedBits(c);
    RunningBits(c);
    GpsSourceBits(c);
    RecoveredBits(c);
  }

  lemma StepKeepsSourceLaw(w: World, e: Event, t: State, conf: nat)
    requires RoleLaw(w, conf) && SourceLaw(w, conf) && Effect(w.s, e, t)
    ensures SourceLaw(After(w, e, t), conf)
  {
    ConfigChoices(w.s, e, t);
    ConfigBits(w.s.config);
    ResyncCount(w.s, e, t);
  }

  /** The commands event e issues on its way from s to t. */
  function Issued(s: State, e: Event, t: State): seq<Command> {
    match KindOf(s, e)
    case SlaveUpTick => RebootLog(s)
    case MasterUpTick =>
      MasterLog(Succ(s.ptpNum), s.waitPtp == 1 || NineOClock(e.input.deviceTime))
    case NoTick => if s.curStatus == CLOCK_SLAVE && t.curStatus == CLOCK_MASTER then [Ntpd] else []
    case _ => []
  }

  lemma LogGrows(s: State, e: Event, t: State)
    requires Effect(s, e, t)
    ensures t.log == s.log + Issued(s, e, t)
    ensures !KindOf(s, e).NoTick? ==> t.curStatus == s.curStatus
  {
    var issued := Issued(s, e, t);
    assert issued == [] ==> s.log + issued == s.log;
  }

  lemma CommandCounts(s: State, e: Event, t: State, c: Command)
    requires Effect(s, e, t)
    ensures Times(t.log, c) == Times(s.log, c) + Times(Issued(s, e, t), c)
    ensures !KindOf(s, e).NoTick? ==> t.curStatus == s.curStatus
  {
    LogGrows(s, e, t);
  }

  /** `ntpd` is started by a recovery and by nothing else. */
  lemma ResyncCount(s: State, e: Event, t: State)
    requires Effect(s, e, t)
    ensures Times(t.log, Ntpd)
            == Times(s.log, Ntpd)
               + (if s.curStatus == CLOCK_SLAVE && t.curStatus == CLOCK_MASTER then 1 else 0)
  {
    CommandCounts(s, e, t, Ntpd);
  }

  lemma GpsMask(x: Word)
    ensures x & 0x4000 == 0 || x & 0x4000 == 0x4000
  {
  }

  lemma StepKeepsPublishLaw(w: World, e: Event, t: State)
    requires PublishLaw(w) && Effect(w.s, e, t)
    ensures PublishLaw(After(w, e, t))
  {
    SlaveSourceBits(w.s.config);
    GpsMask(t.cached);
  }

  /** The ticks that write the register with OMAP_RUN_LED. */
  predicate Latches(s: State, e: Event) {
    match KindOf(s, e)
    case SlaveUpTick => SecondsAgree(e.input)
    case MasterUpTick => SecondsAgree(e.input) || Succ(s.ptpNum) == 60
    case _ => false
  }

  lemma LatchChoices(s: State, e: Event, t: State)
    requires Effect(s, e, t)
    ensures Latches(s, e) ==>
              && (t.config == SlaveSource(s.config) || t.config == GpsSource(s.config)
                  || t.config == Running(s.config))
              && t.cached == t.config && t.published.armRun == t.config & 0x1000
    ensures !Latches(s, e) ==>
              && (t.config == s.config || t.config == Invalidated(s.config)
                  || t.config == Recovered(s.config))
              && (t.cached == s.cached || t.cached == Invalidated(s.config))
              && (t.published.armRun == s.published.armRun
                  || t.published.armRun == t.cached & 0x1000)
  {
    match KindOf(s, e)
    case SlaveUpTick => assert SlaveUpEffect(s, e.input, t);
    case SlaveDownTick => assert SlaveDownEffect(s, t);
    case MasterUpTick => assert MasterUpEffect(s, e.input, t);
    case _ => assert t.cached == s.cached && t.published.armRun == s.published.armRun;
  }

  lemma LatchBits(c: Word)
    ensures SlaveSource(c) & 0x1000 == GpsSource(c) & 0x1000 == Running(c) & 0x1000 == 0
    ensures Invalidated(c) & 0x1000 == Recovered(c) & 0x1000 == c & 0x1000
  {
    SlaveSourceBits(c);
    InvalidatedBits(c);
    RunningBits(c);
    GpsSourceBits(c);
    RecoveredBits(c);
  }

  lemma StepKeepsLatchLaw(w: World, e: Event, t: State)
    requires LatchLaw(w) && Effect(w.s, e, t)
    ensures LatchLaw(After(w, e, t))
  {
    LatchChoices(w.s, e, t);
    LatchBits(w.s.config);
    assert After(w, e, t).h.latched == (w.h.latched || Latches(w.s, e));
  }

  /** The counter-driven synchronisation happens exactly on master ticks that count to
      60 or 3700. */
  lemma CounterSyncCount(s: State, e: Event, t: State)
    requires Effect(s, e, t)
    ensures Times(t.log, MasterSync(Counter))
            == Times(s.log, MasterSync(Counter))
               + (if KindOf(s, e).MasterUpTick? && CounterSyncs(Succ(s.ptpNum)) then 1 else 0)
  {
    CommandCounts(s, e, t, MasterSync(Counter));
  }

  lemma CounterChoices(s: State, e: Event, t: State)
    requires Effect(s, e, t)
    ensures t.ptpNum == if !Fires(s, e) then s.ptpNum
                        else if KindOf(s, e).MasterUpTick? then CountTick(Succ(s.ptpNum))
                        else Succ(s.ptpNum)
  {
  }

  lemma StepKeepsCounterLaw(w: World, e: Event, t: State)
    requires CounterLaw(w) && Effect(w.s, e, t)
    ensures CounterLaw(After(w, e, t))
  {
    CounterSyncCount(w.s, e, t);
    CounterChoices(w.s, e, t);
    CounterArithmetic(w.s.ptpNum, w.h.triggers);
  }

  lemma CounterArithmetic(n: nat, triggers: nat)
    requires n < UINT_VALUES
    ensures Succ(n) == if n + 1 >= UINT_VALUES then 0 else n + 1
    ensures n == MasterCounter(triggers) ==>
              && CountTick(Succ(n)) == MasterCounter(triggers + 1)
              && MasterCounterSyncs(triggers + 1)
                 == MasterCounterSyncs(triggers) + (if CounterSyncs(Succ(n)) then 1 else 0)
  {
  }

  /** A reboot is issued exactly when one is due. */
  lemma RebootCount(w: World, e: Event, t: State)
    requires RebootLaw(w) && Effect(w.s, e, t)
    ensures Times(t.log, Reboot)
            == Times(w.s.log, Reboot) + (if RebootDue(w.s, e, w.h.lostSince) then 1 else 0)
  {
    CommandCounts(w.s, e, t, Reboot);
  }

  lemma StepKeepsRebootLaw(w: World, e: Event, t: State)
    requires RebootLaw(w) && Effect(w.s, e, t)
    ensures RebootLaw(After(w, e, t))
  {
    RebootCount(w, e, t);
  }

  lemma FlagSyncCount(s: State, e: Event, t: State)
    requires Effect(s, e, t)
    ensures Times(t.log, MasterSync(Flag))
            == Times(s.log, MasterSync(Flag))
               + (if KindOf(s, e).MasterUpTick? && (s.waitPtp == 1 || NineOClock(e.input.deviceTime))
                  then 1 else 0)
  {
    CommandCounts(s, e, t, MasterSync(Flag));
  }

  lemma StepKeepsFlagLaw(w: World, e: Event, t: State)
    requires FlagLaw(w) && Effect(w.s, e, t)
    ensures FlagLaw(After(w, e, t))
  {
    FlagSyncCount(w.s, e, t);
  }

  // ------------------------------------------------------------- all runs

  lemma StepKeepsLaws(w: World, e: Event, conf: nat)
    requires Laws(w, conf)
    ensures Laws(Step(w, e), conf)
  {
    var t := Next(w.s, e);
    StepHasEffect(w.s, e);
    EffectKeepsLaws(w, e, t, conf);
  }

  lemma EffectKeepsLaws(w: World, e: Event, t: State, conf: nat)
    requires Laws(w, conf) && Effect(w.s, e, t)
    ensures Laws(After(w, e, t), conf)
  {
    StepKeepsRoleLaw(w, e, t, conf);
    StepKeepsSourceLaw(w, e, t, conf);
    StepKeepsPublishLaw(w, e, t);
    StepKeepsLatchLaw(w, e, t);
    StepKeepsCounterLaw(w, e, t);
    StepKeepsRebootLaw(w, e, t);
    StepKeepsFlagLaw(w, e, t);
  }

  lemma BootBits(c: Word)
    ensures (c | CLK_SLAVE) & 0x0800 == 0x0800 && (c & !CLK_SLAVE) & 0x0800 == 0
    ensures (c | CLK_SLAVE) & 0x8000 == (c & !CLK_SLAVE) & 0x8000 == c & 0x8000
    ensures (c | CLK_SLAVE) & 0x1000 == (c & !CLK_SLAVE) & 0x1000 == c & 0x1000
  {
  }

  lemma StartHasLaws(conf: nat, config: Word, ptpTime: SixWords)
    requires Conf(conf)
    ensures Laws(Start(conf, config, ptpTime), conf)
  {
    BootBits(config);
  }

  lemma {:induction false} ExecKeepsLaws(w: World, es: seq<Event>, conf: nat)
    requires Laws(w, conf)
    ensures Laws(Exec(w, es), conf)
  {
    if es != [] {
      ExecKeepsLaws(w, es[..|es| - 1], conf);
      StepKeepsLaws(Exec(w, es[..|es| - 1]), es[|es| - 1], conf);
    }
  }

  /** Some run from some boot with this configuration ends in w. */
  ghost predicate Reached(w: World, conf: nat) {
    && Conf(conf)
    && exists config: Word, ptpTime: SixWords, es: seq<Event> ::
         w == Exec(Start(conf, config, ptpTime), es)
  }

  /** Every law holds after every run, from every boot. */
  lemma RunLaws(w: World, conf: nat)
    requires Reached(w, conf)
    ensures Laws(w, conf)
  {
    var config: Word, ptpTime: SixWords, es: seq<Event> :| w == Exec(Start(conf, config, ptpTime), es);
    StartHasLaws(conf, config, ptpTime);
    ExecKeepsLaws(Start(conf, config, ptpTime), es, conf);
  }

  /** The record keeps the register value found at boot. */
  lemma {:induction false} BootKept(w: World, es: seq<Event>)
    ensures Exec(w, es).h.boot == w.h.boot
  {
    if es != [] {
      BootKept(w, es[..|es| - 1]);
    }
  }

  // ------------------------------------------------------- what follows

  /** The next switch leaves a master-configured machine as master exactly if GPS is
      connected then. */
  lemma MasterFollowsGps(w: World)
    requires Reached(w, CLOCK_MASTER) && w.s.phase.AtSwitch?
    ensures Step(w, RoleSwitch).s.curStatus == CLOCK_MASTER <==> w.s.gpsStatus == GPS_CONNECT
  {
    RunLaws(w, CLOCK_MASTER);
  }

  /** A master-configured machine's recoveries never outrun its failovers nor fall behind
      by two, and they are level exactly while it is master. */
  lemma FailoversAlternate(w: World)
    requires Reached(w, CLOCK_MASTER)
    ensures Times(w.s.log, Ntpd) <= w.h.failovers <= Times(w.s.log, Ntpd) + 1
    ensures Times(w.s.log, Ntpd) == w.h.failovers <==> w.s.curStatus == CLOCK_MASTER
  {
    RunLaws(w, CLOCK_MASTER);
  }

  /** A machine not configured as master is never master, is never told that the GPS is
      connected, and never starts `ntpd`; no machine's configured type or published mode
      ever changes. */
  lemma OthersNeverMaster(w: World, conf: nat)
    requires Reached(w, conf)
    ensures w.s.machType == conf && w.s.published.deviceMode == conf
    ensures conf != CLOCK_MASTER ==>
              && w.s.curStatus == conf && w.s.gpsStatus == GPS_UNCONNECT
              && Times(w.s.log, Ntpd) == 0 && w.h.failovers == 0
  {
    RunLaws(w, conf);
  }

  /** After every run from every boot, a master has its PTP source bit clear exactly if the
      register had it clear at boot or the machine has recovered at least once. */
  lemma MasterSourceClear(w: World, conf: nat, config: Word, ptpTime: SixWords, es: seq<Event>)
    requires Conf(conf) && w == Exec(Start(conf, config, ptpTime), es)
    requires w.s.curStatus == CLOCK_MASTER
    ensures w.s.config & 0x8000 == 0 <==> config & 0x8000 == 0 || Times(w.s.log, Ntpd) > 0
  {
    RunLaws(w, conf);
    BootKept(Start(conf, config, ptpTime), es);
  }

  /** Once a slave-configured machine has selected the PTP source it keeps it for ever. */
  lemma {:induction false} SlaveSourceStays(w: World, es: seq<Event>)
    requires Laws(w, CLOCK_SLAVE) && w.s.config & 0xC000 == 0xC000
    ensures Exec(w, es).s.config & 0xC000 == 0xC000
  {
    if es != [] {
      var v := Exec(w, es[..|es| - 1]);
      var e := es[|es| - 1];
      ExecKeepsLaws(w, es[..|es| - 1], CLOCK_SLAVE);
      SlaveSourceStays(w, es[..|es| - 1]);
      StepHasEffect(v.s, e);
      SlaveKeepsSource(v.s, e, Next(v.s, e));
    }
  }

  /** From the first OMAP_RUN_LED write on, the stop bit is clear in the register, in the
      cached copy and in the published word, for ever. */
  lemma {:induction false} RunLightLatches(w: World, es: seq<Event>, conf: nat)
    requires Laws(w, conf) && w.h.latched
    ensures var v := Exec(w, es);
            && v.h.latched && v.s.config & 0x1000 == 0 && v.s.cached & 0x1000 == 0
            && v.s.published.armRun == 0
  {
    ExecKeepsLaws(w, es, conf);
    if es != [] {
      RunLightLatches(w, es[..|es| - 1], conf);
    }
  }

  /** In every run the CLK_SLAVE bit says "configured as slave". */
  lemma SlaveBitAsConfigured(w: World, conf: nat)
    requires Reached(w, conf)
    ensures w.s.config & CLK_SLAVE == if conf == CLOCK_SLAVE then CLK_SLAVE else 0
  {
    RunLaws(w, conf);
  }

  lemma SlaveKeepsSource(s: State, e: Event, t: State)
    requires Effect(s, e, t) && s.curStatus == CLOCK_SLAVE && s.machType == CLOCK_SLAVE
    requires s.config & 0xC000 == 0xC000
    ensures t.config & 0xC000 == 0xC000
  {
    ConfigChoices(s, e, t);
    SlaveSourceBits(s.config);
    InvalidatedBits(s.config);
  }

  /** Once the counter has reached 3700 it stays there or above until it wraps. */
  lemma {:induction false} CounterStaysHigh(w: World, es: seq<Event>)
    requires CounterLaw(w) && w.s.ptpNum >= 3700
    requires Exec(w, es).h.wraps == w.h.wraps
    ensures Exec(w, es).s.ptpNum >= 3700
  {
    if es != [] {
      var v := Exec(w, es[..|es| - 1]);
      var e := es[|es| - 1];
      WrapsNeverFall(w, es[..|es| - 1]);
      CounterStaysHigh(w, es[..|es| - 1]);
      StepHasEffect(v.s, e);
      CounterChoices(v.s, e, Next(v.s, e));
      ExecKeepsCounterLaw(w, es[..|es| - 1]);
      CounterArithmetic(v.s.ptpNum, 0);
    }
  }

  lemma {:induction false} WrapsNeverFall(w: World, es: seq<Event>)
    ensures w.h.wraps <= Exec(w, es).h.wraps
  {
    if es != [] {
      WrapsNeverFall(w, es[..|es| - 1]);
    }
  }

  lemma {:induction false} ExecKeepsCounterLaw(w: World, es: seq<Event>)
    requires CounterLaw(w)
    ensures CounterLaw(Exec(w, es))
  {
    if es != [] {
      var v := Exec(w, es[..|es| - 1]);
      ExecKeepsCounterLaw(w, es[..|es| - 1]);
      StepHasEffect(v.s, es[|es| - 1]);
      StepKeepsCounterLaw(v, es[|es| - 1], Next(v.s, es[|es| - 1]));
    }
  }

  /** Whatever the roles and the carrier do, the counter synchronises at most twice as long
      as it does not wrap; and a run of master ticks alone does so exactly at the 60th and
      the 3660th trigger. */
  lemma CounterSyncsBounded(w: World, conf: nat)
    requires Reached(w, conf)
    ensures w.h.wraps == 0 ==> Times(w.s.log, MasterSync(Counter)) <= 2
    ensures w.h.onlyMaster ==>
              && Times(w.s.log, MasterSync(Counter)) == MasterCounterSyncs(w.h.triggers)
              && w.s.ptpNum == MasterCounter(w.h.triggers)
  {
    RunLaws(w, conf);
  }

  /** Reboots are paid for by lost-carrier ticks, three each. */
  lemma RebootsArePaidFor(w: World, conf: nat)
    requires Reached(w, conf)
    ensures w.s.netFlag == 1 <==> w.h.lostSince > 0
    ensures 3 * Times(w.s.log, Reboot) + w.s.netCount <= w.h.lost
  {
    RunLaws(w, conf);
    RebootLawMeans(w);
  }

  lemma RebootLawMeans(w: World)
    requires RebootLaw(w)
    ensures w.s.netFlag == 1 <==> w.h.lostSince > 0
    ensures 3 * Times(w.s.log, Reboot) + w.s.netCount <= w.h.lost
  {
    var n := w.h.lostSince;
    assert n % UINT_VALUES <= n;
  }

  /** Short of 2^32 lost-carrier ticks an event reboots exactly when it is a slave tick
      with carrier and three have accumulated since the last reboot. */
  lemma RebootsWhenDue(w: World, conf: nat, e: Event)
    requires Reached(w, conf) && w.h.lost < UINT_VALUES
    ensures Times(Step(w, e).s.log, Reboot) == Times(w.s.log, Reboot) + 1
            <==> KindOf(w.s, e).SlaveUpTick? && w.h.lostSince >= 3
  {
    RunLaws(w, conf);
    StepHasEffect(w.s, e);
    EffectReboots(w, e, Next(w.s, e));
  }

  lemma EffectReboots(w: World, e: Event, t: State)
    requires RebootLaw(w) && Effect(w.s, e, t) && w.h.lost < UINT_VALUES
    ensures Times(t.log, Reboot) == Times(w.s.log, Reboot) + 1
            <==> KindOf(w.s, e).SlaveUpTick? && w.h.lostSince >= 3
  {
    RebootCount(w, e, t);
    assert w.h.lostSince % UINT_VALUES == w.h.lostSince;
  }

  /** Flag-driven synchronisations and the raised flag never exceed the readings of
      09:00:00, and the flag is up exactly while a slave's reading awaits a master tick. */
  lemma ReadingsAreConsumedOnce(w: World, conf: nat)
    requires Reached(w, conf)
    ensures Times(w.s.log, MasterSync(Flag)) + w.s.waitPtp <= w.h.nines
    ensures w.s.waitPtp == 1 <==> w.h.held
  {
    RunLaws(w, conf);
  }

  /** A held reading survives every event except a master tick with carrier, which
      consumes it by synchronising once. */
  lemma HeldUntilMasterTick(w: World, conf: nat, e: Event)
    requires Reached(w, conf) && w.h.held
    ensures if KindOf(w.s, e).MasterUpTick?
            then Step(w, e).s.waitPtp == 0
                 && Times(Step(w, e).s.log, MasterSync(Flag)) == Times(w.s.log, MasterSync(Flag)) + 1
            else Step(w, e).s.waitPtp == 1
                 && Times(Step(w, e).s.log, MasterSync(Flag)) == Times(w.s.log, MasterSync(Flag))
  {
    RunLaws(w, conf);
    StepHasEffect(w.s, e);
    EffectOnHeld(w, e, Next(w.s, e));
  }

  lemma EffectOnHeld(w: World, e: Event, t: State)
    requires FlagLaw(w) && Effect(w.s, e, t) && w.h.held
    ensures t.waitPtp == if KindOf(w.s, e).MasterUpTick? then 0 else 1
    ensures Times(t.log, MasterSync(Flag))
            == Times(w.s.log, MasterSync(Flag)) + (if KindOf(w.s, e).MasterUpTick? then 1 else 0)
  {
    FlagSyncCount(w.s, e, t);
  }
}
