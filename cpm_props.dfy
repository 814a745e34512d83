/**
 * Properties of the CPM sequencer, stated over the phase outcomes: what each
 * phase leaves in the PCSR and secure-SLCR registers on each path, the
 * platform skip rules, the operation tables, and the CPM5 MBIST status defect
 * together with its correction.
 *
 * Register offsets are uninterpreted, so the lemmas that read register
 * contents require the offsets they use to name different registers, which
 * the firmware relies on.
 *
 * Collaborator answers are canonical statuses (see XpmCommon.XStatus): an
 * answer `!= Success` in a requires clause is one the firmware's
 * `XST_SUCCESS != Status` test treats as a failure.
 */
module CpmProps {
  import opened Wrappers
  import opened Word
  import opened XpmCommon
  import opened XpmCpmDomain

  // Register addresses inside one domain's PCSR and secure SLCR blocks.
  function Lock(pcsr: u32): u32 { Add32(pcsr, CPM_PCSR_LOCK_OFFSET) }
  function Mask(pcsr: u32): u32 { Add32(pcsr, CPM_PCSR_MASK_OFFSET) }
  function Pcr(pcsr: u32): u32 { Add32(pcsr, CPM_PCSR_PCR_OFFSET) }
  function Eco(pcsr: u32): u32 { Add32(pcsr, CPM_PCSR_ECO_OFFSET) }
  function Wprot0(sec: u32): u32 { Add32(sec, CPM_SLCR_SECURE_WPROT0_OFFSET) }
  function ResetN(sec: u32): u32 { Add32(sec, CPM_SLCR_SECURE_OD_MBIST_RESET_N_OFFSET) }
  function Setup(sec: u32): u32 { Add32(sec, CPM_SLCR_SECURE_OD_MBIST_SETUP_OFFSET) }
  function PgEn(sec: u32): u32 { Add32(sec, CPM_SLCR_SECURE_OD_MBIST_PG_EN_OFFSET) }
  function Wprots(sec: u32): u32 { Add32(sec, CPM5_SLCR_SECURE_WPROTS_OFFSET) }
  function Trigger(sec: u32): u32 { Add32(sec, CPM5_SLCR_SECURE_OD_MBIST_TRIGGER_OFFSET) }

  /** The PCSR registers the scan-clear and POR sequences write are four different registers. */
  predicate PcsrDistinct(pcsr: u32) {
    Lock(pcsr) != Mask(pcsr) && Lock(pcsr) != Pcr(pcsr) && Lock(pcsr) != Eco(pcsr) &&
    Mask(pcsr) != Pcr(pcsr) && Mask(pcsr) != Eco(pcsr) && Pcr(pcsr) != Eco(pcsr)
  }

  /** The CPM write-protect register and the three MBIST trigger registers are different registers. */
  predicate CpmSecureDistinct(sec: u32) {
    Wprot0(sec) != ResetN(sec) && Wprot0(sec) != Setup(sec) && Wprot0(sec) != PgEn(sec) &&
    ResetN(sec) != Setup(sec) && ResetN(sec) != PgEn(sec) && Setup(sec) != PgEn(sec)
  }

  /** Register `addr` holds `v` after the events run on `regs`. */
  predicate Holds(regs: map<u32, u32>, events: seq<Event>, addr: u32, v: u32) {
    var after := ApplyAll(regs, events);
    addr in after && after[addr] == v
  }

  // ----- Operation tables -----

  /** Both tables share CpmInitFinish, which succeeds without touching a register. */
  lemma SharedInitFinish(registry: map<u32, CpmDomain>, p: PlatformFacts, a: Answers)
    ensures CpmOps[XPM_HC_CPM_OPS].initFinish == CpmOps[XPM_HC_CPM5_OPS].initFinish == CpmInitFinishFn
    ensures HandlerOutcome(CpmInitFinishFn, registry, p, a) == Outcome(Success, [])
  {
  }

  /**
   * Calling through the CPM table runs the CPM phases on the CPM domain and
   * the CPM repair tag; calling through the CPM5 table runs the CPM5 phases
   * on the CPM5 domain and the CPM5 tag.
   */
  lemma TablesPerVariant(registry: map<u32, CpmDomain>, p: PlatformFacts, a: Answers)
    ensures var ops := CpmOps[XPM_HC_CPM_OPS];
      var cpm := GetById(registry, PM_POWER_CPM);
      HandlerOutcome(ops.initStart, registry, p, a) == CpmInitStartOutcome(cpm, p, a) &&
      HandlerOutcome(ops.scanClear, registry, p, a) == CpmScanClearOutcome(cpm, p, a) &&
      HandlerOutcome(ops.bisr, registry, p, a) == BisrOutcome(CPM_TAG_ID, p, a) &&
      HandlerOutcome(ops.mbist, registry, p, a) == CpmMbistClearOutcome(cpm, p, a)
    ensures var ops := CpmOps[XPM_HC_CPM5_OPS];
      var cpm := GetById(registry, PM_POWER_CPM5);
      HandlerOutcome(ops.initStart, registry, p, a) == Cpm5InitStartOutcome(cpm, a) &&
      HandlerOutcome(ops.scanClear, registry, p, a) == Cpm5ScanClearOutcome(cpm, p, a) &&
      HandlerOutcome(ops.bisr, registry, p, a) == BisrOutcome(CPM5_TAG_ID, p, a) &&
      HandlerOutcome(ops.mbist, registry, p, a) == Cpm5MbistClearOutcome(cpm, p, a)
  {
  }

  // ----- Platform gating -----

  /** Off silicon every phase but InitStart succeeds at once and records nothing. */
  lemma OffSiliconSkips(h: Handler, registry: map<u32, CpmDomain>, p: PlatformFacts, a: Answers)
    requires !OnSilicon(p)
    requires !h.CpmInitStartFn? && !h.Cpm5InitStartFn?
    ensures HandlerOutcome(h, registry, p, a) == Outcome(Success, [])
  {
  }

  /** On ES1 silicon both scan-clear phases succeed at once and record nothing. */
  lemma Es1SkipsScanClear(registry: map<u32, CpmDomain>, p: PlatformFacts, a: Answers)
    requires IsEs1(p)
    ensures HandlerOutcome(CpmScanClearFn, registry, p, a) == Outcome(Success, [])
    ensures HandlerOutcome(Cpm5ScanClearFn, registry, p, a) == Outcome(Success, [])
  {
  }

  /** On silicon a Bisr phase is the repair of its own tag, with the repair's status and no register write. */
  lemma BisrOnSilicon(tag: u32, p: PlatformFacts, a: Answers, regs: map<u32, u32>)
    requires OnSilicon(p)
    ensures var o := BisrOutcome(tag, p, a);
      o.status == a.bisr && o.events == [BisrRepair(tag)] && ApplyAll(regs, o.events) == regs
  {
    NoWritesKeep(regs, BisrOutcome(tag, p, a).events);
  }

  // ----- InitStart -----

  /** A failed (canonical, non-Success) isolation status is returned as is, before any register write. */
  lemma CpmInitStartIsoFailure(b: Bases, p: PlatformFacts, a: Answers, regs: map<u32, u32>)
    requires a.iso != Success
    ensures var o := CpmInitStartOutcome(Some(b), p, a);
      o.status == a.iso && NoWrites(o.events) && ApplyAll(regs, o.events) == regs
  {
    NoWritesKeep(regs, CpmInitStartOutcome(Some(b), p, a).events);
  }

  /**
   * Off ES1, after isolation removal, the POR is released by hand: LOCK is
   * unlocked, then ECO cleared, then LOCK set; the PCSR ends locked with ECO 0.
   */
  lemma CpmInitStartReleasesPor(b: Bases, p: PlatformFacts, a: Answers, regs: map<u32, u32>)
    requires a.iso == Success && !IsEs1(p) && Lock(b.pcsr) != Eco(b.pcsr)
    ensures var o := CpmInitStartOutcome(Some(b), p, a);
      o.status == Success && |o.events| == 4 &&
      o.events[1] == Write(Lock(b.pcsr), PCSR_UNLOCK_VAL) &&
      o.events[2] == Write(Eco(b.pcsr), 0) &&
      o.events[3] == Write(Lock(b.pcsr), 1) &&
      Holds(regs, o.events, Lock(b.pcsr), 1) && Holds(regs, o.events, Eco(b.pcsr), 0)
  {
    var o := CpmInitStartOutcome(Some(b), p, a);
    LastWriteWins(regs, o.events, 3);
    LastWriteWins(regs, o.events, 2);
  }

  /** On ES1 silicon the POR control is left to the hardware: no register is written. */
  lemma CpmInitStartEs1(b: Bases, p: PlatformFacts, a: Answers, regs: map<u32, u32>)
    requires a.iso == Success && IsEs1(p)
    ensures var o := CpmInitStartOutcome(Some(b), p, a);
      o.status == Success && ApplyAll(regs, o.events) == regs
  {
    NoWritesKeep(regs, CpmInitStartOutcome(Some(b), p, a).events);
  }

  /** Cpm5InitStart never writes a register; with the domain present it returns the isolation status. */
  lemma Cpm5InitStartNoWrites(cpm: Option<Bases>, a: Answers, regs: map<u32, u32>)
    ensures var o := Cpm5InitStartOutcome(cpm, a);
      ApplyAll(regs, o.events) == regs && o.status == (if cpm.Some? then a.iso else InvalidPwrDomain)
  {
    NoWritesKeep(regs, Cpm5InitStartOutcome(cpm, a).events);
  }

  // ----- Scan clear -----

  /** The registers the arming sequence leaves: PCSR unlocked, the trigger in MASK and PCR. */
  lemma ArmedRegisters(pcsr: u32, tail: seq<Event>, regs: map<u32, u32>)
    requires PcsrDistinct(pcsr) && NoWrites(tail)
    ensures Holds(regs, ScanClearArmed(pcsr) + tail, Lock(pcsr), PCSR_UNLOCK_VAL)
    ensures Holds(regs, ScanClearArmed(pcsr) + tail, Mask(pcsr), CPM_PCSR_PCR_SCAN_CLEAR_TRIGGER_MASK)
    ensures Holds(regs, ScanClearArmed(pcsr) + tail, Pcr(pcsr), CPM_PCSR_PCR_SCAN_CLEAR_TRIGGER_MASK)
  {
    var e := ScanClearArmed(pcsr) + tail;
    LastWriteWins(regs, e, 0);
    LastWriteWins(regs, e, 1);
    LastWriteWins(regs, e, 2);
  }

  /**
   * CpmScanClear stops at the first failing poll (a canonical status other
   * than Success) and returns its status: no POR pulse, the trigger left in
   * MASK and PCR, the PCSR left unlocked.
   */
  lemma CpmScanClearPollFailure(b: Bases, p: PlatformFacts, a: Answers, regs: map<u32, u32>)
    requires !SkipScanClear(p) && PcsrDistinct(b.pcsr)
    requires a.firstPoll != Success || a.secondPoll != Success
    ensures var o := CpmScanClearOutcome(Some(b), p, a);
      o.status == (if a.firstPoll != Success then a.firstPoll else a.secondPoll) &&
      ResetAssert(PM_RST_CPM_POR, Pulse) !in o.events &&
      Holds(regs, o.events, Lock(b.pcsr), PCSR_UNLOCK_VAL) &&
      Holds(regs, o.events, Mask(b.pcsr), CPM_PCSR_PCR_SCAN_CLEAR_TRIGGER_MASK) &&
      Holds(regs, o.events, Pcr(b.pcsr), CPM_PCSR_PCR_SCAN_CLEAR_TRIGGER_MASK)
  {
    var tail := if a.firstPoll != Success then [] else [ScanClearPassPoll(b.pcsr)];
    assert CpmScanClearOutcome(Some(b), p, a).events == ScanClearArmed(b.pcsr) + tail;
    ArmedRegisters(b.pcsr, tail, regs);
  }

  /**
   * Past both polls CpmScanClear returns the POR pulse's status unchecked,
   * pulses before it cleans up, and ends with PCR cleared and the PCSR locked.
   */
  lemma CpmScanClearPassed(b: Bases, p: PlatformFacts, a: Answers, regs: map<u32, u32>)
    requires !SkipScanClear(p) && PcsrDistinct(b.pcsr)
    requires a.firstPoll == Success && a.secondPoll == Success
    ensures var o := CpmScanClearOutcome(Some(b), p, a);
      o.status == a.reset && |o.events| == 9 &&
      o.events[5] == ResetAssert(PM_RST_CPM_POR, Pulse) &&
      (forall j :: 5 < j < 9 ==> o.events[j].Write?) &&
      Holds(regs, o.events, Lock(b.pcsr), 1) &&
      Holds(regs, o.events, Pcr(b.pcsr), 0) &&
      Holds(regs, o.events, Mask(b.pcsr), CPM_PCSR_PCR_SCAN_CLEAR_TRIGGER_MASK)
  {
    var o := CpmScanClearOutcome(Some(b), p, a);
    LastWriteWins(regs, o.events, 8);
    LastWriteWins(regs, o.events, 7);
    LastWriteWins(regs, o.events, 6);
  }

  /** The cleanup after the pulse is the same whatever status the pulse returns. */
  lemma CpmScanClearIgnoresResetStatus(cpm: Option<Bases>, p: PlatformFacts, a: Answers, r: XStatus)
    ensures CpmScanClearOutcome(cpm, p, a).events == CpmScanClearOutcome(cpm, p, a.(reset := r)).events
  {
  }

  /** Cpm5ScanClear stops at the first failing (canonical, non-Success) poll the same way, trigger set and PCSR unlocked. */
  lemma Cpm5ScanClearPollFailure(b: Bases, p: PlatformFacts, a: Answers, regs: map<u32, u32>)
    requires !SkipScanClear(p) && PcsrDistinct(b.pcsr)
    requires a.firstPoll != Success || a.secondPoll != Success
    ensures var o := Cpm5ScanClearOutcome(Some(b), p, a);
      o.status == (if a.firstPoll != Success then a.firstPoll else a.secondPoll) &&
      Holds(regs, o.events, Lock(b.pcsr), PCSR_UNLOCK_VAL) &&
      Holds(regs, o.events, Mask(b.pcsr), CPM_PCSR_PCR_SCAN_CLEAR_TRIGGER_MASK) &&
      Holds(regs, o.events, Pcr(b.pcsr), CPM_PCSR_PCR_SCAN_CLEAR_TRIGGER_MASK)
  {
    var tail := if a.firstPoll != Success then [] else [ScanClearPassPoll(b.pcsr)];
    assert Cpm5ScanClearOutcome(Some(b), p, a).events == ScanClearArmed(b.pcsr) + tail;
    ArmedRegisters(b.pcsr, tail, regs);
  }

  /**
   * Past both polls Cpm5ScanClear succeeds without a POR pulse: MASK is
   * cleared and the PCSR locked, while PCR keeps the trigger value.
   */
  lemma Cpm5ScanClearPassed(b: Bases, p: PlatformFacts, a: Answers, regs: map<u32, u32>)
    requires !SkipScanClear(p) && PcsrDistinct(b.pcsr)
    requires a.firstPoll == Success && a.secondPoll == Success
    ensures var o := Cpm5ScanClearOutcome(Some(b), p, a);
      o.status == Success &&
      (forall k :: 0 <= k < |o.events| ==> !o.events[k].ResetAssert?) &&
      Holds(regs, o.events, Lock(b.pcsr), 1) &&
      Holds(regs, o.events, Mask(b.pcsr), 0) &&
      Holds(regs, o.events, Pcr(b.pcsr), CPM_PCSR_PCR_SCAN_CLEAR_TRIGGER_MASK)
  {
    var o := Cpm5ScanClearOutcome(Some(b), p, a);
    LastWriteWins(regs, o.events, 6);
    LastWriteWins(regs, o.events, 5);
    LastWriteWins(regs, o.events, 2);
  }

  /**
   * InitStart followed by a passing CpmScanClear, on the register contents
   * the first phase leaves: ECO keeps the 0 the POR release wrote, and the
   * scan clear leaves PCR cleared, MASK at the trigger and the PCSR locked.
   */
  lemma CpmInitStartThenScanClear(b: Bases, p: PlatformFacts, a1: Answers, a2: Answers,
                                  regs: map<u32, u32>)
    requires !SkipScanClear(p) && PcsrDistinct(b.pcsr)
    requires a1.iso == Success && a2.firstPoll == Success && a2.secondPoll == Success
    ensures var mid := ApplyAll(regs, CpmInitStartOutcome(Some(b), p, a1).events);
      var e := CpmScanClearOutcome(Some(b), p, a2).events;
      Holds(mid, e, Eco(b.pcsr), 0) &&
      Holds(mid, e, Pcr(b.pcsr), 0) &&
      Holds(mid, e, Mask(b.pcsr), CPM_PCSR_PCR_SCAN_CLEAR_TRIGGER_MASK) &&
      Holds(mid, e, Lock(b.pcsr), 1)
  {
    var e1 := CpmInitStartOutcome(Some(b), p, a1).events;
    var e2 := CpmScanClearOutcome(Some(b), p, a2).events;
    ApplyAllAppend(regs, e1, e2);
    var e := e1 + e2;
    assert |e1| == 4 && |e2| == 9;
    LastWriteWins(regs, e, 2);
    LastWriteWins(regs, e, 10);
    LastWriteWins(regs, e, 11);
    LastWriteWins(regs, e, 12);
  }

  // ----- MBIST -----

  /** The registers the CPM MBIST arming leaves: write protection off, all three triggers at 0xFF. */
  lemma CpmMbistArmedRegisters(sec: u32, tail: seq<Event>, regs: map<u32, u32>)
    requires CpmSecureDistinct(sec) && NoWrites(tail)
    ensures Holds(regs, CpmMbistArmed(sec) + tail, Wprot0(sec), 0)
    ensures Holds(regs, CpmMbistArmed(sec) + tail, ResetN(sec), 0xFF)
    ensures Holds(regs, CpmMbistArmed(sec) + tail, Setup(sec), 0xFF)
    ensures Holds(regs, CpmMbistArmed(sec) + tail, PgEn(sec), 0xFF)
  {
    var e := CpmMbistArmed(sec) + tail;
    LastWriteWins(regs, e, 0);
    LastWriteWins(regs, e, 1);
    LastWriteWins(regs, e, 2);
    LastWriteWins(regs, e, 3);
  }

  /**
   * CpmMbistClear stops early on a failed done-poll (a canonical status other
   * than Success, which it returns)
   * or on a GO mismatch (with XST_FAILURE), leaving the triggers set and
   * write protection off.
   */
  lemma CpmMbistClearStopsEarly(b: Bases, p: PlatformFacts, a: Answers, regs: map<u32, u32>)
    requires OnSilicon(p) && CpmSecureDistinct(b.slcrSecure)
    requires a.firstPoll != Success || !MbistGoOk(a.readValue)
    ensures var o := CpmMbistClearOutcome(Some(b), p, a);
      var sec := b.slcrSecure;
      o.status == (if a.firstPoll != Success then a.firstPoll else Failure) &&
      o.status != Success &&
      Holds(regs, o.events, Wprot0(sec), 0) &&
      Holds(regs, o.events, ResetN(sec), 0xFF) &&
      Holds(regs, o.events, Setup(sec), 0xFF) &&
      Holds(regs, o.events, PgEn(sec), 0xFF)
  {
    var sec := b.slcrSecure;
    var tail := if a.firstPoll != Success then []
                else [Read(Add32(sec, CPM_SLCR_SECURE_OD_MBIST_GO_OFFSET))];
    assert CpmMbistClearOutcome(Some(b), p, a).events == CpmMbistArmed(sec) + tail;
    CpmMbistArmedRegisters(sec, tail, regs);
  }

  /** A passing CpmMbistClear succeeds with the triggers cleared and write protection back on. */
  lemma CpmMbistClearPassed(b: Bases, p: PlatformFacts, a: Answers, regs: map<u32, u32>)
    requires OnSilicon(p) && CpmSecureDistinct(b.slcrSecure)
    requires a.firstPoll == Success && MbistGoOk(a.readValue)
    ensures var o := CpmMbistClearOutcome(Some(b), p, a);
      var sec := b.slcrSecure;
      o.status == Success &&
      Holds(regs, o.events, Wprot0(sec), 1) &&
      Holds(regs, o.events, ResetN(sec), 0) &&
      Holds(regs, o.events, Setup(sec), 0) &&
      Holds(regs, o.events, PgEn(sec), 0)
  {
    var o := CpmMbistClearOutcome(Some(b), p, a);
    LastWriteWins(regs, o.events, 9);
    LastWriteWins(regs, o.events, 8);
    LastWriteWins(regs, o.events, 7);
    LastWriteWins(regs, o.events, 6);
  }

  /** Cpm5MbistClear does not depend on what the done-poll answers. */
  lemma Cpm5MbistIgnoresDonePoll(cpm: Option<Bases>, p: PlatformFacts, a: Answers, poll: XStatus)
    ensures Cpm5MbistClearOutcome(cpm, p, a) == Cpm5MbistClearOutcome(cpm, p, a.(firstPoll := poll))
  {
  }

  /** On a PASSOUT mismatch Cpm5MbistClear returns XPM_ERR_MBIST_CLR with the trigger set and write protection off. */
  lemma Cpm5MbistPassoutMismatch(b: Bases, p: PlatformFacts, a: Answers, regs: map<u32, u32>)
    requires OnSilicon(p) && Wprots(b.slcrSecure) != Trigger(b.slcrSecure)
    requires !PassoutOk(a.readValue)
    ensures var o := Cpm5MbistClearOutcome(Some(b), p, a);
      o.status == ErrMbistClr &&
      Holds(regs, o.events, Wprots(b.slcrSecure), 0) &&
      Holds(regs, o.events, Trigger(b.slcrSecure), CPM5_SLCR_SECURE_OD_MBIST_TRIGGER_MASK)
  {
    var o := Cpm5MbistClearOutcome(Some(b), p, a);
    LastWriteWins(regs, o.events, 0);
    LastWriteWins(regs, o.events, 1);
  }

  /**
   * The defect as written: on silicon with the domain present Cpm5MbistClear
   * returns XPM_ERR_MBIST_CLR on every path, even when PASSOUT matches and the
   * cleanup has restored the trigger and write protection.
   */
  lemma Cpm5MbistAsWrittenNeverSucceeds(b: Bases, p: PlatformFacts, a: Answers, regs: map<u32, u32>)
    requires OnSilicon(p) && Wprots(b.slcrSecure) != Trigger(b.slcrSecure)
    ensures var o := Cpm5MbistClearOutcome(Some(b), p, a);
      o.status == ErrMbistClr &&
      (PassoutOk(a.readValue) ==>
         Holds(regs, o.events, Trigger(b.slcrSecure), 0) && Holds(regs, o.events, Wprots(b.slcrSecure), 1))
  {
    var o := Cpm5MbistClearOutcome(Some(b), p, a);
    if PassoutOk(a.readValue) {
      LastWriteWins(regs, o.events, 4);
      LastWriteWins(regs, o.events, 5);
    }
  }

  /** A concrete run that shows the defect: every PASSOUT bit set, cleanup done, yet an error status. */
  lemma Cpm5MbistDefectWitness(b: Bases, p: PlatformFacts, a: Answers)
    requires OnSilicon(p) && a.readValue == 0xFFFF_FFFF
    ensures PassoutOk(a.readValue)
    ensures Cpm5MbistClearOutcome(Some(b), p, a).status == ErrMbistClr
    ensures Cpm5MbistClearOutcome(Some(b), p, a).events ==
            Cpm5MbistChecked(b.slcrSecure) + Cpm5MbistCleanup(b.slcrSecure)
  {
    AndAllOnes(CPM5_SLCR_SECURE_OD_MBIST_PASSOUT_MASK);
  }

  /**
   * The correction: Cpm5MbistClear succeeds exactly when PASSOUT matches, and
   * it makes the same register accesses as the code as written.
   */
  lemma Cpm5MbistFixedSucceedsIffPassout(b: Bases, p: PlatformFacts, a: Answers, regs: map<u32, u32>)
    requires OnSilicon(p) && Wprots(b.slcrSecure) != Trigger(b.slcrSecure)
    ensures var o := Cpm5MbistClearFixedOutcome(Some(b), p, a);
      (o.status == Success <==> PassoutOk(a.readValue)) &&
      (o.status != Success ==> o.status == ErrMbistClr) &&
      o.events == Cpm5MbistClearOutcome(Some(b), p, a).events &&
      (o.status == Success ==>
         Holds(regs, o.events, Trigger(b.slcrSecure), 0) && Holds(regs, o.events, Wprots(b.slcrSecure), 1))
  {
    Cpm5MbistAsWrittenNeverSucceeds(b, p, a, regs);
  }

  /** Off silicon, or without the domain, the correction and the code as written agree. */
  lemma Cpm5MbistFixedAgreesElsewhere(cpm: Option<Bases>, p: PlatformFacts, a: Answers)
    requires !OnSilicon(p) || cpm.None?
    ensures Cpm5MbistClearFixedOutcome(cpm, p, a) == Cpm5MbistClearOutcome(cpm, p, a)
  {
  }
}
