/**
 * The CPM power-domain sequencer of the Versal platform management server
 * (xpm_cpmdomain.c): the phase handlers of the two CPM generations (CPM and
 * CPM5), their operation tables, and the domain initializer that binds a
 * domain object to one of the tables and records its register-block bases.
 *
 * Each phase is a method that works on the register port step by step, as
 * the firmware does, and is proved against a function giving the phase's
 * outcome: the status it returns and the ordered events it causes.
 */
module XpmCpmDomain {
  import opened Wrappers
  import opened Word
  import opened XpmCommon

  // Node, isolation, reset and repair-tag identifiers, register offsets,
  // masks and the PCSR unlock value come from headers that are not part of
  // this model; they are left uninterpreted.
  const PM_POWER_CPM: u32
  const PM_POWER_CPM5: u32
  const XPM_NODEIDX_ISO_LPD_CPM_DFX: u32
  const XPM_NODEIDX_ISO_LPD_CPM5_DFX: u32
  const PM_RST_CPM_POR: u32
  const CPM_TAG_ID: u32
  const CPM5_TAG_ID: u32
  const PCSR_UNLOCK_VAL: u32

  const CPM_PCSR_MASK_OFFSET: u32
  const CPM_PCSR_PCR_OFFSET: u32
  const CPM_PCSR_PSR_OFFSET: u32
  const CPM_PCSR_LOCK_OFFSET: u32
  const CPM_PCSR_ECO_OFFSET: u32
  const CPM_PCSR_PCR_SCAN_CLEAR_TRIGGER_MASK: u32
  const CPM_PCSR_PSR_SCAN_CLEAR_DONE_MASK: u32
  const CPM_PCSR_PSR_SCAN_CLEAR_PASS_MASK: u32

  const CPM_SLCR_SECURE_WPROT0_OFFSET: u32
  const CPM_SLCR_SECURE_OD_MBIST_RESET_N_OFFSET: u32
  const CPM_SLCR_SECURE_OD_MBIST_SETUP_OFFSET: u32
  const CPM_SLCR_SECURE_OD_MBIST_PG_EN_OFFSET: u32
  const CPM_SLCR_SECURE_OD_MBIST_DONE_OFFSET: u32
  const CPM_SLCR_SECURE_OD_MBIST_GO_OFFSET: u32

  const CPM5_SLCR_SECURE_WPROTS_OFFSET: u32
  const CPM5_SLCR_SECURE_OD_MBIST_TRIGGER_OFFSET: u32
  const CPM5_SLCR_SECURE_OD_MBIST_TRIGGER_MASK: u32
  const CPM5_SLCR_SECURE_OD_MBIST_DONE_OFFSET: u32
  const CPM5_SLCR_SECURE_OD_MBIST_DONE_MASK: u32
  const CPM5_SLCR_SECURE_OD_MBIST_PASSOUT_OFFSET: u32
  const CPM5_SLCR_SECURE_OD_MBIST_PASSOUT_MASK: u32

  const XPM_HC_CPM_OPS: nat := 0
  const XPM_HC_CPM5_OPS: nat := 1

  /** The phase handlers the operation tables point to. */
  datatype Handler =
    | CpmInitStartFn | Cpm5InitStartFn | CpmInitFinishFn
    | CpmScanClearFn | Cpm5ScanClearFn | CpmBisrFn | Cpm5BisrFn
    | CpmMbistClearFn | Cpm5MbistClearFn
    | Cpm5MbistClearFixedFn  // the corrected CPM5 MBIST handler; no table binds it

  /** struct XPm_PowerDomainOps, restricted to the five entries the CPM tables fill. */
  datatype PowerDomainOps = PowerDomainOps(initStart: Handler, initFinish: Handler, scanClear: Handler,
                                           bisr: Handler, mbist: Handler)

  /** The two operation tables, indexed by XPM_HC_CPM_OPS and XPM_HC_CPM5_OPS. */
  const CpmOps: seq<PowerDomainOps> := [
    PowerDomainOps(CpmInitStartFn, CpmInitFinishFn, CpmScanClearFn, CpmBisrFn, CpmMbistClearFn),
    PowerDomainOps(Cpm5InitStartFn, CpmInitFinishFn, Cpm5ScanClearFn, Cpm5BisrFn, Cpm5MbistClearFn)
  ]

  /** The register-block base addresses of a CPM domain object. */
  datatype Bases = Bases(slcr: u32, slcrSecure: u32, pcsr: u32, crCpm: u32)

  /** What the generic power-domain initializer was handed (its internals are not part of this model). */
  datatype PowerDomain = PowerDomain(id: u32, baseAddress: u32, parent: nat, ops: PowerDomainOps)

  /** XPm_CpmDomain: the generic domain part and the four base addresses. */
  class CpmDomain {
    var domain: Option<PowerDomain>
    var slcrBaseAddr: u32
    var slcrSecureBaseAddr: u32
    var pcsrBaseAddr: u32
    var crCpmBaseAddr: u32

    /** A freshly zeroed domain object. */
    constructor ()
      ensures domain == None && BaseAddrs() == Bases(0, 0, 0, 0)
    {
      domain := None;
      slcrBaseAddr, slcrSecureBaseAddr, pcsrBaseAddr, crCpmBaseAddr := 0, 0, 0, 0;
    }

    function BaseAddrs(): Bases
      reads this
    {
      Bases(slcrBaseAddr, slcrSecureBaseAddr, pcsrBaseAddr, crCpmBaseAddr)
    }

    /**
     * XPmCpmDomain_Init: pick the operation table by id, hand the domain to
     * the generic initializer, then take the four base addresses only when
     * at least four are supplied.  `parent` names the parent power node.
     */
    method Init(id: u32, baseAddress: u32, parent: nat, otherBaseAddresses: seq<u32>, cnt: u32)
      returns (status: XStatus)
      requires cnt as int <= |otherBaseAddresses|
      modifies this
      ensures id != PM_POWER_CPM && id != PM_POWER_CPM5 ==>
        status == InvalidPwrDomain && unchanged(this)
      ensures id == PM_POWER_CPM ==>
        domain == Some(PowerDomain(id, baseAddress, parent, CpmOps[XPM_HC_CPM_OPS]))
      ensures id != PM_POWER_CPM && id == PM_POWER_CPM5 ==>
        domain == Some(PowerDomain(id, baseAddress, parent, CpmOps[XPM_HC_CPM5_OPS]))
      ensures (id == PM_POWER_CPM || id == PM_POWER_CPM5) && 4 <= cnt ==>
        status == Success &&
        BaseAddrs() == Bases(otherBaseAddresses[0], otherBaseAddresses[1],
                             otherBaseAddresses[2], otherBaseAddresses[3])
      ensures (id == PM_POWER_CPM || id == PM_POWER_CPM5) && cnt < 4 ==>
        status == Failure && BaseAddrs() == old(BaseAddrs())
    {
      status := Failure;
      var ops: PowerDomainOps;
      if id == PM_POWER_CPM {
        ops := CpmOps[XPM_HC_CPM_OPS];
      } else if id == PM_POWER_CPM5 {
        ops := CpmOps[XPM_HC_CPM5_OPS];
      } else {
        status := InvalidPwrDomain;
        return;
      }

      // The generic power-domain initializer is handed the id, base address,
      // parent and table; its status is not checked.
      domain := Some(PowerDomain(id, baseAddress, parent, ops));

      if 4 <= cnt {
        slcrBaseAddr := otherBaseAddresses[0];
        slcrSecureBaseAddr := otherBaseAddresses[1];
        pcsrBaseAddr := otherBaseAddresses[2];
        crCpmBaseAddr := otherBaseAddresses[3];
        status := Success;
      } else {
        status := Failure;
      }
    }
  }

  /** XPmPower_GetById over the registry of power objects, as seen by a phase: the bases, or NULL. */
  function GetById(registry: map<u32, CpmDomain>, id: u32): Option<Bases>
    reads registry.Values
  {
    if id in registry then Some(registry[id].BaseAddrs()) else None
  }

  method PowerGetById(registry: map<u32, CpmDomain>, id: u32) returns (cpm: CpmDomain?)
    ensures cpm == null <==> id !in registry
    ensures cpm != null ==> cpm == registry[id]
  {
    cpm := if id in registry then registry[id] else null;
  }

  /** What one phase call returns and the events it causes, in order. */
  datatype Outcome = Outcome(status: XStatus, events: seq<Event>)

  // ----- Specifications of the phases -----

  /** The hard-coded POR release: unlock the PCSR, clear ECO, lock again. */
  function PorRelease(pcsr: u32): seq<Event> {
    [Write(Add32(pcsr, CPM_PCSR_LOCK_OFFSET), PCSR_UNLOCK_VAL),
     Write(Add32(pcsr, CPM_PCSR_ECO_OFFSET), 0),
     Write(Add32(pcsr, CPM_PCSR_LOCK_OFFSET), 1)]
  }

  function CpmInitStartOutcome(cpm: Option<Bases>, p: PlatformFacts, a: Answers): Outcome {
    match cpm
    case None => Outcome(Failure, [])
    case Some(b) =>
      var iso := [IsoControl(XPM_NODEIDX_ISO_LPD_CPM_DFX, false)];
      if a.iso != Success then Outcome(a.iso, iso)
      else if !IsEs1(p) then Outcome(a.iso, iso + PorRelease(b.pcsr))
      else Outcome(a.iso, iso)
  }

  function Cpm5InitStartOutcome(cpm: Option<Bases>, a: Answers): Outcome {
    match cpm
    case None => Outcome(InvalidPwrDomain, [])
    case Some(_) => Outcome(a.iso, [IsoControl(XPM_NODEIDX_ISO_LPD_CPM5_DFX, false)])
  }

  /** Scan clear is skipped off silicon and on ES1 silicon. */
  predicate SkipScanClear(p: PlatformFacts) {
    !OnSilicon(p) || IsEs1(p)
  }

  /** Unlock the PCSR, arm and fire the scan-clear trigger, wait for done. */
  function ScanClearArmed(pcsr: u32): seq<Event> {
    [Write(Add32(pcsr, CPM_PCSR_LOCK_OFFSET), PCSR_UNLOCK_VAL),
     Write(Add32(pcsr, CPM_PCSR_MASK_OFFSET), CPM_PCSR_PCR_SCAN_CLEAR_TRIGGER_MASK),
     Write(Add32(pcsr, CPM_PCSR_PCR_OFFSET), CPM_PCSR_PCR_SCAN_CLEAR_TRIGGER_MASK),
     Poll(Add32(pcsr, CPM_PCSR_PSR_OFFSET), CPM_PCSR_PSR_SCAN_CLEAR_DONE_MASK)]
  }

  /** The second poll, for the pass bit. */
  function ScanClearPassPoll(pcsr: u32): Event {
    Poll(Add32(pcsr, CPM_PCSR_PSR_OFFSET), CPM_PCSR_PSR_SCAN_CLEAR_PASS_MASK)
  }

  /** CPM after a passing scan clear: pulse the POR, unwrite the trigger bits, lock the PCSR. */
  function CpmScanClearRelease(pcsr: u32): seq<Event> {
    [ResetAssert(PM_RST_CPM_POR, Pulse),
     Write(Add32(pcsr, CPM_PCSR_MASK_OFFSET), CPM_PCSR_PCR_SCAN_CLEAR_TRIGGER_MASK),
     Write(Add32(pcsr, CPM_PCSR_PCR_OFFSET), 0),
     Write(Add32(pcsr, CPM_PCSR_LOCK_OFFSET), 1)]
  }

  /** CPM5 after a passing scan clear: disable writes to the PCR, lock the PCSR. */
  function Cpm5ScanClearRelease(pcsr: u32): seq<Event> {
    [Write(Add32(pcsr, CPM_PCSR_MASK_OFFSET), 0),
     Write(Add32(pcsr, CPM_PCSR_LOCK_OFFSET), 1)]
  }

  function CpmScanClearOutcome(cpm: Option<Bases>, p: PlatformFacts, a: Answers): Outcome {
    if SkipScanClear(p) then Outcome(Success, [])
    else match cpm
      case None => Outcome(Failure, [])
      case Some(b) =>
        var armed := ScanClearArmed(b.pcsr);
        if a.firstPoll != Success then Outcome(a.firstPoll, armed)
        else if a.secondPoll != Success then Outcome(a.secondPoll, armed + [ScanClearPassPoll(b.pcsr)])
        else Outcome(a.reset, armed + [ScanClearPassPoll(b.pcsr)] + CpmScanClearRelease(b.pcsr))
  }

  function Cpm5ScanClearOutcome(cpm: Option<Bases>, p: PlatformFacts, a: Answers): Outcome {
    if SkipScanClear(p) then Outcome(Success, [])
    else match cpm
      case None => Outcome(InvalidPwrDomain, [])
      case Some(b) =>
        var armed := ScanClearArmed(b.pcsr);
        if a.firstPoll != Success then Outcome(a.firstPoll, armed)
        else if a.secondPoll != Success then Outcome(a.secondPoll, armed + [ScanClearPassPoll(b.pcsr)])
        else Outcome(a.secondPoll, armed + [ScanClearPassPoll(b.pcsr)] + Cpm5ScanClearRelease(b.pcsr))
  }

  function BisrOutcome(tag: u32, p: PlatformFacts, a: Answers): Outcome {
    if !OnSilicon(p) then Outcome(Success, [])
    else Outcome(a.bisr, [BisrRepair(tag)])
  }

  /** Open the secure SLCR for writes, fire the three MBIST triggers, wait for done. */
  function CpmMbistArmed(sec: u32): seq<Event> {
    [Write(Add32(sec, CPM_SLCR_SECURE_WPROT0_OFFSET), 0),
     Write(Add32(sec, CPM_SLCR_SECURE_OD_MBIST_RESET_N_OFFSET), 0xFF),
     Write(Add32(sec, CPM_SLCR_SECURE_OD_MBIST_SETUP_OFFSET), 0xFF),
     Write(Add32(sec, CPM_SLCR_SECURE_OD_MBIST_PG_EN_OFFSET), 0xFF),
     Poll(Add32(sec, CPM_SLCR_SECURE_OD_MBIST_DONE_OFFSET), 0xFF)]
  }

  /** Unwrite the three trigger registers and restore write protection. */
  function CpmMbistCleanup(sec: u32): seq<Event> {
    [Write(Add32(sec, CPM_SLCR_SECURE_OD_MBIST_RESET_N_OFFSET), 0),
     Write(Add32(sec, CPM_SLCR_SECURE_OD_MBIST_SETUP_OFFSET), 0),
     Write(Add32(sec, CPM_SLCR_SECURE_OD_MBIST_PG_EN_OFFSET), 0),
     Write(Add32(sec, CPM_SLCR_SECURE_WPROT0_OFFSET), 1)]
  }

  /** All eight MBIST controllers report done-and-go. */
  predicate MbistGoOk(value: u32) {
    And32(value, 0xFF) == 0xFF
  }

  function CpmMbistClearOutcome(cpm: Option<Bases>, p: PlatformFacts, a: Answers): Outcome {
    if !OnSilicon(p) then Outcome(Success, [])
    else match cpm
      case None => Outcome(Failure, [])
      case Some(b) =>
        var armed := CpmMbistArmed(b.slcrSecure);
        if a.firstPoll != Success then Outcome(a.firstPoll, armed)
        else
          var checked := armed + [Read(Add32(b.slcrSecure, CPM_SLCR_SECURE_OD_MBIST_GO_OFFSET))];
          if !MbistGoOk(a.readValue) then Outcome(Failure, checked)
          else Outcome(a.firstPoll, checked + CpmMbistCleanup(b.slcrSecure))
  }

  /** Open the secure SLCR, fire the combined trigger, poll for done. */
  function Cpm5MbistStarted(sec: u32): seq<Event> {
    [Write(Add32(sec, CPM5_SLCR_SECURE_WPROTS_OFFSET), 0),
     Write(Add32(sec, CPM5_SLCR_SECURE_OD_MBIST_TRIGGER_OFFSET), CPM5_SLCR_SECURE_OD_MBIST_TRIGGER_MASK),
     Poll(Add32(sec, CPM5_SLCR_SECURE_OD_MBIST_DONE_OFFSET), CPM5_SLCR_SECURE_OD_MBIST_DONE_MASK)]
  }

  /** Cpm5MbistStarted followed by the read of the PASSOUT register. */
  function Cpm5MbistChecked(sec: u32): seq<Event> {
    Cpm5MbistStarted(sec) + [Read(Add32(sec, CPM5_SLCR_SECURE_OD_MBIST_PASSOUT_OFFSET))]
  }

  /** Unwrite the trigger and restore write protection. */
  function Cpm5MbistCleanup(sec: u32): seq<Event> {
    [Write(Add32(sec, CPM5_SLCR_SECURE_OD_MBIST_TRIGGER_OFFSET), 0),
     Write(Add32(sec, CPM5_SLCR_SECURE_WPROTS_OFFSET), 1)]
  }

  /** Every PASSOUT bit the mask selects is set. */
  predicate PassoutOk(value: u32) {
    And32(CPM5_SLCR_SECURE_OD_MBIST_PASSOUT_MASK, value) == CPM5_SLCR_SECURE_OD_MBIST_PASSOUT_MASK
  }

  /** Cpm5MbistClear as written: the status keeps its initial XPM_ERR_MBIST_CLR on every silicon path. */
  function Cpm5MbistClearOutcome(cpm: Option<Bases>, p: PlatformFacts, a: Answers): Outcome {
    if !OnSilicon(p) then Outcome(Success, [])
    else match cpm
      case None => Outcome(InvalidPwrDomain, [])
      case Some(b) =>
        var checked := Cpm5MbistChecked(b.slcrSecure);
        if !PassoutOk(a.readValue) then Outcome(ErrMbistClr, checked)
        else Outcome(ErrMbistClr, checked + Cpm5MbistCleanup(b.slcrSecure))
  }

  /** Cpm5MbistClear as evidently intended: success once the cleanup is done. */
  function Cpm5MbistClearFixedOutcome(cpm: Option<Bases>, p: PlatformFacts, a: Answers): Outcome {
    if !OnSilicon(p) then Outcome(Success, [])
    else match cpm
      case None => Outcome(InvalidPwrDomain, [])
      case Some(b) =>
        var checked := Cpm5MbistChecked(b.slcrSecure);
        if !PassoutOk(a.readValue) then Outcome(ErrMbistClr, checked)
        else Outcome(Success, checked + Cpm5MbistCleanup(b.slcrSecure))
  }

  /** The outcome of calling a handler through an operation table. */
  function HandlerOutcome(h: Handler, registry: map<u32, CpmDomain>, p: PlatformFacts, a: Answers): Outcome
    reads registry.Values
  {
    match h
    case CpmInitStartFn => CpmInitStartOutcome(GetById(registry, PM_POWER_CPM), p, a)
    case Cpm5InitStartFn => Cpm5InitStartOutcome(GetById(registry, PM_POWER_CPM5), a)
    case CpmInitFinishFn => Outcome(Success, [])
    case CpmScanClearFn => CpmScanClearOutcome(GetById(registry, PM_POWER_CPM), p, a)
    case Cpm5ScanClearFn => Cpm5ScanClearOutcome(GetById(registry, PM_POWER_CPM5), p, a)
    case CpmBisrFn => BisrOutcome(CPM_TAG_ID, p, a)
    case Cpm5BisrFn => BisrOutcome(CPM5_TAG_ID, p, a)
    case CpmMbistClearFn => CpmMbistClearOutcome(GetById(registry, PM_POWER_CPM), p, a)
    case Cpm5MbistClearFn => Cpm5MbistClearOutcome(GetById(registry, PM_POWER_CPM5), p, a)
    case Cpm5MbistClearFixedFn => Cpm5MbistClearFixedOutcome(GetById(registry, PM_POWER_CPM5), p, a)
  }

  // ----- Register sequences shared by the handlers -----

  /** Unlock the PCSR, write the scan-clear trigger to MASK and PCR, poll PSR for done. */
  method ArmScanClear(mmio: Mmio, pcsr: u32, answer: XStatus) returns (status: XStatus)
    requires mmio.Valid()
    modifies mmio
    ensures mmio.Valid() && mmio.initial == old(mmio.initial)
    ensures status == answer && mmio.trace == old(mmio.trace) + ScanClearArmed(pcsr)
  {
    mmio.Out32(Add32(pcsr, CPM_PCSR_LOCK_OFFSET), PCSR_UNLOCK_VAL);
    mmio.Out32(Add32(pcsr, CPM_PCSR_MASK_OFFSET), CPM_PCSR_PCR_SCAN_CLEAR_TRIGGER_MASK);
    mmio.Out32(Add32(pcsr, CPM_PCSR_PCR_OFFSET), CPM_PCSR_PCR_SCAN_CLEAR_TRIGGER_MASK);
    status := PollForMask(mmio, Add32(pcsr, CPM_PCSR_PSR_OFFSET), CPM_PCSR_PSR_SCAN_CLEAR_DONE_MASK, answer);
  }

  /** Open the secure SLCR, fire the three MBIST triggers, poll for done. */
  method ArmCpmMbist(mmio: Mmio, sec: u32, answer: XStatus) returns (status: XStatus)
    requires mmio.Valid()
    modifies mmio
    ensures mmio.Valid() && mmio.initial == old(mmio.initial)
    ensures status == answer && mmio.trace == old(mmio.trace) + CpmMbistArmed(sec)
  {
    mmio.Out32(Add32(sec, CPM_SLCR_SECURE_WPROT0_OFFSET), 0);
    mmio.Out32(Add32(sec, CPM_SLCR_SECURE_OD_MBIST_RESET_N_OFFSET), 0xFF);
    mmio.Out32(Add32(sec, CPM_SLCR_SECURE_OD_MBIST_SETUP_OFFSET), 0xFF);
    mmio.Out32(Add32(sec, CPM_SLCR_SECURE_OD_MBIST_PG_EN_OFFSET), 0xFF);
    status := PollForMask(mmio, Add32(sec, CPM_SLCR_SECURE_OD_MBIST_DONE_OFFSET), 0xFF, answer);
  }

  /** Unwrite the three MBIST triggers and lock the secure SLCR. */
  method CleanUpCpmMbist(mmio: Mmio, sec: u32)
    requires mmio.Valid()
    modifies mmio
    ensures mmio.Valid() && mmio.initial == old(mmio.initial)
    ensures mmio.trace == old(mmio.trace) + CpmMbistCleanup(sec)
  {
    mmio.Out32(Add32(sec, CPM_SLCR_SECURE_OD_MBIST_RESET_N_OFFSET), 0);
    mmio.Out32(Add32(sec, CPM_SLCR_SECURE_OD_MBIST_SETUP_OFFSET), 0);
    mmio.Out32(Add32(sec, CPM_SLCR_SECURE_OD_MBIST_PG_EN_OFFSET), 0);
    mmio.Out32(Add32(sec, CPM_SLCR_SECURE_WPROT0_OFFSET), 1);
  }

  /** Disable write protection, fire the combined MBIST trigger, poll for done. */
  method StartCpm5Mbist(mmio: Mmio, sec: u32, answer: XStatus) returns (status: XStatus)
    requires mmio.Valid()
    modifies mmio
    ensures mmio.Valid() && mmio.initial == old(mmio.initial)
    ensures status == answer && mmio.trace == old(mmio.trace) + Cpm5MbistStarted(sec)
  {
    mmio.Out32(Add32(sec, CPM5_SLCR_SECURE_WPROTS_OFFSET), 0);
    mmio.Out32(Add32(sec, CPM5_SLCR_SECURE_OD_MBIST_TRIGGER_OFFSET), CPM5_SLCR_SECURE_OD_MBIST_TRIGGER_MASK);
    status := PollForMask(mmio, Add32(sec, CPM5_SLCR_SECURE_OD_MBIST_DONE_OFFSET),
                          CPM5_SLCR_SECURE_OD_MBIST_DONE_MASK, answer);
  }

  // ----- The phase handlers -----

  method CpmInitStart(mmio: Mmio, registry: map<u32, CpmDomain>, p: PlatformFacts, a: Answers)
    returns (status: XStatus)
    requires mmio.Valid()
    modifies mmio
    ensures mmio.Valid() && mmio.initial == old(mmio.initial)
    ensures var o := CpmInitStartOutcome(GetById(registry, PM_POWER_CPM), p, a);
      status == o.status && mmio.trace == old(mmio.trace) + o.events &&
      mmio.regs == ApplyAll(old(mmio.regs), o.events)
  {
    ghost var o := CpmInitStartOutcome(GetById(registry, PM_POWER_CPM), p, a);
    ApplyAllAppend(mmio.initial, mmio.trace, o.events);
    status := Failure;
    var cpm := PowerGetById(registry, PM_POWER_CPM);
    if cpm == null {
      return;
    }

    // Remove isolation to allow scan clear on CPM.
    status := DomainIsoControl(mmio, XPM_NODEIDX_ISO_LPD_CPM_DFX, false, a.iso);
    if status != Success {
      return;
    }

    // The POR control is not valid on ES1; elsewhere it is released by hand.
    if !(PLATFORM_VERSION_SILICON == p.platform && PLATFORM_VERSION_SILICON_ES1 == p.version) {
      mmio.Out32(Add32(cpm.pcsrBaseAddr, CPM_PCSR_LOCK_OFFSET), PCSR_UNLOCK_VAL);
      mmio.Out32(Add32(cpm.pcsrBaseAddr, CPM_PCSR_ECO_OFFSET), 0);
      mmio.Out32(Add32(cpm.pcsrBaseAddr, CPM_PCSR_LOCK_OFFSET), 1);
    }
  }

  method Cpm5InitStart(mmio: Mmio, registry: map<u32, CpmDomain>, a: Answers)
    returns (status: XStatus)
    requires mmio.Valid()
    modifies mmio
    ensures mmio.Valid() && mmio.initial == old(mmio.initial)
    ensures var o := Cpm5InitStartOutcome(GetById(registry, PM_POWER_CPM5), a);
      status == o.status && mmio.trace == old(mmio.trace) + o.events &&
      mmio.regs == ApplyAll(old(mmio.regs), o.events)
  {
    ghost var o := Cpm5InitStartOutcome(GetById(registry, PM_POWER_CPM5), a);
    ApplyAllAppend(mmio.initial, mmio.trace, o.events);
    status := ErrInitStart;
    var cpm := PowerGetById(registry, PM_POWER_CPM5);
    if cpm == null {
      status := InvalidPwrDomain;
      return;
    }

    // The POR release through the reset topology is not wired for CPM5.
    // Remove isolation between CPM5 and the LPD.
    status := DomainIsoControl(mmio, XPM_NODEIDX_ISO_LPD_CPM5_DFX, false, a.iso);
  }

  method CpmInitFinish() returns (status: XStatus)
    ensures status == Success
  {
    status := Failure;
    status := Success;
  }

  method CpmScanClear(mmio: Mmio, registry: map<u32, CpmDomain>, p: PlatformFacts, a: Answers)
    returns (status: XStatus)
    requires mmio.Valid()
    modifies mmio
    ensures mmio.Valid() && mmio.initial == old(mmio.initial)
    ensures var o := CpmScanClearOutcome(GetById(registry, PM_POWER_CPM), p, a);
      status == o.status && mmio.trace == old(mmio.trace) + o.events &&
      mmio.regs == ApplyAll(old(mmio.regs), o.events)
  {
    ghost var o := CpmScanClearOutcome(GetById(registry, PM_POWER_CPM), p, a);
    ApplyAllAppend(mmio.initial, mmio.trace, o.events);
    status := Failure;
    if PLATFORM_VERSION_SILICON != p.platform ||
       (PLATFORM_VERSION_SILICON == p.platform && PLATFORM_VERSION_SILICON_ES1 == p.version) {
      status := Success;
      return;
    }

    var cpm := PowerGetById(registry, PM_POWER_CPM);
    if cpm == null {
      status := Failure;
      return;
    }

    var pcsr := cpm.pcsrBaseAddr;
    status := ArmScanClear(mmio, pcsr, a.firstPoll);
    if status != Success {
      return;
    }
    status := PollForMask(mmio, Add32(pcsr, CPM_PCSR_PSR_OFFSET), CPM_PCSR_PSR_SCAN_CLEAR_PASS_MASK, a.secondPoll);
    if status != Success {
      return;
    }

    // Pulse the CPM POR; its status is what the phase returns, unchecked.
    status := ResetAssertById(mmio, PM_RST_CPM_POR, Pulse, a.reset);

    // Unwrite the trigger bits and lock the PCSR.
    mmio.Out32(Add32(pcsr, CPM_PCSR_MASK_OFFSET), CPM_PCSR_PCR_SCAN_CLEAR_TRIGGER_MASK);
    mmio.Out32(Add32(pcsr, CPM_PCSR_PCR_OFFSET), 0);
    mmio.Out32(Add32(pcsr, CPM_PCSR_LOCK_OFFSET), 1);
  }

  method Cpm5ScanClear(mmio: Mmio, registry: map<u32, CpmDomain>, p: PlatformFacts, a: Answers)
    returns (status: XStatus)
    requires mmio.Valid()
    modifies mmio
    ensures mmio.Valid() && mmio.initial == old(mmio.initial)
    ensures var o := Cpm5ScanClearOutcome(GetById(registry, PM_POWER_CPM5), p, a);
      status == o.status && mmio.trace == old(mmio.trace) + o.events &&
      mmio.regs == ApplyAll(old(mmio.regs), o.events)
  {
    ghost var o := Cpm5ScanClearOutcome(GetById(registry, PM_POWER_CPM5), p, a);
    ApplyAllAppend(mmio.initial, mmio.trace, o.events);
    status := ErrScanClr;
    if PLATFORM_VERSION_SILICON != p.platform ||
       (PLATFORM_VERSION_SILICON == p.platform && PLATFORM_VERSION_SILICON_ES1 == p.version) {
      status := Success;
      return;
    }

    var cpm := PowerGetById(registry, PM_POWER_CPM5);
    if cpm == null {
      status := InvalidPwrDomain;
      return;
    }

    var pcsr := cpm.pcsrBaseAddr;
    status := ArmScanClear(mmio, pcsr, a.firstPoll);
    if status != Success {
      return;
    }
    // Check that scan clear passed.
    status := PollForMask(mmio, Add32(pcsr, CPM_PCSR_PSR_OFFSET), CPM_PCSR_PSR_SCAN_CLEAR_PASS_MASK, a.secondPoll);
    if status != Success {
      return;
    }

    // Disable writes to the PCR and lock the PCSR.
    mmio.Out32(Add32(pcsr, CPM_PCSR_MASK_OFFSET), 0);
    mmio.Out32(Add32(pcsr, CPM_PCSR_LOCK_OFFSET), 1);
  }

  /** CpmBisr and Cpm5Bisr differ only in the repair tag. */
  method Bisr(mmio: Mmio, tag: u32, p: PlatformFacts, a: Answers) returns (status: XStatus)
    requires mmio.Valid()
    modifies mmio
    ensures mmio.Valid() && mmio.initial == old(mmio.initial)
    ensures var o := BisrOutcome(tag, p, a);
      status == o.status && mmio.trace == old(mmio.trace) + o.events &&
      mmio.regs == ApplyAll(old(mmio.regs), o.events)
  {
    ghost var o := BisrOutcome(tag, p, a);
    ApplyAllAppend(mmio.initial, mmio.trace, o.events);
    status := Failure;
    if PLATFORM_VERSION_SILICON != p.platform {
      status := Success;
      return;
    }
    status := BisrRepairTag(mmio, tag, a.bisr);
  }

  method CpmMbistClear(mmio: Mmio, registry: map<u32, CpmDomain>, p: PlatformFacts, a: Answers)
    returns (status: XStatus)
    requires mmio.Valid()
    modifies mmio
    ensures mmio.Valid() && mmio.initial == old(mmio.initial)
    ensures var o := CpmMbistClearOutcome(GetById(registry, PM_POWER_CPM), p, a);
      status == o.status && mmio.trace == old(mmio.trace) + o.events &&
      mmio.regs == ApplyAll(old(mmio.regs), o.events)
  {
    ghost var o := CpmMbistClearOutcome(GetById(registry, PM_POWER_CPM), p, a);
    ApplyAllAppend(mmio.initial, mmio.trace, o.events);
    status := Failure;
    if PLATFORM_VERSION_SILICON != p.platform {
      status := Success;
      return;
    }

    var cpm := PowerGetById(registry, PM_POWER_CPM);
    if cpm == null {
      status := Failure;
      return;
    }

    var sec := cpm.slcrSecureBaseAddr;
    status := ArmCpmMbist(mmio, sec, a.firstPoll);
    if status != Success {
      return;
    }

    var regValue := mmio.In32(Add32(sec, CPM_SLCR_SECURE_OD_MBIST_GO_OFFSET), a.readValue);
    if 0xFF != And32(regValue, 0xFF) {
      status := Failure;
      return;
    }

    CleanUpCpmMbist(mmio, sec);
  }

  method Cpm5MbistClear(mmio: Mmio, registry: map<u32, CpmDomain>, p: PlatformFacts, a: Answers)
    returns (status: XStatus)
    requires mmio.Valid()
    modifies mmio
    ensures mmio.Valid() && mmio.initial == old(mmio.initial)
    ensures var o := Cpm5MbistClearOutcome(GetById(registry, PM_POWER_CPM5), p, a);
      status == o.status && mmio.trace == old(mmio.trace) + o.events &&
      mmio.regs == ApplyAll(old(mmio.regs), o.events)
  {
    ghost var o := Cpm5MbistClearOutcome(GetById(registry, PM_POWER_CPM5), p, a);
    ApplyAllAppend(mmio.initial, mmio.trace, o.events);
    status := ErrMbistClr;
    if PLATFORM_VERSION_SILICON != p.platform {
      status := Success;
      return;
    }

    var cpm := PowerGetById(registry, PM_POWER_CPM5);
    if cpm == null {
      status := InvalidPwrDomain;
      return;
    }

    var sec := cpm.slcrSecureBaseAddr;
    // The poll's status is discarded.
    var _ := StartCpm5Mbist(mmio, sec, a.firstPoll);

    var regValue := mmio.In32(Add32(sec, CPM5_SLCR_SECURE_OD_MBIST_PASSOUT_OFFSET), a.readValue);
    if And32(CPM5_SLCR_SECURE_OD_MBIST_PASSOUT_MASK, regValue) != CPM5_SLCR_SECURE_OD_MBIST_PASSOUT_MASK {
      return;
    }

    // Unwrite the trigger and restore write protection.
    mmio.Out32(Add32(sec, CPM5_SLCR_SECURE_OD_MBIST_TRIGGER_OFFSET), 0);
    mmio.Out32(Add32(sec, CPM5_SLCR_SECURE_WPROTS_OFFSET), 1);
  }

  /** Cpm5MbistClear with the missing success assignment after the cleanup. */
  method Cpm5MbistClearFixed(mmio: Mmio, registry: map<u32, CpmDomain>, p: PlatformFacts, a: Answers)
    returns (status: XStatus)
    requires mmio.Valid()
    modifies mmio
    ensures mmio.Valid() && mmio.initial == old(mmio.initial)
    ensures var o := Cpm5MbistClearFixedOutcome(GetById(registry, PM_POWER_CPM5), p, a);
      status == o.status && mmio.trace == old(mmio.trace) + o.events &&
      mmio.regs == ApplyAll(old(mmio.regs), o.events)
  {
    ghost var o := Cpm5MbistClearFixedOutcome(GetById(registry, PM_POWER_CPM5), p, a);
    ApplyAllAppend(mmio.initial, mmio.trace, o.events);
    status := ErrMbistClr;
    if PLATFORM_VERSION_SILICON != p.platform {
      status := Success;
      return;
    }

    var cpm := PowerGetById(registry, PM_POWER_CPM5);
    if cpm == null {
      status := InvalidPwrDomain;
      return;
    }

    var sec := cpm.slcrSecureBaseAddr;
    var _ := StartCpm5Mbist(mmio, sec, a.firstPoll);

    var regValue := mmio.In32(Add32(sec, CPM5_SLCR_SECURE_OD_MBIST_PASSOUT_OFFSET), a.readValue);
    if And32(CPM5_SLCR_SECURE_OD_MBIST_PASSOUT_MASK, regValue) != CPM5_SLCR_SECURE_OD_MBIST_PASSOUT_MASK {
      return;
    }

    mmio.Out32(Add32(sec, CPM5_SLCR_SECURE_OD_MBIST_TRIGGER_OFFSET), 0);
    mmio.Out32(Add32(sec, CPM5_SLCR_SECURE_WPROTS_OFFSET), 1);
    status := Success;
  }

  /** A call through an operation-table entry. */
  method Invoke(h: Handler, mmio: Mmio, registry: map<u32, CpmDomain>, p: PlatformFacts, a: Answers)
    returns (status: XStatus)
    requires mmio.Valid()
    modifies mmio
    ensures mmio.Valid() && mmio.initial == old(mmio.initial)
    ensures var o := HandlerOutcome(h, registry, p, a);
      status == o.status && mmio.trace == old(mmio.trace) + o.events &&
      mmio.regs == ApplyAll(old(mmio.regs), o.events)
  {
    match h
    case CpmInitStartFn => status := CpmInitStart(mmio, registry, p, a);
    case Cpm5InitStartFn => status := Cpm5InitStart(mmio, registry, a);
    case CpmInitFinishFn => status := CpmInitFinish();
    case CpmScanClearFn => status := CpmScanClear(mmio, registry, p, a);
    case Cpm5ScanClearFn => status := Cpm5ScanClear(mmio, registry, p, a);
    case CpmBisrFn => status := Bisr(mmio, CPM_TAG_ID, p, a);
    case Cpm5BisrFn => status := Bisr(mmio, CPM5_TAG_ID, p, a);
    case CpmMbistClearFn => status := CpmMbistClear(mmio, registry, p, a);
    case Cpm5MbistClearFn => status := Cpm5MbistClear(mmio, registry, p, a);
    case Cpm5MbistClearFixedFn => status := Cpm5MbistClearFixed(mmio, registry, p, a);
  }
}
