/**
 * What the CPM sequencer sees of the rest of the platform management
 * firmware: status codes, the platform facts, the memory-mapped register
 * port (PmOut32 / PmIn32) and the collaborators whose answers are injected.
 * Every call the sequencer makes is recorded, in order, in the port's trace.
 */
module XpmCommon {
  import opened Wrappers
  import opened Word

  /**
   * XStatus values.  `Other(code)` stands for any code a collaborator may pass
   * back that is none of the six named here; a collaborator that returns
   * XST_SUCCESS answers `Success`, so `s != Success` is the firmware's test
   * `XST_SUCCESS != Status`.
   */
  datatype XStatus =
    | Success            // XST_SUCCESS
    | Failure            // XST_FAILURE
    | InvalidPwrDomain   // XPM_INVALID_PWRDOMAIN
    | ErrInitStart       // XPM_ERR_INIT_START
    | ErrScanClr         // XPM_ERR_SCAN_CLR
    | ErrMbistClr        // XPM_ERR_MBIST_CLR
    | Other(code: int)

  // Platform and silicon-revision encodings (values not part of this model).
  const PLATFORM_VERSION_SILICON: u32
  const PLATFORM_VERSION_SILICON_ES1: u32

  /** The firmware's global Platform and PlatformVersion, read-only inputs here. */
  datatype PlatformFacts = PlatformFacts(platform: u32, version: u32)

  predicate OnSilicon(p: PlatformFacts) {
    p.platform == PLATFORM_VERSION_SILICON
  }

  /** First engineering-sample silicon. */
  predicate IsEs1(p: PlatformFacts) {
    OnSilicon(p) && p.version == PLATFORM_VERSION_SILICON_ES1
  }

  datatype ResetAction = Release | Pulse

  /** One observable step of a phase, in the order it happens. */
  datatype Event =
    | Write(addr: u32, value: u32)            // PmOut32
    | Read(addr: u32)                         // PmIn32
    | IsoControl(node: u32, enable: bool)     // XPmDomainIso_Control
    | Poll(addr: u32, mask: u32)              // XPm_PollForMask(addr, mask, XPM_POLL_TIMEOUT)
    | ResetAssert(reset: u32, action: ResetAction)  // XPmReset_AssertbyId
    | BisrRepair(tag: u32)                    // XPmBisr_Repair

  /**
   * The answers the collaborators give during one phase call: the isolation
   * control, the first and second XPm_PollForMask, the reset assertion, the
   * repair, and the value the hardware presents to the one PmIn32 read.
   * Each status is written in the canonical form XStatus describes.
   */
  datatype Answers = Answers(iso: XStatus, firstPoll: XStatus, secondPoll: XStatus,
                             reset: XStatus, bisr: XStatus, readValue: u32)

  /** The effect of one event on the register contents: only writes change them. */
  function Step(regs: map<u32, u32>, e: Event): map<u32, u32> {
    if e.Write? then regs[e.addr := e.value] else regs
  }

  /** The register contents after a trace of events, applied in order. */
  function ApplyAll(regs: map<u32, u32>, events: seq<Event>): map<u32, u32>
    decreases |events|
  {
    if events == [] then regs
    else Step(ApplyAll(regs, events[..|events| - 1]), events[|events| - 1])
  }

  predicate WritesTo(e: Event, addr: u32) {
    e.Write? && e.addr == addr
  }

  /** The value last written to an address by a trace, if any. */
  function LastWrite(events: seq<Event>, addr: u32): (r: Option<u32>)
    ensures r.Some? ==> exists k :: 0 <= k < |events| && events[k] == Write(addr, r.value) &&
                                   forall j :: k < j < |events| ==> !WritesTo(events[j], addr)
    ensures r.None? ==> forall k :: 0 <= k < |events| ==> !WritesTo(events[k], addr)
    decreases |events|
  {
    if events == [] then None
    else
      var e := events[|events| - 1];
      if WritesTo(e, addr) then Some(e.value)
      else LastWrite(events[..|events| - 1], addr)
  }

  /** Running a trace leaves each address holding the value it was last written, or its old value. */
  lemma {:induction false} ApplyAllAt(regs: map<u32, u32>, events: seq<Event>, addr: u32)
    ensures LastWrite(events, addr).Some? ==>
      addr in ApplyAll(regs, events) && ApplyAll(regs, events)[addr] == LastWrite(events, addr).value
    ensures LastWrite(events, addr).None? ==>
      (addr in ApplyAll(regs, events) <==> addr in regs) &&
      (addr in regs ==> ApplyAll(regs, events)[addr] == regs[addr])
    decreases |events|
  {
    if events != [] {
      ApplyAllAt(regs, events[..|events| - 1], addr);
    }
  }

  /** Running two traces one after the other is running their concatenation. */
  lemma {:induction false} ApplyAllAppend(regs: map<u32, u32>, s: seq<Event>, t: seq<Event>)
    ensures ApplyAll(regs, s + t) == ApplyAll(ApplyAll(regs, s), t)
    decreases |t|
  {
    if t == [] {
      assert s + t == s;
    } else {
      var t' := t[..|t| - 1];
      assert (s + t)[..|s + t| - 1] == s + t';
      ApplyAllAppend(regs, s, t');
    }
  }

  /** A register holds the value of the last event that writes it. */
  lemma LastWriteWins(regs: map<u32, u32>, events: seq<Event>, k: nat)
    requires k < |events| && events[k].Write?
    requires forall j :: k < j < |events| ==> !WritesTo(events[j], events[k].addr)
    ensures LastWrite(events, events[k].addr) == Some(events[k].value)
    ensures events[k].addr in ApplyAll(regs, events)
    ensures ApplyAll(regs, events)[events[k].addr] == events[k].value
  {
    var addr := events[k].addr;
    match LastWrite(events, addr) {
      case None =>
        assert WritesTo(events[k], addr);
      case Some(v) =>
        var k' :| 0 <= k' < |events| && events[k'] == Write(addr, v) &&
                  forall j :: k' < j < |events| ==> !WritesTo(events[j], addr);
        assert WritesTo(events[k'], addr) && WritesTo(events[k], addr);
        assert k' == k;
    }
    ApplyAllAt(regs, events, addr);
  }

  predicate NoWrites(events: seq<Event>) {
    forall k :: 0 <= k < |events| ==> !events[k].Write?
  }

  /** A trace without writes leaves every register as it was. */
  lemma {:induction false} NoWritesKeep(regs: map<u32, u32>, events: seq<Event>)
    requires NoWrites(events)
    ensures ApplyAll(regs, events) == regs
    decreases |events|
  {
    if events != [] {
      NoWritesKeep(regs, events[..|events| - 1]);
    }
  }

  /**
   * The memory-mapped register port.  `regs` holds the register contents the
   * sequencer has written, `trace` records every call of the sequencer in
   * order, and `initial` is what the registers held before the first
   * recorded event.  Values read back come from the hardware and are inputs.
   */
  class Mmio {
    var regs: map<u32, u32>
    ghost var initial: map<u32, u32>
    ghost var trace: seq<Event>

    /** The register contents are the initial contents with the trace applied. */
    ghost predicate Valid()
      reads this
    {
      regs == ApplyAll(initial, trace)
    }

    constructor (contents: map<u32, u32>)
      ensures Valid() && regs == contents && initial == contents && trace == []
    {
      regs := contents;
      initial := contents;
      trace := [];
    }

    /** PmOut32. */
    method Out32(addr: u32, value: u32)
      requires Valid()
      modifies this
      ensures Valid() && initial == old(initial)
      ensures regs == old(regs)[addr := value]
      ensures trace == old(trace) + [Write(addr, value)]
    {
      regs := regs[addr := value];
      trace := trace + [Write(addr, value)];
      assert trace[..|trace| - 1] == old(trace);
    }

    /** PmIn32: the hardware decides the value, so it is an input. */
    method In32(addr: u32, hardware: u32) returns (value: u32)
      requires Valid()
      modifies this
      ensures Valid() && initial == old(initial)
      ensures value == hardware
      ensures regs == old(regs)
      ensures trace == old(trace) + [Read(addr)]
    {
      value := hardware;
      trace := trace + [Read(addr)];
      assert trace[..|trace| - 1] == old(trace);
    }

    /** Records a call to a collaborator; such a call writes none of these registers. */
    method Call(e: Event)
      requires Valid() && !e.Write?
      modifies this
      ensures Valid() && initial == old(initial)
      ensures regs == old(regs)
      ensures trace == old(trace) + [e]
    {
      trace := trace + [e];
      assert trace[..|trace| - 1] == old(trace);
    }
  }

  // The collaborators.  Their internals are not part of this model: each call
  // is recorded in the trace and answers with the injected status.

  /** XPmDomainIso_Control. */
  method DomainIsoControl(mmio: Mmio, node: u32, enable: bool, answer: XStatus) returns (status: XStatus)
    requires mmio.Valid()
    modifies mmio
    ensures mmio.Valid() && mmio.initial == old(mmio.initial)
    ensures status == answer && mmio.trace == old(mmio.trace) + [IsoControl(node, enable)]
  {
    mmio.Call(IsoControl(node, enable));
    status := answer;
  }

  /** XPm_PollForMask with the fixed XPM_POLL_TIMEOUT. */
  method PollForMask(mmio: Mmio, addr: u32, mask: u32, answer: XStatus) returns (status: XStatus)
    requires mmio.Valid()
    modifies mmio
    ensures mmio.Valid() && mmio.initial == old(mmio.initial)
    ensures status == answer && mmio.trace == old(mmio.trace) + [Poll(addr, mask)]
  {
    mmio.Call(Poll(addr, mask));
    status := answer;
  }

  /** XPmReset_AssertbyId. */
  method ResetAssertById(mmio: Mmio, reset: u32, action: ResetAction, answer: XStatus) returns (status: XStatus)
    requires mmio.Valid()
    modifies mmio
    ensures mmio.Valid() && mmio.initial == old(mmio.initial)
    ensures status == answer && mmio.trace == old(mmio.trace) + [ResetAssert(reset, action)]
  {
    mmio.Call(ResetAssert(reset, action));
    status := answer;
  }

  /** XPmBisr_Repair. */
  method BisrRepairTag(mmio: Mmio, tag: u32, answer: XStatus) returns (status: XStatus)
    requires mmio.Valid()
    modifies mmio
    ensures mmio.Valid() && mmio.initial == old(mmio.initial)
    ensures status == answer && mmio.trace == old(mmio.trace) + [BisrRepair(tag)]
  {
    mmio.Call(BisrRepair(tag));
    status := answer;
  }
}
