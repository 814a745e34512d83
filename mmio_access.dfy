/**
 * The PMU firmware's MMIO access gate (pm_mmio_access.c): a constant table of
 * inclusive address regions, each with a bitmask of the masters (one IPI bit per
 * master) allowed to touch it, and the query that answers whether a master may
 * access an address.
 */
module MmioAccess {
  import opened Wrappers
  import opened Word

  // Register-map values defined in headers that are not part of this model;
  // they are left uninterpreted.  The relation the code relies on (the regions
  // are well formed and do not overlap) is the predicate TableLayout below.
  const CRF_APB_BASEADDR: u32
  const CRL_APB_BASEADDR: u32
  const PMU_GLOBAL_PWR_STATE: u32
  const PMU_GLOBAL_GLOBAL_GEN_STORAGE0: u32
  const PMU_GLOBAL_PERS_GLOB_GEN_STORAGE7: u32
  const IPI_PMU_0_IER_APU_MASK: u32
  const IPI_PMU_0_IER_RPU_0_MASK: u32
  const IPI_PMU_0_IER_RPU_1_MASK: u32

  const PM_MMIO_IOU_SLCR_BASE: u32 := 0xFF18_0000
  const PM_MMIO_CSU_BASE: u32 := 0xFFCA_0000

  /** One row of the access table; both bounds are inclusive. */
  datatype AccessRegion = AccessRegion(startAddr: u32, endAddr: u32, access: u32)

  /** A requesting master, seen only through its IPI identity mask. */
  datatype Master = Master(ipiMask: u32)

  const APU_RPU: u32 := Or32(Or32(IPI_PMU_0_IER_APU_MASK, IPI_PMU_0_IER_RPU_0_MASK), IPI_PMU_0_IER_RPU_1_MASK)

  // Positions of the single-register and APU-only rows in AccessTable.
  const PWR_STATE_ROW: nat := 6
  const IOU_SLCR_ROW: nat := 8
  const CSU_IDCODE_ROW: nat := 9

  /** The build-time access table, in declaration order. */
  const AccessTable: seq<AccessRegion> := [
    // Module clock controller, full power domain (CRF_APB)
    AccessRegion(Add32(CRF_APB_BASEADDR, 0x20), Add32(CRF_APB_BASEADDR, 0x63), APU_RPU),
    AccessRegion(Add32(CRF_APB_BASEADDR, 0x70), Add32(CRF_APB_BASEADDR, 0x7b), APU_RPU),
    AccessRegion(Add32(CRF_APB_BASEADDR, 0x84), Add32(CRF_APB_BASEADDR, 0xbf), APU_RPU),
    // Module clock controller, low power domain (CRL_APB)
    AccessRegion(Add32(CRL_APB_BASEADDR, 0x20), Add32(CRL_APB_BASEADDR, 0x8c), APU_RPU),
    AccessRegion(Add32(CRL_APB_BASEADDR, 0xa4), Add32(CRL_APB_BASEADDR, 0xa7), APU_RPU),
    AccessRegion(Add32(CRL_APB_BASEADDR, 0xb4), Add32(CRL_APB_BASEADDR, 0x12b), APU_RPU),
    // PMU global power status register
    AccessRegion(PMU_GLOBAL_PWR_STATE, PMU_GLOBAL_PWR_STATE, IPI_PMU_0_IER_APU_MASK),
    // PMU global general storage
    AccessRegion(PMU_GLOBAL_GLOBAL_GEN_STORAGE0, PMU_GLOBAL_PERS_GLOB_GEN_STORAGE7, APU_RPU),
    // IOU SLCR registers needed by Linux
    AccessRegion(Add32(PM_MMIO_IOU_SLCR_BASE, 0x300), Add32(PM_MMIO_IOU_SLCR_BASE, 0x524), IPI_PMU_0_IER_APU_MASK),
    // CSU device IDCODE and version registers
    AccessRegion(Add32(PM_MMIO_CSU_BASE, 0x40), Add32(PM_MMIO_CSU_BASE, 0x44), IPI_PMU_0_IER_APU_MASK)
  ]

  predicate InRegion(r: AccessRegion, address: u32) {
    r.startAddr <= address <= r.endAddr
  }

  /** No two rows of the table share an address. */
  predicate Disjoint(table: seq<AccessRegion>) {
    forall j, k :: 0 <= j < k < |table| ==>
      table[j].endAddr < table[k].startAddr || table[k].endAddr < table[j].startAddr
  }

  /** The layout the table's author keeps: every row well formed, no two rows overlapping. */
  predicate TableLayout() {
    Disjoint(AccessTable) &&
    forall k :: 0 <= k < |AccessTable| ==> AccessTable[k].startAddr <= AccessTable[k].endAddr
  }

  /** The index of the first row, in table order, that contains the address. */
  function FirstMatch(table: seq<AccessRegion>, address: u32): (r: Option<nat>)
    ensures r.Some? ==> r.value < |table| && InRegion(table[r.value], address)
    ensures r.Some? ==> forall j :: 0 <= j < r.value ==> !InRegion(table[j], address)
    ensures r.None? ==> forall j :: 0 <= j < |table| ==> !InRegion(table[j], address)
  {
    if |table| == 0 then None
    else if InRegion(table[0], address) then Some(0)
    else match FirstMatch(table[1..], address)
      case None => None
      case Some(i) => Some(i + 1)
  }

  /**
   * The gate's answer for any table: no master or no matching row denies;
   * otherwise the first matching row's mask decides.
   */
  function Permission(table: seq<AccessRegion>, master: Option<Master>, address: u32): bool {
    match master
    case None => false
    case Some(m) =>
      match FirstMatch(table, address)
      case None => false
      case Some(i) => And32(table[i].access, m.ipiMask) != 0
  }

  /**
   * The loop of PmGetMmioAccess: scan the rows in order and let the first
   * row that contains the address decide by its mask.
   */
  method ScanTable(table: seq<AccessRegion>, m: Master, address: u32) returns (permission: bool)
    ensures permission == Permission(table, Some(m), address)
    ensures permission <==> (exists i :: 0 <= i < |table| && InRegion(table[i], address) &&
                                          (forall j :: 0 <= j < i ==> !InRegion(table[j], address)) &&
                                          And32(table[i].access, m.ipiMask) != 0)
  {
    permission := false;
    var i := 0;
    while i < |table|
      invariant 0 <= i <= |table|
      invariant forall j :: 0 <= j < i ==> !InRegion(table[j], address)
      invariant !permission
    {
      if table[i].startAddr <= address && address <= table[i].endAddr {
        permission := And32(table[i].access, m.ipiMask) != 0;
        assert FirstMatch(table, address) == Some(i);
        return;
      }
      i := i + 1;
    }
  }

  /** PmGetMmioAccess: no master is denied; otherwise the constant table is scanned. */
  method GetMmioAccess(master: Option<Master>, address: u32) returns (permission: bool)
    ensures permission == Permission(AccessTable, master, address)
    ensures master.None? ==> !permission
  {
    permission := false;
    if master.None? {
      return;
    }
    permission := ScanTable(AccessTable, master.value, address);
  }

  /** An address in no row is denied to every master: the gate fails closed. */
  lemma FailClosed(table: seq<AccessRegion>, master: Option<Master>, address: u32)
    requires forall j :: 0 <= j < |table| ==> !InRegion(table[j], address)
    ensures !Permission(table, master, address)
  {
  }

  /** A row that contains the address, with none before it that does, is the first match. */
  lemma FirstMatchAt(table: seq<AccessRegion>, i: nat, address: u32)
    requires i < |table| && InRegion(table[i], address)
    requires forall j :: 0 <= j < i ==> !InRegion(table[j], address)
    ensures FirstMatch(table, address) == Some(i)
  {
  }

  /**
   * Row i decides when it is the first to contain the address, whatever the
   * rows after it say: appending or changing later rows changes nothing.
   */
  lemma FirstMatchDecides(table: seq<AccessRegion>, rest: seq<AccessRegion>, i: nat,
                          m: Master, address: u32)
    requires i < |table| && InRegion(table[i], address)
    requires forall j :: 0 <= j < i ==> !InRegion(table[j], address)
    ensures Permission(table + rest, Some(m), address) == (And32(table[i].access, m.ipiMask) != 0)
    ensures Permission(table + rest, Some(m), address) == Permission(table[..i + 1], Some(m), address)
  {
    var t := table + rest;
    assert t[i] == table[i];
    assert forall j :: 0 <= j < i ==> t[j] == table[j];
    FirstMatchAt(t, i, address);
    var p := table[..i + 1];
    assert p[i] == table[i];
    assert forall j :: 0 <= j < i ==> p[j] == table[j];
    FirstMatchAt(p, i, address);
  }

  /** In a table without overlaps the row that contains the address is the first match. */
  lemma DisjointMatch(table: seq<AccessRegion>, i: nat, address: u32)
    requires Disjoint(table)
    requires i < |table| && InRegion(table[i], address)
    ensures FirstMatch(table, address) == Some(i)
  {
  }

  /** Permission in a table without overlaps, for an address inside row i. */
  lemma RowDecides(table: seq<AccessRegion>, i: nat, master: Option<Master>, address: u32)
    requires Disjoint(table)
    requires i < |table| && InRegion(table[i], address)
    ensures Permission(table, master, address) <==>
      master.Some? && And32(table[i].access, master.value.ipiMask) != 0
  {
    DisjointMatch(table, i, address);
  }

  /** Both bounds of a well-formed row belong to it: the start and the end address are decided by its mask. */
  lemma BoundsInclusive(table: seq<AccessRegion>, i: nat, master: Option<Master>)
    requires Disjoint(table)
    requires i < |table| && table[i].startAddr <= table[i].endAddr
    ensures Permission(table, master, table[i].startAddr) <==>
      master.Some? && And32(table[i].access, master.value.ipiMask) != 0
    ensures Permission(table, master, table[i].endAddr) <==>
      master.Some? && And32(table[i].access, master.value.ipiMask) != 0
  {
    RowDecides(table, i, master, table[i].startAddr);
    RowDecides(table, i, master, table[i].endAddr);
  }

  /** The PMU global power-state register is open only to a master with the APU bit. */
  lemma PwrStateApuOnly(master: Option<Master>)
    requires TableLayout()
    ensures Permission(AccessTable, master, PMU_GLOBAL_PWR_STATE) <==>
      master.Some? && And32(IPI_PMU_0_IER_APU_MASK, master.value.ipiMask) != 0
  {
    RowDecides(AccessTable, PWR_STATE_ROW, master, PMU_GLOBAL_PWR_STATE);
  }

  /** Every address of the IOU SLCR window is open only through the APU bit. */
  lemma IouSlcrApuOnly(master: Option<Master>, address: u32)
    requires TableLayout()
    requires Add32(PM_MMIO_IOU_SLCR_BASE, 0x300) <= address <= Add32(PM_MMIO_IOU_SLCR_BASE, 0x524)
    ensures Permission(AccessTable, master, address) <==>
      master.Some? && And32(IPI_PMU_0_IER_APU_MASK, master.value.ipiMask) != 0
  {
    RowDecides(AccessTable, IOU_SLCR_ROW, master, address);
  }

  /** Every address of the CSU IDCODE and version window is open only through the APU bit. */
  lemma CsuIdcodeApuOnly(master: Option<Master>, address: u32)
    requires TableLayout()
    requires Add32(PM_MMIO_CSU_BASE, 0x40) <= address <= Add32(PM_MMIO_CSU_BASE, 0x44)
    ensures Permission(AccessTable, master, address) <==>
      master.Some? && And32(IPI_PMU_0_IER_APU_MASK, master.value.ipiMask) != 0
  {
    RowDecides(AccessTable, CSU_IDCODE_ROW, master, address);
  }
}
