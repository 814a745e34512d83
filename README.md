# CPM power-domain sequencer and PMU MMIO access gate, in Dafny

This project models two small pieces of Xilinx platform-management firmware
and proves properties of them.

**The PMU firmware's MMIO access gate** (`pm_mmio_access.c`, module
`MmioAccess`):
- A constant table of inclusive address regions. Each region carries a
  bitmask of the masters (one IPI bit per master) that may access it.
- `PmGetMmioAccess`, which scans the table in order. It lets the first region
  that contains the address decide. It fails closed.

**The Versal CPM power-domain sequencer** (`xpm_cpmdomain.c`, modules
`XpmCommon`, `XpmCpmDomain` and `CpmProps`):
- The phase handlers of the two CPM generations: InitStart, InitFinish,
  ScanClear, Bisr and MbistClear.
- Their two operation tables.
- `XPmCpmDomain_Init`, which binds a domain object to a table and records
  its four register-block base addresses.

How the sequencer is modelled:
- The register port (`PmOut32` / `PmIn32`) is the class `XpmCommon.Mmio`.
  - It holds a map from address to 32-bit word.
  - It has a ghost trace of every event in order: write, read, isolation
    control, poll, reset assertion and repair.
  - Its invariant `Valid` says that the register map is the initial map with
    the trace applied.
- Each phase is a method that works on the port step by step, as the C code
  does.
- Each phase is proved against a specification function
  (`CpmScanClearOutcome`, ...). That function gives the status the phase
  returns and the exact events it causes.
- The lemmas in `CpmProps` then state what each path leaves in the PCSR and
  secure-SLCR registers:
  - which cleanup writes happen on which path;
  - which statuses come back;
  - which collaborator answers are ignored.

The collaborators are not part of this model; their answers are inputs
(`XpmCommon.Answers`). They are:
- `XPmDomainIso_Control`;
- `XPm_PollForMask`;
- `XPmReset_AssertbyId`;
- `XPmBisr_Repair`;
- the value the hardware presents to a `PmIn32`.

`XPmPower_GetById` is a lookup in a registry map from node id to domain
object. The firmware globals `Platform` and `PlatformVersion` are a
`PlatformFacts` input.

Header macros whose values are not part of this model are uninterpreted
constants:
- register offsets and masks;
- base addresses;
- node, reset and tag ids;
- the PCSR unlock value;
- the IPI masks;
- the platform encodings.

The facts the code relies on are predicates that the lemmas require:
- the access table is well formed and free of overlaps (`TableLayout`);
- the register offsets a phase writes name different registers
  (`PcsrDistinct`, `CpmSecureDistinct`).

32-bit address arithmetic wraps (`Word.Add32`), and `&` and `|` are computed bit by bit on the 32-bit pattern (`Word.And32`, `Word.Or32`).

## Model

| member | source | states |
|---|---|---|
| MmioAccess.FirstMatch | lib/sw_apps/zynqmp_pmufw/src/pm_mmio_access.c:152-158 | the index found is in the table, its region contains the address with both bounds inclusive, and no earlier region contains it; when there is no index, no region contains the address |
| MmioAccess.ScanTable | lib/sw_apps/zynqmp_pmufw/src/pm_mmio_access.c:152-159 | the loop grants access exactly when some region i contains the address, no region before i contains it, and region i's mask shares a bit with the master's IPI mask |
| MmioAccess.GetMmioAccess | lib/sw_apps/zynqmp_pmufw/src/pm_mmio_access.c:143-163 | the answer is the first-match decision over the constant table; a NULL master is denied whatever the address; the query has no side effects (no `modifies`) |
| MmioAccess.FailClosed | lib/sw_apps/zynqmp_pmufw/src/pm_mmio_access.c:146-162 | an address in no region is denied to every master |
| MmioAccess.FirstMatchAt | lib/sw_apps/zynqmp_pmufw/src/pm_mmio_access.c:152-158 | a region that contains the address, with no earlier region containing it, is the one the scan stops at |
| MmioAccess.FirstMatchDecides | lib/sw_apps/zynqmp_pmufw/src/pm_mmio_access.c:152-158 | once region i is the first match, the regions after it are never consulted: appending any regions, or cutting the table after i, leaves the answer `(access & ipiMask) != 0` of region i |
| MmioAccess.DisjointMatch | lib/sw_apps/zynqmp_pmufw/src/pm_mmio_access.c:53-133 | in a table without overlapping regions, the region that contains the address is the first match |
| MmioAccess.RowDecides | lib/sw_apps/zynqmp_pmufw/src/pm_mmio_access.c:152-156 | in a table without overlaps, access to an address of region i is granted iff a master is given and region i's mask shares a bit with the master's IPI mask |
| MmioAccess.BoundsInclusive | lib/sw_apps/zynqmp_pmufw/src/pm_mmio_access.c:153-154 | both the start and the end address of a region are decided by that region's mask |
| MmioAccess.PwrStateApuOnly | lib/sw_apps/zynqmp_pmufw/src/pm_mmio_access.c:105-109 | the PMU global power-state register is open exactly to a master whose IPI mask has the APU bit |
| MmioAccess.IouSlcrApuOnly | lib/sw_apps/zynqmp_pmufw/src/pm_mmio_access.c:121-125 | every address of the IOU SLCR window 0x300..0x524 is open exactly to a master with the APU bit |
| MmioAccess.CsuIdcodeApuOnly | lib/sw_apps/zynqmp_pmufw/src/pm_mmio_access.c:128-132 | every address of the CSU IDCODE and version window is open exactly to a master with the APU bit |
| XpmCommon.Mmio.Out32 | lib/sw_services/xilpm/src/versal/server/xpm_cpmdomain.c:66-68 | a register write stores the value at the address, changes no other register, and is appended to the trace; the port invariant is kept |
| XpmCommon.Mmio.In32 | lib/sw_services/xilpm/src/versal/server/xpm_cpmdomain.c:317-318 | a register read returns the hardware's value, changes no register, and is appended to the trace |
| XpmCommon.DomainIsoControl | lib/sw_services/xilpm/src/versal/server/xpm_cpmdomain.c:52-55 | the isolation call is recorded with its node and returns the collaborator's status |
| XpmCommon.PollForMask | lib/sw_services/xilpm/src/versal/server/xpm_cpmdomain.c:146-148 | the poll is recorded with its address and mask and returns the collaborator's status |
| XpmCommon.ResetAssertById | lib/sw_services/xilpm/src/versal/server/xpm_cpmdomain.c:160-161 | the reset assertion is recorded with its reset id and action and returns the collaborator's status |
| XpmCommon.BisrRepairTag | lib/sw_services/xilpm/src/versal/server/xpm_cpmdomain.c:249-250 | the repair is recorded with its tag and returns the collaborator's status |
| XpmCpmDomain.CpmDomain.Init | lib/sw_services/xilpm/src/versal/server/xpm_cpmdomain.c:411-443 | an id that is neither CPM nor CPM5 gives XPM_INVALID_PWRDOMAIN and leaves the object untouched; CPM binds `CpmOps[XPM_HC_CPM_OPS]` and CPM5 binds `CpmOps[XPM_HC_CPM5_OPS]`; with a count of at least 4 the four bases are entries 0..3 and the status is success; with fewer the status is XST_FAILURE and no base changes |
| XpmCpmDomain.PowerGetById | lib/sw_services/xilpm/src/versal/server/xpm_cpmdomain.c:46-49 | the lookup gives NULL exactly when the id is not registered, and the registered object otherwise |
| XpmCpmDomain.ArmScanClear | lib/sw_services/xilpm/src/versal/server/xpm_cpmdomain.c:138-148 | unlock the PCSR, write the trigger to MASK then PCR, poll PSR for done, in that order |
| XpmCpmDomain.ArmCpmMbist | lib/sw_services/xilpm/src/versal/server/xpm_cpmdomain.c:297-311 | clear WPROT0, write 0xFF to RESET_N, SETUP and PG_EN, poll DONE for 0xFF, in that order |
| XpmCpmDomain.CleanUpCpmMbist | lib/sw_services/xilpm/src/versal/server/xpm_cpmdomain.c:324-333 | write 0 to the three trigger registers, then set WPROT0 |
| XpmCpmDomain.StartCpm5Mbist | lib/sw_services/xilpm/src/versal/server/xpm_cpmdomain.c:360-374 | clear WPROTS, write the combined trigger, poll for done |
| XpmCpmDomain.CpmInitStart | lib/sw_services/xilpm/src/versal/server/xpm_cpmdomain.c:37-73 | status and event trace are those of `CpmInitStartOutcome`: the domain missing gives XST_FAILURE with no event; otherwise isolation removal, then the hand-coded POR release except on ES1 silicon; the register contents afterwards are the contents before with those events applied |
| XpmCpmDomain.Cpm5InitStart | lib/sw_services/xilpm/src/versal/server/xpm_cpmdomain.c:75-102 | the domain missing gives XPM_INVALID_PWRDOMAIN; otherwise only the isolation removal, whose status is returned; the register contents afterwards are the contents before with those events applied |
| XpmCpmDomain.CpmInitFinish | lib/sw_services/xilpm/src/versal/server/xpm_cpmdomain.c:104-115 | always XST_SUCCESS, with no register access |
| XpmCpmDomain.CpmScanClear | lib/sw_services/xilpm/src/versal/server/xpm_cpmdomain.c:117-173 | status and trace are those of `CpmScanClearOutcome`: skipped off silicon and on ES1; the domain missing gives XST_FAILURE; each failed poll returns at once; past both polls, the pulse, then the unwrite and lock writes; the register contents afterwards are the contents before with those events applied |
| XpmCpmDomain.Cpm5ScanClear | lib/sw_services/xilpm/src/versal/server/xpm_cpmdomain.c:175-233 | the same, with XPM_INVALID_PWRDOMAIN for a missing domain and MASK=0, LOCK=1 instead of the pulse and unwrite; the register contents afterwards are the contents before with those events applied |
| XpmCpmDomain.Bisr | lib/sw_services/xilpm/src/versal/server/xpm_cpmdomain.c:236-274 | CpmBisr and Cpm5Bisr: success with no event off silicon, otherwise the repair of the variant's tag and its status; the register contents afterwards are the contents before with those events applied |
| XpmCpmDomain.CpmMbistClear | lib/sw_services/xilpm/src/versal/server/xpm_cpmdomain.c:276-337 | status and trace are those of `CpmMbistClearOutcome`: skipped off silicon; the domain missing gives XST_FAILURE; a failed done-poll returns its status; a GO mismatch gives XST_FAILURE; otherwise cleanup and success; the register contents afterwards are the contents before with those events applied |
| XpmCpmDomain.Cpm5MbistClear | lib/sw_services/xilpm/src/versal/server/xpm_cpmdomain.c:339-392 | status and trace are those of `Cpm5MbistClearOutcome`, the code as written: the poll status is discarded, and XPM_ERR_MBIST_CLR comes back on every silicon path that finds the domain; the register contents afterwards are the contents before with those events applied |
| XpmCpmDomain.Cpm5MbistClearFixed | lib/sw_services/xilpm/src/versal/server/xpm_cpmdomain.c:339-392 | status and trace are those of `Cpm5MbistClearFixedOutcome`: the same accesses, with success once the cleanup is done; the register contents afterwards are the contents before with those events applied |
| XpmCpmDomain.Invoke | lib/sw_services/xilpm/src/versal/server/xpm_cpmdomain.c:394-409 | a call through a table entry behaves as the handler the entry names (the CPM5 MBIST entry runs `Cpm5MbistClear` as written; the separate tag `Cpm5MbistClearFixedFn` runs the correction); the register contents afterwards are the contents before with those events applied |
| CpmProps.SharedInitFinish | lib/sw_services/xilpm/src/versal/server/xpm_cpmdomain.c:394-409 | both tables share CpmInitFinish, which succeeds with no event |
| CpmProps.TablesPerVariant | lib/sw_services/xilpm/src/versal/server/xpm_cpmdomain.c:394-409 | a call through each entry of the CPM table runs the CPM phase on the CPM domain (the repair with CPM_TAG_ID), and through the CPM5 table the CPM5 phase on the CPM5 domain (CPM5_TAG_ID, and `Cpm5MbistClear` as written, which line 407 binds) |
| CpmProps.OffSiliconSkips | lib/sw_services/xilpm/src/versal/server/xpm_cpmdomain.c:127-352 | off silicon every handler except the two InitStarts returns success with no event |
| CpmProps.Es1SkipsScanClear | lib/sw_services/xilpm/src/versal/server/xpm_cpmdomain.c:126-188 | on ES1 silicon both scan-clear handlers return success with no event |
| CpmProps.BisrOnSilicon | lib/sw_services/xilpm/src/versal/server/xpm_cpmdomain.c:249-250 | on silicon a Bisr phase is one repair of its tag and returns the repair's status; the handler itself writes no register |
| CpmProps.CpmInitStartIsoFailure | lib/sw_services/xilpm/src/versal/server/xpm_cpmdomain.c:51-55 | a failed isolation removal is returned before any register write; the handler itself writes no register |
| CpmProps.CpmInitStartReleasesPor | lib/sw_services/xilpm/src/versal/server/xpm_cpmdomain.c:57-69 | off ES1 the writes are LOCK=unlock, ECO=0, LOCK=1 in that order, with success, and the PCSR ends with LOCK=1 and ECO=0 |
| CpmProps.CpmInitStartEs1 | lib/sw_services/xilpm/src/versal/server/xpm_cpmdomain.c:57-58 | on ES1 silicon InitStart succeeds and the handler itself writes no register |
| CpmProps.Cpm5InitStartNoWrites | lib/sw_services/xilpm/src/versal/server/xpm_cpmdomain.c:84-97 | Cpm5InitStart itself writes no register, and returns the isolation status, or XPM_INVALID_PWRDOMAIN without the domain |
| CpmProps.ArmedRegisters | lib/sw_services/xilpm/src/versal/server/xpm_cpmdomain.c:138-148 | after arming, whatever non-write events follow, LOCK holds the unlock value and MASK and PCR hold the trigger |
| CpmProps.CpmScanClearPollFailure | lib/sw_services/xilpm/src/versal/server/xpm_cpmdomain.c:146-157 | a failing poll's status is returned with no POR pulse, the trigger left in MASK and PCR, and the PCSR left unlocked |
| CpmProps.CpmScanClearPassed | lib/sw_services/xilpm/src/versal/server/xpm_cpmdomain.c:159-169 | past both polls the pulse's status is returned unchecked; the pulse is followed only by writes; the PCSR ends with PCR=0, MASK=trigger and LOCK=1 |
| CpmProps.CpmScanClearIgnoresResetStatus | lib/sw_services/xilpm/src/versal/server/xpm_cpmdomain.c:159-169 | the writes after the pulse happen whatever status the pulse returns |
| CpmProps.Cpm5ScanClearPollFailure | lib/sw_services/xilpm/src/versal/server/xpm_cpmdomain.c:205-218 | a failing poll's status is returned, with the trigger left set and the PCSR unlocked |
| CpmProps.Cpm5ScanClearPassed | lib/sw_services/xilpm/src/versal/server/xpm_cpmdomain.c:220-225 | past both polls: success, no reset, MASK=0 and LOCK=1, while PCR keeps the trigger |
| CpmProps.CpmInitStartThenScanClear | lib/sw_services/xilpm/src/versal/server/xpm_cpmdomain.c:37-173 | InitStart off ES1 followed by a passing CpmScanClear, run on the registers the first phase leaves: ECO keeps 0, PCR is 0, MASK holds the trigger and the PCSR is locked |
| CpmProps.CpmMbistArmedRegisters | lib/sw_services/xilpm/src/versal/server/xpm_cpmdomain.c:297-311 | after arming, WPROT0 is 0 and the three triggers hold 0xFF |
| CpmProps.CpmMbistClearStopsEarly | lib/sw_services/xilpm/src/versal/server/xpm_cpmdomain.c:308-322 | a failed done-poll returns its status, and a GO mismatch returns XST_FAILURE; both leave the triggers at 0xFF and write protection off |
| CpmProps.CpmMbistClearPassed | lib/sw_services/xilpm/src/versal/server/xpm_cpmdomain.c:324-333 | with the poll passing and all eight GO bits set: success, the triggers at 0 and WPROT0 at 1 |
| CpmProps.Cpm5MbistIgnoresDonePoll | lib/sw_services/xilpm/src/versal/server/xpm_cpmdomain.c:370-374 | the outcome of Cpm5MbistClear does not depend on the done-poll's answer |
| CpmProps.Cpm5MbistPassoutMismatch | lib/sw_services/xilpm/src/versal/server/xpm_cpmdomain.c:376-382 | a PASSOUT mismatch returns XPM_ERR_MBIST_CLR with the trigger set and write protection off |
| CpmProps.Cpm5MbistAsWrittenNeverSucceeds | lib/sw_services/xilpm/src/versal/server/xpm_cpmdomain.c:341-392 | as written, on silicon with the domain found, the status is XPM_ERR_MBIST_CLR on every path, even after a passing check whose cleanup leaves the trigger at 0 and WPROTS at 1 |
| CpmProps.Cpm5MbistDefectWitness | lib/sw_services/xilpm/src/versal/server/xpm_cpmdomain.c:376-391 | a PASSOUT value with every bit set passes the check and runs the cleanup, yet the status is XPM_ERR_MBIST_CLR |
| CpmProps.Cpm5MbistFixedSucceedsIffPassout | lib/sw_services/xilpm/src/versal/server/xpm_cpmdomain.c:384-391 | corrected: success exactly when PASSOUT matches, XPM_ERR_MBIST_CLR otherwise, the same register accesses as written, and on success the trigger at 0 and WPROTS at 1 |
| CpmProps.Cpm5MbistFixedAgreesElsewhere | lib/sw_services/xilpm/src/versal/server/xpm_cpmdomain.c:349-358 | off silicon, or without the domain, the correction and the code as written agree |

## Left out

- The internals of the collaborators are not part of this model: `XPm_PollForMask`, `XPmDomainIso_Control`, `XPmReset_AssertbyId` and `XPmBisr_Repair`. Each call is recorded and answers with an input status.
- `XPmPowerDomain_Init` is modelled by storing the id, base address, parent and table it is handed in `CpmDomain.domain`. The source does not check its status, so the model gives it none, and it records no event.
- `XPmPower_GetById` is a lookup in a map from id to domain object. The registry's own bookkeeping is not part of this model.
- Real MMIO behaviour: a `PmIn32` returns an input value. Registers that change on their own are not modelled. Only the sequencer's own writes change the register map.
- The poll timeout (`XPM_POLL_TIMEOUT`), wall-clock time and `sleep.h` are not modelled. A timeout is one of the failure statuses a poll may answer.
- The IPI transport that delivers a master's request, and the `PmMaster` record beyond its IPI mask.
- The numeric values of header macros are symbolic. The lemmas that read register contents require the offsets they use to be pairwise different. The table lemmas require `TableLayout`.
- Status codes other than the six the core names are one `Other(code)` case. Statuses are canonical: a collaborator that returns XST_SUCCESS answers `Success`, never `Other` with that code, so `!= Success` in the lemmas' requires is the firmware's `XST_SUCCESS != Status`. The model does not enforce this; it is the reading of `Other`.
- `XpmCpmDomain.Invoke` dispatches on an enumeration of the nine firmware handlers plus the corrected `Cpm5MbistClearFixedFn`, not on C function pointers. The unused `Args`/`NumOfArgs` parameters are dropped.
- `XpmCpmDomain.Bisr` is one method for both CpmBisr and Cpm5Bisr. The two differ only in the repair tag.
- `MmioAccess.ScanTable` is the loop of `PmGetMmioAccess` over any table. `GetMmioAccess` applies it to the constant table.

`CpmMbistClear` returns the passing poll's status after its cleanup (`xpm_cpmdomain.c:309-336`). `Cpm5MbistClear` never reassigns `Status` on silicon once the domain is found (`xpm_cpmdomain.c:354-391`). `XpmCpmDomain.Cpm5MbistClear` keeps the code as written, and the CPM5 operation table binds it as the firmware does (`xpm_cpmdomain.c:407`). The corrected handler `Cpm5MbistClearFixed` has its own handler tag, `Cpm5MbistClearFixedFn`, which `XpmCpmDomain.Invoke` dispatches but no table binds. The defect is logged under Findings.

## Findings

| source | as written | input that shows it | evidently intended | confidence | as-written member | corrected member |
|---|---|---|---|---|---|---|
| lib/sw_services/xilpm/src/versal/server/xpm_cpmdomain.c:339-392 | `Status` starts as XPM_ERR_MBIST_CLR and is never assigned on silicon once the domain is found, so the handler reports failure even after a passing PASSOUT check and a completed cleanup | on silicon with the CPM5 domain registered, PASSOUT reads 0xFFFFFFFF: the check passes, the trigger is cleared and WPROTS set, and XPM_ERR_MBIST_CLR is returned | return XST_SUCCESS after the cleanup writes, as CpmMbistClear does | high; not executed | CpmProps.Cpm5MbistAsWrittenNeverSucceeds | CpmProps.Cpm5MbistFixedSucceedsIffPassout |
