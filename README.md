# Shared-memory region layer: E2E test layout, typed region view, set flattening

A Dafny model of the shared-memory region layer of the virtual-device platform
(`common/vsoc`) and of one small helper of the instance database:

- `e2e_test_region.dfy` (module `E2ETest`): the layout of the end-to-end test
  regions. It holds the test-stage enum and the stage register that stores it as
  a 32-bit word. It holds the fill record, whose host-writable and
  guest-writable halves are 32 bytes each. It holds `NumFillRecords`, which says
  how many records cover a region, with `size_t` arithmetic. It holds the region
  itself as a class: two stage registers and an array of
  `NumFillRecords(region_size)` records. A side fills its own half of every
  record, record by record, and publishes its stage in its own register. The
  variant layouts (primary, secondary, unfindable, managed, manager) are a
  catalogue of payload shapes and the manager's `ManagedRegion` alias.
- `typed_region_view.dfy` (module `TypedRegion`): `TypedRegionView<Layout>`.
  `data()` (both overloads) computes the payload address as region base plus
  payload offset, in `uintptr_t` arithmetic, taken as 64 bits wide, so a sum
  past 2^64 wraps. `Open(domain)` asks the generic region-opening code for the
  layout's own region name.
- `instance_database_utils.dfy` (module `InstanceDatabaseUtils`):
  `CollectAllElements`, the loop that inserts every container's collected
  subset into one output set.
- `wrappers.dfy` (module `Wrappers`): the `Option` datatype.

Sizes are named constants built from the declared fields. A stage register is
4 bytes and an owned field is 32. A record is therefore 64 bytes. The records
start at offset 8, after the two registers. The layout is
`sizeof(E2ETestRegionLayout)` = 72 bytes: both registers and the one declared
record. The layout base classes (`Base`, `RegionLayout`) are taken to add no
bytes.

`TypedRegionView::Open` adds no size check of its own
(common/vsoc/lib/typed_region_view.h:57-59): it returns whatever the generic
`Open` returns. The model's `Open` passes that outcome through unchanged, so any
size check belongs to the generic code.

## Model

| member | source | states |
|---|---|---|
| `E2ETest.Code` | common/vsoc/shm/e2e_test_region.h:46-53 | a stage is stored as a code below 3 |
| `E2ETest.Decode` | common/vsoc/shm/e2e_test_region.h:80-83 | a raw register word names a stage exactly when it is below 3, and then it is that stage's code |
| `E2ETest.StageCodes` | common/vsoc/shm/e2e_test_region.h:46-53 | NONE, MEMORY_FILLED and PEER_MEMORY_READ are 0, 1 and 2, in increasing order |
| `E2ETest.DecodeCode` | common/vsoc/shm/e2e_test_region.h:80-85 | reading back a stored stage gives that stage |
| `E2ETest.StageRegister.constructor` | common/vsoc/shm/e2e_test_region.h:78-92 | a register placed over memory holds the word already there |
| `E2ETest.StageRegister.Value` | common/vsoc/shm/e2e_test_region.h:80-83 | value() gives a stage exactly when the stored word is a stage code, and then the stage with that code |
| `E2ETest.StageRegister.SetValue` | common/vsoc/shm/e2e_test_region.h:85 | after set_value(v) the word is v's code and value() returns v |
| `E2ETest.NumFillRecords` | common/vsoc/shm/e2e_test_region.h:107-116 | zero records for a region smaller than the layout; otherwise at least one, the records end inside the region, and less than a record is left uncovered; the size_t subtraction never wraps |
| `E2ETest.NumFillRecordsFormula` | common/vsoc/shm/e2e_test_region.h:114-115 | for a region at least as large as the layout the count is 1 + (size - 72) / 64 |
| `E2ETest.NumFillRecordsUnique` | common/vsoc/shm/e2e_test_region.h:102-116 | any count whose records stay in the region and leave less than a record uncovered is the computed count |
| `E2ETest.HeaderSizedRegion` | common/vsoc/shm/e2e_test_region.h:107-116 | a region exactly the size of the layout has one record |
| `E2ETest.ThreeExtraRecords` | common/vsoc/shm/e2e_test_region.h:107-116 | a region three records larger than the layout has four records |
| `E2ETest.FieldOffset` | common/vsoc/shm/e2e_test_region.h:59-67 | each side's half of record i lies within the bytes of record i |
| `E2ETest.HostHalfFirst` | common/vsoc/shm/e2e_test_region.h:65-66 | in every record the host's half starts the record and the guest's half follows it directly |
| `E2ETest.OwnedFieldsDisjoint` | common/vsoc/shm/e2e_test_region.h:55-67 | two different owned fields, of the same record or of different records, share no byte |
| `E2ETest.OwnedFieldInRegion` | common/vsoc/shm/e2e_test_region.h:119-126 | every owned field of every counted record lies after both stage registers and inside the region |
| `E2ETest.WriteOwned` | common/vsoc/shm/e2e_test_region.h:55-66 | writing one side's half of a record sets that half and keeps the other side's half |
| `E2ETest.FilledWithAt` | common/vsoc/shm/e2e_test_region.h:55-66 | record k after a fill is record k before it with the filling side's half written |
| `E2ETest.FillWritesOnlyOwnHalf` | common/vsoc/shm/e2e_test_region.h:55-66 | a fill keeps the record count, puts the pattern in the filling side's half of every record and leaves every half of the other side unchanged |
| `E2ETest.FillKeepsWellFormed` | common/vsoc/shm/e2e_test_region.h:60-66 | after a fill with a 32-byte pattern every half still has kOwnedFieldSize bytes |
| `E2ETest.FillsCommute` | common/vsoc/shm/e2e_test_region.h:55-66 | the host's fill and the guest's fill give the same records in either order |
| `E2ETest.FillIdempotent` | common/vsoc/shm/e2e_test_region.h:55-66 | repeating a fill with the same pattern changes nothing |
| `E2ETest.E2ETestRegion.Place` | common/vsoc/shm/e2e_test_region.h:119-126 | the layout over a region at least its own size has two distinct registers and exactly NumFillRecords(size) records, holding what memory held |
| `E2ETest.E2ETestRegion.FillOwnHalf` | common/vsoc/shm/e2e_test_region.h:55-66 | filling one side's half of every record in place gives the records FilledWith describes and leaves both stage registers unchanged |
| `E2ETest.E2ETestRegion.SetStatus` | common/vsoc/shm/e2e_test_region.h:117-122 | setting one side's register makes it read back the new stage and leaves the peer's register and all records unchanged |
| `E2ETest.PayloadOf` | common/vsoc/shm/e2e_test_region.h:130-163 | primary, secondary and unfindable share the fill-test layout; only the managed layout has the single val, and only the manager has the four-word data |
| `E2ETest.PayloadSize` | common/vsoc/shm/e2e_test_region.h:119-162 | the fill-test layout is the two registers plus exactly one record, so a region of that size gets one record and a byte less gets none; the managed payload is one 32-bit word, the manager's four |
| `E2ETest.ManagedRegion` | common/vsoc/shm/e2e_test_region.h:158-162 | only the manager layout declares a managed region, and it is the managed layout |
| `TypedRegion.TypedRegionView.constructor` | common/vsoc/lib/typed_region_view.h:55 | a new view is bound to its layout's name, is not open and has asked for nothing |
| `TypedRegion.TypedRegionView.Data` | common/vsoc/lib/typed_region_view.h:43-47 | the address is base plus offset, minus 2^64 when that sum passes the address space; no open-state or size condition |
| `TypedRegion.TypedRegionView.ConstData` | common/vsoc/lib/typed_region_view.h:49-53 | the const overload gives the same address as the non-const one |
| `TypedRegion.DataIgnoresOpenState` | common/vsoc/lib/typed_region_view.h:43-53 | views that agree on base and offset give the same address whatever their open state and size |
| `TypedRegion.TypedRegionView.OpenNamed` | common/vsoc/lib/typed_region_view.h:58 | the generic Open requests the given name once and adopts the mapper's result and state |
| `TypedRegion.TypedRegionView.Open` | common/vsoc/lib/typed_region_view.h:57-59 | Open requests the layout's own name and no other, and returns the generic result and state unchanged |
| `InstanceDatabaseUtils.UnionOf` | host/commands/cvd/instance_database_utils.h:45-50 | every container's collected subset is contained in the union |
| `InstanceDatabaseUtils.UnionOfMembership` | host/commands/cvd/instance_database_utils.h:46-49 | an element is in the union exactly when some container's subset holds it |
| `InstanceDatabaseUtils.UnionOfIgnoresOrder` | host/commands/cvd/instance_database_utils.h:33-36 | inputs with the same containers, in any order and with any repetition, give the same set |
| `InstanceDatabaseUtils.CollectAllElements` | host/commands/cvd/instance_database_utils.h:41-51 | the output is the union of the collected subsets: it holds every collected element and nothing else, and no inputs give the empty set |

## Left out

- `volatile` access and the memory ordering between host and guest
  (common/vsoc/shm/e2e_test_region.h:62-64, 88-90): the model is sequential and
  cannot express hardware visibility or reordering.
- The concurrent handshake between host and guest, and the harness that fills
  and checks the regions: that harness is not part of this model. The model
  covers one side's sequential fill of its own halves and its write to its own
  register. It does not model reading back and comparing the peer's halves.
- `OpenableRegionView::Open` and the host and guest region implementations are
  not part of this model. Open is an arbitrary function, the `Mapper`, of the
  requested name, the domain and the view's state. The default `nullptr`
  domain is `None`.
- `TypedRegion.TypedRegionView.constructor`: the generic view's own constructor
  is not part of this model. The model starts every view unopened with zero
  base, offset and size.
- `TypedRegion.TypedRegionView.Data`: returns the payload address as a number,
  not a typed reference to the layout at that address.
- `E2ETest.StageRegister.Value`: C++ casts any stored word to the enum. A word
  with no enumerator is `None` here, not an unnamed enum value.
- `ASSERT_SHM_COMPATIBLE` and the exact `sizeof` of `Base` and `RegionLayout`
  come from `base.h`, which is not part of this model. The sizes are named
  constants that assume the base classes add no bytes.
- The static `region_name`, `guest_pattern` and `host_pattern` values are
  defined outside these files. The variants carry no names or patterns. A view
  takes its region name as a constructor argument.
- `E2ETest.NumFillRecords`: `size_t` is taken as 64 bits wide.
- `TypedRegion.TypedRegionView.Data`: `uintptr_t` is taken as 64 bits wide; a
  32-bit guest build would wrap at 2^32 instead.
- Process launching, the VM manager's command line, the WebRTC connection, the
  cvd server's generic command, the attestation record, the kernel-log server
  and the selector test fixture are outside the modelled core. They consist of
  I/O, subprocess handling, concurrency, calls into libraries that are not
  shown, or bare declarations.
