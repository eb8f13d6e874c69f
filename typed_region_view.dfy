/**
 * The typed view of a shared-memory region: it knows the name its layout is
 * registered under, opens the region through the generic region-opening code,
 * and hands out the address of the payload inside the mapping.
 *
 * The generic code (OpenableRegionView and the host and guest region
 * implementations) is not part of this model: its state is folded into the
 * view as plain fields, and its Open is a function the caller supplies.
 */
module TypedRegion {
  import opened Wrappers

  /** uintptr_t on the 64-bit targets: addresses below 2^64. */
  const AddressLimit: int := 0x1_0000_0000_0000_0000
  type UIntPtr = x: int | 0 <= x < AddressLimit

  /** What the generic view knows about its mapping. */
  datatype ViewState = ViewState(
    regionBase: UIntPtr,
    offsetOfRegionData: UIntPtr,
    regionSize: UIntPtr,
    isOpen: bool)

  /** The outcome of the generic Open: its boolean result and the view it leaves. */
  datatype OpenResult = OpenResult(ok: bool, after: ViewState)

  /**
   * OpenableRegionView::Open(name, domain) as an uninterpreted oracle: given
   * the requested name, the optional domain and the view's current state, it
   * decides the result and the new state.
   */
  type Mapper = (string, Option<string>, ViewState) -> OpenResult

  /** TypedRegionView<LayoutType>, with LayoutType::region_name as `regionName`. */
  class TypedRegionView {
    const regionName: string
    var regionBase: UIntPtr
    var offsetOfRegionData: UIntPtr
    var regionSize: UIntPtr
    var isOpen: bool
    /** Every name the generic Open has been asked for, in order. */
    ghost var requests: seq<string>

    function State(): ViewState
      reads this
    {
      ViewState(regionBase, offsetOfRegionData, regionSize, isOpen)
    }

    /** A view of the layout named `regionName`, not yet open. */
    constructor (regionName: string)
      ensures this.regionName == regionName
      ensures !isOpen && requests == []
    {
      this.regionName := regionName;
      regionBase, offsetOfRegionData, regionSize, isOpen := 0, 0, 0, false;
      requests := [];
    }

    /**
     * data(): the payload address, region base plus payload offset in
     * uintptr_t arithmetic, so a sum past the address space wraps. Nothing
     * about the open state or the region size is checked.
     */
    function Data(): (addr: UIntPtr)
      reads this
      ensures regionBase + offsetOfRegionData < AddressLimit ==> addr == regionBase + offsetOfRegionData
      ensures AddressLimit <= regionBase + offsetOfRegionData ==> addr == regionBase + offsetOfRegionData - AddressLimit
    {
      (regionBase + offsetOfRegionData) % AddressLimit
    }

    /** data() const: the same address as the non-const overload. */
    function ConstData(): (addr: UIntPtr)
      reads this
      ensures addr == Data()
    {
      (regionBase + offsetOfRegionData) % AddressLimit
    }

    /** OpenableRegionView::Open: asks the mapper for `name` and adopts its outcome. */
    method OpenNamed(name: string, domain: Option<string>, mapper: Mapper) returns (ok: bool)
      modifies this
      ensures ok == mapper(name, domain, old(State())).ok
      ensures State() == mapper(name, domain, old(State())).after
      ensures requests == old(requests) + [name]
    {
      var result := mapper(name, domain, State());
      regionBase := result.after.regionBase;
      offsetOfRegionData := result.after.offsetOfRegionData;
      regionSize := result.after.regionSize;
      isOpen := result.after.isOpen;
      requests := requests + [name];
      ok := result.ok;
    }

    /**
     * Open(domain): the generic Open for the layout's own name, whose result
     * and new state are passed through without further checks.
     */
    method Open(domain: Option<string>, mapper: Mapper) returns (ok: bool)
      modifies this
      ensures ok == mapper(regionName, domain, old(State())).ok
      ensures State() == mapper(regionName, domain, old(State())).after
      ensures requests == old(requests) + [regionName]
    {
      ok := OpenNamed(regionName, domain, mapper);
    }
  }

  /**
   * The payload address depends on the base and the offset alone: two views
   * that agree on those give the same address whether or not they are open
   * and whatever their sizes.
   */
  lemma DataIgnoresOpenState(v: TypedRegionView, w: TypedRegionView)
    requires v.regionBase == w.regionBase && v.offsetOfRegionData == w.offsetOfRegionData
    ensures v.Data() == w.Data() && v.ConstData() == w.ConstData()
  {
  }
}
