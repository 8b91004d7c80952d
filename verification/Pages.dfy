/** The wizard's pages: artifact selection with its catalog search, the
    parameter configuration page, and the resources page. Each page talks
    to the wizard through the wizard's setters. */
module Pages {
  import opened Values
  import opened Selection
  import opened Parameters
  import opened Requests
  import opened Paginator
  import opened CollectionWizard

  /** The search term that asks the catalog for every artifact. */
  const MatchAll := "..."

  /** The table's filter change, `filters.filters.name.filterVal`, with every
      level optional. */
  datatype ColumnFilter = ColumnFilter(filterVal: Option<string>)
  datatype FilterSet = FilterSet(name: Option<ColumnFilter>)
  datatype TableChange = TableChange(filters: Option<FilterSet>)

  /** `filters.filters.name.filterVal` when every level is present. */
  function FilterValue(change: Option<TableChange>): (value: Option<string>)
    ensures value.Some? <==>
              change.Some? && change.value.filters.Some? && change.value.filters.value.name.Some?
              && change.value.filters.value.name.value.filterVal.Some?
    ensures value.Some? ==> value == change.value.filters.value.name.value.filterVal
  {
    if change.Some? && change.value.filters.Some? && change.value.filters.value.name.Some?
    then change.value.filters.value.name.value.filterVal
    else None
  }

  /** `updateSearch`'s choice of term: the typed filter when there is one,
      otherwise the match-all sentinel. The catalog never receives an empty
      term. */
  function SearchTerm(change: Option<TableChange>): (term: string)
    ensures term != ""
    ensures TruthyString(FilterValue(change)) ==> term == FilterValue(change).value
    ensures !TruthyString(FilterValue(change)) ==> term == MatchAll
  {
    var value := FilterValue(change);
    if !TruthyString(value) then MatchAll else value.value
  }

  /** Clearing the filter, or having no filter at all, searches like the
      first search on mount. */
  lemma ClearedFilterMatchesAll(change: Option<TableChange>)
    requires FilterValue(change) == Some("") || FilterValue(change).None?
    ensures SearchTerm(change) == SearchTerm(None) == MatchAll
  {
  }

  /** The selection page's step links: locked while nothing is selected. */
  function SelectPaginator(artifacts: seq<Descriptor>): (items: seq<Item>)
    ensures |items| == |PaginationSteps|
    ensures forall i :: 0 <= i < |items| ==>
              ClickItem(items, i) == if artifacts == [] || i == 0 then None else Some(Click(false, i + 1))
  {
    MakePaginator(SelectBuilder, |artifacts| == 0, false)
  }

  /** The step shown after a click on the selection page (step 1): an
      empty selection stays there; a non-empty one reaches the clicked step. */
  lemma SelectPageLock(artifacts: seq<Descriptor>, i: nat)
    requires i < |PaginationSteps|
    ensures StepAfterClick(SelectPaginator(artifacts), 1, i) == if artifacts == [] || i == 0 then 1 else i + 1
  {
    FocusLocksNavigation(SelectBuilder, |artifacts| == 0, false, 1, i);
  }

  /** `NewCollectionSelectArtifacts`. */
  class SelectPage {
    /** The row last clicked; `None` before any click. */
    var selectedDescriptor: Option<Descriptor>
    /** The catalog's answer to the latest completed search. */
    var matchingDescriptors: seq<Descriptor>
    var loading: bool

    constructor ()
      ensures selectedDescriptor.None? && matchingDescriptors == [] && !loading
    {
      selectedDescriptor := None;
      matchingDescriptors := [];
      loading := false;
    }

    /** `doSearch(value)`: the search starts and the term goes to the catalog. */
    method DoSearch(value: string) returns (term: string)
      modifies this
      ensures term == value && loading
      ensures selectedDescriptor == old(selectedDescriptor) && matchingDescriptors == old(matchingDescriptors)
    {
      loading := true;
      term := value;
    }

    /** `componentDidMount`: the first search lists every artifact. */
    method Mount() returns (term: string)
      modifies this
      ensures term == MatchAll && loading
      ensures selectedDescriptor == old(selectedDescriptor) && matchingDescriptors == old(matchingDescriptors)
    {
      term := DoSearch(MatchAll);
    }

    /** `updateSearch`. */
    method UpdateSearch(change: Option<TableChange>) returns (term: string)
      modifies this
      ensures term == SearchTerm(change) && loading
      ensures selectedDescriptor == old(selectedDescriptor) && matchingDescriptors == old(matchingDescriptors)
    {
      var value := FilterValue(change);
      if !TruthyString(value) {
        term := DoSearch(MatchAll);
        return;
      }
      term := DoSearch(value.value);
    }

    /** The completion of a search: missing items count as none. */
    method OnSearchResponse(items: Option<seq<Descriptor>>)
      modifies this
      ensures matchingDescriptors == (if items.Some? then items.value else [])
      ensures !loading && selectedDescriptor == old(selectedDescriptor)
    {
      matchingDescriptors := if items.Some? then items.value else [];
      loading := false;
    }

    /** `onSelect`: the wizard's selection takes the row in or out, and the
        row becomes the one whose description is shown. */
    method OnSelect(w: Wizard, row: Descriptor, isSelect: bool)
      modifies this, w
      ensures w.artifacts == Selection.OnSelect(old(w.artifacts), row, isSelect)
      ensures w.parameters == old(w.parameters) && w.resources == old(w.resources)
      ensures w.originalFlow == old(w.originalFlow) && w.initializedFromParent == old(w.initializedFromParent)
      ensures selectedDescriptor == Some(row)
      ensures matchingDescriptors == old(matchingDescriptors) && loading == old(loading)
    {
      var newArtifacts: seq<Descriptor>;
      if isSelect {
        newArtifacts := AddArtifact(w.artifacts, row);
      } else {
        newArtifacts := RemoveArtifact(w.artifacts, row.name);
      }
      w.SetArtifacts(newArtifacts);
      selectedDescriptor := Some(row);
    }
  }

  /** `NewCollectionConfigParameters.setValue`: the wizard's parameter object
      is written in place and handed back to the wizard. */
  method ConfigSetValue(w: Wizard, name: string, value: string)
    modifies w, w.parameters
    ensures w.parameters == old(w.parameters)
    ensures w.parameters.Get(name) == Some(value)
    ensures forall k :: k != name ==> w.parameters.Get(k) == old(w.parameters.Get(k))
    ensures forall i :: 0 <= i < |old(w.parameters.entries)| && old(w.parameters.entries)[i].0 == name ==>
              w.parameters.entries == old(w.parameters.entries)[i := (name, value)]
    ensures !HasKey(old(w.parameters.entries), name) ==> w.parameters.entries == old(w.parameters.entries) + [(name, value)]
    ensures w.artifacts == old(w.artifacts) && w.resources == old(w.resources)
    ensures w.originalFlow == old(w.originalFlow) && w.initializedFromParent == old(w.initializedFromParent)
  {
    var parameters := w.parameters;
    parameters.SetValue(name, value);
    w.SetParameters(parameters);
  }

  /** The configuration page's trash button: the artifact leaves the
      selection. */
  method ConfigRemoveArtifact(w: Wizard, name: string)
    modifies w
    ensures w.artifacts == RemoveArtifact(old(w.artifacts), name)
    ensures w.parameters == old(w.parameters) && w.resources == old(w.resources)
    ensures w.originalFlow == old(w.originalFlow) && w.initializedFromParent == old(w.initializedFromParent)
  {
    w.SetArtifacts(RemoveArtifact(w.artifacts, name));
  }

  /** The four fields of the resources page. */
  datatype Limit = OpsPerSecond | Timeout | MaxRows | MaxMbytes

  /** `NewCollectionResources`. */
  class ResourcesPage {
    var initializedFromParent: bool
    var opsPerSecond: Option<int>
    var timeout: Option<int>
    var maxRows: Option<int>
    var maxMbytes: Option<real>
    /** Each field's widget reports whether its text is invalid. */
    var invalid1: bool
    var invalid2: bool
    var invalid3: bool
    var invalid4: bool

    constructor ()
      ensures !initializedFromParent && Snapshot() == NoResources
      ensures !invalid1 && !invalid2 && !invalid3 && !invalid4
    {
      initializedFromParent := false;
      opsPerSecond, timeout, maxRows, maxMbytes := None, None, None, None;
      invalid1, invalid2, invalid3, invalid4 := false, false, false, false;
    }

    /** The limits this page would commit. */
    function Snapshot(): (res: Resources)
      reads this
    {
      Resources(opsPerSecond, timeout, maxRows, maxMbytes)
    }

    /** The invalid flag of one field. */
    function Invalid(which: Limit): (invalid: bool)
      reads this
    {
      match which
      case OpsPerSecond => invalid1
      case Timeout => invalid2
      case MaxRows => invalid3
      case MaxMbytes => invalid4
    }

    /** `isInvalid`: some field is invalid. */
    function IsInvalid(): (r: bool)
      reads this
      ensures r <==> exists which: Limit :: Invalid(which)
    {
      assert Invalid(OpsPerSecond) == invalid1 && Invalid(Timeout) == invalid2;
      assert Invalid(MaxRows) == invalid3 && Invalid(MaxMbytes) == invalid4;
      invalid1 || invalid2 || invalid3 || invalid4
    }

    /** `initFromParent`: the first call that sees a request loads its
        limits; every later call changes nothing. */
    method InitFromParent(request: Option<FlowRequest>)
      modifies this
      ensures old(initializedFromParent) || request.None? ==> unchanged(this)
      ensures !old(initializedFromParent) && request.Some? ==>
                initializedFromParent && Snapshot() == ResourcesFromRequest(request.value)
      ensures invalid1 == old(invalid1) && invalid2 == old(invalid2)
      ensures invalid3 == old(invalid3) && invalid4 == old(invalid4)
    {
      if request.Some? && !initializedFromParent {
        var q := request.value;
        initializedFromParent := true;
        opsPerSecond := q.opsPerSecond;
        timeout := q.timeout;
        maxRows := q.maxRows;
        var bytes := if q.maxUploadBytes.Some? then q.maxUploadBytes.value else 0;
        maxMbytes := Some(bytes as real / 1024.0 / 1024.0);
      }
    }

    /** A field's widget reports a new value. */
    method SetLimit(which: Limit, value: Option<int>)
      modifies this
      ensures Snapshot() == match which
        case OpsPerSecond => old(Snapshot()).(opsPerSecond := value)
        case Timeout => old(Snapshot()).(timeout := value)
        case MaxRows => old(Snapshot()).(maxRows := value)
        case MaxMbytes => old(Snapshot()).(maxMbytes := if value.Some? then Some(value.value as real) else None)
      ensures initializedFromParent == old(initializedFromParent)
      ensures invalid1 == old(invalid1) && invalid2 == old(invalid2)
      ensures invalid3 == old(invalid3) && invalid4 == old(invalid4)
    {
      match which
      case OpsPerSecond => opsPerSecond := value;
      case Timeout => timeout := value;
      case MaxRows => maxRows := value;
      case MaxMbytes => maxMbytes := if value.Some? then Some(value.value as real) else None;
    }

    /** A field's widget reports whether its text is invalid. */
    method SetInvalid(which: Limit, flag: bool)
      modifies this
      ensures invalid1 == (if which == OpsPerSecond then flag else old(invalid1))
      ensures invalid2 == (if which == Timeout then flag else old(invalid2))
      ensures invalid3 == (if which == MaxRows then flag else old(invalid3))
      ensures invalid4 == (if which == MaxMbytes then flag else old(invalid4))
      ensures Snapshot() == old(Snapshot()) && initializedFromParent == old(initializedFromParent)
    {
      match which
      case OpsPerSecond => invalid1 := flag;
      case Timeout => invalid2 := flag;
      case MaxRows => invalid3 := flag;
      case MaxMbytes => invalid4 := flag;
    }

    /** The page's step links: locked while any field is invalid, and
        leaving the page commits its limits. */
    function StepLinks(): (items: seq<Item>)
      reads this
      ensures |items| == |PaginationSteps|
      ensures forall i :: 0 <= i < |items| ==>
                ClickItem(items, i) == if IsInvalid() || i == 2 then None else Some(Click(true, i + 1))
    {
      MakePaginator(ResourcesBuilder, IsInvalid(), true)
    }

    /** `onBlur`: the page's limits become the wizard's. */
    method Blur(w: Wizard)
      modifies w
      ensures w.resources == Snapshot()
      ensures w.artifacts == old(w.artifacts) && w.parameters == old(w.parameters)
      ensures w.originalFlow == old(w.originalFlow) && w.initializedFromParent == old(w.initializedFromParent)
    {
      w.SetResources(Snapshot());
    }

    /** A click on step link `i`: a link that acts commits the limits and
        then moves to its step; any other click changes nothing. */
    method ClickStep(w: Wizard, i: nat) returns (target: Option<nat>)
      requires i < |PaginationSteps|
      modifies w
      ensures target.None? <==> ClickItem(StepLinks(), i).None?
      ensures target.Some? ==> target.value == i + 1 && w.resources == Snapshot()
      ensures target.None? ==> unchanged(w)
      ensures w.artifacts == old(w.artifacts) && w.parameters == old(w.parameters)
      ensures w.originalFlow == old(w.originalFlow) && w.initializedFromParent == old(w.initializedFromParent)
    {
      var click := ClickItem(StepLinks(), i);
      target := None;
      if click.Some? {
        if click.value.runsBlur {
          Blur(w);
        }
        target := Some(click.value.target);
      }
    }
  }

  /** The step shown after a click on the resources page (step 3): while a
      field is invalid it stays there; otherwise it reaches the clicked step. */
  lemma ResourcesPageLock(p: ResourcesPage, i: nat)
    requires i < |PaginationSteps|
    ensures StepAfterClick(p.StepLinks(), 3, i) == if p.IsInvalid() || i == 2 then 3 else i + 1
  {
    FocusLocksNavigation(ResourcesBuilder, p.IsInvalid(), true, 3, i);
  }
}
