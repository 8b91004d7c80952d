# New-collection wizard: a verified model of its state logic

Velociraptor's GUI opens a five-step wizard to launch a new collection (a
"flow") against a client: select artifacts, configure their parameters,
set resource limits, review the request, launch. The only logic in it,
apart from rendering, is the state it keeps and the request it builds:

- the ordered list of selected artifact descriptors, keyed by name
  (`add_artifact`, `remove_artifact`, `onSelect`), and the catalog search
  term (`updateSearch`);
- one flat parameter object shared by all selected artifacts (`setValue`),
  and the value a parameter field shows (stored value, else default, else
  empty);
- the resources page: four limits loaded once from a parent request
  (`initFromParent`), four invalid flags (`isInvalid`), and the commit of the
  limits when the page is left;
- the step links of every page (`makePaginator`): which link is active and
  which are locked;
- the wizard itself: edit-mode hydration from a base flow
  (`initializeFromBaseFlow`, `componentDidUpdate`), the request assembler
  (`prepareRequest`) and the launch step, which launches on a rising edge of
  `isActive`.

Files (one module each):

- `Values.dfy`: `Option` and JavaScript truthiness. A number is truthy when
  present and non-zero. A string is truthy when present and non-empty.
- `Selection.dfy`: descriptors, `AddArtifact`, `RemoveArtifact`, `OnSelect`
  and their algebra.
- `Parameters.dfy`: the parameter object as insertion-ordered entries with
  unique keys (`Dict`), reading (`Lookup`) and assigning (`Put`) a key, the `ParamMap` class the
  configuration page mutates in place, and the shown-value fallback.
- `Requests.dfy`: the inbound flow request, the resource limits, the
  outbound request, `AssembleRequest` (what `prepareRequest` computes) and
  `ResourcesFromRequest` (what `initFromParent` loads).
- `Paginator.dfy`: `PaginationBuilder.makePaginator` as a function, and the
  step widget's response to a click.
- `Wizard.dfy`: the `Wizard` class (the wizard component's state and
  setters, hydration, `PrepareRequest` with the source's two push loops) and
  the `LaunchStep` class.
- `Pages.dfy`: the selection page (`SelectPage`), the configuration page's
  handlers, and the resources page (`ResourcesPage`).
- `Scenarios.dfy`: a new collection and an edit, each run end to end
  through the components' contracts.

In `initializeFromBaseFlow` an empty `request.artifacts` array is truthy
in JavaScript, so it passes the guard at line 483: the flow is recorded, a
lookup is started, and an answer without items then changes nothing
(line 495).

The resource limits of an edited flow reach the wizard only through the
resources page. The page loads them from the request (`initFromParent`),
but they become the wizard's `resources` only when the page is left
through one of its step links (line 407). A request launched before that
carries none of them (`Scenarios.EditModeLimitsNotCommitted`).

## Model

| member | source | states |
|---|---|---|
| Selection.RemoveArtifact | gui/velociraptor/src/components/flows/new-collection.js:91-94 | every entry with the name is gone; every other entry keeps its multiplicity |
| Selection.RemoveKeepsMembers | gui/velociraptor/src/components/flows/new-collection.js:92-94 | everything kept was in the input and has another name |
| Selection.RemoveIsSubsequence | gui/velociraptor/src/components/flows/new-collection.js:92-94 | the kept entries stay in their original order |
| Selection.RemoveKeepsUnique | gui/velociraptor/src/components/flows/new-collection.js:92-94 | a list unique by name stays unique |
| Selection.RemoveAbsent | gui/velociraptor/src/components/flows/new-collection.js:92-94 | removing a name no entry has returns the list unchanged |
| Selection.RemoveIdempotent | gui/velociraptor/src/components/flows/new-collection.js:92-94 | removing twice equals removing once |
| Selection.RemoveAppend | gui/velociraptor/src/components/flows/new-collection.js:92-94 | removal distributes over concatenation |
| Selection.RemoveCommutes | gui/velociraptor/src/components/flows/new-collection.js:92-94 | removing two names in either order gives the same list |
| Selection.AddArtifact | gui/velociraptor/src/components/flows/new-collection.js:81-89 | the new descriptor is last and no other entry has its name; other names keep multiplicity and order; uniqueness by name is preserved |
| Selection.RemoveAfterAdd | gui/velociraptor/src/components/flows/new-collection.js:82-94 | remove(add(S, X), X.name) == remove(S, X.name) |
| Selection.AddIdempotent | gui/velociraptor/src/components/flows/new-collection.js:82-89 | add(add(S, X), X) == add(S, X) |
| Selection.AddCommutesWithOtherRemove | gui/velociraptor/src/components/flows/new-collection.js:82-94 | adding X leaves the entries of every other name as they were |
| Selection.OnSelect | gui/velociraptor/src/components/flows/new-collection.js:125-131 | the row's name is present exactly when selected; a selected row is last and the only entry with its name; entries of other names are unchanged |
| Selection.Names | gui/velociraptor/src/components/flows/new-collection.js:536-539 | one name per selected descriptor, in selection order; a name occurs exactly when some descriptor has it |
| Parameters.Lookup | gui/velociraptor/src/components/flows/new-collection.js:268 | a value is found exactly when some entry has the key, and it is that key's entry |
| Parameters.Put | gui/velociraptor/src/components/flows/new-collection.js:233 | after `dict[key] = value` the pair is present, and the entry count grows by one exactly when the key is new |
| Parameters.PutLookup | gui/velociraptor/src/components/flows/new-collection.js:233 | after `dict[key] = value` the key maps to the value and every other key keeps its value |
| Parameters.PutExisting | gui/velociraptor/src/components/flows/new-collection.js:233 | an existing key keeps its position and takes the new value; nothing else changes |
| Parameters.PutNew | gui/velociraptor/src/components/flows/new-collection.js:233 | a new key is appended after all existing entries |
| Parameters.PutShape | gui/velociraptor/src/components/flows/new-collection.js:233 | in a dictionary the assignment writes at the key's one position, or appends |
| Parameters.PutKeepsUnique | gui/velociraptor/src/components/flows/new-collection.js:233 | an assignment keeps keys unique |
| Parameters.ParamMap.SetValue | gui/velociraptor/src/components/flows/new-collection.js:231-235 | in place: map[name] == value, every other key unchanged; an existing key is updated at its position, a new one appended |
| Parameters.ParamMap.FromEntries | gui/velociraptor/src/components/flows/new-collection.js:497-500 | the new parameter object holds exactly the given entries |
| Parameters.ShownValue | gui/velociraptor/src/components/flows/new-collection.js:268 | stored value if truthy, else default if truthy, else ""; empty exactly when neither is truthy |
| Parameters.ShownValueAfterSet | gui/velociraptor/src/components/flows/new-collection.js:268 | after setting a non-empty value the field shows it; after setting "" it shows the default |
| Parameters.ShownValueOtherName | gui/velociraptor/src/components/flows/new-collection.js:268 | setting another name does not change what a field shows |
| Parameters.SharedNamespace | gui/velociraptor/src/components/flows/new-collection.js:266-273 | fields of the same name in different artifacts show the same stored value |
| Requests.OmitFalsy | gui/velociraptor/src/components/flows/new-collection.js:552-562 | a limit is present exactly when truthy, and then unchanged |
| Requests.Env | gui/velociraptor/src/components/flows/new-collection.js:542-545 | one {key, value} pair per entry, in the object's order; a pair occurs exactly when it is an entry |
| Requests.AssembleRequest | gui/velociraptor/src/components/flows/new-collection.js:535-569 | artifacts are the selection's names in order; env has one pair per entry in order; each limit is present iff truthy, copied unchanged; max_upload_bytes = max_mbytes * 1048576 |
| Requests.ResourcesFromRequest | gui/velociraptor/src/components/flows/new-collection.js:336-341 | ops_per_second, timeout and max_rows are copied from the request; max_mbytes * 1048576 equals its upload bytes, or 0 when absent |
| Requests.LimitsRoundTrip | gui/velociraptor/src/components/flows/new-collection.js:552-566 | loading a request's limits and assembling again returns every non-zero limit, upload bytes included, and drops zero or missing ones |
| Requests.TenMebibytes | gui/velociraptor/src/components/flows/new-collection.js:564-566 | 10485760 bytes load as 10 MiB, and 10 MiB is sent as 10485760 bytes |
| Requests.ArtifactsAreSelection | gui/velociraptor/src/components/flows/new-collection.js:536-539 | a name is sent exactly when a selected artifact has it |
| Requests.EnvMatchesParameters | gui/velociraptor/src/components/flows/new-collection.js:541-545 | env holds a key exactly when the parameter object does, with no key twice |
| Paginator.MakePaginator | gui/velociraptor/src/components/flows/new-collection.js:54-78 | one item per step; the page's own step is active and has no click; every other step is disabled exactly when the focus rule holds, and its click blurs and goes to step idx+1 |
| Paginator.FocusLocksNavigation | gui/velociraptor/src/components/flows/new-collection.js:46-78 | with the default rule a focused page cannot be left; an unfocused page can go to any other step |
| Paginator.BuildersMatchSteps | gui/velociraptor/src/components/flows/new-collection.js:584-604 | each page's builder activates exactly its own step |
| CollectionWizard.HydrationRequest | gui/velociraptor/src/components/flows/new-collection.js:482-485 | a request is used exactly when the base flow has one with an artifact list |
| CollectionWizard.ResolvedItems | gui/velociraptor/src/components/flows/new-collection.js:494-495 | an answer is used exactly when it has a non-empty item list |
| CollectionWizard.Wizard.constructor | gui/velociraptor/src/components/flows/new-collection.js:504-516 | the wizard starts with no flow, no selection, an empty parameter object and no limits |
| CollectionWizard.Wizard.SetArtifacts | gui/velociraptor/src/components/flows/new-collection.js:518-520 | replaces the selection only |
| CollectionWizard.Wizard.SetParameters | gui/velociraptor/src/components/flows/new-collection.js:522-524 | replaces the parameter object only |
| CollectionWizard.Wizard.SetResources | gui/velociraptor/src/components/flows/new-collection.js:526-528 | replaces the limits only |
| CollectionWizard.Wizard.InitializeFromBaseFlow | gui/velociraptor/src/components/flows/new-collection.js:481-493 | without a request carrying artifacts nothing changes; otherwise the flow is recorded, the flag is set and those names are looked up |
| CollectionWizard.Wizard.OnArtifactsResolved | gui/velociraptor/src/components/flows/new-collection.js:493-501 | a non-empty answer replaces the selection and the parameters; any other answer changes nothing |
| CollectionWizard.Wizard.ComponentDidUpdate | gui/velociraptor/src/components/flows/new-collection.js:475-479 | hydration is retried only while no flow is recorded and a base flow is present; when nothing is started the state is unchanged, and a hydration records the flow and sets initialized_from_parent |
| CollectionWizard.Wizard.PrepareRequest | gui/velociraptor/src/components/flows/new-collection.js:535-569 | the two push loops and four guards build exactly AssembleRequest of the state |
| CollectionWizard.Wizard.Launch | gui/velociraptor/src/components/flows/new-collection.js:531-533 | the request handed to the caller is the assembled one |
| CollectionWizard.LaunchStep.constructor | gui/velociraptor/src/components/flows/new-collection.js:447-451 | mounting records isActive and launches nothing |
| CollectionWizard.LaunchStep.DidUpdate | gui/velociraptor/src/components/flows/new-collection.js:453-457 | a request is delivered exactly on a false-to-true change of isActive, and it is the assembled one |
| CollectionWizard.Fires | gui/velociraptor/src/components/flows/new-collection.js:453-457 | the step fires only on a change of isActive, and on a change exactly when it becomes active |
| CollectionWizard.Launches | gui/velociraptor/src/components/flows/new-collection.js:453-457 | over a trace of isActive values there are at most as many launches as renders, and none unless the step is active at some point |
| CollectionWizard.Replay | gui/velociraptor/src/components/flows/new-collection.js:453-457 | feeding a trace to one launch step delivers Launches(trace) requests, each the assembled one, and the step remembers the last isActive, or its own when the trace is empty |
| CollectionWizard.LaunchIffActivated | gui/velociraptor/src/components/flows/new-collection.js:453-457 | starting inactive, some launch happens iff the step is ever active |
| CollectionWizard.MonotoneLaunchesOnce | gui/velociraptor/src/components/flows/new-collection.js:453-457 | if the step stays active once active, it launches at most once |
| CollectionWizard.StaysActiveNoLaunch | gui/velociraptor/src/components/flows/new-collection.js:453-457 | staying active never launches |
| CollectionWizard.InactiveNoLaunch | gui/velociraptor/src/components/flows/new-collection.js:453-457 | going to or staying inactive never launches |
| Pages.SearchTerm | gui/velociraptor/src/components/flows/new-collection.js:141-149 | the typed filter when truthy, else "..."; never empty |
| Pages.FilterValue | gui/velociraptor/src/components/flows/new-collection.js:142-143 | the filter value when every level of the table change is present, else none |
| Pages.ClearedFilterMatchesAll | gui/velociraptor/src/components/flows/new-collection.js:141-149 | a cleared or missing filter searches like the first search on mount |
| Pages.SelectPageLock | gui/velociraptor/src/components/flows/new-collection.js:211-214 | after a click the wizard shows step 1 again while the selection is empty, and the clicked step otherwise |
| Pages.SelectPaginator | gui/velociraptor/src/components/flows/new-collection.js:211-214 | with an empty selection no link acts; with a selection every link but its own goes to its step, without a blur |
| Pages.SelectPage.constructor | gui/velociraptor/src/components/flows/new-collection.js:110-119 | nothing shown, nothing matched, not loading |
| Pages.SelectPage.DoSearch | gui/velociraptor/src/components/flows/new-collection.js:151-154 | loading is set and the term goes to the catalog |
| Pages.SelectPage.Mount | gui/velociraptor/src/components/flows/new-collection.js:121-123 | the first search is "..." |
| Pages.SelectPage.UpdateSearch | gui/velociraptor/src/components/flows/new-collection.js:141-149 | the catalog receives SearchTerm of the change |
| Pages.SelectPage.OnSearchResponse | gui/velociraptor/src/components/flows/new-collection.js:155-158 | the matches become the answer's items, or none; loading ends |
| Pages.SelectPage.OnSelect | gui/velociraptor/src/components/flows/new-collection.js:125-135 | the wizard's selection becomes OnSelect of it; the row becomes the one described |
| Pages.ConfigSetValue | gui/velociraptor/src/components/flows/new-collection.js:231-235 | the wizard's own parameter object is written in place; map[name] == value, other keys unchanged, key order as in JavaScript |
| Pages.ConfigRemoveArtifact | gui/velociraptor/src/components/flows/new-collection.js:237-239 | the artifact leaves the wizard's selection |
| Pages.ResourcesPage.constructor | gui/velociraptor/src/components/flows/new-collection.js:317-323 | not initialised, no limits, no invalid flag |
| Pages.ResourcesPage.IsInvalid | gui/velociraptor/src/components/flows/new-collection.js:346-349 | the page is invalid exactly when one of its four fields is |
| Pages.ResourcesPage.StepLinks | gui/velociraptor/src/components/flows/new-collection.js:403-409 | while the page is invalid no link acts; otherwise every link but its own commits the limits and goes to its step |
| Pages.ResourcesPage.InitFromParent | gui/velociraptor/src/components/flows/new-collection.js:333-344 | the first call that sees a request loads ResourcesFromRequest and sets the flag; after that every call changes nothing |
| Pages.ResourcesPage.SetLimit | gui/velociraptor/src/components/flows/new-collection.js:366-399 | one field takes the widget's value, the others stay |
| Pages.ResourcesPage.SetInvalid | gui/velociraptor/src/components/flows/new-collection.js:365-398 | one invalid flag takes the widget's verdict, the others stay |
| Pages.ResourcesPage.Blur | gui/velociraptor/src/components/flows/new-collection.js:407 | the page's limits become the wizard's |
| Pages.ResourcesPage.ClickStep | gui/velociraptor/src/components/flows/new-collection.js:66-70 | a click that acts commits the limits, then moves to step idx+1, leaving the selection, parameters, recorded flow and flag alone; any other click changes nothing |
| Pages.ResourcesPageLock | gui/velociraptor/src/components/flows/new-collection.js:403-409 | after a click the wizard shows step 3 again while a field is invalid, and the clicked step otherwise |
| Scenarios.FillInNewCollection | gui/velociraptor/src/components/flows/new-collection.js:125-135 | selecting Generic.Client.Info, setting Key1=Val1 and timeout 600, then leaving the resources page, leaves exactly that selection, parameter object and limits in the wizard |
| Scenarios.NewCollectionRun | gui/velociraptor/src/components/flows/new-collection.js:531-569 | launching that wizard delivers exactly {artifacts: [Generic.Client.Info], env: [Key1=Val1], timeout: 600} |
| Scenarios.EditModeRun | gui/velociraptor/src/components/flows/new-collection.js:481-502 | hydrating from {artifacts: [A], parameters: {p: v}} yields selection [A] and parameters {p: v}, and a later update starts no second lookup |
| Scenarios.EditModeLimitsNotCommitted | gui/velociraptor/src/components/flows/new-collection.js:333-344 | editing a flow with timeout 600 loads the timeout into the resources page, yet a launch before the page is left sends no timeout |

## Left out

- Rendering: JSX, `Modal`, `BootstrapTable`, `StepWizard`, `VeloReportViewer`, `VeloAce`, the review page's `JSON.stringify` and the titles. They are UI and library code.
- The step widget is outside the model. Its current step is a parameter. A click on an active or disabled `Pagination.Item` is taken to do nothing; that is the widget library's behaviour.
- Network calls (`api.get`) are not modelled. The operations that start them return the term or the names they would send. Their completions are methods that take the answer as a parameter. Ordering between answers in flight is not modelled.
- React's `setState` is modelled as an immediate assignment. Batching and the asynchrony of state updates are not modelled.
- `onSelectAll` is left out. Under batched `setState` each `onSelect` reads the same stale selection, so the result is not a fold of adds and removes.
- `ValidatedInteger` is left out. Its validation is external, so the field values and invalid flags are inputs to `SetLimit` and `SetInvalid`.
- `parseInt(request.timeout)`: the timeout arrives already parsed. `NaN` and a missing value are both `None`; both are falsy.
- Floating point: `max_mbytes` and the outbound `max_upload_bytes` are exact `real`s, not IEEE doubles. So rounding for upload limits that are not whole mebibytes is not modelled.
- Prop wiring: the wizard passes `this.state.parameter_dict` (line 589), which it never sets, to the configuration page. The model wires the wizard's own parameter object there instead. The `this.loading` read at line 195 is not modelled either.
- A base flow's `request.parameters` is taken to be a flat key/value object. The object it stores is not aliased: hydration gives the wizard a fresh parameter object with the same entries. This assumption hides a possible behaviour. If a stored request had the outbound shape `{env: [...]}` that `prepareRequest` builds (lines 542-549), line 499 would put that object into the parameter object, and lines 543-545 would send it back as a single pair with key `env`.
- Parameters.Lookup and Parameters.Put see only stored entries. Names a JavaScript object inherits (`toString`, `constructor`, …) and the key `__proto__` are not modelled. A read of an inherited name (line 268) yields a function in JavaScript; here it yields nothing, so the default is shown. A write of `__proto__` (line 233) stores nothing in JavaScript; here it adds an entry that `prepareRequest` sends.
- JavaScript object key order is modelled as insertion order. Integer-like keys, which JavaScript lists first, are not modelled.
- Pages.ResourcesPage.Blur commits only the four limits, not the page's whole state object. `prepareRequest` reads nothing else from it.
- Cancelling through the dialog's `onHide` is not modelled; the caller's callback does it.
