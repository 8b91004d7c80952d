/** Two runs of the wizard, composed from the components' contracts alone. */
module Scenarios {
  import opened Values
  import opened Selection
  import opened Parameters
  import opened Requests
  import opened CollectionWizard
  import opened Pages

  /** A new collection is filled in: select one artifact, set one
      parameter, set a timeout on the resources page and leave it for the
      review step. */
  method FillInNewCollection() returns (w: Wizard)
    ensures w.artifacts == [Descriptor("Generic.Client.Info", [])]
    ensures w.parameters.entries == [("Key1", "Val1")]
    ensures w.resources == NoResources.(timeout := Some(600))
  {
    w := new Wizard();
    var select := new SelectPage();
    var info := Descriptor("Generic.Client.Info", []);
    select.OnSelect(w, info, true);
    assert w.artifacts == [info];

    ConfigSetValue(w, "Key1", "Val1");
    assert w.parameters.entries == [("Key1", "Val1")];

    var resources := new ResourcesPage();
    resources.SetLimit(Timeout, Some(600));
    var target := resources.ClickStep(w, 3);
    assert target == Some(4);
  }

  /** The filled-in collection is launched: the request delivered is the
      one the scenario expects. */
  method NewCollectionRun() returns (r: Request)
    ensures r == Request(["Generic.Client.Info"], RequestParameters([KeyValue("Key1", "Val1")]),
                         None, Some(600), None, None)
  {
    var w := FillInNewCollection();
    var launch := new LaunchStep(false);
    var delivered := launch.DidUpdate(w, true);
    r := delivered.value;
    NewCollectionRequest(Descriptor("Generic.Client.Info", []));
  }

  /** The request that the state of `NewCollectionRun` stands for. */
  lemma NewCollectionRequest(info: Descriptor)
    requires info.name == "Generic.Client.Info"
    ensures AssembleRequest([info], [("Key1", "Val1")], NoResources.(timeout := Some(600)))
         == Request(["Generic.Client.Info"], RequestParameters([KeyValue("Key1", "Val1")]), None, Some(600), None, None)
  {
    var r := AssembleRequest([info], [("Key1", "Val1")], NoResources.(timeout := Some(600)));
    assert r.artifacts == ["Generic.Client.Info"];
    assert r.parameters.env == [KeyValue("Key1", "Val1")];
  }

  /** Editing a flow: the base request's artifact is looked up by name, and
      the answer replaces the selection and the parameters; the lookup is
      not started again on later updates. */
  method EditModeRun() returns (again: Option<seq<string>>, selection: seq<Descriptor>, params: seq<(string, string)>)
    ensures again.None?
    ensures selection == [Descriptor("A", [ParamSpec("p", None)])]
    ensures params == [("p", "v")]
  {
    var w := new Wizard();
    var q := FlowRequest(Some(["A"]), [("p", "v")], None, None, None, None);
    var base := Some(Flow(Some(q)));
    var lookup := w.InitializeFromBaseFlow(base);
    assert lookup == Some(["A"]);
    again := w.ComponentDidUpdate(base);

    var a := Descriptor("A", [ParamSpec("p", None)]);
    w.OnArtifactsResolved(q, Some(LookupResponse(Some([a]))));
    selection, params := w.artifacts, w.parameters.entries;
  }

  /** Editing a flow whose request sets a timeout: the resources page loads
      the limit, but the wizard holds it only once the page is left through
      one of its step links. Launched before that, the request carries no
      timeout. */
  method EditModeLimitsNotCommitted() returns (page: ResourcesPage, r: Request)
    ensures page.timeout == Some(600)
    ensures r.timeout.None?
  {
    var w := new Wizard();
    var q := FlowRequest(Some(["A"]), [], None, Some(600), None, None);
    var lookup := w.InitializeFromBaseFlow(Some(Flow(Some(q))));
    w.OnArtifactsResolved(q, Some(LookupResponse(Some([Descriptor("A", [])]))));
    page := new ResourcesPage();
    page.InitFromParent(w.originalFlow.value.request);
    var launch := new LaunchStep(false);
    var delivered := launch.DidUpdate(w, true);
    r := delivered.value;
  }
}
