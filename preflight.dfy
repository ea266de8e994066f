/**
 * The pre-flight run: walk the plan's resource changes in order, validate every selected one
 * with the deployment-validate endpoint, and collect one diagnostic record per rejection.
 */
module Preflight {
  import opened Wrappers
  import opened PlanData
  import opened Classifier
  import opened Synthesis

  /** The resource group every dry-run deployment is validated against. */
  const ResourceGroup := "preflight-rg"

  /**
   * run_arm_validate, seen from outside: (subscription, resource group, location, template)
   * to (success, message). Token acquisition, the generated deployment name and the HTTP POST
   * are behind it. A non-200 response whose JSON body is an object comes back as false,
   * whether it is a provider rejection or an authorization refusal; exceptions raised inside
   * are not modelled.
   */
  type Validator = (string, string, Value, Template) -> (bool, string)

  /** One validate-only call issued by the run. */
  datatype Request = Request(subscription: string, resourceGroup: string, location: Value, template: Template)

  /** One entry of `errors`: the failed resource's address, its context and the message. */
  datatype FailureRecord = FailureRecord(address: string, location: Value, sku: Value, zones: Value, message: string)

  /** `after.get("sku_name") or after.get("sku") or "unknown"` */
  function ReportedSku(after: map<string, Value>): (v: Value)
    ensures Truthy(v)
    ensures "sku_name" in after && Truthy(after["sku_name"]) ==> v == after["sku_name"]
    ensures !("sku_name" in after && Truthy(after["sku_name"])) && "sku" in after && Truthy(after["sku"]) ==>
      v == after["sku"]
    ensures v == Str("unknown") || ("sku_name" in after && v == after["sku_name"]) || ("sku" in after && v == after["sku"])
  {
    var name := Get(after, "sku_name", Null);
    if Truthy(name) then name
    else
      var sku := Get(after, "sku", Null);
      if Truthy(sku) then sku else Str("unknown")
  }

  /** `after.get("zones", [])`, shown as "none" when it is empty or otherwise falsy. */
  function ReportedZones(after: map<string, Value>): (v: Value)
    ensures Truthy(v)
    ensures "zones" in after && Truthy(after["zones"]) ==> v == after["zones"]
    ensures v == Str("none") || ("zones" in after && v == after["zones"])
  {
    var zones := Get(after, "zones", Arr([]));
    if Truthy(zones) then zones else Str("none")
  }

  /** Every type the classifier selects has a row in the synthesis case table, and conversely. */
  lemma HighRiskAreSupported(kind: string)
    ensures kind in HighRiskResources <==> kind in SupportedKinds
  {
  }

  /** A selected change is always synthesized: the ValueError branch is never reached from the run. */
  lemma SelectedNeverUnknown(c: Change)
    requires IsInScope(c)
    ensures GenerateArmTemplate(c).Ok?
  {
    HighRiskAreSupported(c.kind);
  }

  /** The template synthesized for a selected change. */
  function TemplateFor(c: Change): Template
    requires IsInScope(c)
  {
    SelectedNeverUnknown(c);
    GenerateArmTemplate(c).value
  }

  /** The validate call for a selected change, located where its template is. */
  function RequestFor(c: Change, subscription: string): (q: Request)
    requires IsInScope(c)
    ensures q.location == ResolveLocation(c.after)
  {
    var t := TemplateFor(c);
    Request(subscription, ResourceGroup, t.resources[0].location, t)
  }

  function Call(validate: Validator, q: Request): (bool, string) {
    validate(q.subscription, q.resourceGroup, q.location, q.template)
  }

  /** A selected change whose validation came back false. */
  predicate Rejected(c: Change, subscription: string, validate: Validator) {
    IsInScope(c) && !Call(validate, RequestFor(c, subscription)).0
  }

  /** The record the run appends for a rejected change. */
  function RecordFor(c: Change, subscription: string, validate: Validator): (r: FailureRecord)
    requires IsInScope(c)
    ensures r.address == c.address
    ensures r.location == ResolveLocation(c.after)
  {
    var q := RequestFor(c, subscription);
    FailureRecord(c.address, q.location, ReportedSku(c.after), ReportedZones(c.after), Call(validate, q).1)
  }

  /** What one change adds to `errors`. */
  function EntriesFor(c: Change, subscription: string, validate: Validator): seq<FailureRecord> {
    if Rejected(c, subscription, validate) then [RecordFor(c, subscription, validate)] else []
  }

  /** What one change adds to the calls issued. */
  function IssuedFor(c: Change, subscription: string): seq<Request> {
    if IsInScope(c) then [RequestFor(c, subscription)] else []
  }

  /** `errors` after the run has processed the changes `plan`. */
  function FailuresOf(plan: seq<Change>, subscription: string, validate: Validator): seq<FailureRecord>
    decreases |plan|
  {
    if plan == [] then []
    else FailuresOf(plan[..|plan| - 1], subscription, validate) + EntriesFor(plan[|plan| - 1], subscription, validate)
  }

  /** The validate calls the run has issued after processing the changes `plan`. */
  function RequestsOf(plan: seq<Change>, subscription: string): seq<Request>
    decreases |plan|
  {
    if plan == [] then []
    else RequestsOf(plan[..|plan| - 1], subscription) + IssuedFor(plan[|plan| - 1], subscription)
  }

  /**
   * The main loop. `errors` gets one record per selected change that the validator rejects,
   * in plan order; the run passes iff `errors` is empty. `requests` are the calls issued.
   */
  method RunPreflight(plan: seq<Change>, subscription: string, validate: Validator)
    returns (errors: seq<FailureRecord>, passed: bool, ghost requests: seq<Request>)
    ensures errors == FailuresOf(plan, subscription, validate)
    ensures requests == RequestsOf(plan, subscription)
    ensures passed <==> forall i :: 0 <= i < |plan| ==> !Rejected(plan[i], subscription, validate)
    ensures passed <==> errors == []
  {
    errors, requests := [], [];
    for i := 0 to |plan|
      invariant errors == FailuresOf(plan[..i], subscription, validate)
      invariant requests == RequestsOf(plan[..i], subscription)
    {
      var resource := plan[i];
      if resource.kind in HighRiskResources && ActionSet(resource) * ValidActions != {} {
        SelectedNeverUnknown(resource);
        var template := GenerateArmTemplate(resource).value;
        var location := template.resources[0].location;
        var sku := ReportedSku(resource.after);
        var zones := ReportedZones(resource.after);
        var outcome := validate(subscription, ResourceGroup, location, template);
        requests := requests + [Request(subscription, ResourceGroup, location, template)];
        if !outcome.0 {
          errors := errors + [FailureRecord(resource.address, location, sku, zones, outcome.1)];
        }
      }
      assert plan[..i + 1][..i] == plan[..i];
    }
    assert plan[..|plan|] == plan;
    PassIffAllAccepted(plan, subscription, validate);
    passed := errors == [];
  }

  /** Processing two stretches of plan one after the other concatenates their records. */
  lemma {:induction false} FailuresOfAppend(p: seq<Change>, q: seq<Change>, subscription: string, validate: Validator)
    ensures FailuresOf(p + q, subscription, validate) == FailuresOf(p, subscription, validate) + FailuresOf(q, subscription, validate)
    decreases |q|
  {
    if q == [] {
      assert p + q == p;
    } else {
      var q', x := q[..|q| - 1], q[|q| - 1];
      assert (p + q)[..|p + q| - 1] == p + q';
      assert (p + q)[|p + q| - 1] == x;
      FailuresOfAppend(p, q', subscription, validate);
    }
  }

  /** The same for the calls issued. */
  lemma {:induction false} RequestsOfAppend(p: seq<Change>, q: seq<Change>, subscription: string)
    ensures RequestsOf(p + q, subscription) == RequestsOf(p, subscription) + RequestsOf(q, subscription)
    decreases |q|
  {
    if q == [] {
      assert p + q == p;
    } else {
      var q', x := q[..|q| - 1], q[|q| - 1];
      assert (p + q)[..|p + q| - 1] == p + q';
      assert (p + q)[|p + q| - 1] == x;
      RequestsOfAppend(p, q', subscription);
    }
  }

  /** A one-change plan produces exactly that change's entries. */
  lemma FailuresOfSingle(c: Change, subscription: string, validate: Validator)
    ensures FailuresOf([c], subscription, validate) == EntriesFor(c, subscription, validate)
  {
    assert [c][..0] == [];
  }

  /** The verdict: no records iff no selected change was rejected. */
  lemma {:induction false} PassIffAllAccepted(plan: seq<Change>, subscription: string, validate: Validator)
    ensures FailuresOf(plan, subscription, validate) == [] <==>
      forall i :: 0 <= i < |plan| ==> !Rejected(plan[i], subscription, validate)
    decreases |plan|
  {
    if plan != [] {
      var init := plan[..|plan| - 1];
      PassIffAllAccepted(init, subscription, validate);
      assert forall i :: 0 <= i < |init| ==> init[i] == plan[i];
    }
  }

  /**
   * A rejected change gets its record, and at the position equal to the number of records
   * the changes before it produced.
   */
  lemma FailureReportedAt(plan: seq<Change>, i: nat, subscription: string, validate: Validator)
    requires i < |plan| && Rejected(plan[i], subscription, validate)
    ensures |FailuresOf(plan[..i], subscription, validate)| < |FailuresOf(plan, subscription, validate)|
    ensures FailuresOf(plan, subscription, validate)[|FailuresOf(plan[..i], subscription, validate)|] ==
      RecordFor(plan[i], subscription, validate)
  {
    assert plan == (plan[..i] + [plan[i]]) + plan[i + 1..];
    FailuresOfAppend(plan[..i] + [plan[i]], plan[i + 1..], subscription, validate);
    FailuresOfAppend(plan[..i], [plan[i]], subscription, validate);
    assert FailuresOf([plan[i]], subscription, validate) == EntriesFor(plan[i], subscription, validate) by {
      assert [plan[i]][..0] == [];
    }
  }

  /** Every record comes from exactly the rejected change whose predecessors produced k records. */
  lemma {:induction false} FailureEntrySource(plan: seq<Change>, k: nat, subscription: string, validate: Validator)
    requires k < |FailuresOf(plan, subscription, validate)|
    ensures exists i ::
              && 0 <= i < |plan| && Rejected(plan[i], subscription, validate)
              && |FailuresOf(plan[..i], subscription, validate)| == k
              && FailuresOf(plan, subscription, validate)[k] == RecordFor(plan[i], subscription, validate)
    decreases |plan|
  {
    var init, last := plan[..|plan| - 1], plan[|plan| - 1];
    if k < |FailuresOf(init, subscription, validate)| {
      FailureEntrySource(init, k, subscription, validate);
      var i :| 0 <= i < |init| && Rejected(init[i], subscription, validate) &&
        |FailuresOf(init[..i], subscription, validate)| == k &&
        FailuresOf(init, subscription, validate)[k] == RecordFor(init[i], subscription, validate);
      assert init[..i] == plan[..i];
      assert init[i] == plan[i];
    } else {
      assert plan[..|plan| - 1] == init;
    }
  }

  /** Records appear in plan order: an earlier rejected change is reported at an earlier position. */
  lemma FailuresInPlanOrder(plan: seq<Change>, i: nat, j: nat, subscription: string, validate: Validator)
    requires i < j < |plan|
    requires Rejected(plan[i], subscription, validate) && Rejected(plan[j], subscription, validate)
    ensures |FailuresOf(plan[..i], subscription, validate)| < |FailuresOf(plan[..j], subscription, validate)|
  {
    assert plan[..j] == (plan[..i] + [plan[i]]) + plan[i + 1..j];
    FailuresOfAppend(plan[..i] + [plan[i]], plan[i + 1..j], subscription, validate);
    FailuresOfAppend(plan[..i], [plan[i]], subscription, validate);
    assert [plan[i]][..0] == [];
  }

  /** No more records than calls, and no more calls than changes in the plan. */
  lemma {:induction false} FailuresBoundedByCalls(plan: seq<Change>, subscription: string, validate: Validator)
    ensures |FailuresOf(plan, subscription, validate)| <= |RequestsOf(plan, subscription)| <= |plan|
    decreases |plan|
  {
    if plan != [] {
      FailuresBoundedByCalls(plan[..|plan| - 1], subscription, validate);
    }
  }

  /** A plan with nothing selected passes with no call to the validator. */
  lemma {:induction false} NothingSelectedPasses(plan: seq<Change>, subscription: string, validate: Validator)
    requires forall i :: 0 <= i < |plan| ==> !IsInScope(plan[i])
    ensures FailuresOf(plan, subscription, validate) == []
    ensures RequestsOf(plan, subscription) == []
    decreases |plan|
  {
    if plan != [] {
      var init := plan[..|plan| - 1];
      assert forall i :: 0 <= i < |init| ==> init[i] == plan[i];
      NothingSelectedPasses(init, subscription, validate);
    }
  }

  /** A selected change's call sits at the position fixed by the calls before it. */
  lemma RequestIssuedAt(plan: seq<Change>, i: nat, subscription: string)
    requires i < |plan| && IsInScope(plan[i])
    ensures |RequestsOf(plan[..i], subscription)| < |RequestsOf(plan, subscription)|
    ensures RequestsOf(plan, subscription)[|RequestsOf(plan[..i], subscription)|] == RequestFor(plan[i], subscription)
  {
    assert plan == (plan[..i] + [plan[i]]) + plan[i + 1..];
    RequestsOfAppend(plan[..i] + [plan[i]], plan[i + 1..], subscription);
    RequestsOfAppend(plan[..i], [plan[i]], subscription);
    assert RequestsOf([plan[i]], subscription) == IssuedFor(plan[i], subscription) by {
      assert [plan[i]][..0] == [];
    }
  }

  /** Every call is the call of a selected change whose predecessors issued exactly k calls. */
  lemma {:induction false} RequestEntrySource(plan: seq<Change>, k: nat, subscription: string)
    requires k < |RequestsOf(plan, subscription)|
    ensures exists i ::
              && 0 <= i < |plan| && IsInScope(plan[i])
              && |RequestsOf(plan[..i], subscription)| == k
              && RequestsOf(plan, subscription)[k] == RequestFor(plan[i], subscription)
    decreases |plan|
  {
    var init := plan[..|plan| - 1];
    if k < |RequestsOf(init, subscription)| {
      RequestEntrySource(init, k, subscription);
      var i :| 0 <= i < |init| && IsInScope(init[i]) &&
        |RequestsOf(init[..i], subscription)| == k &&
        RequestsOf(init, subscription)[k] == RequestFor(init[i], subscription);
      assert init[..i] == plan[..i];
      assert init[i] == plan[i];
    } else {
      assert plan[..|plan| - 1] == init;
    }
  }

  /** Calls are issued in plan order: an earlier selected change is validated at an earlier position. */
  lemma RequestsInPlanOrder(plan: seq<Change>, i: nat, j: nat, subscription: string)
    requires i < j < |plan|
    requires IsInScope(plan[i]) && IsInScope(plan[j])
    ensures |RequestsOf(plan[..i], subscription)| < |RequestsOf(plan[..j], subscription)|
  {
    assert plan[..j] == (plan[..i] + [plan[i]]) + plan[i + 1..j];
    RequestsOfAppend(plan[..i] + [plan[i]], plan[i + 1..j], subscription);
    RequestsOfAppend(plan[..i], [plan[i]], subscription);
    assert [plan[i]][..0] == [];
  }

  /** A change that is not selected (delete-only, no-op, unlisted type) adds no call. */
  lemma UnselectedGetsNoCall(plan: seq<Change>, i: nat, subscription: string)
    requires i < |plan| && !IsInScope(plan[i])
    ensures RequestsOf(plan[..i + 1], subscription) == RequestsOf(plan[..i], subscription)
  {
    assert plan[..i + 1][..i] == plan[..i];
  }

  /**
   * Where the plan names the SKU, the report shows the SKU the template was validated with:
   * `sku_name` for firewalls and application gateways, `sku` for load balancers.
   */
  lemma ReportedSkuMatchesTemplate(c: Change)
    requires IsInScope(c)
    requires
      || ((c.kind == "azurerm_firewall" || c.kind == "azurerm_application_gateway") &&
          "sku_name" in c.after && Truthy(c.after["sku_name"]))
      || (c.kind == "azurerm_lb" && !("sku_name" in c.after && Truthy(c.after["sku_name"])) &&
          "sku" in c.after && Truthy(c.after["sku"]))
    ensures TemplateFor(c).resources[0].sku.Some?
    ensures ReportedSku(c.after) == TemplateFor(c).resources[0].sku.value.name
  {
    DescriptorPerKind(c);
  }

  /**
   * Where the report and the template read different keys: a load balancer with a truthy
   * `sku_name` reports it although its template carries `sku`; a firewall or gateway without
   * `sku_name` is validated with the kind's default although the report shows `sku` or "unknown";
   * a firewall or gateway whose `sku_name` is present but falsy is validated with that falsy value
   * although the report shows `sku` or "unknown".
   */
  lemma ReportedSkuDivergesFromTemplate(c: Change)
    requires IsInScope(c)
    ensures c.kind == "azurerm_lb" && "sku_name" in c.after && Truthy(c.after["sku_name"]) ==>
      ReportedSku(c.after) == c.after["sku_name"] &&
      TemplateFor(c).resources[0].sku == Some(Sku(Get(c.after, "sku", Str("Standard")), None))
    ensures c.kind == "azurerm_firewall" && "sku_name" !in c.after ==>
      TemplateFor(c).resources[0].sku == Some(Sku(Str("AZFW_VNet"), Some("Standard"))) &&
      ReportedSku(c.after) == (if "sku" in c.after && Truthy(c.after["sku"]) then c.after["sku"] else Str("unknown"))
    ensures c.kind == "azurerm_application_gateway" && "sku_name" !in c.after ==>
      TemplateFor(c).resources[0].sku == Some(Sku(Str("WAF_v2"), Some("WAF"))) &&
      ReportedSku(c.after) == (if "sku" in c.after && Truthy(c.after["sku"]) then c.after["sku"] else Str("unknown"))
    ensures ((c.kind == "azurerm_firewall" || c.kind == "azurerm_application_gateway") &&
             "sku_name" in c.after && !Truthy(c.after["sku_name"])) ==>
      TemplateFor(c).resources[0].sku.Some? &&
      TemplateFor(c).resources[0].sku.value.name == c.after["sku_name"] &&
      ReportedSku(c.after) == (if "sku" in c.after && Truthy(c.after["sku"]) then c.after["sku"] else Str("unknown")) &&
      ReportedSku(c.after) != TemplateFor(c).resources[0].sku.value.name
  {
    DescriptorPerKind(c);
  }

  /** A concrete load balancer whose report names a SKU other than the one validated. */
  lemma LoadBalancerSkuDivergenceExample()
    ensures
      var c := Change("azurerm_lb", "azurerm_lb.web", ["create"],
                      map["sku_name" := Str("Basic"), "sku" := Str("Standard")]);
      IsInScope(c) && TemplateFor(c).resources[0].sku.Some? &&
      ReportedSku(c.after) != TemplateFor(c).resources[0].sku.value.name
  {
    var c := Change("azurerm_lb", "azurerm_lb.web", ["create"],
                    map["sku_name" := Str("Basic"), "sku" := Str("Standard")]);
    InScopeIff(c);
    ReportedSkuDivergesFromTemplate(c);
  }

  /** A plan with one load balancer being deleted passes without any call. */
  lemma DeletedLoadBalancerExample(subscription: string, validate: Validator)
    ensures
      var plan := [Change("azurerm_lb", "azurerm_lb.web", ["delete"], map[])];
      FailuresOf(plan, subscription, validate) == [] && RequestsOf(plan, subscription) == []
  {
    var plan := [Change("azurerm_lb", "azurerm_lb.web", ["delete"], map[])];
    NonMutatingActionsExcluded(plan[0]);
    NothingSelectedPasses(plan, subscription, validate);
  }

  /**
   * A firewall the validator rejects yields exactly one record, for its address, with the
   * message, and the change counts as rejected, so the run's verdict is fail.
   */
  lemma RejectedFirewallExample(subscription: string, validate: Validator)
    requires forall g, l, t :: validate(subscription, g, l, t) == (false, "{\"code\": \"SkuNotAvailable\"}")
    ensures
      var c := Change("azurerm_firewall", "azurerm_firewall.hub", ["create"],
                      map["location" := Str("westus"), "sku_name" := Str("AZFW_Hub")]);
      FailuresOf([c], subscription, validate) ==
        [FailureRecord("azurerm_firewall.hub", Str("westus"), Str("AZFW_Hub"), Str("none"),
                       "{\"code\": \"SkuNotAvailable\"}")] &&
      Rejected(c, subscription, validate)
  {
    var c := Change("azurerm_firewall", "azurerm_firewall.hub", ["create"],
                    map["location" := Str("westus"), "sku_name" := Str("AZFW_Hub")]);
    InScopeIff(c);
    FailuresOfSingle(c, subscription, validate);
  }
}
