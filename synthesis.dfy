/**
 * generate_arm_template: one plan change becomes a minimal Azure Resource Manager deployment
 * template holding exactly one resource, shaped by a per-kind case table.
 */
module Synthesis {
  import opened Wrappers
  import opened PlanData
  import opened Names

  const SchemaUri := "https://schema.management.azure.com/schemas/2019-04-01/deploymentTemplate.json#"
  const ContentVersion := "1.0.0.0"
  const ApiVersion := "2022-08-01"
  const DefaultLocation := "eastus"

  /** The `sku` object of a resource; `tier` is absent for load balancers. */
  datatype Sku = Sku(name: Value, tier: Option<string>)

  /** The one entry of `resources`; `sku` is absent for bastion hosts. */
  datatype ArmResource = ArmResource(
    providerType: string, apiVersion: string, name: string, location: Value, sku: Option<Sku>)

  datatype Template = Template(schema: string, contentVersion: string, resources: seq<ArmResource>)

  /** The ValueError raised for a type outside the case table. */
  datatype SynthesisError = UnknownResourceType(kind: string)

  /** The Terraform types the case table handles. */
  const SupportedKinds: set<string> :=
    {"azurerm_firewall", "azurerm_application_gateway", "azurerm_lb", "azurerm_bastion_host"}

  /** `after.get("location", "eastus")` */
  function ResolveLocation(after: map<string, Value>): (loc: Value)
    ensures "location" in after ==> loc == after["location"]
    ensures "location" !in after ==> loc == Str(DefaultLocation)
  {
    Get(after, "location", Str(DefaultLocation))
  }

  function GenerateArmTemplate(c: Change): (r: Result<Template, SynthesisError>)
    ensures r.Ok? <==> c.kind in SupportedKinds
    ensures r.Err? ==> r.error == UnknownResourceType(c.kind)
    ensures r.Ok? ==>
      r.value.schema == SchemaUri && r.value.contentVersion == ContentVersion &&
      |r.value.resources| == 1
    ensures r.Ok? ==>
      var res := r.value.resources[0];
      res.apiVersion == ApiVersion &&
      res.name == SanitizeName(c.address) &&
      '.' !in res.name && '[' !in res.name && ']' !in res.name &&
      ("location" in c.after ==> res.location == c.after["location"]) &&
      ("location" !in c.after ==> res.location == Str(DefaultLocation))
  {
    var name := SanitizeName(c.address);
    var location := ResolveLocation(c.after);
    var res := ArmResource("", ApiVersion, name, location, None);
    if c.kind == "azurerm_firewall" then
      var sku := Get(c.after, "sku_name", Str("AZFW_VNet"));
      Ok(Template(SchemaUri, ContentVersion,
        [res.(providerType := "Microsoft.Network/azureFirewalls", sku := Some(Sku(sku, Some("Standard"))))]))
    else if c.kind == "azurerm_application_gateway" then
      var sku := Get(c.after, "sku_name", Str("WAF_v2"));
      Ok(Template(SchemaUri, ContentVersion,
        [res.(providerType := "Microsoft.Network/applicationGateways", sku := Some(Sku(sku, Some("WAF"))))]))
    else if c.kind == "azurerm_lb" then
      var sku := Get(c.after, "sku", Str("Standard"));
      Ok(Template(SchemaUri, ContentVersion,
        [res.(providerType := "Microsoft.Network/loadBalancers", sku := Some(Sku(sku, None)))]))
    else if c.kind == "azurerm_bastion_host" then
      Ok(Template(SchemaUri, ContentVersion,
        [res.(providerType := "Microsoft.Network/bastionHosts")]))
    else
      Err(UnknownResourceType(c.kind))
  }

  /** The case table, kind by kind: provider type, and the SKU with its defaults. */
  lemma DescriptorPerKind(c: Change)
    ensures c.kind == "azurerm_firewall" ==>
      GenerateArmTemplate(c).Ok? &&
      GenerateArmTemplate(c).value.resources[0].providerType == "Microsoft.Network/azureFirewalls" &&
      GenerateArmTemplate(c).value.resources[0].sku ==
        Some(Sku(if "sku_name" in c.after then c.after["sku_name"] else Str("AZFW_VNet"), Some("Standard")))
    ensures c.kind == "azurerm_application_gateway" ==>
      GenerateArmTemplate(c).Ok? &&
      GenerateArmTemplate(c).value.resources[0].providerType == "Microsoft.Network/applicationGateways" &&
      GenerateArmTemplate(c).value.resources[0].sku ==
        Some(Sku(if "sku_name" in c.after then c.after["sku_name"] else Str("WAF_v2"), Some("WAF")))
    ensures c.kind == "azurerm_lb" ==>
      GenerateArmTemplate(c).Ok? &&
      GenerateArmTemplate(c).value.resources[0].providerType == "Microsoft.Network/loadBalancers" &&
      GenerateArmTemplate(c).value.resources[0].sku ==
        Some(Sku(if "sku" in c.after then c.after["sku"] else Str("Standard"), None))
    ensures c.kind == "azurerm_bastion_host" ==>
      GenerateArmTemplate(c).Ok? &&
      GenerateArmTemplate(c).value.resources[0].providerType == "Microsoft.Network/bastionHosts" &&
      GenerateArmTemplate(c).value.resources[0].sku == None
  {
  }

  /** The inverse of the case table on provider types. */
  function TerraformKindOf(providerType: string): Option<string> {
    if providerType == "Microsoft.Network/azureFirewalls" then Some("azurerm_firewall")
    else if providerType == "Microsoft.Network/applicationGateways" then Some("azurerm_application_gateway")
    else if providerType == "Microsoft.Network/loadBalancers" then Some("azurerm_lb")
    else if providerType == "Microsoft.Network/bastionHosts" then Some("azurerm_bastion_host")
    else None
  }

  /**
   * The descriptor identifies its Terraform kind: distinct kinds never share a provider type,
   * so the type is recovered from the template.
   */
  lemma TemplateRecoversKind(c: Change)
    requires GenerateArmTemplate(c).Ok?
    ensures TerraformKindOf(GenerateArmTemplate(c).value.resources[0].providerType) == Some(c.kind)
  {
  }

  /**
   * The descriptor is minimal: a SKU only where the kind's rule calls for one, a tier only for
   * firewalls and application gateways, and no SKU value that the plan did not give unless it
   * is the kind's default.
   */
  lemma DescriptorIsMinimal(c: Change)
    requires GenerateArmTemplate(c).Ok?
    ensures var res := GenerateArmTemplate(c).value.resources[0];
      (res.sku.None? <==> c.kind == "azurerm_bastion_host") &&
      (res.sku.Some? ==> (res.sku.value.tier.Some? <==> c.kind != "azurerm_lb")) &&
      (res.sku.Some? ==>
        res.sku.value.name in c.after.Values ||
        res.sku.value.name in {Str("AZFW_VNet"), Str("WAF_v2"), Str("Standard")})
  {
  }

  /** A type outside the table never yields a partially filled descriptor. */
  lemma UnknownKindRejected(c: Change)
    requires c.kind !in SupportedKinds
    ensures GenerateArmTemplate(c) == Err(UnknownResourceType(c.kind))
  {
  }

  /** A firewall created in westus with sku_name AZFW_Hub: location and SKU name come from the plan. */
  lemma FirewallExample()
    ensures
      var c := Change("azurerm_firewall", "azurerm_firewall.hub", ["create"],
                      map["location" := Str("westus"), "sku_name" := Str("AZFW_Hub")]);
      GenerateArmTemplate(c) == Ok(Template(SchemaUri, ContentVersion,
        [ArmResource("Microsoft.Network/azureFirewalls", ApiVersion, SanitizeName(c.address),
                     Str("westus"), Some(Sku(Str("AZFW_Hub"), Some("Standard"))))]))
  {
  }
}
