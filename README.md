# Pre-flight validation of high-risk Azure resources in a Terraform plan

This project models the core of `validate_deployment.py` in Dafny. The script reads a Terraform plan and selects the high-risk network resources that are being created or updated: firewalls, application gateways, load balancers and bastion hosts. For each one it builds a minimal Azure Resource Manager (ARM) deployment template. It sends that template to ARM's validate-only deployment endpoint in resource group `preflight-rg`. Every rejection is collected with its diagnostic context, and the run passes only when nothing was rejected.

Modules, leaf first:

- `Wrappers` (wrappers.dfy): `Option` and `Result`.
- `PlanData` (plan_data.dfy): the plan's JSON values, Python truthiness, `dict.get`, and a resource change (`type`, `address`, `change.actions`, `change.after`).
- `Classifier` (classifier.dfy): `HIGH_RISK_RESOURCES`, `VALID_ACTIONS` and the selection test of the main loop.
- `Names` (names.dfy): the resource name, which the script derives from the address with three chained `str.replace` calls, and a character-by-character reference definition that the name is proved equal to.
- `Synthesis` (synthesis.dfy): `generate_arm_template`, including its `ValueError` for an unknown type, modelled as `Err(UnknownResourceType(type))`.
- `Preflight` (preflight.dfy): the main loop as the method `RunPreflight`. It has a sequence accumulator for `errors` and is proved against the specification function `FailuresOf`. Lemmas cover order, one record per rejection, the verdict, and the calls issued.

The validator (`run_arm_validate`) is a function-typed parameter `(subscription, resource group, location, template) -> (success, message)`. The subscription id is a plain string parameter.

## Model

| member | source | states |
|---|---|---|
| `Classifier.InScopeIff` | validate_deployment.py:152-154 | A change is selected exactly when its type is one of the four high-risk kinds and its actions include `create` or `update`. |
| `Classifier.NonMutatingActionsExcluded` | validate_deployment.py:153-154 | A change whose actions are only delete, no-op or read is never selected, whatever its type. |
| `Names.ReplaceChar` | validate_deployment.py:34-35 | After `replace(from, to)`, every character of the result is either a character of the input other than `from`, or a character of `to`. |
| `Names.SanitizeName` | validate_deployment.py:34-35 | The synthesized name contains no `.`, `[` or `]`. |
| `Names.SanitizeNameCharwise` | validate_deployment.py:34-35 | The chained replacements equal a one-pass map: `.` and `[` become `-`, `]` is dropped, every other character is kept, and the order is kept. |
| `Names.SanitizeNameLength` | validate_deployment.py:34-35 | The name's length is the address length minus the number of `]`. |
| `Names.SanitizeNameIdentity` | validate_deployment.py:34-35 | An address with no `.`, `[` or `]` is used as the name unchanged. |
| `Synthesis.ResolveLocation` | validate_deployment.py:36 | The location is `after["location"]` whenever the key is present, whatever its value, and `"eastus"` only when the key is absent. |
| `Synthesis.GenerateArmTemplate` | validate_deployment.py:28-70 | The call succeeds iff the type is one of the four handled kinds; otherwise it fails with the unknown-type error. A success has the fixed `$schema`, content version `1.0.0.0` and exactly one resource. That resource has apiVersion `2022-08-01`, the sanitized name (free of `.`, `[` and `]`) and the resolved location. |
| `Synthesis.DescriptorPerKind` | validate_deployment.py:53-66 | Firewall: `Microsoft.Network/azureFirewalls`, sku `{sku_name or "AZFW_VNet", "Standard"}`. Application gateway: `Microsoft.Network/applicationGateways`, sku `{sku_name or "WAF_v2", "WAF"}`. Load balancer: `Microsoft.Network/loadBalancers`, sku `{sku or "Standard"}` with no tier. Bastion: `Microsoft.Network/bastionHosts` with no sku. Here "or" means the default applies when the key is absent. |
| `Synthesis.TemplateRecoversKind` | validate_deployment.py:53-66 | The provider type in a template maps back to the Terraform type it came from, so no two kinds share a provider type. |
| `Synthesis.DescriptorIsMinimal` | validate_deployment.py:38-66 | Only a bastion lacks a sku. A tier appears exactly for firewalls and application gateways. A SKU name is either a value from the plan or the kind's default. |
| `Synthesis.UnknownKindRejected` | validate_deployment.py:67-68 | A type outside the case table yields the error and no template. |
| `Synthesis.FirewallExample` | validate_deployment.py:53-56 | A firewall created in `westus` with `sku_name` `AZFW_Hub` yields an `azureFirewalls` resource in `westus` with sku `{AZFW_Hub, Standard}`. |
| `Preflight.HighRiskAreSupported` | validate_deployment.py:9-14 | The high-risk list and the case table of the synthesizer name the same four types. |
| `Preflight.SelectedNeverUnknown` | validate_deployment.py:154-155 | A selected change always synthesizes: the run never reaches the unknown-type error. |
| `Preflight.ReportedSku` | validate_deployment.py:160 | The reported SKU is truthy. It is `sku_name` when that is truthy, then `sku` when that is truthy, else `"unknown"`. |
| `Preflight.ReportedZones` | validate_deployment.py:159-174 | The reported zones are the plan's `zones` when truthy, otherwise `"none"`. |
| `Preflight.RequestFor` | validate_deployment.py:156-167 | The validate call for a selected change is located at the template's location, which is the resolved `after` location. |
| `Preflight.ReportedSkuMatchesTemplate` | validate_deployment.py:160 | The reported SKU is the one the template was validated with in two cases. For a firewall or gateway, `sku_name` must be truthy. For a load balancer, `sku` must be truthy and `sku_name` absent or falsy. |
| `Preflight.ReportedSkuDivergesFromTemplate` | validate_deployment.py:160 | Cases where the report and the template read different keys. A load balancer with a truthy `sku_name` reports it, but its template carries `sku` (or `"Standard"`). A firewall without `sku_name` is validated with `AZFW_VNet`, and a gateway without `sku_name` with `WAF_v2`. A firewall or gateway whose `sku_name` is present but falsy is validated with that falsy value. In these last three cases the report shows `sku` or `"unknown"`. In the falsy-`sku_name` case the two always differ. In the two absent-`sku_name` cases they differ unless `sku` equals the kind's default. |
| `Preflight.LoadBalancerSkuDivergenceExample` | validate_deployment.py:160 | A load balancer with `sku_name` `Basic` and `sku` `Standard` reports a SKU different from the one it was validated with. |
| `Preflight.RunPreflight` | validate_deployment.py:150-182 | `errors` equals `FailuresOf(plan)` and the calls issued equal `RequestsOf(plan)`. The run passes iff `errors` is empty, and iff no selected change was rejected. |
| `Preflight.FailuresOfAppend` | validate_deployment.py:150-176 | Processing two stretches of the plan one after the other concatenates their records. |
| `Preflight.PassIffAllAccepted` | validate_deployment.py:178-184 | No records iff every selected change was accepted by the validator. |
| `Preflight.FailureReportedAt` | validate_deployment.py:169-176 | A rejected change gets its record (its address, location, SKU, zones and message) at the position equal to the number of records from the changes before it. |
| `Preflight.FailureEntrySource` | validate_deployment.py:169-176 | Every record is the record of a rejected change whose predecessors produced exactly that many records. So records and rejected changes correspond one to one. |
| `Preflight.FailuresInPlanOrder` | validate_deployment.py:152-176 | Of two rejected changes, the earlier one in the plan is reported at the earlier position. |
| `Preflight.FailuresBoundedByCalls` | validate_deployment.py:152-176 | There are no more records than validator calls, and no more calls than plan entries. |
| `Preflight.NothingSelectedPasses` | validate_deployment.py:152-154 | A plan with no selected change produces no records and makes no validator call. |
| `Preflight.RequestIssuedAt` | validate_deployment.py:152-167 | A selected change has its own call, built from its template, at the position equal to the number of calls from the changes before it. |
| `Preflight.RequestEntrySource` | validate_deployment.py:152-167 | Every call is the call of a selected change whose predecessors issued exactly that many calls. Together with `RequestIssuedAt`, calls and selected changes correspond one to one. |
| `Preflight.RequestsInPlanOrder` | validate_deployment.py:152-167 | Of two selected changes, the earlier one in the plan is validated at the strictly earlier position, so two changes never share a call. That one change never gets two calls follows from `RequestEntrySource`. |
| `Preflight.UnselectedGetsNoCall` | validate_deployment.py:153-154 | A change that is not selected (delete-only, no-op only, or an unlisted type) adds no validator call, in any plan. |
| `Preflight.DeletedLoadBalancerExample` | validate_deployment.py:153-154 | A plan whose only change deletes a load balancer passes with zero calls. |
| `Preflight.RejectedFirewallExample` | validate_deployment.py:169-176 | A firewall rejected with `SkuNotAvailable` yields exactly one record: its address, `westus`, `AZFW_Hub`, zones `none`, and the message. The change counts as rejected, so by `RunPreflight`'s contract the verdict is fail. |
| `Classifier.ActionSet` | validate_deployment.py:153 | Definition, no contract: `set(actions)`. |
| `Classifier.IsInScope` | validate_deployment.py:154 | Definition, no contract: the selection test. It is characterised by `InScopeIff`. |
| `PlanData.Truthy` | validate_deployment.py:160 | Definition, no contract: Python truthiness of a JSON value, as used by `or` at line 160 and `if zones` at line 174. |
| `PlanData.Get` | validate_deployment.py:36 | Definition, no contract: `dict.get(key, default)` returns the stored value whenever the key is present. It is also used at lines 55, 59, 63 and 159-160. |
| `Preflight.RecordFor` | validate_deployment.py:170-176 | The record appended for a rejected change begins with that change's address and carries the resolved location. |
| `Preflight.TemplateFor` | validate_deployment.py:155 | Definition, no contract: the template synthesized for a selected change. |
| `Preflight.Call` | validate_deployment.py:162-167 | Definition, no contract: the validator applied to one request's subscription, resource group, location and template. |
| `Preflight.Rejected` | validate_deployment.py:169 | Definition, no contract: the change is selected (line 154) and its validation returned `not success`. |
| `Preflight.EntriesFor` | validate_deployment.py:169-176 | Definition, no contract: what one iteration appends to `errors`, which is its record if rejected and nothing otherwise. |
| `Preflight.IssuedFor` | validate_deployment.py:154-167 | Definition, no contract: the call one iteration makes, which is its request if selected and nothing otherwise. |
| `Preflight.RequestsOf` | validate_deployment.py:152-167 | Definition, no contract: the calls the loop has made after processing a prefix of the plan. It is characterised by `RequestIssuedAt`, `RequestEntrySource` and `RequestsInPlanOrder`. |
| `Preflight.FailuresOf` | validate_deployment.py:150-176 | Definition, no contract: `errors` after the loop has processed a prefix of the plan. It is characterised by the lemmas above. |

## Left out

- Reading `tfPlan.json` and the exit when the file is missing (validate_deployment.py:18-25) are file I/O. The plan is given as a sequence of changes, with `resource_changes` and `actions` already defaulted to empty lists.
- `select_subscription` (validate_deployment.py:73-103) acquires credentials, makes an HTTP GET and prompts interactively. The subscription id is a parameter.
- The body of `run_arm_validate` (validate_deployment.py:106-143) is not modelled: token acquisition, the `uuid4` deployment name, the HTTP POST and the JSON formatting of the error. It is the `Validator` parameter, with the message as an opaque string. A non-200 response whose JSON body is an object comes back as `false`, including HTTP 401 or 403, just like a provider rejection (validate_deployment.py:138-143). The model has no separate class for those.
- `Validator`: an exception inside the validator is not modelled. Four such exceptions abort the whole run without a verdict and without printing the errors already collected. They are a credential failure in `get_token` (line 112), a connection error from `requests.post` (line 135, which has no timeout and can hang), a non-JSON body at `resp.json()` (line 136), and a non-200 JSON body that is not an object (an array, string, number or null) at `payload.get` (line 142). The model's validator always answers.
- `Validator`: being a Dafny function, it answers the same request the same way every time. The real call is a fresh network request under a fresh deployment name.
- Printing, the exact text layout of each error block, and the exit codes (validate_deployment.py:170-184) are not modelled. A record keeps its fields (address, location, SKU, zones, message) as values, and the verdict is a boolean.
- A selected change whose `after` is missing or null is not modelled. Line 36 would raise there before line 158's default applied. `after` is always a map. The script reads `after` only for selected changes (lines 36 and 158), so for an unselected change, such as an ordinary delete whose `after` is null, any map stands for the null one. `DeletedLoadBalancerExample` uses `map[]` this way.
- JSON numbers are integers; the truthiness of floating-point values is not modelled.
- `Names.ReplaceChar` models `str.replace` only for one-character patterns. Those are the only ones the script uses.
- Two behaviours follow the script as written. First, a non-200 authorization response is not separated from a rejection, as stated above. Second, an unknown type is unreachable from the run rather than a separate fatal error: the error exists only in synthesis, and `SelectedNeverUnknown` proves the run never reaches it.
