/**
 * Which plan entries the pre-flight validates: a high-risk resource kind whose actions ask
 * for a create or an update.
 */
module Classifier {
  import opened PlanData

  /** HIGH_RISK_RESOURCES: the Terraform resource types worth a dry-run validation. */
  const HighRiskResources: seq<string> :=
    ["azurerm_firewall", "azurerm_application_gateway", "azurerm_lb", "azurerm_bastion_host"]

  /** VALID_ACTIONS: the plan actions that warrant validation. */
  const ValidActions: set<string> := {"create", "update"}

  /** `set(change.actions)` */
  function ActionSet(c: Change): set<string> {
    set a | a in c.actions
  }

  /** The selection test of the main loop: listed type and a non-empty action intersection. */
  predicate IsInScope(c: Change) {
    c.kind in HighRiskResources && ActionSet(c) * ValidActions != {}
  }

  /**
   * A change is selected exactly when its type is one of the four high-risk kinds and its
   * action list mentions create or update.
   */
  lemma InScopeIff(c: Change)
    ensures IsInScope(c) <==>
      (c.kind == "azurerm_firewall" || c.kind == "azurerm_application_gateway" ||
       c.kind == "azurerm_lb" || c.kind == "azurerm_bastion_host") &&
      ("create" in c.actions || "update" in c.actions)
  {
    if "create" in c.actions {
      assert "create" in ActionSet(c) * ValidActions;
    } else if "update" in c.actions {
      assert "update" in ActionSet(c) * ValidActions;
    }
  }

  /**
   * Deletions, no-ops and reads alone never select a resource, whatever its type.
   */
  lemma NonMutatingActionsExcluded(c: Change)
    requires forall a :: a in c.actions ==> a in {"delete", "no-op", "read"}
    ensures !IsInScope(c)
  {
    assert ActionSet(c) * ValidActions == {};
  }
}
