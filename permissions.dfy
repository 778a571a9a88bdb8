/** The role predicates the views use to gate each endpoint. A role is the
    membership in a group of a fixed name. */
module Permissions {
  import opened Domain

  const ManagerGroup: string := "Manager"
  const DeliveryCrewGroup: string := "DeliveryCrew"

  /** A manager is a member of the group named "Manager". */
  predicate IsManager(p: Principal)
    ensures IsManager(p) ==> p.groups != {}
  {
    ManagerGroup in p.groups
  }

  /** Delivery crew are the members of the group named "DeliveryCrew". */
  predicate IsDeliveryCrew(p: Principal)
    ensures IsDeliveryCrew(p) ==> p.groups != {}
  {
    DeliveryCrewGroup in p.groups
  }

  /** A customer is a user who belongs to no group at all. */
  predicate IsCustomer(p: Principal)
    ensures IsCustomer(p) ==> !IsManager(p) && !IsDeliveryCrew(p)
  {
    |p.groups| == 0
  }

  /** Staff users and managers may set the item of the day. */
  predicate IsAdminOrManager(p: Principal)
    ensures IsManager(p) ==> IsAdminOrManager(p)
    ensures p.isStaff ==> IsAdminOrManager(p)
  {
    p.isStaff || IsManager(p)
  }

  /** Joining or leaving a group changes a role only when the group carries
      that role's name; any other group leaves manager and crew status alone,
      and a user in any group is no longer a customer. */
  lemma GroupNamesDecideRoles(p: Principal, g: string)
    ensures IsManager(p.(groups := p.groups + {g})) <==> IsManager(p) || g == ManagerGroup
    ensures IsManager(p.(groups := p.groups - {g})) <==> IsManager(p) && g != ManagerGroup
    ensures IsDeliveryCrew(p.(groups := p.groups + {g})) <==> IsDeliveryCrew(p) || g == DeliveryCrewGroup
    ensures IsDeliveryCrew(p.(groups := p.groups - {g})) <==> IsDeliveryCrew(p) && g != DeliveryCrewGroup
    ensures !IsCustomer(p.(groups := p.groups + {g}))
  {
    assert g in p.(groups := p.groups + {g}).groups;
  }
}
