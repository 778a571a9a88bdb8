/** The featured ("item of the day") flags of the menu. */
module Menu {
  import opened Domain

  /** The ids of the menu items currently featured. */
  function FeaturedIds(menu: map<int, MenuItem>): (r: set<int>)
    ensures r <= menu.Keys
    ensures forall id :: id in menu ==> (id in r <==> menu[id].featured)
  {
    set id | id in menu && menu[id].featured
  }

  /** The bulk update that sets every featured flag to false: no item is
      featured afterwards and nothing but the flag changes. */
  function ClearFeatured(menu: map<int, MenuItem>): (r: map<int, MenuItem>)
    ensures r.Keys == menu.Keys
    ensures FeaturedIds(r) == {}
    ensures forall id :: id in r ==> r[id].(featured := menu[id].featured) == menu[id]
  {
    map id | id in menu :: menu[id].(featured := false)
  }
}
