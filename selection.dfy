/** The set of selected orders shared by the lists, the courier's screen and
    the bulk bar. */
module Selection {
  import opened Types
  import opened Seqs

  /** Ticking one order's box adds it, ticking it again removes it. */
  function ToggleSelect(selected: set<string>, id: string): (r: set<string>)
    ensures id in r <==> id !in selected
    ensures forall other :: other != id ==> (other in r <==> other in selected)
  {
    if id in selected then selected - {id} else selected + {id}
  }

  lemma {:induction false} ToggleTwice(selected: set<string>, id: string)
    ensures ToggleSelect(ToggleSelect(selected, id), id) == selected
  {
  }

  function AreAllSelected(ids: seq<string>, selected: set<string>): bool {
    |ids| > 0 && forall id :: id in ids ==> id in selected
  }

  /** The select-all box: clear the selection when every actionable order is
      already selected, otherwise select exactly the actionable orders,
      dropping anything selected before. */
  function SelectAllClick(actionable: seq<Order>, selected: set<string>): (r: set<string>)
    ensures AreAllSelected(IdsOf(actionable), selected) ==> r == {}
    ensures !AreAllSelected(IdsOf(actionable), selected) ==>
      forall id :: id in r <==> exists o :: o in actionable && o.id == id
  {
    if AreAllSelected(IdsOf(actionable), selected) then {}
    else set id | id in IdsOf(actionable)
  }

  /** When something is actionable, a second click undoes the first. */
  lemma {:induction false} SelectAllTwice(actionable: seq<Order>, selected: set<string>)
    requires actionable != []
    requires !AreAllSelected(IdsOf(actionable), selected)
    ensures AreAllSelected(IdsOf(actionable), SelectAllClick(actionable, selected))
    ensures SelectAllClick(actionable, SelectAllClick(actionable, selected)) == {}
  {
    assert actionable[0].id in IdsOf(actionable);
  }

  /** The orders handed to the bulk bar, in list order. */
  function SelectedOrders(orders: seq<Order>, selected: set<string>): (r: seq<Order>)
    ensures forall o :: o in r <==> o in orders && o.id in selected
    ensures |r| <= |orders|
  {
    Filter(orders, (o: Order) => o.id in selected)
  }

  /** The selection held by the application: ticking a box, the select-all
      box and clearing all replace it. */
  class SelectionState {
    var selected: set<string>

    constructor()
      ensures selected == {}
    {
      selected := {};
    }

    /** `handleSelectOrder`. */
    method SelectOrder(id: string)
      modifies this
      ensures selected == ToggleSelect(old(selected), id)
    {
      if id in selected {
        selected := selected - {id};
      } else {
        selected := selected + {id};
      }
    }

    /** `handleSelectAll`: the selection becomes exactly the given ids. */
    method SelectAll(ids: seq<string>)
      modifies this
      ensures selected == set id | id in ids
    {
      selected := set id | id in ids;
    }

    /** `handleClearSelection`. */
    method ClearSelection()
      modifies this
      ensures selected == {}
    {
      selected := {};
    }
  }
}
