/** The manual Shopify import screen: a consult fetches a page of Shopify
    orders, and every order not yet in the system is converted and imported;
    those the conversion refuses are counted in a notice. */
module ManualProcessor {
  import opened Wrappers
  import opened Types
  import opened Text
  import opened Seqs
  import opened ShopifyTransform

  /** The ids of the orders already imported from Shopify. */
  function ExistingShopifyIds(allOrders: seq<Order>): (ids: set<string>)
    ensures forall id :: id in ids <==>
      StartsWith(id, "shopify-") && exists o :: o in allOrders && o.id == id
  {
    set o | o in allOrders && StartsWith(o.id, "shopify-") :: o.id
  }

  predicate AlreadyImported(existing: set<string>, so: ShopifyOrder) {
    ImportedId(so.id) in existing
  }

  /** The fetched orders whose id is not yet taken, in fetch order. */
  function NewOrders(fetched: seq<ShopifyOrder>, existing: set<string>): (r: seq<ShopifyOrder>)
    ensures forall so :: so in r <==> so in fetched && !AlreadyImported(existing, so)
  {
    Filter(fetched, (so: ShopifyOrder) => !AlreadyImported(existing, so))
  }

  /** Keeping only the "shopify-" ids loses nothing: a fetched order counts
      as already there exactly when some order in the system has its id. */
  lemma {:induction false} PrefixCheckHarmless(allOrders: seq<Order>, so: ShopifyOrder)
    ensures AlreadyImported(ExistingShopifyIds(allOrders), so) <==>
      exists o :: o in allOrders && o.id == ImportedId(so.id)
  {
    assert ImportedId(so.id)[..|"shopify-"|] == "shopify-";
  }

  predicate Unimportable(so: ShopifyOrder) {
    Transform(so).None?
  }

  /** The converted orders, in order, leaving out those the conversion
      refuses. */
  function Importable(s: seq<ShopifyOrder>): seq<Order> {
    if s == [] then []
    else
      var last := s[|s| - 1];
      Importable(s[..|s| - 1]) + (if Transform(last).Some? then [Transform(last).value] else [])
  }

  /** An order is importable exactly when it is the conversion of one of
      the given Shopify orders. */
  lemma {:induction false} ImportableMembers(s: seq<ShopifyOrder>)
    ensures forall o :: o in Importable(s) <==> exists so :: so in s && Transform(so) == Some(o)
  {
    if s != [] {
      var init := s[..|s| - 1];
      ImportableMembers(init);
      assert s == init + [s[|s| - 1]];
    }
  }

  /** Every order either is imported or counts as skipped, never both and
      never neither. */
  lemma {:induction false} SplitAccountsForAll(s: seq<ShopifyOrder>)
    ensures |Importable(s)| + |Filter(s, Unimportable)| == |s|
  {
    if s != [] {
      var i := |s| - 1;
      SplitAccountsForAll(s[..i]);
      SplitStep(s, i);
      assert s[..i + 1] == s;
    }
  }

  /** Nothing imported duplicates an order already in the system. */
  lemma {:induction false} NothingImportedTwice(fetched: seq<ShopifyOrder>, allOrders: seq<Order>)
    ensures forall o :: o in Importable(NewOrders(fetched, ExistingShopifyIds(allOrders))) ==>
      forall p :: p in allOrders ==> p.id != o.id
  {
    var existing := ExistingShopifyIds(allOrders);
    ImportableMembers(NewOrders(fetched, existing));
    forall o, p | o in Importable(NewOrders(fetched, existing)) && p in allOrders
      ensures p.id != o.id
    {
      var so :| so in NewOrders(fetched, existing) && Transform(so) == Some(o);
      PrefixCheckHarmless(allOrders, so);
    }
  }

  lemma {:induction false} SplitStep(s: seq<ShopifyOrder>, i: nat)
    requires i < |s|
    ensures Importable(s[..i + 1]) ==
      Importable(s[..i]) + (if Transform(s[i]).Some? then [Transform(s[i]).value] else [])
    ensures Filter(s[..i + 1], Unimportable) ==
      Filter(s[..i], Unimportable) + (if Transform(s[i]).None? then [s[i]] else [])
  {
    assert s[..i + 1][..i] == s[..i];
    assert s[..i + 1] == s[..i] + [s[i]];
    FilterAppend(s[..i], [s[i]], Unimportable);
  }

  /** The orders of a page that are not in the system yet, split into the
      converted ones and the skipped ones. */
  method ConvertPage(allOrders: seq<Order>, fetched: seq<ShopifyOrder>) returns (imported: seq<Order>, skipped: seq<ShopifyOrder>)
    ensures imported == Importable(NewOrders(fetched, ExistingShopifyIds(allOrders)))
    ensures |imported| + |skipped| == |NewOrders(fetched, ExistingShopifyIds(allOrders))|
  {
    var newOrders := NewOrders(fetched, ExistingShopifyIds(allOrders));
    imported, skipped := SplitImportable(newOrders);
  }

  /** The split of the new orders into the converted ones and the skipped
      ones, one order at a time. */
  method SplitImportable(newOrders: seq<ShopifyOrder>) returns (importable: seq<Order>, skipped: seq<ShopifyOrder>)
    ensures importable == Importable(newOrders)
    ensures skipped == Filter(newOrders, Unimportable)
    ensures |importable| + |skipped| == |newOrders|
  {
    importable, skipped := [], [];
    for i := 0 to |newOrders|
      invariant importable == Importable(newOrders[..i])
      invariant skipped == Filter(newOrders[..i], Unimportable)
    {
      var so := newOrders[i];
      SplitStep(newOrders, i);
      var transformed := Transform(so);
      if transformed.None? {
        skipped := skipped + [so];
      } else {
        importable := importable + [transformed.value];
      }
    }
    assert newOrders[..|newOrders|] == newOrders;
    SplitAccountsForAll(newOrders);
  }

  /** The customer name shown for a fetched order: the customer's trimmed
      full name, then the shipping name, the billing name, the e-mail, and
      finally a placeholder. */
  function DisplayName(so: ShopifyOrder): (r: string)
    ensures r != []
  {
    var fullName :=
      if so.customer.Some? then
        Trim(so.customer.value.firstName.GetOr([]) + " " + so.customer.value.lastName.GetOr([]))
      else [];
    if fullName != [] then fullName
    else if Truthy(NameOf(so.shippingAddress)) then NameOf(so.shippingAddress).value
    else if Truthy(NameOf(so.billingAddress)) then NameOf(so.billingAddress).value
    else if Truthy(so.email) then so.email.value
    else "Cliente An\U{00F3}nimo"
  }

  /** The screen shows the same name the import gives the order. */
  lemma {:induction false} DisplayNameMatchesImport(so: ShopifyOrder)
    ensures DisplayName(so) == CustomerName(so)
  {
  }

  /** The page links of the last consult. */
  datatype PageInfo = PageInfo(next: Option<string>, prev: Option<string>)

  /** The screen's state. `consulted == None` before the first consult. */
  class ManualProcessorState {
    var consulted: Option<seq<ShopifyOrder>>
    var pageInfo: Option<PageInfo>
    var newlyImported: set<string>

    constructor()
      ensures consulted.None? && pageInfo.None? && newlyImported == {}
    {
      consulted, pageInfo, newlyImported := None, None, {};
    }

    /** The start of a consult: a consult without a page token starts
        afresh; one that follows a page link keeps what is shown. */
    method BeginConsult(pageToken: Option<string>)
      modifies this
      ensures !Truthy(pageToken) ==> consulted.None? && pageInfo.None? && newlyImported == {}
      ensures Truthy(pageToken) ==>
        consulted == old(consulted) && pageInfo == old(pageInfo) && newlyImported == old(newlyImported)
    {
      if !Truthy(pageToken) {
        consulted, pageInfo, newlyImported := None, None, {};
      }
    }

    /** A page arrived: it is shown, its new orders are converted and handed
        to the import callback. `importOk` says whether that callback
        resolved; when it rejects, the catch clears the list. Returns the
        orders handed over and whether the skip notice is shown. The
        application's own callback catches a failed save and resolves, so
        with it `importOk` always holds, and orders that were not saved are
        still marked as newly imported. */
    method ReceivePage(allOrders: seq<Order>, fetched: seq<ShopifyOrder>, page: Option<PageInfo>, importOk: bool)
      returns (imported: seq<Order>, skipNotice: bool)
      modifies this
      ensures imported == Importable(NewOrders(fetched, ExistingShopifyIds(allOrders)))
      ensures pageInfo == page
      ensures importOk ==> consulted == Some(fetched)
      ensures importOk ==> newlyImported == old(newlyImported) + set o | o in imported :: o.id
      ensures importOk ==> (skipNotice <==> |imported| < |NewOrders(fetched, ExistingShopifyIds(allOrders))|)
      ensures !importOk ==> consulted == Some([]) && newlyImported == old(newlyImported) && !skipNotice
    {
      consulted := Some(fetched);
      pageInfo := page;
      var skipped;
      imported, skipped := ConvertPage(allOrders, fetched);
      if !importOk {
        consulted := Some([]);
        skipNotice := false;
        return;
      }
      var ids := set o | o in imported :: o.id;
      if |imported| > 0 {
        newlyImported := newlyImported + ids;
      }
      skipNotice := |skipped| > 0;
    }

    /** A consult that failed before any import: the list is cleared. */
    method ConsultFailed()
      modifies this
      ensures consulted == Some([])
      ensures pageInfo == old(pageInfo) && newlyImported == old(newlyImported)
    {
      consulted := Some([]);
    }
  }
}
