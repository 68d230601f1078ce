/** Which office screens each role may open. */
module Sidebar {
  import opened Types

  datatype CentralView = OrdersView | DashboardView | SettlementsView | UsersView | IntegrationsView

  /** `canView`. */
  predicate CanView(role: Role, v: CentralView) {
    if role == Superadmin then true
    else if role == Logistica then v in {OrdersView, DashboardView, SettlementsView}
    else false
  }

  /** The Superadmin sees every screen, Logística exactly orders, metrics and
      settlements, a courier none; user management and integrations are for
      the Superadmin alone. */
  lemma {:induction false} ViewPermissions(role: Role, v: CentralView)
    ensures role == Superadmin ==> CanView(role, v)
    ensures role == Logistica ==> (CanView(role, v) <==> v in {OrdersView, DashboardView, SettlementsView})
    ensures role == Domiciliario ==> !CanView(role, v)
    ensures v in {UsersView, IntegrationsView} ==> (CanView(role, v) <==> role == Superadmin)
  {
  }

  /** The screen Logística is sent back to when it is on one it may not
      see; any other screen is kept. */
  function RedirectForRole(role: Role, current: CentralView): (r: CentralView)
    ensures role == Logistica ==> r != UsersView && r != IntegrationsView
    ensures CanView(role, current) ==> r == current
  {
    if role == Logistica && (current == UsersView || current == IntegrationsView) then OrdersView else current
  }
}
