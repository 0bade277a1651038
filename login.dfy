/** The marketing page's login modal and the session `handleLogin` opens:
    which role each tab logs in as, and how an office login is told apart from
    an administrator's by its district id. */
module Login {
  import opened Wrappers
  import opened Text
  import opened Types
  import opened Pricing

  datatype LoginTab = OfficeTab | DriverTab | ShopTab | AdminTab

  /** CLIENT, ADMIN, DRIVER, MAINTENANCE (the shop crew; `MaintenanceCrew` here,
      to keep it apart from the bus status of the same name). */
  datatype Role = Client | Admin | Driver | MaintenanceCrew

  /** The district ids that open the administrator console from the office tab. */
  const AdminIds: seq<string> := ["admin", "super", "root", "matt"]

  /** The arguments the login modal passes to `onLogin`. */
  datatype LoginRequest = LoginRequest(role: Role, tier: Option<Tier>)

  function LoginRoute(tab: LoginTab, districtId: string, simulatedTier: Tier): (r: LoginRequest)
    ensures tab == OfficeTab ==> (r.role == Admin <==> Lower(Trim(districtId)) in AdminIds)
    ensures r.role == Client <==> tab == OfficeTab && Lower(Trim(districtId)) !in AdminIds
    ensures r.role == Client ==> r.tier == Some(simulatedTier)
    ensures r.role != Client ==> r.tier == None
    ensures tab == DriverTab ==> r.role == Driver
    ensures tab == ShopTab ==> r.role == MaintenanceCrew
    ensures tab == AdminTab ==> r.role == Admin
  {
    match tab
    case OfficeTab =>
      if Lower(Trim(districtId)) in AdminIds then LoginRequest(Admin, None)
      else LoginRequest(Client, Some(simulatedTier))
    case DriverTab => LoginRequest(Driver, None)
    case ShopTab => LoginRequest(MaintenanceCrew, None)
    case AdminTab => LoginRequest(Admin, None)
  }

  /** An administrator id is recognised in any letter case and with blanks around it. */
  lemma AdminIdAnyCasePadded(lead: string, id: string, trail: string, t: Tier)
    requires forall i :: 0 <= i < |lead| ==> IsJsSpace(lead[i])
    requires forall i :: 0 <= i < |trail| ==> IsJsSpace(trail[i])
    requires Lower(id) in AdminIds
    ensures LoginRoute(OfficeTab, lead + id + trail, t).role == Admin
  {
    assert forall w :: w in AdminIds ==> |w| > 0 && 'a' <= w[0] <= 'z' && 'a' <= w[|w| - 1] <= 'z';
    assert 'a' <= LowerChar(id[0]) <= 'z';
    assert 'a' <= LowerChar(id[|id| - 1]) <= 'z';
    TrimPadded(lead, id, trail);
  }

  /** The session `handleLogin` opens. */
  datatype Session = Session(role: Role, tier: Tier, loggedIn: bool, tenant: string)

  const DemoTenant := "TUSD-882"

  /** `handleLogin`: the tier defaults to Enterprise; every role but the
      administrator is pinned to the demo district. */
  function StartSession(req: LoginRequest, previousTenant: string): (s: Session)
    ensures s.loggedIn && s.role == req.role
    ensures s.tier == if req.tier.Some? then req.tier.value else Enterprise
    ensures s.tenant == if req.role == Admin then previousTenant else DemoTenant
  {
    Session(req.role, if req.tier.Some? then req.tier.value else Enterprise, true,
            if req.role == Admin then previousTenant else DemoTenant)
  }

  /** End to end: an office login as a district opens a client session on the
      demo district with the chosen tier; any other tab opens an Enterprise session. */
  lemma LoginSessions(tab: LoginTab, districtId: string, t: Tier, previousTenant: string)
    ensures var s := StartSession(LoginRoute(tab, districtId, t), previousTenant);
            && (s.role == Client ==> s.tier == t && s.tenant == DemoTenant)
            && (tab != OfficeTab ==> s.tier == Enterprise)
            && (s.role == Admin ==> s.tenant == previousTenant)
            && (s.role != Admin ==> s.tenant == DemoTenant)
  {
  }
}
