/**
 * The two registries of the server: screen name to session
 * (session_manager.go) and SNAC family to service handler
 * (service_manager.go).  Both are a Go map written in place; the mutex
 * around the first is not modelled (calls are sequential here).
 */
module Managers {
  import opened Wire
  import opened Session

  /** The handler kinds that can be registered for a family. */
  datatype Service =
    | GenericServiceControls
    | LocationServices
    | BuddyListManagement
    | Icbm
    | Feedbag
    | AuthorizationRegistration

  class SessionManager {
    /** A removed name keeps its key with a nil session. */
    var sessions: map<bytes, Session?>

    /** `NewSessionManager`: an empty map. */
    constructor ()
      ensures sessions == map[]
      ensures forall name :: GetSession(name) == null
    {
      sessions := map[];
    }

    /** `GetSession`: the stored session, or nil when the name was never set. */
    function GetSession(name: bytes): (s: Session?)
      reads this
      ensures name !in sessions ==> s == null
      ensures name in sessions ==> s == sessions[name]
      ensures s != null ==> name in sessions && s == sessions[name]
    {
      if name in sessions then sessions[name] else null
    }

    /** `SetSession`: stores (or replaces) the name's session. */
    method SetSession(name: bytes, s: Session?)
      modifies this
      ensures sessions == old(sessions)[name := s]
      ensures GetSession(name) == s
      ensures forall other :: other != name ==> GetSession(other) == old(GetSession(other))
    {
      sessions := sessions[name := s];
    }

    /** `RemoveSession`: stores nil under the name; the key stays. */
    method RemoveSession(name: bytes)
      modifies this
      ensures sessions == old(sessions)[name := null]
      ensures name in sessions && GetSession(name) == null
      ensures forall other :: other != name ==> GetSession(other) == old(GetSession(other))
    {
      sessions := sessions[name := null];
    }
  }

  /** Every session registered in the manager, as the routines that walk it see them. */
  function Registered(sm: SessionManager): set<Session>
    reads sm
  {
    set name | name in sm.sessions && sm.sessions[name] != null :: sm.sessions[name]
  }

  /**
   * On a fresh manager: after `SetSession(a, s)` the name `a` finds `s`; a
   * second `SetSession(a, t)` replaces it; after `RemoveSession(a)` it finds
   * nil again, and the name `b` is untouched throughout.
   */
  method SessionRegistryScenario(a: bytes, b: bytes, s: Session, t: Session)
    returns (first: Session?, second: Session?, afterRemove: Session?, other: Session?)
    requires a != b
    ensures first == s && second == t && afterRemove == null && other == null
  {
    var sm := new SessionManager();
    sm.SetSession(a, s);
    first := sm.GetSession(a);
    sm.SetSession(a, t);
    second := sm.GetSession(a);
    sm.RemoveSession(a);
    afterRemove := sm.GetSession(a);
    other := sm.GetSession(b);
  }

  class ServiceManager {
    var services: map<uint16, Service>

    /** `NewServiceManager`: no family registered. */
    constructor ()
      ensures services == map[]
      ensures forall f :: GetService(f).None?
    {
      services := map[];
    }

    /** `GetService`: the handler and true, or nil and false (`None`). */
    function GetService(family: uint16): (r: Option<Service>)
      reads this
      ensures r.Some? <==> family in services
      ensures family in services ==> r == Some(services[family])
    {
      if family in services then Some(services[family]) else None
    }

    /** `RegisterService`: adds or overwrites the family's handler. */
    method RegisterService(family: uint16, s: Service)
      modifies this
      ensures services == old(services)[family := s]
      ensures GetService(family) == Some(s)
      ensures forall f :: f != family ==> GetService(f) == old(GetService(f))
    {
      services := services[family := s];
    }
  }

  /**
   * Registering families 1, 2, 3, 4 and 0x17 as main.go does and then
   * re-registering family 1 leaves the later handler for 1 and no handler
   * for family 0x13 (the feedbag service is never registered there).
   */
  method ServiceRegistryScenario() returns (one: Option<Service>, four: Option<Service>, feedbag: Option<Service>)
    ensures one == Some(Feedbag) && four == Some(Icbm) && feedbag.None?
  {
    var svm := new ServiceManager();
    svm.RegisterService(0x01, GenericServiceControls);
    svm.RegisterService(0x02, LocationServices);
    svm.RegisterService(0x03, BuddyListManagement);
    svm.RegisterService(0x04, Icbm);
    svm.RegisterService(0x17, AuthorizationRegistration);
    svm.RegisterService(0x01, Feedbag);
    one, four, feedbag := svm.GetService(0x01), svm.GetService(0x04), svm.GetService(0x13);
  }
}
