/**
 * The role gate that guards every dashboard endpoint.
 *
 * Roles are rows of the Role table and are compared by name, so a role is a
 * string here. Each endpoint lists the role names it accepts; an actor is let
 * through when it holds at least one of them.
 */
module Roles {

  const RootRole: string := "root"
  const AdminRole: string := "admin"
  const ModeratorRole: string := "moderator"

  /** The endpoints of the dashboard that this model covers. */
  datatype Endpoint =
    | UserPageRoute
    | AddUserRoute
    | DelUserRoute
    | ActivDeactivUserRoute
    | AddParserRoute
    | DelParserRoute
    | AddClientRoute
    | DelClientRoute
    | UpdateClientTokenRoute
    | ActivDeactivClientRoute

  /** The role names listed in the endpoint's `roles_accepted` decorator. */
  function Accepted(e: Endpoint): (names: set<string>)
    ensures RootRole in names && AdminRole in names
    ensures names <= {RootRole, AdminRole, ModeratorRole}
    ensures ModeratorRole in names <==>
      || e == UserPageRoute || e == AddUserRoute || e == AddClientRoute
      || e == DelClientRoute || e == UpdateClientTokenRoute || e == ActivDeactivClientRoute
  {
    match e
    case UserPageRoute => {RootRole, AdminRole, ModeratorRole}
    case AddUserRoute => {ModeratorRole, AdminRole, RootRole}
    case DelUserRoute => {RootRole, AdminRole}
    case ActivDeactivUserRoute => {RootRole, AdminRole}
    case AddParserRoute => {RootRole, AdminRole}
    case DelParserRoute => {RootRole, AdminRole}
    case AddClientRoute => {ModeratorRole, AdminRole, RootRole}
    case DelClientRoute => {ModeratorRole, AdminRole, RootRole}
    case UpdateClientTokenRoute => {ModeratorRole, AdminRole, RootRole}
    case ActivDeactivClientRoute => {ModeratorRole, AdminRole, RootRole}
  }

  /** The gate: an actor holding `roles` passes a decorator listing `accepted`. */
  function Admits(accepted: set<string>, roles: set<string>): (ok: bool)
    ensures ok <==> exists role :: role in roles && role in accepted
  {
    if roles * accepted == {} then
      assert forall role :: role in roles && role in accepted ==> role in roles * accepted;
      false
    else
      var role :| role in roles * accepted;
      true
  }

  /** An endpoint admits an actor exactly when the actor's roles meet its accepted list. */
  predicate EndpointAdmits(e: Endpoint, roles: set<string>)
  {
    Admits(Accepted(e), roles)
  }

  /** Root and admin pass every gate of the dashboard. */
  lemma RootAndAdminPassEveryGate(e: Endpoint, roles: set<string>)
    requires RootRole in roles || AdminRole in roles
    ensures EndpointAdmits(e, roles)
  {
    var role := if RootRole in roles then RootRole else AdminRole;
    assert role in roles && role in Accepted(e);
  }

  /**
   * An actor whose only privileged role is moderator passes the gate of the
   * user page, of add_user and of the four client endpoints, and of nothing else.
   */
  lemma ModeratorGates(e: Endpoint, roles: set<string>)
    requires ModeratorRole in roles && RootRole !in roles && AdminRole !in roles
    ensures EndpointAdmits(e, roles) <==>
      e in {UserPageRoute, AddUserRoute, AddClientRoute, DelClientRoute,
            UpdateClientTokenRoute, ActivDeactivClientRoute}
  {
    if e in {UserPageRoute, AddUserRoute, AddClientRoute, DelClientRoute,
             UpdateClientTokenRoute, ActivDeactivClientRoute} {
      assert ModeratorRole in roles && ModeratorRole in Accepted(e);
    }
  }

  /** An actor holding none of root, admin and moderator passes no gate at all. */
  lemma UnprivilegedPassesNoGate(e: Endpoint, roles: set<string>)
    requires RootRole !in roles && AdminRole !in roles && ModeratorRole !in roles
    ensures !EndpointAdmits(e, roles)
  {
  }
}
