/** The role check (`RolesGuard.canActivate`): a route open to everyone
    unless `@Roles(...)` metadata is present, and otherwise open to a user
    who holds at least one of the listed roles. */
module Roles {
  import opened Common

  datatype UserRole = Admin | Manager | Cashier

  /** The `role` claim of the request's user: one role, or a list. */
  datatype RoleClaim = Single(role: UserRole) | Many(roles: seq<UserRole>)

  /** `Array.isArray(user.role) ? user.role : [user.role]`. */
  function UserRoles(claim: RoleClaim): (r: seq<UserRole>)
    ensures claim.Single? ==> r == [claim.role]
    ensures claim.Many? ==> r == claim.roles
  {
    match claim
    case Single(role) => [role]
    case Many(roles) => roles
  }

  /** `getAllAndOverride` over the handler and its class: the handler's
      metadata when it has any, else the class's. */
  function RequiredRoles(handlerRoles: Option<seq<UserRole>>, classRoles: Option<seq<UserRole>>)
    : (r: Option<seq<UserRole>>)
    ensures handlerRoles.Some? ==> r == handlerRoles
    ensures handlerRoles.None? ==> r == classRoles
  {
    if handlerRoles.Some? then handlerRoles else classRoles
  }

  /** `required.some((role) => held.includes(role))`. */
  function AnyHeld(required: seq<UserRole>, held: seq<UserRole>): (r: bool)
    ensures r <==> exists i :: 0 <= i < |required| && required[i] in held
    decreases |required|
  {
    if |required| == 0 then false
    else if required[0] in held then true
    else
      assert forall i :: 1 <= i < |required| ==> required[i] == required[1..][i - 1];
      AnyHeld(required[1..], held)
  }

  /** `canActivate`: granted when no roles are required, and otherwise iff
      some required role is among the user's roles. */
  function CanActivate(handlerRoles: Option<seq<UserRole>>, classRoles: Option<seq<UserRole>>, claim: RoleClaim)
    : (r: bool)
    ensures RequiredRoles(handlerRoles, classRoles).None? ==> r
    ensures RequiredRoles(handlerRoles, classRoles).Some? ==>
              (r <==> exists role :: role in RequiredRoles(handlerRoles, classRoles).value && role in UserRoles(claim))
  {
    match RequiredRoles(handlerRoles, classRoles)
    case None => true
    case Some(required) => AnyHeld(required, UserRoles(claim))
  }

  /** A present but empty list of roles lets nobody in, whatever the
      class requires. */
  lemma EmptyListDenies(classRoles: Option<seq<UserRole>>, claim: RoleClaim)
    ensures !CanActivate(Some([]), classRoles, claim)
  {
  }

  /** A single role claim is checked exactly as the one-element list. */
  lemma SingleIsOneElementList(handlerRoles: Option<seq<UserRole>>, classRoles: Option<seq<UserRole>>, role: UserRole)
    ensures CanActivate(handlerRoles, classRoles, Single(role)) == CanActivate(handlerRoles, classRoles, Many([role]))
  {
  }

  /** The handler's metadata overrides the class's: with roles on the
      handler, the class's roles do not matter. */
  lemma HandlerOverridesClass(handlerRoles: seq<UserRole>, classRoles: Option<seq<UserRole>>, claim: RoleClaim)
    ensures CanActivate(Some(handlerRoles), classRoles, claim) == CanActivate(Some(handlerRoles), None, claim)
  {
  }

  /** Holding more roles never loses access, and requiring more roles
      never loses it either. */
  lemma MoreRolesNeverDeny(handlerRoles: Option<seq<UserRole>>, classRoles: Option<seq<UserRole>>,
                           held: seq<UserRole>, extra: UserRole)
    ensures CanActivate(handlerRoles, classRoles, Many(held)) ==> CanActivate(handlerRoles, classRoles, Many(held + [extra]))
    ensures CanActivate(handlerRoles, classRoles, Many(held)) && handlerRoles.Some?
            ==> CanActivate(Some(handlerRoles.value + [extra]), classRoles, Many(held))
  {
    if CanActivate(handlerRoles, classRoles, Many(held)) && RequiredRoles(handlerRoles, classRoles).Some? {
      var role :| role in RequiredRoles(handlerRoles, classRoles).value && role in held;
      assert role in held + [extra];
      if handlerRoles.Some? {
        assert role in handlerRoles.value + [extra];
      }
    }
  }
}
