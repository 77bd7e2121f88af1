/**
 * The REST framework permission classes of the authentication service
 * (`back/auth_service/api/permissions.py`), as decision tables over the
 * request's method and user and the object under check.
 */
module Permissions {
  import opened Js

  /** The request's user: whether it is authenticated, whether it is staff, and its primary key (`None` for the anonymous user). */
  datatype Account = Account(isAuthenticated: bool, isStaff: bool, id: Option<int>)

  /** `request.user`, which may be missing (`None`, falsy) on a bare request. */
  type Requester = Option<Account>

  /** The framework's `SAFE_METHODS`. */
  const SafeMethods := ["GET", "HEAD", "OPTIONS"]

  predicate IsSafe(verb: string)
  {
    verb in SafeMethods
  }

  /** `bool(request.user and request.user.is_authenticated)` */
  predicate Authenticated(user: Requester)
  {
    user.Some? && user.value.isAuthenticated
  }

  /** `request.user and request.user.is_staff` */
  predicate Staff(user: Requester)
  {
    user.Some? && user.value.isStaff
  }

  /** `getattr(request.user, "id", None)` */
  function UserId(user: Requester): Option<int>
  {
    if user.Some? then user.value.id else None
  }

  /** The object under check: its own key (`obj.id`) and its owner's key (`obj.user_id`), either possibly absent. */
  datatype Target = Target(id: Option<int>, userId: Option<int>)

  // -------------------------------------------------------------------
  // IsAthleteOwnerOrReadOnly

  function AthleteHasPermission(verb: string, user: Requester): bool
  {
    if IsSafe(verb) then true else Authenticated(user)
  }

  function AthleteHasObjectPermission(verb: string, user: Requester, obj: Target): bool
  {
    if IsSafe(verb) then true
    else if Staff(user) then true
    else obj.userId == UserId(user)
  }

  // -------------------------------------------------------------------
  // IsCompanyOwnerOrReadOnly

  function CompanyHasPermission(verb: string, user: Requester): bool
  {
    if IsSafe(verb) then true else Authenticated(user)
  }

  function CompanyHasObjectPermission(verb: string, user: Requester, obj: Target): bool
  {
    if IsSafe(verb) then true
    else if Staff(user) then true
    else obj.userId == UserId(user)
  }

  // -------------------------------------------------------------------
  // IsSelfOrAdmin

  /** `IsSelfOrAdmin` keeps the base class's `has_permission`, which grants everything. */
  function SelfHasPermission(verb: string, user: Requester): bool
  {
    true
  }

  function SelfHasObjectPermission(verb: string, user: Requester, obj: Target): bool
  {
    if IsSafe(verb) then Authenticated(user)
    else if Staff(user) then true
    else obj.id == UserId(user)
  }

  /** What the framework grants for an object: the view-level check, then the object-level one. */
  function Granted(hasPermission: bool, hasObjectPermission: bool): bool
  {
    hasPermission && hasObjectPermission
  }

  /** The owner classes' table: safe methods always pass the view-level check; others need an authenticated user. */
  lemma OwnerViewTable(verb: string, user: Requester)
    ensures IsSafe(verb) ==> AthleteHasPermission(verb, user) && CompanyHasPermission(verb, user)
    ensures !IsSafe(verb) ==> (AthleteHasPermission(verb, user) <==> Authenticated(user))
    ensures !IsSafe(verb) ==> (CompanyHasPermission(verb, user) <==> Authenticated(user))
  {
  }

  /** The owner classes' object table: a safe method, else staff, else the owner. */
  lemma OwnerObjectTable(verb: string, user: Requester, obj: Target)
    ensures AthleteHasObjectPermission(verb, user, obj) <==> IsSafe(verb) || Staff(user) || obj.userId == UserId(user)
  {
  }

  /** The athlete and company classes decide every request in the same way. */
  lemma AthleteAndCompanyAgree(verb: string, user: Requester, obj: Target)
    ensures AthleteHasPermission(verb, user) == CompanyHasPermission(verb, user)
    ensures AthleteHasObjectPermission(verb, user, obj) == CompanyHasObjectPermission(verb, user, obj)
  {
  }

  /**
   * Writes to an owned object: an authenticated user gets through both
   * checks iff it is staff or owns the object; a user that is not
   * authenticated never does, whoever owns the object.
   */
  lemma OwnerWrites(verb: string, user: Requester, obj: Target)
    requires !IsSafe(verb)
    ensures Authenticated(user) ==>
              (Granted(AthleteHasPermission(verb, user), AthleteHasObjectPermission(verb, user, obj))
               <==> Staff(user) || obj.userId == UserId(user))
    ensures !Authenticated(user) ==> !Granted(AthleteHasPermission(verb, user), AthleteHasObjectPermission(verb, user, obj))
  {
  }

  /** Unlike the owner classes, `IsSelfOrAdmin` refuses a read to a user that is not authenticated. */
  lemma SelfReadsNeedAuthentication(verb: string, user: Requester, obj: Target)
    requires IsSafe(verb)
    ensures Granted(SelfHasPermission(verb, user), SelfHasObjectPermission(verb, user, obj)) <==> Authenticated(user)
    ensures Granted(AthleteHasPermission(verb, user), AthleteHasObjectPermission(verb, user, obj))
  {
  }

  /**
   * `IsSelfOrAdmin` lets a write through iff the user is staff or the
   * record is the user's own; on a saved record (which has a key) an
   * anonymous user is therefore refused even though the view-level check passes.
   */
  lemma SelfWrites(verb: string, user: Requester, obj: Target)
    requires !IsSafe(verb)
    ensures Granted(SelfHasPermission(verb, user), SelfHasObjectPermission(verb, user, obj)) <==> Staff(user) || obj.id == UserId(user)
    ensures obj.id.Some? && UserId(user).None? && !Staff(user) ==> !SelfHasObjectPermission(verb, user, obj)
  {
  }
}
