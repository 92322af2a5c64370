/** Tasks.get_permissions of charities/views.py: which permission classes
    guard the task list/create view, chosen by the request's HTTP method. */
module Permissions {

  /** The permission classes named in the views; what each one checks is
      decided elsewhere (accounts/permissions.py is not part of this model). */
  datatype Permission = IsAuthenticated | IsCharityOwner | IsBenefactor

  /** The framework's read-only methods. */
  const SAFE_METHODS: set<string> := {"GET", "HEAD", "OPTIONS"}

  /** Read-only methods need an authenticated user, every other method a
      charity owner; exactly one permission class applies. */
  function PermissionsFor(httpMethod: string): (p: seq<Permission>)
    ensures |p| == 1
    ensures p[0] == IsAuthenticated <==> httpMethod in SAFE_METHODS
    ensures p[0] == IsCharityOwner <==> httpMethod !in SAFE_METHODS
  {
    if httpMethod in SAFE_METHODS then [IsAuthenticated] else [IsCharityOwner]
  }

  /** The Tasks view object, whose permission list get_permissions reassigns. */
  class TasksView {
    var permissionClasses: seq<Permission>

    /** Stores the permission classes for `httpMethod` on the view and
        returns one instance of each. */
    method GetPermissions(httpMethod: string) returns (instances: seq<Permission>)
      modifies this
      ensures permissionClasses == PermissionsFor(httpMethod)
      ensures instances == permissionClasses
    {
      permissionClasses := PermissionsFor(httpMethod);
      // one instance per class, in the same order
      instances := permissionClasses;
    }
  }
}
