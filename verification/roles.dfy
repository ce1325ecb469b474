/**
 * The admin role gate (internal/appmw/role.go) and the same test in the
 * task handler's `isAdmin`: a caller is an admin when one of its realm roles
 * equals "admin" up to Unicode case folding.
 */
module Roles {
  import opened Wrappers
  import opened GoStrings
  import opened Http

  const AdminRole := "admin"

  /** Some role folds to "admin". */
  predicate HasAdminRole(roles: seq<string>) {
    exists i | 0 <= i < |roles| :: EqualFold(roles[i], AdminRole)
  }

  /** `isAdmin` in the task handler: scans the roles and stops at the first match. */
  function IsAdmin(roles: seq<string>): (r: bool)
    ensures r <==> HasAdminRole(roles)
  {
    if |roles| == 0 then false
    else if EqualFold(roles[0], AdminRole) then true
    else
      var rest := IsAdmin(roles[1..]);
      assert forall i | 1 <= i < |roles| :: roles[i] == roles[1..][i - 1];
      rest
  }

  /** What the gate does with a request: hand it on unchanged, or answer it. */
  datatype Gate = Admit | Refuse(response: Writer)

  /**
   * `AdminOnly`: roles missing from the request context, an empty role list
   * and a list without "admin" are all 403; an admin's request goes on to
   * the next handler untouched.
   */
  method AdminOnly(roles: Option<seq<string>>) returns (g: Gate)
    ensures g.Admit? <==> roles.Some? && HasAdminRole(roles.value)
    ensures g.Refuse? ==> Status(g.response) == Forbidden && g.response.body == [Text("Forbidden" + "\n")]
  {
    if roles.None? || |roles.value| == 0 {
      return Refuse(Http.Error(Fresh, "Forbidden", Forbidden));
    }
    var userRoles := roles.value;
    var isAdmin := false;
    var i := 0;
    while i < |userRoles|
      invariant 0 <= i <= |userRoles|
      invariant isAdmin ==> HasAdminRole(userRoles)
      invariant !isAdmin ==> forall j | 0 <= j < i :: !EqualFold(userRoles[j], AdminRole)
    {
      if EqualFold(userRoles[i], AdminRole) {
        isAdmin := true;
        break;
      }
      i := i + 1;
    }
    if !isAdmin {
      return Refuse(Http.Error(Fresh, "Forbidden", Forbidden));
    }
    return Admit;
  }

  /** Case is ignored: "ADMIN" and "Admin" are admins; "administrator" is not. */
  lemma AdminSpellings()
    ensures HasAdminRole(["ADMIN"]) && HasAdminRole(["user", "Admin"])
    ensures !HasAdminRole(["administrator"]) && !HasAdminRole([])
  {
    assert EqualFold(["ADMIN"][0], AdminRole);
    assert EqualFold(["user", "Admin"][1], AdminRole);
    assert !EqualFold("administrator", AdminRole);
  }
}
