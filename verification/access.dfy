/**
 * The three-way gate every user-facing handler runs before its body: an
 * unknown or expired token is a bad request, a user without a backend
 * credential is unauthorized, and otherwise the handler runs for that user.
 */
module Access {
  import opened Wrappers
  import opened Http
  import opened Sessions

  datatype Admission = Rejected(status: StatusCode) | Admitted(user: User)

  method Admit(registry: Registry, token: string, now: int) returns (a: Admission)
    requires registry.Valid()
    modifies registry
    ensures registry.Valid()
    ensures a == Rejected(BadRequest) <==>
              !(token in old(registry.users) && old(registry.users)[token].IsActive(now))
    ensures a.Rejected? ==> a.status == BadRequest || a.status == Unauthorized
    ensures a.Admitted? <==>
              token in old(registry.users) && old(registry.users)[token].IsActive(now)
              && old(registry.users)[token].IsAuthenticated()
    ensures a.Admitted? ==> a.user == old(registry.users)[token] && a.user.token == token
    ensures a.Admitted? ==> registry.users == old(registry.users)
    ensures a == Rejected(Unauthorized) ==> registry.users == old(registry.users)
    ensures a == Rejected(BadRequest) ==> registry.users == old(registry.users) - {token}
    ensures registry.gcCounter == old(registry.gcCounter) && registry.issued == old(registry.issued)
  {
    var found, user := registry.TryGetByToken(token, now);
    if !found {
      a := Rejected(BadRequest);
    } else if user.value.IsAuthenticated() {
      a := Admitted(user.value);
    } else {
      a := Rejected(Unauthorized);
    }
  }
}
