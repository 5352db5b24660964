/** The magic-link record: `userId`, `code` and `expiredAt` required, with no
    default and no uniqueness for `code`, and `createdAt` defaulting to the
    clock. */
module AuthLinkModel {
  import opened Common
  import opened Errors

  datatype AuthLink = AuthLink(id: Id, userId: Id, code: string, createdAt: int, expiredAt: int)

  function MissingLinkPaths(userId: Option<Id>, code: Option<string>, expiredAt: Option<int>): set<string>
  {
    (if userId.None? then {"userId"} else {}) +
    (if !Truthy(code) then {"code"} else {}) +
    (if expiredAt.None? then {"expiredAt"} else {})
  }

  function NewAuthLink(id: Id, userId: Option<Id>, code: Option<string>, createdAt: Option<int>,
                       expiredAt: Option<int>, now: int): (r: Result<AuthLink, StoreError>)
    ensures r.Failure? <==> (userId.None? || !Truthy(code) || expiredAt.None?)
    ensures r.Failure? ==> r.error == ValidationFailed(MissingLinkPaths(userId, code, expiredAt))
    ensures r.Success? ==>
      && r.value.id == id && r.value.userId == userId.value && r.value.code == code.value
      && r.value.expiredAt == expiredAt.value
      && (createdAt.None? ==> r.value.createdAt == now)
      && (createdAt.Some? ==> r.value.createdAt == createdAt.value)
  {
    var missing := MissingLinkPaths(userId, code, expiredAt);
    if missing != {} then Failure(ValidationFailed(missing))
    else Success(AuthLink(id, userId.value, code.value, OrDefault(createdAt, now), expiredAt.value))
  }

  /** Nothing stops two links from sharing a code: both records are accepted. */
  lemma SharedCodesAccepted(id1: Id, id2: Id, u1: Id, u2: Id, code: string, e1: int, e2: int, now: int)
    requires code != ""
    ensures NewAuthLink(id1, Some(u1), Some(code), None, Some(e1), now).Success?
    ensures NewAuthLink(id2, Some(u2), Some(code), None, Some(e2), now).Success?
    ensures NewAuthLink(id1, Some(u1), Some(code), None, Some(e1), now).value.code
         == NewAuthLink(id2, Some(u2), Some(code), None, Some(e2), now).value.code
  {
  }
}
