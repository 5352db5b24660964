/** The session record: `userId` required, `userAgent` optional, `createdAt`
    defaulting to the clock and `expiredAt` defaulting to thirty days later. */
module SessionModel {
  import opened Common
  import opened Errors
  import DateTime

  datatype Session = Session(id: Id, userId: Id, userAgent: Option<string>, createdAt: int, expiredAt: int)

  /** A session built from the given fields. The two defaults read the clock
      separately: `createdNow` for `createdAt`, `expiryNow` for `expiredAt`. */
  function NewSession(id: Id, userId: Option<Id>, userAgent: Option<string>,
                      createdAt: Option<int>, expiredAt: Option<int>,
                      createdNow: int, expiryNow: int): (r: Result<Session, StoreError>)
    ensures r.Failure? <==> userId.None?
    ensures r.Failure? ==> r.error == ValidationFailed({"userId"})
    ensures r.Success? ==>
      && r.value.id == id && r.value.userId == userId.value && r.value.userAgent == userAgent
      && (createdAt.None? ==> r.value.createdAt == createdNow)
      && (createdAt.Some? ==> r.value.createdAt == createdAt.value)
      && (expiredAt.None? ==> r.value.expiredAt == DateTime.ThirtyDaysFromNow(expiryNow))
      && (expiredAt.Some? ==> r.value.expiredAt == expiredAt.value)
  {
    if userId.None? then Failure(ValidationFailed({"userId"}))
    else
      Success(Session(id, userId.value, userAgent,
                      OrDefault(createdAt, createdNow),
                      OrDefault(expiredAt, DateTime.ThirtyDaysFromNow(expiryNow))))
  }

  /** With a clock that does not run backwards, a session created with both
      defaults expires at least thirty days after it was created. */
  lemma FreshSessionLifetime(id: Id, userId: Id, userAgent: Option<string>, createdNow: int, expiryNow: int)
    requires createdNow <= expiryNow
    ensures var r := NewSession(id, Some(userId), userAgent, None, None, createdNow, expiryNow);
            r.Success? && r.value.expiredAt - r.value.createdAt >= 30 * DateTime.MillisPerDay
            && r.value.expiredAt > r.value.createdAt
  {
  }
}
