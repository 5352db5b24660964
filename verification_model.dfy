/** The verification-code record: `userId`, `type` and `expiredAt` required,
    `code` defaulting to a generated code and unique among codes, `createdAt`
    defaulting to the clock. The random UUID behind the default code is the
    parameter `uuid`. */
module VerificationModel {
  import opened Common
  import opened Errors
  import Uuid

  /** The verification kinds (the enumeration file is not part of this model). */
  datatype VerificationKind = EmailVerification | PasswordReset

  datatype VerificationCode = VerificationCode(
    id: Id, userId: Id, code: string, kind: VerificationKind, createdAt: int, expiredAt: int)

  /** The code a new record gets: the given one, or a generated one. */
  function CodeFor(code: Option<string>, uuid: string): string
  {
    if code.Some? then code.value else Uuid.GenerateUniqueCode(uuid)
  }

  /** The required paths a new record lacks. */
  function MissingCodePaths(userId: Option<Id>, code: string, kind: Option<VerificationKind>,
                            expiredAt: Option<int>): set<string>
  {
    (if userId.None? then {"userId"} else {}) +
    (if code == "" then {"code"} else {}) +
    (if kind.None? then {"type"} else {}) +
    (if expiredAt.None? then {"expiredAt"} else {})
  }

  function NewVerificationCode(id: Id, userId: Option<Id>, code: Option<string>, kind: Option<VerificationKind>,
                               createdAt: Option<int>, expiredAt: Option<int>,
                               uuid: string, now: int): (r: Result<VerificationCode, StoreError>)
    ensures r.Failure? <==> (userId.None? || CodeFor(code, uuid) == "" || kind.None? || expiredAt.None?)
    ensures r.Failure? ==> r.error == ValidationFailed(MissingCodePaths(userId, CodeFor(code, uuid), kind, expiredAt))
    ensures r.Success? ==>
      && r.value.id == id && r.value.userId == userId.value && r.value.kind == kind.value
      && r.value.expiredAt == expiredAt.value
      && (code.Some? ==> r.value.code == code.value)
      && (code.None? ==> r.value.code == Uuid.GenerateUniqueCode(uuid))
      && (createdAt.None? ==> r.value.createdAt == now)
      && (createdAt.Some? ==> r.value.createdAt == createdAt.value)
  {
    var c := CodeFor(code, uuid);
    var missing := MissingCodePaths(userId, c, kind, expiredAt);
    if missing != {} then Failure(ValidationFailed(missing))
    else Success(VerificationCode(id, userId.value, c, kind.value, OrDefault(createdAt, now), expiredAt.value))
  }

  /** A defaulted code from a canonical UUID is 25 characters and holds no
      '-', so it always passes the required check. */
  lemma DefaultCodeShape(id: Id, userId: Id, kind: VerificationKind, expiredAt: int, uuid: string, now: int)
    requires Uuid.IsCanonicalUuid(uuid)
    ensures var r := NewVerificationCode(id, Some(userId), None, Some(kind), None, Some(expiredAt), uuid, now);
            r.Success? && |r.value.code| == 25 && '-' !in r.value.code
  {
    Uuid.CanonicalUuidCode(uuid);
  }

  /** The unique index on `code`. */
  ghost predicate UniqueCodes(codes: map<Id, VerificationCode>)
  {
    forall a, b :: a in codes && b in codes && codes[a].code == codes[b].code ==> a == b
  }

  predicate CodeTaken(codes: map<Id, VerificationCode>, code: string)
  {
    exists k :: k in codes && codes[k].code == code
  }

  /** Adding a record whose code is not taken keeps the codes unique. */
  lemma InsertKeepsUnique(codes: map<Id, VerificationCode>, v: VerificationCode)
    requires UniqueCodes(codes)
    requires v.id !in codes && !CodeTaken(codes, v.code)
    ensures UniqueCodes(codes[v.id := v])
  {
  }
}
