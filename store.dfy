/** The three collections the services touch (users, sessions, verification
    codes) as maps in one class. `nextId` stands for the ObjectId generator:
    every insert takes it and bumps it, so ids are never reused. The session
    model is exported under one name and imported under another by the MFA
    service; both names denote the one `sessions` map here. */
module Store {
  import opened Common
  import opened Errors
  import opened UserModel
  import opened SessionModel
  import opened VerificationModel

  /** The unique index on `email`. */
  ghost predicate UniqueEmails(users: map<Id, User>)
  {
    forall a, b :: a in users && b in users && users[a].email == users[b].email ==> a == b
  }

  predicate EmailTaken(users: map<Id, User>, email: string)
  {
    exists k :: k in users && users[k].email == email
  }

  /** The one user with the given email. */
  ghost function UserByEmail(users: map<Id, User>, email: string): (u: User)
    requires EmailTaken(users, email)
    ensures u in users.Values && u.email == email
  {
    var k :| k in users && users[k].email == email; users[k]
  }

  /** A document differs from its stored record only on its modified paths. */
  ghost predicate InSync(stored: User, doc: User, modified: set<UserPath>)
  {
    ApplyModified(stored, doc, modified, doc.updatedAt) == doc
  }

  /** The preference paths, the only ones the services modify on a loaded user. */
  const PreferencePaths: set<UserPath> := {Enable2FAPath, EmailNotificationPath, TwoFactorSecretPath}

  class Store {
    var users: map<Id, User>
    var sessions: map<Id, Session>
    var codes: map<Id, VerificationCode>
    var nextId: nat

    /** Every record sits under its own id, below the next id, and both
        unique indexes hold. */
    ghost predicate Valid()
      reads this
    {
      && (forall k :: k in users ==> users[k].id == k && k < nextId)
      && (forall k :: k in sessions ==> sessions[k].id == k && k < nextId)
      && (forall k :: k in codes ==> codes[k].id == k && k < nextId)
      && UniqueEmails(users)
      && UniqueCodes(codes)
    }

    constructor ()
      ensures Valid()
      ensures users == map[] && sessions == map[] && codes == map[]
    {
      users, sessions, codes := map[], map[], map[];
      nextId := 0;
    }

    /** A fresh ObjectId. */
    method FreshId() returns (id: Id)
      modifies this`nextId
      ensures id == old(nextId) && nextId == id + 1
    {
      id := nextId;
      nextId := nextId + 1;
    }

    /** `UserModel.exists({email})`. */
    method UserExists(email: string) returns (b: bool)
      ensures b <==> EmailTaken(users, email)
    {
      b := exists k | k in users :: users[k].email == email;
    }

    /** `UserModel.findOne({email})`: a freshly loaded document, or null. */
    method FindUserByEmail(email: string) returns (doc: UserDocument?)
      requires Valid()
      ensures doc == null <==> !EmailTaken(users, email)
      ensures doc != null ==>
        && fresh(doc) && doc.id in users && doc.Value() == users[doc.id]
        && doc.Value() == UserByEmail(users, email) && doc.modified == {}
    {
      if exists k | k in users :: users[k].email == email {
        var k :| k in users && users[k].email == email;
        doc := new UserDocument.Hydrate(users[k]);
      } else {
        doc := null;
      }
    }

    /** `UserModel.create({name, email, password})`: validate, run the
        pre-save hook on the new document (every path is modified, so the
        password is hashed), then insert under the unique email index. */
    method CreateUser(name: string, email: string, password: string, hash: string -> string, now: int)
      returns (r: Result<User, StoreError>)
      requires Valid()
      modifies this
      ensures Valid()
      ensures sessions == old(sessions) && codes == old(codes) && nextId == old(nextId) + 1
      ensures MissingUserPaths(name, email, password) != {} ==>
        r == Failure(ValidationFailed(MissingUserPaths(name, email, password))) && users == old(users)
      ensures MissingUserPaths(name, email, password) == {} && old(EmailTaken(users, email)) ==>
        r == Failure(DuplicateKey("email")) && users == old(users)
      ensures MissingUserPaths(name, email, password) == {} && !old(EmailTaken(users, email)) ==>
        var id := old(nextId);
        && r == Success(User(id, name, email, hash(password), DefaultPreferences(), now, now))
        && users == old(users)[id := r.value]
        && PasswordMatches(hash, password, users[id].password)
    {
      var id := FreshId();
      var rec := NewUserRecord(id, name, email, password, now);
      if rec.Failure? {
        return Failure(rec.error);
      }
      var doc := new UserDocument.New(rec.value);
      doc.PreSave(hash);
      var taken := UserExists(email);
      if taken {
        return Failure(DuplicateKey("email"));
      }
      users := users[id := doc.Value()];
      r := Success(doc.Value());
    }

    /** `VerificationCodeModel.create({userId, type, expiredAt})`, the code
        defaulted from `uuid`, then inserted under the unique code index. */
    method CreateVerificationCode(userId: Id, kind: VerificationKind, expiredAt: int, uuid: string, now: int)
      returns (r: Result<VerificationCode, StoreError>)
      requires Valid()
      modifies this
      ensures Valid()
      ensures users == old(users) && sessions == old(sessions) && nextId == old(nextId) + 1
      ensures var rec := NewVerificationCode(old(nextId), Some(userId), None, Some(kind), None, Some(expiredAt), uuid, now);
        && (rec.Failure? ==> r == Failure(rec.error) && codes == old(codes))
        && (rec.Success? && old(CodeTaken(codes, rec.value.code)) ==>
              r == Failure(DuplicateKey("code")) && codes == old(codes))
        && (rec.Success? && !old(CodeTaken(codes, rec.value.code)) ==>
              r == rec && codes == old(codes)[rec.value.id := rec.value])
    {
      var id := FreshId();
      var rec := NewVerificationCode(id, Some(userId), None, Some(kind), None, Some(expiredAt), uuid, now);
      if rec.Failure? {
        return Failure(rec.error);
      }
      var taken := exists k | k in codes :: codes[k].code == rec.value.code;
      if taken {
        return Failure(DuplicateKey("code"));
      }
      InsertKeepsUnique(codes, rec.value);
      codes := codes[id := rec.value];
      r := rec;
    }

    /** `SessionSchema.create({userId, userAgent})`: both clock defaults read
        the same instant `now`. */
    method CreateSession(userId: Id, userAgent: Option<string>, now: int) returns (s: Session)
      requires Valid()
      modifies this
      ensures Valid()
      ensures users == old(users) && codes == old(codes) && nextId == old(nextId) + 1
      ensures s == NewSession(old(nextId), Some(userId), userAgent, None, None, now, now).value
      ensures s.id == old(nextId) && s.id !in old(sessions)
      ensures sessions == old(sessions)[s.id := s]
    {
      var id := FreshId();
      var rec := NewSession(id, Some(userId), userAgent, None, None, now, now);
      s := rec.value;
      sessions := sessions[id := s];
    }

    /** `user.save()` on a loaded document whose changes are confined to its
        preferences: the pre-save hook runs (and leaves the password alone),
        the modified paths are written, and the document is clean again. */
    method SaveUser(doc: UserDocument, hash: string -> string, now: int)
      requires Valid()
      requires doc.id in users && doc.modified <= PreferencePaths
      modifies this, doc
      ensures Valid()
      ensures sessions == old(sessions) && codes == old(codes) && nextId == old(nextId)
      ensures users == old(users)[doc.id := ApplyModified(old(users[doc.id]), old(doc.Value()), old(doc.modified), now)]
      ensures doc.modified == {}
      ensures doc.Value() == old(doc.Value()).(updatedAt := if old(doc.modified) == {} then old(doc.updatedAt) else now)
      ensures old(InSync(users[doc.id], doc.Value(), doc.modified)) ==> doc.Value() == users[doc.id]
    {
      doc.PreSave(hash);
      var written := ApplyModified(users[doc.id], doc.Value(), doc.modified, now);
      users := users[doc.id := written];
      if doc.modified != {} {
        doc.updatedAt := now;
      }
      doc.modified := {};
    }
    /** The pre-save hook hashes a password once. A user created with
        `password`, loaded again by email and saved after a change to its
        two-factor preferences (the way the MFA service saves) still passes
        `comparePassword(password)`, in memory and in the store. */
    method CreatedUserKeepsPassword(name: string, email: string, password: string, hash: string -> string,
                                    now: int, enable: bool, secret: Option<string>, later: int)
      returns (doc: UserDocument?)
      requires Valid()
      modifies this
      ensures Valid()
      ensures doc == null <==> MissingUserPaths(name, email, password) != {} || old(EmailTaken(users, email))
      ensures doc != null ==>
        && doc.id in users && doc.Value() == users[doc.id]
        && doc.ComparePassword(hash, password)
        && PasswordMatches(hash, password, users[doc.id].password)
        && doc.prefs.enable2FA == enable && doc.prefs.twoFactorSecret == secret
    {
      var r := CreateUser(name, email, password, hash, now);
      if r.Failure? {
        return null;
      }
      ghost var id := r.value.id;
      assert users[id].email == email;
      doc := FindUserByEmail(email);
      assert doc.id == id;
      doc.SetTwoFactorSecret(secret);
      doc.SetEnable2FA(enable);
      SaveUser(doc, hash, later);
    }
  }
}
