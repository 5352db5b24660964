/** The user record: its schema defaults and required fields, the in-memory
    document with the pre-save hook that hashes a modified password,
    `comparePassword`, and the `toJSON` redaction. Hashing is the parameter
    `hash` (an ideal, deterministic password hash); `comparePassword` holds
    when the plaintext hashes to the stored value. */
module UserModel {
  import opened Common
  import opened Errors

  datatype UserPreferences = UserPreferences(enable2FA: bool, emailNotification: bool, twoFactorSecret: Option<string>)

  /** The `userPreferences` default `{}` with its field defaults applied. */
  function DefaultPreferences(): (p: UserPreferences)
    ensures !p.enable2FA && p.emailNotification && p.twoFactorSecret.None?
  {
    UserPreferences(false, true, None)
  }

  /** A stored user. `isEmailVerified` is declared on the document type but
      not in the schema, so it is never stored and is not a field here. */
  datatype User = User(
    id: Id,
    name: string,
    email: string,
    password: string,
    prefs: UserPreferences,
    createdAt: int,
    updatedAt: int)

  /** The paths of a user document that a save can write. */
  datatype UserPath =
    | NamePath | EmailPath | PasswordPath
    | Enable2FAPath | EmailNotificationPath | TwoFactorSecretPath

  const AllPaths: set<UserPath> :=
    {NamePath, EmailPath, PasswordPath, Enable2FAPath, EmailNotificationPath, TwoFactorSecretPath}

  /** The required paths a new user lacks (a required string must be non-empty). */
  function MissingUserPaths(name: string, email: string, password: string): set<string>
  {
    (if name == "" then {"name"} else {}) +
    (if email == "" then {"email"} else {}) +
    (if password == "" then {"password"} else {})
  }

  /** `new UserModel({name, email, password})` at time `now`, before saving:
      required fields checked, defaults filled in, password still plaintext. */
  function NewUserRecord(id: Id, name: string, email: string, password: string, now: int): (r: Result<User, StoreError>)
    ensures r.Failure? <==> (name == "" || email == "" || password == "")
    ensures r.Failure? ==> r.error == ValidationFailed(MissingUserPaths(name, email, password))
    ensures r.Success? ==>
      && r.value.id == id && r.value.name == name && r.value.email == email
      && r.value.password == password
      && r.value.prefs == DefaultPreferences()
      && r.value.createdAt == now && r.value.updatedAt == now
  {
    var missing := MissingUserPaths(name, email, password);
    if missing != {} then Failure(ValidationFailed(missing))
    else Success(User(id, name, email, password, DefaultPreferences(), now, now))
  }

  /** What a save writes over the stored record: the modified paths, taken
      from the document, and a fresh `updatedAt` when anything changed. */
  function ApplyModified(stored: User, doc: User, paths: set<UserPath>, now: int): (w: User)
    ensures paths == {} ==> w == stored
    ensures w.id == stored.id && w.createdAt == stored.createdAt
    ensures paths != {} ==> w.updatedAt == now
    ensures PasswordPath !in paths ==> w.password == stored.password
    ensures PasswordPath in paths ==> w.password == doc.password
    ensures NamePath in paths ==> w.name == doc.name
    ensures NamePath !in paths ==> w.name == stored.name
    ensures EmailPath in paths ==> w.email == doc.email
    ensures EmailPath !in paths ==> w.email == stored.email
    ensures TwoFactorSecretPath in paths ==> w.prefs.twoFactorSecret == doc.prefs.twoFactorSecret
    ensures TwoFactorSecretPath !in paths ==> w.prefs.twoFactorSecret == stored.prefs.twoFactorSecret
    ensures Enable2FAPath in paths ==> w.prefs.enable2FA == doc.prefs.enable2FA
    ensures Enable2FAPath !in paths ==> w.prefs.enable2FA == stored.prefs.enable2FA
    ensures EmailNotificationPath in paths ==> w.prefs.emailNotification == doc.prefs.emailNotification
    ensures EmailNotificationPath !in paths ==> w.prefs.emailNotification == stored.prefs.emailNotification
  {
    stored.(
      name := if NamePath in paths then doc.name else stored.name,
      email := if EmailPath in paths then doc.email else stored.email,
      password := if PasswordPath in paths then doc.password else stored.password,
      prefs := UserPreferences(
        if Enable2FAPath in paths then doc.prefs.enable2FA else stored.prefs.enable2FA,
        if EmailNotificationPath in paths then doc.prefs.emailNotification else stored.prefs.emailNotification,
        if TwoFactorSecretPath in paths then doc.prefs.twoFactorSecret else stored.prefs.twoFactorSecret),
      updatedAt := if paths == {} then stored.updatedAt else now)
  }

  /** `comparePassword`: the plaintext against the stored hash. */
  predicate PasswordMatches(hash: string -> string, plain: string, stored: string)
  {
    hash(plain) == stored
  }

  /** A user document held in memory, as a query or `create` returns it: the
      record's fields and the set of paths modified since it was loaded. */
  class UserDocument {
    const id: Id
    var name: string
    var email: string
    var password: string
    var prefs: UserPreferences
    var createdAt: int
    var updatedAt: int
    var modified: set<UserPath>

    function Value(): User
      reads this
    {
      User(id, name, email, password, prefs, createdAt, updatedAt)
    }

    /** A document loaded from the store: nothing modified yet. */
    constructor Hydrate(u: User)
      ensures Value() == u && modified == {}
    {
      id, name, email, password := u.id, u.name, u.email, u.password;
      prefs, createdAt, updatedAt := u.prefs, u.createdAt, u.updatedAt;
      modified := {};
    }

    /** A new document: every path counts as modified. */
    constructor New(u: User)
      ensures Value() == u && modified == AllPaths
    {
      id, name, email, password := u.id, u.name, u.email, u.password;
      prefs, createdAt, updatedAt := u.prefs, u.createdAt, u.updatedAt;
      modified := AllPaths;
    }

    /** `user.userPreferences.twoFactorSecret = s`. */
    method SetTwoFactorSecret(s: Option<string>)
      modifies this
      ensures Value() == old(Value()).(prefs := old(prefs).(twoFactorSecret := s))
      ensures modified == old(modified) + {TwoFactorSecretPath}
    {
      prefs := prefs.(twoFactorSecret := s);
      modified := modified + {TwoFactorSecretPath};
    }

    /** `user.userPreferences.enable2FA = b`. */
    method SetEnable2FA(b: bool)
      modifies this
      ensures Value() == old(Value()).(prefs := old(prefs).(enable2FA := b))
      ensures modified == old(modified) + {Enable2FAPath}
    {
      prefs := prefs.(enable2FA := b);
      modified := modified + {Enable2FAPath};
    }

    /** The pre-save hook: hash the password only when it was modified. */
    method PreSave(hash: string -> string)
      modifies this`password
      ensures PasswordPath in modified ==> password == hash(old(password))
      ensures PasswordPath !in modified ==> password == old(password)
    {
      if PasswordPath in modified {
        password := hash(password);
      }
    }

    /** `user.comparePassword(value)`. */
    predicate ComparePassword(hash: string -> string, value: string)
      reads this
    {
      PasswordMatches(hash, value, password)
    }
  }

  // ---- toJSON ----

  /** The JSON values a serialised user holds. */
  datatype Json =
    | JString(s: string)
    | JNumber(n: int)
    | JBool(b: bool)
    | JObject(fields: map<string, Json>)

  function PreferencesJson(p: UserPreferences): map<string, Json>
  {
    var base := map["enable2FA" := JBool(p.enable2FA), "emailNotification" := JBool(p.emailNotification)];
    if p.twoFactorSecret.Some? then base["twoFactorSecret" := JString(p.twoFactorSecret.value)] else base
  }

  /** The plain object a user document converts to before the transform. */
  function Serialize(u: User): map<string, Json>
  {
    map[
      "_id" := JNumber(u.id),
      "name" := JString(u.name),
      "email" := JString(u.email),
      "password" := JString(u.password),
      "userPreferences" := JObject(PreferencesJson(u.prefs)),
      "createdAt" := JNumber(u.createdAt),
      "updatedAt" := JNumber(u.updatedAt)]
  }

  /** The `toJSON` transform on a value: `password` and
      `userPreferences.twoFactorSecret` removed, everything else kept. */
  function Redact(ret: map<string, Json>): (r: map<string, Json>)
    requires "userPreferences" in ret && ret["userPreferences"].JObject?
    ensures "password" !in r
    ensures "userPreferences" in r && r["userPreferences"].JObject?
    ensures "twoFactorSecret" !in r["userPreferences"].fields
    ensures r.Keys == ret.Keys - {"password"}
    ensures forall k :: k in ret && k != "password" && k != "userPreferences" ==> r[k] == ret[k]
    ensures r["userPreferences"].fields.Keys == ret["userPreferences"].fields.Keys - {"twoFactorSecret"}
    ensures forall k :: k in ret["userPreferences"].fields && k != "twoFactorSecret" ==>
              r["userPreferences"].fields[k] == ret["userPreferences"].fields[k]
  {
    var withoutPassword := ret - {"password"};
    withoutPassword["userPreferences" := JObject(ret["userPreferences"].fields - {"twoFactorSecret"})]
  }

  /** A JSON object the transform receives and changes in place. */
  class JsonDocument {
    var fields: map<string, Json>

    constructor (fields: map<string, Json>)
      ensures this.fields == fields
    {
      this.fields := fields;
    }
  }

  /** The transform: delete the two keys from `ret` and return it. */
  method ToJsonTransform(ret: JsonDocument) returns (r: JsonDocument)
    requires "userPreferences" in ret.fields && ret.fields["userPreferences"].JObject?
    modifies ret
    ensures r == ret
    ensures ret.fields == Redact(old(ret.fields))
  {
    ret.fields := ret.fields - {"password"};
    var prefs := ret.fields["userPreferences"].fields;
    ret.fields := ret.fields["userPreferences" := JObject(prefs - {"twoFactorSecret"})];
    r := ret;
  }

  /** The public view of a user, written out directly. */
  function PublicJson(u: User): map<string, Json>
  {
    map[
      "_id" := JNumber(u.id),
      "name" := JString(u.name),
      "email" := JString(u.email),
      "userPreferences" := JObject(map["enable2FA" := JBool(u.prefs.enable2FA),
                                       "emailNotification" := JBool(u.prefs.emailNotification)]),
      "createdAt" := JNumber(u.createdAt),
      "updatedAt" := JNumber(u.updatedAt)]
  }

  /** Redacting a serialised user gives exactly its public view: neither the
      password hash nor the TOTP secret survives, and nothing else is lost. */
  lemma RedactedUserIsPublic(u: User)
    ensures Redact(Serialize(u)) == PublicJson(u)
  {
    var p := PreferencesJson(u.prefs) - {"twoFactorSecret"};
    assert p == map["enable2FA" := JBool(u.prefs.enable2FA), "emailNotification" := JBool(u.prefs.emailNotification)];
    assert Redact(Serialize(u)).Keys == PublicJson(u).Keys;
  }
}
