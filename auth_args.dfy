/** The credentials the assistant authenticates with (class AuthArgs): a mode tag
    and the fields that mode uses; the fields of the other modes stay null. */
module Auth {
  import opened Wrappers
  import opened Bus

  /** AuthArgs.AuthMode. */
  datatype AuthMode = AuthByPassword | AuthByCertificate | AuthBySharing

  /** An RSAPrivateKey, compared by identity. */
  datatype PrivateKey = PrivateKey(id: nat)

  type Bytes = seq<bv8>

  /** An AuthArgs object; `None` stands for a null field. */
  datatype AuthArgs = AuthArgs(
    mode: AuthMode,
    entity: Option<string>,
    password: Option<Bytes>,
    privkey: Option<PrivateKey>,
    secret: Option<SharedAuthSecret>)
  {
    /** The shapes the constructors produce: the fields of the object's mode are
        set and every other field is null. */
    predicate Valid() {
      match mode
      case AuthByPassword =>
        entity.Some? && password.Some? && privkey.None? && secret.None?
      case AuthByCertificate =>
        entity.Some? && password.None? && privkey.Some? && secret.None?
      case AuthBySharing =>
        entity.None? && password.None? && privkey.None? && secret.Some?
    }
  }

  /** new AuthArgs(entity, password): rejects a null entity or password. */
  function WithPassword(entity: Option<string>, password: Option<Bytes>): (r: Result<AuthArgs, Exception>)
    ensures r.Success? <==> entity.Some? && password.Some?
    ensures r.Failure? ==> r.error == IllegalArgument
    ensures r.Success? ==>
      r.value.Valid() && r.value.mode == AuthByPassword &&
      r.value.entity == entity && r.value.password == password
  {
    if entity.None? || password.None? then Failure(IllegalArgument)
    else Success(AuthArgs(AuthByPassword, entity, password, None, None))
  }

  /** new AuthArgs(entity, privkey): rejects a null entity or private key. */
  function WithPrivateKey(entity: Option<string>, privkey: Option<PrivateKey>): (r: Result<AuthArgs, Exception>)
    ensures r.Success? <==> entity.Some? && privkey.Some?
    ensures r.Failure? ==> r.error == IllegalArgument
    ensures r.Success? ==>
      r.value.Valid() && r.value.mode == AuthByCertificate &&
      r.value.entity == entity && r.value.privkey == privkey
  {
    if entity.None? || privkey.None? then Failure(IllegalArgument)
    else Success(AuthArgs(AuthByCertificate, entity, None, privkey, None))
  }

  /** new AuthArgs(secret): rejects a null secret. */
  function WithSecret(secret: Option<SharedAuthSecret>): (r: Result<AuthArgs, Exception>)
    ensures r.Success? <==> secret.Some?
    ensures r.Failure? ==> r.error == IllegalArgument
    ensures r.Success? ==>
      r.value.Valid() && r.value.mode == AuthBySharing && r.value.secret == secret
  {
    if secret.None? then Failure(IllegalArgument)
    else Success(AuthArgs(AuthBySharing, None, None, None, secret))
  }

  /** Every valid AuthArgs is what its mode's constructor builds from its own
      fields, so the three constructors produce exactly the valid objects. */
  lemma ValidIsConstructed(a: AuthArgs)
    requires a.Valid()
    ensures a.mode == AuthByPassword ==> WithPassword(a.entity, a.password) == Success(a)
    ensures a.mode == AuthByCertificate ==> WithPrivateKey(a.entity, a.privkey) == Success(a)
    ensures a.mode == AuthBySharing ==> WithSecret(a.secret) == Success(a)
  {
  }
}
