/** Values exchanged with the bus: login information, service properties, offer
    descriptors, the exceptions the bus and the JVM raise, and the notices the
    failure callback receives. */
module Bus {
  import opened Wrappers

  type LoginId = string

  /** LoginInfo as returned by Connection.login(): the login identifier and its entity. */
  datatype LoginInfo = LoginInfo(id: LoginId, entity: string)

  /** ServiceProperty: a name/value pair describing an offer. */
  datatype Property = Property(name: string, value: string)

  /** ServiceOfferDesc, reduced to the property list the assistant inspects. */
  datatype OfferDesc = OfferDesc(properties: seq<Property>)

  /** An IComponent reference, compared by identity. */
  datatype ComponentRef = ComponentRef(id: nat)

  /** A SharedAuthSecret issued by the bus. */
  datatype SharedAuthSecret = SharedAuthSecret(id: nat)

  /** The exceptions the assistant tells apart. Every bus or transport failure
      (ServiceFailure, TRANSIENT, COMM_FAILURE, NO_PERMISSION, AccessDenied,
      MissingCertificate, InvalidLoginProcess, registry exceptions, anything
      unexpected) is one `BusError`, its code telling instances apart. */
  datatype Exception =
    | AlreadyLoggedIn
    | NullPointer
    | IllegalArgument
    | RejectedExecution
    | BusError(code: nat)

  /** One invocation of the application's OnFailureCallback. */
  datatype Failure =
    | LoginFailure(cause: Exception)
    | RegisterFailure(component: ComponentRef, properties: seq<Property>, cause: Exception)
    | FindFailure(cause: Exception)
    | StartSharedAuthFailure(cause: Exception)

  /** Name of the property in which the registry records the login that made an offer. */
  const OfferLoginProperty: string := "openbus.offer.login"

  /** The value of the first property named `name`, or None when there is none. */
  function FirstValue(props: seq<Property>, name: string): Option<string> {
    if |props| == 0 then None
    else if props[0].name == name then Some(props[0].value)
    else FirstValue(props[1..], name)
  }

  /** FirstValue is None exactly when no property has that name, and otherwise
      the value of the first property that has it. */
  lemma {:induction false} FirstValueFinds(props: seq<Property>, name: string)
    ensures var v := FirstValue(props, name);
      && (v.None? <==> forall i :: 0 <= i < |props| ==> props[i].name != name)
      && (v.Some? ==>
            exists i :: 0 <= i < |props| && props[i] == Property(name, v.value) &&
              forall j :: 0 <= j < i ==> props[j].name != name)
  {
    if |props| > 0 && props[0].name != name {
      FirstValueFinds(props[1..], name);
      assert forall i :: 1 <= i < |props| ==> props[i] == props[1..][i - 1];
      var v := FirstValue(props, name);
      if v.Some? {
        var i :| 0 <= i < |props[1..]| && props[1..][i] == Property(name, v.value) &&
                 forall j :: 0 <= j < i ==> props[1..][j].name != name;
        assert props[i + 1] == Property(name, v.value);
        assert forall j :: 0 <= j < i + 1 ==> props[j].name != name;
      }
    }
  }
}
