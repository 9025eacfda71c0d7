/** The `authenticator-verification-data` remediator: it names the
    authenticator under verification, says which inputs the caller must
    collect, and trims the values it submits.

    What the inherited `AuthenticatorData` helpers return
    (`getAuthenticatorData()`, `getAuthenticatorFromRemediation()`, the base
    `getValuesAfterProceed()`) enters as parameters. */
module Remediators {
  import opened Wrappers
  import opened IdxTypes

  /** The remediation name the dispatcher looks this remediator up by. */
  const RemediationName: string := "authenticator-verification-data"

  /** The value key that must not be re-sent as a flat field. */
  const AuthenticatorKey: string := "authenticator"

  /** What `getAuthenticatorData()` hands back, as JavaScript's truthiness
      test and property access see it: an object, `undefined`, `null`, or
      another falsy value (`false`, `0`, `""`, `NaN`) whose properties read
      as `undefined`. */
  datatype AuthenticatorData = Known(authenticator: IdxAuthenticator) | Undefined | Null | OtherFalsy

  /** The TypeErrors the remediator's non-null assertions let through. */
  datatype TypeError =
    | FormUndefined            // `form!.value` on a remediation without a form
    | IdFieldMissing           // `find(...)!.value` on a form without an `id` field
    | AuthenticatorDataNullish // `authenticatorData!.methodType` on undefined or null

  /** What `getInputAuthenticator` returns: one synthetic field, or a list. */
  datatype Inputs = SingleInput(input: FormField) | InputList(inputs: seq<FormField>)

  /** The synthetic input that prompts the caller to pick a method type. */
  const MethodTypeInput: FormField :=
    FormField("methodType", Some("string"), Some(true), None, None)

  /** The first `methodType` field of the form carries options (any array is
      truthy in JavaScript, an empty one included). */
  ghost predicate OffersMethodChoice(form: seq<FormField>) {
    exists i :: IsFirstNamed(form, "methodType", i) && form[i].options.Some?
  }

  /** `mapAuthenticator()`, as written: the embedded descriptor if there is
      one; otherwise a descriptor built from the form's `id` and
      `enrollmentId` fields, whose `methodType` is read from the falsy
      `authenticatorData` itself. */
  function MapAuthenticator(data: AuthenticatorData, fromRemediation: RemediationValue)
    : (r: Result<IdxAuthenticator, TypeError>)
    ensures data.Known? ==> r == Success(data.authenticator)
    ensures !data.Known? ==>
      (r.Success? <==> fromRemediation.form.Some? && HasField(fromRemediation.form.value, "id") && data == OtherFalsy)
    ensures !data.Known? && fromRemediation.form.None? ==> r == Failure(FormUndefined)
    ensures !data.Known? && fromRemediation.form.Some? && !HasField(fromRemediation.form.value, "id") ==>
      r == Failure(IdFieldMissing)
    ensures !data.Known? && (data == Undefined || data == Null) ==> r.Failure?
    ensures !data.Known? && data != OtherFalsy && fromRemediation.form.Some? && HasField(fromRemediation.form.value, "id") ==>
      r == Failure(AuthenticatorDataNullish)
    ensures !data.Known? && r.Success? ==>
      var form := fromRemediation.form.value;
      && (forall i | IsFirstNamed(form, "id", i) :: r.value.id == form[i].value)
      && (forall i | IsFirstNamed(form, "enrollmentId", i) :: r.value.enrollmentId == form[i].value)
      && (!HasField(form, "enrollmentId") ==> r.value.enrollmentId == None)
      && r.value.methodType == None
      && r.value.authenticatorType == None
  {
    if data.Known? then Success(data.authenticator)
    else if fromRemediation.form.None? then Failure(FormUndefined)
    else
      var idField := Find(fromRemediation.form.value, "id");
      if idField.None? then Failure(IdFieldMissing)
      else
        var enrollmentField := Find(fromRemediation.form.value, "enrollmentId");
        var enrollmentId := if enrollmentField.Some? then enrollmentField.value.value else None;
        if data == Undefined || data == Null then Failure(AuthenticatorDataNullish)
        else Success(IdxAuthenticator(idField.value.value, None, None, enrollmentId))
  }

  /** `mapAuthenticator()` as evidently intended: the fallback descriptor is
      built from the form alone, without dereferencing the absent
      `authenticatorData` (`authenticatorData?.methodType`). */
  function MapAuthenticatorGuarded(data: AuthenticatorData, fromRemediation: RemediationValue)
    : (r: Result<IdxAuthenticator, TypeError>)
    ensures data.Known? ==> r == Success(data.authenticator)
    ensures !data.Known? ==>
      (r.Success? <==> fromRemediation.form.Some? && HasField(fromRemediation.form.value, "id"))
    ensures !data.Known? && r.Success? ==>
      var form := fromRemediation.form.value;
      && (forall i | IsFirstNamed(form, "id", i) :: r.value.id == form[i].value)
      && (forall i | IsFirstNamed(form, "enrollmentId", i) :: r.value.enrollmentId == form[i].value)
      && (!HasField(form, "enrollmentId") ==> r.value.enrollmentId == None)
      && r.value.methodType == None
  {
    if data.Known? then Success(data.authenticator)
    else if fromRemediation.form.None? then Failure(FormUndefined)
    else
      var idField := Find(fromRemediation.form.value, "id");
      if idField.None? then Failure(IdFieldMissing)
      else
        var enrollmentField := Find(fromRemediation.form.value, "enrollmentId");
        var enrollmentId := if enrollmentField.Some? then enrollmentField.value.value else None;
        Success(IdxAuthenticator(idField.value.value, None, None, enrollmentId))
  }

  /** The inference path of `mapAuthenticator()` as written can never succeed
      when `getAuthenticatorData()` returned `undefined`: even a form with an
      `id` field makes it throw. */
  lemma UndefinedDataAlwaysThrows(fromRemediation: RemediationValue)
    ensures MapAuthenticator(Undefined, fromRemediation).Failure?
    ensures fromRemediation.form.Some? && HasField(fromRemediation.form.value, "id") ==>
      MapAuthenticator(Undefined, fromRemediation) == Failure(AuthenticatorDataNullish)
  {
  }

  /** A concrete input: a remediation whose form offers an `id` field, with
      no authenticator data, makes the code as written throw where the
      guarded version yields the inferred descriptor. */
  lemma IdFormWithoutDataThrows()
    ensures
      var form := [FormField("id", Some("string"), Some(true), Some("aut1"), None)];
      var fromRemediation := RemediationValue("select-authenticator-authenticate", Some(form));
      && MapAuthenticator(Undefined, fromRemediation) == Failure(AuthenticatorDataNullish)
      && MapAuthenticatorGuarded(Undefined, fromRemediation) ==
           Success(IdxAuthenticator(Some("aut1"), None, None, None))
  {
  }

  /** The guarded version agrees with the code as written wherever the code
      as written does not throw, and otherwise differs only on the line-38
      dereference. */
  lemma {:induction false} GuardedAgreesWhereWrittenSucceeds(data: AuthenticatorData, fromRemediation: RemediationValue)
    ensures MapAuthenticator(data, fromRemediation).Success? ==>
      MapAuthenticatorGuarded(data, fromRemediation) == MapAuthenticator(data, fromRemediation)
    ensures MapAuthenticatorGuarded(data, fromRemediation) != MapAuthenticator(data, fromRemediation) ==>
      MapAuthenticator(data, fromRemediation) == Failure(AuthenticatorDataNullish) && (data == Undefined || data == Null)
  {
  }

  /** `getInputAuthenticator()`: the synthetic `methodType` input when the
      form's first `methodType` field offers options, otherwise a copy of the
      whole form in its order. */
  function GetInputAuthenticator(fromRemediation: RemediationValue): (r: Result<Inputs, TypeError>)
    ensures fromRemediation.form.None? <==> r == Failure(FormUndefined)
    ensures r.Success? || r == Failure(FormUndefined)
    ensures r.Success? && OffersMethodChoice(fromRemediation.form.value) ==>
      r.value == SingleInput(MethodTypeInput)
    ensures r.Success? && !OffersMethodChoice(fromRemediation.form.value) ==>
      r.value == InputList(fromRemediation.form.value)
  {
    if fromRemediation.form.None? then Failure(FormUndefined)
    else
      var form := fromRemediation.form.value;
      var methodType := Find(form, "methodType");
      FirstNamedExists(form, "methodType");
      if methodType.Some? && methodType.value.options.Some? then Success(SingleInput(MethodTypeInput))
      else Success(InputList(form[..]))
  }

  /** The values `getValuesAfterProceed()` returns: every key but
      `authenticator`, each with its value unchanged. */
  function WithoutAuthenticator<V>(values: map<string, V>): (r: map<string, V>)
    ensures r.Keys == values.Keys - {AuthenticatorKey}
    ensures forall k | k in r :: r[k] == values[k]
  {
    values - {AuthenticatorKey}
  }

  /** Trimming twice is trimming once. */
  lemma TrimIdempotent<V>(values: map<string, V>)
    ensures WithoutAuthenticator(WithoutAuthenticator(values)) == WithoutAuthenticator(values)
  {
  }

  /** Lines 56-57: list the keys other than `authenticator`, then fold them
      into a fresh object, copying each value. */
  method TrimValues<V>(values: map<string, V>) returns (trimmed: map<string, V>)
    ensures trimmed == WithoutAuthenticator(values)
  {
    var keys := set k | k in values && k != AuthenticatorKey;
    ghost var kept := keys;
    trimmed := map[];
    while keys != {}
      invariant keys <= kept
      invariant trimmed.Keys == kept - keys
      invariant forall k | k in trimmed :: trimmed[k] == values[k]
      decreases keys
    {
      var k :| k in keys;
      trimmed := trimmed[k := values[k]];
      keys := keys - {k};
    }
    assert trimmed.Keys == WithoutAuthenticator(values).Keys;
  }

  /** The remediator's mutable state: the values it will submit. */
  class AuthenticatorVerificationData<V> {
    var values: map<string, V>

    constructor(values: map<string, V>)
      ensures this.values == values
    {
      this.values := values;
    }

    /** `getValuesAfterProceed()`: store the base class's values, then return
        them without the `authenticator` key. */
    method GetValuesAfterProceed(baseValues: map<string, V>) returns (trimmed: map<string, V>)
      modifies this
      ensures values == baseValues
      ensures trimmed == WithoutAuthenticator(baseValues)
    {
      values := baseValues;
      trimmed := TrimValues(values);
    }
  }
}
