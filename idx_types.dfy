/** The shapes the identity server sends: form fields of a remediation and
    authenticator descriptors, with the first-match lookup (`Array.find` by
    name) that the remediators use on a form. */
module IdxTypes {
  import opened Wrappers

  /** One choice of an enumerable field. */
  datatype FieldOption = FieldOption(labelText: string, value: string)

  /** One field of a remediation form (`IdxRemediationValue`): every property
      but the name may be absent. */
  datatype FormField = FormField(
    name: string,
    fieldType: Option<string>,
    required: Option<bool>,
    value: Option<string>,
    options: Option<seq<FieldOption>>)

  /** A remediation as the verification remediator sees it: the form may be missing. */
  datatype RemediationValue = RemediationValue(name: string, form: Option<seq<FormField>>)

  /** An authenticator descriptor (`IdxAuthenticator`). */
  datatype IdxAuthenticator = IdxAuthenticator(
    id: Option<string>,
    authenticatorType: Option<string>,
    methodType: Option<string>,
    enrollmentId: Option<string>)

  /** Some field of the form is called `name`. */
  ghost predicate HasField(form: seq<FormField>, name: string) {
    exists i | 0 <= i < |form| :: form[i].name == name
  }

  /** Position `i` holds the first field of the form called `name`. */
  ghost predicate IsFirstNamed(form: seq<FormField>, name: string, i: int) {
    && 0 <= i < |form|
    && form[i].name == name
    && forall j | 0 <= j < i :: form[j].name != name
  }

  /** `form.find(({ name }) => name === wanted)`: the first field with that
      name, or nothing when the form has none. */
  function Find(form: seq<FormField>, wanted: string): (r: Option<FormField>)
    ensures r.None? <==> !HasField(form, wanted)
    ensures forall i | IsFirstNamed(form, wanted, i) :: r == Some(form[i])
  {
    if |form| == 0 then None
    else if form[0].name == wanted then Some(form[0])
    else
      var r := Find(form[1..], wanted);
      assert forall i | IsFirstNamed(form, wanted, i) :: IsFirstNamed(form[1..], wanted, i - 1);
      assert HasField(form[1..], wanted) ==> HasField(form, wanted) by {
        if HasField(form[1..], wanted) {
          var k :| 0 <= k < |form[1..]| && form[1..][k].name == wanted;
          assert form[k + 1].name == wanted;
        }
      }
      r
  }

  /** A form has a field called `name` exactly when it has a first one. */
  lemma {:induction false} FirstNamedExists(form: seq<FormField>, name: string)
    ensures HasField(form, name) <==> exists i :: IsFirstNamed(form, name, i)
  {
    if HasField(form, name) {
      if form[0].name == name {
        assert IsFirstNamed(form, name, 0);
      } else {
        var k :| 0 <= k < |form| && form[k].name == name;
        assert form[1..][k - 1].name == name;
        FirstNamedExists(form[1..], name);
        var i :| IsFirstNamed(form[1..], name, i);
        assert IsFirstNamed(form, name, i + 1);
      }
    }
  }
}
