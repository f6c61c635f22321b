/** The profile form's rules. */
module ProfileValidation {
  import opened Schema
  import ContactValidation

  /** The phone field, written out again in the profile schema. */
  function PhoneIssues(phone: string): (r: seq<Issue>)
    ensures r == [] <==> |phone| >= 8 && forall i :: 0 <= i < |phone| ==> '0' <= phone[i] <= '9'
  {
    MinLength("phone", phone, 8, "El teléfono debe tener al menos 8 dígitos")
      + Check(ContactValidation.OnlyDigits(phone), "phone", "El teléfono debe contener solo números")
  }

  datatype ProfileForm = ProfileForm(name: string, phone: string)

  /** `profileSchema`: a name of at least 2 characters and a valid phone. */
  function ProfileIssues(form: ProfileForm): (r: seq<Issue>)
    ensures r == [] <==>
      |form.name| >= 2 && |form.phone| >= 8 && forall i :: 0 <= i < |form.phone| ==> '0' <= form.phone[i] <= '9'
  {
    MinLength("name", form.name, 2, "El nombre debe tener al menos 2 caracteres") + PhoneIssues(form.phone)
  }

  /** The profile's phone rule reports exactly what the contact form's does. */
  lemma PhoneRuleMatchesContact(phone: string)
    ensures PhoneIssues(phone) == ContactValidation.PhoneIssues(phone)
  {
  }
}
