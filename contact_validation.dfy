/** The contact form's rules. */
module ContactValidation {
  import opened Schema

  const PHONE_LENGTH_MESSAGE := "El teléfono debe tener al menos 8 dígitos"
  const PHONE_DIGITS_MESSAGE := "El teléfono debe contener solo números"

  /** `/^[0-9]+$/`: one or more ASCII digits and nothing else. */
  predicate OnlyDigits(text: string) {
    |text| > 0 && forall i :: 0 <= i < |text| ==> '0' <= text[i] <= '9'
  }

  /** The phone field: at least 8 characters, all digits. */
  function PhoneIssues(phone: string): (r: seq<Issue>)
    ensures r == [] <==> |phone| >= 8 && forall i :: 0 <= i < |phone| ==> '0' <= phone[i] <= '9'
  {
    MinLength("phone", phone, 8, PHONE_LENGTH_MESSAGE) + Check(OnlyDigits(phone), "phone", PHONE_DIGITS_MESSAGE)
  }

  datatype ContactForm = ContactForm(name: string, surname: string, phone: string, email: string, message: string)

  /** `contactSchema`: valid exactly when all five field rules hold. */
  function ContactIssues(form: ContactForm, isEmail: string -> bool): (r: seq<Issue>)
    ensures r == [] <==>
      && |form.name| >= 2 && |form.surname| >= 2
      && |form.phone| >= 8 && (forall i :: 0 <= i < |form.phone| ==> '0' <= form.phone[i] <= '9')
      && isEmail(form.email) && |form.message| >= 10
  {
    MinLength("name", form.name, 2, "El nombre debe tener al menos 2 caracteres")
      + MinLength("surname", form.surname, 2, "El apellido debe tener al menos 2 caracteres")
      + PhoneIssues(form.phone)
      + Check(isEmail(form.email), "email", "Email inválido")
      + MinLength("message", form.message, 10, "El mensaje debe tener al menos 10 caracteres")
  }

  /** A phone number written with '+', a space or '-' is refused however long it is. */
  lemma PhoneSymbolsRejected(phone: string, i: nat)
    requires i < |phone| && phone[i] in {'+', ' ', '-'}
    ensures PhoneIssues(phone) != []
  {
  }
}
