/**
 * The contact part of the create-point form (`formData`) and the merge that
 * a keystroke in one of its three inputs applies to it.
 */
module ContactForm {
  import opened Wrappers

  /** The `formData` state slot. */
  datatype FormData = FormData(name: string, email: string, whatsapp: string)

  /** The three text inputs of the form. */
  datatype Field = Name | Email | Whatsapp

  /** The `name` attribute of a field's input, which is also its key in `formData`. */
  function FieldKey(field: Field): (key: string)
    ensures field == Name <==> key == "name"
    ensures field == Email <==> key == "email"
    ensures field == Whatsapp <==> key == "whatsapp"
  {
    match field
    case Name => "name"
    case Email => "email"
    case Whatsapp => "whatsapp"
  }

  /** The field whose key is `key`, if there is one. */
  function FieldNamed(key: string): (r: Option<Field>)
    ensures r.Some? ==> FieldKey(r.value) == key
    ensures r.None? ==> forall field: Field :: FieldKey(field) != key
  {
    if key == "name" then Some(Name)
    else if key == "email" then Some(Email)
    else if key == "whatsapp" then Some(Whatsapp)
    else None
  }

  /** Every field is found again from its key. */
  lemma FieldNamedKey(field: Field)
    ensures FieldNamed(FieldKey(field)) == Some(field)
  {
  }

  function FieldValue(form: FormData, field: Field): (value: string)
  {
    match field
    case Name => form.name
    case Email => form.email
    case Whatsapp => form.whatsapp
  }

  /** The object spread `{ ...formData, [key]: value }`, seen through the three
    * fields: the field keyed `key` becomes `value` and every other field keeps
    * its value. A key that names none of them adds a property that no part of
    * the form reads, so the three fields are unchanged. */
  function Merge(form: FormData, key: string, value: string): (r: FormData)
    ensures forall field: Field ::
      FieldValue(r, field) == if FieldKey(field) == key then value else FieldValue(form, field)
  {
    match FieldNamed(key)
    case Some(Name) => form.(name := value)
    case Some(Email) => form.(email := value)
    case Some(Whatsapp) => form.(whatsapp := value)
    case None => form
  }

  /** Two changes of the same input: the last one wins. */
  lemma MergeLastWriteWins(form: FormData, key: string, a: string, b: string)
    ensures Merge(Merge(form, key, a), key, b) == Merge(form, key, b)
  {
  }

  /** Changes of two different inputs commute. */
  lemma MergeCommutes(form: FormData, k1: string, k2: string, a: string, b: string)
    requires k1 != k2
    ensures Merge(Merge(form, k1, a), k2, b) == Merge(Merge(form, k2, b), k1, a)
  {
  }

  /** Writing a field's current value back changes nothing. */
  lemma MergeCurrentValue(form: FormData, field: Field)
    ensures Merge(form, FieldKey(field), FieldValue(form, field)) == form
  {
  }
}
