/** Values shared by every part of the model: Python's None and the
    dictionaries that carry one contact through the program. */
module Base {

  /** None stands for Python's None; Some(v) for a present value. */
  datatype Option<+T> = None | Some(value: T)

  /** One contact as the program passes it around: a CSV row produced by
      csv.DictReader, or one record of a worksheet. A cell is None where
      DictReader filled in a field that a short row does not have. */
  type Contact = map<string, Option<string>>

  const PhoneKey: string := "phone_number"
  const NameKey: string := "name"

  /** dict.get(key, default) */
  function Get(c: Contact, key: string, default: Option<string>): Option<string>
  {
    if key in c then c[key] else default
  }
}
