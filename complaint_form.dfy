/**
 * The complaint draft shared by the wizard and its location step: the six
 * named inputs of the form, and the per-field error flags.
 */
module ComplaintForm {

  /** The `name` attributes of the wizard's inputs. */
  datatype Field = Ward | Landmark | Address | Category | Description | Notes

  /** The `formData` object; an input left blank holds the empty string. */
  datatype FormData = FormData(
    ward: string,
    landmark: string,
    address: string,
    category: string,
    description: string,
    notes: string)
  {
    /** `formData[name]` */
    function Get(name: Field): string {
      match name
      case Ward => ward
      case Landmark => landmark
      case Address => address
      case Category => category
      case Description => description
      case Notes => notes
    }

    /** `{ ...formData, [name]: value }`: one field replaced, the other five kept. */
    function With(name: Field, value: string): (r: FormData)
      ensures r.Get(name) == value
      ensures forall other :: other != name ==> r.Get(other) == Get(other)
    {
      match name
      case Ward => this.(ward := value)
      case Landmark => this.(landmark := value)
      case Address => this.(address := value)
      case Category => this.(category := value)
      case Description => this.(description := value)
      case Notes => this.(notes := value)
    }
  }

  /** The draft the wizard starts from: every field blank. */
  const EmptyForm := FormData("", "", "", "", "", "")

  /**
   * The `errors` object. A key mapped to `true` is a raised flag; a key mapped
   * to `false` is one the source has reset to `null`; a missing key was never
   * raised. Only a raised flag is truthy.
   */
  type Errors = map<Field, bool>

  /** `errors[name]` is truthy. */
  predicate Flagged(errors: Errors, name: Field) {
    name in errors && errors[name]
  }
}
