/**
 * The draft that the signup form edits and the customer record made from it
 * (a submitted draft with an id stamped on it, `{ ...form, id }`).
 */
module Forms {

  /** The six inputs of the signup form, by their `name` attribute. */
  datatype Field = Name | Address | Phone | BinSize | Schedule | Notes

  /**
   * The draft record. Every field is free text: the bin size and schedule
   * selectors offer fixed options, but nothing checks what is stored.
   */
  datatype Form = Form(name: string, address: string, phone: string, binSize: string, schedule: string, notes: string)

  /** A customer or a pending request: the submitted draft plus an id. */
  datatype Record = Record(form: Form, id: int)

  const Weekly: string := "Weekly"
  const BiWeekly: string := "Bi-Weekly"
  const Monthly: string := "Monthly"
  const OnCall: string := "On Call"

  /** The schedules that have a route, in the order the routes are listed. */
  const Schedules: seq<string> := [Weekly, BiWeekly, Monthly, OnCall]

  /** The draft the form starts with and is reset to after every submission. */
  const DefaultForm: Form := Form("", "", "", "55 Gallon", Weekly, "")

  /** The value of one named field, `form[name]`. */
  function Get(f: Form, k: Field): string
  {
    match k
    case Name => f.name
    case Address => f.address
    case Phone => f.phone
    case BinSize => f.binSize
    case Schedule => f.schedule
    case Notes => f.notes
  }

  /** `{ ...form, [name]: value }`: the draft with one field replaced. */
  function SetField(f: Form, k: Field, v: string): (r: Form)
    ensures Get(r, k) == v
    ensures forall k' :: k' != k ==> Get(r, k') == Get(f, k')
  {
    match k
    case Name => f.(name := v)
    case Address => f.(address := v)
    case Phone => f.(phone := v)
    case BinSize => f.(binSize := v)
    case Schedule => f.(schedule := v)
    case Notes => f.(notes := v)
  }

  /** Replacing a field with the value it already holds changes nothing; replacing it twice keeps the last value. */
  lemma SetFieldLaws(f: Form, k: Field, v: string, w: string)
    ensures SetField(f, k, Get(f, k)) == f
    ensures SetField(SetField(f, k, v), k, w) == SetField(f, k, w)
  {
  }
}
