/** JSON values, without their text syntax. */
module JsonValues {
  datatype Json =
    | Null
    | Bool(b: bool)
    | Int(i: int)
    | Real(r: real)
    | Str(s: string)
    | Arr(items: seq<Json>)
    | Obj(fields: map<string, Json>)
  {
    predicate IsNumber() { Int? || Real? }

    predicate IsScalar() { !Arr? && !Obj? }

    function Number(): real
      requires IsNumber()
    {
      if Int? then i as real else r
    }

    predicate Has(key: string) { Obj? && key in fields }

    function At(key: string): Json
      requires Has(key)
    {
      fields[key]
    }
  }

  /** Equality of scalars as the settings library has it: numbers compare by value. */
  predicate Same(a: Json, b: Json) {
    if a.IsNumber() && b.IsNumber() then a.Number() == b.Number() else a == b
  }
}
