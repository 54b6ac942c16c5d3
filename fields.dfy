/**
 Values shared by the three entity forms: optional fields of an existing
 record, JavaScript's `x || ''` defaulting, and the postal address that the
 client form and the project form both edit as a nested record.
 */
module Fields {

  datatype Option<T> = None | Some(value: T)

  /** JavaScript truthiness of an optional text field: both an absent field and '' are falsy. */
  predicate Truthy(o: Option<string>) {
    o.Some? && o.value != ""
  }

  /** `x || ''`: the field itself when truthy, the empty string otherwise. */
  function OrEmpty(o: Option<string>): (s: string)
    ensures s == "" <==> !Truthy(o)
    ensures s != "" ==> o == Some(s)
  {
    if Truthy(o) then o.value else ""
  }

  /** The address as the form holds it: every field is a text value. */
  datatype Address = Address(street: string, number: string, postal: string, city: string, province: string)

  /** The address of an existing record, whose fields may be absent. */
  datatype AddressData = AddressData(
    street: Option<string>,
    number: Option<string>,
    postal: Option<string>,
    city: Option<string>,
    province: Option<string>)

  /** `initialData.address?.f || ''` for each of the five address fields. */
  function AddressValues(a: Option<AddressData>): (r: Address)
    ensures a.None? ==> r == Address("", "", "", "", "")
    ensures a.Some? ==>
      && r.street == OrEmpty(a.value.street)
      && r.number == OrEmpty(a.value.number)
      && r.postal == OrEmpty(a.value.postal)
      && r.city == OrEmpty(a.value.city)
      && r.province == OrEmpty(a.value.province)
  {
    match a
    case None => Address("", "", "", "", "")
    case Some(d) => Address(OrEmpty(d.street), OrEmpty(d.number), OrEmpty(d.postal), OrEmpty(d.city), OrEmpty(d.province))
  }

  /** The record a saved address comes back as: every field present. */
  function AddressRecord(a: Address): AddressData {
    AddressData(Some(a.street), Some(a.number), Some(a.postal), Some(a.city), Some(a.province))
  }

  /** Defaulting a saved address gives the address that was saved. */
  lemma AddressRoundTrip(a: Address)
    ensures AddressValues(Some(AddressRecord(a))) == a
  {
  }

  /** A present, non-empty address field survives the defaulting unchanged. */
  lemma AddressKeepsPresentFields(d: AddressData)
    ensures Truthy(d.street) ==> AddressValues(Some(d)).street == d.street.value
    ensures Truthy(d.number) ==> AddressValues(Some(d)).number == d.number.value
    ensures Truthy(d.postal) ==> AddressValues(Some(d)).postal == d.postal.value
    ensures Truthy(d.city) ==> AddressValues(Some(d)).city == d.city.value
    ensures Truthy(d.province) ==> AddressValues(Some(d)).province == d.province.value
  {
  }
}
