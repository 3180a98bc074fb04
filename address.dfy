/** `Address` (domain/common/value/Address.java): a validated postal
    address. */
module Addresses {
  import opened Wrappers
  import opened Text

  const AddressBlankMessage := "주소는 비어있을 수 없습니다."
  const PostCodeBlankMessage := "우편번호는 비어있을 수 없습니다."

  datatype Address = Address(address: string, detailAddress: Option<string>, postCode: string)

  /** `new Address(address, detailAddress, postCode)`: address and post code
      must be present and not blank; the detail is free. */
  function NewAddress(address: Option<string>, detailAddress: Option<string>, postCode: Option<string>)
    : (r: Result<Address>)
    ensures r.Ok? <==> !NullOrBlank(address) && !NullOrBlank(postCode)
    ensures NullOrBlank(address) ==> r == Fail(Domain(AddressBlankMessage))
    ensures !NullOrBlank(address) && NullOrBlank(postCode) ==> r == Fail(Domain(PostCodeBlankMessage))
    ensures r.Ok? ==> r.value == Address(address.value, detailAddress, postCode.value)
  {
    if NullOrBlank(address) then Fail(Domain(AddressBlankMessage))
    else if NullOrBlank(postCode) then Fail(Domain(PostCodeBlankMessage))
    else Ok(Address(address.value, detailAddress, postCode.value))
  }

  /** The detail address never decides acceptance: absent and empty details
      are both accepted wherever the rest is. */
  lemma DetailAddressIsFree(address: Option<string>, detail: Option<string>, postCode: Option<string>)
    ensures NewAddress(address, detail, postCode).Ok? <==> NewAddress(address, None, postCode).Ok?
    ensures NewAddress(address, Some(""), postCode).Ok? <==> NewAddress(address, None, postCode).Ok?
  {
  }
}
