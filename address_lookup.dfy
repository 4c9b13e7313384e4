/** The `remote_address_lookup` tool of remoteserver.go: for a zip code it answers one
    text content with a fixed fake address that quotes the zip code twice, and refuses an
    empty zip code. */
module AddressLookup {
  import opened Wrappers

  datatype Content = TextContent(text: string)
  datatype ToolResponse = ToolResponse(content: seq<Content>)

  const MissingZip := "zip_code is required"
  const Lead := "Address found for zip code "
  const Middle := ": 5954A Bartonsville Road, Fakeville, NY "
  const Tail := ", USA"

  /** The address text for `zip`. */
  function AddressText(zip: string): (text: string)
    ensures |text| == |Lead| + |Middle| + |Tail| + 2 * |zip|
  {
    Lead + zip + Middle + zip + Tail
  }

  /** Reads the zip code back out of an address text. The zip code's length follows from
      the text's length, since the fixed parts are known. */
  function ZipOf(text: string): Option<string>
  {
    var fixed := |Lead| + |Middle| + |Tail|;
    if |text| < fixed || (|text| - fixed) % 2 != 0 then None
    else
      var zip := text[|Lead|..|Lead| + (|text| - fixed) / 2];
      if AddressText(zip) == text then Some(zip) else None
  }

  lemma AddressTextRoundTrip(zip: string)
    ensures ZipOf(AddressText(zip)) == Some(zip)
  {
    var text := AddressText(zip);
    assert text[|Lead|..|Lead| + |zip|] == zip;
  }

  /** Different zip codes give different texts. */
  lemma AddressTextInjective(a: string, b: string)
    requires AddressText(a) == AddressText(b)
    ensures a == b
  {
    AddressTextRoundTrip(a);
    AddressTextRoundTrip(b);
  }

  /** The handler: an error for an empty zip code, otherwise a response holding exactly one
      text content, the address for that zip code. */
  function RemoteAddressLookup(zip: string): (r: Result<ToolResponse, string>)
    ensures r.Failure? <==> zip == ""
    ensures r.Failure? ==> r.error == MissingZip
    ensures r.Success? ==> |r.value.content| == 1 && ZipOf(r.value.content[0].text) == Some(zip)
  {
    if zip == "" then Failure(MissingZip)
    else
      AddressTextRoundTrip(zip);
      Success(ToolResponse([TextContent(AddressText(zip))]))
  }
}
