/** The ticket an attendee receives: the attendee text printed on the ticket
    image, the image itself as a record of what it shows, and the NFT
    metadata record that becomes the token URI. */
module Ticket {
  import opened Options
  import opened JsStrings
  import opened Config

  function Min(a: int, b: int): (m: int) {
    if a <= b then a else b
  }

  /** The clock readings the metadata embeds, supplied by the caller:
      `toLocaleDateString()` (default locale), the long `en-US` form printed on
      the image, and `toISOString()`. */
  datatype Clock = Clock(localeDate: string, longDate: string, isoTimestamp: string)

  /** One `{ trait_type, value }` entry of the metadata. */
  datatype Attribute = Attribute(traitType: string, value: string)

  /** What the generated ticket image shows. The SVG markup around it, the
      upper-casing of the heading and the URI encoding are not modelled. */
  datatype TicketImage = TicketImage(heading: string, attendee: string, dateIssued: string)

  datatype Metadata = Metadata(
    name: string,
    description: string,
    image: TicketImage,
    attributes: seq<Attribute>,
    externalUrl: string)

  /** The token URI `data:application/json;base64,...`: an encoding of the
      metadata, kept as the record it encodes. */
  datatype TokenUri = JsonDataUri(metadata: Metadata)

  /** The attendee text on the ticket: `slice(0, 12)`, then "...", then `slice(-8)`. */
  function AttendeeText(address: string): (r: string)
    ensures r == address[..Min(12, |address|)] + "..." + address[|address| - Min(8, |address|)..]
    ensures |r| == Min(12, |address|) + 3 + Min(8, |address|)
  {
    var n := |address|;
    var head := Slice(address, 0, 12);
    var tail := SliceFrom(address, -8);
    assert head == address[..Min(12, n)];
    assert tail == address[n - Min(8, n)..];
    head + "..." + tail
  }

  /** On a full 42-character address the text is 23 characters: the "0x" and
      ten hex digits, the ellipsis, the last eight hex digits. */
  lemma AttendeeTextOfFullAddress(address: string)
    requires |address| == 42
    ensures |AttendeeText(address)| == 23
    ensures AttendeeText(address)[..2] == address[..2]
    ensures AttendeeText(address)[12..15] == "..."
    ensures AttendeeText(address)[15..] == address[34..]
  {
  }

  /** Once the address has at least 20 characters the visible ends do not
      overlap: the address is the shown prefix, the hidden middle, the shown suffix. */
  lemma AttendeeTextHidesOnlyMiddle(address: string)
    requires |address| >= 20
    ensures address == AttendeeText(address)[..12] + address[12..|address| - 8] + AttendeeText(address)[15..]
  {
    var r := AttendeeText(address);
    assert r[..12] == address[..12];
    assert r[15..] == address[|address| - 8..];
    assert address == address[..12] + address[12..|address| - 8] + address[|address| - 8..];
  }

  /** The calendar date of an ISO timestamp: `toISOString().split('T')[0]`. */
  function IsoDate(clock: Clock): (date: string) {
    SplitFirst(clock.isoTimestamp, 'T')
  }

  /** `generateTicketSVG`: the image shows the title, the attendee text and the long date. */
  function TicketImageFor(eventTitle: string, address: string, clock: Clock): (img: TicketImage)
    ensures img.attendee == AttendeeText(address)
  {
    TicketImage(eventTitle, AttendeeText(address), clock.longDate)
  }

  const TicketTraits: seq<string> := ["Event", "Attendee", "Date", "Type", "Chain", "Price"]

  function TraitTypes(attrs: seq<Attribute>): (ts: seq<string>)
    ensures |ts| == |attrs|
    ensures forall i | 0 <= i < |attrs| :: ts[i] == attrs[i].traitType
  {
    if attrs == [] then [] else [attrs[0].traitType] + TraitTypes(attrs[1..])
  }

  /** The value of the first attribute with the given trait type. */
  function Lookup(attrs: seq<Attribute>, key: string): (v: Option<string>)
  {
    if attrs == [] then None
    else if attrs[0].traitType == key then Some(attrs[0].value)
    else Lookup(attrs[1..], key)
  }

  /** `generateNFTMetadata` before it is serialised. */
  function BuildMetadata(eventTitle: string, address: string, clock: Clock): (m: Metadata)
    ensures m.name == eventTitle + " - Attendance Ticket"
    ensures TraitTypes(m.attributes) == TicketTraits
    ensures m.image.attendee == AttendeeText(address)
  {
    Metadata(
      eventTitle + " - Attendance Ticket",
      "Proof of attendance for \"" + eventTitle + "\" event. Verified on " + clock.localeDate,
      TicketImageFor(eventTitle, address, clock),
      [ Attribute("Event", eventTitle),
        Attribute("Attendee", address),
        Attribute("Date", IsoDate(clock)),
        Attribute("Type", "Attendance Proof"),
        Attribute("Chain", SepoliaName),
        Attribute("Price", TicketPrice + " ETH") ],
      "https://sepolia.etherscan.io/address/" + address)
  }

  /** A lookup returns the value of the first entry carrying the key. */
  lemma {:induction false} LookupFindsFirst(attrs: seq<Attribute>, i: nat, key: string)
    requires i < |attrs| && attrs[i].traitType == key
    requires forall j | 0 <= j < i :: attrs[j].traitType != key
    ensures Lookup(attrs, key) == Some(attrs[i].value)
  {
    if i > 0 {
      LookupFindsFirst(attrs[1..], i - 1, key);
    }
  }

  /** Looking up each trait of the metadata yields the value the ticket promises. */
  lemma MetadataLookups(eventTitle: string, address: string, clock: Clock)
    ensures var attrs := BuildMetadata(eventTitle, address, clock).attributes;
      && Lookup(attrs, "Event") == Some(eventTitle)
      && Lookup(attrs, "Attendee") == Some(address)
      && Lookup(attrs, "Date") == Some(IsoDate(clock))
      && Lookup(attrs, "Type") == Some("Attendance Proof")
      && Lookup(attrs, "Chain") == Some("Ethereum Sepolia")
      && Lookup(attrs, "Price") == Some("0.00001 ETH")
  {
    var attrs := BuildMetadata(eventTitle, address, clock).attributes;
    assert Lookup(attrs, "Event") == Some(eventTitle) by {
      LookupFindsFirst(attrs, 0, "Event");
    }
    assert Lookup(attrs, "Attendee") == Some(address) by {
      LookupFindsFirst(attrs, 1, "Attendee");
    }
    assert Lookup(attrs, "Date") == Some(IsoDate(clock)) by {
      LookupFindsFirst(attrs, 2, "Date");
    }
    assert Lookup(attrs, "Type") == Some("Attendance Proof") by {
      LookupFindsFirst(attrs, 3, "Type");
    }
    assert Lookup(attrs, "Chain") == Some("Ethereum Sepolia") by {
      LookupFindsFirst(attrs, 4, "Chain");
    }
    assert Lookup(attrs, "Price") == Some("0.00001 ETH") by {
      LookupFindsFirst(attrs, 5, "Price");
      assert attrs[5].value == TicketPrice + " ETH";
      assert TicketPrice + " ETH" == "0.00001 ETH";
    }
  }

  predicate AttributesLatin1(attrs: seq<Attribute>) {
    forall i | 0 <= i < |attrs| :: IsLatin1(attrs[i].traitType) && IsLatin1(attrs[i].value)
  }

  /** `btoa(JSON.stringify(m))` does not throw. JSON.stringify copies the string
      fields' characters unescaped, so every one of them must be Latin-1. The
      image field is URI-encoded and therefore ASCII whatever it shows. */
  predicate Encodable(m: Metadata) {
    && IsLatin1(m.name)
    && IsLatin1(m.description)
    && AttributesLatin1(m.attributes)
    && IsLatin1(m.externalUrl)
  }

  /** Every fixed text the metadata adds around its inputs is ASCII. */
  lemma FixedTextsLatin1()
    ensures IsLatin1(" - Attendance Ticket")
    ensures IsLatin1("Proof of attendance for \"")
    ensures IsLatin1("\" event. Verified on ")
    ensures IsLatin1("https://sepolia.etherscan.io/address/")
    ensures forall i | 0 <= i < |TicketTraits| :: IsLatin1(TicketTraits[i])
    ensures IsLatin1("Attendance Proof") && IsLatin1(SepoliaName) && IsLatin1(TicketPrice + " ETH")
  {
  }

  lemma DescriptionLatin1(eventTitle: string, localeDate: string)
    ensures IsLatin1("Proof of attendance for \"" + eventTitle + "\" event. Verified on " + localeDate)
      <==> IsLatin1(eventTitle) && IsLatin1(localeDate)
  {
    FixedTextsLatin1();
    Latin1Concat("Proof of attendance for \"", eventTitle);
    Latin1Concat("Proof of attendance for \"" + eventTitle, "\" event. Verified on ");
    Latin1Concat("Proof of attendance for \"" + eventTitle + "\" event. Verified on ", localeDate);
  }

  lemma AttributesLatin1Iff(eventTitle: string, address: string, clock: Clock)
    ensures AttributesLatin1(BuildMetadata(eventTitle, address, clock).attributes)
      <==> IsLatin1(eventTitle) && IsLatin1(address) && IsLatin1(IsoDate(clock))
  {
    var attrs := BuildMetadata(eventTitle, address, clock).attributes;
    FixedTextsLatin1();
    assert forall i | 0 <= i < 6 :: attrs[i].traitType == TicketTraits[i];
    assert attrs[0].value == eventTitle && attrs[1].value == address && attrs[2].value == IsoDate(clock);
    assert attrs[3].value == "Attendance Proof" && attrs[4].value == SepoliaName && attrs[5].value == TicketPrice + " ETH";
  }

  /** The metadata can be encoded exactly when the title, the address, the
      locale date and the ISO date are Latin-1: every fixed text is ASCII. */
  lemma EncodableIff(eventTitle: string, address: string, clock: Clock)
    ensures Encodable(BuildMetadata(eventTitle, address, clock)) <==>
      IsLatin1(eventTitle) && IsLatin1(address) && IsLatin1(clock.localeDate) && IsLatin1(IsoDate(clock))
  {
    FixedTextsLatin1();
    Latin1Concat(eventTitle, " - Attendance Ticket");
    Latin1Concat("https://sepolia.etherscan.io/address/", address);
    DescriptionLatin1(eventTitle, clock.localeDate);
    AttributesLatin1Iff(eventTitle, address, clock);
  }
}
