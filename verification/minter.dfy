/** The minting component as a state machine. Its React state is an immutable
    record; each user action or hook update is one atomic transition that
    returns the new state and the requests it issues to the outside (a
    contract write through the wallet, a POST to the email endpoint). The
    hook results it reads are passed in as a `Session`. */
module Minter {
  import opened Options
  import opened JsStrings
  import opened Config
  import opened Ticket
  import opened MintGuards

  /** Which contract entry point the form sends the mint to. */
  datatype MintingMethod = SafeMint | Claim

  /** One entry of the list of tickets minted during the session. */
  datatype MintedNft = MintedNft(eventTitle: string, txHash: string, userAddress: string)

  datatype MinterState = MinterState(
    eventTitle: string,
    isMinting: bool,
    mintTxHash: Option<string>,
    mintingMethod: MintingMethod,
    mintedNfts: seq<MintedNft>)

  /** The hook results the component reads at one moment: connected address,
      chain id, wallet balance in wei, receipt status, signed-in user's email,
      and the clock the metadata embeds. */
  datatype Session = Session(
    address: Option<string>,
    chainId: Option<int>,
    balanceWei: Option<nat>,
    isConfirming: bool,
    isConfirmed: bool,
    userEmail: Option<string>,
    clock: Clock)

  /** The two contract entry points with their own argument shapes. */
  datatype ContractCall =
    | SafeMintCall(to: string, uri: TokenUri)
    | ClaimCall(receiver: string, quantity: nat)

  /** The JSON body posted to the email endpoint. */
  datatype EmailRequest = EmailRequest(
    to: string,
    eventTitle: string,
    txHash: string,
    contractAddress: string,
    userAddress: Option<string>,
    openseaLink: string,
    etherscanLink: string)

  /** A request to the outside world. */
  datatype Request =
    | WriteContract(contract: string, call: ContractCall, valueWei: nat)
    | SendEmail(email: EmailRequest)

  datatype Transition = Transition(state: MinterState, requests: seq<Request>)

  function Recipient(call: ContractCall): (to: string) {
    match call
    case SafeMintCall(to, _) => to
    case ClaimCall(receiver, _) => receiver
  }

  /** The component's initial state: the prefilled title (or ""), nothing in flight. */
  function Initial(prefilledTitle: Option<string>): (s: MinterState)
    ensures !s.isMinting && s.mintTxHash == None && s.mintingMethod == SafeMint && s.mintedNfts == []
    ensures prefilledTitle.Some? ==> s.eventTitle == prefilledTitle.value
    ensures prefilledTitle.None? ==> s.eventTitle == []
  {
    MinterState(prefilledTitle.GetOr(""), false, None, SafeMint, [])
  }

  /** The email body sent for a ticket, with the collection and transaction links. */
  function TicketEmail(to: string, eventTitle: string, txHash: string, userAddress: Option<string>): (e: EmailRequest)
    ensures e.to == to && e.eventTitle == eventTitle && e.txHash == txHash && e.userAddress == userAddress
    ensures e.contractAddress == EventTicketContract
    ensures e.openseaLink == OpenSeaCollectionLink
    ensures e.etherscanLink == EtherscanTxLink(txHash)
  {
    EmailRequest(to, eventTitle, txHash, EventTicketContract, userAddress, OpenSeaCollectionLink, EtherscanTxLink(txHash))
  }

  /** The write call for the selected entry point: `safeMint(to, tokenURI)` or `claim(receiver, 1)`. */
  function CallFor(choice: MintingMethod, address: string, metadata: Metadata): (call: ContractCall)
    ensures Recipient(call) == address
    ensures call.SafeMintCall? <==> choice == SafeMint
    ensures call.SafeMintCall? ==> call.uri == JsonDataUri(metadata)
    ensures call.ClaimCall? ==> call.quantity == 1
  {
    match choice
    case SafeMint => SafeMintCall(address, JsonDataUri(metadata))
    case Claim => ClaimCall(address, 1)
  }

  /** The metadata a mint from this state and session would carry: built from the trimmed title. */
  function MintMetadata(s: MinterState, env: Session): (metadata: Metadata)
    requires env.address.Some?
  {
    BuildMetadata(Trim(s.eventTitle), env.address.value, env.clock)
  }

  /** `mintEventTicket`, the click handler. It re-checks only the address and
      the title; building the metadata throws (and the catch clears
      `isMinting`) when it cannot be base64-encoded. */
  function MintEventTicket(s: MinterState, env: Session): (t: Transition)
    ensures t.state == s.(isMinting := t.state.isMinting)
    ensures !IsTruthy(env.address) || IsBlank(s.eventTitle) ==> t.state == s && t.requests == []
    ensures IsTruthy(env.address) && !IsBlank(s.eventTitle) ==>
      && (t.state.isMinting <==> Encodable(MintMetadata(s, env)))
      && (t.requests != [] <==> Encodable(MintMetadata(s, env)))
    ensures t.requests != [] ==>
      && |t.requests| == 1
      && t.requests[0].WriteContract?
      && t.requests[0].contract == EventTicketContract
      && t.requests[0].valueWei == TicketPriceWei
      && t.requests[0].call == CallFor(s.mintingMethod, env.address.value, MintMetadata(s, env))
  {
    if !IsTruthy(env.address) || Trim(s.eventTitle) == [] then
      Transition(s, [])
    else
      var metadata := BuildMetadata(Trim(s.eventTitle), env.address.value, env.clock);
      if !Encodable(metadata) then
        Transition(s.(isMinting := false), [])
      else
        var call := CallFor(s.mintingMethod, env.address.value, metadata);
        Transition(s.(isMinting := true), [WriteContract(EventTicketContract, call, TicketPriceWei)])
  }

  /** The mint button's `disabled` expression. The contract check is constant
      and passes, so it drops out of the characterisation. */
  function MintButtonDisabled(s: MinterState, env: Session): (r: bool)
    ensures r <==>
      || IsBlank(s.eventTitle)
      || s.isMinting
      || env.isConfirming
      || env.chainId != Some(11155111)
      || (env.balanceWei.Some? && env.balanceWei.value < 10_000_000_000_000)
  {
    ConfiguredContractIsValid();
    || Trim(s.eventTitle) == []
    || s.isMinting
    || env.isConfirming
    || !IsOnSepolia(env.chainId)
    || !IsValidContract(EventTicketContract)
    || HasInsufficientBalance(env.balanceWei)
  }

  /** A click on the mint button: a disabled button delivers no click. */
  function ClickMint(s: MinterState, env: Session): (t: Transition)
    ensures MintButtonDisabled(s, env) ==> t == Transition(s, [])
    ensures !MintButtonDisabled(s, env) ==> t == MintEventTicket(s, env)
    ensures t.requests != [] ==>
      && env.chainId == Some(SepoliaChainId)
      && !s.isMinting
      && !env.isConfirming
      && (env.balanceWei.None? || env.balanceWei.value >= TicketPriceWei)
  {
    if MintButtonDisabled(s, env) then Transition(s, []) else MintEventTicket(s, env)
  }

  /** The effect that stores the transaction hash once the wallet returns one. */
  function OnHashReceived(s: MinterState, hash: string): (t: Transition)
    ensures t.requests == []
    ensures hash != [] ==> t.state == s.(mintTxHash := Some(hash))
    ensures hash == [] ==> t.state == s
  {
    if hash != [] then Transition(s.(mintTxHash := Some(hash)), []) else Transition(s, [])
  }

  /** The guard of the confirmation effect: receipt confirmed and hash, title,
      address and user email all truthy. The title is not trimmed here. */
  predicate ConfirmationFires(s: MinterState, env: Session) {
    env.isConfirmed && IsTruthy(s.mintTxHash) && s.eventTitle != [] && IsTruthy(env.address) && IsTruthy(env.userEmail)
  }

  /** The confirmation effect: record the ticket, send the email, reset the form. */
  function OnConfirmed(s: MinterState, env: Session): (t: Transition)
    ensures !ConfirmationFires(s, env) ==> t.state == s && t.requests == []
    ensures ConfirmationFires(s, env) ==>
      && |t.state.mintedNfts| == |s.mintedNfts| + 1
      && t.state.mintedNfts[..|s.mintedNfts|] == s.mintedNfts
      && t.state.mintedNfts[|s.mintedNfts|] == MintedNft(s.eventTitle, s.mintTxHash.value, env.address.value)
      && !t.state.isMinting
      && t.state.eventTitle == []
      && t.state.mintTxHash == None
      && t.state.mintingMethod == s.mintingMethod
      && t.requests == [SendEmail(TicketEmail(env.userEmail.value, s.eventTitle, s.mintTxHash.value, env.address))]
  {
    if ConfirmationFires(s, env) then
      var hash := s.mintTxHash.value;
      var entry := MintedNft(s.eventTitle, hash, env.address.value);
      var email := TicketEmail(env.userEmail.value, s.eventTitle, hash, env.address);
      Transition(
        s.(isMinting := false, mintedNfts := s.mintedNfts + [entry], eventTitle := "", mintTxHash := None),
        [SendEmail(email)])
    else
      Transition(s, [])
  }

  /** The "Get My Tickets" button is rendered while the receipt is confirmed
      and a hash is stored; a click on it then sends exactly when the user
      has an email. */
  predicate GetTicketsVisible(s: MinterState, env: Session)
    ensures GetTicketsVisible(s, env) ==> (GetTickets(s, env).requests != [] <==> IsTruthy(env.userEmail))
  {
    env.isConfirmed && IsTruthy(s.mintTxHash)
  }

  /** `getTickets`: sends a ticket email for the stored hash, never a mint. */
  function GetTickets(s: MinterState, env: Session): (t: Transition)
    ensures t.state == s
    ensures !IsTruthy(env.userEmail) || !IsTruthy(s.mintTxHash) ==> t.requests == []
    ensures IsTruthy(env.userEmail) && IsTruthy(s.mintTxHash) ==>
      t.requests == [SendEmail(TicketEmail(env.userEmail.value, s.eventTitle, s.mintTxHash.value, env.address))]
  {
    if !IsTruthy(env.userEmail) || !IsTruthy(s.mintTxHash) then
      Transition(s, [])
    else
      Transition(s, [SendEmail(TicketEmail(env.userEmail.value, s.eventTitle, s.mintTxHash.value, env.address))])
  }

  /** What can happen to the component. */
  datatype Event =
    | TitleEdited(title: string)
    | MethodSelected(choice: MintingMethod)
    | MintClicked
    | HashReceived(hash: string)
    | Confirmed
    | GetTicketsClicked

  /** One event observed together with the hook results at that moment. */
  datatype Input = Input(env: Session, event: Event)

  /** One atomic step. A mint request comes only from an enabled mint button;
      an email only from a confirmation or the get-tickets button. */
  function Step(s: MinterState, input: Input): (t: Transition)
    ensures |t.requests| <= 1
    ensures t.requests != [] && t.requests[0].WriteContract? ==>
      input.event == MintClicked && !MintButtonDisabled(s, input.env)
    ensures t.requests != [] && t.requests[0].SendEmail? ==>
      input.event == Confirmed || input.event == GetTicketsClicked
  {
    var env := input.env;
    match input.event
    case TitleEdited(title) => Transition(s.(eventTitle := title), [])
    case MethodSelected(choice) => Transition(s.(mintingMethod := choice), [])
    case MintClicked => ClickMint(s, env)
    case HashReceived(hash) => OnHashReceived(s, hash)
    case Confirmed => OnConfirmed(s, env)
    case GetTicketsClicked =>
      if GetTicketsVisible(s, env) then GetTickets(s, env) else Transition(s, [])
  }

  /** Steps applied in order; the requests are collected in the order issued. */
  function Run(s: MinterState, inputs: seq<Input>): (t: Transition)
    decreases |inputs|
  {
    if inputs == [] then Transition(s, [])
    else
      var first := Step(s, inputs[0]);
      var rest := Run(first.state, inputs[1..]);
      Transition(rest.state, first.requests + rest.requests)
  }
}
