/** The checks the minting form computes on every render: the network, the
    contract address, the balance, and the wording of a mint error. */
module MintGuards {
  import opened Options
  import opened JsStrings
  import opened Config

  /** `chain?.id === 11155111`: an unknown chain is not Sepolia. */
  function IsOnSepolia(chainId: Option<int>): (r: bool)
    ensures r <==> chainId == Some(11155111)
  {
    match chainId
    case Some(id) => id == SepoliaChainId
    case None => false
  }

  /** A contract address is valid when it starts with "0x" and is 42 characters long. */
  function IsValidContract(address: string): (r: bool)
    ensures r <==> |address| == 42 && address[0] == '0' && address[1] == 'x'
  {
    StartsWith(address, "0x") && |address| == 42
  }

  /** The valid addresses are exactly "0x" followed by 40 further characters. */
  lemma {:induction false} ValidContractShape(address: string, rest: string)
    requires |rest| == 40
    ensures IsValidContract("0x" + rest)
    ensures IsValidContract(address) ==> address == "0x" + address[2..] && |address[2..]| == 40
  {
    assert ("0x" + rest)[..2] == "0x";
    if IsValidContract(address) {
      assert address[..2] == "0x";
      assert address == address[..2] + address[2..];
    }
  }

  /** The configured contract passes the check, so it never disables the button. */
  lemma ConfiguredContractIsValid()
    ensures IsValidContract(EventTicketContract)
  {
  }

  /** `balance.data && price > balance.data.value`: flagged only when a balance
      is known and lies strictly below the price. */
  function HasInsufficientBalance(balanceWei: Option<nat>): (r: bool)
    ensures r ==> balanceWei.Some?
    ensures balanceWei.Some? ==> (r <==> balanceWei.value < 10_000_000_000_000)
  {
    match balanceWei
    case Some(b) => TicketPriceWei > b
    case None => false
  }

  const CancelledByUser: string := "Transaction was cancelled by user"
  const ContractCallFailed: string := "Contract call failed. Check contract address and network."

  /** The message shown for a failed mint, decided by searching the error
      text: a cancellation when it contains "User rejected" anywhere
      (case-sensitive), otherwise a contract failure. */
  method ClassifyMintError(errorText: string) returns (message: string)
    ensures message == CancelledByUser <==> Includes(errorText, "User rejected")
    ensures message == ContractCallFailed <==> !Includes(errorText, "User rejected")
  {
    var rejected := FindIncludes(errorText, "User rejected");
    message := if rejected then CancelledByUser else ContractCallFailed;
  }

  /** Any error text with "User rejected" inside it contains the phrase (the
      search pattern fixed), and the two messages never coincide; together
      with `ClassifyMintError`'s ensures, such a text always reads as a
      cancellation and never as a contract failure. */
  lemma RejectedAnywhereIsCancellation(before: string, after: string)
    ensures Includes(before + "User rejected" + after, "User rejected")
    ensures CancelledByUser != ContractCallFailed
  {
    IncludesInfix(before, "User rejected", after);
  }
}
