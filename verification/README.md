# Attendance-ticket minter

A Dafny model of the NFT-minting logic of the event platform's web front end
(`NFTMinter` and its helpers in `src/app/components/web3Zone.tsx`). A signed-in
user types an event title and clicks a button. The component builds the
ticket metadata and asks the wallet to call the ticket contract, paying a
fixed price of 0.00001 ETH on Ethereum Sepolia. When the receipt is confirmed
it records the ticket and posts a confirmation email. A "Get My Tickets"
button is shown while a confirmed hash is stored but not yet recorded (the
title was cleared, no address was reported, or the user has no email). With
an email, it sends a ticket email for the stored hash, built from the current
title and address, so that email can carry an empty title or no address where
the confirmation email would have carried both. Without an email, a click
sends nothing. Once the confirmation has recorded the ticket and sent its
email, the hash is cleared and the button is gone, so it never resends that
email (`MinterRuns.NoResend`), and nothing more is recorded or emailed until
the wallet delivers a new hash (`MinterRuns.QuietUntilNewHash`).

The component's React state is an immutable record (`Minter.MinterState`).
Every user action and every hook update is one atomic transition. A
transition returns the new state and the requests it sends out
(`WriteContract` to the wallet, `SendEmail` to the email endpoint). The wallet
and sign-in hook results (address, chain id, balance, receipt status, user
email) and the clock are inputs, gathered in `Minter.Session`.

Modules:

- `Options`: the optional-value type.
- `JsStrings`: the JavaScript string built-ins the code relies on: `trim`,
  `slice` with negative indices, `startsWith`, `includes`, `split(c)[0]`,
  truthiness, and the Latin-1 range that `btoa` accepts.
- `Config`: the contract address, price, chain id and explorer links.
- `Ticket`: the attendee text, the ticket image, the metadata record and the
  condition under which it can be encoded.
- `MintGuards`: the network, contract and balance checks, and the mint-error
  wording.
- `Minter`: the state machine.
- `MinterRuns`: properties of whole sequences of steps.

## Behaviour worth knowing

These are consequences of the code as written. The model keeps all of them.

- The click handler re-checks only the address and the trimmed title. The
  network, balance and contract checks live only in the button's `disabled`
  expression (`MinterRuns.HandlerIgnoresChainAndBalance`).
- `generateNFTMetadata` ends in `btoa(JSON.stringify(...))`. `JSON.stringify`
  leaves non-ASCII characters unescaped, and `btoa` throws on any character
  above U+00FF. So a title such as "Web3 Summit €" makes the handler throw
  inside its `try`. The `catch` clears `isMinting` and no write is issued.
  The same happens under `claim`, whose call never uses the token URI,
  because the metadata is built before the branch (`Ticket.EncodableIff`,
  `Minter.MintEventTicket`).
- The confirmation effect does nothing unless the user has an email. Once the
  write has been issued, only that effect clears `isMinting`; a wallet error
  does not clear it either.
  So without an email a mint in flight keeps the button disabled for the rest
  of the session, and no further request of any kind is issued
  (`MinterRuns.RunStuckWithoutEmail`).
- The ticket recorded on confirmation uses the current title, untrimmed. The
  minted token used the trimmed title from the moment of the click.
- The transaction link is `"https://sepolia.etherscan.io/" + "/tx/" + hash`,
  which contains a double slash.

## Model

| member | source | states |
|---|---|---|
| JsStrings.Trim | src/app/components/web3Zone.tsx:482 | `trim` gives an infix of the input that has only whitespace on either side and no whitespace at its own ends; the result is empty exactly when the input is all whitespace |
| JsStrings.TrimIdempotent | src/app/components/web3Zone.tsx:487 | trimming the already trimmed title changes nothing |
| JsStrings.FindIncludes | src/app/components/web3Zone.tsx:658 | the sliding-window search answers true exactly when some window of the text equals the pattern |
| JsStrings.SplitFirst | src/app/components/web3Zone.tsx:157 | `split('T')[0]` is a prefix free of the separator, and it stops right before the first separator |
| Ticket.AttendeeText | src/app/components/web3Zone.tsx:108 | the attendee text is the first min(12, n) characters, then "...", then the last min(8, n) characters; its length is min(12, n) + 3 + min(8, n) for every n, short strings included |
| Ticket.AttendeeTextOfFullAddress | src/app/components/web3Zone.tsx:108 | for a 42-character address the text has length 23, keeps the first two characters ("0x"), puts "..." at positions 12-14 and ends with the address's last eight characters |
| Ticket.AttendeeTextHidesOnlyMiddle | src/app/components/web3Zone.tsx:108 | for an address of 20 or more characters the shown prefix, the hidden middle and the shown suffix put back together give the address |
| Ticket.TicketImageFor | src/app/components/web3Zone.tsx:72-147 | the image shows the truncated attendee text, not the full address |
| Ticket.BuildMetadata | src/app/components/web3Zone.tsx:149-166 | the name is title + " - Attendance Ticket", the image carries the attendee text, and the trait types are exactly Event, Attendee, Date, Type, Chain, Price in that order |
| Ticket.MetadataLookups | src/app/components/web3Zone.tsx:154-161 | looking up each trait gives the title, the address, the ISO date, "Attendance Proof", "Ethereum Sepolia" and "0.00001 ETH" |
| Ticket.EncodableIff | src/app/components/web3Zone.tsx:165 | `btoa` of the serialised metadata succeeds exactly when the title, the address, the locale date and the ISO date are all Latin-1 |
| MintGuards.IsOnSepolia | src/app/components/web3Zone.tsx:526 | the wallet is on the right network exactly when its chain id is known and equals 11155111 |
| MintGuards.IsValidContract | src/app/components/web3Zone.tsx:527 | an address is valid exactly when it is 42 characters long and starts with "0x" |
| MintGuards.ValidContractShape | src/app/components/web3Zone.tsx:527 | "0x" followed by any 40 characters is valid, and every valid address has that form |
| MintGuards.ConfiguredContractIsValid | src/app/components/web3Zone.tsx:36 | the configured ticket contract passes the validity check |
| MintGuards.HasInsufficientBalance | src/app/components/web3Zone.tsx:528 | the balance is flagged only when it is known, and then exactly when it is below 10^13 wei; a balance equal to the price is enough |
| MintGuards.ClassifyMintError | src/app/components/web3Zone.tsx:658-660 | the message is "Transaction was cancelled by user" exactly when the error text contains "User rejected", and the contract-failure message exactly when it does not |
| MintGuards.RejectedAnywhereIsCancellation | src/app/components/web3Zone.tsx:658-660 | an error text with "User rejected" anywhere inside it contains the phrase, so it is classified as a cancellation; the two messages differ |
| Config.EtherscanTxLink | src/app/components/web3Zone.tsx:397 | the transaction link is the explorer base, then "/tx/", then the hash; the base's trailing '/' makes a double slash |
| Minter.Initial | src/app/components/web3Zone.tsx:348-352 | the form starts with the prefilled title (or ""), nothing minting, no hash, safeMint selected and no tickets |
| Minter.CallFor | src/app/components/web3Zone.tsx:490-506 | the call goes to the connected address: `safeMint` carries the metadata's token URI and `claim` carries quantity 1 |
| Minter.MintEventTicket | src/app/components/web3Zone.tsx:481-511 | with no address or a blank title nothing happens. Otherwise `isMinting` becomes true and exactly one write is issued to the ticket contract, paying 10^13 wei, when the metadata built from the trimmed title can be encoded. When it cannot, `isMinting` is false and nothing is issued. No other field changes |
| Minter.MintButtonDisabled | src/app/components/web3Zone.tsx:631-638 | the button is disabled exactly when the title is blank, a mint is in progress, a receipt is confirming, the chain is not 11155111, or a known balance is below the price |
| Minter.ClickMint | src/app/components/web3Zone.tsx:629-638 | a click on a disabled button does nothing; any write issued by a click happens on Sepolia with no mint or confirmation in progress and with a balance that is unknown or at least the price |
| Minter.OnHashReceived | src/app/components/web3Zone.tsx:364-368 | a non-empty hash from the wallet is stored, an empty one is ignored, and no request is issued |
| Minter.OnConfirmed | src/app/components/web3Zone.tsx:371-416 | when confirmed with hash, title, address and email all present, the ticket list grows by exactly one entry (title, hash, address) at the end with earlier entries unchanged, `isMinting` becomes false, title and hash are reset, and exactly one email is sent for that hash; otherwise nothing changes |
| Minter.TicketEmail | src/app/components/web3Zone.tsx:390-398 | the email body carries the recipient, the title, the hash, the user address as given, the ticket contract, the collection link and the transaction link for that hash |
| Minter.GetTicketsVisible | src/app/components/web3Zone.tsx:459-461 | while the get-tickets button is shown, a click on it sends a request exactly when the user has an email |
| Minter.GetTickets | src/app/components/web3Zone.tsx:419-441 | getting tickets never changes the state; with an email and a hash it sends exactly one email for the stored hash and no mint; otherwise it sends nothing |
| Minter.Step | src/app/components/web3Zone.tsx:345-511 | a step issues at most one request; a write only on a mint click while the button is enabled (non-blank title, no mint or receipt in progress, on Sepolia, balance unknown or at least the price); an email only on a confirmation or a get-tickets click |
| MinterRuns.HandlerIgnoresChainAndBalance | src/app/components/web3Zone.tsx:482 | the handler's outcome does not depend on the chain, the balance or the confirming flag |
| MinterRuns.MintingDisablesButton | src/app/components/web3Zone.tsx:633 | while a mint is in progress the button is disabled and a click does nothing |
| MinterRuns.ConfirmationHidesGetTickets | src/app/components/web3Zone.tsx:459-461 | right after a ticket is recorded, whatever the hooks report, the get-tickets button is not shown and the confirmation cannot fire again |
| MinterRuns.QuietUntilNewHash | src/app/components/web3Zone.tsx:371-422 | from a state with no stored hash (as the confirmation leaves it), a run in which the wallet delivers no non-empty hash keeps the hash cleared, records no ticket and sends no email |
| MinterRuns.NoResend | src/app/components/web3Zone.tsx:410-414 | right after the confirmation sends its email and clears the hash, a get-tickets click issues no request, for any later session |
| MinterRuns.MoreBalanceNeverDisables | src/app/components/web3Zone.tsx:528 | raising a known balance never turns an enabled mint button into a disabled one |
| MinterRuns.MintAgainAfterConfirmation | src/app/components/web3Zone.tsx:412-416 | after a recorded ticket, entering the same title and clicking on a valid session mints again: there is no de-duplication |
| MinterRuns.StepKeepsHistory | src/app/components/web3Zone.tsx:376-380 | a step never removes or rewrites a recorded ticket: the old list is a prefix of the new one |
| MinterRuns.RunKeepsHistory | src/app/components/web3Zone.tsx:376-380 | along any run the starting ticket list stays a prefix of the final one |
| MinterRuns.RunNeverFabricatesHash | src/app/components/web3Zone.tsx:364-397 | every recorded ticket, the stored hash and every email of a run carry a hash that was known at the start or delivered by the wallet during the run |
| MinterRuns.FreshRunNeverFabricatesHash | src/app/components/web3Zone.tsx:364-380 | from the initial state every recorded ticket carries a hash the wallet delivered |
| MinterRuns.RunRecordsAtMostOnePerDelivery | src/app/components/web3Zone.tsx:371-416 | the tickets recorded plus the hash still pending never exceed those at the start plus the number of non-empty hash deliveries (deliveries are counted, not distinct hashes) |
| MinterRuns.RunStuckWithoutEmail | src/app/components/web3Zone.tsx:372 | with a mint in progress and no user email at any step, the mint stays in progress, no ticket is recorded and no request is issued |

## Left out

- Rendering and styling: all markup in web3Zone.tsx, `NFTDisplay`, `WalletInfo`, `Web3Dashboard`, `Web3Zone` and the other components. This is presentation only. The model assumes the minting form is on screen, which needs a connected wallet and a signed-in user (line 513).
- The wagmi, viem, React Query and Civic hooks and `Providers.tsx`: these are library calls. Their results are the `Session` inputs.
- `parseEther`: the price is the constant 10^13 wei, which is 0.00001 × 10^18.
- The SVG template text, `toUpperCase`, `encodeURIComponent`, `JSON.stringify` and base64: these are encodings. The token URI is kept as the record it encodes. The only effect of the encodings that is modelled is the Latin-1 condition under which `btoa` throws.
- Ticket.TicketImageFor: the heading holds the title before `toUpperCase`; upper-casing depends on Unicode case tables, which are not modelled.
- `Date`, `toLocaleDateString` and `toISOString`: these depend on the clock and the locale. Their outputs are the `Clock` input.
- Lengths are counted in Unicode scalar values, but JavaScript counts UTF-16 code units. The two agree on the ASCII addresses and hashes the code slices. Lone surrogates, on which `encodeURIComponent` throws, cannot be written as Dafny characters.
- `formatBalanceEth` (line 742): it uses floating point.
- The email endpoint's response, `isSendingEmail`, `isEmailSent` and their `setTimeout` resets: these depend on network responses and timers. Only the request a transition sends is modelled.
- The Google OAuth flow, `addToCalendar` and the `window.open` links of `NFTDisplay`: these are I/O outside the minting state machine.
- `src/app/api/civic-nft-fallback/route.ts` and `src/app/api/google-calendar/route.ts`: these are server routes that wrap third-party services.
- The input's `maxLength={50}`: the browser enforces it on typing, so `TitleEdited` accepts any string.
- React's scheduling of effects and the async interleaving of handlers: each effect run and each handler is one atomic step, triggered by an explicit event.
