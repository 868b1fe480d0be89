/** Properties of whole sessions of the minter: sequences of steps from some
    state, each with the hook results of its moment. */
module MinterRuns {
  import opened Options
  import opened JsStrings
  import opened Config
  import opened Ticket
  import opened MintGuards
  import opened Minter

  /** The handler reads neither the chain, the balance nor the receipt status:
      those checks live only in the button. */
  lemma HandlerIgnoresChainAndBalance(s: MinterState, env: Session, chainId: Option<int>, balanceWei: Option<nat>, confirming: bool)
    ensures MintEventTicket(s, env) == MintEventTicket(s, env.(chainId := chainId, balanceWei := balanceWei, isConfirming := confirming))
  {
  }

  /** While a mint is in flight the button stays disabled, whatever the session. */
  lemma MintingDisablesButton(s: MinterState, env: Session)
    requires s.isMinting
    ensures MintButtonDisabled(s, env)
    ensures ClickMint(s, env) == Transition(s, [])
  {
  }

  /** Right after a recorded confirmation the get-tickets button disappears
      and the confirmation cannot fire, whatever the hooks report: the hash
      is cleared. */
  lemma ConfirmationHidesGetTickets(s: MinterState, env: Session, later: Session)
    requires ConfirmationFires(s, env)
    ensures !GetTicketsVisible(OnConfirmed(s, env).state, later)
    ensures !ConfirmationFires(OnConfirmed(s, env).state, later)
  {
  }

  /** The get-tickets button cannot resend the confirmation email: right after
      the email goes out, a get-tickets click issues nothing. */
  lemma NoResend(s: MinterState, env: Session, later: Session)
    requires ConfirmationFires(s, env)
    ensures Step(OnConfirmed(s, env).state, Input(later, GetTicketsClicked)).requests == []
  {
  }

  /** No request in the list is an email. */
  predicate NoEmails(requests: seq<Request>) {
    forall i | 0 <= i < |requests| :: !requests[i].SendEmail?
  }

  /** The wallet delivers a (non-empty) transaction hash. */
  predicate Delivers(e: Event) {
    e.HashReceived? && e.hash != []
  }

  /** One step with no hash delivered leaves a cleared hash cleared, records
      nothing and sends no email. */
  lemma StepQuietWithoutHash(s: MinterState, input: Input)
    requires s.mintTxHash == None
    requires !Delivers(input.event)
    ensures Step(s, input).state.mintTxHash == None
    ensures Step(s, input).state.mintedNfts == s.mintedNfts
    ensures NoEmails(Step(s, input).requests)
  {
  }

  lemma NoEmailsConcat(a: seq<Request>, b: seq<Request>)
    requires NoEmails(a) && NoEmails(b)
    ensures NoEmails(a + b)
  {
    forall i | 0 <= i < |a + b|
      ensures !(a + b)[i].SendEmail?
    {
      if i < |a| {
        assert (a + b)[i] == a[i];
      } else {
        assert (a + b)[i] == b[i - |a|];
      }
    }
  }

  /** With no hash stored, a run in which the wallet delivers no non-empty hash keeps
      the hash cleared, records no ticket and sends no email: neither the
      confirmation nor the get-tickets button can act until a new hash arrives. */
  lemma {:induction false} QuietUntilNewHash(s: MinterState, inputs: seq<Input>)
    requires s.mintTxHash == None
    requires forall i | 0 <= i < |inputs| :: !Delivers(inputs[i].event)
    ensures Run(s, inputs).state.mintTxHash == None
    ensures Run(s, inputs).state.mintedNfts == s.mintedNfts
    ensures NoEmails(Run(s, inputs).requests)
    decreases |inputs|
  {
    if inputs != [] {
      var first := Step(s, inputs[0]);
      StepQuietWithoutHash(s, inputs[0]);
      QuietUntilNewHash(first.state, inputs[1..]);
      NoEmailsConcat(first.requests, Run(first.state, inputs[1..]).requests);
    }
  }

  /** A larger balance never disables an enabled mint button. */
  lemma MoreBalanceNeverDisables(s: MinterState, env: Session, more: nat)
    requires env.balanceWei.Some? && env.balanceWei.value <= more
    requires !MintButtonDisabled(s, env)
    ensures !MintButtonDisabled(s, env.(balanceWei := Some(more)))
  {
  }

  /** There is no de-duplication: once a ticket is recorded, typing the same
      title and clicking again mints again. */
  lemma MintAgainAfterConfirmation(s: MinterState, env: Session, later: Session)
    requires ConfirmationFires(s, env)
    requires !IsBlank(s.eventTitle)
    requires IsTruthy(later.address) && !later.isConfirming && later.chainId == Some(SepoliaChainId)
    requires later.balanceWei.None? || later.balanceWei.value >= TicketPriceWei
    requires Encodable(BuildMetadata(Trim(s.eventTitle), later.address.value, later.clock))
    ensures var again := Step(OnConfirmed(s, env).state.(eventTitle := s.eventTitle), Input(later, MintClicked));
      && |again.requests| == 1
      && again.requests[0].WriteContract?
      && again.state.isMinting
  {
    var s' := OnConfirmed(s, env).state.(eventTitle := s.eventTitle);
    assert !MintButtonDisabled(s', later);
    assert MintMetadata(s', later) == BuildMetadata(Trim(s.eventTitle), later.address.value, later.clock);
  }

  /** A step never removes or rewrites a recorded ticket. */
  lemma StepKeepsHistory(s: MinterState, input: Input)
    ensures s.mintedNfts <= Step(s, input).state.mintedNfts
  {
    var t := Step(s, input);
    if input.event == Confirmed && ConfirmationFires(s, input.env) {
      assert t.state.mintedNfts[..|s.mintedNfts|] == s.mintedNfts;
    }
  }

  /** Along a run the recorded tickets only grow at the end. */
  lemma {:induction false} RunKeepsHistory(s: MinterState, inputs: seq<Input>)
    ensures s.mintedNfts <= Run(s, inputs).state.mintedNfts
    decreases |inputs|
  {
    if inputs != [] {
      StepKeepsHistory(s, inputs[0]);
      RunKeepsHistory(Step(s, inputs[0]).state, inputs[1..]);
    }
  }

  /** The hashes the wallet delivered during a run. */
  function ReceivedHashes(inputs: seq<Input>): (hs: set<string>)
    ensures forall i | 0 <= i < |inputs| && inputs[i].event.HashReceived? :: inputs[i].event.hash in hs
    ensures forall h | h in hs :: exists i | 0 <= i < |inputs| :: inputs[i].event.HashReceived? && inputs[i].event.hash == h
    decreases |inputs|
  {
    if inputs == [] then {}
    else
      (if inputs[0].event.HashReceived? then {inputs[0].event.hash} else {}) + ReceivedHashes(inputs[1..])
  }

  /** Every hash the state mentions is one of the known hashes. */
  predicate HashesKnown(s: MinterState, known: set<string>) {
    && (s.mintTxHash.Some? ==> s.mintTxHash.value in known)
    && forall i | 0 <= i < |s.mintedNfts| :: s.mintedNfts[i].txHash in known
  }

  /** Every email a run sends names a known hash. */
  predicate EmailsKnown(requests: seq<Request>, known: set<string>) {
    forall i | 0 <= i < |requests| && requests[i].SendEmail? :: requests[i].email.txHash in known
  }

  lemma StepKeepsHashesKnown(s: MinterState, input: Input, known: set<string>)
    requires HashesKnown(s, known)
    ensures var extra := if input.event.HashReceived? then {input.event.hash} else {};
      && HashesKnown(Step(s, input).state, known + extra)
      && EmailsKnown(Step(s, input).requests, known)
  {
    var t := Step(s, input);
    if input.event == Confirmed && ConfirmationFires(s, input.env) {
      forall i | 0 <= i < |t.state.mintedNfts|
        ensures t.state.mintedNfts[i].txHash in known
      {
        if i < |s.mintedNfts| {
          assert t.state.mintedNfts[i] == t.state.mintedNfts[..|s.mintedNfts|][i] == s.mintedNfts[i];
        }
      }
    }
  }

  /** The minter never makes up a transaction id: every recorded ticket and
      every email of a run carries a hash that was known at the start or that
      the wallet delivered during the run. */
  lemma {:induction false} RunNeverFabricatesHash(s: MinterState, inputs: seq<Input>, known: set<string>)
    requires HashesKnown(s, known)
    ensures HashesKnown(Run(s, inputs).state, known + ReceivedHashes(inputs))
    ensures EmailsKnown(Run(s, inputs).requests, known + ReceivedHashes(inputs))
    decreases |inputs|
  {
    if inputs != [] {
      var extra := if inputs[0].event.HashReceived? then {inputs[0].event.hash} else {};
      var first := Step(s, inputs[0]);
      StepKeepsHashesKnown(s, inputs[0], known);
      RunNeverFabricatesHash(first.state, inputs[1..], known + extra);
      assert known + extra + ReceivedHashes(inputs[1..]) == known + ReceivedHashes(inputs);
      var rest := Run(first.state, inputs[1..]);
      var all := known + ReceivedHashes(inputs);
      forall i | 0 <= i < |first.requests + rest.requests| && (first.requests + rest.requests)[i].SendEmail?
        ensures (first.requests + rest.requests)[i].email.txHash in all
      {
        if i < |first.requests| {
          assert (first.requests + rest.requests)[i] == first.requests[i];
        } else {
          assert (first.requests + rest.requests)[i] == rest.requests[i - |first.requests|];
        }
      }
    }
  }

  /** A run that starts from the initial state records only delivered hashes. */
  lemma FreshRunNeverFabricatesHash(prefilledTitle: Option<string>, inputs: seq<Input>)
    ensures var final := Run(Initial(prefilledTitle), inputs).state;
      forall i | 0 <= i < |final.mintedNfts| :: final.mintedNfts[i].txHash in ReceivedHashes(inputs)
  {
    RunNeverFabricatesHash(Initial(prefilledTitle), inputs, {});
    assert {} + ReceivedHashes(inputs) == ReceivedHashes(inputs);
  }

  /** How many non-empty hashes the wallet delivered during a run. */
  function HashDeliveries(inputs: seq<Input>): (n: nat)
    decreases |inputs|
  {
    if inputs == [] then 0
    else
      (if Delivers(inputs[0].event) then 1 else 0) + HashDeliveries(inputs[1..])
  }

  /** One when a hash is stored and waiting for its confirmation. */
  function Pending(s: MinterState): (n: nat) {
    if s.mintTxHash.Some? then 1 else 0
  }

  /** Each delivery of a hash is recorded at most once: a recorded ticket
      consumes the stored hash, so the next ticket needs a new delivery. */
  lemma {:induction false} RunRecordsAtMostOnePerDelivery(s: MinterState, inputs: seq<Input>)
    ensures var final := Run(s, inputs).state;
      |final.mintedNfts| + Pending(final) <= |s.mintedNfts| + Pending(s) + HashDeliveries(inputs)
    decreases |inputs|
  {
    if inputs != [] {
      var first := Step(s, inputs[0]);
      RunRecordsAtMostOnePerDelivery(first.state, inputs[1..]);
    }
  }

  /** Without a signed-in email the confirmation never fires, so a mint in
      flight stays in flight: the button remains disabled, nothing is
      recorded, and no request of any kind is issued. */
  lemma {:induction false} RunStuckWithoutEmail(s: MinterState, inputs: seq<Input>)
    requires s.isMinting
    requires forall i | 0 <= i < |inputs| :: !IsTruthy(inputs[i].env.userEmail)
    ensures Run(s, inputs).state.isMinting
    ensures Run(s, inputs).state.mintedNfts == s.mintedNfts
    ensures Run(s, inputs).requests == []
    decreases |inputs|
  {
    if inputs != [] {
      var first := Step(s, inputs[0]);
      assert !IsTruthy(inputs[0].env.userEmail);
      assert first.state.isMinting && first.state.mintedNfts == s.mintedNfts && first.requests == [];
      RunStuckWithoutEmail(first.state, inputs[1..]);
    }
  }
}
