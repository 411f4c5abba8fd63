// Who may change what: over one step of the whole system, the venue's registry and
// parameters change only at its owner's word, and a batch closes only by a
// settlement or by the owner.
module Authority {
  import opened Types
  import opened Sums
  import opened Venue
  import opened System
  import opened Effects
  import Chain
  import Gateway

  // Everything the owner configures.
  predicate SameConfiguration(v: VenueState, v': VenueState) {
    && v'.isTee == v.isTee && v'.teeSigners == v.teeSigners && v'.signatureThreshold == v.signatureThreshold
    && v'.maxDeviationBps == v.maxDeviationBps && v'.feeBps == v.feeBps && v'.feeRecipient == v.feeRecipient
  }

  // What an owner's call makes of it.
  predicate Configures(call: Chain.Call, v: VenueState, v': VenueState) {
    match call
    case AddingTee(tee) =>
      tee != 0 && v' == v.(isTee := v.isTee + {tee}, teeSigners := v.teeSigners + if tee in v.isTee then [] else [tee])
    case SettingThreshold(threshold) => 1 <= threshold <= |v.teeSigners| && v' == v.(signatureThreshold := threshold)
    case SettingDeviation(bps) => v' == v.(maxDeviationBps := bps)
    case SettingFee(feeBps, to) => feeBps <= 30 && to != 0 && v' == v.(feeBps := feeBps, feeRecipient := to)
    case _ => false
  }

  lemma CallConfigures(c: Chain.ChainState, sender: Address, call: Chain.Call)
    ensures var v, v' := c.ledger.venue, Chain.After(c, sender, call).ledger.venue;
      SameConfiguration(v, v') || (sender == v.owner && Configures(call, v, v'))
    ensures var v, v' := c.ledger.venue, Chain.After(c, sender, call).ledger.venue;
      v'.owner == v.owner && v'.self == v.self && v'.chainId == v.chainId
  {
    match call
    case AddingTee(tee) => AddingTeeEffect(c, sender, tee);
    case SettingThreshold(threshold) => SettingEffects(c, sender, threshold, 0, 0, 0);
    case SettingDeviation(bps) => SettingEffects(c, sender, 0, bps, 0, 0);
    case SettingFee(feeBps, to) => SettingEffects(c, sender, 0, 0, feeBps, to);
    case Settling(payload, signers, feed, now) =>
      if Settle(c.ledger.venue, payload, signers, feed, now).Done? {
        SettlingEffect(c.ledger.venue, payload, signers, feed, now);
      }
    case Submitting(ciphertext, sent) => SubmittingEffect(c, sender, ciphertext, sent);
    case Cancelling(now) => CancellingEffect(c, sender, now);
    case _ =>
      OtherCallConfigures(c, sender, call);
  }

  lemma OtherCallConfigures(c: Chain.ChainState, sender: Address, call: Chain.Call)
    requires || Chain.IsTokenCall(call) || call.Depositing? || call.DepositingFor? || call.Withdrawing?
             || call.Running? || call.Funding? || call.DrainingFloat? || call.HandingOver?
    ensures var v, v' := c.ledger.venue, Chain.After(c, sender, call).ledger.venue;
      v' == v.(baseBalance := v'.baseBalance, quoteBalance := v'.quoteBalance)
  {
  }

  // The signer registry, the threshold, the tolerance and the fee change only by a
  // call of the venue's owner, to what that call says.
  lemma OnlyOwnerConfigures(w: World, a: Action, w': World)
    requires Next(w, a, w')
    ensures !SameConfiguration(VenueOf(w), VenueOf(w')) ==>
      a.Calls? && a.sender == VenueOf(w).owner && Configures(a.call, VenueOf(w), VenueOf(w'))
    ensures VenueOf(w').owner == VenueOf(w).owner
  {
    if a.Calls? {
      CalledFrame(w, a.sender, a.call);
      CallConfigures(w.chain, a.sender, a.call);
    }
  }

  // A batch closes only by a settlement that executes or by the owner's cancellation.
  lemma OnlySettlingOrOwnerCloses(w: World, a: Action, w': World)
    requires Next(w, a, w')
    ensures !(VenueOf(w').batchSettled == VenueOf(w).batchSettled
              && VenueOf(w').currentBatchId == VenueOf(w).currentBatchId) ==>
      Executes(w, a) || (a.Calls? && a.call.Cancelling? && a.sender == VenueOf(w).owner)
  {
    if a.Calls? {
      CalledFrame(w, a.sender, a.call);
      match a.call
      case Cancelling(now) => CancellingEffect(w.chain, a.sender, now);
      case Submitting(ciphertext, sent) => SubmittingEffect(w.chain, a.sender, ciphertext, sent);
      case Settling(_, _, _, _) =>
      case _ => OtherCallsKeep(w.chain, a.sender, a.call);
    }
  }

  // --- Money -----------------------------------------------------------------

  // A trader's balances fall only by its own withdrawal or by a settlement.
  lemma OnlyOwnHandsTake(w: World, a: Action, w': World, t: Address)
    requires Next(w, a, w')
    ensures || Keeps(VenueOf(w), VenueOf(w'), t)
            || Executes(w, a)
            || (a.Calls? && a.call.Withdrawing? && a.sender == t)
  {
    if a.Calls? {
      CalledFrame(w, a.sender, a.call);
      if !Executes(w, a) && !(a.call.Withdrawing? && a.sender == t) {
        CallTakes(w.chain, a.sender, a.call, t);
      }
    }
  }

  predicate Keeps(v: VenueState, v': VenueState, t: Address) {
    At(v.baseBalance, t) <= At(v'.baseBalance, t) && At(v.quoteBalance, t) <= At(v'.quoteBalance, t)
  }

  lemma CallTakes(c: Chain.ChainState, sender: Address, call: Chain.Call, t: Address)
    requires !(call.Withdrawing? && sender == t)
    requires call.Settling? ==>
      Settle(c.ledger.venue, call.payload, call.signers, call.feed, call.now).Revert?
    ensures Keeps(c.ledger.venue, Chain.After(c, sender, call).ledger.venue, t)
  {
    match call
    case Depositing(base, quote) => DepositingEffect(c, sender, base, quote);
    case DepositingFor(trader, base, quote) => DepositingForEffect(c, sender, trader, base, quote);
    case Withdrawing(base, quote) => WithdrawingEffect(c, sender, base, quote);
    case Funding(payment, feed) => FundingGives(c, sender, payment, feed, t);
    case _ => QuietCallTakes(c, sender, call, t);
  }

  lemma QuietCallTakes(c: Chain.ChainState, sender: Address, call: Chain.Call, t: Address)
    requires !call.Depositing? && !call.DepositingFor? && !call.Withdrawing? && !call.Funding?
    requires call.Settling? ==>
      Settle(c.ledger.venue, call.payload, call.signers, call.feed, call.now).Revert?
    ensures Keeps(c.ledger.venue, Chain.After(c, sender, call).ledger.venue, t)
  {
    match call
    case Submitting(ciphertext, sent) => SubmittingEffect(c, sender, ciphertext, sent);
    case Cancelling(now) => CancellingEffect(c, sender, now);
    case AddingTee(tee) => AddingTeeEffect(c, sender, tee);
    case SettingThreshold(threshold) => SettingEffects(c, sender, threshold, 0, 0, 0);
    case SettingDeviation(bps) => SettingEffects(c, sender, 0, bps, 0, 0);
    case SettingFee(feeBps, to) => SettingEffects(c, sender, 0, 0, feeBps, to);
    case _ =>
  }

  lemma FundingGives(c: Chain.ChainState, sender: Address, p: Gateway.Payment, feed: Feed, t: Address)
    ensures Keeps(c.ledger.venue, Chain.After(c, sender, Chain.Funding(p, feed)).ledger.venue, t)
  {
  }

  // The float falls only by honouring a payment or at the gateway owner's word.
  lemma OnlyOwnerDrains(w: World, a: Action, w': World)
    requires Next(w, a, w') && Chain.Safe(w.chain)
    ensures var g := w.chain.gateway;
      At(w'.chain.ledger.quote.balanceOf, g.self) < At(w.chain.ledger.quote.balanceOf, g.self) ==>
        a.Calls? && (a.call.Funding? || (a.call.DrainingFloat? && a.sender == g.owner))
  {
    if a.Calls? {
      CalledFrame(w, a.sender, a.call);
      if !a.call.Funding? && !(a.call.DrainingFloat? && a.sender == w.chain.gateway.owner) {
        FloatHeld(w.chain, a.sender, a.call);
      }
    }
  }

  lemma FloatHeld(c: Chain.ChainState, sender: Address, call: Chain.Call)
    requires Chain.Safe(c) && Chain.Outside(c, sender) && !call.Funding?
    requires !(call.DrainingFloat? && sender == c.gateway.owner)
    ensures At(c.ledger.quote.balanceOf, c.gateway.self)
         <= At(Chain.After(c, sender, call).ledger.quote.balanceOf, c.gateway.self)
  {
    match call
    case Depositing(base, quote) => DepositingEffect(c, sender, base, quote);
    case DepositingFor(trader, base, quote) => DepositingForEffect(c, sender, trader, base, quote);
    case Withdrawing(base, quote) => WithdrawingEffect(c, sender, base, quote);
    case DrainingFloat(amount, to) => DrainingEffect(c, sender, amount, to);
    case _ =>
      if Chain.IsTokenCall(call) && Chain.TokenCall(c.ledger.quote, sender, call).Done? {
        Chain.TokenCallKeeps(c.ledger.quote, sender, call, c.gateway.self);
      }
  }

  // The gateway changes hands only at its owner's word.
  lemma OnlyOwnerHandsOver(w: World, a: Action, w': World)
    requires Next(w, a, w') && w'.chain.gateway.owner != w.chain.gateway.owner
    ensures a.Calls? && a.sender == w.chain.gateway.owner
    ensures a.call == Chain.HandingOver(w'.chain.gateway.owner) && w'.chain.gateway.owner != 0
  {
    CalledFrame(w, a.sender, a.call);
    if a.call.HandingOver? {
      HandingOverEffect(w.chain, a.sender, a.call.newOwner);
    }
  }
}
