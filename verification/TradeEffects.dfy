/** What each request of a trade does to what a player can see of it: who trades, who has confirmed, what is
    on offer and what is owned. */
module TradeEffects {
  import opened Ids
  import opened TradeExchange
  import opened TradeProtocol
  import opened TradeSuccess

  /** The peer of a player that names itself as the requester is the other one of the two traders. */
  lemma PeerIsOther(names: Names, me: PlayerID, other: PlayerID)
    requires names.iID_Request == me
    requires {names.iID_From, names.iID_To} == {me, other}
    ensures Other(names) == other
  {
    assert names.iID_From in {me, other} && names.iID_To in {me, other};
    assert me in {names.iID_From, names.iID_To} && other in {names.iID_From, names.iID_To};
  }

  // The request names `id` and another player who is there.
  predicate Concerns(s: Hall, r: Request, id: PlayerID) {
    Peer(r) in s && (id == r.me || id == Peer(r))
  }

  predicate BothTrade(s: Hall, r: Request)
    requires r.me in s && Peer(r) in s
  {
    s[r.me].isTrading && s[Peer(r)].isTrading
  }

  // A confirmation that leaves the trade open.
  predicate FirstToConfirm(s: Hall, r: Request)
    requires r.me in s && Peer(r) in s
  {
    BothTrade(s, r) && !s[Peer(r)].isTradeConfirm
  }

  // The request changes an offer.
  predicate Alters(s: Hall, r: Request)
    requires r.me in s && Peer(r) in s
  {
    match r
    case Register(_, _, item) => BothTrade(s, r) && 0 <= item.iSlotNum < 5 && 0 <= item.iInvenNum < 50
    case Unregister(_, _, slot) => BothTrade(s, r) && 0 <= slot < 5
    case Cash(_, _, iCandy) => 0 <= iCandy <= s[r.me].money
    case _ => false
  }

  /** An invitation that is accepted begins a trade unless the other party trades already; a cancellation ends
      it, and so does any confirmation but the first. */
  lemma WhoTrades(s: Hall, r: Request, id: PlayerID)
    requires Sizes(s) && r.me in s && Peer(r) != r.me && id in s
    ensures Step(s, r)[id].isTrading <==>
              if !Concerns(s, r, id) then s[id].isTrading
              else match r
                case Accept(_, _) => s[Peer(r)].isTrading ==> s[id].isTrading
                case Confirm(_, _) => FirstToConfirm(s, r)
                case Cancel(_, _) => false
                case _ => s[id].isTrading
  {
    hide Exchange;
  }

  /** Only a first confirmation sets a flag, that of its sender; whatever begins or ends a trade or changes an
      offer clears both. */
  lemma WhoConfirms(s: Hall, r: Request, id: PlayerID)
    requires Sizes(s) && r.me in s && Peer(r) != r.me && id in s
    ensures Step(s, r)[id].isTradeConfirm <==>
              if !Concerns(s, r, id) then s[id].isTradeConfirm
              else match r
                case Accept(_, _) => s[Peer(r)].isTrading && s[id].isTradeConfirm
                case Confirm(_, _) => id == r.me && FirstToConfirm(s, r)
                case Cancel(_, _) => false
                case _ => s[id].isTradeConfirm && !Alters(s, r)
  {
    hide Exchange;
  }

  // The parties may exchange, with or without success.
  predicate Settles(s: Hall, r: Request)
    requires r.me in s
  {
    r.Confirm? && Peer(r) in s && BothTrade(s, r) && s[Peer(r)].isTradeConfirm
  }

  /** Until they exchange, what a player offers is what its own last change left, and nothing at the beginning
      of a trade. */
  lemma WhatIsOffered(s: Hall, r: Request, id: PlayerID, k: nat)
    requires Sound(s) && r.me in s && Peer(r) != r.me && id in s && k < TRADE_SLOTS
    ensures !Settles(s, r) ==>
              var begins := Concerns(s, r, id) && r.Accept? && !s[Peer(r)].isTrading;
              var alters := Concerns(s, r, id) && id == r.me && Alters(s, r);
              && Step(s, r)[id].trade[k] == (if begins then Offer(0, 0, 0, 0, 0)
                                             else if alters && r.Register? && k == r.item.iSlotNum then r.item
                                             else if alters && r.Unregister? && k == r.slot then Offer(0, 0, 0, 0, 0)
                                             else s[id].trade[k])
              && Step(s, r)[id].moneyInTrade == (if begins then 0 else if alters && r.Cash? then r.iCandy
                                                 else s[id].moneyInTrade)
  {
    hide Exchange;
  }

  // Both parties can give what they offer and take what they are offered.
  ghost predicate Exchanging(s: Hall, r: Request)
    requires Sizes(s) && r.me in s
  {
    && Settles(s, r)
    && CanPass(s[r.me].inven, s[r.me].trade, s[Peer(r)].trade, 0)
    && CanPass(s[Peer(r)].inven, s[Peer(r)].trade, s[r.me].trade, 0)
  }

  /** Inventories and balances change in exchanges only, and each party then has what its five offers and those
      of the other come to, and its money less what it put in plus what the other did, up to the cap. */
  lemma WhatIsOwned(s: Hall, r: Request, id: PlayerID)
    requires Sound(s) && r.me in s && Peer(r) != r.me && id in s
    ensures var t, t' := s[id], Step(s, r)[id];
            if Concerns(s, r, id) && Exchanging(s, r)
            then var other := s[if id == r.me then Peer(r) else r.me];
                 var sum := t.money - t.moneyInTrade + other.moneyInTrade;
                 && Comes(t.inven, t.trade, other.trade, 0, t'.inven)
                 && t'.money == if sum <= 999999999 then sum else 999999999
            else t'.inven == t.inven && t'.money == t.money
  {
    hide Exchange, Balance, Comes, CanPass, Fit;
    if Settles(s, r) {
      var a, b := s[r.me], s[Peer(r)];
      SumsInRange(s, r);
      ExchangeIff(PartyOf(a), PartyOf(b));
      if Exchanging(s, r) {
        SuccessComes(PartyOf(a), PartyOf(b), 0);
        BalanceExact(a.money, a.moneyInTrade, b.moneyInTrade);
        BalanceExact(b.money, b.moneyInTrade, a.moneyInTrade);
      }
    } else if Peer(r) in s {
      NoPayment(s, r);
    }
  }

  lemma SumsInRange(s: Hall, r: Request)
    requires Sound(s) && r.me in s && Settles(s, r)
    ensures 0 <= s[r.me].moneyInTrade <= s[r.me].money <= 999999999
    ensures 0 <= s[Peer(r)].moneyInTrade <= s[Peer(r)].money <= 999999999
    ensures Fit(PartyOf(s[r.me])) && Fit(PartyOf(s[Peer(r)]))
  {
  }
}
