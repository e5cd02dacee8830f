/** The trade handlers, on player objects; each is the step of that name in TradeProtocol. */
module Trading {
  import opened Ids
  import opened TradeExchange
  import opened TradeProtocol
  import TradeAgreement

  type Players = map<PlayerID, Player>

  function View(p: Player): Trader
    reads p
  {
    Trader(p.money, p.moneyInTrade, p.isTrading, p.isTradeConfirm, p.Inven, p.Trade)
  }

  function Views(players: Players): (s: Hall)
    reads players.Values
    ensures s.Keys == players.Keys
  {
    map id | id in players :: View(players[id])
  }

  // Players are looked up by their ids.
  predicate ById(players: Players) {
    forall id | id in players :: players[id].iID == id
  }

  predicate Ready(players: Players, me: PlayerID, other: PlayerID)
    reads players.Values
  {
    ById(players) && Sizes(Views(players)) && me in players && other != me
  }

  // Only the two parties have changed.
  lemma TwoChanged(before: Hall, after: Hall, me: PlayerID, other: PlayerID)
    requires before.Keys == after.Keys && me in before && other in before
    requires forall id | id in before && id != me && id != other :: after[id] == before[id]
    ensures after == before[me := after[me]][other := after[other]]
  {
  }

  // What a handler does to its two parties is what it does to the hall.
  lemma StepIs(s: Hall, r: Request, a: Trader, b: Trader)
    requires Sizes(s) && r.me in s && Peer(r) in s && Served(r, s[r.me], s[Peer(r)]) == (a, b)
    ensures Step(s, r) == s[r.me := a][Peer(r) := b]
  {
  }

  lemma PartiesFit(players: Players, id: PlayerID)
    requires Sizes(Views(players)) && id in players
    ensures Fit(players[id].Party()) && Fit(PartyOf(View(players[id])))
  {
    assert Fit(PartyOf(Views(players)[id]));
  }

  // ---- the handlers between the two parties

  method Open(plr: Player, plr2: Player, ghost r: Request)
    requires plr != plr2 && r.Accept? && Fit(PartyOf(View(plr))) && Fit(PartyOf(View(plr2)))
    modifies plr, plr2
    ensures (View(plr), View(plr2)) == Served(r, old(View(plr)), old(View(plr2)))
  {
    hide Fit, Settle, NoOffers;
    if plr2.isTrading {
      return;
    }
    plr.moneyInTrade := 0;
    plr2.moneyInTrade := 0;
    plr.Trade := NoOffers();
    plr2.Trade := NoOffers();
    plr.isTrading := true;
    plr2.isTrading := true;
    plr.isTradeConfirm := false;
    plr2.isTradeConfirm := false;
  }

  // both have confirmed
  method CarryOut(plr: Player, plr2: Player)
    requires plr != plr2 && Fit(PartyOf(View(plr))) && Fit(PartyOf(View(plr2)))
    modifies plr, plr2
    ensures (View(plr), View(plr2)) == Settle(old(View(plr)), old(View(plr2)))
  {
    hide Fit, Exchange, CappedSum, CappedDifference;
    plr.isTrading := false;
    plr2.isTrading := false;
    plr.isTradeConfirm := false;
    plr2.isTradeConfirm := false;
    var ok := DoTrade(plr, plr2);
    if ok {
      plr.SubtractCapped(TAROS, plr.moneyInTrade);
      assert plr.Value(TAROS_IN_TRADE) == old(plr.Value(TAROS_IN_TRADE));
      plr.AddCapped(TAROS, plr2.moneyInTrade);
      assert plr.Value(TAROS_IN_TRADE) == old(plr.Value(TAROS_IN_TRADE));
      plr2.SubtractCapped(TAROS, plr2.moneyInTrade);
      assert plr2.Value(TAROS_IN_TRADE) == old(plr2.Value(TAROS_IN_TRADE));
      plr2.AddCapped(TAROS, plr.moneyInTrade);
      assert plr2.Value(TAROS_IN_TRADE) == old(plr2.Value(TAROS_IN_TRADE));
    }
  }

  method Confirmation(plr: Player, plr2: Player, ghost r: Request)
    requires plr != plr2 && r.Confirm? && Fit(PartyOf(View(plr))) && Fit(PartyOf(View(plr2)))
    modifies plr, plr2
    ensures (View(plr), View(plr2)) == Served(r, old(View(plr)), old(View(plr2)))
  {
    hide Fit, Settle, NoOffers;
    if !(plr.isTrading && plr2.isTrading) {
      Close(plr, plr2);
      return;
    }
    if !plr2.isTradeConfirm {
      plr.isTradeConfirm := true;
      return;
    }
    CarryOut(plr, plr2);
  }

  method Close(plr: Player, plr2: Player)
    requires plr != plr2
    modifies plr, plr2
    ensures View(plr) == Closed(old(View(plr))) && View(plr2) == Closed(old(View(plr2)))
  {
    plr.isTrading := false;
    plr2.isTrading := false;
    plr.isTradeConfirm := false;
    plr2.isTradeConfirm := false;
  }

  // an offer, or none, in one slot
  method SetOffer(plr: Player, plr2: Player, slot: int, item: Offer)
    requires plr != plr2 && 0 <= slot < |plr.Trade|
    modifies plr, plr2
    ensures View(plr) == Unconfirmed(old(View(plr))).(trade := old(plr.Trade)[slot := item])
    ensures View(plr2) == Unconfirmed(old(View(plr2)))
  {
    plr.Trade := plr.Trade[slot := item];
    plr.isTradeConfirm := false;
    plr2.isTradeConfirm := false;
  }

  method SetCash(plr: Player, plr2: Player, iCandy: int)
    requires plr != plr2
    modifies plr, plr2
    ensures View(plr) == Unconfirmed(old(View(plr))).(moneyInTrade := Capped(PC_CANDY_MAX, iCandy))
    ensures View(plr2) == Unconfirmed(old(View(plr2)))
  {
    hide Capped;
    plr.isTradeConfirm := false;
    plr2.isTradeConfirm := false;
    plr.SetCapped(TAROS_IN_TRADE, iCandy);
    assert plr.Value(TAROS) == old(plr.Value(TAROS));
    plr.isTradeConfirm := false;
  }

  // ---- the handlers

  method TradeOfferAccept(players: Players, me: PlayerID, iID_From: PlayerID)
    requires Ready(players, me, iID_From)
    modifies players.Values
    ensures Views(players) == Step(old(Views(players)), Accept(me, iID_From))
  {
    hide Fit, Served, Step, Sizes;
    ghost var r, before := Accept(me, iID_From), Views(players);
    NoPeer(before, r);
    if iID_From !in players {
      return;
    }
    PartiesFit(players, me);
    PartiesFit(players, iID_From);
    Open(players[me], players[iID_From], r);
    TwoChanged(before, Views(players), me, iID_From);
    StepIs(before, r, View(players[me]), View(players[iID_From]));
  }

  lemma NoPeer(s: Hall, r: Request)
    requires Sizes(s) && r.me in s
    ensures Peer(r) !in s ==> Step(s, r) == s
  {
  }

  method TradeConfirm(players: Players, me: PlayerID, names: Names)
    requires Ready(players, me, Other(names))
    modifies players.Values
    ensures Views(players) == Step(old(Views(players)), Confirm(me, names))
  {
    hide Fit, Served, Step, Sizes;
    var other := if names.iID_Request == names.iID_From then names.iID_To else names.iID_From;
    ghost var r, before := Confirm(me, names), Views(players);
    NoPeer(before, r);
    if other !in players {
      return;
    }
    PartiesFit(players, me);
    PartiesFit(players, other);
    Confirmation(players[me], players[other], r);
    TwoChanged(before, Views(players), me, other);
    StepIs(before, r, View(players[me]), View(players[other]));
  }

  method TradeConfirmCancel(players: Players, me: PlayerID, names: Names)
    requires Ready(players, me, Other(names))
    modifies players.Values
    ensures Views(players) == Step(old(Views(players)), Cancel(me, names))
  {
    hide Fit, Settle, Step, Sizes;
    var other := if names.iID_Request == names.iID_From then names.iID_To else names.iID_From;
    ghost var r, before := Cancel(me, names), Views(players);
    NoPeer(before, r);
    if other !in players {
      return;
    }
    PartiesFit(players, me);
    PartiesFit(players, other);
    Close(players[me], players[other]);
    TwoChanged(before, Views(players), me, other);
    StepIs(before, r, View(players[me]), View(players[other]));
  }

  method TradeRegisterItem(players: Players, me: PlayerID, names: Names, item: Offer)
    requires Ready(players, me, Other(names))
    modifies players.Values
    ensures Views(players) == Step(old(Views(players)), Register(me, names, item))
  {
    hide Settle, Step, Sizes, Fit;
    var other := if names.iID_Request == names.iID_From then names.iID_To else names.iID_From;
    ghost var r, before := Register(me, names, item), Views(players);
    NoPeer(before, r);
    if other !in players {
      return;
    }
    var plr, plr2 := players[me], players[other];
    PartiesFit(players, me);
    PartiesFit(players, other);
    if item.iInvenNum < 0 || item.iInvenNum >= AINVEN_COUNT || item.iSlotNum < 0 || item.iSlotNum > 4
       || !plr.isTrading || !plr2.isTrading {
      TwoChanged(before, Views(players), me, other);
      StepIs(before, r, View(plr), View(plr2));
      return;
    }
    FiveSlots(plr);
    SetOffer(plr, plr2, item.iSlotNum, item);
    TwoChanged(before, Views(players), me, other);
    StepIs(before, r, View(plr), View(plr2));
  }

  lemma FiveSlots(plr: Player)
    requires Fit(plr.Party())
    ensures |plr.Trade| == TRADE_SLOTS
  {
  }

  method TradeUnregisterItem(players: Players, me: PlayerID, names: Names, slot: int)
    requires Ready(players, me, Other(names))
    modifies players.Values
    ensures Views(players) == Step(old(Views(players)), Unregister(me, names, slot))
  {
    hide Settle, Step, Sizes, Fit;
    var other := if names.iID_Request == names.iID_From then names.iID_To else names.iID_From;
    ghost var r, before := Unregister(me, names, slot), Views(players);
    NoPeer(before, r);
    if other !in players {
      return;
    }
    var plr, plr2 := players[me], players[other];
    PartiesFit(players, me);
    PartiesFit(players, other);
    if slot < 0 || slot > 4 || !plr.isTrading || !plr2.isTrading {
      TwoChanged(before, Views(players), me, other);
      StepIs(before, r, View(plr), View(plr2));
      return;
    }
    FiveSlots(plr);
    SetOffer(plr, plr2, slot, NO_OFFER);
    TwoChanged(before, Views(players), me, other);
    StepIs(before, r, View(plr), View(plr2));
  }

  method TradeRegisterCash(players: Players, me: PlayerID, names: Names, iCandy: int)
    requires Ready(players, me, Other(names))
    modifies players.Values
    ensures Views(players) == Step(old(Views(players)), Cash(me, names, iCandy))
  {
    hide Settle, Step, Sizes, Fit, Capped;
    var other := if names.iID_Request == names.iID_From then names.iID_To else names.iID_From;
    ghost var r, before := Cash(me, names, iCandy), Views(players);
    NoPeer(before, r);
    if other !in players {
      return;
    }
    var plr, plr2 := players[me], players[other];
    PartiesFit(players, me);
    PartiesFit(players, other);
    if iCandy < 0 || iCandy > plr.money {
      TwoChanged(before, Views(players), me, other);
      StepIs(before, r, View(plr), View(plr2));
      return;
    }
    SetCash(plr, plr2, iCandy);
    TwoChanged(before, Views(players), me, other);
    StepIs(before, r, View(plr), View(plr2));
  }

  // ---- runs

  method Serve(players: Players, r: Request)
    requires Ready(players, r.me, Peer(r))
    modifies players.Values
    ensures Views(players) == Step(old(Views(players)), r)
  {
    hide Step, Sizes;
    match r
    case Accept(me, from) => TradeOfferAccept(players, me, from);
    case Confirm(me, names) => TradeConfirm(players, me, names);
    case Cancel(me, names) => TradeConfirmCancel(players, me, names);
    case Register(me, names, item) => TradeRegisterItem(players, me, names, item);
    case Unregister(me, names, slot) => TradeUnregisterItem(players, me, names, slot);
    case Cash(me, names, iCandy) => TradeRegisterCash(players, me, names, iCandy);
  }

  lemma StateAtEnds(s: Hall, reqs: seq<Request>)
    requires Sizes(s) && Proper(s.Keys, reqs)
    ensures TradeAgreement.State(s, reqs, 0) == s
    ensures TradeAgreement.State(s, reqs, |reqs|) == TradeProtocol.Run(s, reqs)
  {
    assert reqs[..0] == [] && reqs[..|reqs|] == reqs;
  }

  /** Every run of the handlers on player objects keeps what each puts into a trade within what it has,
      and creates or loses no item; nor any taros while all of them are within the cap. */
  method ServeAll(players: Players, reqs: seq<Request>)
    requires ById(players) && Sound(Views(players)) && Proper(players.Keys, reqs)
    modifies players.Values
    ensures Views(players) == TradeProtocol.Run(old(Views(players)), reqs) && Sound(Views(players))
    ensures forall id, ty | id != 0 :: Items(Views(players), id, ty) == Items(old(Views(players)), id, ty)
    ensures old(Taros(Views(players))) <= PC_CANDY_MAX ==> Taros(Views(players)) == old(Taros(Views(players)))
  {
    hide Step, Served, Items, Taros, TradeProtocol.Run, TradeAgreement.State, Solvent, Fit, Proper;
    ghost var s := Views(players);
    StateAtEnds(s, reqs);
    for i := 0 to |reqs|
      invariant Views(players) == TradeAgreement.State(s, reqs, i)
    {
      TradeAgreement.StateNext(s, reqs, i);
      Serve(players, reqs[i]);
    }
    RunSound(s, reqs);
    forall id, ty | id != 0
      ensures Items(Views(players), id, ty) == Items(s, id, ty)
    {
      ItemsConserved(s, reqs, id, ty);
    }
    if Taros(s) <= PC_CANDY_MAX {
      TarosConserved(s, reqs);
    }
  }
}
