/** The trade handlers as steps on the state of all players, and what every run of them keeps. */
module TradeProtocol {
  import opened Ids
  import opened TradeExchange

  datatype Trader = Trader(money: int, moneyInTrade: int, isTrading: bool, isTradeConfirm: bool,
                           inven: seq<Item>, trade: seq<Offer>)

  type Hall = map<PlayerID, Trader>

  // The ids in a packet; only one of the last two names the other party.
  datatype Names = Names(iID_Request: PlayerID, iID_From: PlayerID, iID_To: PlayerID)

  function Other(n: Names): PlayerID {
    if n.iID_Request == n.iID_From then n.iID_To else n.iID_From
  }

  datatype Request =
    | Accept(me: PlayerID, iID_From: PlayerID)
    | Confirm(me: PlayerID, names: Names)
    | Cancel(me: PlayerID, names: Names)
    | Register(me: PlayerID, names: Names, item: Offer)
    | Unregister(me: PlayerID, names: Names, slot: int)
    | Cash(me: PlayerID, names: Names, iCandy: int)

  function Peer(r: Request): PlayerID {
    if r.Accept? then r.iID_From else Other(r.names)
  }

  // What is left of `money` after giving `paid` and getting `earned`.
  function Balance(money: int, paid: int, earned: int): int {
    CappedSum(PC_CANDY_MAX, CappedDifference(PC_CANDY_MAX, money, paid), earned)
  }

  // ---- the handlers

  function PartyOf(t: Trader): Side {
    Side(t.inven, t.trade)
  }

  predicate Sizes(s: Hall) {
    forall id | id in s :: Fit(PartyOf(s[id]))
  }

  function NoOffers(): (r: seq<Offer>)
    ensures OffersInBounds(r)
  {
    seq(TRADE_SLOTS, _ => NO_OFFER)
  }

  function Opened(t: Trader): Trader {
    t.(moneyInTrade := 0, trade := NoOffers(), isTrading := true, isTradeConfirm := false)
  }

  function Closed(t: Trader): Trader {
    t.(isTrading := false, isTradeConfirm := false)
  }

  function Unconfirmed(t: Trader): Trader {
    t.(isTradeConfirm := false)
  }

  // Both parties of a confirmed trade after the exchange, done or failed.
  function Settle(a: Trader, b: Trader): (Trader, Trader)
    requires Fit(PartyOf(a)) && Fit(PartyOf(b))
  {
    var r := Exchange(PartyOf(a), PartyOf(b), 0);
    var a1, b1 := Closed(a).(trade := r.a.trade), Closed(b).(trade := r.b.trade);
    if r.ok then
      (a1.(inven := r.a.inven, money := Balance(a.money, a.moneyInTrade, b.moneyInTrade)),
       b1.(inven := r.b.inven, money := Balance(b.money, b.moneyInTrade, a.moneyInTrade)))
    else (a1, b1)
  }

  // The two parties of request `r`, when it has an effect; they are `a` and `b` afterwards.
  function Served(r: Request, a: Trader, b: Trader): (Trader, Trader)
    requires Fit(PartyOf(a)) && Fit(PartyOf(b))
  {
    match r
    case Accept(_, _) =>
      if b.isTrading then (a, b) else (Opened(a), Opened(b))
    case Confirm(_, _) =>
      if !(a.isTrading && b.isTrading) then (Closed(a), Closed(b))
      else if !b.isTradeConfirm then (a.(isTradeConfirm := true), b)
      else Settle(a, b)
    case Cancel(_, _) =>
      (Closed(a), Closed(b))
    case Register(_, _, item) =>
      if !(0 <= item.iInvenNum < AINVEN_COUNT && 0 <= item.iSlotNum <= 4 && a.isTrading && b.isTrading) then (a, b)
      else (Unconfirmed(a).(trade := a.trade[item.iSlotNum := item]), Unconfirmed(b))
    case Unregister(_, _, slot) =>
      if !(0 <= slot <= 4 && a.isTrading && b.isTrading) then (a, b)
      else (Unconfirmed(a).(trade := a.trade[slot := NO_OFFER]), Unconfirmed(b))
    case Cash(_, _, iCandy) =>
      if iCandy < 0 || iCandy > a.money then (a, b)
      else (Unconfirmed(a).(moneyInTrade := Capped(PC_CANDY_MAX, iCandy)), Unconfirmed(b))
  }

  lemma ServedFits(r: Request, a: Trader, b: Trader)
    requires Fit(PartyOf(a)) && Fit(PartyOf(b))
    ensures Fit(PartyOf(Served(r, a, b).0)) && Fit(PartyOf(Served(r, a, b).1))
  {
  }

  function Step(s: Hall, r: Request): (s': Hall)
    requires Sizes(s) && r.me in s
    ensures Sizes(s') && s'.Keys == s.Keys
  {
    if Peer(r) !in s then s
    else
      ServedFits(r, s[r.me], s[Peer(r)]);
      var (a, b) := Served(r, s[r.me], s[Peer(r)]);
      s[r.me := a][Peer(r) := b]
  }

  // Every sender is a player, and no packet names its own sender.
  predicate Proper(ids: set<PlayerID>, reqs: seq<Request>) {
    forall k | 0 <= k < |reqs| :: reqs[k].me in ids && Peer(reqs[k]) != reqs[k].me
  }

  function Run(s: Hall, reqs: seq<Request>): (s': Hall)
    requires Sizes(s) && Proper(s.Keys, reqs)
    ensures Sizes(s') && s'.Keys == s.Keys
  {
    if |reqs| == 0 then s else Step(Run(s, reqs[..|reqs| - 1]), reqs[|reqs| - 1])
  }

  // ---- money stays in range

  predicate Solvent(t: Trader) {
    && 0 <= t.money <= PC_CANDY_MAX && 0 <= t.moneyInTrade <= PC_CANDY_MAX
    && (t.isTrading ==> t.moneyInTrade <= t.money)
  }

  predicate Sound(s: Hall) {
    Sizes(s) && forall id | id in s :: Solvent(s[id])
  }

  /** A payment is exact unless it takes the balance over the cap, and no sum needs more than 32 bits. */
  lemma BalanceExact(money: int, paid: int, earned: int)
    requires 0 <= paid <= money <= PC_CANDY_MAX && 0 <= earned <= PC_CANDY_MAX
    ensures 0 <= Balance(money, paid, earned) <= PC_CANDY_MAX
    ensures Balance(money, paid, earned) == if money - paid + earned <= PC_CANDY_MAX then money - paid + earned
        else PC_CANDY_MAX
    ensures money - paid + earned < 0x8000_0000
  {
  }

  lemma ServedSolvent(r: Request, a: Trader, b: Trader)
    requires Fit(PartyOf(a)) && Fit(PartyOf(b)) && Solvent(a) && Solvent(b)
    ensures Solvent(Served(r, a, b).0) && Solvent(Served(r, a, b).1)
  {
    hide Settle, Balance, NoOffers, Fit;
    if a.isTrading && b.isTrading {
      SettleSolvent(a, b);
    }
  }

  lemma SettleSolvent(a: Trader, b: Trader)
    requires Fit(PartyOf(a)) && Fit(PartyOf(b)) && Solvent(a) && Solvent(b) && a.isTrading && b.isTrading
    ensures Solvent(Settle(a, b).0) && Solvent(Settle(a, b).1)
  {
    hide Exchange, Fit, Balance;
    BalanceExact(a.money, a.moneyInTrade, b.moneyInTrade);
    BalanceExact(b.money, b.moneyInTrade, a.moneyInTrade);
  }

  /** Over every run, whoever is trading can pay what it has put into the trade. */
  lemma {:induction false} RunSound(s: Hall, reqs: seq<Request>)
    requires Sound(s) && Proper(s.Keys, reqs)
    ensures Sound(Run(s, reqs))
  {
    if |reqs| > 0 {
      var r := reqs[|reqs| - 1];
      RunSound(s, reqs[..|reqs| - 1]);
      var before := Run(s, reqs[..|reqs| - 1]);
      if Peer(r) in before {
        ServedSolvent(r, before[r.me], before[Peer(r)]);
      }
    }
  }

  // ---- sums over all players

  ghost function Sum<K>(ids: set<K>, f: map<K, int>): int
    requires ids <= f.Keys
  {
    if ids == {} then 0 else var x :| x in ids; f[x] + Sum(ids - {x}, f)
  }

  lemma {:induction false} SumTake<K>(ids: set<K>, f: map<K, int>, x: K)
    requires ids <= f.Keys && x in ids
    ensures Sum(ids, f) == f[x] + Sum(ids - {x}, f)
  {
    var y :| y in ids && Sum(ids, f) == f[y] + Sum(ids - {y}, f);
    if y != x {
      SumTake(ids - {y}, f, x);
      SumTake(ids - {x}, f, y);
      assert ids - {y} - {x} == ids - {x} - {y};
    }
  }

  lemma {:induction false} SumSame<K>(ids: set<K>, f: map<K, int>, g: map<K, int>)
    requires ids <= f.Keys && ids <= g.Keys && forall x | x in ids :: f[x] == g[x]
    ensures Sum(ids, f) == Sum(ids, g)
  {
    if ids != {} {
      var x :| x in ids;
      SumTake(ids, f, x);
      SumTake(ids, g, x);
      SumSame(ids - {x}, f, g);
    }
  }

  lemma SumTwo<K>(f: map<K, int>, g: map<K, int>, a: K, b: K)
    requires f.Keys == g.Keys && a in f && b in f && a != b
    requires forall x | x in f && x != a && x != b :: f[x] == g[x]
    ensures Sum(g.Keys, g) - Sum(f.Keys, f) == g[a] - f[a] + g[b] - f[b]
  {
    SumTake(f.Keys, f, a);
    SumTake(f.Keys - {a}, f, b);
    SumTake(g.Keys, g, a);
    SumTake(g.Keys - {a}, g, b);
    SumSame(f.Keys - {a} - {b}, f, g);
  }

  lemma {:induction false} SumAtLeast<K>(ids: set<K>, f: map<K, int>)
    requires ids <= f.Keys && forall x | x in ids :: f[x] >= 0
    ensures Sum(ids, f) >= 0
  {
    if ids != {} {
      var x :| x in ids;
      SumTake(ids, f, x);
      SumAtLeast(ids - {x}, f);
    }
  }

  function Money(s: Hall): (m: map<PlayerID, int>)
    ensures m.Keys == s.Keys
  {
    map id | id in s :: s[id].money
  }

  function Goods(s: Hall, id: int, ty: int): (m: map<PlayerID, int>)
    ensures m.Keys == s.Keys
  {
    map p | p in s :: Total(s[p].inven, id, ty)
  }

  ghost function Taros(s: Hall): int {
    Sum(s.Keys, Money(s))
  }

  ghost function Items(s: Hall, id: int, ty: int): int {
    Sum(s.Keys, Goods(s, id, ty))
  }

  // This request makes the two parties exchange their offers.
  predicate Exchanges(s: Hall, r: Request)
    requires Sizes(s) && r.me in s
  {
    && r.Confirm? && Peer(r) in s && s[r.me].isTrading && s[Peer(r)].isTrading && s[Peer(r)].isTradeConfirm
    && Exchange(PartyOf(s[r.me]), PartyOf(s[Peer(r)]), 0).ok
  }

  // The balance party `a` should end with, were there no cap.
  function Due(a: Trader, b: Trader): int {
    a.money - a.moneyInTrade + b.moneyInTrade
  }

  /** One request keeps the sum of all taros unless it is an exchange that takes one of the two
      balances over the cap, and then taros are lost. */
  lemma StepTaros(s: Hall, r: Request)
    requires Sound(s) && r.me in s && Peer(r) != r.me
    ensures Taros(Step(s, r)) == Taros(s) <==>
              (Exchanges(s, r) ==> Due(s[r.me], s[Peer(r)]) <= PC_CANDY_MAX && Due(s[Peer(r)], s[r.me]) <= PC_CANDY_MAX)
    ensures Taros(Step(s, r)) <= Taros(s)
  {
    hide Exchange, Fit, Balance, Sum;
    if Peer(r) in s {
      SumTwo(Money(s), Money(Step(s, r)), r.me, Peer(r));
      var a, b := s[r.me], s[Peer(r)];
      if Exchanges(s, r) {
        BalanceExact(a.money, a.moneyInTrade, b.moneyInTrade);
        BalanceExact(b.money, b.moneyInTrade, a.moneyInTrade);
      } else {
        NoPayment(s, r);
      }
    }
  }

  lemma NoPayment(s: Hall, r: Request)
    requires Sizes(s) && r.me in s && Peer(r) in s && !Exchanges(s, r)
    ensures var p := Served(r, s[r.me], s[Peer(r)]);
            && p.0.money == s[r.me].money && p.1.money == s[Peer(r)].money
            && p.0.inven == s[r.me].inven && p.1.inven == s[Peer(r)].inven
  {
  }

  lemma TwoWithinSum(s: Hall, a: PlayerID, b: PlayerID)
    requires Sound(s) && a in s && b in s && a != b
    ensures s[a].money + s[b].money <= Taros(s)
  {
    SumTake(s.Keys, Money(s), a);
    SumTake(s.Keys - {a}, Money(s), b);
    SumAtLeast(s.Keys - {a} - {b}, Money(s));
  }

  /** While all taros together are within the cap, no run of trades creates or loses any. */
  lemma {:induction false} TarosConserved(s: Hall, reqs: seq<Request>)
    requires Sound(s) && Proper(s.Keys, reqs) && Taros(s) <= PC_CANDY_MAX
    ensures Taros(Run(s, reqs)) == Taros(s)
  {
    if |reqs| > 0 {
      var r, rest := reqs[|reqs| - 1], reqs[..|reqs| - 1];
      TarosConserved(s, rest);
      RunSound(s, rest);
      var before := Run(s, rest);
      StepTaros(before, r);
      if Peer(r) in before {
        TwoWithinSum(before, r.me, Peer(r));
      }
    }
  }

  /** No run of trades creates or loses an item, counting stacks, whatever the offers named. */
  lemma {:induction false} ItemsConserved(s: Hall, reqs: seq<Request>, id: int, ty: int)
    requires Sizes(s) && Proper(s.Keys, reqs) && id != 0
    ensures Items(Run(s, reqs), id, ty) == Items(s, id, ty)
  {
    if |reqs| > 0 {
      var r, rest := reqs[|reqs| - 1], reqs[..|reqs| - 1];
      ItemsConserved(s, rest, id, ty);
      StepItems(Run(s, rest), r, id, ty);
    }
  }

  lemma StepItems(s: Hall, r: Request, id: int, ty: int)
    requires Sizes(s) && r.me in s && Peer(r) != r.me && id != 0
    ensures Items(Step(s, r), id, ty) == Items(s, id, ty)
  {
    hide Exchange, Fit, Balance, Sum, Total, Offered;
    if Peer(r) in s {
      SumTwo(Goods(s, id, ty), Goods(Step(s, r), id, ty), r.me, Peer(r));
      if Exchanges(s, r) {
        ExchangeTotals(PartyOf(s[r.me]), PartyOf(s[Peer(r)]), 0, id, ty);
      } else {
        NoPayment(s, r);
      }
    }
  }
}
