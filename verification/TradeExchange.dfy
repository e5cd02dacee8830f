/** The exchange of items at the end of a trade: two copied inventories are edited slot by slot
    and only kept if every slot went well. */
module TradeExchange {
  import opened Ids

  const AINVEN_COUNT := 50
  const TRADE_SLOTS := 5
  const PC_CANDY_MAX := 999999999
  const PC_FUSIONMATTER_MAX := 999999999
  const PC_BATTERY_MAX := 9999

  datatype Item = Item(iType: int, iID: int, iOpt: int, iTimeLimit: int)

  datatype Offer = Offer(iType: int, iID: int, iOpt: int, iInvenNum: int, iSlotNum: int)

  const NO_OFFER := Offer(0, 0, 0, 0, 0)

  // One party: its inventory and its five trade slots.
  datatype Side = Side(inven: seq<Item>, trade: seq<Offer>)

  predicate OffersInBounds(trade: seq<Offer>) {
    |trade| == TRADE_SLOTS && forall i | 0 <= i < TRADE_SLOTS :: 0 <= trade[i].iInvenNum < AINVEN_COUNT
  }

  predicate Fit(s: Side) {
    |s.inven| == AINVEN_COUNT && OffersInBounds(s.trade)
  }

  // Offers of less than one are counted as one.
  function Amount(o: Offer): int {
    if o.iOpt < 1 then 1 else o.iOpt
  }

  predicate Backed(inven: seq<Item>, o: Offer)
    requires 0 <= o.iInvenNum < |inven|
  {
    var item := inven[o.iInvenNum];
    item.iID != 0 && o.iID == item.iID && o.iType == item.iType
  }

  function Withdrawn(item: Item, q: int): Item {
    if item.iOpt - q == 0 then Item(0, 0, 0, item.iTimeLimit) else item.(iOpt := item.iOpt - q)
  }

  datatype Outcome = Outcome(ok: bool, a: Side, b: Side)

  // The offer in slot `i` of `a` leaves a's inventory.
  function TakeOut(a: Side, i: nat): (r: (bool, Side))
    requires Fit(a) && i < TRADE_SLOTS
    ensures Fit(r.1)
  {
    var o := a.trade[i];
    if o.iID == 0 then (true, a)
    else if !Backed(a.inven, o) then (false, a)
    else
      var item := a.inven[o.iInvenNum];
      (item.iOpt >= Amount(o),
       Side(a.inven[o.iInvenNum := Withdrawn(item, Amount(o))], a.trade[i := o.(iOpt := Amount(o))]))
  }

  function FirstFree(inven: seq<Item>, n: nat): (r: nat)
    requires n <= |inven|
    ensures n <= r <= |inven| && (r < |inven| ==> inven[r].iID == 0)
    ensures forall k | n <= k < r :: inven[k].iID != 0
    decreases |inven| - n
  {
    if n == |inven| || inven[n].iID == 0 then n else FirstFree(inven, n + 1)
  }

  // What `b` offers in slot `i` arrives in the first free slot of a's inventory.
  function PutIn(a: Side, b: Side, i: nat): (r: Outcome)
    requires Fit(a) && Fit(b) && i < TRADE_SLOTS
    ensures Fit(r.a) && Fit(r.b)
  {
    var o, n := b.trade[i], FirstFree(a.inven, 0);
    if o.iID == 0 then Outcome(true, a, b)
    else if n == AINVEN_COUNT then Outcome(false, a, b)
    else Outcome(true, a.(inven := a.inven[n := Item(o.iType, o.iID, o.iOpt, a.inven[n].iTimeLimit)]),
                 b.(trade := b.trade[i := o.(iInvenNum := n)]))
  }

  function ExchangeSlot(a: Side, b: Side, i: nat): (r: Outcome)
    requires Fit(a) && Fit(b) && i < TRADE_SLOTS
    ensures Fit(r.a) && Fit(r.b)
  {
    var (okA, a1) := TakeOut(a, i);
    if !okA then Outcome(false, a1, b)
    else
      var (okB, b1) := TakeOut(b, i);
      if !okB then Outcome(false, a1, b1)
      else
        var toA := PutIn(a1, b1, i);
        if !toA.ok then toA
        else
          var toB := PutIn(toA.b, toA.a, i);
          Outcome(toB.ok, toB.b, toB.a)
  }

  function Exchange(a: Side, b: Side, i: nat): (r: Outcome)
    requires Fit(a) && Fit(b) && i <= TRADE_SLOTS
    ensures Fit(r.a) && Fit(r.b)
    decreases TRADE_SLOTS - i
  {
    if i == TRADE_SLOTS then Outcome(true, a, b)
    else
      var s := ExchangeSlot(a, b, i);
      if s.ok then Exchange(s.a, s.b, i + 1) else s
  }

  // ---- conservation

  function Worth(item: Item, id: int, ty: int): int {
    if item.iID == id && item.iType == ty then item.iOpt else 0
  }

  // How many items of this id and type an inventory holds.
  function Total(inven: seq<Item>, id: int, ty: int): int {
    if |inven| == 0 then 0 else Total(inven[..|inven| - 1], id, ty) + Worth(inven[|inven| - 1], id, ty)
  }

  // How many the trade slots from `i` on offer.
  function Offered(trade: seq<Offer>, id: int, ty: int, i: nat): int
    requires i <= |trade|
    decreases |trade| - i
  {
    if i == |trade| then 0
    else (if trade[i].iID == id && trade[i].iType == ty then Amount(trade[i]) else 0) + Offered(trade, id, ty, i + 1)
  }

  lemma {:induction false} TotalUpdate(inven: seq<Item>, k: nat, item: Item, id: int, ty: int)
    requires k < |inven|
    ensures Total(inven[k := item], id, ty) == Total(inven, id, ty) - Worth(inven[k], id, ty) + Worth(item, id, ty)
  {
    var last := |inven| - 1;
    if k == last {
      assert inven[k := item][..last] == inven[..last];
    } else {
      assert inven[k := item][..last] == inven[..last][k := item];
      TotalUpdate(inven[..last], k, item, id, ty);
    }
  }

  lemma {:induction false} OfferedSame(t: seq<Offer>, t': seq<Offer>, id: int, ty: int, i: nat)
    requires |t| == |t'| && i <= |t| && forall k | i <= k < |t| :: t[k] == t'[k]
    ensures Offered(t, id, ty, i) == Offered(t', id, ty, i)
    decreases |t| - i
  {
    if i < |t| {
      OfferedSame(t, t', id, ty, i + 1);
    }
  }

  // What slot `i` adds to Offered.
  function Part(o: Offer, id: int, ty: int): int {
    if o.iID == id && o.iType == ty then Amount(o) else 0
  }

  lemma TakeOutTotal(a: Side, i: nat, id: int, ty: int)
    requires Fit(a) && i < TRADE_SLOTS && id != 0 && TakeOut(a, i).0
    ensures var a1 := TakeOut(a, i).1;
            && Total(a1.inven, id, ty) == Total(a.inven, id, ty) - Part(a.trade[i], id, ty)
            && Part(a1.trade[i], id, ty) == Part(a.trade[i], id, ty)
            && a1.trade[i].iID == a.trade[i].iID
            && (a.trade[i].iID != 0 ==> a1.trade[i].iOpt >= 1)
            && forall k | 0 <= k < TRADE_SLOTS && k != i :: a1.trade[k] == a.trade[k]
  {
    var o := a.trade[i];
    if o.iID != 0 {
      TotalUpdate(a.inven, o.iInvenNum, Withdrawn(a.inven[o.iInvenNum], Amount(o)), id, ty);
    }
  }

  lemma PutInTotal(a: Side, b: Side, i: nat, id: int, ty: int)
    requires Fit(a) && Fit(b) && i < TRADE_SLOTS && id != 0 && PutIn(a, b, i).ok
    requires b.trade[i].iID != 0 ==> b.trade[i].iOpt >= 1
    ensures var r := PutIn(a, b, i);
            && Total(r.a.inven, id, ty) == Total(a.inven, id, ty) + Part(b.trade[i], id, ty)
            && r.b.inven == b.inven && r.a.trade == a.trade
            && forall k | 0 <= k < TRADE_SLOTS && k != i :: r.b.trade[k] == b.trade[k]
  {
    var o, n := b.trade[i], FirstFree(a.inven, 0);
    if o.iID != 0 {
      TotalUpdate(a.inven, n, Item(o.iType, o.iID, o.iOpt, a.inven[n].iTimeLimit), id, ty);
    }
  }

  lemma SlotTotals(a: Side, b: Side, i: nat, id: int, ty: int)
    requires Fit(a) && Fit(b) && i < TRADE_SLOTS && id != 0 && ExchangeSlot(a, b, i).ok
    ensures var r := ExchangeSlot(a, b, i);
            && Fit(r.a) && Fit(r.b)
            && Total(r.a.inven, id, ty) == Total(a.inven, id, ty) - Part(a.trade[i], id, ty) + Part(b.trade[i], id, ty)
            && Total(r.b.inven, id, ty) == Total(b.inven, id, ty) - Part(b.trade[i], id, ty) + Part(a.trade[i], id, ty)
            && forall k | i < k < TRADE_SLOTS :: r.a.trade[k] == a.trade[k] && r.b.trade[k] == b.trade[k]
  {
    TakeOutTotal(a, i, id, ty);
    TakeOutTotal(b, i, id, ty);
    var a1, b1 := TakeOut(a, i).1, TakeOut(b, i).1;
    PutInTotal(a1, b1, i, id, ty);
    var toA := PutIn(a1, b1, i);
    PutInTotal(toA.b, toA.a, i, id, ty);
  }

  /** After a successful exchange each party has, of every item, what it had, less what it offered,
      plus what it was offered; whichever inventory slots the offers named. */
  lemma {:induction false} ExchangeTotals(a: Side, b: Side, i: nat, id: int, ty: int)
    requires Fit(a) && Fit(b) && i <= TRADE_SLOTS && id != 0 && Exchange(a, b, i).ok
    ensures var r := Exchange(a, b, i);
            && Total(r.a.inven, id, ty) == Total(a.inven, id, ty) - Offered(a.trade, id, ty, i) + Offered(b.trade,
                id, ty, i)
            && Total(r.b.inven, id, ty) == Total(b.inven, id, ty) - Offered(b.trade, id, ty, i) + Offered(a.trade,
                id, ty, i)
    decreases TRADE_SLOTS - i
  {
    if i < TRADE_SLOTS {
      SlotTotals(a, b, i, id, ty);
      var s := ExchangeSlot(a, b, i);
      ExchangeTotals(s.a, s.b, i + 1, id, ty);
      OfferedSame(s.a.trade, a.trade, id, ty, i + 1);
      OfferedSame(s.b.trade, b.trade, id, ty, i + 1);
    }
  }

  // Nobody holds a stack of nothing or less.
  predicate Stocked(inven: seq<Item>) {
    forall k | 0 <= k < |inven| && inven[k].iID != 0 :: inven[k].iOpt >= 1
  }

  /** A successful exchange leaves no empty or negative stacks. */
  lemma {:induction false} ExchangeStocked(a: Side, b: Side, i: nat)
    requires Fit(a) && Fit(b) && i <= TRADE_SLOTS && Exchange(a, b, i).ok && Stocked(a.inven) && Stocked(b.inven)
    ensures Stocked(Exchange(a, b, i).a.inven) && Stocked(Exchange(a, b, i).b.inven)
    decreases TRADE_SLOTS - i
  {
    if i < TRADE_SLOTS {
      var a1, b1 := TakeOut(a, i).1, TakeOut(b, i).1;
      assert Stocked(a1.inven) && Stocked(b1.inven);
      var toA := PutIn(a1, b1, i);
      assert Stocked(toA.a.inven);
      var toB := PutIn(toA.b, toA.a, i);
      assert Stocked(toB.a.inven);
      ExchangeStocked(toB.b, toB.a, i + 1);
    }
  }

  // ---- capped money

  function CappedSum(max: int, value: int, diff: int): int {
    if diff <= 0 then value
    else
      var d := if diff > max then max else diff;
      if value + d > max then max else value + d
  }

  function CappedDifference(max: int, value: int, diff: int): int {
    if diff <= 0 then value
    else
      var d := if diff > max then max else diff;
      if value - d < 0 then 0 else value - d
  }

  function Capped(max: int, value: int): int {
    if value < 0 then 0 else if value > max then max else value
  }

  /** Between 0 and its cap a value stays there, and each operation is exact where it does not hit the
      end; the sums fit in 32 bits. */
  lemma CappedExact(kind: CappedValueType, value: int, diff: int)
    requires 0 <= value <= GetCap(kind)
    ensures 0 <= CappedSum(GetCap(kind), value, diff) <= GetCap(kind)
    ensures 0 <= CappedDifference(GetCap(kind), value, diff) <= GetCap(kind)
    ensures 0 <= Capped(GetCap(kind), diff) <= GetCap(kind)
    ensures CappedSum(GetCap(kind), value, diff) == value + diff <==> 0 == diff || 0 < diff <= GetCap(kind) - value
    ensures CappedDifference(GetCap(kind), value, diff) == value - diff <==> 0 == diff || 0 < diff <= value
    ensures diff < 0 ==> CappedSum(GetCap(kind), value, diff) == CappedDifference(GetCap(kind), value, diff) == value
    ensures diff > GetCap(kind) - value ==> CappedSum(GetCap(kind), value, diff) == GetCap(kind)
    ensures diff > value ==> CappedDifference(GetCap(kind), value, diff) == 0
    ensures Capped(GetCap(kind), diff) == diff <==> 0 <= diff <= GetCap(kind)
    ensures diff < 0 ==> Capped(GetCap(kind), diff) == 0
    ensures diff > GetCap(kind) ==> Capped(GetCap(kind), diff) == GetCap(kind)
    ensures GetCap(kind) + GetCap(kind) < 0x8000_0000
  {
  }

  // ---- players

  datatype CappedValueType = TAROS | FUSIONMATTER | BATTERY_W | BATTERY_N | TAROS_IN_TRADE

  function GetCap(kind: CappedValueType): int {
    match kind
    case TAROS => PC_CANDY_MAX
    case FUSIONMATTER => PC_FUSIONMATTER_MAX
    case BATTERY_W => PC_BATTERY_MAX
    case BATTERY_N => PC_BATTERY_MAX
    case TAROS_IN_TRADE => PC_CANDY_MAX
  }

  class Player {
    const iID: PlayerID
    var money: int
    var fusionmatter: int
    var batteryW: int
    var batteryN: int
    var moneyInTrade: int
    var isTrading: bool
    var isTradeConfirm: bool
    var Inven: seq<Item>
    var Trade: seq<Offer>

    constructor (iID: PlayerID, money: int, Inven: seq<Item>)
      ensures this.iID == iID && this.money == money && this.Inven == Inven
      ensures !isTrading && !isTradeConfirm && moneyInTrade == 0 && Trade == seq(TRADE_SLOTS, _ => NO_OFFER)
    {
      this.iID, this.money, this.Inven := iID, money, Inven;
      fusionmatter, batteryW, batteryN := 0, 0, 0;
      moneyInTrade, isTrading, isTradeConfirm := 0, false, false;
      Trade := seq(TRADE_SLOTS, _ => NO_OFFER);
    }

    function Party(): Side
      reads `Inven, `Trade
    {
      Side(Inven, Trade)
    }

    // what getCappedValue points to
    function Value(kind: CappedValueType): int
      reads `money, `fusionmatter, `batteryW, `batteryN, `moneyInTrade
    {
      match kind
      case TAROS => money
      case FUSIONMATTER => fusionmatter
      case BATTERY_W => batteryW
      case BATTERY_N => batteryN
      case TAROS_IN_TRADE => moneyInTrade
    }

    method Put(kind: CappedValueType, value: int)
      modifies `money, `fusionmatter, `batteryW, `batteryN, `moneyInTrade
      ensures Value(kind) == value
      ensures forall k | k != kind :: Value(k) == old(Value(k))
    {
      match kind
      case TAROS => money := value;
      case FUSIONMATTER => fusionmatter := value;
      case BATTERY_W => batteryW := value;
      case BATTERY_N => batteryN := value;
      case TAROS_IN_TRADE => moneyInTrade := value;
    }

    method AddCapped(kind: CappedValueType, diff: int)
      modifies `money, `fusionmatter, `batteryW, `batteryN, `moneyInTrade
      ensures Value(kind) == CappedSum(GetCap(kind), old(Value(kind)), diff)
      ensures forall k | k != kind :: Value(k) == old(Value(k))
    {
      if diff <= 0 {
        return;
      }
      var max := GetCap(kind);
      var value := Value(kind);
      var d := if diff > max then max else diff;
      if value + d > max {
        value := max;
      } else {
        value := value + d;
      }
      Put(kind, value);
    }

    method SubtractCapped(kind: CappedValueType, diff: int)
      modifies `money, `fusionmatter, `batteryW, `batteryN, `moneyInTrade
      ensures Value(kind) == CappedDifference(GetCap(kind), old(Value(kind)), diff)
      ensures forall k | k != kind :: Value(k) == old(Value(k))
    {
      if diff <= 0 {
        return;
      }
      var max := GetCap(kind);
      var value := Value(kind);
      var d := if diff > max then max else diff;
      if value - d < 0 {
        value := 0;
      } else {
        value := value - d;
      }
      Put(kind, value);
    }

    method SetCapped(kind: CappedValueType, value: int)
      modifies `money, `fusionmatter, `batteryW, `batteryN, `moneyInTrade
      ensures Value(kind) == Capped(GetCap(kind), value)
      ensures forall k | k != kind :: Value(k) == old(Value(k))
    {
      var max := GetCap(kind);
      var v := value;
      if v < 0 {
        v := 0;
      } else if v > max {
        v := max;
      }
      Put(kind, v);
    }
  }

  // ---- doTrade

  method Copied(inven: seq<Item>) returns (a: array<Item>)
    ensures fresh(a) && a[..] == inven
  {
    a := new Item[|inven|](i requires 0 <= i < |inven| => inven[i]);
  }

  // remove the item offered in slot `i`
  method Remove(plr: Player, inven: array<Item>, i: nat) returns (ok: bool)
    requires Fit(Side(inven[..], plr.Trade)) && i < TRADE_SLOTS
    modifies inven, plr`Trade
    ensures (ok, Side(inven[..], plr.Trade)) == TakeOut(old(Side(inven[..], plr.Trade)), i)
  {
    var o := plr.Trade[i];
    if o.iID != 0 {
      var slot := o.iInvenNum;
      if inven[slot].iID == 0 || o.iID != inven[slot].iID || o.iType != inven[slot].iType {
        return false;
      }
      if plr.Trade[i].iOpt < 1 {
        plr.Trade := plr.Trade[i := o.(iOpt := 1)];
      }
      inven[slot] := inven[slot].(iOpt := inven[slot].iOpt - plr.Trade[i].iOpt);
      assert plr.Trade == old(plr.Trade)[i := o.(iOpt := Amount(o))];
      if inven[slot].iOpt == 0 {
        inven[slot] := inven[slot].(iID := 0, iType := 0, iOpt := 0);
      } else if inven[slot].iOpt < 0 {
        return false;
      }
      assert inven[..] == old(inven[..])[slot := Withdrawn(old(inven[slot]), Amount(o))];
    }
    return true;
  }

  // add the item that `from` offers in slot `i`
  method Receive(inven: array<Item>, from: Player, i: nat, ghost own: seq<Offer>,
      ghost gave: seq<Item>) returns (ok: bool)
    requires Fit(Side(inven[..], own)) && Fit(Side(gave, from.Trade)) && i < TRADE_SLOTS
    modifies inven, from`Trade
    ensures Outcome(ok, Side(inven[..], own), Side(gave, from.Trade))
         == PutIn(old(Side(inven[..], own)), old(Side(gave, from.Trade)), i)
  {
    var o := from.Trade[i];
    if o.iID != 0 {
      for n := 0 to AINVEN_COUNT
        invariant n < AINVEN_COUNT && FirstFree(inven[..], 0) >= n
        invariant inven[..] == old(inven[..]) && from.Trade == old(from.Trade)
      {
        if inven[n].iID == 0 {
          assert FirstFree(inven[..], 0) == n;
          inven[n] := Item(o.iType, o.iID, o.iOpt, inven[n].iTimeLimit);
          from.Trade := from.Trade[i := o.(iInvenNum := n)];
          return true;
        }
        if n >= AINVEN_COUNT - 1 {
          return false;
        }
      }
    }
    return true;
  }

  method DoTrade(plr: Player, plr2: Player) returns (ok: bool)
    requires plr != plr2 && Fit(plr.Party()) && Fit(plr2.Party())
    modifies plr`Inven, plr`Trade, plr2`Inven, plr2`Trade
    ensures var r := Exchange(old(plr.Party()), old(plr2.Party()), 0);
            && ok == r.ok && plr.Trade == r.a.trade && plr2.Trade == r.b.trade
            && plr.Inven == (if ok then r.a.inven else old(plr.Inven))
            && plr2.Inven == (if ok then r.b.inven else old(plr2.Inven))
  {
    hide TakeOut, PutIn;
    var plrInven := Copied(plr.Inven);
    var plr2Inven := Copied(plr2.Inven);
    ghost var r := Exchange(plr.Party(), plr2.Party(), 0);
    for i := 0 to TRADE_SLOTS
      invariant plr.Inven == old(plr.Inven) && plr2.Inven == old(plr2.Inven)
      invariant Fit(Side(plrInven[..], plr.Trade)) && Fit(Side(plr2Inven[..], plr2.Trade))
      invariant r == Exchange(Side(plrInven[..], plr.Trade), Side(plr2Inven[..], plr2.Trade), i)
    {
      ghost var a, b := Side(plrInven[..], plr.Trade), Side(plr2Inven[..], plr2.Trade);
      assert r == if ExchangeSlot(a, b, i).ok then Exchange(ExchangeSlot(a, b, i).a, ExchangeSlot(a, b, i).b, i + 1)
                  else ExchangeSlot(a, b, i);
      ok := Remove(plr, plrInven, i);
      if !ok { return; }
      ok := Remove(plr2, plr2Inven, i);
      if !ok { return; }
      ok := Receive(plrInven, plr2, i, plr.Trade, plr2Inven[..]);
      if !ok { return; }
      ok := Receive(plr2Inven, plr, i, plr2.Trade, plrInven[..]);
      if !ok { return; }
    }
    plr.Inven := plrInven[..];
    plr2.Inven := plr2Inven[..];
    return true;
  }
}
