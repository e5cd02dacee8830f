/** When doTrade succeeds, and what it comes to, said of the two inventories and the ten offers. */
module TradeSuccess {
  import opened TradeExchange

  // ---- one party at a time

  // What an offer asks to be taken.
  function Asked(o: Offer): int {
    if o.iOpt < 1 then 1 else o.iOpt
  }

  // The slot that the offer names holds that item, and enough of it.
  predicate Holds(inven: seq<Item>, o: Offer) {
    && 0 <= o.iInvenNum < |inven|
    && inven[o.iInvenNum].iID == o.iID != 0 && inven[o.iInvenNum].iType == o.iType
    && inven[o.iInvenNum].iOpt >= Asked(o)
  }

  // The offer leaves the inventory: nothing else changes, and an emptied slot is free.
  predicate Gives(inven: seq<Item>, o: Offer, left: seq<Item>) {
    if o.iID == 0 then left == inven
    else
      && Holds(inven, o) && |left| == |inven|
      && (forall k | 0 <= k < |inven| && k != o.iInvenNum :: left[k] == inven[k])
      && var item, rest := inven[o.iInvenNum], left[o.iInvenNum];
         && rest.iOpt == item.iOpt - Asked(o) && rest.iTimeLimit == item.iTimeLimit
         && (if rest.iOpt == 0 then rest.iID == 0 && rest.iType == 0
             else rest.iID == item.iID && rest.iType == item.iType)
  }

  // The offer of the other party arrives in the first free slot.
  ghost predicate Gets(left: seq<Item>, o: Offer, got: seq<Item>) {
    if o.iID == 0 then got == left
    else exists n :: 0 <= n < |left| && Arrives(left, o, got, n)
  }

  predicate Arrives(left: seq<Item>, o: Offer, got: seq<Item>, n: int)
    requires 0 <= n < |left|
  {
    && left[n].iID == 0 && (forall k | 0 <= k < n :: left[k].iID != 0)
    && got == left[n := Item(o.iType, o.iID, Asked(o), left[n].iTimeLimit)]
  }

  // One party's part of trade slot `i`.
  ghost predicate Passes(inven: seq<Item>, own: Offer, theirs: Offer, after: seq<Item>) {
    exists left :: Gives(inven, own, left) && Gets(left, theirs, after)
  }

  // One party's part of the slots from `i` on, which ends with `after`.
  ghost predicate Comes(inven: seq<Item>, own: seq<Offer>, theirs: seq<Offer>, i: nat, after: seq<Item>)
    requires |own| == |theirs| == TRADE_SLOTS && i <= TRADE_SLOTS
    decreases TRADE_SLOTS - i
  {
    if i == TRADE_SLOTS then after == inven
    else exists next :: Passes(inven, own[i], theirs[i], next) && Comes(next, own, theirs, i + 1, after)
  }

  // ---- the functions agree with that

  lemma GivesIs(a: Side, i: nat)
    requires Fit(a) && i < TRADE_SLOTS
    ensures var r := TakeOut(a, i);
            && (r.0 <==> a.trade[i].iID == 0 || Holds(a.inven, a.trade[i]))
            && (r.0 ==> Gives(a.inven, a.trade[i], r.1.inven))
            && (forall left | Gives(a.inven, a.trade[i], left) :: r.0 && left == r.1.inven)
            && (r.0 ==> r.1.trade[i].iID == a.trade[i].iID && r.1.trade[i].iType == a.trade[i].iType
                        && (a.trade[i].iID != 0 ==> r.1.trade[i].iOpt == Asked(a.trade[i])))
            && (forall k | 0 <= k < TRADE_SLOTS && k != i :: r.1.trade[k] == a.trade[k])
  {
    var r := TakeOut(a, i);
    forall left | Gives(a.inven, a.trade[i], left)
      ensures r.0 && left == r.1.inven
    {
      forall k | 0 <= k < |left|
        ensures left[k] == r.1.inven[k]
      {
      }
    }
  }

  lemma GetsIs(a: Side, b: Side, i: nat, o: Offer)
    requires Fit(a) && Fit(b) && i < TRADE_SLOTS
    requires b.trade[i].iID == o.iID && b.trade[i].iType == o.iType && (o.iID != 0 ==> b.trade[i].iOpt == Asked(o))
    ensures var r := PutIn(a, b, i);
            && (r.ok ==> Gets(a.inven, o, r.a.inven))
            && (forall got | Gets(a.inven, o, got) :: r.ok && got == r.a.inven)
            && (r.ok ==> r.b.inven == b.inven && r.a.trade == a.trade)
            && (r.ok ==> r.b.trade[i].iID == b.trade[i].iID && r.b.trade[i].iType == b.trade[i].iType
                         && r.b.trade[i].iOpt == b.trade[i].iOpt)
            && (forall k | 0 <= k < TRADE_SLOTS && k != i :: r.b.trade[k] == b.trade[k])
  {
    var n := FirstFree(a.inven, 0);
    if o.iID != 0 && n < AINVEN_COUNT {
      assert Arrives(a.inven, o, PutIn(a, b, i).a.inven, n);
    }
    forall got | Gets(a.inven, o, got)
      ensures PutIn(a, b, i).ok && got == PutIn(a, b, i).a.inven
    {
      if o.iID != 0 {
        var m :| 0 <= m < |a.inven| && Arrives(a.inven, o, got, m);
        assert m == n;
      }
    }
  }

  /** In one trade slot the two parties do not get in each other's way. */
  lemma SlotIff(a: Side, b: Side, i: nat)
    requires Fit(a) && Fit(b) && i < TRADE_SLOTS
    ensures var r := ExchangeSlot(a, b, i);
            && (r.ok ==> Passes(a.inven, a.trade[i], b.trade[i], r.a.inven))
            && (r.ok ==> Passes(b.inven, b.trade[i], a.trade[i], r.b.inven))
            && (forall x, y
                  | Passes(a.inven, a.trade[i], b.trade[i], x) && Passes(b.inven, b.trade[i], a.trade[i], y) ::
                  r.ok && x == r.a.inven && y == r.b.inven)
            && (forall k | i < k < TRADE_SLOTS :: r.ok ==> r.a.trade[k] == a.trade[k] && r.b.trade[k] == b.trade[k])
  {
    hide TakeOut, PutIn, Gives, Gets;
    var (okA, a1) := TakeOut(a, i);
    var (okB, b1) := TakeOut(b, i);
    GivesIs(a, i);
    GivesIs(b, i);
    if okA && okB {
      GetsIs(a1, b1, i, b.trade[i]);
      var toA := PutIn(a1, b1, i);
      if toA.ok {
        GetsIs(toA.b, toA.a, i, a.trade[i]);
      }
    }
  }

  lemma {:induction false} ComesSame(inven: seq<Item>, own: seq<Offer>, theirs: seq<Offer>, own': seq<Offer>,
                                     theirs': seq<Offer>, i: nat, after: seq<Item>)
    requires |own| == |theirs| == |own'| == |theirs'| == TRADE_SLOTS && i <= TRADE_SLOTS
    requires forall k | i <= k < TRADE_SLOTS :: own'[k] == own[k] && theirs'[k] == theirs[k]
    requires Comes(inven, own, theirs, i, after)
    ensures Comes(inven, own', theirs', i, after)
    decreases TRADE_SLOTS - i
  {
    if i < TRADE_SLOTS {
      var next :| Passes(inven, own[i], theirs[i], next) && Comes(next, own, theirs, i + 1, after);
      ComesSame(next, own, theirs, own', theirs', i + 1, after);
    }
  }

  // An exchange that succeeds ends as the offers say ...
  lemma {:induction false} SuccessComes(a: Side, b: Side, i: nat)
    requires Fit(a) && Fit(b) && i <= TRADE_SLOTS && Exchange(a, b, i).ok
    ensures Comes(a.inven, a.trade, b.trade, i, Exchange(a, b, i).a.inven)
    ensures Comes(b.inven, b.trade, a.trade, i, Exchange(a, b, i).b.inven)
    decreases TRADE_SLOTS - i
  {
    hide ExchangeSlot, Passes;
    if i < TRADE_SLOTS {
      var s, r := ExchangeSlot(a, b, i), Exchange(a, b, i);
      SlotIff(a, b, i);
      SuccessComes(s.a, s.b, i + 1);
      ComesSame(s.a.inven, s.a.trade, s.b.trade, a.trade, b.trade, i + 1, r.a.inven);
      ComesSame(s.b.inven, s.b.trade, s.a.trade, b.trade, a.trade, i + 1, r.b.inven);
    }
  }

  // ... and if both parties can get to an end, it succeeds with that end.
  lemma {:induction false} ComesSucceeds(a: Side, b: Side, i: nat, x: seq<Item>, y: seq<Item>)
    requires Fit(a) && Fit(b) && i <= TRADE_SLOTS
    requires Comes(a.inven, a.trade, b.trade, i, x) && Comes(b.inven, b.trade, a.trade, i, y)
    ensures var r := Exchange(a, b, i); r.ok && x == r.a.inven && y == r.b.inven
    decreases TRADE_SLOTS - i
  {
    hide ExchangeSlot, Passes;
    if i < TRADE_SLOTS {
      var s := ExchangeSlot(a, b, i);
      SlotIff(a, b, i);
      var nextA :| Passes(a.inven, a.trade[i], b.trade[i], nextA) && Comes(nextA, a.trade, b.trade, i + 1, x);
      var nextB :| Passes(b.inven, b.trade[i], a.trade[i], nextB) && Comes(nextB, b.trade, a.trade, i + 1, y);
      ComesSame(nextA, a.trade, b.trade, s.a.trade, s.b.trade, i + 1, x);
      ComesSame(nextB, b.trade, a.trade, s.b.trade, s.a.trade, i + 1, y);
      ComesSucceeds(s.a, s.b, i + 1, x, y);
    }
  }

  ghost predicate CanPass(inven: seq<Item>, own: seq<Offer>, theirs: seq<Offer>, i: nat)
    requires |own| == |theirs| == TRADE_SLOTS && i <= TRADE_SLOTS
  {
    exists after :: Comes(inven, own, theirs, i, after)
  }

  /** doTrade succeeds if and only if each party on its own can give its five offers and take those of the
      other, slot by slot; and it ends with exactly what that comes to. */
  lemma ExchangeIff(a: Side, b: Side)
    requires Fit(a) && Fit(b)
    ensures Exchange(a, b, 0).ok <==> CanPass(a.inven, a.trade, b.trade, 0) && CanPass(b.inven, b.trade, a.trade, 0)
    ensures forall x, y | Comes(a.inven, a.trade, b.trade, 0, x) && Comes(b.inven, b.trade, a.trade, 0, y) ::
              x == Exchange(a, b, 0).a.inven && y == Exchange(a, b, 0).b.inven
  {
    hide Exchange, Comes;
    if Exchange(a, b, 0).ok {
      SuccessComes(a, b, 0);
    }
    forall x, y | Comes(a.inven, a.trade, b.trade, 0, x) && Comes(b.inven, b.trade, a.trade, 0, y)
      ensures Exchange(a, b, 0).ok && x == Exchange(a, b, 0).a.inven && y == Exchange(a, b, 0).b.inven
    {
      ComesSucceeds(a, b, 0, x, y);
    }
  }

  // ---- why it fails

  // The first `n` slots went well and have left the inventory as it is in `now`.
  ghost predicate GotTo(inven: seq<Item>, own: seq<Offer>, theirs: seq<Offer>, i: nat, n: nat, now: seq<Item>)
    requires |own| == |theirs| == TRADE_SLOTS && i <= n <= TRADE_SLOTS
    decreases n - i
  {
    if i == n then now == inven
    else exists next :: Passes(inven, own[i], theirs[i], next) && GotTo(next, own, theirs, i + 1, n, now)
  }

  // The party's offer names an item that is not there or too few of it, or it has no room for the other's.
  predicate Stuck(now: seq<Item>, own: Offer, theirs: Offer) {
    || (own.iID != 0 && !Holds(now, own))
    || (theirs.iID != 0 && (forall k | 0 <= k < |now| :: now[k].iID != 0)
        && (own.iID == 0 || now[own.iInvenNum].iOpt != Asked(own)))
  }

  // Taking the offer out.
  function Rest(inven: seq<Item>, o: Offer): seq<Item>
    requires o.iID != 0 ==> Holds(inven, o)
  {
    if o.iID == 0 then inven
    else
      var item := inven[o.iInvenNum];
      inven[o.iInvenNum := if item.iOpt == Asked(o) then Item(0, 0, 0, item.iTimeLimit)
                           else item.(iOpt := item.iOpt - Asked(o))]
  }

  lemma PassesIff(now: seq<Item>, own: Offer, theirs: Offer)
    ensures (exists next :: Passes(now, own, theirs, next)) <==> !Stuck(now, own, theirs)
  {
    if own.iID == 0 || Holds(now, own) {
      var left := Rest(now, own);
      assert Gives(now, own, left);
      if theirs.iID == 0 {
        assert Passes(now, own, theirs, left);
      } else {
        var n := FirstFree(left, 0);
        if n < |left| {
          var next := left[n := Item(theirs.iType, theirs.iID, Asked(theirs), left[n].iTimeLimit)];
          assert Arrives(left, theirs, next, n);
          assert Passes(now, own, theirs, next);
          if own.iID != 0 && n != own.iInvenNum {
            assert now[n].iID == 0;
          }
        } else {
          forall k | 0 <= k < |now|
            ensures now[k].iID != 0
          {
            assert left[k].iID != 0;
          }
        }
      }
    }
    forall next | Passes(now, own, theirs, next)
      ensures !Stuck(now, own, theirs)
    {
      var left :| Gives(now, own, left) && Gets(left, theirs, next);
      if theirs.iID != 0 {
        var n :| 0 <= n < |left| && Arrives(left, theirs, next, n);
      }
    }
  }

  lemma PassesOne(now: seq<Item>, own: Offer, theirs: Offer, x: seq<Item>, y: seq<Item>)
    requires Passes(now, own, theirs, x) && Passes(now, own, theirs, y)
    ensures x == y
  {
    var l :| Gives(now, own, l) && Gets(l, theirs, x);
    var m :| Gives(now, own, m) && Gets(m, theirs, y);
    assert l == m by {
      forall k | 0 <= k < |l|
        ensures l[k] == m[k]
      {
      }
    }
    if theirs.iID != 0 {
      var n :| 0 <= n < |l| && Arrives(l, theirs, x, n);
      var n' :| 0 <= n' < |m| && Arrives(m, theirs, y, n');
      assert n == n';
    }
  }

  ghost predicate StuckAt(inven: seq<Item>, own: seq<Offer>, theirs: seq<Offer>, i: nat, n: nat, now: seq<Item>)
    requires |own| == |theirs| == TRADE_SLOTS && i <= n < TRADE_SLOTS
  {
    GotTo(inven, own, theirs, i, n, now) && Stuck(now, own[n], theirs[n])
  }

  ghost predicate StuckSomewhere(inven: seq<Item>, own: seq<Offer>, theirs: seq<Offer>, i: nat)
    requires |own| == |theirs| == TRADE_SLOTS && i <= TRADE_SLOTS
  {
    exists n: nat, now :: i <= n < TRADE_SLOTS && StuckAt(inven, own, theirs, i, n, now)
  }

  lemma {:induction false} StuckIff(inven: seq<Item>, own: seq<Offer>, theirs: seq<Offer>, i: nat)
    requires |own| == |theirs| == TRADE_SLOTS && i <= TRADE_SLOTS
    ensures CanPass(inven, own, theirs, i) <==> !StuckSomewhere(inven, own, theirs, i)
    decreases TRADE_SLOTS - i
  {
    hide Passes, Stuck;
    if i == TRADE_SLOTS {
      assert Comes(inven, own, theirs, i, inven);
    } else {
      PassesIff(inven, own[i], theirs[i]);
      if Stuck(inven, own[i], theirs[i]) {
        assert StuckAt(inven, own, theirs, i, i, inven);
      } else {
        var next :| Passes(inven, own[i], theirs[i], next);
        StuckIff(next, own, theirs, i + 1);
        forall x | Passes(inven, own[i], theirs[i], x)
          ensures x == next
        {
          PassesOne(inven, own[i], theirs[i], x, next);
        }
        StuckNext(inven, own, theirs, i, next);
        PassOn(inven, own, theirs, i, next);
      }
    }
  }

  lemma PassOn(inven: seq<Item>, own: seq<Offer>, theirs: seq<Offer>, i: nat, next: seq<Item>)
    requires |own| == |theirs| == TRADE_SLOTS && i < TRADE_SLOTS && Passes(inven, own[i], theirs[i], next)
    ensures CanPass(inven, own, theirs, i) <==> CanPass(next, own, theirs, i + 1)
  {
    hide Passes;
    var j := i + 1;
    if CanPass(next, own, theirs, j) {
      var after :| Comes(next, own, theirs, j, after);
      assert Comes(inven, own, theirs, i, after);
    }
    if CanPass(inven, own, theirs, i) {
      var after :| Comes(inven, own, theirs, i, after);
      var x :| Passes(inven, own[i], theirs[i], x) && Comes(x, own, theirs, j, after);
      PassesOne(inven, own[i], theirs[i], x, next);
    }
  }

  lemma StuckNext(inven: seq<Item>, own: seq<Offer>, theirs: seq<Offer>, i: nat, next: seq<Item>)
    requires |own| == |theirs| == TRADE_SLOTS && i < TRADE_SLOTS
    requires Passes(inven, own[i], theirs[i], next) && !Stuck(inven, own[i], theirs[i])
    requires forall x | Passes(inven, own[i], theirs[i], x) :: x == next
    ensures StuckSomewhere(inven, own, theirs, i) <==> StuckSomewhere(next, own, theirs, i + 1)
  {
    hide Passes, Stuck;
    var j := i + 1;
    if StuckSomewhere(inven, own, theirs, i) {
      var n: nat, now :| i <= n < TRADE_SLOTS && StuckAt(inven, own, theirs, i, n, now);
      assert n > i;
      assert StuckAt(next, own, theirs, j, n, now);
    }
    if StuckSomewhere(next, own, theirs, j) {
      var n: nat, now :| j <= n < TRADE_SLOTS && StuckAt(next, own, theirs, j, n, now);
      assert StuckAt(inven, own, theirs, i, n, now);
    }
  }

  /** doTrade fails if and only if, at some trade slot up to which all went well for it, one of the parties
      offers an item that is not there or too few of it, or has no free slot for what it is offered. */
  lemma FailsIff(a: Side, b: Side)
    requires Fit(a) && Fit(b)
    ensures !Exchange(a, b, 0).ok <==>
              StuckSomewhere(a.inven, a.trade, b.trade, 0) || StuckSomewhere(b.inven, b.trade, a.trade, 0)
  {
    hide Exchange, Comes, CanPass, StuckSomewhere;
    ExchangeIff(a, b);
    StuckIff(a.inven, a.trade, b.trade, 0);
    StuckIff(b.inven, b.trade, a.trade, 0);
  }

  // ---- offers of distinct stacks

  // From slot `i` on, the offers name distinct slots with something in them.
  predicate Distinct(inven: seq<Item>, own: seq<Offer>, i: nat) {
    && (forall k | i <= k < |own| && own[k].iID != 0 ::
          0 <= own[k].iInvenNum < |inven| && inven[own[k].iInvenNum].iID != 0)
    && (forall j, k | i <= j < k < |own| && own[j].iID != 0 && own[k].iID != 0 :: own[j].iInvenNum != own[k].iInvenNum)
  }

  function Free(inven: seq<Item>): nat {
    if |inven| == 0 then 0
    else Free(inven[..|inven| - 1]) + if inven[|inven| - 1].iID == 0 then 1 else 0
  }

  // Does this offer take all there is?
  predicate Empties(inven: seq<Item>, o: Offer) {
    o.iID != 0 && 0 <= o.iInvenNum < |inven| && inven[o.iInvenNum].iOpt == Asked(o)
  }

  // How many slots the offers `i` to `n` empty.
  function Emptied(inven: seq<Item>, own: seq<Offer>, i: nat, n: nat): nat
    requires i <= n <= |own|
    decreases n - i
  {
    if i == n then 0 else (if Empties(inven, own[i]) then 1 else 0) + Emptied(inven, own, i + 1, n)
  }

  // How many items arrive from the other's offers `i` to `n`.
  function Arriving(theirs: seq<Offer>, i: nat, n: nat): nat
    requires i <= n <= |theirs|
    decreases n - i
  {
    if i == n then 0 else (if theirs[i].iID != 0 then 1 else 0) + Arriving(theirs, i + 1, n)
  }

  /** Every offer from `i` on is there in the offered amount, and whenever an item arrives more slots are free
      or emptied than items have arrived. */
  predicate Ready(inven: seq<Item>, own: seq<Offer>, theirs: seq<Offer>, i: nat)
    requires |own| == |theirs|
  {
    && (forall k | i <= k < |own| && own[k].iID != 0 :: Holds(inven, own[k]))
    && (forall n | i <= n < |own| && theirs[n].iID != 0 ::
          Free(inven) + Emptied(inven, own, i, n + 1) > Arriving(theirs, i, n))
  }

  lemma {:induction false} FreeUpdate(inven: seq<Item>, k: nat, item: Item)
    requires k < |inven|
    ensures Free(inven[k := item]) == Free(inven) - (if inven[k].iID == 0 then 1 else 0)
                                      + (if item.iID == 0 then 1 else 0)
  {
    var last := |inven| - 1;
    if k == last {
      assert inven[k := item][..last] == inven[..last];
    } else {
      assert inven[k := item][..last] == inven[..last][k := item];
      FreeUpdate(inven[..last], k, item);
    }
  }

  lemma {:induction false} NoneFree(inven: seq<Item>)
    ensures Free(inven) == 0 <==> forall k | 0 <= k < |inven| :: inven[k].iID != 0
  {
    if |inven| > 0 {
      NoneFree(inven[..|inven| - 1]);
    }
  }

  // Passing one slot, the other stacks stay and the free slots change by what is emptied and arrives.
  lemma PassStep(inven: seq<Item>, own: seq<Offer>, theirs: seq<Offer>, i: nat, next: seq<Item>)
    requires |own| == |theirs| == TRADE_SLOTS && i < TRADE_SLOTS && Distinct(inven, own, i)
    requires Passes(inven, own[i], theirs[i], next)
    ensures |next| == |inven| && Distinct(next, own, i + 1) && (own[i].iID != 0 ==> Holds(inven, own[i]))
    ensures forall k | i < k < TRADE_SLOTS && own[k].iID != 0 :: next[own[k].iInvenNum] == inven[own[k].iInvenNum]
    ensures Free(next) == Free(inven) + (if Empties(inven, own[i]) then 1 else 0)
                          - (if theirs[i].iID != 0 then 1 else 0)
  {
    var left :| Gives(inven, own[i], left) && Gets(left, theirs[i], next);
    if own[i].iID != 0 {
      var k := own[i].iInvenNum;
      FreeUpdate(inven, k, left[k]);
      assert left == inven[k := left[k]];
    }
    if theirs[i].iID != 0 {
      var n :| 0 <= n < |left| && Arrives(left, theirs[i], next, n);
      FreeUpdate(left, n, next[n]);
      assert next == left[n := next[n]];
    }
  }

  lemma {:induction false} EmptiedSame(inven: seq<Item>, next: seq<Item>, own: seq<Offer>, i: nat, n: nat)
    requires i <= n <= |own| && |next| == |inven|
    requires forall k | i <= k < |own| && own[k].iID != 0 ::
               0 <= own[k].iInvenNum < |inven| && next[own[k].iInvenNum] == inven[own[k].iInvenNum]
    ensures Emptied(next, own, i, n) == Emptied(inven, own, i, n)
    decreases n - i
  {
    if i < n {
      EmptiedSame(inven, next, own, i + 1, n);
    }
  }

  lemma ReadyStep(inven: seq<Item>, own: seq<Offer>, theirs: seq<Offer>, i: nat, next: seq<Item>)
    requires |own| == |theirs| == TRADE_SLOTS && i < TRADE_SLOTS && Distinct(inven, own, i)
    requires Passes(inven, own[i], theirs[i], next)
    ensures Ready(inven, own, theirs, i) <==> Ready(next, own, theirs, i + 1)
  {
    hide Passes, Free, Asked;
    var j := i + 1;
    PassStep(inven, own, theirs, i, next);
    forall n | j <= n <= TRADE_SLOTS
      ensures Emptied(next, own, j, n) == Emptied(inven, own, j, n)
    {
      EmptiedSame(inven, next, own, j, n);
    }
    if Ready(next, own, theirs, j) {
      ReadyBefore(inven, own, theirs, i, next);
    }
    if Ready(inven, own, theirs, i) {
      ReadyAfter(inven, own, theirs, i, next);
    }
  }

  lemma ReadyBefore(inven: seq<Item>, own: seq<Offer>, theirs: seq<Offer>, i: nat, next: seq<Item>)
    requires |own| == |theirs| == TRADE_SLOTS && i < TRADE_SLOTS && Distinct(inven, own, i)
    requires Passes(inven, own[i], theirs[i], next) && Ready(next, own, theirs, i + 1)
    ensures Ready(inven, own, theirs, i)
  {
    hide Passes, Free, Asked;
    var j := i + 1;
    PassStep(inven, own, theirs, i, next);
    forall n | i <= n < |own| && theirs[n].iID != 0
      ensures Free(inven) + Emptied(inven, own, i, n + 1) > Arriving(theirs, i, n)
    {
      EmptiedSame(inven, next, own, j, n + 1);
      if n == i {
        assert Arriving(theirs, i, i) == 0 && Emptied(inven, own, j, j) == 0;
      }
    }
  }

  lemma ReadyAfter(inven: seq<Item>, own: seq<Offer>, theirs: seq<Offer>, i: nat, next: seq<Item>)
    requires |own| == |theirs| == TRADE_SLOTS && i < TRADE_SLOTS && Distinct(inven, own, i)
    requires Passes(inven, own[i], theirs[i], next) && Ready(inven, own, theirs, i)
    ensures Ready(next, own, theirs, i + 1)
  {
    hide Passes, Free, Asked;
    var j := i + 1;
    PassStep(inven, own, theirs, i, next);
    forall n | j <= n < |own| && theirs[n].iID != 0
      ensures Free(next) + Emptied(next, own, j, n + 1) > Arriving(theirs, j, n)
    {
      EmptiedSame(inven, next, own, j, n + 1);
      assert Free(inven) + Emptied(inven, own, i, n + 1) > Arriving(theirs, i, n);
    }
  }

  lemma {:induction false} ComesIff(inven: seq<Item>, own: seq<Offer>, theirs: seq<Offer>, i: nat)
    requires |own| == |theirs| == TRADE_SLOTS && i <= TRADE_SLOTS && Distinct(inven, own, i)
    ensures CanPass(inven, own, theirs, i) <==> Ready(inven, own, theirs, i)
    decreases TRADE_SLOTS - i
  {
    hide Passes, Stuck, Ready, Distinct;
    if i == TRADE_SLOTS {
      assert Comes(inven, own, theirs, i, inven);
      NothingLeft(inven, own, theirs);
    } else {
      PassesIff(inven, own[i], theirs[i]);
      if Stuck(inven, own[i], theirs[i]) {
        StuckIsNotReady(inven, own, theirs, i);
      } else {
        var next :| Passes(inven, own[i], theirs[i], next);
        PassStep(inven, own, theirs, i, next);
        ComesIff(next, own, theirs, i + 1);
        ReadyStep(inven, own, theirs, i, next);
        PassOn(inven, own, theirs, i, next);
      }
    }
  }

  lemma NothingLeft(inven: seq<Item>, own: seq<Offer>, theirs: seq<Offer>)
    requires |own| == |theirs| == TRADE_SLOTS
    ensures Ready(inven, own, theirs, TRADE_SLOTS)
  {
  }

  lemma StuckIsNotReady(inven: seq<Item>, own: seq<Offer>, theirs: seq<Offer>, i: nat)
    requires |own| == |theirs| == TRADE_SLOTS && i < TRADE_SLOTS && Stuck(inven, own[i], theirs[i])
    ensures !Ready(inven, own, theirs, i)
  {
    NoneFree(inven);
    if theirs[i].iID != 0 {
      assert Emptied(inven, own, i, i + 1) == if Empties(inven, own[i]) then 1 else 0;
    }
  }

  /** If the offers of each side name distinct stacks, doTrade succeeds if and only if every stack holds the
      item in the offered amount and there is room for each item when it arrives. */
  lemma DistinctIff(a: Side, b: Side)
    requires Fit(a) && Fit(b) && Distinct(a.inven, a.trade, 0) && Distinct(b.inven, b.trade, 0)
    ensures Exchange(a, b, 0).ok <==> Ready(a.inven, a.trade, b.trade, 0) && Ready(b.inven, b.trade, a.trade, 0)
  {
    hide Exchange, Comes, CanPass, Ready, Distinct;
    ExchangeIff(a, b);
    ComesIff(a.inven, a.trade, b.trade, 0);
    ComesIff(b.inven, b.trade, a.trade, 0);
  }

  lemma {:induction false} ArrivingMore(theirs: seq<Offer>, i: nat, n: nat)
    requires i <= n < |theirs|
    ensures Arriving(theirs, i, n) + (if theirs[n].iID != 0 then 1 else 0) <= Arriving(theirs, i, |theirs|)
    decreases n - i
  {
    if i < n {
      ArrivingMore(theirs, i + 1, n);
    }
  }

  /** So it succeeds whenever the offers name distinct slots that hold the item in the offered amount and each
      side has as many free slots as it is offered items. */
  lemma Succeeds(a: Side, b: Side)
    requires Fit(a) && Fit(b) && Distinct(a.inven, a.trade, 0) && Distinct(b.inven, b.trade, 0)
    requires forall k | 0 <= k < TRADE_SLOTS && a.trade[k].iID != 0 :: Holds(a.inven, a.trade[k])
    requires forall k | 0 <= k < TRADE_SLOTS && b.trade[k].iID != 0 :: Holds(b.inven, b.trade[k])
    requires Free(a.inven) >= Arriving(b.trade, 0, TRADE_SLOTS) && Free(b.inven) >= Arriving(a.trade, 0, TRADE_SLOTS)
    ensures Exchange(a, b, 0).ok
  {
    hide Exchange, Free, Holds, Distinct;
    DistinctIff(a, b);
    forall n | 0 <= n < TRADE_SLOTS
      ensures b.trade[n].iID != 0 ==> Arriving(b.trade, 0, n) < Free(a.inven)
      ensures a.trade[n].iID != 0 ==> Arriving(a.trade, 0, n) < Free(b.inven)
    {
      ArrivingMore(a.trade, 0, n);
      ArrivingMore(b.trade, 0, n);
    }
  }
}
