/** What was confirmed is what is exchanged: when the flag of a trader means that it has agreed. */
module TradeAgreement {
  import opened Ids
  import opened TradeExchange
  import opened TradeProtocol

  datatype Terms = Terms(trade: seq<Offer>, cash: int)

  function TermsOf(t: Trader): Terms {
    Terms(t.trade, t.moneyInTrade)
  }

  // The state after the first `i` requests of a run.
  function State(s: Hall, reqs: seq<Request>, i: nat): (s': Hall)
    requires Sizes(s) && Proper(s.Keys, reqs) && i <= |reqs|
    ensures Sizes(s') && s'.Keys == s.Keys
  {
    Run(s, reqs[..i])
  }

  // Request `j` of the run is b's confirmation, and x's terms have been the same from then on.
  predicate ConfirmedSince(s: Hall, reqs: seq<Request>, j: nat, b: PlayerID, x: PlayerID)
    requires Sizes(s) && Proper(s.Keys, reqs) && x in s
  {
    && j < |reqs| && reqs[j].Confirm? && reqs[j].me == b
    && forall i | j <= i <= |reqs| :: TermsOf(State(s, reqs, i)[x]) == TermsOf(State(s, reqs, |reqs|)[x])
  }

  lemma RunMore(s: Hall, reqs: seq<Request>, r: Request)
    requires Sizes(s) && Proper(s.Keys, reqs + [r])
    ensures Proper(s.Keys, reqs) && r.me in s && Peer(r) != r.me && Run(s, reqs + [r]) == Step(Run(s, reqs), r)
  {
    assert (reqs + [r])[|reqs|] == r;
    assert forall k | 0 <= k < |reqs| :: reqs[k] == (reqs + [r])[k];
    assert (reqs + [r])[..|reqs|] == reqs;
  }

  lemma StateMore(s: Hall, reqs: seq<Request>, r: Request)
    requires Sizes(s) && Proper(s.Keys, reqs + [r]) && Proper(s.Keys, reqs)
    ensures forall i | 0 <= i <= |reqs| :: State(s, reqs + [r], i) == State(s, reqs, i)
    ensures State(s, reqs, |reqs|) == Run(s, reqs) && State(s, reqs + [r], |reqs| + 1) == Run(s, reqs + [r])
  {
    hide Run, Sizes, Proper;
    WholePrefix(reqs, r);
    forall i | 0 <= i <= |reqs|
      ensures State(s, reqs + [r], i) == State(s, reqs, i)
    {
      SamePrefix(reqs, r, i);
    }
  }

  lemma WholePrefix(reqs: seq<Request>, r: Request)
    ensures reqs[..|reqs|] == reqs && (reqs + [r])[..|reqs| + 1] == reqs + [r]
    ensures |reqs + [r]| == |reqs| + 1 && (reqs + [r])[..|reqs|] == reqs
  {
  }

  lemma SamePrefix(reqs: seq<Request>, r: Request, i: nat)
    requires i <= |reqs|
    ensures (reqs + [r])[..i] == reqs[..i]
  {
  }

  lemma SinceLonger(s: Hall, reqs: seq<Request>, r: Request, j: nat, b: PlayerID, x: PlayerID)
    requires Sizes(s) && Proper(s.Keys, reqs + [r]) && x in s && Proper(s.Keys, reqs)
    requires ConfirmedSince(s, reqs, j, b, x)
    requires TermsOf(Run(s, reqs + [r])[x]) == TermsOf(Run(s, reqs)[x])
    ensures ConfirmedSince(s, reqs + [r], j, b, x)
  {
    hide *;
    StateMore(s, reqs, r);
    WholePrefix(reqs, r);
    SinceExtended(s, reqs, reqs + [r], j, b, x);
  }

  lemma SinceExtended(s: Hall, reqs: seq<Request>, longer: seq<Request>, j: nat, b: PlayerID, x: PlayerID)
    requires Sizes(s) && Proper(s.Keys, longer) && x in s && Proper(s.Keys, reqs)
    requires |longer| == |reqs| + 1 && longer[..|reqs|] == reqs && ConfirmedSince(s, reqs, j, b, x)
    requires forall i | 0 <= i <= |reqs| :: State(s, longer, i) == State(s, reqs, i)
    requires TermsOf(State(s, longer, |longer|)[x]) == TermsOf(State(s, reqs, |reqs|)[x])
    ensures ConfirmedSince(s, longer, j, b, x)
  {
    hide Run, State, Proper, Sizes, TermsOf;
    assert longer[j] == reqs[j];
  }

  lemma SinceNow(s: Hall, reqs: seq<Request>, n: nat, b: PlayerID, x: PlayerID)
    requires Sizes(s) && Proper(s.Keys, reqs) && x in s && |reqs| == n + 1
    requires reqs[n].Confirm? && reqs[n].me == b
    requires TermsOf(State(s, reqs, n)[x]) == TermsOf(State(s, reqs, n + 1)[x])
    ensures ConfirmedSince(s, reqs, n, b, x)
  {
    hide Run, State, Proper, Sizes, TermsOf;
  }

  // A player confirmed after a step either made that step, or was confirmed and kept its terms.
  lemma ConfirmStep(s: Hall, r: Request, b: PlayerID)
    requires Sizes(s) && r.me in s && Peer(r) != r.me && b in s && Step(s, r)[b].isTradeConfirm
    ensures TermsOf(Step(s, r)[b]) == TermsOf(s[b])
    ensures s[b].isTradeConfirm || (r.Confirm? && r.me == b && Peer(r) in s)
  {
  }

  /** In every run, whoever counts as confirmed sent its confirmation after the last change of its
      own offer. */
  lemma {:induction false} OwnTermsConfirmed(s: Hall, reqs: seq<Request>, b: PlayerID) returns (j: nat)
    requires Sizes(s) && Proper(s.Keys, reqs) && b in s && !s[b].isTradeConfirm && Run(s, reqs)[b].isTradeConfirm
    ensures ConfirmedSince(s, reqs, j, b, b)
  {
    hide State, Step, Sizes, TermsOf, ConfirmedSince;
    var rest, r := reqs[..|reqs| - 1], reqs[|reqs| - 1];
    assert reqs == rest + [r];
    RunMore(s, rest, r);
    ConfirmStep(Run(s, rest), r, b);
    if Run(s, rest)[b].isTradeConfirm {
      j := OwnTermsConfirmed(s, rest, b);
      SinceLonger(s, rest, r, j, b, b);
    } else {
      StateMore(s, rest, r);
      j := |rest|;
      SinceNow(s, reqs, j, b, b);
    }
  }

  // ---- when an exchange uses only what was confirmed to the other party

  lemma StateNext(s: Hall, reqs: seq<Request>, k: nat)
    requires Sizes(s) && Proper(s.Keys, reqs) && k < |reqs|
    ensures reqs[k].me in s && Peer(reqs[k]) != reqs[k].me
    ensures State(s, reqs, k + 1) == Step(State(s, reqs, k), reqs[k])
  {
    assert reqs[..k + 1][..k] == reqs[..k] && reqs[..k + 1][k] == reqs[k];
  }

  // Request `j` is b's confirmation to `a`, and `b` has counted as confirmed ever since.
  predicate Live(s: Hall, reqs: seq<Request>, j: nat, a: PlayerID, b: PlayerID)
    requires Sizes(s) && Proper(s.Keys, reqs) && b in s
  {
    && j < |reqs| && reqs[j].Confirm? && reqs[j].me == b && Peer(reqs[j]) == a
    && forall i | j < i <= |reqs| :: State(s, reqs, i)[b].isTradeConfirm
  }

  // The request is between `a` and somebody other than `b`.
  predicate Outside(r: Request, a: PlayerID, b: PlayerID) {
    (r.me == a || Peer(r) == a) && r.me != b && Peer(r) != b
  }

  predicate Alters(s: Hall, r: Request, a: PlayerID)
    requires Sizes(s) && r.me in s && a in s
  {
    TermsOf(Step(s, r)[a]) != TermsOf(s[a])
  }

  // What happens between `a` and `b`, or without `a`, cannot change a's offer and leave `b` confirmed.
  lemma InsideStep(s: Hall, r: Request, a: PlayerID, b: PlayerID)
    requires Sizes(s) && r.me in s && Peer(r) != r.me && a in s && b in s && a != b
    requires !Outside(r, a, b) && Step(s, r)[b].isTradeConfirm
    ensures !Alters(s, r, a)
  {
    hide Exchange;
  }

  // No request outside the pair has altered a's offer since request `j`.
  predicate Undisturbed(s: Hall, reqs: seq<Request>, j: nat, a: PlayerID, b: PlayerID)
    requires Sizes(s) && Proper(s.Keys, reqs) && a in s
  {
    forall k | j < k < |reqs| && Outside(reqs[k], a, b) ::
        TermsOf(State(s, reqs, k)[a]) == TermsOf(State(s, reqs, k + 1)[a])
  }

  lemma {:induction false} TermsKept(s: Hall, reqs: seq<Request>, j: nat, a: PlayerID, b: PlayerID, i: nat)
    requires Sizes(s) && Proper(s.Keys, reqs) && a in s && b in s && a != b
    requires Live(s, reqs, j, a, b) && Undisturbed(s, reqs, j, a, b) && j <= i <= |reqs|
    ensures TermsOf(State(s, reqs, i)[a]) == TermsOf(State(s, reqs, j)[a])
    decreases i
  {
    hide Run, State, Step, Sizes, Proper, TermsOf;
    if i > j {
      var k: nat := i - 1;
      TermsKept(s, reqs, j, a, b, k);
      StateNext(s, reqs, k);
      if !Outside(reqs[k], a, b) {
        InsideStep(State(s, reqs, k), reqs[k], a, b);
      }
    }
  }

  /** Once `b` has confirmed to `a` and for as long as that counts, a's offer is the one `b` confirmed if
      and only if no request between `a` and a third player has altered it. */
  lemma UndisturbedIff(s: Hall, reqs: seq<Request>, j: nat, a: PlayerID, b: PlayerID)
    requires Sizes(s) && Proper(s.Keys, reqs) && a in s && b in s && a != b && Live(s, reqs, j, a, b)
    ensures ConfirmedSince(s, reqs, j, b, a) <==> Undisturbed(s, reqs, j, a, b)
  {
    hide Run, State, Step, Sizes, Proper, TermsOf;
    if Undisturbed(s, reqs, j, a, b) {
      TermsKept(s, reqs, j, a, b, |reqs|);
      forall i | j <= i <= |reqs|
        ensures TermsOf(State(s, reqs, i)[a]) == TermsOf(State(s, reqs, |reqs|)[a])
      {
        TermsKept(s, reqs, j, a, b, i);
      }
    }
  }

  lemma {:induction false} OwnKept(s: Hall, reqs: seq<Request>, j: nat, a: PlayerID, b: PlayerID, i: nat)
    requires Sizes(s) && Proper(s.Keys, reqs) && b in s && Live(s, reqs, j, a, b) && j <= i <= |reqs|
    ensures TermsOf(State(s, reqs, i)[b]) == TermsOf(State(s, reqs, j)[b])
    decreases i
  {
    hide Run, State, Step, Sizes, Proper, TermsOf;
    if i > j {
      OwnKept(s, reqs, j, a, b, i - 1);
      StateNext(s, reqs, i - 1);
      ConfirmStep(State(s, reqs, i - 1), reqs[i - 1], b);
    }
  }

  // b's own offer cannot have changed while its confirmation counted.
  lemma LiveKeepsOwn(s: Hall, reqs: seq<Request>, j: nat, a: PlayerID, b: PlayerID)
    requires Sizes(s) && Proper(s.Keys, reqs) && b in s && Live(s, reqs, j, a, b)
    ensures ConfirmedSince(s, reqs, j, b, b)
  {
    hide Run, State, Step, Sizes, Proper, TermsOf;
    OwnKept(s, reqs, j, a, b, |reqs|);
    forall i | j <= i <= |reqs|
      ensures TermsOf(State(s, reqs, i)[b]) == TermsOf(State(s, reqs, |reqs|)[b])
    {
      OwnKept(s, reqs, j, a, b, i);
    }
  }

  /** `b` has confirmed, to `a`, what `a` offers now; its own offer is then the confirmed one as well. */
  ghost predicate Agreed(s: Hall, reqs: seq<Request>, a: PlayerID, b: PlayerID)
    requires Sizes(s) && Proper(s.Keys, reqs) && a in s && b in s
  {
    exists j: nat :: Live(s, reqs, j, a, b) && ConfirmedSince(s, reqs, j, b, a)
  }

  // One bit that could be kept for each ordered pair of players: raised by b's confirmation to `a`,
  // dropped with b's flag, and dropped when a request of `a` with a third player alters a's offer.
  predicate Standing(s: Hall, reqs: seq<Request>, a: PlayerID, b: PlayerID)
    requires Sizes(s) && Proper(s.Keys, reqs) && a in s && b in s
  {
    |reqs| > 0 &&
    var rest, r := reqs[..|reqs| - 1], reqs[|reqs| - 1];
    && Run(s, reqs)[b].isTradeConfirm
    && ((r.Confirm? && r.me == b && Peer(r) == a)
        || (Standing(s, rest, a, b) && (Outside(r, a, b) ==> !Alters(Run(s, rest), r, a))))
  }

  lemma LiveLonger(s: Hall, reqs: seq<Request>, r: Request, j: nat, a: PlayerID, b: PlayerID)
    requires Sizes(s) && Proper(s.Keys, reqs + [r]) && Proper(s.Keys, reqs) && b in s && j < |reqs|
    ensures Live(s, reqs + [r], j, a, b) <==> Live(s, reqs, j, a, b) && Run(s, reqs + [r])[b].isTradeConfirm
  {
    hide Run, State, Step, Sizes, Proper;
    StateMore(s, reqs, r);
    var longer := reqs + [r];
    assert longer[j] == reqs[j];
    if Live(s, longer, j, a, b) {
      assert State(s, longer, |reqs| + 1)[b].isTradeConfirm;
      forall i | j < i <= |reqs|
        ensures State(s, reqs, i)[b].isTradeConfirm
      {
        assert State(s, longer, i)[b].isTradeConfirm;
      }
    }
    if Live(s, reqs, j, a, b) && Run(s, longer)[b].isTradeConfirm {
      forall i | j < i <= |longer|
        ensures State(s, longer, i)[b].isTradeConfirm
      {
        if i <= |reqs| {
          assert State(s, reqs, i)[b].isTradeConfirm;
        }
      }
    }
  }

  lemma SinceShorter(s: Hall, reqs: seq<Request>, r: Request, j: nat, b: PlayerID, x: PlayerID)
    requires Sizes(s) && Proper(s.Keys, reqs + [r]) && Proper(s.Keys, reqs) && x in s && j < |reqs|
    requires ConfirmedSince(s, reqs + [r], j, b, x)
    ensures ConfirmedSince(s, reqs, j, b, x) && TermsOf(Run(s, reqs + [r])[x]) == TermsOf(Run(s, reqs)[x])
  {
    hide Run, State, Step, Sizes, Proper, TermsOf;
    StateMore(s, reqs, r);
    var longer := reqs + [r];
    assert longer[j] == reqs[j];
    assert TermsOf(State(s, longer, |reqs|)[x]) == TermsOf(State(s, longer, |longer|)[x]);
    forall i | j <= i <= |reqs|
      ensures TermsOf(State(s, reqs, i)[x]) == TermsOf(State(s, reqs, |reqs|)[x])
    {
      assert TermsOf(State(s, longer, i)[x]) == TermsOf(State(s, longer, |longer|)[x]);
    }
  }

  lemma {:induction false} AgreedStands(s: Hall, reqs: seq<Request>, a: PlayerID, b: PlayerID, j: nat)
    requires Sizes(s) && Proper(s.Keys, reqs) && a in s && b in s && a != b
    requires Live(s, reqs, j, a, b) && ConfirmedSince(s, reqs, j, b, a)
    ensures Standing(s, reqs, a, b)
    decreases |reqs|
  {
    hide Run, State, Step, Sizes, Proper, TermsOf;
    var rest, r := reqs[..|reqs| - 1], reqs[|reqs| - 1];
    assert reqs == rest + [r];
    RunMore(s, rest, r);
    StateMore(s, rest, r);
    assert State(s, reqs, |reqs|)[b].isTradeConfirm;
    if j < |rest| {
      LiveLonger(s, rest, r, j, a, b);
      SinceShorter(s, rest, r, j, b, a);
      AgreedStands(s, rest, a, b, j);
    }
  }

  lemma {:induction false} StandsAgreed(s: Hall, reqs: seq<Request>, a: PlayerID, b: PlayerID) returns (j: nat)
    requires Sizes(s) && Proper(s.Keys, reqs) && a in s && b in s && a != b && Standing(s, reqs, a, b)
    ensures Live(s, reqs, j, a, b) && ConfirmedSince(s, reqs, j, b, a)
    decreases |reqs|
  {
    hide Run, State, Step, Sizes, Proper, TermsOf;
    var rest, r := reqs[..|reqs| - 1], reqs[|reqs| - 1];
    assert reqs == rest + [r];
    RunMore(s, rest, r);
    if !Outside(r, a, b) {
      InsideStep(Run(s, rest), r, a, b);
    }
    if r.Confirm? && r.me == b && Peer(r) == a {
      StateMore(s, rest, r);
      j := |rest|;
      SinceNow(s, reqs, j, b, a);
      LiveNow(s, reqs, j, a, b);
    } else {
      j := StandsAgreed(s, rest, a, b);
      LiveLonger(s, rest, r, j, a, b);
      SinceLonger(s, rest, r, j, b, a);
    }
  }

  lemma LiveNow(s: Hall, reqs: seq<Request>, n: nat, a: PlayerID, b: PlayerID)
    requires Sizes(s) && Proper(s.Keys, reqs) && b in s && |reqs| == n + 1
    requires reqs[n].Confirm? && reqs[n].me == b && Peer(reqs[n]) == a && State(s, reqs, n + 1)[b].isTradeConfirm
    ensures Live(s, reqs, n, a, b)
  {
    hide Run, State, Sizes, Proper;
  }

  /** In every run, `b` has confirmed to `a` what `a` offers now if and only if that bit stands. */
  lemma AgreedIff(s: Hall, reqs: seq<Request>, a: PlayerID, b: PlayerID)
    requires Sizes(s) && Proper(s.Keys, reqs) && a in s && b in s && a != b
    ensures Agreed(s, reqs, a, b) <==> Standing(s, reqs, a, b)
  {
    hide Run, State, Live, ConfirmedSince, Standing, Sizes, Proper;
    if Agreed(s, reqs, a, b) {
      var j: nat :| Live(s, reqs, j, a, b) && ConfirmedSince(s, reqs, j, b, a);
      AgreedStands(s, reqs, a, b, j);
    }
    if Standing(s, reqs, a, b) {
      var j := StandsAgreed(s, reqs, a, b);
    }
  }

  /** If every confirmation of `b` since its flag was last down named somebody else, it has not agreed
      with `a`, whatever the flag says. */
  lemma ConfirmedElsewhere(s: Hall, reqs: seq<Request>, j0: nat, a: PlayerID, b: PlayerID)
    requires Sizes(s) && Proper(s.Keys, reqs) && a in s && b in s && a != b && j0 <= |reqs|
    requires !State(s, reqs, j0)[b].isTradeConfirm
    requires forall k | j0 <= k < |reqs| && reqs[k].Confirm? && reqs[k].me == b :: Peer(reqs[k]) != a
    ensures !Agreed(s, reqs, a, b) && !Standing(s, reqs, a, b)
  {
    hide Run, State, Sizes, Proper, Standing;
    AgreedIff(s, reqs, a, b);
    forall j: nat
      ensures !Live(s, reqs, j, a, b)
    {
      if j < j0 {
        assert !State(s, reqs, j0)[b].isTradeConfirm;
      }
    }
  }

  /** An exchange that a's confirmation to `b` sets off uses no offer that the other has not confirmed,
      to it, exactly if the bit stands: a's confirmation is the request `r` itself, and b's is some
      request `j` after which neither offer changed. */
  lemma ExchangeAgreedIff(s: Hall, reqs: seq<Request>, r: Request, a: PlayerID, b: PlayerID)
    requires Sizes(s) && Proper(s.Keys, reqs) && a in s && b in s && a != b
    requires r.me == a && Peer(r) == b && Exchanges(Run(s, reqs), r)
    ensures r.Confirm? && Run(s, reqs)[b].isTradeConfirm
    ensures Standing(s, reqs, a, b) <==>
              exists j: nat ::
                && j < |reqs| && Live(s, reqs, j, a, b)
                && ConfirmedSince(s, reqs, j, b, a) && ConfirmedSince(s, reqs, j, b, b)
  {
    hide Run, State, Live, ConfirmedSince, Standing, Sizes, Proper, Exchange;
    if Standing(s, reqs, a, b) {
      var j := StandsAgreed(s, reqs, a, b);
      LiveKeepsOwn(s, reqs, j, a, b);
      LiveInRange(s, reqs, j, a, b);
    }
    if j: nat :| j < |reqs| && Live(s, reqs, j, a, b) && ConfirmedSince(s, reqs, j, b, a) {
      AgreedStands(s, reqs, a, b, j);
    }
  }

  lemma LiveInRange(s: Hall, reqs: seq<Request>, j: nat, a: PlayerID, b: PlayerID)
    requires Sizes(s) && Proper(s.Keys, reqs) && b in s && Live(s, reqs, j, a, b)
    ensures j < |reqs| && reqs[j].Confirm? && reqs[j].me == b && Peer(reqs[j]) == a
  {
  }

  // ---- two traders who name each other only

  // The packets of `a` and `b` name each other, and nobody else's name them.
  predicate Paired(reqs: seq<Request>, a: PlayerID, b: PlayerID) {
    forall k | 0 <= k < |reqs| ::
      && (reqs[k].me == a ==> Peer(reqs[k]) == b)
      && (reqs[k].me == b ==> Peer(reqs[k]) == a)
      && (Peer(reqs[k]) == a ==> reqs[k].me == b)
      && (Peer(reqs[k]) == b ==> reqs[k].me == a)
  }

  // For them the bit stands whenever the flag does.
  lemma {:induction false} PairedStands(s: Hall, reqs: seq<Request>, a: PlayerID, b: PlayerID)
    requires Sizes(s) && Proper(s.Keys, reqs) && a in s && b in s && a != b && Paired(reqs, a, b)
    requires !s[b].isTradeConfirm && Run(s, reqs)[b].isTradeConfirm
    ensures Standing(s, reqs, a, b)
    decreases |reqs|
  {
    hide State, Step, Sizes, TermsOf;
    var rest, r := reqs[..|reqs| - 1], reqs[|reqs| - 1];
    assert reqs == rest + [r];
    RunMore(s, rest, r);
    ConfirmStep(Run(s, rest), r, b);
    if Run(s, rest)[b].isTradeConfirm {
      PairedStands(s, rest, a, b);
    }
  }

  /** In a run where two traders name each other only, whoever of them counts as confirmed sent its
      confirmation to the other after the last change of either offer. */
  lemma PairTermsConfirmed(s: Hall, reqs: seq<Request>, a: PlayerID, b: PlayerID) returns (j: nat)
    requires Sizes(s) && Proper(s.Keys, reqs) && a in s && b in s && a != b && Paired(reqs, a, b)
    requires !s[b].isTradeConfirm && Run(s, reqs)[b].isTradeConfirm
    ensures ConfirmedSince(s, reqs, j, b, a) && ConfirmedSince(s, reqs, j, b, b) && Peer(reqs[j]) == a
  {
    hide Run, State, Sizes, Proper, Standing;
    PairedStands(s, reqs, a, b);
    j := StandsAgreed(s, reqs, a, b);
    LiveKeepsOwn(s, reqs, j, a, b);
  }

  /** So an exchange between two such traders uses no offer that either has not confirmed: request
      |reqs| is a's own confirmation, request `j` is b's, and neither offer changed between the two. */
  lemma ExchangeAgreed(s: Hall, reqs: seq<Request>, r: Request, a: PlayerID, b: PlayerID) returns (j: nat)
    requires Sizes(s) && Proper(s.Keys, reqs + [r]) && a in s && b in s && a != b && Paired(reqs + [r], a, b)
    requires (forall id | id in s :: !s[id].isTradeConfirm) && r.me == a && Proper(s.Keys, reqs)
    requires Exchanges(Run(s, reqs), r)
    ensures j < |reqs| && reqs[j].Confirm? && reqs[j].me == b && Peer(reqs[j]) == a && r.Confirm? && Peer(r) == b
    ensures forall i | j <= i <= |reqs| ::
              && TermsOf(State(s, reqs, i)[a]) == TermsOf(Run(s, reqs)[a])
              && TermsOf(State(s, reqs, i)[b]) == TermsOf(Run(s, reqs)[b])
  {
    hide Run, Exchange, Sizes, TermsOf;
    assert (reqs + [r])[|reqs|] == r;
    assert forall k | 0 <= k < |reqs| :: reqs[k] == (reqs + [r])[k];
    j := PairTermsConfirmed(s, reqs, a, b);
    assert State(s, reqs, |reqs|) == Run(s, reqs) by { assert reqs[..|reqs|] == reqs; }
  }

  // ---- where the bit does not stand a third player can step in

  function Newcomer(money: int): Trader {
    Trader(money, 0, false, false, seq(AINVEN_COUNT, _ => Item(0, 0, 0, 0)), NoOffers())
  }

  lemma NothingOffered(inven: seq<Item>, inven': seq<Item>, i: nat)
    requires |inven| == AINVEN_COUNT && |inven'| == AINVEN_COUNT && i <= TRADE_SLOTS
    ensures Exchange(Side(inven, NoOffers()), Side(inven', NoOffers()), i)
         == Outcome(true, Side(inven, NoOffers()), Side(inven', NoOffers()))
    decreases TRADE_SLOTS - i
  {
    if i < TRADE_SLOTS {
      NothingOffered(inven, inven', i + 1);
    }
  }

  function NamesFor(me: PlayerID, other: PlayerID): Names {
    Names(me, me, other)
  }

  const P1 := PlayerID(1)
  const P2 := PlayerID(2)
  const P3 := PlayerID(3)

  // Player 1 puts 5 taros into a trade with player 2 and confirms it to player 2; then player 3
  // confirms to player 1.
  function Intrusion(): seq<Request> {
    [Accept(P3, P2), Accept(P2, P1), Cash(P1, NamesFor(P1, P2), 5), Confirm(P1, NamesFor(P1, P2)),
        Confirm(P3, NamesFor(P3, P1))]
  }

  lemma IntrusionStep(s: Hall, k: nat)
    requires Sizes(s) && Proper(s.Keys, Intrusion()) && k < 5
    ensures State(s, Intrusion(), 0) == s && State(s, Intrusion(), 5) == Run(s, Intrusion())
    ensures State(s, Intrusion(), k + 1) == Step(State(s, Intrusion(), k), Intrusion()[k])
  {
    hide Step, Sizes, Proper;
    StateNext(s, Intrusion(), k);
    assert Intrusion()[..5] == Intrusion() && Intrusion()[..0] == [];
  }

  /** The confirmation flag does not say to whom: a third trader gets what was meant for another, in an
      exchange for which the bit does not stand. */
  lemma ThirdParty()
    ensures var s: Hall := map[P1 := Newcomer(5), P2 := Newcomer(0), P3 := Newcomer(0)];
            && Sound(s) && Proper(s.Keys, Intrusion()) && Proper(s.Keys, Intrusion()[..4])
            && Exchanges(State(s, Intrusion(), 4), Intrusion()[4])
            && !Standing(s, Intrusion()[..4], P3, P1) && !Agreed(s, Intrusion()[..4], P3, P1)
            && Run(s, Intrusion())[P3].money == 5 && Run(s, Intrusion())[P1].money == 0
            && forall k | 0 <= k < |Intrusion()| && Intrusion()[k].me == P1 :: Peer(Intrusion()[k]) == P2
  {
    hide Exchange, Run, State, Step, Served, Newcomer, NoOffers, Sizes, Proper, Standing, Agreed;
    var s: Hall := map[P1 := Newcomer(5), P2 := Newcomer(0), P3 := Newcomer(0)];
    assert Sound(s) && Proper(s.Keys, Intrusion()) by { IntrusionProper(s); }
    NotTrading();
    BeforeTaking(s);
    IntrusionStep(s, 4);
    TakingStep(State(s, Intrusion(), 4), P3, P1);
    NeverToThird(s);
  }

  // In a trade, without offers of items.
  predicate Bargaining(t: Trader, money: int, cash: int) {
    t.isTrading && t.money == money && t.moneyInTrade == cash && t.trade == NoOffers()
  }

  lemma BeforeTaking(s: Hall)
    requires Sizes(s) && Proper(s.Keys, Intrusion()) && P1 in s && P2 in s && P3 in s
    requires !s[P1].isTrading && !s[P2].isTrading && s[P1].money == 5 && s[P3].money == 0
    ensures var s4 := State(s, Intrusion(), 4);
            Bargaining(s4[P1], 5, 5) && s4[P1].isTradeConfirm && Bargaining(s4[P3], 0, 0)
  {
    hide Exchange, Run, State, Step, Served, NoOffers, Sizes, Proper;
    var q := Intrusion();
    IntrusionStep(s, 0);
    OpeningStep(s, P3, P2);
    IntrusionStep(s, 1);
    OpeningStep(State(s, q, 1), P2, P1);
    IntrusionStep(s, 2);
    CashStep(State(s, q, 2), P1, P2, 5);
    IntrusionStep(s, 3);
    FirstConfirmStep(State(s, q, 3), P1, P2);
  }

  lemma OpeningStep(s: Hall, me: PlayerID, from: PlayerID)
    requires Sizes(s) && me in s && from in s && me != from && !s[from].isTrading
    ensures Step(s, Accept(me, from)) == s[me := Opened(s[me])][from := Opened(s[from])]
  {
  }

  lemma CashStep(s: Hall, me: PlayerID, other: PlayerID, iCandy: int)
    requires Sizes(s) && me in s && other in s && me != other && 0 <= iCandy <= s[me].money && iCandy <= PC_CANDY_MAX
    ensures Step(s, Cash(me, NamesFor(me, other), iCandy))
         == s[me := Unconfirmed(s[me]).(moneyInTrade := iCandy)][other := Unconfirmed(s[other])]
  {
  }

  lemma FirstConfirmStep(s: Hall, me: PlayerID, other: PlayerID)
    requires Sizes(s) && me in s && other in s && me != other
    requires s[me].isTrading && s[other].isTrading && !s[other].isTradeConfirm
    ensures Step(s, Confirm(me, NamesFor(me, other))) == s[me := s[me].(isTradeConfirm := true)]
  {
  }

  // Without offers of items, a second confirmation moves the money.
  lemma TakingStep(s: Hall, me: PlayerID, other: PlayerID)
    requires Sizes(s) && me in s && other in s && me != other
    requires s[me].isTrading && s[other].isTrading && s[other].isTradeConfirm
    requires s[me].trade == NoOffers() && s[other].trade == NoOffers()
    ensures var r := Confirm(me, NamesFor(me, other));
            && Exchanges(s, r)
            && Step(s, r)[me].money == Balance(s[me].money, s[me].moneyInTrade, s[other].moneyInTrade)
            && Step(s, r)[other].money == Balance(s[other].money, s[other].moneyInTrade, s[me].moneyInTrade)
  {
    hide Exchange;
    NothingOffered(s[me].inven, s[other].inven, 0);
  }

  lemma NeverToThird(s: Hall)
    requires Sizes(s) && Proper(s.Keys, Intrusion()) && P1 in s && P3 in s && !s[P1].isTradeConfirm
    ensures Proper(s.Keys, Intrusion()[..4])
    ensures !Standing(s, Intrusion()[..4], P3, P1) && !Agreed(s, Intrusion()[..4], P3, P1)
  {
    hide Standing, Agreed;
    var q := Intrusion()[..4];
    assert forall k | 0 <= k < |q| :: q[k] == Intrusion()[k];
    assert State(s, q, 0) == s by { assert q[..0] == []; }
    ConfirmedElsewhere(s, q, 0, P3, P1);
  }

  lemma NotTrading()
    ensures forall m :: var t := Newcomer(m);
              t.money == m && !t.isTrading && !t.isTradeConfirm && |t.inven| == AINVEN_COUNT && t.moneyInTrade == 0
  {
  }

  lemma IntrusionProper(s: Hall)
    requires s == map[P1 := Newcomer(5), P2 := Newcomer(0), P3 := Newcomer(0)]
    ensures Sound(s) && Proper(s.Keys, Intrusion())
  {
  }
}
