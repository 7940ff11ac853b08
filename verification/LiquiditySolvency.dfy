/** Commitments stay within balances over every run, and a commit debits exactly what its release credits. */
module LiquiditySolvency {
  import opened Decimals
  import opened MapSums
  import opened LiquidityManagement

  datatype Event =
    | UpdateBalance(token: string, reported: Decimal)
    | RegisterAlias(name: string, canonical: string)
    | TryCommit(id: string, token: string, amount: Decimal, fee: Decimal)
    | Release(id: string)
    | Retain(live: set<string>)

  ghost function Next(reserve: Decimal, s: Liquidity, e: Event): Liquidity {
    match e
    case UpdateBalance(token, b) => WithBalance(s, token, b)
    case RegisterAlias(name, canonical) => s.(aliases := s.aliases[name := canonical])
    case TryCommit(id, token, amount, fee) => TryCommitted(reserve, s, id, token, amount, fee)
    case Release(id) => Released(s, id)
    case Retain(live) => Retained(s, live)
  }

  /** A refreshed balance covers what is committed from it: the allocations, and for CC also reserve and fees. */
  ghost predicate Suffices(reserve: Decimal, s: Liquidity, token: string, balance: Decimal) {
    && Sum(Token(s, token).allocations) <= balance
    && (token == CC && (exists id :: HasCommitment(s, id)) ==> reserve + Sum(s.fees) + Sum(Token(s, CC).allocations) <= balance)
  }

  /** Amounts are not negative, and a refreshed balance covers what is committed from it. */
  ghost predicate Legal(reserve: Decimal, s: Liquidity, e: Event) {
    match e
    case UpdateBalance(token, b) => Suffices(reserve, s, token, MaxZero(b))
    case TryCommit(_, _, amount, fee) => amount >= 0.0 && fee >= 0.0
    case _ => true
  }

  ghost function After(reserve: Decimal, history: seq<Event>): Liquidity {
    if history == [] then EMPTY
    else Next(reserve, After(reserve, history[..|history| - 1]), history[|history| - 1])
  }

  ghost predicate LegalHistory(reserve: Decimal, history: seq<Event>) {
    history == [] ||
    (LegalHistory(reserve, history[..|history| - 1])
     && Legal(reserve, After(reserve, history[..|history| - 1]), history[|history| - 1]))
  }

  // Solvency

  ghost predicate Covered(t: TokenState) {
    t.balance >= 0.0 && NonNegative(t.allocations) && Sum(t.allocations) <= t.balance
  }

  ghost predicate FeesCovered(reserve: Decimal, s: Liquidity) {
    var cc := Token(s, CC);
    && NonNegative(s.fees)
    && ((exists id :: HasCommitment(s, id)) ==> reserve + Sum(s.fees) + Sum(cc.allocations) <= cc.balance)
  }

  ghost predicate Solvent(reserve: Decimal, s: Liquidity) {
    (forall t :: Covered(Token(s, t))) && FeesCovered(reserve, s)
  }

  lemma UnallocatedExact(t: TokenState)
    requires Covered(t)
    ensures Unallocated(t) == t.balance - Sum(t.allocations)
  {
    SumMonotone(t.allocations, t.allocations);
  }

  /** Room that takes a non-negative fee is room that did not saturate. */
  lemma RoomExact(reserve: Decimal, s: Liquidity, amount: Decimal, fee: Decimal)
    requires reserve >= 0.0 && amount >= 0.0 && fee >= 0.0 && Solvent(reserve, s)
    requires SatSub(FeeRoom(reserve, s), amount) >= fee
    ensures var cc := Token(s, CC);
            reserve + Sum(s.fees) + fee + Sum(cc.allocations) + amount <= cc.balance
  {
    assert Covered(Token(s, CC));
    UnallocatedExact(Token(s, CC));
    SumMonotone(s.fees, s.fees);
    NoFeesWithoutCommitments(s);
    SumMonotone(Token(s, CC).allocations, Token(s, CC).allocations);
  }

  lemma NoFeesWithoutCommitments(s: Liquidity)
    ensures (forall id :: !HasCommitment(s, id)) ==> Sum(s.fees) == 0.0
  {
    if forall id :: !HasCommitment(s, id) {
      if s.fees != map[] {
        var id :| id in s.fees;
        assert HasCommitment(s, id);
      }
    }
  }

  lemma CommitAdds(m: map<string, Decimal>, id: string, amount: Decimal)
    requires NonNegative(m) && amount >= 0.0
    ensures NonNegative(m[id := amount]) && 0.0 <= Sum(m[id := amount]) <= Sum(m) + amount
  {
    SumInsert(m, id, amount);
    SumMonotone(m[id := amount], m[id := amount]);
  }

  /** Which allocations a commit touches. */
  lemma CommittedToken(s: Liquidity, id: string, token: string, amount: Decimal, fee: Decimal, t: string)
    ensures var before, after := Token(s, t), Token(Commit(s, id, token, amount, fee), t);
            after == if t == Resolve(s.aliases, token) then before.(allocations := before.allocations[id := amount]) else before
  {
  }

  lemma CommitKeepsCovered(t: TokenState, id: string, amount: Decimal)
    requires Covered(t) && 0.0 <= amount <= Unallocated(t)
    ensures Covered(t.(allocations := t.allocations[id := amount]))
  {
    UnallocatedExact(t);
    CommitAdds(t.allocations, id, amount);
  }

  lemma SatSubNothing(d: Decimal)
    ensures SatSub(d, 0.0) == d
  {
  }

  function Taken(s: Liquidity, token: string, amount: Decimal): Decimal {
    if Resolve(s.aliases, token) == CC then amount else 0.0
  }

  lemma FitsWhatIsFree(reserve: Decimal, s: Liquidity, token: string, amount: Decimal, fee: Decimal)
    requires CheckCommit(reserve, s, token, amount, fee) == Fits
    ensures amount <= Unallocated(Token(s, Resolve(s.aliases, token)))
    ensures SatSub(FeeRoom(reserve, s), Taken(s, token, amount)) >= fee
  {
    hide Unallocated, FeeRoom, Token, SatSub;
    SatSubNothing(FeeRoom(reserve, s));
  }

  lemma CommitKeepsTokens(reserve: Decimal, s: Liquidity, id: string, token: string, amount: Decimal, fee: Decimal, t: string)
    requires amount >= 0.0 && fee >= 0.0 && Covered(Token(s, t))
    requires CheckCommit(reserve, s, token, amount, fee) == Fits
    ensures Covered(Token(Commit(s, id, token, amount, fee), t))
  {
    hide *;
    CommittedToken(s, id, token, amount, fee, t);
    if t == Resolve(s.aliases, token) {
      FitsWhatIsFree(reserve, s, token, amount, fee);
      CommitKeepsCovered(Token(s, t), id, amount);
    }
  }

  /** Taking `taken` CC and `fee` for an id keeps what CC must cover within what it has. */
  lemma CommitKeepsFees(reserve: Decimal, s: Liquidity, id: string, token: string, amount: Decimal, fee: Decimal)
    requires reserve >= 0.0 && amount >= 0.0 && fee >= 0.0 && Solvent(reserve, s)
    requires CheckCommit(reserve, s, token, amount, fee) == Fits
    ensures FeesCovered(reserve, Commit(s, id, token, amount, fee))
  {
    var s' := Commit(s, id, token, amount, fee);
    var taken := Taken(s, token, amount);
    assert taken >= 0.0;
    assert s'.fees == s.fees[id := fee];
    hide Covered, CheckCommit, Commit, Token, FeeRoom, HasCommitment, Solvent, SatSub, Taken, Unallocated;
    FitsWhatIsFree(reserve, s, token, amount, fee);
    RoomExact(reserve, s, taken, fee);
    SolventParts(reserve, s);
    CommittedCc(s, id, token, amount, fee);
    CommitAdds(s.fees, id, fee);
  }

  lemma SolventParts(reserve: Decimal, s: Liquidity)
    requires Solvent(reserve, s)
    ensures NonNegative(s.fees) && Covered(Token(s, CC))
  {
  }

  lemma CommitKeepsSolvent(reserve: Decimal, s: Liquidity, id: string, token: string, amount: Decimal, fee: Decimal)
    requires reserve >= 0.0 && amount >= 0.0 && fee >= 0.0 && Solvent(reserve, s)
    requires CheckCommit(reserve, s, token, amount, fee) == Fits
    ensures Solvent(reserve, Commit(s, id, token, amount, fee))
  {
    hide CheckCommit, Commit, FeesCovered, Covered;
    CommitKeepsFees(reserve, s, id, token, amount, fee);
    forall t ensures Covered(Token(Commit(s, id, token, amount, fee), t)) {
      assert Covered(Token(s, t));
      CommitKeepsTokens(reserve, s, id, token, amount, fee, t);
    }
  }

  lemma CommittedCc(s: Liquidity, id: string, token: string, amount: Decimal, fee: Decimal)
    requires amount >= 0.0 && Covered(Token(s, CC))
    ensures var before, after := Token(s, CC), Token(Commit(s, id, token, amount, fee), CC);
            after.balance == before.balance && Sum(after.allocations) <= Sum(before.allocations) + Taken(s, token, amount)
  {
    hide Commit, Token;
    CommittedToken(s, id, token, amount, fee, CC);
    CommitAdds(Token(s, CC).allocations, id, amount);
  }

  /** Allocations and fees only shrink. */
  ghost predicate Subset(small: map<string, Decimal>, big: map<string, Decimal>) {
    forall id :: id in small ==> id in big && small[id] == big[id]
  }

  lemma ShrinkKeepsSolvent(reserve: Decimal, s: Liquidity, s': Liquidity)
    requires reserve >= 0.0 && Solvent(reserve, s)
    requires Subset(s'.fees, s.fees)
    requires forall t :: Token(s', t).balance == Token(s, t).balance && Subset(Token(s', t).allocations, Token(s, t).allocations)
    ensures Solvent(reserve, s')
  {
    forall t ensures Covered(Token(s', t)) && Sum(Token(s', t).allocations) <= Sum(Token(s, t).allocations) {
      assert Covered(Token(s, t));
      SumMonotone(Token(s', t).allocations, Token(s, t).allocations);
    }
    SumMonotone(s'.fees, s.fees);
    if id :| HasCommitment(s', id) {
      if id !in s'.fees {
        var t :| t in s'.tokens && id in s'.tokens[t].allocations;
        assert id in Token(s', t).allocations && id in Token(s, t).allocations;
      }
      assert HasCommitment(s, id);
    }
  }

  lemma RefreshKeepsCommitments(s: Liquidity, token: string, reported: Decimal)
    ensures var s' := WithBalance(s, token, reported);
            && s'.fees == s.fees && (forall id :: HasCommitment(s', id) <==> HasCommitment(s, id))
            && forall t :: Token(s', t) == if t == token then Token(s, t).(balance := MaxZero(reported)) else Token(s, t)
  {
    var s' := WithBalance(s, token, reported);
    forall id ensures HasCommitment(s', id) <==> HasCommitment(s, id) {
      if t :| t in s.tokens && id in s.tokens[t].allocations {
        assert id in s'.tokens[t].allocations;
      }
      if t :| t in s'.tokens && id in s'.tokens[t].allocations {
        assert t in s.tokens && id in s.tokens[t].allocations;
      }
    }
  }

  /** A refresh keeps the books solvent exactly when the balance reported covers what is committed from it. */
  lemma RefreshKeepsSolventExactly(reserve: Decimal, s: Liquidity, token: string, reported: Decimal)
    requires Solvent(reserve, s)
    ensures Solvent(reserve, WithBalance(s, token, reported)) <==> Suffices(reserve, s, token, MaxZero(reported))
  {
    var s' := WithBalance(s, token, reported);
    RefreshKeepsCommitments(s, token, reported);
    assert Covered(Token(s, token));
    assert Covered(Token(s', token)) <==> Sum(Token(s, token).allocations) <= MaxZero(reported);
    hide WithBalance, HasCommitment, Token;
    if Suffices(reserve, s, token, MaxZero(reported)) {
      forall t ensures Covered(Token(s', t)) {
        assert Covered(Token(s, t));
      }
    }
  }

  /**
   Committed CC counts twice once the reported total excludes it as well: with 60 of 100 CC committed, a refresh
   to the remaining 40 leaves less than is committed.
   */
  lemma RefreshBelowCommitments()
    ensures var committed := TryCommitted(0.0, WithBalance(EMPTY, CC, 100.0), "rfqv2:1", CC, 60.0, 0.0);
            && Solvent(0.0, committed) && HasCommitment(committed, "rfqv2:1")
            && !Suffices(0.0, committed, CC, 40.0) && !Solvent(0.0, WithBalance(committed, CC, 40.0))
  {
    var funded := WithBalance(EMPTY, CC, 100.0);
    assert Token(funded, CC) == TokenState(100.0, map[]);
    assert forall t :: t != CC ==> Token(funded, t) == NO_TOKEN;
    assert forall id :: !HasCommitment(funded, id);
    assert CheckCommit(0.0, funded, CC, 60.0, 0.0) == Fits;
    CommitKeepsSolvent(0.0, funded, "rfqv2:1", CC, 60.0, 0.0);
    var committed := Commit(funded, "rfqv2:1", CC, 60.0, 0.0);
    assert Token(committed, CC).allocations == map["rfqv2:1" := 60.0];
    SumRemove(Token(committed, CC).allocations, "rfqv2:1");
    assert "rfqv2:1" in committed.fees && HasCommitment(committed, "rfqv2:1");
    hide WithBalance, Commit, CheckCommit, Token;
    RefreshKeepsSolventExactly(0.0, committed, CC, 40.0);
  }

  lemma StepKeepsSolvent(reserve: Decimal, s: Liquidity, e: Event)
    requires reserve >= 0.0 && Solvent(reserve, s) && Legal(reserve, s, e)
    ensures Solvent(reserve, Next(reserve, s, e))
  {
    match e {
      case UpdateBalance(token, b) => RefreshKeepsSolventExactly(reserve, s, token, b);
      case RegisterAlias(_, _) => ShrinkKeepsSolvent(reserve, s, Next(reserve, s, e));
      case TryCommit(id, token, amount, fee) =>
        if CheckCommit(reserve, s, token, amount, fee) == Fits {
          CommitKeepsSolvent(reserve, s, id, token, amount, fee);
        }
      case Release(_) => ShrinkKeepsSolvent(reserve, s, Next(reserve, s, e));
      case Retain(_) => ShrinkKeepsSolvent(reserve, s, Next(reserve, s, e));
    }
  }

  /**
   In every reachable state each token's allocations fit its balance, and as soon as anything is committed
   the CC balance covers the reserve, all fees and all CC allocations, whatever aliases are registered.
   */
  lemma {:induction false} AlwaysSolvent(reserve: Decimal, history: seq<Event>)
    requires reserve >= 0.0 && LegalHistory(reserve, history)
    ensures Solvent(reserve, After(reserve, history))
  {
    if history == [] {
      assert forall t :: Token(EMPTY, t) == NO_TOKEN;
    } else {
      AlwaysSolvent(reserve, history[..|history| - 1]);
      StepKeepsSolvent(reserve, After(reserve, history[..|history| - 1]), history[|history| - 1]);
    }
  }

  // Exact debit and credit

  ghost predicate Fresh(s: Liquidity, id: string) {
    !HasCommitment(s, id)
  }

  /** What a caller reading availabilities would expect of a commit. */
  ghost predicate Affordable(reserve: Decimal, s: Liquidity, token: string, amount: Decimal, fee: Decimal) {
    && amount + (if Resolve(s.aliases, token) == CC then fee else 0.0) <= Available(reserve, s, token)
    && fee <= Available(reserve, s, CC)
  }

  ghost predicate VerdictAsAffordable(reserve: Decimal, s: Liquidity) {
    forall token, amount: Decimal, fee: Decimal :: amount >= 0.0 && fee >= 0.0 ==>
      (CheckCommit(reserve, s, token, amount, fee) == Fits <==> Affordable(reserve, s, token, amount, fee))
  }

  lemma FreshAllocations(s: Liquidity, id: string, token: string)
    requires Fresh(s, id)
    ensures id !in Token(s, token).allocations && id !in s.fees
  {
    assert token in s.tokens && id in s.tokens[token].allocations ==> HasCommitment(s, id);
    assert id in s.fees ==> HasCommitment(s, id);
  }

  /** A commitment lowers what is free by exactly its amount. */
  lemma DebitExact(t: TokenState, id: string, amount: Decimal)
    requires t.balance >= 0.0 && NonNegative(t.allocations) && id !in t.allocations
    requires 0.0 <= amount <= Unallocated(t)
    ensures Unallocated(t.(allocations := t.allocations[id := amount])) == Unallocated(t) - amount
  {
    SumInsert(t.allocations, id, amount);
    SumMonotone(t.allocations, t.allocations);
  }

  /**
   While CC is not an alias, a commit passes exactly when the advertised availabilities cover it and CC has
   room for fees at all. A positive fee implies that room; a zero fee, as the RFQ V2 confirms pass, does not.
   */
  lemma VerdictExact(reserve: Decimal, s: Liquidity, token: string, amount: Decimal, fee: Decimal)
    requires reserve >= 0.0 && WellFormed(s) && Resolve(s.aliases, CC) == CC
    requires amount >= 0.0 && fee >= 0.0
    ensures CheckCommit(reserve, s, token, amount, fee) == Fits <==> Affordable(reserve, s, token, amount, fee) && FeeRoom(reserve, s) >= 0.0
    ensures fee > 0.0 ==> (CheckCommit(reserve, s, token, amount, fee) == Fits <==> Affordable(reserve, s, token, amount, fee))
  {
    SumMonotone(s.fees, s.fees);
  }

  /** In one state with CC not an alias, the check agrees with the availabilities for every commit exactly when CC has room for fees. */
  lemma VerdictsAgreeWithRoom(reserve: Decimal, s: Liquidity)
    requires reserve >= 0.0 && WellFormed(s) && Resolve(s.aliases, CC) == CC
    ensures VerdictAsAffordable(reserve, s) <==> FeeRoom(reserve, s) >= 0.0
  {
    hide CheckCommit, Affordable, FeeRoom, WellFormed;
    forall token, amount: Decimal, fee: Decimal | amount >= 0.0 && fee >= 0.0
      ensures CheckCommit(reserve, s, token, amount, fee) == Fits <==>
                Affordable(reserve, s, token, amount, fee) && FeeRoom(reserve, s) >= 0.0
    {
      VerdictExact(reserve, s, token, amount, fee);
    }
    NothingIsAffordable(reserve, s);
    assert CheckCommit(reserve, s, CC, 0.0, 0.0) == Fits <==> FeeRoom(reserve, s) >= 0.0;
  }

  lemma NothingIsAffordable(reserve: Decimal, s: Liquidity)
    ensures Affordable(reserve, s, CC, 0.0, 0.0)
  {
  }

  /** Below the CC reserve a commit without a fee is refused although every availability covers it. */
  lemma OverdrawnRoomMisleads(reserve: Decimal) returns (s: Liquidity)
    requires reserve > 0.0
    ensures WellFormed(s) && Resolve(s.aliases, CC) == CC
    ensures Affordable(reserve, s, "USDC", 1.0, 0.0) && CheckCommit(reserve, s, "USDC", 1.0, 0.0) == ShortOfFees
  {
    s := Liquidity(map["USDC" := TokenState(1000.0, map[])], map[], map[]);
  }

  /** Over all states with room for fees, the check agrees with the availabilities exactly when CC is not an alias of another token. */
  lemma VerdictsAgreeExactly(reserve: Decimal, aliases: map<string, string>)
    requires reserve >= 0.0
    ensures (forall s :: WellFormed(s) && s.aliases == aliases && FeeRoom(reserve, s) >= 0.0 ==> VerdictAsAffordable(reserve, s))
            <==> Resolve(aliases, CC) == CC
  {
    hide VerdictAsAffordable, FeeRoom, WellFormed;
    if Resolve(aliases, CC) == CC {
      forall s | WellFormed(s) && s.aliases == aliases && FeeRoom(reserve, s) >= 0.0 ensures VerdictAsAffordable(reserve, s) {
        VerdictsAgreeWithRoom(reserve, s);
      }
    } else {
      var s := AliasedCcMisleads(reserve, aliases);
    }
  }

  /** With CC an alias, CC looks as available as its target while fees are still taken from CC itself. */
  lemma AliasedCcMisleads(reserve: Decimal, aliases: map<string, string>) returns (s: Liquidity)
    requires reserve >= 0.0 && Resolve(aliases, CC) != CC
    ensures WellFormed(s) && s.aliases == aliases && FeeRoom(reserve, s) >= 0.0 && !VerdictAsAffordable(reserve, s)
  {
    var other := aliases[CC];
    s := Liquidity(map[other := TokenState(1.0, map[]), CC := TokenState(reserve, map[])], map[], aliases);
    assert Unallocated(Token(s, CC)) == reserve && FeeRoom(reserve, s) == 0.0;
    assert Unallocated(Token(s, other)) == 1.0;
    assert CheckCommit(reserve, s, CC, 0.0, 1.0) != Fits;
    assert Affordable(reserve, s, CC, 0.0, 1.0);
  }

  lemma RoomWhenCommitted(reserve: Decimal, s: Liquidity, id: string)
    requires reserve >= 0.0 && Solvent(reserve, s) && HasCommitment(s, id)
    ensures FeeRoom(reserve, s) >= 0.0
  {
    assert Covered(Token(s, CC));
    hide Covered, HasCommitment, Unallocated;
    UnallocatedExact(Token(s, CC));
    SumMonotone(s.fees, s.fees);
  }

  /** So over runs whose refreshed balances cover the commitments, the two agree in every state that holds one. */
  lemma AgreesWhileCommitted(reserve: Decimal, history: seq<Event>, id: string)
    requires reserve >= 0.0 && LegalHistory(reserve, history)
    requires HasCommitment(After(reserve, history), id) && Resolve(After(reserve, history).aliases, CC) == CC
    ensures VerdictAsAffordable(reserve, After(reserve, history))
  {
    hide After, LegalHistory, VerdictAsAffordable, FeeRoom, HasCommitment, FeesCovered;
    AlwaysSolvent(reserve, history);
    SolventIsWellFormed(reserve, After(reserve, history));
    RoomWhenCommitted(reserve, After(reserve, history), id);
    VerdictsAgreeWithRoom(reserve, After(reserve, history));
  }

  lemma SolventIsWellFormed(reserve: Decimal, s: Liquidity)
    requires Solvent(reserve, s)
    ensures WellFormed(s)
  {
    forall t | t in s.tokens ensures s.tokens[t].balance >= 0.0 && NonNegative(s.tokens[t].allocations) {
      assert Covered(Token(s, t));
    }
  }

  /** What is advertised: a token's balance less its commitments; for CC, by any of its names, also less reserve and fees; never below zero. */
  lemma AvailableExactly(reserve: Decimal, s: Liquidity, name: string)
    requires 0.0 <= reserve && Solvent(reserve, s)
    ensures var token := if name in s.aliases then s.aliases[name] else name;
            var free := Token(s, token).balance - Sum(Token(s, token).allocations);
            Available(reserve, s, name) == if token == "CC" then MaxZero(Saturate(free - reserve - Sum(s.fees))) else free
  {
    var token := if name in s.aliases then s.aliases[name] else name;
    assert Covered(Token(s, token));
    UnallocatedExact(Token(s, token));
    SumMonotone(s.fees, s.fees);
    SumMonotone(Token(s, token).allocations, Token(s, token).allocations);
  }

  // Balances free to fall

  /** Amounts and fees are not negative; a refreshed balance may be anything. */
  ghost predicate NonNegativeHistory(history: seq<Event>) {
    forall i :: 0 <= i < |history| && history[i].TryCommit? ==> history[i].amount >= 0.0 && history[i].fee >= 0.0
  }

  lemma StepKeepsWellFormed(reserve: Decimal, s: Liquidity, e: Event)
    requires WellFormed(s) && (e.TryCommit? ==> e.amount >= 0.0 && e.fee >= 0.0)
    ensures WellFormed(Next(reserve, s, e))
  {
    hide CheckCommit;
  }

  /** What every operation needs of the state holds throughout any run with non-negative amounts, also when balances fall. */
  lemma {:induction false} AlwaysWellFormed(reserve: Decimal, history: seq<Event>)
    requires NonNegativeHistory(history)
    ensures WellFormed(After(reserve, history))
  {
    if history != [] {
      hide Next, WellFormed;
      AlwaysWellFormed(reserve, history[..|history| - 1]);
      StepKeepsWellFormed(reserve, After(reserve, history[..|history| - 1]), history[|history| - 1]);
    }
  }

  lemma FeesDebitExact(free: Decimal, reserve: Decimal, fees: map<string, Decimal>, id: string, taken: Decimal, fee: Decimal)
    requires 0.0 <= taken <= free && reserve >= 0.0 && NonNegative(fees) && id !in fees && fee >= 0.0
    requires SatSub(SatSub(SatSub(free, reserve), Committed(fees)), taken) >= fee
    ensures SatSub(SatSub(free - taken, reserve), Committed(fees[id := fee]))
            == SatSub(SatSub(free, reserve), Committed(fees)) - fee - taken
  {
    SumInsert(fees, id, fee);
    SumMonotone(fees, fees);
  }

  lemma FeeRoomAfterCommit(reserve: Decimal, s: Liquidity, id: string, token: string, amount: Decimal, fee: Decimal)
    requires reserve >= 0.0 && WellFormed(s) && Fresh(s, id) && amount >= 0.0 && fee >= 0.0
    requires CheckCommit(reserve, s, token, amount, fee) == Fits
    ensures FeeRoom(reserve, Commit(s, id, token, amount, fee))
            == FeeRoom(reserve, s) - fee - if Resolve(s.aliases, token) == CC then amount else 0.0
  {
    var taken := Taken(s, token, amount);
    var cc := Token(s, CC);
    FreshAllocations(s, id, CC);
    CommittedToken(s, id, token, amount, fee, CC);
    FitsWhatIsFree(reserve, s, token, amount, fee);
    assert cc.balance >= 0.0 && NonNegative(cc.allocations) && 0.0 <= taken <= Unallocated(cc);
    hide CheckCommit, Unallocated, Token, Committed;
    if Resolve(s.aliases, token) == CC {
      DebitExact(cc, id, amount);
    }
    FeesDebitExact(Unallocated(cc), reserve, s.fees, id, taken, fee);
  }

  /** The commit lowers each availability by exactly what it takes there. */
  lemma CommitDebitsExactly(reserve: Decimal, s: Liquidity, id: string, token: string, amount: Decimal, fee: Decimal, name: string)
    requires reserve >= 0.0 && WellFormed(s) && Fresh(s, id) && amount >= 0.0 && fee >= 0.0
    requires CheckCommit(reserve, s, token, amount, fee) == Fits
    ensures var taken := (if Resolve(s.aliases, name) == Resolve(s.aliases, token) then amount else 0.0)
                         + (if Resolve(s.aliases, name) == CC then fee else 0.0);
            Available(reserve, Commit(s, id, token, amount, fee), name) == Available(reserve, s, name) - taken
  {
    var s' := Commit(s, id, token, amount, fee);
    var resolved, t := Resolve(s.aliases, token), Resolve(s.aliases, name);
    assert s'.aliases == s.aliases;
    FitsWhatIsFree(reserve, s, token, amount, fee);
    assert Token(s, resolved).balance >= 0.0 && NonNegative(Token(s, resolved).allocations);
    hide CheckCommit, Unallocated, Token, FeeRoom, Commit, WellFormed, Fresh, SatSub;
    if t == CC {
      FeeRoomAfterCommit(reserve, s, id, token, amount, fee);
      FitsExactly(FeeRoom(reserve, s), Taken(s, token, amount), fee);
    } else {
      CommittedToken(s, id, token, amount, fee, t);
      FreshAllocations(s, id, resolved);
      DebitExact(Token(s, resolved), id, amount);
    }
  }

  lemma FitsExactly(room: Decimal, taken: Decimal, fee: Decimal)
    requires SatSub(room, taken) >= fee >= 0.0 && taken >= 0.0
    ensures room - taken >= fee
  {
  }

  lemma ReleaseUndoes(s: Liquidity, id: string, token: string, amount: Decimal, fee: Decimal, t: string)
    requires Fresh(s, id)
    ensures var s' := Released(Commit(s, id, token, amount, fee), id);
            s'.fees == s.fees && s'.aliases == s.aliases && Token(s', t) == Token(s, t)
  {
    FreshAllocations(s, id, t);
    FreshAllocations(s, id, Resolve(s.aliases, token));
    assert (s.fees[id := fee]) - {id} == s.fees;
    var resolved := Resolve(s.aliases, token);
    assert (Token(s, resolved).allocations[id := amount]) - {id} == Token(s, resolved).allocations;
    assert Token(s, t).allocations - {id} == Token(s, t).allocations;
  }

  /** Releasing a fresh commit leaves every availability as it was before the commit. */
  lemma ReleaseCreditsExactly(reserve: Decimal, s: Liquidity, id: string, token: string, amount: Decimal, fee: Decimal, name: string)
    requires Fresh(s, id)
    ensures Available(reserve, Released(Commit(s, id, token, amount, fee), id), name) == Available(reserve, s, name)
  {
    ReleaseUndoes(s, id, token, amount, fee, CC);
    ReleaseUndoes(s, id, token, amount, fee, Resolve(s.aliases, name));
  }

  // Reconciliation

  lemma FreeWhenFewer(t: TokenState, fewer: map<string, Decimal>)
    requires t.balance >= 0.0 && NonNegative(t.allocations) && Subset(fewer, t.allocations)
    ensures Unallocated(t.(allocations := fewer)) >= Unallocated(t)
  {
    SumMonotone(fewer, t.allocations);
  }

  /** Reconciling keeps exactly the live and RFQ commitments with their amounts, settles at once, and frees, never takes. */
  lemma RetainReconciles(reserve: Decimal, s: Liquidity, live: set<string>, name: string, id: string)
    requires reserve >= 0.0 && WellFormed(s)
    ensures var s' := Retained(s, live);
            && Retained(s', live) == s'
            && Available(reserve, s', name) >= Available(reserve, s, name)
            && (HasCommitment(s', id) <==> HasCommitment(s, id) && (id in live || "rfqv2:" <= id))
            && (id in s'.fees ==> s'.fees[id] == s.fees[id])
            && (forall t :: id in Token(s', t).allocations ==> Token(s', t).allocations[id] == Token(s, t).allocations[id])
  {
    RetainFrees(reserve, s, live, name);
    RetainSettles(s, live);
    RetainKeeps(s, live, id);
    forall t ensures Token(Retained(s, live), t) == Token(s, t).(allocations := KeptOf(Token(s, t).allocations, live)) {
      RetainedToken(s, live, t);
    }
  }

  lemma RetainFrees(reserve: Decimal, s: Liquidity, live: set<string>, name: string)
    requires reserve >= 0.0 && WellFormed(s)
    ensures Available(reserve, Retained(s, live), name) >= Available(reserve, s, name)
  {
    var t := Resolve(s.aliases, name);
    RetainedToken(s, live, t);
    FreeWhenFewer(Token(s, t), KeptOf(Token(s, t).allocations, live));
    if t == CC {
      RoomWhenFewer(Unallocated(Token(s, CC)), Unallocated(Token(Retained(s, live), CC)), reserve, s.fees, KeptOf(s.fees, live));
    }
  }

  lemma RoomWhenFewer(free: Decimal, more: Decimal, reserve: Decimal, fees: map<string, Decimal>, fewer: map<string, Decimal>)
    requires free <= more && NonNegative(fees) && Subset(fewer, fees)
    ensures SatSub(SatSub(free, reserve), Committed(fees)) <= SatSub(SatSub(more, reserve), Committed(fewer))
  {
    SumMonotone(fewer, fees);
  }

  lemma RetainedToken(s: Liquidity, live: set<string>, t: string)
    ensures Token(Retained(s, live), t) == Token(s, t).(allocations := KeptOf(Token(s, t).allocations, live))
  {
  }

  lemma RetainSettles(s: Liquidity, live: set<string>)
    ensures Retained(Retained(s, live), live) == Retained(s, live)
  {
    forall m: map<string, Decimal> ensures KeptOf(KeptOf(m, live), live) == KeptOf(m, live) {
    }
  }

  lemma RetainKeeps(s: Liquidity, live: set<string>, id: string)
    ensures HasCommitment(Retained(s, live), id) <==> HasCommitment(s, id) && Keeps(live, id)
  {
    var s' := Retained(s, live);
    if t :| t in s.tokens && id in s.tokens[t].allocations {
      assert Keeps(live, id) ==> id in s'.tokens[t].allocations;
    }
    if t :| t in s'.tokens && id in s'.tokens[t].allocations {
      assert id in s.tokens[t].allocations;
    }
  }
}
