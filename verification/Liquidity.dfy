/**
 Token balances and the commitments made against them. Fees are always paid in CC, from a pool shared by all
 proposals and kept above a reserve; short names resolve to canonical tokens.
 */
module LiquidityManagement {
  import opened Wrappers
  import opened Decimals
  import opened MapSums

  const CC: string := "CC"

  /** Ids of this kind are released by the quote path and never reaped. */
  const RFQ_PREFIX: string := "rfqv2:"

  datatype TokenState = TokenState(balance: Decimal, allocations: map<string, Decimal>)

  const NO_TOKEN := TokenState(0.0, map[])

  datatype Liquidity = Liquidity(tokens: map<string, TokenState>, fees: map<string, Decimal>, aliases: map<string, string>)

  const EMPTY := Liquidity(map[], map[], map[])

  datatype Verdict = Fits | ShortOfToken | ShortOfFees

  function Resolve(aliases: map<string, string>, token: string): string {
    if token in aliases then aliases[token] else token
  }

  function Token(s: Liquidity, token: string): TokenState {
    if token in s.tokens then s.tokens[token] else NO_TOKEN
  }

  /** The saturated total of commitments. */
  ghost function Committed(m: map<string, Decimal>): Decimal {
    Saturate(Sum(m))
  }

  ghost function Unallocated(t: TokenState): Decimal {
    MaxZero(SatSub(t.balance, Committed(t.allocations)))
  }

  /** CC left for fees before any further allocation; may be negative. */
  ghost function FeeRoom(reserve: Decimal, s: Liquidity): Decimal {
    SatSub(SatSub(Unallocated(Token(s, CC)), reserve), Committed(s.fees))
  }

  ghost function Available(reserve: Decimal, s: Liquidity, token: string): Decimal {
    if Resolve(s.aliases, token) == CC then MaxZero(FeeRoom(reserve, s))
    else Unallocated(Token(s, Resolve(s.aliases, token)))
  }

  ghost function CheckCommit(reserve: Decimal, s: Liquidity, token: string, amount: Decimal, fee: Decimal): Verdict {
    var resolved := Resolve(s.aliases, token);
    var room := FeeRoom(reserve, s);
    if Unallocated(Token(s, resolved)) < amount then ShortOfToken
    else if (if resolved == CC then SatSub(room, amount) else room) < fee then ShortOfFees
    else Fits
  }

  function Commit(s: Liquidity, id: string, token: string, amount: Decimal, fee: Decimal): Liquidity {
    var resolved := Resolve(s.aliases, token);
    var t := Token(s, resolved);
    s.(tokens := s.tokens[resolved := t.(allocations := t.allocations[id := amount])], fees := s.fees[id := fee])
  }

  ghost function TryCommitted(reserve: Decimal, s: Liquidity, id: string, token: string, amount: Decimal, fee: Decimal): Liquidity {
    if CheckCommit(reserve, s, token, amount, fee) == Fits then Commit(s, id, token, amount, fee) else s
  }

  function Released(s: Liquidity, id: string): Liquidity {
    s.(tokens := map t | t in s.tokens :: s.tokens[t].(allocations := s.tokens[t].allocations - {id}), fees := s.fees - {id})
  }

  predicate Keeps(live: set<string>, id: string) {
    id in live || RFQ_PREFIX <= id
  }

  function KeptOf(m: map<string, Decimal>, live: set<string>): map<string, Decimal> {
    map id | id in m && Keeps(live, id) :: m[id]
  }

  function Retained(s: Liquidity, live: set<string>): Liquidity {
    s.(tokens := map t | t in s.tokens :: s.tokens[t].(allocations := KeptOf(s.tokens[t].allocations, live)),
       fees := KeptOf(s.fees, live))
  }

  /** Ids holding an allocation in some token or a fee. */
  ghost predicate HasCommitment(s: Liquidity, id: string) {
    id in s.fees || exists t :: t in s.tokens && id in s.tokens[t].allocations
  }

  /** Exactly the committed ids that are not kept. */
  ghost predicate Orphans(s: Liquidity, live: set<string>, orphans: set<string>) {
    forall id :: id in orphans <==> (HasCommitment(s, id) && !Keeps(live, id))
  }

  function WithBalance(s: Liquidity, token: string, reported: Decimal): Liquidity {
    s.(tokens := s.tokens[token := Token(s, token).(balance := MaxZero(reported))])
  }

  /** Amounts and balances are never negative. */
  ghost predicate WellFormed(s: Liquidity) {
    && NonNegative(s.fees)
    && forall t :: t in s.tokens ==> s.tokens[t].balance >= 0.0 && NonNegative(s.tokens[t].allocations)
  }

  class LiquidityManager {
    const reserve: Decimal
    var tokens: map<string, TokenState>
    var fees: map<string, Decimal>
    var aliases: map<string, string>

    ghost function State(): Liquidity
      reads this
    {
      Liquidity(tokens, fees, aliases)
    }

    constructor (reserve: Decimal)
      ensures State() == EMPTY && this.reserve == reserve
    {
      this.reserve := reserve;
      tokens, fees, aliases := map[], map[], map[];
    }

    /** Adds the values up in whatever order the map yields them, saturating as it goes. */
    static method Total(m: map<string, Decimal>) returns (total: Decimal)
      requires NonNegative(m)
      ensures total == Min(LIMIT, Sum(m)) == Committed(m)
    {
      total := 0.0;
      var left := m;
      while left != map[]
        invariant left.Keys <= m.Keys && forall id :: id in left ==> left[id] == m[id]
        invariant total == Min(LIMIT, Sum(m) - Sum(left))
        invariant Sum(left) <= Sum(m)
        decreases left.Keys
      {
        var id :| id in left;
        SumRemove(left, id);
        SumMonotone(left - {id}, m);
        total := SatAdd(total, left[id]);
        left := left - {id};
      }
      SumMonotone(m, m);
    }

    static method TokenAvailable(t: TokenState) returns (free: Decimal)
      requires NonNegative(t.allocations)
      ensures free == Unallocated(t)
    {
      var committed := Total(t.allocations);
      free := MaxZero(SatSub(t.balance, committed));
    }

    method RoomForFees() returns (room: Decimal)
      requires WellFormed(State())
      ensures room == FeeRoom(reserve, State())
    {
      var free := TokenAvailable(if CC in tokens then tokens[CC] else NO_TOKEN);
      var committed := Total(fees);
      room := SatSub(SatSub(free, reserve), committed);
    }

    method AvailableFor(token: string) returns (free: Decimal)
      requires WellFormed(State())
      ensures free == Available(reserve, State(), token)
    {
      var resolved := Resolve(aliases, token);
      if resolved == CC {
        var room := RoomForFees();
        free := MaxZero(room);
      } else {
        free := TokenAvailable(if resolved in tokens then tokens[resolved] else NO_TOKEN);
      }
    }

    method CanCommit(token: string, amount: Decimal, fee: Decimal) returns (verdict: Verdict)
      requires WellFormed(State())
      ensures verdict == CheckCommit(reserve, State(), token, amount, fee)
    {
      var resolved := Resolve(aliases, token);
      var free := TokenAvailable(if resolved in tokens then tokens[resolved] else NO_TOKEN);
      if free < amount {
        return ShortOfToken;
      }
      var room := RoomForFees();
      if resolved == CC {
        room := SatSub(room, amount);
      }
      verdict := if room < fee then ShortOfFees else Fits;
    }

    method TryCommit(id: string, token: string, amount: Decimal, fee: Decimal) returns (verdict: Verdict)
      requires WellFormed(State())
      modifies this
      ensures verdict == CheckCommit(reserve, old(State()), token, amount, fee)
      ensures State() == TryCommitted(reserve, old(State()), id, token, amount, fee)
    {
      verdict := CanCommit(token, amount, fee);
      if verdict == Fits {
        var resolved := Resolve(aliases, token);
        var t := if resolved in tokens then tokens[resolved] else NO_TOKEN;
        tokens := tokens[resolved := t.(allocations := t.allocations[id := amount])];
        fees := fees[id := fee];
      }
    }

    method Release(id: string)
      modifies this
      ensures State() == Released(old(State()), id)
    {
      var left := tokens.Keys;
      while left != {}
        invariant left <= tokens.Keys == old(tokens).Keys
        invariant forall t :: t in tokens ==>
                    tokens[t] == if t in left then old(tokens)[t]
                                 else old(tokens)[t].(allocations := old(tokens)[t].allocations - {id})
        invariant unchanged(`fees) && unchanged(`aliases)
      {
        var t :| t in left;
        tokens := tokens[t := tokens[t].(allocations := tokens[t].allocations - {id})];
        left := left - {t};
      }
      fees := fees - {id};
    }

    /** Drops every commitment that is neither live nor an RFQ confirm; counts the distinct ids dropped. */
    method RetainCommitments(live: set<string>) returns (dropped: nat)
      modifies this
      ensures State() == Retained(old(State()), live)
      ensures exists orphans: set<string> :: Orphans(old(State()), live, orphans) && dropped == |orphans|
    {
      var orphaned := set id | id in fees && !Keeps(live, id);
      var left := tokens.Keys;
      while left != {}
        invariant left <= tokens.Keys
        invariant forall id :: id in orphaned <==>
                    (!Keeps(live, id) && (id in fees || exists t :: t in tokens && t !in left && id in tokens[t].allocations))
      {
        var t :| t in left;
        orphaned := orphaned + set id | id in tokens[t].allocations && !Keeps(live, id);
        left := left - {t};
      }
      dropped := |orphaned|;
      left := tokens.Keys;
      while left != {}
        invariant left <= tokens.Keys == old(tokens).Keys
        invariant forall t :: t in tokens ==>
                    tokens[t] == if t in left then old(tokens)[t]
                                 else old(tokens)[t].(allocations := KeptOf(old(tokens)[t].allocations, live))
        invariant unchanged(`fees) && unchanged(`aliases)
      {
        var t :| t in left;
        tokens := tokens[t := tokens[t].(allocations := KeptOf(tokens[t].allocations, live))];
        left := left - {t};
      }
      fees := KeptOf(fees, live);
      assert Orphans(old(State()), live, orphaned);
    }

    method UpdateBalance(token: string, reported: Decimal)
      modifies this
      ensures State() == WithBalance(old(State()), token, reported)
    {
      var t := if token in tokens then tokens[token] else NO_TOKEN;
      tokens := tokens[token := t.(balance := MaxZero(reported))];
    }

    method RegisterAlias(name: string, canonical: string)
      modifies this
      ensures State() == old(State()).(aliases := old(aliases)[name := canonical])
    {
      aliases := aliases[name := canonical];
    }
  }
}
