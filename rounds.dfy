/**
 * The rounds of the reset-and-pause application: two threshold-collection
 * rounds that gather one `ResetPayload` per participant and, at the end of a
 * block, decide DONE (with a new period state), NO_MAJORITY (with the
 * unchanged state) or nothing yet; and the application's transition table.
 *
 * The threshold arithmetic, the most-voted value, the majority test and the
 * period-state update belong to a framework base class that is not part of
 * this model. They are given concrete definitions here (marked ASSUMPTION):
 * a quorum is `n * 2 / 3 + 1` votes out of `n` participants, values are
 * grouped by the voted period count, and an update overlays keys on the
 * state's data.
 */
module ResetPauseRounds {
  import opened Wrappers

  type Address = string

  /** A reset payload: its sender and the period count it votes for. */
  datatype ResetPayload = ResetPayload(sender: Address, periodCount: int)

  /** Values held in the period state's key/value data. */
  datatype Value = VNone | VInt(i: int) | VText(s: string) | VAddresses(addrs: set<Address>)

  /**
   * A snapshot of the synchronized period state. The participant sets and the
   * period count are kept apart from the free-form data (ASSUMPTION).
   */
  datatype PeriodState = PeriodState(
    periodCount: int,
    participants: set<Address>,
    allParticipants: set<Address>,
    data: map<string, Value>,
    crossPeriodPersistedKeys: seq<string>)

  datatype Event = DONE | ROUND_TIMEOUT | NO_MAJORITY | RESET_TIMEOUT

  /** Why a payload is refused. */
  datatype Rejection = NotAParticipant(sender: Address) | AlreadySent(sender: Address)

  datatype RoundError =
    | TransactionNotValidError(rejection: Rejection)
    | ABCIAppInternalError(rejection: Rejection)
      /** `get_strict` on a key the data does not hold */
    | KeyNotFound(key: string)
      /** Python's TypeError for a keyword passed twice to `update` */
    | DuplicateKeyword(key: string)

  /** The outcome `end_block` proposes: the next state and the event. */
  datatype Decision = Decision(state: PeriodState, event: Event)

  const PERIOD_COUNT := "period_count"
  const PARTICIPANTS := "participants"
  const ALL_PARTICIPANTS := "all_participants"
  const TX_HASHES_HISTORY := "tx_hashes_history"

  // ---------------------------------------------------------------------------
  // Votes, quorum and majority (ASSUMPTION: the framework base class)

  /** The senders whose payload votes for `v`. */
  function Voters(c: map<Address, ResetPayload>, v: int): (r: set<Address>)
    ensures r <= c.Keys
  {
    set s | s in c && c[s].periodCount == v
  }

  /** How many payloads vote for `v`. */
  function Count(c: map<Address, ResetPayload>, v: int): nat
  {
    |Voters(c, v)|
  }

  /** The voted values. */
  function Votes(c: map<Address, ResetPayload>): set<int>
  {
    set s | s in c :: c[s].periodCount
  }

  /** The sizes of the vote groups. */
  function Counts(c: map<Address, ResetPayload>): set<int>
  {
    set v | v in Votes(c) :: Count(c, v)
  }

  /** The consensus threshold for `n` participants. */
  function Quorum(n: nat): (q: nat)
    ensures q > 0
    ensures 3 * q > 2 * n && 3 * (q - 1) <= 2 * n
  {
    n * 2 / 3 + 1
  }

  /** The size of the largest vote group (0 for an empty collection). */
  function MaxVotes(c: map<Address, ResetPayload>): (k: nat)
    ensures forall v :: Count(c, v) <= k
    ensures c != map[] ==> k in Counts(c)
  {
    if c == map[] then
      assert forall v :: Voters(c, v) == {};
      0
    else
      var s :| s in c;
      assert c[s].periodCount in Votes(c);
      assert Count(c, c[s].periodCount) in Counts(c);
      IntMaxExists(Counts(c));
      var k :| k in Counts(c) && forall j | j in Counts(c) :: j <= k;
      forall v ensures Count(c, v) <= k {
        if v in Votes(c) {
          assert Count(c, v) in Counts(c);
        } else {
          assert Voters(c, v) == {};
        }
      }
      k
  }

  /**
   * The most voted value: one with the largest group, the least such value
   * on a tie.
   */
  function MostVoted(c: map<Address, ResetPayload>): (v: int)
    requires c != map[]
    ensures v in Votes(c)
    ensures Count(c, v) == MaxVotes(c)
    ensures forall w :: Count(c, w) <= Count(c, v)
  {
    var top := set w | w in Votes(c) && Count(c, w) == MaxVotes(c);
    var u :| u in Votes(c) && Count(c, u) == MaxVotes(c);
    assert u in top;
    IntMinExists(top);
    var m :| m in top && forall w | w in top :: m <= w;
    m
  }

  /** Some value has reached the consensus threshold. */
  predicate ThresholdReached(c: map<Address, ResetPayload>, n: nat)
  {
    exists v | v in Votes(c) :: Count(c, v) >= Quorum(n)
  }

  /**
   * A quorum can still be formed if every participant that has not voted
   * joined the largest group.
   */
  predicate IsMajorityPossible(c: map<Address, ResetPayload>, n: nat)
  {
    c == map[] || MaxVotes(c) + (n - |c|) >= Quorum(n)
  }

  /** Some element of a non-empty set. */
  lemma PickInt(s: set<int>) returns (x: int)
    requires s != {}
    ensures x in s
  {
    if forall y :: y !in s {
      assert false;
    }
    var y :| y in s;
    x := y;
  }

  /** The largest element of a non-empty finite set. */
  lemma {:induction false} IntMax(s: set<int>) returns (k: int)
    requires s != {}
    ensures k in s && forall j | j in s :: j <= k
    decreases |s|
  {
    var x := PickInt(s);
    if s == {x} {
      k := x;
    } else {
      var m := IntMax(s - {x});
      k := if x > m then x else m;
      forall j | j in s ensures j <= k {
        if j != x {
          assert j in s - {x};
        }
      }
    }
  }

  /** The least element of a non-empty finite set. */
  lemma {:induction false} IntMin(s: set<int>) returns (k: int)
    requires s != {}
    ensures k in s && forall j | j in s :: k <= j
    decreases |s|
  {
    var x := PickInt(s);
    if s == {x} {
      k := x;
    } else {
      var m := IntMin(s - {x});
      k := if x < m then x else m;
      forall j | j in s ensures k <= j {
        if j != x {
          assert j in s - {x};
        }
      }
    }
  }

  lemma IntMaxExists(s: set<int>)
    requires s != {}
    ensures exists k :: k in s && forall j | j in s :: j <= k
  {
    var k := IntMax(s);
  }

  lemma IntMinExists(s: set<int>)
    requires s != {}
    ensures exists m :: m in s && forall j | j in s :: m <= j
  {
    var m := IntMin(s);
  }

  /** Reaching the threshold means strictly more than two thirds of `n` votes. */
  lemma ThresholdIsTwoThirds(c: map<Address, ResetPayload>, n: nat)
    ensures ThresholdReached(c, n) <==> exists v :: 3 * Count(c, v) > 2 * n
  {
    if exists v :: 3 * Count(c, v) > 2 * n {
      var v :| 3 * Count(c, v) > 2 * n;
      assert Voters(c, v) != {};
      var s :| s in Voters(c, v);
      assert v in Votes(c);
    }
  }

  /** When the threshold is reached, the most voted value is one that reached it. */
  lemma ThresholdWinner(c: map<Address, ResetPayload>, n: nat)
    requires ThresholdReached(c, n)
    ensures c != map[]
    ensures Count(c, MostVoted(c)) >= Quorum(n)
  {
    var v :| v in Votes(c) && Count(c, v) >= Quorum(n);
  }

  /** The groups of two different values have no sender in common. */
  lemma DisjointGroups(c: map<Address, ResetPayload>, v: int, w: int)
    requires v != w
    ensures Count(c, v) + Count(c, w) <= |c|
  {
    var a, b := Voters(c, v), Voters(c, w);
    assert a !! b;
    assert |a + b| == |a| + |b|;
    SubsetCard(a + b, c.Keys);
    assert |c.Keys| == |c|;
  }

  lemma SubsetCard<T>(a: set<T>, b: set<T>)
    requires a <= b
    ensures |a| <= |b|
  {
    assert b == a + (b - a);
  }

  /**
   * As long as no more payloads were collected than there are participants,
   * at most one value can reach the threshold, and it is the most voted one.
   */
  lemma UniqueWinner(c: map<Address, ResetPayload>, n: nat, v: int)
    requires |c| <= n
    requires Count(c, v) >= Quorum(n)
    ensures c != map[] && v == MostVoted(c)
  {
    assert v in Votes(c) by {
      var s :| s in Voters(c, v);
    }
    var m := MostVoted(c);
    if v != m {
      DisjointGroups(c, v, m);
      assert false;
    }
  }

  /** With no more votes than participants, a reached threshold leaves a majority possible. */
  lemma ThresholdImpliesMajorityPossible(c: map<Address, ResetPayload>, n: nat)
    requires |c| <= n
    requires ThresholdReached(c, n)
    ensures IsMajorityPossible(c, n)
  {
    ThresholdWinner(c, n);
  }

  /** `c2` holds every payload of `c1` and possibly more. */
  predicate Extends(c1: map<Address, ResetPayload>, c2: map<Address, ResetPayload>)
  {
    c1.Keys <= c2.Keys && forall s | s in c1 :: c2[s] == c1[s]
  }

  /** Adding payloads can grow a vote group by at most the number added. */
  lemma GroupGrowth(c1: map<Address, ResetPayload>, c2: map<Address, ResetPayload>, v: int)
    requires Extends(c1, c2)
    ensures Count(c2, v) <= Count(c1, v) + (|c2| - |c1|)
  {
    var added := c2.Keys - c1.Keys;
    var old1 := Voters(c1, v);
    assert Voters(c2, v) <= old1 + added by {
      forall s | s in Voters(c2, v) && s !in added ensures s in old1 {
        assert c2[s] == c1[s];
      }
    }
    SubsetCard(Voters(c2, v), old1 + added);
    UnionCard(old1, added);
    AddedCount(c1, c2);
  }

  /** The senders added by an extension are as many as the payloads it adds. */
  lemma AddedCount(c1: map<Address, ResetPayload>, c2: map<Address, ResetPayload>)
    requires Extends(c1, c2)
    ensures |c2.Keys - c1.Keys| == |c2| - |c1|
  {
    var added := c2.Keys - c1.Keys;
    DisjointUnionCard(c1.Keys, added);
    assert c2.Keys == c1.Keys + added;
    assert |c1.Keys| == |c1| && |c2.Keys| == |c2|;
  }

  lemma UnionCard<T>(a: set<T>, b: set<T>)
    ensures |a + b| <= |a| + |b|
  {
    assert a + b == a + (b - a);
    assert b == (b - a) + (b * a);
  }

  lemma DisjointUnionCard<T>(a: set<T>, b: set<T>)
    requires a !! b
    ensures |a + b| == |a| + |b|
  {
  }

  /**
   * Soundness of the early NO_MAJORITY exit: once a majority is impossible,
   * no later collection of at most `n` payloads that keeps the current ones
   * reaches the threshold.
   */
  lemma NoMajorityIsFinal(c1: map<Address, ResetPayload>, c2: map<Address, ResetPayload>, n: nat)
    requires !IsMajorityPossible(c1, n)
    requires Extends(c1, c2) && |c2| <= n
    ensures !ThresholdReached(c2, n)
  {
    forall v | v in Votes(c2)
      ensures Count(c2, v) < Quorum(n)
    {
      GroupGrowth(c1, c2, v);
    }
  }

  // ---------------------------------------------------------------------------
  // Period state (ASSUMPTION: `update` overlays keys, `get_strict` fails on a
  // missing key)

  /** `update(period_count=pc, **kwargs)`: a new snapshot with `kwargs` laid over the data. */
  function Update(st: PeriodState, pc: int, kwargs: map<string, Value>): (r: PeriodState)
    ensures r.periodCount == pc
    ensures r.data.Keys == st.data.Keys + kwargs.Keys
    ensures forall k | k in r.data :: r.data[k] == if k in kwargs then kwargs[k] else st.data[k]
    ensures r.participants == st.participants && r.allParticipants == st.allParticipants
    ensures r.crossPeriodPersistedKeys == st.crossPeriodPersistedKeys
  {
    st.(periodCount := pc, data := st.data + kwargs)
  }

  /**
   * The values of the cross-period persisted keys, read with `get_strict` in
   * list order: the first key that is missing raises.
   */
  function Persisted(data: map<string, Value>, keys: seq<string>): (r: Result<map<string, Value>, RoundError>)
    decreases |keys|
  {
    if keys == [] then Ok(map[])
    else
      var last := keys[|keys| - 1];
      match Persisted(data, keys[..|keys| - 1])
      case Err(e) => Err(e)
      case Ok(m) => if last in data then Ok(m[last := data[last]]) else Err(KeyNotFound(last))
  }

  /** `Persisted` succeeds exactly when every key is present, and then copies each verbatim. */
  lemma {:induction false} PersistedCopies(data: map<string, Value>, keys: seq<string>)
    ensures Persisted(data, keys).Ok? <==> forall i | 0 <= i < |keys| :: keys[i] in data
    ensures Persisted(data, keys).Ok? ==>
      && Persisted(data, keys).value.Keys == (set i | 0 <= i < |keys| :: keys[i])
      && forall k | k in Persisted(data, keys).value :: Persisted(data, keys).value[k] == data[k]
    decreases |keys|
  {
    if keys != [] {
      var init := keys[..|keys| - 1];
      PersistedCopies(data, init);
      assert forall i | 0 <= i < |init| :: init[i] == keys[i];
      if Persisted(data, keys).Ok? {
        assert (set i | 0 <= i < |keys| :: keys[i]) == (set i | 0 <= i < |init| :: init[i]) + {keys[|keys| - 1]};
      }
    }
  }

  /** A missing persisted key is reported by name: the first one in list order. */
  lemma {:induction false} PersistedFirstMissing(data: map<string, Value>, keys: seq<string>, i: nat)
    requires i < |keys| && keys[i] !in data
    requires forall j | 0 <= j < i :: keys[j] in data
    ensures Persisted(data, keys) == Err(KeyNotFound(keys[i]))
    decreases |keys|
  {
    var init := keys[..|keys| - 1];
    if i < |keys| - 1 {
      PersistedFirstMissing(data, init, i);
    } else {
      PersistedCopies(data, init);
    }
  }

  /** An error on a prefix is the error of the whole list. */
  lemma {:induction false} PersistedErrorPropagates(data: map<string, Value>, keys: seq<string>, i: nat)
    requires i <= |keys|
    requires Persisted(data, keys[..i]).Err?
    ensures Persisted(data, keys) == Persisted(data, keys[..i])
    decreases |keys| - i
  {
    if i < |keys| {
      assert keys[..i + 1][..i] == keys[..i];
      PersistedErrorPropagates(data, keys, i + 1);
    } else {
      assert keys[..i] == keys;
    }
  }

  // ---------------------------------------------------------------------------
  // Decisions of the two rounds

  datatype RoundKind = Reset | ResetAndPause

  /** `check_payload` / `process_payload`: the first violated rule, if any. */
  function Violation(st: PeriodState, c: map<Address, ResetPayload>, sender: Address): (r: Option<Rejection>)
    ensures r == None <==> sender in st.allParticipants && sender !in c
    ensures r == Some(NotAParticipant(sender)) <==> sender !in st.allParticipants
    ensures r == Some(AlreadySent(sender)) <==> sender in st.allParticipants && sender in c
  {
    if sender !in st.allParticipants then Some(NotAParticipant(sender))
    else if sender in c then Some(AlreadySent(sender))
    else None
  }

  /**
   * `ResetRound.end_block`: on a reached threshold, the whole current data
   * with `tx_hashes_history` cleared and the most voted `period_count`.
   */
  function ResetEndBlock(st: PeriodState, c: map<Address, ResetPayload>): (r: Result<Option<Decision>, RoundError>)
  {
    var n := |st.participants|;
    if ThresholdReached(c, n) then
      var stateData := st.data[TX_HASHES_HISTORY := VNone];
      if PERIOD_COUNT in stateData then Err(DuplicateKeyword(PERIOD_COUNT))
      else Ok(Some(Decision(Update(st, MostVoted(c), stateData), DONE)))
    else if !IsMajorityPossible(c, n) then Ok(Some(Decision(st, NO_MAJORITY)))
    else Ok(None)
  }

  /** The first of `names` that is also a persisted key, if any. */
  function Clash(keys: set<string>, names: seq<string>): (r: Option<string>)
    ensures r == None <==> forall i | 0 <= i < |names| :: names[i] !in keys
    ensures r.Some? ==> r.value in keys && r.value in names
  {
    if names == [] then None
    else if names[0] in keys then Some(names[0])
    else Clash(keys, names[1..])
  }

  /**
   * `ResetAndPauseRound.end_block`: on a reached threshold, the most voted
   * `period_count`, the participant sets passed back unchanged and every
   * cross-period persisted key copied from the current data.
   */
  function ResetAndPauseEndBlock(st: PeriodState, c: map<Address, ResetPayload>): (r: Result<Option<Decision>, RoundError>)
  {
    var n := |st.participants|;
    if ThresholdReached(c, n) then
      match Persisted(st.data, st.crossPeriodPersistedKeys)
      case Err(e) => Err(e)
      case Ok(extra) =>
        match Clash(extra.Keys, [PERIOD_COUNT, PARTICIPANTS, ALL_PARTICIPANTS])
        case Some(k) => Err(DuplicateKeyword(k))
        case None =>
          var next := Update(st.(participants := st.participants, allParticipants := st.allParticipants), MostVoted(c), extra);
          Ok(Some(Decision(next, DONE)))
    else if !IsMajorityPossible(c, n) then Ok(Some(Decision(st, NO_MAJORITY)))
    else Ok(None)
  }

  function EndBlockOf(kind: RoundKind, st: PeriodState, c: map<Address, ResetPayload>): Result<Option<Decision>, RoundError>
  {
    match kind
    case Reset => ResetEndBlock(st, c)
    case ResetAndPause => ResetAndPauseEndBlock(st, c)
  }

  /**
   * In both rounds the threshold is tested first: below it, an impossible
   * majority gives NO_MAJORITY with the state unchanged, otherwise no decision.
   */
  lemma BelowThreshold(kind: RoundKind, st: PeriodState, c: map<Address, ResetPayload>)
    requires !ThresholdReached(c, |st.participants|)
    ensures !IsMajorityPossible(c, |st.participants|) ==> EndBlockOf(kind, st, c) == Ok(Some(Decision(st, NO_MAJORITY)))
    ensures IsMajorityPossible(c, |st.participants|) ==> EndBlockOf(kind, st, c) == Ok(None)
  {
  }

  /** The round decides DONE exactly when the threshold is reached and no error is raised. */
  lemma DoneIffThreshold(kind: RoundKind, st: PeriodState, c: map<Address, ResetPayload>)
    ensures (EndBlockOf(kind, st, c).Ok? && EndBlockOf(kind, st, c).value.Some? &&
             EndBlockOf(kind, st, c).value.value.event == DONE)
            <==> (ThresholdReached(c, |st.participants|) && EndBlockOf(kind, st, c).Ok?)
    ensures !ThresholdReached(c, |st.participants|) ==> EndBlockOf(kind, st, c).Ok?
  {
  }

  /** What `ResetRound` hands on when it decides DONE. */
  lemma ResetDoneState(st: PeriodState, c: map<Address, ResetPayload>)
    requires ThresholdReached(c, |st.participants|)
    requires PERIOD_COUNT !in st.data
    ensures ResetEndBlock(st, c).Ok? && ResetEndBlock(st, c).value.Some?
    ensures var d := ResetEndBlock(st, c).value.value;
      && d.event == DONE
      && d.state.periodCount == MostVoted(c)
      && Count(c, d.state.periodCount) >= Quorum(|st.participants|)
      && d.state.data.Keys == st.data.Keys + {TX_HASHES_HISTORY}
      && d.state.data[TX_HASHES_HISTORY] == VNone
      && (forall k | k in st.data && k != TX_HASHES_HISTORY :: d.state.data[k] == st.data[k])
      && d.state.participants == st.participants
      && d.state.allParticipants == st.allParticipants
  {
    ThresholdWinner(c, |st.participants|);
  }

  /** What `ResetAndPauseRound` hands on when it decides DONE. */
  lemma ResetAndPauseDoneState(st: PeriodState, c: map<Address, ResetPayload>)
    requires ThresholdReached(c, |st.participants|)
    requires forall i | 0 <= i < |st.crossPeriodPersistedKeys| :: st.crossPeriodPersistedKeys[i] in st.data
    requires forall i | 0 <= i < |st.crossPeriodPersistedKeys| ::
      st.crossPeriodPersistedKeys[i] !in {PERIOD_COUNT, PARTICIPANTS, ALL_PARTICIPANTS}
    ensures ResetAndPauseEndBlock(st, c).Ok? && ResetAndPauseEndBlock(st, c).value.Some?
    ensures var d := ResetAndPauseEndBlock(st, c).value.value;
      && d.event == DONE
      && d.state.periodCount == MostVoted(c)
      && Count(c, d.state.periodCount) >= Quorum(|st.participants|)
      && d.state.participants == st.participants
      && d.state.allParticipants == st.allParticipants
      && d.state.crossPeriodPersistedKeys == st.crossPeriodPersistedKeys
      && forall i | 0 <= i < |st.crossPeriodPersistedKeys| ::
           d.state.data[st.crossPeriodPersistedKeys[i]] == st.data[st.crossPeriodPersistedKeys[i]]
  {
    ThresholdWinner(c, |st.participants|);
    PersistedCopies(st.data, st.crossPeriodPersistedKeys);
    var extra := Persisted(st.data, st.crossPeriodPersistedKeys).value;
    var names := [PERIOD_COUNT, PARTICIPANTS, ALL_PARTICIPANTS];
    forall i | 0 <= i < |names|
      ensures names[i] !in extra.Keys
    {
      if names[i] in extra.Keys {
        assert false;
      }
    }
  }

  // ---------------------------------------------------------------------------
  // The round object

  /**
   * A threshold-collection round: its period-state snapshot is fixed at
   * creation and its collection of payloads grows by `ProcessPayload`.
   */
  class ThresholdRound {
    const kind: RoundKind
    const periodState: PeriodState
    var collection: map<Address, ResetPayload>

    /** Every collected payload comes from an eligible sender and is filed under it. */
    ghost predicate Valid()
      reads this
    {
      && collection.Keys <= periodState.allParticipants
      && forall s | s in collection :: collection[s].sender == s
    }

    constructor (kind: RoundKind, st: PeriodState)
      ensures this.kind == kind && periodState == st && collection == map[]
      ensures Valid()
    {
      this.kind := kind;
      periodState := st;
      collection := map[];
    }

    /** `check_payload`: validation before ordering; never changes the round. */
    function CheckPayload(p: ResetPayload): (r: Outcome<RoundError>)
      reads this
      ensures r == Pass <==> p.sender in periodState.allParticipants && p.sender !in collection
      ensures r.Fail? ==> r.error == TransactionNotValidError(Violation(periodState, collection, p.sender).value)
    {
      match Violation(periodState, collection, p.sender)
      case Some(why) => Fail(TransactionNotValidError(why))
      case None => Pass
    }

    /** `process_payload`: records the payload, or raises and records nothing. */
    method ProcessPayload(p: ResetPayload) returns (r: Outcome<RoundError>)
      requires Valid()
      modifies this
      ensures Valid()
      ensures r == Pass <==> p.sender in periodState.allParticipants && p.sender !in old(collection)
      ensures r.Fail? ==> r.error == ABCIAppInternalError(Violation(periodState, old(collection), p.sender).value)
      ensures r.Fail? ==> collection == old(collection)
      ensures r == Pass ==> collection == old(collection)[p.sender := p]
      ensures r == Pass ==> |collection| == |old(collection)| + 1
    {
      var sender := p.sender;
      if sender !in periodState.allParticipants {
        return Fail(ABCIAppInternalError(NotAParticipant(sender)));
      }
      if sender in collection {
        return Fail(ABCIAppInternalError(AlreadySent(sender)));
      }
      collection := collection[sender := p];
      r := Pass;
    }

    /** `end_block`: the decision of this round on its current collection. */
    method EndBlock() returns (r: Result<Option<Decision>, RoundError>)
      ensures r == EndBlockOf(kind, periodState, collection)
    {
      var n := |periodState.participants|;
      if !ThresholdReached(collection, n) {
        if !IsMajorityPossible(collection, n) {
          return Ok(Some(Decision(periodState, NO_MAJORITY)));
        }
        return Ok(None);
      }
      if kind == Reset {
        var stateData := periodState.data[TX_HASHES_HISTORY := VNone];
        if PERIOD_COUNT in stateData {
          return Err(DuplicateKeyword(PERIOD_COUNT));
        }
        return Ok(Some(Decision(Update(periodState, MostVoted(collection), stateData), DONE)));
      }
      var extra := CollectPersisted(periodState.data, periodState.crossPeriodPersistedKeys);
      match extra
      case Err(e) => return Err(e);
      case Ok(kwargs) =>
        var clash := Clash(kwargs.Keys, [PERIOD_COUNT, PARTICIPANTS, ALL_PARTICIPANTS]);
        if clash.Some? {
          return Err(DuplicateKeyword(clash.value));
        }
        var next := Update(periodState.(participants := periodState.participants,
                                        allParticipants := periodState.allParticipants),
                           MostVoted(collection), kwargs);
        return Ok(Some(Decision(next, DONE)));
    }
  }

  /** The collected payloads never outnumber the eligible senders. */
  lemma CollectionBounded(r: ThresholdRound)
    requires r.Valid()
    ensures |r.collection| <= |r.periodState.allParticipants|
  {
    SubsetCard(r.collection.Keys, r.periodState.allParticipants);
    assert |r.collection.Keys| == |r.collection|;
  }

  /** The loop of `ResetAndPauseRound.end_block` that reads every persisted key strictly. */
  method CollectPersisted(data: map<string, Value>, keys: seq<string>) returns (r: Result<map<string, Value>, RoundError>)
    ensures r == Persisted(data, keys)
  {
    var extra: map<string, Value> := map[];
    var i := 0;
    while i < |keys|
      invariant 0 <= i <= |keys|
      invariant Persisted(data, keys[..i]) == Ok(extra)
    {
      var key := keys[i];
      assert keys[..i + 1][..i] == keys[..i];
      if key !in data {
        PersistedErrorPropagates(data, keys, i + 1);
        return Err(KeyNotFound(key));
      }
      extra := extra[key := data[key]];
      i := i + 1;
    }
    assert keys[..i] == keys;
    r := Ok(extra);
  }

  // ---------------------------------------------------------------------------
  // The application's transition table

  datatype RoundType = ResetAndPauseRound | ResetRound | FinishedResetAndPauseRound | FinishedResetRound

  function RoundId(t: RoundType): string
  {
    match t
    case ResetRound => "reset"
    case ResetAndPauseRound => "reset_and_pause"
    case FinishedResetAndPauseRound => "finished_reset_pause"
    case FinishedResetRound => "finished_reset"
  }

  function RoundTypeOf(kind: RoundKind): RoundType
  {
    match kind
    case Reset => ResetRound
    case ResetAndPause => ResetAndPauseRound
  }

  const InitialRound: RoundType := ResetAndPauseRound

  const InitialStates: set<RoundType> := {ResetRound, ResetAndPauseRound}

  const TransitionFunction: map<RoundType, map<Event, RoundType>> := map[
    ResetAndPauseRound := map[
      DONE := FinishedResetAndPauseRound,
      RESET_TIMEOUT := ResetAndPauseRound,
      NO_MAJORITY := ResetAndPauseRound],
    ResetRound := map[
      DONE := FinishedResetRound,
      RESET_TIMEOUT := ResetRound,
      NO_MAJORITY := ResetRound],
    FinishedResetAndPauseRound := map[]]

  const FinalStates: set<RoundType> := {FinishedResetAndPauseRound, FinishedResetRound}

  /** Timeouts in seconds; only the constants are modelled. */
  const EventToTimeout: map<Event, real> := map[ROUND_TIMEOUT := 30.0, RESET_TIMEOUT := 30.0]

  /** The round the table leads to from `t` on `e`, if any. */
  function NextRound(t: RoundType, e: Event): (r: Option<RoundType>)
    ensures r.Some? <==> t in TransitionFunction && e in TransitionFunction[t]
  {
    if t in TransitionFunction && e in TransitionFunction[t] then Some(TransitionFunction[t][e]) else None
  }

  /** Follow a sequence of events from `t`; None once an event has no edge. */
  function Run(t: RoundType, events: seq<Event>): Option<RoundType>
    decreases |events|
  {
    if events == [] then Some(t)
    else match NextRound(t, events[0])
      case None => None
      case Some(u) => Run(u, events[1..])
  }

  /** The finished round each collection round leads to. */
  function FinishedOf(t: RoundType): RoundType
  {
    match t
    case ResetAndPauseRound => FinishedResetAndPauseRound
    case ResetRound => FinishedResetRound
    case other => other
  }

  /** The edges of the table, as the application declares them. */
  lemma TransitionTable()
    ensures NextRound(ResetAndPauseRound, DONE) == Some(FinishedResetAndPauseRound)
    ensures NextRound(ResetRound, DONE) == Some(FinishedResetRound)
    ensures forall t | t in {ResetAndPauseRound, ResetRound} ::
      NextRound(t, RESET_TIMEOUT) == Some(t) && NextRound(t, NO_MAJORITY) == Some(t)
    ensures forall t, e | t in FinalStates :: NextRound(t, e) == None
    ensures forall t :: NextRound(t, ROUND_TIMEOUT) == None
    ensures InitialRound in InitialStates
    ensures FinalStates !! InitialStates
    ensures EventToTimeout.Keys == {ROUND_TIMEOUT, RESET_TIMEOUT}
    ensures EventToTimeout[ROUND_TIMEOUT] == 30.0 && EventToTimeout[RESET_TIMEOUT] == 30.0
  {
  }

  /** Every event a round's `end_block` can emit has an edge from that round. */
  lemma DecisionsHaveEdges(kind: RoundKind, st: PeriodState, c: map<Address, ResetPayload>)
    requires EndBlockOf(kind, st, c).Ok? && EndBlockOf(kind, st, c).value.Some?
    ensures NextRound(RoundTypeOf(kind), EndBlockOf(kind, st, c).value.value.event).Some?
  {
  }

  /**
   * From an initial round, every run of events stays in that round or its
   * finished round, and nothing leaves a finished round.
   */
  lemma {:induction false} RunStaysInPeriod(t: RoundType, events: seq<Event>)
    requires t in InitialStates || t in FinalStates
    ensures Run(t, events).Some? ==> Run(t, events).value in {t, FinishedOf(t)}
    ensures t in FinalStates && events != [] ==> Run(t, events) == None
    decreases |events|
  {
    if events != [] {
      match NextRound(t, events[0])
      case None =>
      case Some(u) =>
        RunStaysInPeriod(u, events[1..]);
        assert u in {t, FinishedOf(t)};
    }
  }

  /**
   * Every round reachable from the initial round is either final or has an
   * entry in the transition table.
   */
  lemma ReachableRoundsAreDeclared(events: seq<Event>)
    requires Run(InitialRound, events).Some?
    ensures Run(InitialRound, events).value in TransitionFunction || Run(InitialRound, events).value in FinalStates
  {
    RunStaysInPeriod(InitialRound, events);
  }

  // ---------------------------------------------------------------------------
  // Example scenarios

  /** Four participants, three votes for 1 and one for 2: DONE with period count 1. */
  lemma ScenarioThreeOfFour()
    ensures var c := map["A" := ResetPayload("A", 1), "B" := ResetPayload("B", 1),
                         "C" := ResetPayload("C", 1), "D" := ResetPayload("D", 2)];
      ThresholdReached(c, 4) && MostVoted(c) == 1
  {
    var c := map["A" := ResetPayload("A", 1), "B" := ResetPayload("B", 1),
                 "C" := ResetPayload("C", 1), "D" := ResetPayload("D", 2)];
    assert Voters(c, 1) == {"A", "B", "C"};
    assert |{"A", "B", "C"}| == 3;
    assert 1 in Votes(c) by { assert c["A"].periodCount == 1; }
    UniqueWinner(c, 4, 1);
  }

  /** Four participants, three different votes: a majority is no longer possible. */
  lemma ScenarioThreeDistinct()
    ensures var c := map["A" := ResetPayload("A", 1), "B" := ResetPayload("B", 2),
                         "C" := ResetPayload("C", 3)];
      !ThresholdReached(c, 4) && !IsMajorityPossible(c, 4)
  {
    var c := map["A" := ResetPayload("A", 1), "B" := ResetPayload("B", 2),
                 "C" := ResetPayload("C", 3)];
    forall v ensures Count(c, v) <= 1 {
      if v == 1 {
        assert Voters(c, v) == {"A"};
      } else if v == 2 {
        assert Voters(c, v) == {"B"};
      } else if v == 3 {
        assert Voters(c, v) == {"C"};
      } else {
        assert Voters(c, v) == {};
      }
    }
    assert "A" in c && c.Keys == {"A", "B", "C"} && |c| == 3;
    var k := MaxVotes(c);
    assert k in Counts(c);
    var w :| w in Votes(c) && Count(c, w) == k;
    assert k <= 1;
  }

  /** Four participants, two different votes: a majority is still possible. */
  lemma ScenarioTwoDistinct()
    ensures var c := map["A" := ResetPayload("A", 1), "B" := ResetPayload("B", 2)];
      !ThresholdReached(c, 4) && IsMajorityPossible(c, 4)
  {
    var c := map["A" := ResetPayload("A", 1), "B" := ResetPayload("B", 2)];
    forall v ensures Count(c, v) <= 1 {
      if v == 1 {
        assert Voters(c, v) == {"A"};
      } else if v == 2 {
        assert Voters(c, v) == {"B"};
      } else {
        assert Voters(c, v) == {};
      }
    }
    assert Voters(c, 1) == {"A"};
  }

  /**
   * Eligibility is checked against `all_participants` while the threshold
   * counts `participants`: with four participants among six eligible
   * senders, the votes 1, 1, 1, 2, 2, 2 are all accepted and BOTH values
   * reach the threshold, so `UniqueWinner` needs its bound of at most
   * `|participants|` payloads.
   */
  lemma ScenarioWiderEligibility()
    ensures var st := PeriodState(0, {"A", "B", "C", "D"}, {"A", "B", "C", "D", "E", "F"}, map[], []);
      var c := map["A" := ResetPayload("A", 1), "B" := ResetPayload("B", 1), "C" := ResetPayload("C", 1),
                   "D" := ResetPayload("D", 2), "E" := ResetPayload("E", 2), "F" := ResetPayload("F", 2)];
      && c.Keys <= st.allParticipants
      && (forall s | s in c :: c[s].sender == s)
      && Count(c, 1) >= Quorum(|st.participants|)
      && Count(c, 2) >= Quorum(|st.participants|)
  {
    var c := map["A" := ResetPayload("A", 1), "B" := ResetPayload("B", 1), "C" := ResetPayload("C", 1),
                 "D" := ResetPayload("D", 2), "E" := ResetPayload("E", 2), "F" := ResetPayload("F", 2)];
    assert |{"A", "B", "C", "D"}| == 4;
    assert Voters(c, 1) == {"A", "B", "C"};
    assert Voters(c, 2) == {"D", "E", "F"};
    assert |{"A", "B", "C"}| == 3 && |{"D", "E", "F"}| == 3;
  }
}
