// Provider selection: the eligibility checks, the ranking, and the loop of `Router.Select`.
module Router {
  import opened Domain
  import opened Sorting

  const PIX_CREATE: string := "pix.create"

  // Everything a selection depends on besides the connections themselves.
  datatype Context = Context(
    environment: Environment,
    excluded: set<string>,
    catalog: Option<map<string, set<string>>>,
    capability: string,
    health: Health)

  datatype RouteResult = RouteResult(selected: Option<Connection>, candidates: seq<Candidate>)

  // Identifiers are compared character by character.
  predicate IdLess(a: string, b: string) {
    if b == "" then false
    else if a == "" then true
    else if a[0] != b[0] then a[0] < b[0]
    else IdLess(a[1..], b[1..])
  }

  function CircuitRank(state: CircuitState): nat {
    match state
    case Closed => 0
    case HalfOpen => 1
    case Open => 2
  }

  function Score(id: string, health: Health): real {
    if id in health then health[id].healthScore else 0.5
  }

  // The branches of `betterCandidate`, in its order.
  predicate Better(candidate: Connection, current: Connection, health: Health) {
    if CircuitRank(candidate.circuit) != CircuitRank(current.circuit) then
      CircuitRank(candidate.circuit) < CircuitRank(current.circuit)
    else if (candidate.id in health || current.id in health)
         && Score(candidate.id, health) != Score(current.id, health) then
      Score(candidate.id, health) > Score(current.id, health)
    else if candidate.priority != current.priority then
      candidate.priority < current.priority
    else IdLess(candidate.id, current.id)
  }

  function ByRank(health: Health): (Connection, Connection) -> bool {
    (a, b) => Better(a, b, health)
  }

  // The order in which the candidates are listed.
  predicate ListedBefore(a: Connection, b: Connection) {
    if a.priority != b.priority then a.priority < b.priority else IdLess(a.id, b.id)
  }

  function ExclusionOf(conn: Connection, ctx: Context): Exclusion {
    if ctx.catalog.Some? && conn.providerKey !in ctx.catalog.value then ConnectorNotRegistered
    else if ctx.catalog.Some? && ctx.capability !in ctx.catalog.value[conn.providerKey] then CapabilityUnsupported
    else if conn.id in ctx.excluded then AlreadyAttempted
    else if !conn.enabled then Disabled
    else if conn.environment != ctx.environment then WrongEnvironment
    else if !conn.credentialsValid then InvalidCredentials
    else if conn.circuit == Open then CircuitOpen
    else NotExcluded
  }

  predicate Eligible(conn: Connection, ctx: Context) {
    ExclusionOf(conn, ctx) == NotExcluded
  }

  function Evidence(conn: Connection, ctx: Context): Candidate {
    Candidate(
      conn.id, conn.providerKey, conn.priority, Eligible(conn, ctx), ExclusionOf(conn, ctx),
      Score(conn.id, ctx.health),
      if conn.id in ctx.health then Some(ctx.health[conn.id]) else None)
  }

  function EvidenceOf(s: seq<Connection>, ctx: Context): (r: seq<Candidate>)
    ensures |r| == |s|
    ensures forall i :: 0 <= i < |s| ==> r[i] == Evidence(s[i], ctx)
  {
    seq(|s|, i requires 0 <= i < |s| => Evidence(s[i], ctx))
  }

  // The best eligible connection of s, met from left to right.
  function Best(s: seq<Connection>, ctx: Context): Option<Connection> {
    if s == [] then None
    else
      var best := Best(s[..|s| - 1], ctx);
      var conn := s[|s| - 1];
      if Eligible(conn, ctx) && (best.None? || Better(conn, best.value, ctx.health)) then Some(conn) else best
  }

  function Ordered(connections: seq<Connection>): seq<Connection> {
    Sort(connections, ListedBefore)
  }

  function Selection(connections: seq<Connection>, ctx: Context): RouteResult {
    RouteResult(Best(Ordered(connections), ctx), EvidenceOf(Ordered(connections), ctx))
  }

  method Select(connections: seq<Connection>, ctx: Context) returns (result: RouteResult)
    ensures IsFirstChoice(result.selected, connections, ctx) && RowsAreTrue(result.candidates, connections, ctx)
    ensures result == Selection(connections, ctx)
  {
    var ordered := Sort(connections, ListedBefore);
    var candidates: seq<Candidate> := [];
    var best: Option<Connection> := None;
    for i := 0 to |ordered|
      invariant candidates == EvidenceOf(ordered[..i], ctx)
      invariant best == Best(ordered[..i], ctx)
    {
      var conn := ordered[i];
      var snapshot := Evidence(conn, ctx);
      candidates := candidates + [snapshot];
      assert ordered[..i + 1][..i] == ordered[..i];
      if snapshot.eligible && (best.None? || Better(conn, best.value, ctx.health)) {
        best := Some(conn);
      }
    }
    assert ordered[..|ordered|] == ordered;
    SelectionIsFirstChoice(connections, ctx);
    CandidatesAreTrue(connections, ctx);
    result := RouteResult(best, candidates);
  }

  // ---------- The ranking is a strict total order ----------

  lemma {:induction false} IdLessTransitive(a: string, b: string, c: string)
    requires IdLess(a, b) && IdLess(b, c)
    ensures IdLess(a, c)
  {
    if a != "" && a[0] == b[0] == c[0] {
      IdLessTransitive(a[1..], b[1..], c[1..]);
    }
  }

  lemma {:induction false} IdLessTotal(a: string, b: string)
    ensures !(IdLess(a, b) && IdLess(b, a))
    ensures a != b <==> IdLess(a, b) || IdLess(b, a)
  {
    if a != "" && b != "" {
      IdLessTotal(a[1..], b[1..]);
      assert a == [a[0]] + a[1..] && b == [b[0]] + b[1..];
    }
  }

  // Closed circuits come before half-open ones, and those before open ones; then the higher
  // score comes first, where a connection without a snapshot counts as one half; then the
  // lower priority number, then the identifier.
  predicate RanksAbove(a: Connection, b: Connection, health: Health) {
    var scoreA := if a.id in health then health[a.id].healthScore else 0.5;
    var scoreB := if b.id in health then health[b.id].healthScore else 0.5;
    || (a.circuit == Closed && b.circuit != Closed)
    || (a.circuit == HalfOpen && b.circuit == Open)
    || (a.circuit == b.circuit
        && (|| scoreA > scoreB
            || (scoreA == scoreB && (a.priority < b.priority || (a.priority == b.priority && IdLess(a.id, b.id))))))
  }

  // The first n characters agree; then a ends, or has the smaller character.
  predicate DiffersAt(a: string, b: string, n: nat) {
    n <= |a| && n < |b| && a[..n] == b[..n] && (n == |a| || a[n] < b[n])
  }

  lemma DiffersLater(a: string, b: string, n: nat)
    requires DiffersAt(a, b, n)
    ensures n > 0 ==> a != "" && b != "" && a[0] == b[0]
  {
    if n > 0 { assert a[0] == a[..n][0] && b[0] == b[..n][0]; }
  }

  lemma {:induction false} IdLessIsLexicographic(a: string, b: string)
    ensures IdLess(a, b) <==> exists n: nat :: DiffersAt(a, b, n)
  {
    if a == "" || b == "" {
      if b != "" { assert DiffersAt(a, b, 0); }
    } else if a[0] != b[0] {
      if a[0] < b[0] { assert DiffersAt(a, b, 0); }
      forall n: nat | DiffersAt(a, b, n) ensures n == 0 { DiffersLater(a, b, n); }
    } else {
      IdLessIsLexicographic(a[1..], b[1..]);
      if n: nat :| DiffersAt(a[1..], b[1..], n) {
        assert a[..n + 1] == [a[0]] + a[1..][..n] && b[..n + 1] == [b[0]] + b[1..][..n];
        assert DiffersAt(a, b, n + 1);
      }
      if n: nat :| DiffersAt(a, b, n) {
        assert n > 0;
        assert a[1..][..n - 1] == a[..n][1..] && b[1..][..n - 1] == b[..n][1..];
        assert DiffersAt(a[1..], b[1..], n - 1);
      }
    }
  }

  lemma BetterIsRanking(health: Health)
    ensures forall a, b :: Better(a, b, health) <==> RanksAbove(a, b, health)
  {
  }

  lemma IdLessIsStrictTotal()
    ensures forall a: string :: !IdLess(a, a)
    ensures forall a, b, c :: IdLess(a, b) && IdLess(b, c) ==> IdLess(a, c)
    ensures forall a, b :: a != b ==> IdLess(a, b) || IdLess(b, a)
  {
    forall a: string ensures !IdLess(a, a) { IdLessTotal(a, a); }
    forall a, b, c | IdLess(a, b) && IdLess(b, c) ensures IdLess(a, c) { IdLessTransitive(a, b, c); }
    forall a, b | a != b ensures IdLess(a, b) || IdLess(b, a) { IdLessTotal(a, b); }
  }

  lemma ListingIsStrictWeak()
    ensures StrictWeak(ListedBefore)
    ensures forall a: Connection, b: Connection :: a.id != b.id ==> ListedBefore(a, b) || ListedBefore(b, a)
  {
    IdLessIsStrictTotal();
  }

  // `betterCandidate` is a strict weak order, total on connections with distinct identifiers.
  lemma BetterIsStrictTotal(health: Health)
    ensures StrictWeak(ByRank(health))
    ensures forall a: Connection, b: Connection :: a.id != b.id ==> Better(a, b, health) || Better(b, a, health)
  {
    ListingIsStrictWeak();
    BetterIsRanking(health);
    var less := ByRank(health);
    forall a, b, c | less(a, b) && less(b, c) ensures less(a, c) {
      assert RanksAbove(a, b, health) && RanksAbove(b, c, health);
      assert RanksAbove(a, c, health);
    }
    forall a, b, c | less(a, c) ensures less(a, b) || less(b, c) {
      assert RanksAbove(a, c, health);
      assert RanksAbove(a, b, health) || RanksAbove(b, c, health);
    }
  }

  lemma BetterTransitive(a: Connection, b: Connection, c: Connection, health: Health)
    ensures !Better(a, a, health)
    ensures Better(a, b, health) && Better(b, c, health) ==> Better(a, c, health)
  {
    BetterIsStrictTotal(health);
    var less := ByRank(health);
    assert !less(a, a);
    assert less(a, b) && less(b, c) ==> less(a, c);
  }

  // ---------- Selection is the minimum of the eligible connections ----------

  ghost predicate DistinctIds(s: seq<Connection>) {
    forall i, j :: 0 <= i < j < |s| ==> s[i].id != s[j].id
  }

  lemma SameId(x: Connection, y: Connection, s: seq<Connection>)
    requires DistinctIds(s) && x in s && y in s
    ensures x.id == y.id <==> x == y
  {
    var i :| 0 <= i < |s| && s[i] == x;
    var j :| 0 <= j < |s| && s[j] == y;
    assert s[i].id == s[j].id ==> i == j;
  }

  // No eligible member of s beats the choice; there is a choice unless nothing is eligible.
  ghost predicate IsArgmin(choice: Option<Connection>, s: seq<Connection>, ctx: Context) {
    match choice
    case None => forall d :: d in s ==> !Eligible(d, ctx)
    case Some(c) =>
      && c in s && Eligible(c, ctx)
      && forall d :: d in s && Eligible(d, ctx) ==> !Better(d, c, ctx.health)
  }

  lemma {:induction false} BestIsArgmin(s: seq<Connection>, ctx: Context)
    ensures IsArgmin(Best(s, ctx), s, ctx)
  {
    if s != [] {
      var rest, last := s[..|s| - 1], s[|s| - 1];
      BestIsArgmin(rest, ctx);
      BetterIsStrictTotal(ctx.health);
      assert s == rest + [last];
      BetterTransitive(last, last, last, ctx.health);
      var best := Best(rest, ctx);
      if best.Some? && Eligible(last, ctx) && Better(last, best.value, ctx.health) {
        forall d | d in rest && Eligible(d, ctx) ensures !Better(d, last, ctx.health) {
          BetterTransitive(d, last, best.value, ctx.health);
        }
      }
    }
  }

  lemma SelectionIsArgmin(connections: seq<Connection>, ctx: Context)
    ensures IsArgmin(Selection(connections, ctx).selected, connections, ctx)
  {
    var ordered := Ordered(connections);
    BestIsArgmin(ordered, ctx);
    forall d ensures d in ordered <==> d in connections { SameElements(ordered, connections, d); }
  }

  // A selection is the only connection that can be one: argmins over sets agree.
  lemma ArgminUnique(x: Option<Connection>, y: Option<Connection>, s: seq<Connection>, ctx: Context)
    requires DistinctIds(s)
    requires IsArgmin(x, s, ctx) && IsArgmin(y, s, ctx)
    ensures x == y
  {
    if x.Some? && y.Some? {
      BetterIsStrictTotal(ctx.health);
      SameId(x.value, y.value, s);
    }
  }

  lemma SelectionIgnoresOrder(a: seq<Connection>, b: seq<Connection>, ctx: Context)
    requires multiset(a) == multiset(b) && DistinctIds(a)
    ensures Selection(a, ctx).selected == Selection(b, ctx).selected
  {
    SelectionIsArgmin(a, ctx);
    SelectionIsArgmin(b, ctx);
    forall d ensures d in a <==> d in b { SameElements(a, b, d); }
    ArgminUnique(Selection(a, ctx).selected, Selection(b, ctx).selected, a, ctx);
  }

  // Excluding a connection that was not going to be selected changes nothing.
  lemma SelectionIgnoresLosers(s: seq<Connection>, ctx: Context, loser: string)
    requires DistinctIds(s)
    requires var chosen := Selection(s, ctx).selected; chosen.Some? ==> chosen.value.id != loser
    ensures Selection(s, ctx.(excluded := ctx.excluded + {loser})).selected == Selection(s, ctx).selected
  {
    var ctx' := ctx.(excluded := ctx.excluded + {loser});
    SelectionIsArgmin(s, ctx);
    SelectionIsArgmin(s, ctx');
    assert forall d :: Eligible(d, ctx') <==> Eligible(d, ctx) && d.id != loser;
    assert IsArgmin(Selection(s, ctx).selected, s, ctx');
    ArgminUnique(Selection(s, ctx).selected, Selection(s, ctx').selected, s, ctx');
  }

  // The evidence lists every connection once, by (priority, identifier), and marks
  // the selected one eligible.
  lemma EvidenceIsSortedPermutation(connections: seq<Connection>, ctx: Context)
    ensures var r := Selection(connections, ctx);
            && multiset(Ordered(connections)) == multiset(connections)
            && Sorted(Ordered(connections), ListedBefore)
            && |r.candidates| == |connections|
            && (forall i :: 0 <= i < |r.candidates| ==> r.candidates[i] == Evidence(Ordered(connections)[i], ctx))
            && (r.selected.Some? ==>
                  exists i :: 0 <= i < |r.candidates|
                           && r.candidates[i].connectionId == r.selected.value.id && r.candidates[i].eligible)
  {
    ListingIsStrictWeak();
    SortSorted(connections, ListedBefore);
    var ordered := Ordered(connections);
    if connections != [] { SameElements(ordered, connections, connections[0]); }
    else { assert |multiset(ordered)| == 0; }
    BestIsArgmin(ordered, ctx);
    var r := Selection(connections, ctx);
    if r.selected.Some? {
      var i :| 0 <= i < |ordered| && ordered[i] == r.selected.value;
      assert r.candidates[i] == Evidence(ordered[i], ctx);
    }
  }

  // What the dispatch loop relies on.
  lemma SelectionSound(connections: seq<Connection>, ctx: Context)
    ensures var r := Selection(connections, ctx);
            r.selected.Some? ==>
              && r.selected.value in connections
              && r.selected.value.id !in ctx.excluded
              && r.selected.value.environment == ctx.environment
              && r.selected.value.circuit != Open
              && exists i :: 0 <= i < |r.candidates|
                          && r.candidates[i].connectionId == r.selected.value.id && r.candidates[i].eligible
  {
    SelectionIsArgmin(connections, ctx);
    EvidenceIsSortedPermutation(connections, ctx);
  }

  // ---------- What the checks amount to ----------

  // Without a catalog every connector can do everything.
  predicate Supports(catalog: Option<map<string, set<string>>>, providerKey: string, capability: string) {
    catalog == None || (providerKey in catalog.value && capability in catalog.value[providerKey])
  }

  // A connection that may be asked.
  predicate Qualifies(conn: Connection, ctx: Context) {
    && Supports(ctx.catalog, conn.providerKey, ctx.capability)
    && conn.id !in ctx.excluded && conn.enabled && conn.environment == ctx.environment && conn.credentialsValid
    && conn.circuit != Open
  }

  // The reason that a candidate's row gives is the first check that its connection fails.
  predicate Explains(reason: Exclusion, conn: Connection, ctx: Context) {
    match reason
    case ConnectorNotRegistered => ctx.catalog.Some? && conn.providerKey !in ctx.catalog.value
    case CapabilityUnsupported =>
      ctx.catalog.Some? && conn.providerKey in ctx.catalog.value && ctx.capability !in ctx.catalog.value[conn.providerKey]
    case AlreadyAttempted => Supports(ctx.catalog, conn.providerKey, ctx.capability) && conn.id in ctx.excluded
    case Disabled => Supports(ctx.catalog, conn.providerKey, ctx.capability) && conn.id !in ctx.excluded && !conn.enabled
    case WrongEnvironment =>
      && Supports(ctx.catalog, conn.providerKey, ctx.capability) && conn.id !in ctx.excluded && conn.enabled
      && conn.environment != ctx.environment
    case InvalidCredentials =>
      && Supports(ctx.catalog, conn.providerKey, ctx.capability) && conn.id !in ctx.excluded && conn.enabled
      && conn.environment == ctx.environment && !conn.credentialsValid
    case CircuitOpen =>
      && Supports(ctx.catalog, conn.providerKey, ctx.capability) && conn.id !in ctx.excluded && conn.enabled
      && conn.environment == ctx.environment && conn.credentialsValid && conn.circuit == Open
    case NotExcluded => Qualifies(conn, ctx)
  }

  // What a candidate's row says about its connection.
  predicate Describes(row: Candidate, conn: Connection, ctx: Context) {
    && row.connectionId == conn.id && row.providerKey == conn.providerKey && row.priority == conn.priority
    && (row.eligible <==> Qualifies(conn, ctx))
    && Explains(row.exclusion, conn, ctx)
    && (if conn.id in ctx.health then row.score == ctx.health[conn.id].healthScore && row.evidence == Some(ctx.health[conn.id])
        else row.score == 0.5 && row.evidence == None)
  }

  // Every connection has its row, by priority and then identifier, and the row tells the truth.
  ghost predicate RowsAreTrue(rows: seq<Candidate>, connections: seq<Connection>, ctx: Context) {
    exists ordered: seq<Connection> ::
      && multiset(ordered) == multiset(connections) && |rows| == |ordered|
      && (forall i :: 0 <= i < |rows| ==> Describes(rows[i], ordered[i], ctx))
      && (forall i, j :: 0 <= i < j < |ordered| ==>
            ordered[i].priority < ordered[j].priority
            || (ordered[i].priority == ordered[j].priority && !IdLess(ordered[j].id, ordered[i].id)))
  }

  lemma CandidatesAreTrue(connections: seq<Connection>, ctx: Context)
    ensures RowsAreTrue(Selection(connections, ctx).candidates, connections, ctx)
  {
    EvidenceIsSortedPermutation(connections, ctx);
    var rows, ordered := Selection(connections, ctx).candidates, Ordered(connections);
    forall i | 0 <= i < |rows| ensures Describes(rows[i], ordered[i], ctx) { EvidenceIsTrue(ordered[i], ctx); }
  }

  lemma EvidenceIsTrue(conn: Connection, ctx: Context)
    ensures Describes(Evidence(conn, ctx), conn, ctx)
    ensures Eligible(conn, ctx) <==> Qualifies(conn, ctx)
  {
  }

  // The choice is a connection that may be asked, and none that may be asked ranks above it;
  // there is no choice exactly when none may be asked.
  ghost predicate IsFirstChoice(choice: Option<Connection>, connections: seq<Connection>, ctx: Context) {
    match choice
    case None => forall c :: c in connections ==> !Qualifies(c, ctx)
    case Some(c) =>
      && c in connections && Qualifies(c, ctx)
      && forall d :: d in connections && Qualifies(d, ctx) ==> !RanksAbove(d, c, ctx.health)
  }

  lemma SelectionIsFirstChoice(connections: seq<Connection>, ctx: Context)
    ensures IsFirstChoice(Selection(connections, ctx).selected, connections, ctx)
  {
    SelectionIsArgmin(connections, ctx);
    BetterIsRanking(ctx.health);
    forall c ensures Eligible(c, ctx) <==> Qualifies(c, ctx) { EvidenceIsTrue(c, ctx); }
  }

  // ---------- The order in which repeated selection visits connections ----------

  // Select, exclude the selected connection, and select again, at most n times.
  function Visits(connections: seq<Connection>, ctx: Context, n: nat): seq<Connection>
    decreases n
  {
    var chosen := Selection(connections, ctx).selected;
    if n == 0 || chosen.None? then []
    else [chosen.value] + Visits(connections, ctx.(excluded := ctx.excluded + {chosen.value.id}), n - 1)
  }

  function EligibleOnly(s: seq<Connection>, ctx: Context): (r: seq<Connection>)
    ensures forall d :: d in r <==> d in s && Eligible(d, ctx)
  {
    if s == [] then []
    else
      assert s == [s[0]] + s[1..];
      (if Eligible(s[0], ctx) then [s[0]] else []) + EligibleOnly(s[1..], ctx)
  }

  function Ranking(connections: seq<Connection>, ctx: Context): seq<Connection> {
    Sort(EligibleOnly(connections, ctx), ByRank(ctx.health))
  }

  lemma DropHead(s: seq<Connection>, ctx: Context)
    requires s != [] && DistinctIds(s) && Eligible(s[0], ctx)
    ensures multiset(EligibleOnly(s, ctx.(excluded := ctx.excluded + {s[0].id})))
         == multiset(EligibleOnly(s, ctx)) - multiset{s[0]}
  {
    var ctx' := ctx.(excluded := ctx.excluded + {s[0].id});
    assert forall i :: 0 < i < |s| ==> s[0].id != s[i].id;
    KeepAll(s[1..], ctx, s[0].id);
    assert EligibleOnly(s, ctx') == EligibleOnly(s[1..], ctx);
    RemoveHead(s[0], EligibleOnly(s[1..], ctx));
  }

  lemma {:induction false} DropOne(s: seq<Connection>, ctx: Context, x: Connection)
    requires DistinctIds(s) && x in s && Eligible(x, ctx)
    ensures multiset(EligibleOnly(s, ctx.(excluded := ctx.excluded + {x.id})))
         == multiset(EligibleOnly(s, ctx)) - multiset{x}
  {
    SameId(s[0], x, s);
    if s[0] == x {
      DropHead(s, ctx);
    } else {
      var ctx' := ctx.(excluded := ctx.excluded + {x.id});
      DropOne(s[1..], ctx, x);
      var head := if Eligible(s[0], ctx) then [s[0]] else [];
      assert EligibleOnly(s, ctx) == head + EligibleOnly(s[1..], ctx);
      assert EligibleOnly(s, ctx') == head + EligibleOnly(s[1..], ctx');
      RemoveBehind(head, EligibleOnly(s[1..], ctx), EligibleOnly(s[1..], ctx'), x);
    }
  }

  lemma {:induction false} KeepAll(s: seq<Connection>, ctx: Context, id: string)
    requires forall d :: d in s ==> d.id != id
    ensures EligibleOnly(s, ctx.(excluded := ctx.excluded + {id})) == EligibleOnly(s, ctx)
  {
    if s != [] {
      assert s[0] in s;
      KeepAll(s[1..], ctx, id);
    }
  }

  lemma RankingIsSorted(connections: seq<Connection>, ctx: Context)
    requires DistinctIds(connections)
    ensures StrictWeak(ByRank(ctx.health))
    ensures Sorted(Ranking(connections, ctx), ByRank(ctx.health))
    ensures TiesAreEqual(Ranking(connections, ctx), ByRank(ctx.health))
    ensures forall d :: d in Ranking(connections, ctx) <==> d in connections && Eligible(d, ctx)
  {
    BetterIsStrictTotal(ctx.health);
    var less := ByRank(ctx.health);
    var eligible := EligibleOnly(connections, ctx);
    SortSorted(eligible, less);
    forall d ensures d in Ranking(connections, ctx) <==> d in eligible {
      SameElements(Ranking(connections, ctx), eligible, d);
    }
    forall x, y | x in Ranking(connections, ctx) && y in Ranking(connections, ctx) && !less(x, y) && !less(y, x)
      ensures x == y
    {
      SameId(x, y, connections);
    }
  }

  // The ranking holds the connections that may be asked, and each one ranks above those after it.
  lemma RankingIsInOrder(connections: seq<Connection>, ctx: Context)
    requires DistinctIds(connections)
    ensures var ranking := Ranking(connections, ctx);
            && (forall d :: d in ranking <==> d in connections && Qualifies(d, ctx))
            && (forall i, j :: 0 <= i < j < |ranking| ==> RanksAbove(ranking[i], ranking[j], ctx.health))
  {
    RankingIsSorted(connections, ctx);
    EligibleAreDistinct(connections, ctx);
    DistinctAnyOrder(EligibleOnly(connections, ctx), Ranking(connections, ctx));
    BetterIsRanking(ctx.health);
    forall d ensures Eligible(d, ctx) <==> Qualifies(d, ctx) { EvidenceIsTrue(d, ctx); }
    var ranking, less := Ranking(connections, ctx), ByRank(ctx.health);
    forall i, j | 0 <= i < j < |ranking| ensures RanksAbove(ranking[i], ranking[j], ctx.health) {
      assert ranking[i] in ranking && ranking[j] in ranking;
      assert !less(ranking[j], ranking[i]);
    }
  }

  lemma {:induction false} EligibleAreDistinct(s: seq<Connection>, ctx: Context)
    requires DistinctIds(s)
    ensures DistinctIds(EligibleOnly(s, ctx))
  {
    if s != [] {
      EligibleAreDistinct(s[1..], ctx);
      assert forall d :: d in s[1..] ==> d.id != s[0].id;
    }
  }

  lemma DistinctAnyOrder(a: seq<Connection>, b: seq<Connection>)
    requires DistinctIds(a) && multiset(a) == multiset(b)
    ensures DistinctIds(b)
  {
    forall i, j | 0 <= i < j < |b| ensures b[i].id != b[j].id {
      SameElements(a, b, b[i]);
      SameElements(a, b, b[j]);
      SameId(b[i], b[j], a);
      if b[i] == b[j] {
        assert b == b[..j] + b[j..] && b[i] in b[..j] && b[j] in b[j..];
        assert multiset(b)[b[i]] >= 2;
        CountsOnce(a, b[i]);
      }
    }
  }

  lemma {:induction false} CountsOnce(s: seq<Connection>, x: Connection)
    requires DistinctIds(s)
    ensures multiset(s)[x] <= 1
  {
    if s != [] {
      CountsOnce(s[1..], x);
      assert s == [s[0]] + s[1..];
      assert forall d :: d in s[1..] ==> d.id != s[0].id;
      if x == s[0] { assert x !in s[1..]; }
    }
  }

  lemma SelectionHeadsRanking(connections: seq<Connection>, ctx: Context)
    requires DistinctIds(connections)
    ensures var chosen, ranking := Selection(connections, ctx).selected, Ranking(connections, ctx);
            if ranking == [] then chosen == None else chosen == Some(ranking[0])
  {
    var ranking := Ranking(connections, ctx);
    var less := ByRank(ctx.health);
    RankingIsSorted(connections, ctx);
    SelectionIsArgmin(connections, ctx);
    if ranking != [] {
      assert ranking[0] in ranking;
      forall d | d in connections && Eligible(d, ctx) ensures !Better(d, ranking[0], ctx.health) {
        HeadIsLeast(ranking, d, less);
      }
      assert IsArgmin(Some(ranking[0]), connections, ctx);
      ArgminUnique(Some(ranking[0]), Selection(connections, ctx).selected, connections, ctx);
    } else {
      assert forall d :: d in connections && Eligible(d, ctx) ==> d in ranking;
    }
  }

  lemma RankingTail(connections: seq<Connection>, ctx: Context)
    requires DistinctIds(connections) && Ranking(connections, ctx) != []
    ensures var ranking := Ranking(connections, ctx);
            Ranking(connections, ctx.(excluded := ctx.excluded + {ranking[0].id})) == ranking[1..]
  {
    hide Eligible, Better;
    var ranking := Ranking(connections, ctx);
    var less := ByRank(ctx.health);
    var ctx' := ctx.(excluded := ctx.excluded + {ranking[0].id});
    RankingIsSorted(connections, ctx);
    RankingIsSorted(connections, ctx');
    assert ranking[0] in ranking;
    DropOne(connections, ctx, ranking[0]);
    TailSorted(ranking, less);
    assert TiesAreEqual(ranking[1..], less);
    SortedUnique(ranking[1..], Ranking(connections, ctx'), less);
  }

  // Fallback follows the ranking: n selections visit exactly the first n eligible
  // connections in rank order, or all of them when there are fewer.
  lemma {:induction false} VisitsFollowRanking(connections: seq<Connection>, ctx: Context, n: nat)
    requires DistinctIds(connections)
    ensures var ranking := Ranking(connections, ctx);
            Visits(connections, ctx, n) == ranking[..if n < |ranking| then n else |ranking|]
    decreases n
  {
    hide Selection, Ranking, Eligible;
    var ranking := Ranking(connections, ctx);
    SelectionHeadsRanking(connections, ctx);
    if n > 0 && ranking != [] {
      var ctx' := ctx.(excluded := ctx.excluded + {ranking[0].id});
      var k := if n < |ranking| then n else |ranking|;
      RankingTail(connections, ctx);
      VisitsFollowRanking(connections, ctx', n - 1);
      assert Visits(connections, ctx, n) == [ranking[0]] + Visits(connections, ctx', n - 1);
      PrefixCons(ranking, k);
    }
  }
}
