/** Token budgets of the firewall: checking whether a user may spend more
    tokens and recording tokens spent, over a budget table keyed by user. */
module SentryBudget {
  import opened Common

  const Int64Min: int := -0x8000_0000_0000_0000
  const Int64Max: int := 0x7fff_ffff_ffff_ffff
  const TwoTo64: int := 0x1_0000_0000_0000_0000

  /** Go's int64. */
  type Int64 = i: int | -0x8000_0000_0000_0000 <= i <= 0x7fff_ffff_ffff_ffff

  /** Two's-complement wrap-around of an exact result into int64. */
  function Wrap64(x: int): (r: Int64)
    ensures Int64Min <= x <= Int64Max ==> r == x
    ensures (x - r) % TwoTo64 == 0
  {
    var m := (x - Int64Min) % TwoTo64;
    assert x - (m + Int64Min) == ((x - Int64Min) / TwoTo64) * TwoTo64;
    m + Int64Min
  }

  /** int64 addition, as Go evaluates `a + b`. */
  function Add64(a: Int64, b: Int64): (r: Int64)
    ensures Int64Min <= a + b <= Int64Max ==> r == a + b
    ensures a + b > Int64Max ==> r == a + b - TwoTo64
    ensures a + b < Int64Min ==> r == a + b + TwoTo64
  {
    var r := Wrap64(a + b);
    if a + b > Int64Max then
      assert r == a + b - TwoTo64 by { WrapInto(a + b, a + b - TwoTo64); }
      r
    else if a + b < Int64Min then
      assert r == a + b + TwoTo64 by { WrapInto(a + b, a + b + TwoTo64); }
      r
    else r
  }

  /** Two int64 values congruent modulo 2^64 are equal. */
  lemma WrapInto(x: int, y: int)
    requires Int64Min <= y <= Int64Max && (x - y) % TwoTo64 == 0
    ensures Wrap64(x) == y
  {
    var r := Wrap64(x);
    assert (r - y) % TwoTo64 == 0 by {
      assert r - y == (x - y) - (x - r);
    }
  }

  /** A user's budget cap for one period. */
  datatype BudgetCap = BudgetCap(
    id: Uuid,
    userId: Uuid,
    period: string,
    maxTokens: Int64,
    usedTokens: Int64,
    resetAt: Time,
    createdAt: Time)

  // ---------------------------------------------------------------------
  // The decision
  // ---------------------------------------------------------------------

  /** Check's decision on the budget lookup, exactly as the code computes it:
      a missing budget (ErrNotFound) allows, any other lookup error refuses
      with that error (`Err(e)` stands for `(false, e)`), and a budget allows
      iff the int64 sum `UsedTokens + tokens` does not exceed the cap. */
  function AllowsAsWritten(got: Result<BudgetCap>, tokens: Int64): (r: Result<bool>)
    ensures got.Err? && Is(got.error, NotFound) ==> r == Ok(true)
    ensures got.Err? && !Is(got.error, NotFound) ==> r == Err(got.error)
    ensures got.Ok? ==> r.Ok? && (r.value <==> Add64(got.value.usedTokens, tokens) <= got.value.maxTokens)
  {
    match got
    case Err(e) => if Is(e, NotFound) then Ok(true) else Err(e)
    case Ok(b) => Ok(Add64(b.usedTokens, tokens) <= b.maxTokens)
  }

  /** The evident intent: the spend fits iff used plus requested, as exact
      integers, is at most the cap (the boundary is allowed). */
  function Allows(got: Result<BudgetCap>, tokens: Int64): (r: Result<bool>)
    ensures got.Err? && Is(got.error, NotFound) ==> r == Ok(true)
    ensures got.Err? && !Is(got.error, NotFound) ==> r == Err(got.error)
    ensures got.Ok? ==> r.Ok? && (r.value <==> got.value.usedTokens + tokens <= got.value.maxTokens)
  {
    match got
    case Err(e) => if Is(e, NotFound) then Ok(true) else Err(e)
    case Ok(b) => Ok(b.usedTokens + tokens <= b.maxTokens)
  }

  /** The two agree whenever the sum fits in an int64. */
  lemma AllowsAgreeWithoutOverflow(got: Result<BudgetCap>, tokens: Int64)
    requires got.Ok? ==> Int64Min <= got.value.usedTokens + tokens <= Int64Max
    ensures AllowsAsWritten(got, tokens) == Allows(got, tokens)
  {
  }

  /** The overflow: one token used of a cap of 100, and a request for the
      largest int64 number of tokens. The int64 sum wraps to a negative
      number and the request is allowed; the intended check refuses it. */
  lemma AllowsAsWrittenOverflow()
    ensures var b := BudgetCap(0, 0, "daily", 100, 1, 0, 0);
      AllowsAsWritten(Ok(b), Int64Max) == Ok(true) && Allows(Ok(b), Int64Max) == Ok(false)
  {
    assert Add64(1, Int64Max) == Int64Min;
  }

  /** The allowance is monotone: if a spend fits, any smaller spend fits. */
  lemma AllowsMonotone(got: Result<BudgetCap>, small: Int64, large: Int64)
    requires small <= large && Allows(got, large) == Ok(true)
    ensures Allows(got, small) == Ok(true)
  {
  }

  // ---------------------------------------------------------------------
  // The budget table and the tracker
  // ---------------------------------------------------------------------

  datatype BudgetRequest = GetBudgetRequest(userId: Uuid) | UpdateBudgetRequest(budget: BudgetCap)

  /** The row UpdateBudget leaves for a user who already has one: period,
      cap, usage and reset time are written; id and creation time stay. */
  function Upsert(stored: BudgetCap, b: BudgetCap): (r: BudgetCap)
    ensures r.id == stored.id && r.userId == stored.userId && r.createdAt == stored.createdAt
    ensures r.period == b.period && r.maxTokens == b.maxTokens && r.usedTokens == b.usedTokens && r.resetAt == b.resetAt
  {
    stored.(period := b.period, maxTokens := b.maxTokens, usedTokens := b.usedTokens, resetAt := b.resetAt)
  }

  /** The `budget_caps` table, one row per user. Requests may fail for
      reasons outside the model, as `fault` decides. */
  class BudgetRepository {
    const fault: (seq<BudgetRequest>, BudgetRequest) -> Option<Error>
    var budgets: map<Uuid, BudgetCap>
    var requests: seq<BudgetRequest>

    /** Every row is stored under its own user, as `WHERE user_id = $1`
        looks it up. */
    ghost predicate Valid()
      reads this
    {
      forall u :: u in budgets ==> budgets[u].userId == u
    }

    constructor (fault: (seq<BudgetRequest>, BudgetRequest) -> Option<Error>, budgets: map<Uuid, BudgetCap>)
      requires forall u :: u in budgets ==> budgets[u].userId == u
      ensures Valid()
      ensures this.fault == fault && this.budgets == budgets && requests == []
    {
      this.fault := fault;
      this.budgets := budgets;
      requests := [];
    }

    /** The answer to GetBudget(user): the row, or ErrNotFound. */
    function Fetched(history: seq<BudgetRequest>, budgets: map<Uuid, BudgetCap>, user: Uuid): (r: Result<BudgetCap>)
      ensures r.Ok? ==> user in budgets && r.value == budgets[user]
      ensures fault(history, GetBudgetRequest(user)).None? ==> (r.Ok? <==> user in budgets)
      ensures fault(history, GetBudgetRequest(user)).None? && user !in budgets ==> r == Err(Sentinel(NotFound))
    {
      match fault(history, GetBudgetRequest(user))
      case Some(e) => Err(e)
      case None => if user in budgets then Ok(budgets[user]) else Err(Sentinel(NotFound))
    }

    /** The table after a successful UpdateBudget(b): an insert, or an
        update of the user's existing row. */
    function Upserted(budgets: map<Uuid, BudgetCap>, b: BudgetCap): (r: map<Uuid, BudgetCap>)
      ensures r.Keys == budgets.Keys + {b.userId}
      ensures forall u :: u in budgets && u != b.userId ==> r[u] == budgets[u]
      ensures b.userId !in budgets ==> r[b.userId] == b
      ensures b.userId in budgets ==> r[b.userId] == Upsert(budgets[b.userId], b)
      ensures r[b.userId].usedTokens == b.usedTokens && r[b.userId].maxTokens == b.maxTokens
      ensures r[b.userId].period == b.period && r[b.userId].resetAt == b.resetAt
    {
      if b.userId in budgets then budgets[b.userId := Upsert(budgets[b.userId], b)] else budgets[b.userId := b]
    }

    method GetBudget(user: Uuid) returns (r: Result<BudgetCap>)
      requires Valid()
      modifies this
      ensures Valid()
      ensures r.Ok? ==> r.value.userId == user
      ensures r == Fetched(old(requests), old(budgets), user)
      ensures requests == old(requests) + [GetBudgetRequest(user)] && budgets == old(budgets)
    {
      r := Fetched(requests, budgets, user);
      requests := requests + [GetBudgetRequest(user)];
    }

    method UpdateBudget(b: BudgetCap) returns (r: Outcome)
      requires Valid()
      modifies this
      ensures Valid()
      ensures requests == old(requests) + [UpdateBudgetRequest(b)]
      ensures match fault(old(requests), UpdateBudgetRequest(b))
              case Some(e) => r == Fail(e) && budgets == old(budgets)
              case None => r == Pass && budgets == Upserted(old(budgets), b)
    {
      var f := fault(requests, UpdateBudgetRequest(b));
      requests := requests + [UpdateBudgetRequest(b)];
      if f.Some? {
        return Fail(f.value);
      }
      budgets := Upserted(budgets, b);
      r := Pass;
    }
  }

  /** The database-backed budget tracker. */
  class BudgetTracker {
    const repo: BudgetRepository

    constructor (repo: BudgetRepository)
      ensures this.repo == repo
    {
      this.repo := repo;
    }

    /** Check: reads the user's budget and decides; never writes. */
    method Check(user: Uuid, tokens: Int64) returns (r: Result<bool>)
      requires repo.Valid()
      modifies repo
      ensures repo.Valid()
      ensures repo.fault(old(repo.requests), GetBudgetRequest(user)).None? && user !in old(repo.budgets) ==> r == Ok(true)
      ensures r == Allows(repo.Fetched(old(repo.requests), old(repo.budgets), user), tokens)
      ensures repo.requests == old(repo.requests) + [GetBudgetRequest(user)] && repo.budgets == old(repo.budgets)
    {
      var got := repo.GetBudget(user);
      r := Allows(got, tokens);
    }

    /** Increment: adds `tokens` to the user's usage (as int64 addition) and
        writes the budget back. A lookup error, ErrNotFound included, is
        returned without writing. */
    method Increment(user: Uuid, tokens: Int64) returns (r: Outcome)
      requires repo.Valid()
      modifies repo
      ensures repo.Valid()
      ensures r == Pass ==>
        && user in old(repo.budgets) && user in repo.budgets
        && repo.budgets[user] == old(repo.budgets)[user].(usedTokens := Add64(old(repo.budgets)[user].usedTokens, tokens))
      ensures var got := repo.Fetched(old(repo.requests), old(repo.budgets), user);
        var fetched := old(repo.requests) + [GetBudgetRequest(user)];
        && (got.Err? ==> r == Fail(got.error) && repo.requests == fetched && repo.budgets == old(repo.budgets))
        && (got.Ok? ==>
              var b := got.value.(usedTokens := Add64(got.value.usedTokens, tokens));
              && repo.requests == fetched + [UpdateBudgetRequest(b)]
              && match repo.fault(fetched, UpdateBudgetRequest(b))
                 case Some(e) => r == Fail(e) && repo.budgets == old(repo.budgets)
                 case None => r == Pass && repo.budgets == repo.Upserted(old(repo.budgets), b))
    {
      var got := repo.GetBudget(user);
      if got.Err? {
        return Fail(got.error);
      }
      var b := got.value;
      b := b.(usedTokens := Add64(b.usedTokens, tokens));
      r := repo.UpdateBudget(b);
    }
  }
}
