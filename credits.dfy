/**
 * The credit rules of `src/lib/credits.js`. The `refill_daily_credits`
 * procedure call and the `users` update are Supabase calls, so their
 * outcomes are parameters; what is modelled is how the module maps them to
 * a balance, when it refuses a deduction and what balance it writes.
 */
module Credits {
  import opened Wrappers

  /** What `supabase.rpc('refill_daily_credits', ...)` gives back: the
      `credits_updated` column of each returned row, a `null` data field, or
      an error. */
  datatype Rpc = RpcRows(rows: seq<int>) | RpcNull | RpcError(message: string)

  /** A `users` row as `.update(...).select().single()` returns it. */
  datatype UserRow = UserRow(id: string, credits: int)

  /** What the update call gives back. */
  datatype Write = Written(row: UserRow) | WriteError(message: string)

  const InsufficientCredits := "Insufficient credits"

  /** `getUserCredits`: `None` is the `null` the function returns on error. */
  function GetUserCredits(userId: string, rpc: Rpc): (r: Option<int>)
    ensures userId == "" ==> r == Some(0)
    ensures userId != "" ==> (r.None? <==> !rpc.RpcRows?)
    ensures userId != "" && rpc.RpcRows? && rpc.rows == [] ==> r == Some(0)
    ensures userId != "" && rpc.RpcRows? && rpc.rows != [] ==> r == Some(rpc.rows[0])
  {
    if userId == "" then Some(0)
    else
      match rpc
      case RpcError(_) => None
      // `data.length` of a null `data` throws inside the `try`
      case RpcNull => None
      case RpcRows(rows) => if |rows| > 0 then Some(rows[0]) else Some(0)
  }

  /** The outcome of `deductUserCredits`: the balance it asked the database
      to store, if it got that far, and what the call resolves or rejects with. */
  datatype Deduction = Deduction(written: Option<int>, result: Result<UserRow, string>)

  /** The balance check: a known balance at least as large as the amount. */
  predicate Sufficient(current: Option<int>, amount: int) {
    current.Some? && current.value >= amount
  }

  /** `deductUserCredits`: `write` is consulted only when an update is sent. */
  function DeductUserCredits(userId: string, amount: int, rpc: Rpc, write: Write): (d: Deduction)
    ensures var current := GetUserCredits(userId, rpc);
            && (d.written.Some? <==> Sufficient(current, amount))
            && (d.written.Some? ==> d.written.value + amount == current.value && d.written.value >= 0)
            && (d.written.None? ==> d.result == Failure(InsufficientCredits))
            && (d.written.Some? && write.WriteError? ==> d.result == Failure(write.message))
            && (d.written.Some? && write.Written? ==> d.result == Success(write.row))
  {
    var current := GetUserCredits(userId, rpc);
    if current.None? || current.value < amount then
      Deduction(None, Failure(InsufficientCredits))
    else
      Deduction(Some(current.value - amount),
                if write.WriteError? then Failure(write.message) else Success(write.row))
  }

  /** Spending the whole balance is allowed and leaves zero. */
  lemma SpendEverything(userId: string, balance: int, write: Write)
    requires userId != ""
    ensures DeductUserCredits(userId, balance, RpcRows([balance]), write).written == Some(0)
  {
  }

  /** One credit more than the balance is refused, and so is any deduction
      whose balance could not be read. */
  lemma Overspend(userId: string, balance: int, message: string, write: Write)
    requires userId != ""
    ensures DeductUserCredits(userId, balance + 1, RpcRows([balance]), write)
              == Deduction(None, Failure(InsufficientCredits))
    ensures forall amount :: DeductUserCredits(userId, amount, RpcError(message), write)
              == Deduction(None, Failure(InsufficientCredits))
  {
  }

  /** Without a user id the balance reads as 0: only an amount of at most 0
      passes the balance test. */
  lemma MissingUser(amount: int, rpc: Rpc, write: Write)
    ensures DeductUserCredits("", amount, rpc, write).written.Some? <==> amount <= 0
  {
  }

  /** A deduction that succeeds never leaves a negative balance, and two
      deductions in a row on the balance the first wrote use up exactly the
      sum of the two amounts. */
  lemma DeductTwice(userId: string, first: int, second: int, balance: int, w1: Write, w2: Write)
    requires userId != ""
    requires 0 <= first && 0 <= second && first + second <= balance
    ensures var d1 := DeductUserCredits(userId, first, RpcRows([balance]), w1);
            && d1.written == Some(balance - first)
            && DeductUserCredits(userId, second, RpcRows([d1.written.value]), w2).written
                 == Some(balance - first - second)
  {
  }
}
