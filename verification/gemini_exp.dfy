/** The deterministic snippets of the tutorial script gemini-2.5-Pro-Exp.py:
    `sum_all`, `process_names`, `Dog.feed`, the encapsulated `BankAccount`
    with deposits, withdrawals and a private transaction log, the validating
    `Temperature` property, `check_age`, the `repeat` decorator that returns
    the last value, and the `count_up_to` generator. */
module GeminiExp {
  import opened PyBase
  import Generators

  // ---------------------------------------------------------------------------
  // sum_all(*numbers)

  /** The sum of a sequence of numbers, the reference for `sum_all`. */
  function Sum(xs: seq<int>): int
  {
    if xs == [] then 0 else xs[0] + Sum(xs[1..])
  }

  /** Summing a concatenation sums the parts. */
  lemma {:induction false} SumAppend(xs: seq<int>, ys: seq<int>)
    ensures Sum(xs + ys) == Sum(xs) + Sum(ys)
  {
    if xs == [] {
      assert xs + ys == ys;
    } else {
      assert (xs + ys)[1..] == xs[1..] + ys;
      SumAppend(xs[1..], ys);
    }
  }

  /** `sum_all` adds its arguments left to right starting from 0. */
  method SumAll(numbers: seq<int>) returns (total: int)
    ensures total == Sum(numbers)
  {
    total := 0;
    var i := 0;
    while i < |numbers|
      invariant 0 <= i <= |numbers|
      invariant total == Sum(numbers[..i])
    {
      assert numbers[..i + 1] == numbers[..i] + [numbers[i]];
      SumAppend(numbers[..i], [numbers[i]]);
      total := total + numbers[i];
      i := i + 1;
    }
    assert numbers[..i] == numbers;
  }

  // ---------------------------------------------------------------------------
  // process_names(names)

  /** `max(names, key=len)` on a non-empty list, or None on an empty one:
      the FIRST name of greatest length, since `max` only replaces its
      candidate on a strictly longer name. */
  method ProcessNames(names: seq<string>) returns (r: Option<string>)
    ensures r == None <==> names == []
    ensures r.Some? ==> forall j :: 0 <= j < |names| ==> |names[j]| <= |r.value|
    ensures r.Some? ==> exists k :: 0 <= k < |names| && names[k] == r.value &&
                                    forall j :: 0 <= j < k ==> |names[j]| < |r.value|
  {
    if names == [] {
      return None;
    }
    var best := 0;
    var i := 1;
    while i < |names|
      invariant 1 <= i <= |names|
      invariant 0 <= best < i
      invariant forall j :: 0 <= j < i ==> |names[j]| <= |names[best]|
      invariant forall j :: 0 <= j < best ==> |names[j]| < |names[best]|
    {
      if |names[i]| > |names[best]| {
        best := i;
      }
      i := i + 1;
    }
    r := Some(names[best]);
  }

  // ---------------------------------------------------------------------------
  // Dog

  datatype Dog = Dog(name: string, breed: string, age: int, isHungry: bool)

  /** `Dog(name, breed, age)`: every new dog starts hungry. */
  function NewDog(name: string, breed: string, age: int): (d: Dog)
    ensures d.isHungry
    ensures d.name == name && d.breed == breed && d.age == age
  {
    Dog(name, breed, age, true)
  }

  /** `feed` leaves the dog not hungry and changes nothing else; a dog that
      is not hungry is left as it is. */
  function Feed(d: Dog): (r: Dog)
    ensures !r.isHungry
    ensures r.name == d.name && r.breed == d.breed && r.age == d.age
    ensures !d.isHungry ==> r == d
  {
    if d.isHungry then d.(isHungry := false) else d
  }

  /** Feeding twice is the same as feeding once. */
  lemma FeedIdempotent(d: Dog)
    ensures Feed(Feed(d)) == Feed(d)
  {
  }

  // ---------------------------------------------------------------------------
  // BankAccount

  /** One entry of the private transaction log; the source writes the entry
      as the text "Deposit: +amount" or "Withdrawal: -amount". */
  datatype LogEntry = Deposited(amount: real) | Withdrew(amount: real)

  datatype BankAccount = BankAccount(owner: string, balance: real, log: seq<LogEntry>)

  /** The balance change one log entry records. */
  function Delta(e: LogEntry): real
  {
    match e
    case Deposited(a) => a
    case Withdrew(a) => -a
  }

  /** The total balance change a log records. */
  function Net(log: seq<LogEntry>): real
  {
    if log == [] then 0.0 else Net(log[..|log| - 1]) + Delta(log[|log| - 1])
  }

  /** `BankAccount(owner, initial_balance)`: the initial balance is not
      checked, and the log starts empty. */
  function NewAccount(owner: string, initialBalance: real): (a: BankAccount)
    ensures a.owner == owner && a.balance == initialBalance && a.log == []
  {
    BankAccount(owner, initialBalance, [])
  }

  /** `deposit`: a positive amount is added and logged; any other amount is
      refused and nothing changes. */
  function Deposit(a: BankAccount, amount: real): (r: BankAccount)
    ensures amount > 0.0 ==> r.balance == a.balance + amount && r.log == a.log + [Deposited(amount)]
    ensures amount <= 0.0 ==> r == a
    ensures r.owner == a.owner
  {
    if amount > 0.0 then
      a.(balance := a.balance + amount, log := a.log + [Deposited(amount)])
    else
      a
  }

  /** `withdraw`: a non-positive amount and an amount above the balance are
      refused and nothing changes; otherwise the amount is subtracted and
      logged. */
  function Withdraw(a: BankAccount, amount: real): (r: BankAccount)
    ensures amount <= 0.0 || amount > a.balance ==> r == a
    ensures 0.0 < amount <= a.balance ==>
              r.balance == a.balance - amount && r.log == a.log + [Withdrew(amount)]
    ensures r.owner == a.owner
  {
    if amount <= 0.0 then a
    else if amount > a.balance then a
    else a.(balance := a.balance - amount, log := a.log + [Withdrew(amount)])
  }

  /** `get_balance` (and `_check_balance`). */
  function GetBalance(a: BankAccount): real
  {
    a.balance
  }

  /** `get_transaction_history` returns a copy of the log: a value here, so
      the caller can never alter the account's log through it. */
  function GetTransactionHistory(a: BankAccount): seq<LogEntry>
  {
    a.log[..]
  }

  /** A call made on an account. */
  datatype Op = DepositOp(amount: real) | WithdrawOp(amount: real)

  /** Whether the account accepts the operation (and so logs it). */
  predicate Accepts(a: BankAccount, op: Op)
  {
    match op
    case DepositOp(x) => x > 0.0
    case WithdrawOp(x) => 0.0 < x <= a.balance
  }

  function Apply(a: BankAccount, op: Op): BankAccount
  {
    match op
    case DepositOp(x) => Deposit(a, x)
    case WithdrawOp(x) => Withdraw(a, x)
  }

  /** The account after the calls `ops`, in order. */
  function Run(a: BankAccount, ops: seq<Op>): BankAccount
    decreases |ops|
  {
    if ops == [] then a else Run(Apply(a, ops[0]), ops[1..])
  }

  /** How many of the calls `ops` the account accepts along the run. */
  function Accepted(a: BankAccount, ops: seq<Op>): nat
    decreases |ops|
  {
    if ops == [] then 0
    else (if Accepts(a, ops[0]) then 1 else 0) + Accepted(Apply(a, ops[0]), ops[1..])
  }

  /** One call logs exactly when it is accepted, and a refused call changes
      nothing. */
  lemma ApplyLogsAccepted(a: BankAccount, op: Op)
    ensures Accepts(a, op) ==> Apply(a, op).log == a.log + [LogOf(op)]
    ensures !Accepts(a, op) ==> Apply(a, op) == a
  {
  }

  /** The log entry an accepted call writes. */
  function LogOf(op: Op): LogEntry
  {
    match op
    case DepositOp(x) => Deposited(x)
    case WithdrawOp(x) => Withdrew(x)
  }

  /** Starting from a non-negative balance, no sequence of deposits and
      withdrawals makes the balance negative. */
  lemma {:induction false} RunKeepsBalanceNonNegative(a: BankAccount, ops: seq<Op>)
    requires a.balance >= 0.0
    ensures Run(a, ops).balance >= 0.0
    decreases |ops|
  {
    if ops != [] {
      RunKeepsBalanceNonNegative(Apply(a, ops[0]), ops[1..]);
    }
  }

  /** The history grows by exactly one entry per accepted call, and what was
      logged before is kept. */
  lemma {:induction false} RunLogCountsAccepted(a: BankAccount, ops: seq<Op>)
    ensures |GetTransactionHistory(Run(a, ops))| == |a.log| + Accepted(a, ops)
    ensures GetTransactionHistory(Run(a, ops))[..|a.log|] == a.log
    decreases |ops|
  {
    if ops != [] {
      var b := Apply(a, ops[0]);
      RunLogCountsAccepted(b, ops[1..]);
      var end := Run(b, ops[1..]).log;
      assert a.log == b.log[..|a.log|];
      assert end[..|a.log|] == end[..|b.log|][..|a.log|];
    }
  }

  /** Ledger invariant: the balance is the opening balance plus what the log
      records, and every logged amount is positive. */
  ghost predicate Consistent(a: BankAccount, opening: real)
  {
    && a.balance == opening + Net(a.log)
    && forall k :: 0 <= k < |a.log| ==> a.log[k].amount > 0.0
  }

  /** Every sequence of calls keeps the ledger invariant. */
  lemma {:induction false} RunKeepsLedger(a: BankAccount, opening: real, ops: seq<Op>)
    requires Consistent(a, opening)
    ensures Consistent(Run(a, ops), opening)
    decreases |ops|
  {
    if ops != [] {
      var b := Apply(a, ops[0]);
      if Accepts(a, ops[0]) {
        assert b.log[..|b.log| - 1] == a.log;
      } else {
        assert b == a;
      }
      RunKeepsLedger(b, opening, ops[1..]);
    }
  }

  /** A freshly opened account satisfies the ledger invariant. */
  lemma NewAccountConsistent(owner: string, initialBalance: real)
    ensures Consistent(NewAccount(owner, initialBalance), initialBalance)
  {
  }

  // ---------------------------------------------------------------------------
  // Temperature

  /** Absolute zero in degrees Celsius, the setter's lower bound. */
  const AbsoluteZeroC: real := -273.15

  /** Absolute zero in degrees Fahrenheit. */
  const AbsoluteZeroF: real := -459.67

  datatype Temperature = Temperature(celsius: real)

  /** The `celsius` setter: a value below absolute zero raises ValueError and
      the temperature keeps its previous value; any other value is stored
      unchanged. */
  function SetCelsius(t: Temperature, value: real): (r: Result<Temperature>)
    ensures r.Raise? <==> value < AbsoluteZeroC
    ensures r.Raise? ==> r.error == ValueError("Temperature below absolute zero is not possible.")
    ensures r.Ok? ==> r.value.celsius == value
  {
    if value < AbsoluteZeroC then
      Raise(ValueError("Temperature below absolute zero is not possible."))
    else
      Ok(t.(celsius := value))
  }

  /** `Temperature(celsius)`: the initializer goes through the setter, so a
      temperature below absolute zero cannot be created. */
  function NewTemperature(celsius: real): (r: Result<Temperature>)
    ensures r.Raise? <==> celsius < AbsoluteZeroC
    ensures r.Raise? ==> r.error == ValueError("Temperature below absolute zero is not possible.")
    ensures r.Ok? ==> r.value.celsius == celsius
  {
    SetCelsius(Temperature(celsius), celsius)
  }

  /** The read-only `fahrenheit` property. */
  function Fahrenheit(t: Temperature): (f: real)
    ensures (f - 32.0) * 5.0 / 9.0 == t.celsius
    ensures t.celsius >= AbsoluteZeroC ==> f >= AbsoluteZeroF
  {
    t.celsius * 9.0 / 5.0 + 32.0
  }

  /** Fahrenheit is an exact, order-preserving change of scale: converting
      back with (f - 32) * 5/9 recovers the Celsius value, and every
      temperature the setter admits lies at or above absolute zero in
      Fahrenheit. */
  lemma FahrenheitScale(t: Temperature, u: Temperature)
    ensures (Fahrenheit(t) - 32.0) * 5.0 / 9.0 == t.celsius
    ensures t.celsius < u.celsius <==> Fahrenheit(t) < Fahrenheit(u)
    ensures t.celsius >= AbsoluteZeroC ==> Fahrenheit(t) >= AbsoluteZeroF
  {
  }

  // ---------------------------------------------------------------------------
  // check_age(age)

  /** `check_age`: negative ages raise ValueError, ages 0 to 17 raise
      PermissionError, and 18 or more is accepted. */
  function CheckAge(age: int): (r: Result<()>)
    ensures r.Ok? <==> age >= 18
    ensures r == Raise(ValueError("Age cannot be negative.")) <==> age < 0
    ensures r == Raise(PermissionError("User must be 18 or older.")) <==> 0 <= age < 18
  {
    if age < 0 then Raise(ValueError("Age cannot be negative."))
    else if age < 18 then Raise(PermissionError("User must be 18 or older."))
    else Ok(())
  }

  // ---------------------------------------------------------------------------
  // repeat(num_times): returns the last value

  /** The decorated function, called `num_times` times, where `call(k)` is
      what the call numbered k (from 0) returns; the wrapper returns the last
      value. With `num_times <= 0` the loop body never runs and reading
      `value` raises UnboundLocalError. */
  method RepeatLast<B>(numTimes: int, call: nat -> B) returns (r: Result<B>)
    ensures numTimes <= 0 ==> r == Raise(UnboundLocalError("value"))
    ensures numTimes > 0 ==> r == Ok(call(numTimes - 1))
  {
    var value: Option<B> := None;
    var k: nat := 0;
    while k < numTimes
      invariant k <= RangeLength(numTimes)
      invariant k == 0 ==> value == None
      invariant k > 0 ==> value == Some(call(k - 1))
    {
      value := Some(call(k));
      k := k + 1;
    }
    match value
    case None => r := Raise(UnboundLocalError("value"));
    case Some(v) => r := Ok(v);
  }

  // ---------------------------------------------------------------------------
  // count_up_to(n)

  /** The generator `count_up_to(n)` drained: 0, 1, ..., n - 1. */
  method CountUpTo(n: int) returns (ys: seq<int>)
    ensures |ys| == RangeLength(n)
    ensures forall k :: 0 <= k < |ys| ==> ys[k] == k
    ensures ys == Generators.Ascending(0, n)
  {
    ys := [];
    var i := 0;
    while i < n
      invariant 0 <= i && i <= RangeLength(n)
      invariant ys == Generators.Ascending(0, i)
    {
      ys := ys + [i];
      i := i + 1;
    }
  }
}
