/** The deterministic snippets of the tutorial script
    gemini-2.5-Pro-Exp-V2.py: the grade thresholds, `find_user`,
    `get_first`, a `BankAccount` that only takes deposits, the validating
    `Temperature` property, the chaining `ConfigBuilder`, `check_positive`
    and the `count_up_to` generator. */
module GeminiExpV2 {
  import opened PyBase
  import Generators

  // ---------------------------------------------------------------------------
  // Grade thresholds (the if/elif/else chain on `score`)

  /** The letter grade of a score: 90 and up "A", 80 and up "B", 70 and up
      "C", anything lower "D or F". */
  function Grade(score: int): (g: string)
    ensures g == "A" <==> score >= 90
    ensures g == "B" <==> 80 <= score < 90
    ensures g == "C" <==> 70 <= score < 80
    ensures g == "D or F" <==> score < 70
  {
    if score >= 90 then "A"
    else if score >= 80 then "B"
    else if score >= 70 then "C"
    else "D or F"
  }

  /** How good a grade is, "A" best. */
  function LetterRank(g: string): int
  {
    if g == "A" then 3 else if g == "B" then 2 else if g == "C" then 1 else 0
  }

  /** A higher score never gets a worse grade. */
  lemma GradeMonotone(lower: int, higher: int)
    requires lower <= higher
    ensures LetterRank(Grade(lower)) <= LetterRank(Grade(higher))
  {
  }

  // ---------------------------------------------------------------------------
  // find_user(user_id)

  /** `find_user`: only id 1 is known, as "Alice". */
  function FindUser(userId: int): (r: Option<string>)
    ensures r.Some? <==> userId == 1
    ensures r.Some? ==> r.value == "Alice"
  {
    if userId == 1 then Some("Alice") else None
  }

  // ---------------------------------------------------------------------------
  // get_first(container)

  /** `get_first`: None for an empty list or tuple, else its first element. */
  function GetFirst<T>(container: seq<T>): (r: Option<T>)
    ensures r == None <==> |container| == 0
    ensures r.Some? ==> r.value == container[0]
  {
    if |container| == 0 then None else Some(container[0])
  }

  // ---------------------------------------------------------------------------
  // BankAccount (deposits only)

  /** One log entry, the text "Deposit: amount" in the source. */
  datatype LogEntry = Deposited(amount: real)

  datatype BankAccount = BankAccount(balance: real, log: seq<LogEntry>)

  /** `BankAccount(balance=0.0)`: the balance is not checked, the log starts
      empty. */
  function NewAccount(balance: real): (a: BankAccount)
    ensures a.balance == balance && a.log == []
  {
    BankAccount(balance, [])
  }

  /** `deposit`: a positive amount is added and logged; any other amount is
      silently ignored. */
  function Deposit(a: BankAccount, amount: real): (r: BankAccount)
    ensures amount > 0.0 ==> r.balance == a.balance + amount && r.log == a.log + [Deposited(amount)]
    ensures amount <= 0.0 ==> r == a
  {
    if amount > 0.0 then
      a.(balance := a.balance + amount, log := a.log + [Deposited(amount)])
    else
      a
  }

  /** `get_balance`. */
  function GetBalance(a: BankAccount): real
  {
    a.balance
  }

  /** The account after depositing each of `amounts` in order. */
  function DepositAll(a: BankAccount, amounts: seq<real>): BankAccount
    decreases |amounts|
  {
    if amounts == [] then a else DepositAll(Deposit(a, amounts[0]), amounts[1..])
  }

  /** The positive amounts among xs, in order. */
  function Positives(xs: seq<real>): seq<real>
  {
    if xs == [] then []
    else if xs[0] > 0.0 then [xs[0]] + Positives(xs[1..])
    else Positives(xs[1..])
  }

  function Total(xs: seq<real>): real
  {
    if xs == [] then 0.0 else xs[0] + Total(xs[1..])
  }

  function Entries(xs: seq<real>): seq<LogEntry>
  {
    if xs == [] then [] else [Deposited(xs[0])] + Entries(xs[1..])
  }

  /** After any sequence of deposits the log holds exactly the positive
      amounts, in order, and the balance has grown by exactly their total,
      so it never decreases. */
  lemma {:induction false} DepositAllLogsPositives(a: BankAccount, amounts: seq<real>)
    ensures DepositAll(a, amounts).log == a.log + Entries(Positives(amounts))
    ensures DepositAll(a, amounts).balance == a.balance + Total(Positives(amounts))
    ensures DepositAll(a, amounts).balance >= a.balance
    decreases |amounts|
  {
    if amounts != [] {
      var b := Deposit(a, amounts[0]);
      DepositAllLogsPositives(b, amounts[1..]);
      PositivesTotalNonNegative(amounts[1..]);
      if amounts[0] > 0.0 {
        assert Entries(Positives(amounts)) == [Deposited(amounts[0])] + Entries(Positives(amounts[1..]));
        assert a.log + [Deposited(amounts[0])] + Entries(Positives(amounts[1..]))
            == a.log + Entries(Positives(amounts));
      }
    } else {
      assert a.log + [] == a.log;
    }
  }

  lemma {:induction false} PositivesTotalNonNegative(xs: seq<real>)
    ensures Total(Positives(xs)) >= 0.0
  {
    if xs != [] {
      PositivesTotalNonNegative(xs[1..]);
    }
  }

  // ---------------------------------------------------------------------------
  // Temperature

  /** Absolute zero in degrees Celsius, the setter's lower bound. */
  const AbsoluteZeroC: real := -273.15

  datatype Temperature = Temperature(celsius: real)

  /** The `celsius` setter: a value below absolute zero raises ValueError and
      the temperature keeps its previous value; any other value is stored. */
  function SetCelsius(t: Temperature, value: real): (r: Result<Temperature>)
    ensures r.Raise? <==> value < AbsoluteZeroC
    ensures r.Raise? ==> r.error == ValueError("Too cold!")
    ensures r.Ok? ==> r.value.celsius == value
  {
    if value < AbsoluteZeroC then Raise(ValueError("Too cold!")) else Ok(t.(celsius := value))
  }

  /** `Temperature(celsius)`, which goes through the setter. */
  function NewTemperature(celsius: real): (r: Result<Temperature>)
    ensures r.Raise? <==> celsius < AbsoluteZeroC
    ensures r.Raise? ==> r.error == ValueError("Too cold!")
    ensures r.Ok? ==> r.value.celsius == celsius
  {
    SetCelsius(Temperature(celsius), celsius)
  }

  // ---------------------------------------------------------------------------
  // ConfigBuilder

  datatype ConfigBuilder<V> = ConfigBuilder(settings: map<string, V>)

  /** `ConfigBuilder()` starts with no settings. */
  function NewConfigBuilder<V>(): (b: ConfigBuilder<V>)
    ensures b.settings == map[]
  {
    ConfigBuilder(map[])
  }

  /** `set_option(key, value)`: key now maps to value and every other key
      keeps its setting. */
  function SetOption<V>(b: ConfigBuilder<V>, key: string, value: V): (r: ConfigBuilder<V>)
    ensures r.settings.Keys == b.settings.Keys + {key}
    ensures r.settings[key] == value
    ensures forall k :: k in b.settings && k != key ==> r.settings[k] == b.settings[k]
  {
    ConfigBuilder(b.settings[key := value])
  }

  /** `build()` returns a copy of the settings: a map value here, so later
      calls on the builder cannot change it. */
  function Build<V>(b: ConfigBuilder<V>): map<string, V>
  {
    b.settings
  }

  /** The setting a key has in a map, if any. */
  function Lookup<V>(m: map<string, V>, key: string): Option<V>
  {
    if key in m then Some(m[key]) else None
  }

  /** The value the last of `options` with this key sets, if any. */
  function LastSet<V>(options: seq<(string, V)>, key: string): Option<V>
  {
    if options == [] then None
    else if options[|options| - 1].0 == key then Some(options[|options| - 1].1)
    else LastSet(options[..|options| - 1], key)
  }

  /** A chain of `set_option` calls, applied in order. */
  function SetAll<V>(b: ConfigBuilder<V>, options: seq<(string, V)>): ConfigBuilder<V>
  {
    if options == [] then b
    else
      var last := options[|options| - 1];
      SetOption(SetAll(b, options[..|options| - 1]), last.0, last.1)
  }

  /** After a chain of `set_option` calls, `build()` maps each key to the
      value its last call set, and keys never set keep what they had. */
  lemma {:induction false} BuildLastWins<V>(b: ConfigBuilder<V>, options: seq<(string, V)>, key: string)
    ensures Lookup(Build(SetAll(b, options)), key) ==
            if LastSet(options, key).Some? then LastSet(options, key) else Lookup(b.settings, key)
  {
    if options != [] {
      BuildLastWins(b, options[..|options| - 1], key);
    }
  }

  // ---------------------------------------------------------------------------
  // check_positive(num)

  /** `check_positive`: ValueError exactly when num <= 0. */
  function CheckPositive(num: int): (r: Result<()>)
    ensures r.Raise? <==> num <= 0
    ensures r.Raise? ==> r.error == ValueError("Number must be positive.")
  {
    if num <= 0 then Raise(ValueError("Number must be positive.")) else Ok(())
  }

  // ---------------------------------------------------------------------------
  // count_up_to(n)

  /** The generator `count_up_to(n)` drained: 0, 1, ..., n - 1. */
  method CountUpTo(n: int) returns (ys: seq<int>)
    ensures |ys| == RangeLength(n)
    ensures forall k :: 0 <= k < |ys| ==> ys[k] == k
    ensures ys == Generators.Ascending(0, n)
  {
    ys := [];
    var i := 0;
    while i < n
      invariant 0 <= i && i <= RangeLength(n)
      invariant ys == Generators.Ascending(0, i)
    {
      ys := ys + [i];
      i := i + 1;
    }
  }
}
