# python-101 tutorial snippets, modelled in Dafny

The python-101 repository is a set of tutorial scripts. Most of their lines
only print, but four scripts contain small deterministic pieces of logic. This
project models the following pieces of that logic and proves what each promises:

- the guarded state objects: `BankAccount`, the validating `Temperature`
  property, `Dog.feed`, the chaining `Builder` and `ConfigBuilder`, and the
  generic `Stack`;
- the validators and classifiers: `check_age`, `validate_age`,
  `check_positive`, the grade thresholds, and the `match` dispatchers
  `check_status`, `process_command` and `http_error`;
- the generators and iterators `count_up_to`, `countdown` and `Countdown`;
- the pure helpers: `factorial` and `factorial_tail`, `sum_all`,
  `add_to_tuple`, `Point.__add__` and `Point.__eq__`, `get_first`, `first`,
  `find_user`, `greet`, `process_names`, and the two `repeat` decorators.

Each script gets its own module: `GeminiExp` (gemini-2.5-Pro-Exp.py),
`Augment` (augment.py), `GeminiExpV2` (gemini-2.5-Pro-Exp-V2.py) and `Grok3`
(grok-3.py). The same toy often appears in several scripts with different
behaviour. For example, one `BankAccount` can withdraw and the other only
deposits, and one `repeat` returns the last value while the other returns
all of them. Each version is modelled in its own module. `Variants` proves
how the versions relate. `PyBase` holds the shared `Option`, `Result` and
`PyError` types. `Generators` holds the reference sequences (`Ascending`,
`Reverse`) used to specify the generators.

Modelling conventions:

- **Objects are values.** A Python object becomes an immutable datatype, and
  each mutating method becomes a function from the old state to the new one.
  A value returned "as a copy" (`get_transaction_history`, `build`) is
  therefore independent of the object by construction.
- **Exceptions are results.** A raised exception is `Result.Raise(e)`. Every
  modelled setter checks before it assigns, so on `Raise` the caller keeps
  the object's previous state.
- **Generators are sequences.** A drained generator is the `seq<int>` it
  yields. Each generator is a method whose loop mirrors the source's `while`
  loop.
- **Numbers.** Money and temperatures are `real`, not floats. Python's `int`
  is Dafny's unbounded `int`, so there is no overflow to model.
- **Decorated functions.** The function a `repeat` decorator wraps is a
  parameter `call: nat -> B`, where `call(k)` is the value returned by the
  call numbered k. This covers wrapped functions whose result changes from
  call to call.
- **Edge cases from the code.** In gemini-2.5-Pro-Exp.py, `repeat` with
  `num_times <= 0` never assigns `value`, so returning it raises
  `UnboundLocalError`. On an empty list, `Stack.pop` and grok-3.py's `first`
  raise `IndexError`. The model returns these errors rather than excluding
  the inputs.
- **Builder example.** The chain `Builder(10).increment(5).decrement(3)
  .increment(2)` evaluates to 14 (10 + 5 - 3 + 2). `IncrementDecrementInverse`
  proves this value.

## Model

| member | source | states |
|---|---|---|
| GeminiExp.SumAll | gemini-2.5-Pro-Exp.py:416-422 | the loop returns the sum of all its arguments (`Sum`), 0 for none |
| GeminiExp.SumAppend | gemini-2.5-Pro-Exp.py:416-422 | summing a concatenation gives the sum of the parts, so the left-to-right loop agrees with the sum |
| GeminiExp.ProcessNames | gemini-2.5-Pro-Exp.py:509-513 | None exactly for an empty list; otherwise a name from the list that is at least as long as every other, and the first such name |
| GeminiExp.NewDog | gemini-2.5-Pro-Exp.py:536-542 | a new dog is hungry and keeps the given name, breed and age |
| GeminiExp.Feed | gemini-2.5-Pro-Exp.py:553-558 | after feeding the dog is not hungry and nothing else changed; feeding a dog that is not hungry changes nothing |
| GeminiExp.FeedIdempotent | gemini-2.5-Pro-Exp.py:553-558 | feeding twice is the same as feeding once |
| GeminiExp.NewAccount | gemini-2.5-Pro-Exp.py:664-667 | a new account has the given owner and opening balance and an empty log |
| GeminiExp.Deposit | gemini-2.5-Pro-Exp.py:669-675 | a positive amount is added to the balance and logged once; a non-positive amount changes nothing |
| GeminiExp.Withdraw | gemini-2.5-Pro-Exp.py:677-685 | a non-positive amount or one above the balance changes nothing; otherwise the amount is subtracted and logged once |
| GeminiExp.ApplyLogsAccepted | gemini-2.5-Pro-Exp.py:669-694 | a call writes exactly one log entry when accepted, and a refused call leaves the account unchanged |
| GeminiExp.RunKeepsBalanceNonNegative | gemini-2.5-Pro-Exp.py:664-685 | from a non-negative balance, no sequence of deposits and withdrawals makes the balance negative |
| GeminiExp.RunLogCountsAccepted | gemini-2.5-Pro-Exp.py:692-703 | the returned history has grown by exactly the number of accepted calls, and keeps the earlier entries as a prefix |
| GeminiExp.RunKeepsLedger | gemini-2.5-Pro-Exp.py:664-694 | after any sequence of calls, the balance equals the opening balance plus the net of the logged entries, and every logged amount is positive |
| GeminiExp.NewAccountConsistent | gemini-2.5-Pro-Exp.py:664-667 | a new account satisfies that ledger invariant |
| GeminiExp.SetCelsius | gemini-2.5-Pro-Exp.py:750-755 | raises ValueError exactly for values below -273.15, keeping the old temperature; otherwise stores the value unchanged |
| GeminiExp.NewTemperature | gemini-2.5-Pro-Exp.py:741-755 | construction goes through the setter: below -273.15 it raises the setter's ValueError, otherwise the value is stored |
| GeminiExp.Fahrenheit | gemini-2.5-Pro-Exp.py:757-760 | the Fahrenheit value converts back exactly to the Celsius value, and lies at or above -459.67 whenever the Celsius value is at or above absolute zero |
| GeminiExp.FahrenheitScale | gemini-2.5-Pro-Exp.py:757-760 | c*9/5 + 32 converts back exactly via (f - 32)*5/9, preserves order strictly, and maps the setter's bound to -459.67 °F or above |
| GeminiExp.CheckAge | gemini-2.5-Pro-Exp.py:885-891 | a negative age raises ValueError, 0 to 17 raises PermissionError, and 18 or more is accepted (all three directions) |
| GeminiExp.RepeatLast | gemini-2.5-Pro-Exp.py:1057-1066 | with num_times > 0, returns the value of the last call; with num_times <= 0, raises UnboundLocalError for `value` |
| GeminiExp.CountUpTo | gemini-2.5-Pro-Exp.py:1082-1089 | yields 0, 1, ..., n-1 in order, and nothing for n <= 0 |
| Augment.Add | augment.py:386-387 | the sum point has componentwise-summed coordinates |
| Augment.Equal | augment.py:390-391 | two points are equal exactly when they are the same point value |
| Augment.AddLaws | augment.py:386-391 | addition is commutative under `__eq__`, is associative, and has the origin as neutral element |
| Augment.ValidateAge | augment.py:549-562 | accepts exactly 0..150 and returns the age unchanged; a negative age raises ValueError; above 150 raises CustomError with code 1001 |
| Augment.ValidateAgeIdempotent | augment.py:557-562 | an age that validate_age returned passes again with the same result |
| Augment.RepeatAll | augment.py:639-647 | returns the results of the n calls in call order, and the empty list when n <= 0 |
| Augment.CountUpTo | augment.py:947-952 | yields 0, 1, ..., limit-1 in order, and nothing for limit <= 0 |
| Augment.Next | augment.py:1003-1009 | StopIteration exactly when start is negative; otherwise returns start and lowers it by one |
| Augment.Drain | augment.py:994-1009 | iterating Countdown(start) yields start, start-1, ..., 0: start+1 values, none for a negative start |
| Augment.CountdownReversesCountUp | augment.py:994-1009 | Countdown(start) yields count_up_to(start+1) reversed; a negative start yields nothing; an exhausted iterator stays exhausted |
| Augment.AddToTuple | augment.py:1077-1079 | the result is one longer, starts with t and ends with item |
| Augment.Factorial | augment.py:1087-1091 | factorial is at least 1 for every input, and at least n for n >= 1 |
| Augment.FactorialTail | augment.py:1096-1100 | returns the accumulator once n <= 1, and never less than a non-negative accumulator |
| Augment.FactorialTailAccumulates | augment.py:1087-1100 | factorial_tail(n, acc) == acc * factorial(n) for every n and acc |
| Augment.FactorialTailAgrees | augment.py:1087-1100 | with the default accumulator, factorial_tail equals factorial, and both give 1 for n <= 1 |
| Augment.CheckStatus | augment.py:1114-1124 | 200, 404 and 500 map to "OK", "Not Found" and "Server Error", each if and only if; every other status maps to "Unknown Status" |
| Augment.Join | augment.py:1141 | `sep.join(parts)` is empty for no parts, is the part itself for one part, starts with the first part, and is as long as all the parts together plus one separator fewer than there are parts |
| Augment.JoinSnoc | augment.py:1141 | joining one more part appends exactly one separator and then that part, so there is one separator between each neighbouring pair of parts; with the 0- and 1-part cases this determines `sep.join(parts)` for every list of parts |
| Augment.ProcessCommand | augment.py:1131-1143 | quit, load, save and search with at least one keyword map to their messages, keywords joined by ", "; the result is "Unknown command" exactly for every other list, ["search"] included |
| Augment.NewBuilder | augment.py:1239-1241 | the default builder's value is 0 |
| Augment.Increment | augment.py:1243-1245 | the value rises by exactly the amount |
| Augment.Decrement | augment.py:1247-1249 | the value falls by exactly the amount |
| Augment.IncrementDecrementInverse | augment.py:1239-1256 | decrement(a) undoes increment(a) and vice versa; the chain 10, +5, -3, +2 gives 14 |
| Augment.ChainAddsTotal | augment.py:1239-1256 | any chain of calls adds its steps' signed total to the value |
| Augment.TotalChangeAppend | augment.py:1243-1249 | the signed total of two blocks of calls is the sum of their totals |
| Augment.ChainOrderIrrelevant | augment.py:1239-1256 | swapping two blocks of calls in a chain gives the same builder |
| Augment.EmptyStack | augment.py:1294-1295 | a new stack is empty |
| Augment.Push | augment.py:1297-1298 | push puts the item on top and keeps everything below |
| Augment.Pop | augment.py:1300-1301 | pop raises IndexError exactly on an empty stack; otherwise it returns the top item and the rest of the stack |
| Augment.PushPopInverse | augment.py:1293-1301 | pop after push(x) returns x and the previous stack; pushing the popped item back restores the stack |
| Augment.PushAllItems | augment.py:1297-1298 | pushing a sequence of items stacks them in order on top of the existing items |
| Augment.PopNTakesTop | augment.py:1300-1301 | popping k times from a stack whose top k items are ys returns ys reversed and the stack underneath |
| Augment.PushAllThenPopAll | augment.py:1293-1301 | last in, first out: pushing xs and popping |xs| times returns xs reversed and the original stack |
| GeminiExpV2.Grade | gemini-2.5-Pro-Exp-V2.py:142-149 | a score of 90 or more gets "A", 80-89 "B", 70-79 "C", and below 70 "D or F", each if and only if |
| GeminiExpV2.GradeMonotone | gemini-2.5-Pro-Exp-V2.py:142-149 | a higher score never gets a worse grade |
| GeminiExpV2.FindUser | gemini-2.5-Pro-Exp-V2.py:309-312 | exactly id 1 is found, as "Alice"; every other id gives None |
| GeminiExpV2.GetFirst | gemini-2.5-Pro-Exp-V2.py:335-339 | None exactly for an empty container, otherwise its first element |
| GeminiExpV2.NewAccount | gemini-2.5-Pro-Exp-V2.py:423-425 | a new account has the given balance and an empty log |
| GeminiExpV2.Deposit | gemini-2.5-Pro-Exp-V2.py:426-431 | a positive amount is added and logged once; any other amount changes nothing |
| GeminiExpV2.DepositAllLogsPositives | gemini-2.5-Pro-Exp-V2.py:426-431 | after any deposits, the log holds exactly the positive amounts in order, and the balance has grown by their total, so it never falls |
| GeminiExpV2.SetCelsius | gemini-2.5-Pro-Exp-V2.py:445-448 | raises ValueError exactly for values below -273.15, keeping the old temperature; otherwise stores the value |
| GeminiExpV2.NewTemperature | gemini-2.5-Pro-Exp-V2.py:442-448 | construction goes through the setter: below -273.15 it raises ValueError("Too cold!"), otherwise the value is stored |
| GeminiExpV2.NewConfigBuilder | gemini-2.5-Pro-Exp-V2.py:458-459 | a new builder has no settings |
| GeminiExpV2.SetOption | gemini-2.5-Pro-Exp-V2.py:461-465 | after set_option(k, v), k maps to v, the key set gains at most k, and every other key keeps its value |
| GeminiExpV2.BuildLastWins | gemini-2.5-Pro-Exp-V2.py:461-469 | after a chain of set_option calls, build() maps each key to the value of its last call, and keys never set keep their earlier value |
| GeminiExpV2.CheckPositive | gemini-2.5-Pro-Exp-V2.py:528-530 | raises ValueError exactly when num <= 0 |
| GeminiExpV2.CountUpTo | gemini-2.5-Pro-Exp-V2.py:686-690 | yields 0, 1, ..., n-1 in increasing order, and nothing for n <= 0 |
| Grok3.Greet | grok-3.py:39-40 | the greeting is "Hello, ", then the name, then "!" |
| Grok3.GreetInjective | grok-3.py:39-40 | different names get different greetings, since the name can be read back |
| Grok3.Countdown | grok-3.py:96-99 | yields n, n-1, ..., 1: max(n, 0) values, which is count-up from 1 to n reversed |
| Grok3.HttpError | grok-3.py:179-188 | 400 gives "Bad request", 401 or 403 "Not allowed", 404 "Not found", and every other status "Unknown error", each if and only if |
| Grok3.HttpErrorOneOfFour | grok-3.py:179-188 | http_error is total and always returns one of its four messages |
| Grok3.First | grok-3.py:213-214 | returns container[0], and raises IndexError exactly on an empty list |
| Variants.FirstMatchesGetFirst | grok-3.py:213-214 | first and get_first agree on every non-empty list; on the empty list, first raises and get_first returns None |
| Variants.TemperatureSettersAgree | gemini-2.5-Pro-Exp-V2.py:445-448 | the two Temperature setters accept the same values and store the same value |
| Variants.DepositsAgree | gemini-2.5-Pro-Exp-V2.py:426-431 | on any two accounts with equal balances, the two deposit methods change the balance identically and add the same number of log entries |
| Variants.AgeCheckersAgree | augment.py:557-562 | check_age and validate_age both reject exactly the negative ages with ValueError, and both accept every age from 18 to 150 |

## Left out

- Printing: every `print`, f-string, `__str__`/`__repr__` and `describe`/`bark` output. The only effect of these is console output.
- Log text: the model abstracts the log messages "Deposit: +amount", "Withdrawal: -amount" and "Deposit: amount" to typed entries that carry the amount. Float-to-text formatting is presentation only.
- Float arithmetic: balances and temperatures are exact reals, so IEEE rounding in `+=`, `-=` and `* 9/5` is not modelled.
- `OldStack` (augment.py:1282-1290): its bodies are the same as `Stack`'s, so `Augment.Stack` models both.
- Getters: `get_balance`, `_check_balance`, `get_value`, the `celsius` getter, `build` and `get_transaction_history` each return a field. They appear as field reads or trivial functions, without a contract of their own.
- Argument types: the model gives every argument its annotated or intended type. `command` is a list of strings, so the model does not cover other inputs. A str, an int or None falls through `process_command` to "Unknown command". A tuple matches like a list. A non-string filename is formatted by the f-string. Only a non-string search keyword makes `', '.join` raise `TypeError`, and that case is not modelled.
- Other snippets: the scripts' other small functions and classes are outside the modelled core. These include augment.py's `sum_all(*args)`, `CountCalls`, `describe_shape` and `process_data`, and gemini-2.5-Pro-Exp.py's `power`.
- GeminiExp.RepeatLast and Augment.RepeatAll: the wrapped function is the total `call`, so a wrapped function that raises is not modelled. In the source such an exception propagates out of the loop at its first raising call (gemini-2.5-Pro-Exp.py:1062-1063, augment.py:643-644).
- Augment.Factorial and Augment.FactorialTail: CPython does no tail-call elimination and limits recursion depth to about 1000 frames (augment.py:1095). Both functions therefore raise RecursionError for large n, such as `factorial(1000)`. The model is unbounded and always returns the mathematical value.
- GeminiExpV2.GetFirst: `get_first([None])` returns None, the same value as for an empty container (gemini-2.5-Pro-Exp-V2.py:337-339). The model's `Some(x)`/`None` keeps these cases apart, which the source's return value does not.
- The `repeat` wrapper's argument forwarding (`*args, **kwargs`): the model folds the arguments into the `call` parameter.
- File I/O, `tomllib` parsing, threading, multiprocessing, asyncio, exception groups, Pydantic, floating-point geometry (`Circle`, `distance`, `dot_product`), timers, `random`, `datetime`, `exec`, MRO introspection, abstract base classes, duck typing and `echo_generator.send`: these are side effects, external libraries or interpreter behaviour, not program logic.
