/** The deterministic snippets of the tutorial script augment.py: `Point`
    addition and equality, `validate_age` with its custom error, the
    `repeat` decorator that collects every result, the `count_up_to`
    generator, the `Countdown` iterator class, `add_to_tuple`, plain and
    tail-recursive `factorial`, the `match` dispatchers `check_status` and
    `process_command`, the chaining `Builder`, and the generic `Stack`. */
module Augment {
  import opened PyBase
  import Generators

  // ---------------------------------------------------------------------------
  // Point (the class with __add__ and __eq__)

  datatype Point = Point(x: int, y: int)

  /** `p + q` builds a new point componentwise. */
  function Add(p: Point, q: Point): (r: Point)
    ensures r.x == p.x + q.x && r.y == p.y + q.y
  {
    Point(p.x + q.x, p.y + q.y)
  }

  /** `p == q` compares the coordinates, which is exactly identity of the
      two points' values. */
  predicate Equal(p: Point, q: Point)
    ensures Equal(p, q) <==> p == q
  {
    p.x == q.x && p.y == q.y
  }

  /** Addition is commutative and associative, and the origin is its
      neutral element. */
  lemma AddLaws(p: Point, q: Point, s: Point)
    ensures Equal(Add(p, q), Add(q, p))
    ensures Add(Add(p, q), s) == Add(p, Add(q, s))
    ensures Add(p, Point(0, 0)) == p
  {
  }

  // ---------------------------------------------------------------------------
  // validate_age(age)

  /** `validate_age`: negative ages raise ValueError, ages above 150 raise
      CustomError with code 1001, and every other age is returned as is. */
  function ValidateAge(age: int): (r: Result<int>)
    ensures r.Ok? <==> 0 <= age <= 150
    ensures r.Ok? ==> r.value == age
    ensures age < 0 ==> r == Raise(ValueError("Age cannot be negative"))
    ensures age > 150 ==> r == Raise(CustomError("Age is unrealistically high", 1001))
  {
    if age < 0 then Raise(ValueError("Age cannot be negative"))
    else if age > 150 then Raise(CustomError("Age is unrealistically high", 1001))
    else Ok(age)
  }

  /** An age validate_age has returned passes it again unchanged. */
  lemma ValidateAgeIdempotent(age: int)
    requires ValidateAge(age).Ok?
    ensures ValidateAge(ValidateAge(age).value) == ValidateAge(age)
  {
  }

  // ---------------------------------------------------------------------------
  // repeat(n): returns the list of all results

  /** The decorated function, called n times, where `call(k)` is what the
      call numbered k (from 0) returns; the wrapper returns every result in
      call order, and the empty list when n <= 0. */
  method RepeatAll<B>(n: int, call: nat -> B) returns (results: seq<B>)
    ensures |results| == RangeLength(n)
    ensures forall k :: 0 <= k < |results| ==> results[k] == call(k)
  {
    results := [];
    var k: nat := 0;
    while k < n
      invariant k <= RangeLength(n)
      invariant |results| == k
      invariant forall j :: 0 <= j < k ==> results[j] == call(j)
    {
      results := results + [call(k)];
      k := k + 1;
    }
  }

  // ---------------------------------------------------------------------------
  // count_up_to(limit)

  /** The generator `count_up_to(limit)` drained: 0, 1, ..., limit - 1. */
  method CountUpTo(limit: int) returns (ys: seq<int>)
    ensures |ys| == RangeLength(limit)
    ensures forall k :: 0 <= k < |ys| ==> ys[k] == k
    ensures ys == Generators.Ascending(0, limit)
  {
    ys := [];
    var count := 0;
    while count < limit
      invariant 0 <= count && count <= RangeLength(limit)
      invariant ys == Generators.Ascending(0, count)
    {
      ys := ys + [count];
      count := count + 1;
    }
  }

  // ---------------------------------------------------------------------------
  // Countdown (an iterator class)

  /** The iterator's state: the next value it will return. */
  datatype Countdown = Countdown(start: int)

  /** `__next__`: StopIteration (None) once `start` is negative; otherwise
      the current value, with `start` lowered by one. */
  function Next(it: Countdown): (r: Option<(int, Countdown)>)
    ensures r == None <==> it.start < 0
    ensures r.Some? ==> r.value.0 == it.start && r.value.1 == Countdown(it.start - 1)
  {
    if it.start < 0 then None else Some((it.start, Countdown(it.start - 1)))
  }

  /** Everything a `for` loop takes from the iterator. */
  function Drain(it: Countdown): (ys: seq<int>)
    ensures |ys| == RangeLength(it.start + 1)
    ensures forall k :: 0 <= k < |ys| ==> ys[k] == it.start - k
    decreases RangeLength(it.start + 1)
  {
    match Next(it)
    case None => []
    case Some(step) => [step.0] + Drain(step.1)
  }

  /** `Countdown(start)` yields start, start - 1, ..., 0, which is
      `count_up_to(start + 1)` read backwards; a negative start yields
      nothing, and an exhausted iterator stays exhausted. */
  lemma CountdownReversesCountUp(start: int)
    ensures Drain(Countdown(start)) == Generators.Reverse(Generators.Ascending(0, start + 1))
    ensures start < 0 ==> Drain(Countdown(start)) == []
    ensures Next(Countdown(-1)) == None
  {
    var d, r := Drain(Countdown(start)), Generators.Reverse(Generators.Ascending(0, start + 1));
    assert |d| == |r|;
    forall k | 0 <= k < |d| ensures d[k] == r[k] {}
  }

  // ---------------------------------------------------------------------------
  // add_to_tuple(t, item)

  /** `t + (item,)`: the new tuple is t followed by item; t itself, a value,
      is untouched. */
  function AddToTuple<T>(t: seq<T>, item: T): (r: seq<T>)
    ensures |r| == |t| + 1
    ensures r[..|t|] == t && r[|t|] == item
  {
    t + [item]
  }

  // ---------------------------------------------------------------------------
  // factorial(n) and factorial_tail(n, accumulator)

  /** `factorial`: 1 for every n <= 1, otherwise n * factorial(n - 1). */
  function Factorial(n: int): (r: nat)
    ensures r >= 1
    ensures n >= 1 ==> r >= n
  {
    if n <= 1 then 1 else n * Factorial(n - 1)
  }

  /** `factorial_tail`: the accumulator is returned once n <= 1. */
  function FactorialTail(n: int, accumulator: int): (r: int)
    ensures n <= 1 ==> r == accumulator
    ensures accumulator >= 0 ==> r >= accumulator
  {
    if n <= 1 then accumulator else FactorialTail(n - 1, n * accumulator)
  }

  /** The accumulator version computes accumulator * factorial(n). */
  lemma {:induction false} FactorialTailAccumulates(n: int, accumulator: int)
    ensures FactorialTail(n, accumulator) == accumulator * Factorial(n)
    decreases if n <= 1 then 0 else n
  {
    if n > 1 {
      FactorialTailAccumulates(n - 1, n * accumulator);
      MulSwap(n, accumulator, Factorial(n - 1));
    }
  }

  /** Multiplication may be regrouped and its factors swapped. */
  lemma MulSwap(a: int, b: int, c: int)
    ensures (a * b) * c == b * (a * c)
  {
  }

  /** With the default accumulator 1 both versions agree, and both give 1
      for n <= 1. */
  lemma FactorialTailAgrees(n: int)
    ensures FactorialTail(n, 1) == Factorial(n)
    ensures n <= 1 ==> FactorialTail(n, 1) == 1
  {
    FactorialTailAccumulates(n, 1);
  }

  // ---------------------------------------------------------------------------
  // check_status(status)

  /** `check_status`: 200, 404 and 500 have their own message, every other
      status is unknown. */
  function CheckStatus(status: int): (r: string)
    ensures status == 200 <==> r == "OK"
    ensures status == 404 <==> r == "Not Found"
    ensures status == 500 <==> r == "Server Error"
    ensures status !in {200, 404, 500} <==> r == "Unknown Status"
  {
    match status
    case 200 => "OK"
    case 404 => "Not Found"
    case 500 => "Server Error"
    case _ => "Unknown Status"
  }

  // ---------------------------------------------------------------------------
  // process_command(command)

  /** The combined length of all the parts. */
  function TotalLength(parts: seq<string>): nat
  {
    if parts == [] then 0 else |parts[0]| + TotalLength(parts[1..])
  }

  /** `sep.join(parts)`: the parts in order with one separator between each
      neighbouring pair, so it is empty for no parts, starts with the first
      part, and is as long as all the parts plus one separator fewer than
      there are parts. */
  function Join(sep: string, parts: seq<string>): (r: string)
    ensures parts == [] ==> r == ""
    ensures |parts| == 1 ==> r == parts[0]
    ensures parts != [] ==> |r| == TotalLength(parts) + (|parts| - 1) * |sep|
    ensures parts != [] ==> |parts[0]| <= |r| && r[..|parts[0]|] == parts[0]
    decreases |parts|
  {
    if parts == [] then ""
    else if |parts| == 1 then parts[0]
    else parts[0] + sep + Join(sep, parts[1..])
  }

  /** Joining one more part appends one separator and then that part, so
      each neighbouring pair of parts has exactly one separator between
      them. With the 0- and 1-part cases of `Join` this determines the
      result for every list of parts. */
  lemma {:induction false} JoinSnoc(sep: string, xs: seq<string>, y: string)
    requires xs != []
    ensures Join(sep, xs + [y]) == Join(sep, xs) + sep + y
    decreases |xs|
  {
    if |xs| == 1 {
      assert xs + [y] == [xs[0], y];
      assert [xs[0], y][1..] == [y];
    } else {
      assert (xs + [y])[1..] == xs[1..] + [y];
      JoinSnoc(sep, xs[1..], y);
    }
  }

  /** The shapes of command the `match` recognises. */
  predicate IsQuit(c: seq<string>) { c == ["quit"] }
  predicate IsLoad(c: seq<string>) { |c| == 2 && c[0] == "load" }
  predicate IsSave(c: seq<string>) { |c| == 3 && c[0] == "save" }
  predicate IsSearch(c: seq<string>) { |c| >= 2 && c[0] == "search" }

  /** `process_command`: ["quit"], ["load", f], ["save", f, content] and
      ["search", k1, ..., kn] with n >= 1 each get their message, the search
      keywords joined with ", "; everything else, ["search"] alone included,
      is an unknown command. */
  function ProcessCommand(command: seq<string>): (r: string)
    ensures IsQuit(command) ==> r == "Exiting program"
    ensures IsLoad(command) ==> r == "Loading file: " + command[1]
    ensures IsSave(command) ==> r == "Saving content to file: " + command[1]
    ensures IsSearch(command) ==> r == "Searching for: " + Join(", ", command[1..])
    ensures r == "Unknown command" <==>
              !(IsQuit(command) || IsLoad(command) || IsSave(command) || IsSearch(command))
  {
    if command == ["quit"] then "Exiting program"
    else if |command| == 2 && command[0] == "load" then
      var r := "Loading file: " + command[1];
      assert r[0] != "Unknown command"[0];
      r
    else if |command| == 3 && command[0] == "save" then
      var r := "Saving content to file: " + command[1];
      assert r[0] != "Unknown command"[0];
      r
    else if |command| >= 2 && command[0] == "search" then
      var r := "Searching for: " + Join(", ", command[1..]);
      assert r[0] != "Unknown command"[0];
      r
    else "Unknown command"
  }

  // ---------------------------------------------------------------------------
  // Builder (method chaining)

  datatype Builder = Builder(value: int)

  /** `Builder(value=0)`. */
  function NewBuilder(): (b: Builder)
    ensures b.value == 0
  {
    Builder(0)
  }

  /** `increment(amount)` raises the value by amount. */
  function Increment(b: Builder, amount: int): (r: Builder)
    ensures r.value - b.value == amount
  {
    b.(value := b.value + amount)
  }

  /** `decrement(amount)` lowers the value by amount. */
  function Decrement(b: Builder, amount: int): (r: Builder)
    ensures b.value - r.value == amount
  {
    b.(value := b.value - amount)
  }

  /** Decrementing by what was just incremented restores the builder, and
      the chain of the example, Builder(10).increment(5).decrement(3)
      .increment(2), gives 14. */
  lemma IncrementDecrementInverse(b: Builder, amount: int)
    ensures Decrement(Increment(b, amount), amount) == b
    ensures Increment(Decrement(b, amount), amount) == b
    ensures Increment(Decrement(Increment(Builder(10), 5), 3), 2).value == 14
  {
  }

  /** One call in a chain. */
  datatype Step = Inc(amount: int) | Dec(amount: int)

  function Chain(b: Builder, steps: seq<Step>): Builder
    decreases |steps|
  {
    if steps == [] then b
    else
      var next := match steps[0] case Inc(a) => Increment(b, a) case Dec(a) => Decrement(b, a);
      Chain(next, steps[1..])
  }

  /** The signed change one step makes. */
  function Change(s: Step): int
  {
    match s
    case Inc(a) => a
    case Dec(a) => -a
  }

  function TotalChange(steps: seq<Step>): int
  {
    if steps == [] then 0 else Change(steps[0]) + TotalChange(steps[1..])
  }

  /** A chain's result depends only on the total of its steps. */
  lemma {:induction false} ChainAddsTotal(b: Builder, steps: seq<Step>)
    ensures Chain(b, steps).value == b.value + TotalChange(steps)
    decreases |steps|
  {
    if steps != [] {
      var next := match steps[0] case Inc(a) => Increment(b, a) case Dec(a) => Decrement(b, a);
      ChainAddsTotal(next, steps[1..]);
    }
  }

  /** The total of two blocks of steps is the sum of their totals. */
  lemma {:induction false} TotalChangeAppend(s: seq<Step>, t: seq<Step>)
    ensures TotalChange(s + t) == TotalChange(s) + TotalChange(t)
    decreases |s|
  {
    if s == [] {
      assert s + t == t;
    } else {
      assert (s + t)[1..] == s[1..] + t;
      TotalChangeAppend(s[1..], t);
    }
  }

  /** Swapping two blocks of calls in a chain gives the same builder. */
  lemma ChainOrderIrrelevant(b: Builder, s: seq<Step>, t: seq<Step>)
    ensures Chain(b, s + t) == Chain(b, t + s)
  {
    ChainAddsTotal(b, s + t);
    ChainAddsTotal(b, t + s);
    TotalChangeAppend(s, t);
    TotalChangeAppend(t, s);
  }

  // ---------------------------------------------------------------------------
  // Stack[T] (and OldStack, which has the same bodies)

  datatype Stack<T> = Stack(items: seq<T>)

  /** `Stack()` starts empty. */
  function EmptyStack<T>(): (s: Stack<T>)
    ensures s.items == []
  {
    Stack([])
  }

  /** `push(item)` appends to the end of the list. */
  function Push<T>(s: Stack<T>, item: T): (r: Stack<T>)
    ensures |r.items| == |s.items| + 1
    ensures r.items[..|s.items|] == s.items && r.items[|s.items|] == item
  {
    Stack(s.items + [item])
  }

  /** `pop()` removes and returns the last item; on an empty stack
      `list.pop` raises IndexError and nothing changes. */
  function Pop<T>(s: Stack<T>): (r: Result<(T, Stack<T>)>)
    ensures r.Raise? <==> s.items == []
    ensures r.Raise? ==> r.error == IndexError("pop from empty list")
    ensures r.Ok? ==> r.value.1.items + [r.value.0] == s.items
  {
    if s.items == [] then Raise(IndexError("pop from empty list"))
    else Ok((s.items[|s.items| - 1], Stack(s.items[..|s.items| - 1])))
  }

  /** Last in, first out: pop right after push(x) returns x and restores the
      previous stack, and pushing back what pop returned restores the stack
      it was popped from. */
  lemma PushPopInverse<T>(s: Stack<T>, x: T)
    ensures Pop(Push(s, x)) == Ok((x, s))
    ensures s.items != [] ==> Push(Pop(s).value.1, Pop(s).value.0) == s
  {
  }

  /** Push every item of xs in order. */
  function PushAll<T>(s: Stack<T>, xs: seq<T>): Stack<T>
    decreases |xs|
  {
    if xs == [] then s else PushAll(Push(s, xs[0]), xs[1..])
  }

  /** Pop n times, collecting the popped items in order. */
  function PopN<T>(s: Stack<T>, n: nat): Result<(seq<T>, Stack<T>)>
    decreases n
  {
    if n == 0 then Ok(([], s))
    else
      match Pop(s)
      case Raise(e) => Raise(e)
      case Ok(top) =>
        match PopN(top.1, n - 1)
        case Raise(e) => Raise(e)
        case Ok(rest) => Ok(([top.0] + rest.0, rest.1))
  }

  lemma {:induction false} PushAllItems<T>(s: Stack<T>, xs: seq<T>)
    ensures PushAll(s, xs).items == s.items + xs
    decreases |xs|
  {
    if xs != [] {
      PushAllItems(Push(s, xs[0]), xs[1..]);
      assert s.items + [xs[0]] + xs[1..] == s.items + xs;
    }
  }

  /** Popping k items off a stack whose top k items are ys gives ys in
      reverse order and the stack underneath. */
  lemma {:induction false} PopNTakesTop<T>(base: seq<T>, ys: seq<T>)
    ensures PopN(Stack(base + ys), |ys|) == Ok((Generators.Reverse(ys), Stack(base)))
    decreases |ys|
  {
    if ys != [] {
      var init, last := ys[..|ys| - 1], ys[|ys| - 1];
      assert ys == init + [last];
      assert base + ys == (base + init) + [last];
      PopLast(base + init, last);
      PopNTakesTop(base, init);
      PopNStep(Stack(base + ys), |ys|, last, Stack(base + init), Generators.Reverse(init), Stack(base));
      Generators.ReverseAppend(init, [last]);
      assert Generators.Reverse([last]) == [last];
    } else {
      assert base + ys == base;
    }
  }

  /** One step of PopN: pop the top, then pop n - 1 more from what is left. */
  lemma PopNStep<T>(s: Stack<T>, n: nat, x: T, t: Stack<T>, xs: seq<T>, b: Stack<T>)
    requires n > 0 && Pop(s) == Ok((x, t)) && PopN(t, n - 1) == Ok((xs, b))
    ensures PopN(s, n) == Ok(([x] + xs, b))
  {
  }

  /** Popping a stack whose last item is x yields x and the items below it. */
  lemma PopLast<T>(s: seq<T>, x: T)
    ensures Pop(Stack(s + [x])) == Ok((x, Stack(s)))
  {
  }

  /** Pushing xs and then popping |xs| times returns xs in reverse order and
      leaves the stack as it was. */
  lemma PushAllThenPopAll<T>(s: Stack<T>, xs: seq<T>)
    ensures PopN(PushAll(s, xs), |xs|) == Ok((Generators.Reverse(xs), s))
  {
    PushAllItems(s, xs);
    PopNTakesTop(s.items, xs);
  }
}
