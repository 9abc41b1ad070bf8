/** The deterministic snippets of the tutorial script grok-3.py: `greet`,
    the `countdown` generator, the `http_error` dispatcher and the generic
    `first`. */
module Grok3 {
  import opened PyBase
  import Generators

  // ---------------------------------------------------------------------------
  // greet(name)

  /** `greet`: "Hello, " then the name then "!". */
  function Greet(name: string): (r: string)
    ensures |r| == |name| + 8
    ensures r[..7] == "Hello, " && r[|r| - 1] == '!'
    ensures r[7..|r| - 1] == name
  {
    "Hello, " + name + "!"
  }

  /** Different names always get different greetings: the name can be read
      back from its greeting. */
  lemma GreetInjective(a: string, b: string)
    requires Greet(a) == Greet(b)
    ensures a == b
  {
  }

  // ---------------------------------------------------------------------------
  // countdown(n)

  /** The generator `countdown(n)` drained: n, n - 1, ..., 1, and nothing
      when n <= 0. */
  method Countdown(n: int) returns (ys: seq<int>)
    ensures |ys| == RangeLength(n)
    ensures forall k :: 0 <= k < |ys| ==> ys[k] == n - k
    ensures ys == Generators.Reverse(Generators.Ascending(1, n + 1))
  {
    ys := [];
    var m := n;
    while m > 0
      invariant m <= n
      invariant m > 0 ==> |ys| == n - m
      invariant m <= 0 ==> |ys| == RangeLength(n)
      invariant forall k :: 0 <= k < |ys| ==> ys[k] == n - k
    {
      ys := ys + [m];
      m := m - 1;
    }
  }

  // ---------------------------------------------------------------------------
  // http_error(status)

  /** `http_error`: 400 is a bad request, 401 and 403 are not allowed, 404 is
      not found, and every other status is an unknown error. */
  function HttpError(status: int): (r: string)
    ensures r == "Bad request" <==> status == 400
    ensures r == "Not allowed" <==> status == 401 || status == 403
    ensures r == "Not found" <==> status == 404
    ensures r == "Unknown error" <==> status !in {400, 401, 403, 404}
  {
    match status
    case 400 => "Bad request"
    case 401 | 403 => "Not allowed"
    case 404 => "Not found"
    case _ => "Unknown error"
  }

  /** http_error is total and answers with exactly one of its four
      messages. */
  lemma HttpErrorOneOfFour(status: int)
    ensures HttpError(status) in ["Bad request", "Not allowed", "Not found", "Unknown error"]
  {
  }

  // ---------------------------------------------------------------------------
  // first(container)

  /** `first`: the first element; indexing an empty list raises
      IndexError. */
  function First<T>(container: seq<T>): (r: Result<T>)
    ensures r.Raise? <==> container == []
    ensures r.Raise? ==> r.error == IndexError("list index out of range")
    ensures r.Ok? ==> r.value == container[0]
  {
    if container == [] then Raise(IndexError("list index out of range")) else Ok(container[0])
  }
}
