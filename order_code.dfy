/** The short order-code strategy: order codes are "R" followed by six
    random decimal digits.  Once a database connection has been bound, a
    candidate is meant to be re-drawn while an order with the same code
    already exists, for at most 25 candidates (Retry, and the method
    ShortOrderCodeStrategy.Generate).  As written, the loop body never runs
    and the first candidate is returned unchecked (GenerateAsWritten).

    The random source (`nanoid`'s `customAlphabet`) is the parameter `rng`:
    `rng(k)` is the token the k-th `nanoId()` call returns; NanoId relates
    tokens to the alphabet picks that produce them.  The order
    table is reached through the request context: `ctx.orderCodes` lists
    the code of every persisted order, and the `count` query is CountOrders. */
module OrderCode {
  import opened Wrappers
  import opened Strings

  const Alphabet: string := "0123456789"
  const TokenLength: nat := 6
  const DefaultPrefix: string := "R"
  const MaxAttempts: nat := 25
  const ExhaustedMessage: string := "Couldn't generate a valid order code"

  /** One random pick: an index into Alphabet. */
  type Digit = d: int | 0 <= d < |Alphabet|

  /** The picks behind one `nanoId()` call. */
  type Draw = s: seq<Digit> | |s| == TokenLength witness [0, 0, 0, 0, 0, 0]

  /** What `nanoId()` can return: six decimal digits. */
  predicate IsToken(t: string) {
    |t| == TokenLength && forall i :: 0 <= i < |t| ==> IsDigitChar(t[i])
  }

  type Token = t: string | IsToken(t) witness "000000"

  /** The alphabet is the ten decimal digits, in order. */
  lemma AlphabetIsDecimal(d: Digit)
    ensures IsDigitChar(Alphabet[d]) && Alphabet[d] as int - '0' as int == d
  {
    assert Alphabet == ['0', '1', '2', '3', '4', '5', '6', '7', '8', '9'];
  }

  /** `nanoId()`: the characters of Alphabet the draw picks. */
  function NanoId(draw: Draw): (t: Token)
    ensures forall i :: 0 <= i < TokenLength ==> t[i] as int - '0' as int == draw[i]
  {
    var t := seq(TokenLength, i requires 0 <= i < TokenLength => Alphabet[draw[i]]);
    assert forall i :: 0 <= i < TokenLength ==> IsDigitChar(t[i]) && t[i] as int - '0' as int == draw[i] by {
      forall i | 0 <= i < TokenLength
        ensures IsDigitChar(t[i]) && t[i] as int - '0' as int == draw[i]
      {
        AlphabetIsDecimal(draw[i]);
      }
    }
    t
  }

  /** The draw behind a token. */
  function TokenDraw(t: Token): Draw {
    seq(TokenLength, i requires 0 <= i < TokenLength => (t[i] as int - '0' as int) as Digit)
  }

  /** `nanoId()` reaches every token, each from exactly one draw. */
  lemma NanoIdBijective(d: Draw, t: Token)
    ensures TokenDraw(NanoId(d)) == d
    ensures NanoId(TokenDraw(t)) == t
  {
    assert TokenDraw(NanoId(d)) == d;
    var u := NanoId(TokenDraw(t));
    forall i | 0 <= i < TokenLength ensures u[i] == t[i] {
      assert u[i] as int - '0' as int == t[i] as int - '0' as int;
    }
  }

  /** `createId(prefix)`: the prefix followed by a fresh token. */
  function CreateId(prefix: string, token: Token): string {
    prefix + token
  }

  /** The shape of every default-prefix candidate. */
  predicate IsOrderCode(s: string) {
    |s| == |DefaultPrefix| + TokenLength && s[0] == DefaultPrefix[0] && IsToken(s[|DefaultPrefix|..])
  }

  /** Reads the token back out of an order code; the inverse of CreateId. */
  function ParseOrderCode(s: string): (r: Option<Token>)
    ensures r.Some? <==> IsOrderCode(s)
  {
    if IsOrderCode(s) then Some(s[|DefaultPrefix|..]) else None
  }

  /** The k-th candidate of a `generate` call: `createId()` on the k-th token
      the random source yields. */
  function Candidate(rng: nat -> Token, k: nat): string {
    CreateId(DefaultPrefix, rng(k))
  }

  /** Every candidate is "R" followed by six decimal digits: seven characters. */
  lemma CandidateShape(rng: nat -> Token, k: nat)
    ensures IsOrderCode(Candidate(rng, k))
    ensures |Candidate(rng, k)| == 7 && Candidate(rng, k)[0] == 'R'
    ensures forall i :: 1 <= i < 7 ==> IsDigitChar(Candidate(rng, k)[i])
  {
    var c := Candidate(rng, k);
    assert c[0] == c[..1][0];
    forall i | 1 <= i < 7 ensures IsDigitChar(c[i]) {
      assert c[i] == c[1..][i - 1];
    }
  }

  /** Parsing a created code gives back its token. */
  lemma ParseCreateId(t: Token)
    ensures ParseOrderCode(CreateId(DefaultPrefix, t)) == Some(t)
  {
    var c := CreateId(DefaultPrefix, t);
    assert c[0] == c[..1][0];
  }

  /** Every well-shaped code is the code of exactly the token it parses to. */
  lemma CreateIdParse(s: string)
    requires IsOrderCode(s)
    ensures CreateId(DefaultPrefix, ParseOrderCode(s).value) == s
  {
    assert s == s[..1] + s[1..];
    assert s[..1] == [s[0]];
  }

  /** Distinct tokens give distinct codes. */
  lemma CreateIdInjective(t1: Token, t2: Token)
    requires CreateId(DefaultPrefix, t1) == CreateId(DefaultPrefix, t2)
    ensures t1 == t2
  {
    ParseCreateId(t1);
    ParseCreateId(t2);
  }

  // ---------------------------------------------------------------------
  // The order table and its `count({ where: { code } })` query.

  datatype TransactionalConnection = TransactionalConnection
  datatype Injector = Injector(connection: TransactionalConnection)
  /** The request context; it carries the order table as this request sees it. */
  datatype RequestContext = RequestContext(orderCodes: seq<string>)

  /** The number of orders whose code is exactly `code`. */
  function CountOrders(orders: seq<string>, code: string): nat {
    if orders == [] then 0
    else (if orders[0] == code then 1 else 0) + CountOrders(orders[1..], code)
  }

  /** The count is zero exactly when no order has the code. */
  lemma {:induction false} CountZeroIff(orders: seq<string>, code: string)
    ensures CountOrders(orders, code) == 0 <==> code !in orders
  {
    if orders != [] {
      CountZeroIff(orders[1..], code);
      assert orders == [orders[0]] + orders[1..];
    }
  }

  // ---------------------------------------------------------------------
  // `generate`, as intended: a counter from 0, one query per iteration.

  datatype GenerateError = InternalServerError(message: string)

  /** What one `generate` call does: the code it returns or the error it
      throws, and the codes it asked the order table about, in order. */
  datatype Generation = Generation(result: Result<string, GenerateError>, queried: seq<string>)

  /** The retry loop from counter value `i`, with candidate `Candidate(rng, i)`. */
  function Retry(orders: seq<string>, rng: nat -> Token, i: nat): Generation
    decreases MaxAttempts - i
  {
    if i >= MaxAttempts then Generation(Failure(InternalServerError(ExhaustedMessage)), [])
    else if CountOrders(orders, Candidate(rng, i)) == 0 then
      Generation(Success(Candidate(rng, i)), [Candidate(rng, i)])
    else
      var rest := Retry(orders, rng, i + 1);
      Generation(rest.result, [Candidate(rng, i)] + rest.queried)
  }

  /** `generate` with the loop the authors meant: unchecked without a connection. */
  function IntendedGenerate(connection: Option<TransactionalConnection>, ctx: RequestContext, rng: nat -> Token): Generation {
    if connection.None? then Generation(Success(Candidate(rng, 0)), [])
    else Retry(ctx.orderCodes, rng, 0)
  }

  /** From counter `i`, the loop asks about candidates i, i+1, ... in draw
      order, at most MaxAttempts - i of them. */
  lemma {:induction false} RetryQueries(orders: seq<string>, rng: nat -> Token, i: nat)
    requires i <= MaxAttempts
    ensures var g := Retry(orders, rng, i);
      && |g.queried| <= MaxAttempts - i
      && forall k :: 0 <= k < |g.queried| ==> g.queried[k] == Candidate(rng, i + k)
    decreases MaxAttempts - i
  {
    if i < MaxAttempts && CountOrders(orders, Candidate(rng, i)) != 0 {
      RetryQueries(orders, rng, i + 1);
      var rest := Retry(orders, rng, i + 1);
      assert forall k :: 1 <= k < 1 + |rest.queried| ==> ([Candidate(rng, i)] + rest.queried)[k] == rest.queried[k - 1];
    }
  }

  /** From counter `i`, the loop throws exactly when every remaining
      candidate collides, and then after asking about all of them. */
  lemma {:induction false} RetryExhausted(orders: seq<string>, rng: nat -> Token, i: nat)
    requires i <= MaxAttempts
    ensures var g := Retry(orders, rng, i);
      && (g.result.Failure? <==> forall k :: i <= k < MaxAttempts ==> Candidate(rng, k) in orders)
      && (g.result.Failure? ==> |g.queried| == MaxAttempts - i && g.result.error.message == ExhaustedMessage)
    decreases MaxAttempts - i
  {
    if i < MaxAttempts {
      CountZeroIff(orders, Candidate(rng, i));
      if CountOrders(orders, Candidate(rng, i)) != 0 {
        RetryExhausted(orders, rng, i + 1);
      }
    }
  }

  /** A code the loop returns is the last candidate it asked about, no
      order has it, and every candidate asked about before it collided. */
  lemma {:induction false} RetryAccepts(orders: seq<string>, rng: nat -> Token, i: nat)
    ensures var g := Retry(orders, rng, i);
      g.result.Success? ==>
        && |g.queried| >= 1
        && g.result.value == g.queried[|g.queried| - 1]
        && g.result.value !in orders
        && forall k :: 0 <= k < |g.queried| - 1 ==> g.queried[k] in orders
    decreases MaxAttempts - i
  {
    if i < MaxAttempts {
      CountZeroIff(orders, Candidate(rng, i));
      if CountOrders(orders, Candidate(rng, i)) != 0 {
        RetryAccepts(orders, rng, i + 1);
        var rest := Retry(orders, rng, i + 1);
        assert forall k :: 1 <= k < 1 + |rest.queried| ==> ([Candidate(rng, i)] + rest.queried)[k] == rest.queried[k - 1];
      }
    }
  }

  /** Under the intended loop: at most 25 queries, each candidate checked in
      draw order; a returned code is never an existing code, every candidate
      before it collided; the error is thrown exactly when the first 25
      candidates all collide, after exactly 25 queries. */
  lemma GenerateSpec(connection: TransactionalConnection, ctx: RequestContext, rng: nat -> Token)
    ensures var g := IntendedGenerate(Some(connection), ctx, rng);
      && |g.queried| <= MaxAttempts
      && (forall k :: 0 <= k < |g.queried| ==> g.queried[k] == Candidate(rng, k))
      && (g.result.Success? ==> g.result.value !in ctx.orderCodes && IsOrderCode(g.result.value))
      && (g.result.Success? ==> forall k :: 0 <= k < |g.queried| - 1 ==> g.queried[k] in ctx.orderCodes)
      && (g.result.Failure? <==> forall k :: 0 <= k < MaxAttempts ==> Candidate(rng, k) in ctx.orderCodes)
      && (g.result.Failure? ==> |g.queried| == MaxAttempts)
  {
    RetryQueries(ctx.orderCodes, rng, 0);
    RetryExhausted(ctx.orderCodes, rng, 0);
    RetryAccepts(ctx.orderCodes, rng, 0);
    var g := IntendedGenerate(Some(connection), ctx, rng);
    if g.result.Success? {
      CandidateShape(rng, |g.queried| - 1);
    }
  }

  /** The facts `Generate` promises about its own result. */
  lemma GenerateSummary(connection: Option<TransactionalConnection>, ctx: RequestContext, rng: nat -> Token)
    ensures var g := IntendedGenerate(connection, ctx, rng);
      && |g.queried| <= MaxAttempts
      && (g.result.Success? ==> IsOrderCode(g.result.value))
      && (connection.Some? && g.result.Success? ==> g.result.value !in ctx.orderCodes)
  {
    if connection.Some? {
      GenerateSpec(connection.value, ctx, rng);
    } else {
      CandidateShape(rng, 0);
    }
  }

  /** A first candidate that is free is returned after exactly one query. */
  lemma FirstCandidateFree(connection: TransactionalConnection, ctx: RequestContext, rng: nat -> Token)
    requires Candidate(rng, 0) !in ctx.orderCodes
    ensures IntendedGenerate(Some(connection), ctx, rng) == Generation(Success(Candidate(rng, 0)), [Candidate(rng, 0)])
  {
    CountZeroIff(ctx.orderCodes, Candidate(rng, 0));
  }

  /** The tokens 000001, 000002, 000003, ... against a table holding R000001
      and R000002: the call returns R000003 after three queries. */
  lemma ThirdCandidateScenario(connection: TransactionalConnection)
    ensures var rng: nat -> Token := (k: nat) => if k == 0 then "000001" else if k == 1 then "000002" else "000003";
      IntendedGenerate(Some(connection), RequestContext(["R000001", "R000002"]), rng)
        == Generation(Success("R000003"), ["R000001", "R000002", "R000003"])
  {
    var rng: nat -> Token := (k: nat) => if k == 0 then "000001" else if k == 1 then "000002" else "000003";
    var orders := ["R000001", "R000002"];
    assert Candidate(rng, 0) == "R000001";
    assert Candidate(rng, 1) == "R000002";
    assert Candidate(rng, 2) == "R000003";
    CountZeroIff(orders, "R000001");
    CountZeroIff(orders, "R000002");
    CountZeroIff(orders, "R000003");
  }

  // ---------------------------------------------------------------------
  // `generate` as written: `for (let i = 0; i++; )`.

  /** The loop as written, entered at counter value `i`: the condition
      `i++` yields the old counter (0 is falsy) and then increments it;
      there is no update clause. */
  function AsWrittenLoop(orders: seq<string>, rng: nat -> Token, i: nat, drawn: nat, code: string, queried: seq<string>): Generation
    decreases MaxAttempts - i
  {
    var test, next := i, i + 1;
    if test == 0 then Generation(Success(code), queried)
    else if next >= MaxAttempts then Generation(Failure(InternalServerError(ExhaustedMessage)), queried)
    else if CountOrders(orders, code) == 0 then Generation(Success(code), queried + [code])
    else AsWrittenLoop(orders, rng, next, drawn + 1, Candidate(rng, drawn), queried + [code])
  }

  /** `generate` as written: the loop condition is 0 on its first test, so
      even with a connection the first candidate comes back unqueried. */
  function GenerateAsWritten(connection: Option<TransactionalConnection>, ctx: RequestContext, rng: nat -> Token): (g: Generation)
    ensures g == Generation(Success(Candidate(rng, 0)), [])
  {
    var code := Candidate(rng, 0);
    if connection.None? then Generation(Success(code), [])
    else AsWrittenLoop(ctx.orderCodes, rng, 0, 1, code, [])
  }

  /** As written, a bound connection does not prevent a duplicate: when the
      first candidate is already an order's code, it is returned anyway,
      where the intended loop returns a code no order has. */
  lemma AsWrittenReturnsExistingCode(connection: TransactionalConnection, ctx: RequestContext, rng: nat -> Token)
    requires Candidate(rng, 0) in ctx.orderCodes
    ensures GenerateAsWritten(Some(connection), ctx, rng).result.value in ctx.orderCodes
    ensures var g := IntendedGenerate(Some(connection), ctx, rng);
      g.result.Success? ==> g.result.value !in ctx.orderCodes
  {
    GenerateSpec(connection, ctx, rng);
  }

  /** The intended loop entered at counter value `i` after asking about
      `queried`: the loop's own state, step by step. */
  function RetryFrom(orders: seq<string>, rng: nat -> Token, i: nat, queried: seq<string>): Generation
    decreases MaxAttempts - i
  {
    if i >= MaxAttempts then Generation(Failure(InternalServerError(ExhaustedMessage)), queried)
    else if CountOrders(orders, Candidate(rng, i)) == 0 then
      Generation(Success(Candidate(rng, i)), queried + [Candidate(rng, i)])
    else RetryFrom(orders, rng, i + 1, queried + [Candidate(rng, i)])
  }

  /** The step-by-step loop is Retry, with the codes asked about so far in front. */
  lemma {:induction false} RetryFromRetry(orders: seq<string>, rng: nat -> Token, i: nat, queried: seq<string>)
    ensures var g := Retry(orders, rng, i);
      RetryFrom(orders, rng, i, queried) == Generation(g.result, queried + g.queried)
    decreases MaxAttempts - i
  {
    if i < MaxAttempts && CountOrders(orders, Candidate(rng, i)) != 0 {
      var c := Candidate(rng, i);
      RetryFromRetry(orders, rng, i + 1, queried + [c]);
      var rest := Retry(orders, rng, i + 1);
      assert (queried + [c]) + rest.queried == queried + ([c] + rest.queried);
    }
  }

  // ---------------------------------------------------------------------
  // The strategy object.

  class ShortOrderCodeStrategy {
    var connection: Option<TransactionalConnection>

    /** No connection until `init` runs. */
    constructor ()
      ensures connection == None
    {
      connection := None;
    }

    /** `init`: binds the connection and changes nothing else. */
    method Init(injector: Injector)
      modifies this
      ensures connection == Some(injector.connection)
    {
      connection := Some(injector.connection);
    }

    /** `generate`, with the retry loop the authors intended.  It reads the
        connection and changes no state. */
    method Generate(ctx: RequestContext, rng: nat -> Token) returns (g: Generation)
      ensures g == IntendedGenerate(connection, ctx, rng)
      ensures connection.None? ==> g == Generation(Success(Candidate(rng, 0)), [])
      ensures |g.queried| <= MaxAttempts
      ensures g.result.Success? ==> IsOrderCode(g.result.value)
      ensures connection.Some? && g.result.Success? ==> g.result.value !in ctx.orderCodes
    {
      var code := CreateId(DefaultPrefix, rng(0));
      var queried: seq<string> := [];
      if connection.Some? {
        var i: nat := 0;
        while true
          invariant i <= MaxAttempts
          invariant code == Candidate(rng, i)
          invariant RetryFrom(ctx.orderCodes, rng, i, queried) == RetryFrom(ctx.orderCodes, rng, 0, [])
          decreases MaxAttempts - i
        {
          if i >= MaxAttempts {
            g := Generation(Failure(InternalServerError(ExhaustedMessage)), queried);
            break;
          }
          var orderExists := CountOrders(ctx.orderCodes, code);
          queried := queried + [code];
          if orderExists == 0 {
            g := Generation(Success(code), queried);
            break;
          }
          code := CreateId(DefaultPrefix, rng(i + 1));
          i := i + 1;
        }
        RetryFromRetry(ctx.orderCodes, rng, 0, []);
        assert [] + Retry(ctx.orderCodes, rng, 0).queried == Retry(ctx.orderCodes, rng, 0).queried;
      } else {
        g := Generation(Success(code), queried);
      }
      GenerateSummary(connection, ctx, rng);
    }
  }
}
