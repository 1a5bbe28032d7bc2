/** bosh/client.go's getToken: a UAA token kept until 60 s before it expires.
    Times are nanoseconds; durations wrap at 64 bits as Go's do. */
module TokenCache {
  import opened Strings
  import opened Decimal

  const SECOND := 1_000_000_000
  const HTTP_TIMEOUT := 60 * SECOND
  const MODULUS := 0x1_0000_0000_0000_0000

  datatype Token = Token(accessToken: string, expiresAt: int)

  datatype UaaReply = RequestFailed | BadStatus | Undecodable | Granted(accessToken: string, expiresIn: int)

  /** One call of getToken: the clock at the cache check, the UAA's reply should it
      be asked, and the clock once that reply is decoded. */
  datatype Call = Call(now: int, reply: UaaReply, stored: int)

  datatype Outcome = FromCache(token: string) | Fetched(token: string) | Failed

  function Wrap(x: int): int {
    (x - MIN_INT) % MODULUS + MIN_INT
  }

  /** time.Duration(margin) * time.Second with margin clamped at zero. */
  function Lifetime(expiresIn: int): int {
    var margin := Wrap(expiresIn - 60);
    Wrap((if margin < 0 then 0 else margin) * SECOND)
  }

  predicate Served(token: Option<Token>, now: int) {
    token.Some? && now < token.value.expiresAt
  }

  function Next(token: Option<Token>, c: Call): Option<Token> {
    if !Served(token, c.now) && c.reply.Granted?
    then Some(Token(c.reply.accessToken, c.stored + Lifetime(c.reply.expiresIn)))
    else token
  }

  function Result(token: Option<Token>, c: Call): Outcome {
    if Served(token, c.now) then FromCache(token.value.accessToken)
    else if c.reply.Granted? then Fetched(c.reply.accessToken)
    else Failed
  }

  /** The client object; tokenMu makes its calls run one after another. */
  class Client {
    var token: Option<Token>

    constructor ()
      ensures token == None
    {
      token := None;
    }

    method GetToken(c: Call) returns (out: Outcome)
      modifies this
      ensures token == Next(old(token), c)
      ensures out == Result(old(token), c)
    {
      if token.Some? && c.now < token.value.expiresAt {
        return FromCache(token.value.accessToken);
      }
      if !c.reply.Granted? {
        return Failed;
      }
      var margin := Wrap(c.reply.expiresIn - 60);
      if margin < 0 {
        margin := 0;
      }
      token := Some(Token(c.reply.accessToken, c.stored + Wrap(margin * SECOND)));
      out := Fetched(token.value.accessToken);
    }
  }

  /** The cache after a run of calls. */
  function After(calls: seq<Call>): Option<Token> {
    if calls == [] then None else Next(After(calls[..|calls| - 1]), calls[|calls| - 1])
  }

  function ResultAt(calls: seq<Call>, i: nat): Outcome
    requires i < |calls|
  {
    Result(After(calls[..i]), calls[i])
  }

  /** A monotone clock; each request takes at most the HTTP timeout; each token is
      issued, at issued[i], while its request is under way. */
  predicate WellTimed(calls: seq<Call>, issued: seq<int>) {
    |issued| == |calls|
    && (forall i :: 0 <= i < |calls| ==>
          calls[i].now <= issued[i] <= calls[i].stored <= calls[i].now + HTTP_TIMEOUT)
    && (forall i, j :: 0 <= i < j < |calls| ==> calls[i].stored <= calls[j].now)
    && (forall i :: 0 <= i < |calls| && calls[i].reply.Granted? ==> InRange(calls[i].reply.expiresIn))
  }

  lemma WrapIsBelow(x: int)
    requires x >= MIN_INT
    ensures Wrap(x) <= x && (InRange(x) ==> Wrap(x) == x)
  {
  }

  lemma WrapPeriod(y: int)
    requires InRange(y)
    ensures Wrap(y + SECOND / 2 * MODULUS) == y
  {
  }

  /** The cached lifetime never exceeds the true one less a minute, not even where
      the arithmetic wraps, and is not positive for lifetimes of up to a minute. */
  lemma LifetimeBound(expiresIn: int)
    requires InRange(expiresIn)
    ensures expiresIn <= 60 ==> Lifetime(expiresIn) <= 0
    ensures expiresIn > 60 ==> Lifetime(expiresIn) <= (expiresIn - 60) * SECOND
  {
    var left := expiresIn - 60;
    if left >= MIN_INT {
      WrapIsBelow(left);
      WrapIsBelow((if left < 0 then 0 else left) * SECOND);
    } else {
      assert Wrap(left) == left + MODULUS > 0;
      WrapPeriod((left - MIN_INT) * SECOND);
      assert (left + MODULUS) * SECOND == (left - MIN_INT) * SECOND + SECOND / 2 * MODULUS;
    }
  }

  /** Where a cached token comes from. */
  predicate ComesFrom(calls: seq<Call>, j: nat, t: Token) {
    j < |calls|
    && calls[j].reply.Granted?
    && ResultAt(calls, j) == Fetched(t.accessToken)
    && calls[j].reply.accessToken == t.accessToken
    && t.expiresAt == calls[j].stored + Lifetime(calls[j].reply.expiresIn)
  }

  lemma {:induction false} CacheHasSource(calls: seq<Call>, n: nat) returns (j: nat)
    requires n <= |calls| && After(calls[..n]).Some?
    ensures j < n && ComesFrom(calls, j, After(calls[..n]).value)
  {
    assert calls[..n][..n - 1] == calls[..n - 1];
    var before := After(calls[..n - 1]);
    var last := calls[n - 1];
    if !Served(before, last.now) && last.reply.Granted? {
      j := n - 1;
    } else {
      j := CacheHasSource(calls, n - 1);
    }
  }

  /** A token served from the cache is the one some earlier call fetched, is not yet
      past its own expires_in, and had an expires_in of more than a minute. */
  lemma CachedTokenIsFresh(calls: seq<Call>, issued: seq<int>, i: nat)
    requires WellTimed(calls, issued) && i < |calls|
    requires ResultAt(calls, i).FromCache?
    ensures exists j: nat ::
              && j < i
              && ResultAt(calls, j) == Fetched(ResultAt(calls, i).token)
              && calls[j].reply.Granted?
              && calls[j].reply.expiresIn > 60
              && calls[i].now < issued[j] + calls[j].reply.expiresIn * SECOND
  {
    var j := CacheHasSource(calls, i);
    LifetimeBound(calls[j].reply.expiresIn);
    assert calls[j].stored <= calls[i].now;
  }

  /** A token issued at the very start of a request that uses up the whole timeout is
      served from the cache at every later moment before it expires, and at no other. */
  ghost predicate ServedThroughout(start: int, token: string, expiresIn: int) {
    var first := Call(start, Granted(token, expiresIn), start + HTTP_TIMEOUT);
    forall later: Call | later.now >= first.stored ::
      ResultAt([first, later], 1).FromCache? <==> later.now < start + expiresIn * SECOND
  }

  lemma CachedUntil(first: Call, later: Call)
    requires first.reply.Granted?
    ensures ResultAt([first, later], 1).FromCache? <==> later.now < first.stored + Lifetime(first.reply.expiresIn)
  {
    assert [first, later][..1] == [first] && [first][..0] == [];
    assert After([first]) == Some(Token(first.reply.accessToken, first.stored + Lifetime(first.reply.expiresIn)));
  }

  lemma LifetimeIsExact(expiresIn: int)
    requires InRange(expiresIn) && expiresIn > 60
    ensures Lifetime(expiresIn) == (expiresIn - 60) * SECOND <==> InRange((expiresIn - 60) * SECOND)
  {
  }

  /** The margin is exactly the timeout, unless the lifetime wraps: then the token is
      given up too early. */
  lemma MarginMatchesTimeout(start: int, token: string, expiresIn: int)
    requires InRange(expiresIn)
    ensures ServedThroughout(start, token, expiresIn) <==> expiresIn <= 60 || InRange((expiresIn - 60) * SECOND)
  {
    var first := Call(start, Granted(token, expiresIn), start + HTTP_TIMEOUT);
    LifetimeBound(expiresIn);
    forall later: Call
      ensures ResultAt([first, later], 1).FromCache? <==> later.now < first.stored + Lifetime(expiresIn)
    {
      CachedUntil(first, later);
    }
    if expiresIn > 60 {
      LifetimeIsExact(expiresIn);
      var kept := Lifetime(expiresIn);
      var later := Call(first.stored + if kept < 0 then 0 else kept, RequestFailed, start);
      assert !ResultAt([first, later], 1).FromCache?;
    }
  }
}
