/** Password-reset codes of the one admin account (backend/app/api/auth.py): requests are
    handled one at a time, past their throttle and password-length checks. */
module ResetCodes {
  import opened Wrappers

  /** hash stands for the stored hash; used says that used_at is set. */
  datatype Code = Code(hash: int, expires: int, used: bool, attempts: int)

  /** matches is the outcome of checking the submitted code against a stored hash. */
  datatype Request =
    | Forgot(hash: int, expires: int)
    | Reset(now: int, matches: int -> bool)

  /** What happened to which code, by its position in the table. */
  datatype Event = Issued(code: nat) | Checked(code: nat) | Accepted(code: nat)

  function UseAll(codes: seq<Code>): (r: seq<Code>)
    ensures |r| == |codes|
    ensures forall i :: 0 <= i < |r| ==> r[i] == codes[i].(used := true)
  {
    seq(|codes|, i requires 0 <= i < |codes| => codes[i].(used := true))
  }

  /** The newest code that is unused and has not expired. */
  function Newest(codes: seq<Code>, now: int): (r: Option<nat>)
    ensures r.Some? ==> r.value < |codes| && !codes[r.value].used && now < codes[r.value].expires
    ensures forall i :: 0 <= i < |codes| && !codes[i].used && now < codes[i].expires ==> r.Some? && i <= r.value
  {
    if codes == [] then None
    else if !codes[|codes| - 1].used && now < codes[|codes| - 1].expires then Some(|codes| - 1)
    else Newest(codes[..|codes| - 1], now)
  }

  datatype Served = Served(codes: seq<Code>, events: seq<Event>)

  /** The effect of one request on the table. */
  function Serve(codes: seq<Code>, request: Request): Served {
    match request
    case Forgot(hash, expires) =>
      Served(UseAll(codes) + [Code(hash, expires, false, 0)], [Issued(|codes|)])
    case Reset(now, matches) =>
      var newest := Newest(codes, now);
      if newest.None? then Served(codes, []) else
      var i := newest.value;
      var tried := codes[i].(attempts := codes[i].attempts + 1);
      if tried.attempts > 6 then Served(codes[i := tried.(used := true)], [])
      else if !matches(tried.hash) then Served(codes[i := tried], [Checked(i)])
      else Served(codes[i := tried.(used := true)], [Checked(i), Accepted(i)])
  }

  function Run(requests: seq<Request>): Served {
    if requests == [] then Served([], [])
    else
      var before := Run(requests[..|requests| - 1]);
      var served := Serve(before.codes, requests[|requests| - 1]);
      Served(served.codes, before.events + served.events)
  }

  function Count(events: seq<Event>, e: Event): nat {
    if events == [] then 0
    else Count(events[..|events| - 1], e) + if events[|events| - 1] == e then 1 else 0
  }

  lemma {:induction false} CountAppend(a: seq<Event>, b: seq<Event>, e: Event)
    ensures Count(a + b, e) == Count(a, e) + Count(b, e)
  {
    if b == [] {
      assert a + b == a;
    } else {
      CountAppend(a, b[..|b| - 1], e);
      assert (a + b)[..|a + b| - 1] == a + b[..|b| - 1];
    }
  }

  /** The requests handlers, updating the table in place. */
  class Desk {
    var codes: seq<Code>

    constructor ()
      ensures codes == []
    {
      codes := [];
    }

    /** forgot, up to its commit */
    method IssueCode(hash: int, expires: int)
      modifies this
      ensures codes == Serve(old(codes), Forgot(hash, expires)).codes
    {
      ghost var before := codes;
      for i := 0 to |codes|
        invariant |codes| == |before|
        invariant forall k :: 0 <= k < |codes| ==> codes[k] == if k < i then before[k].(used := true) else before[k]
      {
        if !codes[i].used {
          codes := codes[i := codes[i].(used := true)];
        }
      }
      assert codes == UseAll(before);
      codes := codes + [Code(hash, expires, false, 0)];
    }

    /** reset: accepted tells whether the password was changed. */
    method TryCode(now: int, matches: int -> bool) returns (accepted: bool)
      modifies this
      ensures codes == Serve(old(codes), Reset(now, matches)).codes
      ensures accepted <==> exists i: nat :: Accepted(i) in Serve(old(codes), Reset(now, matches)).events
    {
      accepted := false;
      var entry := Newest(codes, now);
      if entry.None? { return; }
      var i := entry.value;
      codes := codes[i := codes[i].(attempts := codes[i].attempts + 1)];
      if codes[i].attempts > 6 {
        codes := codes[i := codes[i].(used := true)];
        return;
      }
      if !matches(codes[i].hash) { return; }
      codes := codes[i := codes[i].(used := true)];
      accepted := true;
      assert Accepted(i) in Serve(old(codes), Reset(now, matches)).events;
    }
  }

  /** Only the last code can be unused, and its counters agree with what happened. */
  ghost predicate CodeOk(s: Served, i: nat) {
    if i < |s.codes| then
      var c := s.codes[i];
      && (i + 1 < |s.codes| ==> c.used)
      && 0 <= c.attempts && (c.attempts > 6 ==> c.used)
      && Count(s.events, Checked(i)) == (if c.attempts < 6 then c.attempts else 6)
      && Count(s.events, Accepted(i)) <= (if c.used then 1 else 0)
    else
      Count(s.events, Checked(i)) == 0 && Count(s.events, Accepted(i)) == 0
  }

  ghost predicate LedgerOk(s: Served) {
    forall i: nat :: CodeOk(s, i)
  }

  lemma CountShort(events: seq<Event>, e: Event)
    requires |events| <= 2
    ensures Count(events, e) ==
      (if |events| > 0 && events[0] == e then 1 else 0) + (if |events| > 1 && events[1] == e then 1 else 0)
  {
    if |events| == 2 {
      assert events[..1] == [events[0]];
      assert Count([events[0]], e) == Count([events[0]][..0], e) + if events[0] == e then 1 else 0;
    }
  }

  lemma ServeKeepsCode(codes: seq<Code>, events: seq<Event>, request: Request, i: nat)
    requires CodeOk(Served(codes, events), i)
    ensures CodeOk(Served(Serve(codes, request).codes, events + Serve(codes, request).events), i)
  {
    var s' := Serve(codes, request);
    CountAppend(events, s'.events, Checked(i));
    CountAppend(events, s'.events, Accepted(i));
    CountShort(s'.events, Checked(i));
    CountShort(s'.events, Accepted(i));
  }

  lemma {:induction false} RunKeepsLedger(requests: seq<Request>)
    ensures LedgerOk(Run(requests))
  {
    if requests != [] {
      RunKeepsLedger(requests[..|requests| - 1]);
      var before := Run(requests[..|requests| - 1]);
      forall i: nat ensures CodeOk(Run(requests), i) {
        ServeKeepsCode(before.codes, before.events, requests[|requests| - 1], i);
      }
    }
  }

  /** Over any sequence of requests at most one code is unused, no code is checked against
      a guess more than six times, and none is accepted twice. */
  lemma CodesAreSingleUse(requests: seq<Request>, i: nat)
    ensures Count(Run(requests).events, Checked(i)) <= 6
    ensures Count(Run(requests).events, Accepted(i)) <= 1
    ensures forall k, l :: 0 <= k < l < |Run(requests).codes| ==> Run(requests).codes[k].used || Run(requests).codes[l].used
  {
    RunKeepsLedger(requests);
    assert CodeOk(Run(requests), i);
    forall k: nat | k + 1 < |Run(requests).codes| ensures Run(requests).codes[k].used {
      assert CodeOk(Run(requests), k);
    }
  }

  /** A reset is accepted exactly when the last code issued is unused, unexpired, was tried
      fewer than six times, and matches; so never a code that a later one replaced. */
  lemma AcceptedIff(requests: seq<Request>, now: int, matches: int -> bool, i: nat)
    ensures var codes := Run(requests).codes;
      Accepted(i) in Serve(codes, Reset(now, matches)).events <==>
        && i + 1 == |codes| && !codes[i].used && now < codes[i].expires
        && codes[i].attempts < 6 && matches(codes[i].hash)
  {
    RunKeepsLedger(requests);
    var codes := Run(requests).codes;
    forall k: nat | k + 1 < |codes| ensures codes[k].used {
      assert CodeOk(Run(requests), k);
    }
    AcceptedOf(codes, now, matches, i);
  }

  /** The same of any table in which only the last code can be unused. */
  lemma AcceptedOf(codes: seq<Code>, now: int, matches: int -> bool, i: nat)
    requires forall k: nat :: k + 1 < |codes| ==> codes[k].used
    ensures Accepted(i) in Serve(codes, Reset(now, matches)).events <==>
      && i + 1 == |codes| && !codes[i].used && now < codes[i].expires
      && codes[i].attempts < 6 && matches(codes[i].hash)
  {
    var newest := Newest(codes, now);
    if newest.Some? && newest.value == i {
      assert Accepted(i) in [Checked(i), Accepted(i)];
    }
  }

  predicate WrongGuess(request: Request, hash: int) {
    request.Reset? && !request.matches(hash)
  }

  /** The guesses made before the code expired. */
  function Tries(guesses: seq<Request>, expires: int): nat {
    if guesses == [] then 0
    else
      var last := guesses[|guesses| - 1];
      Tries(guesses[..|guesses| - 1], expires) + if last.Reset? && last.now < expires then 1 else 0
  }

  lemma {:induction false} AllOlderUsed(requests: seq<Request>, hash: int, expires: int)
    ensures var codes := Run(requests + [Forgot(hash, expires)]).codes;
      && |codes| == |Run(requests).codes| + 1
      && codes[|codes| - 1] == Code(hash, expires, false, 0)
      && forall i :: 0 <= i < |codes| - 1 ==> codes[i].used
  {
    assert (requests + [Forgot(hash, expires)])[..|requests|] == requests;
  }

  /** The table when n codes are used up and one issued after them was tried so often. */
  predicate Tried(codes: seq<Code>, n: nat, hash: int, expires: int, tries: nat) {
    && |codes| == n + 1 && (forall i :: 0 <= i < n ==> codes[i].used)
    && codes[n] == Code(hash, expires, tries > 6, if tries > 6 then 7 else tries)
  }

  lemma OneGuess(codes: seq<Code>, n: nat, hash: int, expires: int, tries: nat, guess: Request)
    requires Tried(codes, n, hash, expires, tries) && WrongGuess(guess, hash)
    ensures Tried(Serve(codes, guess).codes, n, hash, expires, tries + if guess.now < expires then 1 else 0)
  {
    assert Newest(codes, guess.now).Some? ==> Newest(codes, guess.now).value == n;
  }

  /** What wrong guesses do to a code: each one made in time counts as an attempt, and the
      seventh uses the code up. */
  lemma {:induction false} GuessesCount(requests: seq<Request>, hash: int, expires: int, guesses: seq<Request>)
    requires forall i :: 0 <= i < |guesses| ==> WrongGuess(guesses[i], hash)
    ensures Tried(Run(requests + [Forgot(hash, expires)] + guesses).codes, |Run(requests).codes|,
                  hash, expires, Tries(guesses, expires))
  {
    var start := requests + [Forgot(hash, expires)];
    if guesses == [] {
      assert start + guesses == start;
      AllOlderUsed(requests, hash, expires);
    } else {
      var k := |guesses| - 1;
      GuessesCount(requests, hash, expires, guesses[..k]);
      assert (start + guesses)[..|start| + k] == start + guesses[..k];
      assert (start + guesses)[|start| + k] == guesses[k];
      OneGuess(Run(start + guesses[..k]).codes, |Run(requests).codes|, hash, expires,
        Tries(guesses[..k], expires), guesses[k]);
    }
  }

  /** A code that was issued last is accepted exactly while it is unexpired, fewer than six
      wrong guesses were made in time, and the submitted code matches it. */
  lemma LastCodeAccepted(requests: seq<Request>, hash: int, expires: int, guesses: seq<Request>, now: int, matches: int -> bool)
    requires forall i :: 0 <= i < |guesses| ==> WrongGuess(guesses[i], hash)
    ensures var before := Run(requests + [Forgot(hash, expires)] + guesses).codes;
      Accepted(|Run(requests).codes|) in Serve(before, Reset(now, matches)).events <==>
        now < expires && Tries(guesses, expires) < 6 && matches(hash)
  {
    GuessesCount(requests, hash, expires, guesses);
    AcceptedIff(requests + [Forgot(hash, expires)] + guesses, now, matches, |Run(requests).codes|);
  }
}
