/** Routing of exposed hosts: the authoritative lookup of the panel
    (backend/app/api/internal.py) and the exposure proxy's cache of it
    (backend/app/exposure_proxy.py). Times are readings of the proxy's monotonic clock. */
module Exposure {
  import opened Wrappers
  import opened Entities

  datatype Exposed = Exposed(vm: VmRow, slug: string, port: int, enabled: bool)

  datatype Tables = Tables(vms: seq<Vm>, exposed: seq<Exposed>)

  /** Where to connect, and the VM row it was taken from. */
  datatype Dial = Dial(vm: VmRow, ip: string, port: int)

  // ---------------------------------------------------------------- the lookup

  function IndexOf(s: string, c: char): (r: nat)
    ensures r <= |s|
    ensures r < |s| ==> s[r] == c
    ensures forall i :: 0 <= i < r ==> s[i] != c
  {
    if s == [] || s[0] == c then 0 else 1 + IndexOf(s[1..], c)
  }

  /** What str.strip() strips */
  predicate IsSpace(c: char) {
    || c == ' ' || '\t' <= c <= '\r' || '\U{1C}' <= c <= '\U{1F}'
    || c == '\U{85}' || c == '\U{A0}' || c == '\U{1680}' || '\U{2000}' <= c <= '\U{200A}'
    || c == '\U{2028}' || c == '\U{2029}' || c == '\U{202F}' || c == '\U{205F}' || c == '\U{3000}'
  }

  function Strip(s: string): string
    decreases |s|
  {
    if s == [] then s
    else if IsSpace(s[0]) then Strip(s[1..])
    else if IsSpace(s[|s| - 1]) then Strip(s[..|s| - 1])
    else s
  }

  /** The slug that a Host header names under the base domain. */
  function SlugOf(host: string, domain: string): Option<string> {
    var normalized := Lower(Strip(host[..IndexOf(host, ':')]));
    var suffix := "." + Lower(domain);
    if |suffix| <= |normalized| && normalized[|normalized| - |suffix|..] == suffix
    then Some(normalized[..|normalized| - |suffix|])
    else None
  }

  predicate Blank(s: string) {
    forall i :: 0 <= i < |s| ==> IsSpace(s[i])
  }

  predicate Trimmed(s: string) {
    s == "" || (!IsSpace(s[0]) && !IsSpace(s[|s| - 1]))
  }

  /** A Host header that names a slug under the domain: white space around a name in any
      case, and perhaps a port, which starts at the first colon. */
  predicate NamesSlug(host: string, before: string, name: string, after: string, port: string, slug: string, domain: string) {
    && host == before + name + after + port
    && Blank(before) && Blank(after) && Trimmed(name)
    && ':' !in before + name + after && (port == "" || port[0] == ':')
    && SameIgnoringCase(name, slug + "." + domain) && NoCapitals(slug)
  }

  lemma {:induction false} StripTakes(before: string, name: string, after: string)
    requires Blank(before) && Blank(after) && Trimmed(name)
    ensures Strip(before + name + after) == name
    decreases |before| + |after|
  {
    var s := before + name + after;
    if before != "" {
      assert s[1..] == before[1..] + name + after;
      StripTakes(before[1..], name, after);
    } else if name == "" {
      if after != "" {
        assert s == after && after[0] == s[0] && s[1..] == "" + "" + after[1..];
        StripTakes("", "", after[1..]);
      }
    } else if after != "" {
      assert s[0] == name[0] && s[|s| - 1] == after[|after| - 1];
      assert s[..|s| - 1] == before + name + after[..|after| - 1];
      StripTakes(before, name, after[..|after| - 1]);
    } else {
      assert s == name;
    }
  }

  predicate IsSplit(s: string, before: string, name: string, after: string) {
    s == before + name + after && Blank(before) && Blank(after) && Trimmed(name)
  }

  lemma GrowLeft(s: string, before: string, name: string, after: string)
    requires s != "" && IsSpace(s[0]) && IsSplit(s[1..], before, name, after)
    ensures IsSplit(s, [s[0]] + before, name, after)
  {
    assert s == [s[0]] + s[1..];
  }

  lemma GrowRight(s: string, before: string, name: string, after: string)
    requires s != "" && IsSpace(s[|s| - 1]) && IsSplit(s[..|s| - 1], before, name, after)
    ensures IsSplit(s, before, name, after + [s[|s| - 1]])
  {
    assert s == s[..|s| - 1] + [s[|s| - 1]];
  }

  lemma {:induction false} StripSplits(s: string) returns (before: string, after: string)
    ensures IsSplit(s, before, Strip(s), after)
    decreases |s|
  {
    if s != "" && IsSpace(s[0]) {
      before, after := StripSplits(s[1..]);
      GrowLeft(s, before, Strip(s), after);
      before := [s[0]] + before;
    } else if s != "" && IsSpace(s[|s| - 1]) {
      before, after := StripSplits(s[..|s| - 1]);
      GrowRight(s, before, Strip(s), after);
      after := after + [s[|s| - 1]];
    } else {
      before, after := "", "";
      assert s == "" + s + "";
    }
  }

  lemma {:induction false} FirstColon(a: string, rest: string)
    requires ':' !in a && (rest == "" || rest[0] == ':')
    ensures IndexOf(a + rest, ':') == |a|
  {
    if a == "" {
      assert a + rest == rest;
    } else {
      assert (a + rest)[1..] == a[1..] + rest && a[0] in a;
      FirstColon(a[1..], rest);
    }
  }

  lemma LowerConcat(a: string, b: string)
    ensures Lower(a + b) == Lower(a) + Lower(b)
  {
  }

  /** The header's reading, one way: whatever names a slug is read as that slug. */
  lemma SlugIsRead(host: string, before: string, name: string, after: string, port: string, slug: string, domain: string)
    requires NamesSlug(host, before, name, after, port, slug, domain)
    ensures SlugOf(host, domain) == Some(slug)
  {
    var shown := before + name + after;
    FirstColon(shown, port);
    assert host[..|shown|] == shown;
    StripTakes(before, name, after);
    var suffix := "." + Lower(domain);
    LowerIgnoresCase(name, slug + "." + domain);
    LowerConcat(slug + ".", domain);
    LowerConcat(slug, ".");
    LowerIsLower(slug);
    assert Lower(".") == ".";
    assert Lower(name) == slug + suffix;
  }

  lemma NameOfSlug(name: string, slug: string, domain: string)
    requires Lower(name) == slug + ("." + Lower(domain))
    ensures SameIgnoringCase(name, slug + "." + domain) && NoCapitals(slug)
  {
    LowerIsLower(name);
    assert forall i :: 0 <= i < |slug| ==> slug[i] == Lower(name)[i];
    LowerIsLower(slug);
    LowerConcat(slug + ".", domain);
    LowerConcat(slug, ".");
    assert Lower(".") == ".";
    LowerIgnoresCase(name, slug + "." + domain);
  }

  /** And the other way: a slug is read only from a header that names it. */
  lemma OnlyNamedSlugs(host: string, slug: string, domain: string)
      returns (before: string, name: string, after: string, port: string)
    requires SlugOf(host, domain) == Some(slug)
    ensures NamesSlug(host, before, name, after, port, slug, domain)
  {
    var n := IndexOf(host, ':');
    var shown := host[..n];
    port := host[n..];
    name := Strip(shown);
    before, after := StripSplits(shown);
    assert host == shown + port;
    var suffix := "." + Lower(domain);
    var low := Lower(name);
    assert low == low[..|low| - |suffix|] + low[|low| - |suffix|..];
    NameOfSlug(name, slug, domain);
  }

  /** Slugs are unique in the table, so the first enabled match is the only one. */
  function FindExposed(exposed: seq<Exposed>, slug: string): (r: Option<Exposed>)
    ensures r.Some? ==> r.value in exposed && r.value.slug == slug && r.value.enabled
    ensures r.None? ==> forall e :: e in exposed ==> !(e.slug == slug && e.enabled)
  {
    if exposed == [] then None
    else if exposed[0].slug == slug && exposed[0].enabled then Some(exposed[0])
    else FindExposed(exposed[1..], slug)
  }

  /** The slug column is unique. */
  ghost predicate UniqueSlugs(exposed: seq<Exposed>) {
    forall i, k :: 0 <= i < k < |exposed| ==> exposed[i].slug != exposed[k].slug
  }

  /** Exposure e routes the host to a live VM with an address. */
  predicate Routes(db: Tables, e: Exposed, host: string, domain: string) {
    && e.enabled && SlugOf(host, domain) == Some(e.slug)
    && e.vm < |db.vms| && !db.vms[e.vm].deleted && db.vms[e.vm].ip.Some? && db.vms[e.vm].ip.value != ""
  }

  /** exposure_upstream, for a caller that knows the proxy secret */
  function Upstream(db: Tables, host: string, domain: string): (r: Option<Dial>)
    ensures r.Some? ==>
      exists e :: e in db.exposed && Routes(db, e, host, domain) && r.value == Dial(e.vm, db.vms[e.vm].ip.value, e.port)
  {
    var slug := SlugOf(host, domain);
    if slug.None? then None else
    var e := FindExposed(db.exposed, slug.value);
    if e.None? || e.value.vm >= |db.vms| then None else
    var vm := db.vms[e.value.vm];
    if vm.deleted || vm.ip.None? || vm.ip.value == "" then None
    else
      assert Routes(db, e.value, host, domain);
      Some(Dial(e.value.vm, vm.ip.value, e.value.port))
  }

  /** The VM of an exposure can be dialled. */
  predicate Dialable(db: Tables, e: Exposed) {
    && e.enabled && e.vm < |db.vms| && !db.vms[e.vm].deleted
    && db.vms[e.vm].ip.Some? && db.vms[e.vm].ip.value != ""
  }

  /** For a header that names the slug of an exposure, the lookup answers with an address
      exactly when that exposure is enabled and its VM live and addressed, and then with
      that address and port. */
  lemma UpstreamIff(
      db: Tables, e: Exposed, host: string,
      before: string, name: string, after: string, port: string, domain: string)
    requires UniqueSlugs(db.exposed) && e in db.exposed
    requires NamesSlug(host, before, name, after, port, e.slug, domain)
    ensures Upstream(db, host, domain).Some? <==> Dialable(db, e)
    ensures Dialable(db, e) ==> Upstream(db, host, domain) == Some(Dial(e.vm, db.vms[e.vm].ip.value, e.port))
  {
    SlugIsRead(host, before, name, after, port, e.slug, domain);
    var i :| 0 <= i < |db.exposed| && db.exposed[i] == e;
    var found := FindExposed(db.exposed, e.slug);
    if found.Some? {
      var k :| 0 <= k < |db.exposed| && db.exposed[k] == found.value;
      assert i == k;
    }
  }

  /** And an address is answered only to a header that names an exposure. */
  lemma UpstreamOnlyNamed(db: Tables, host: string, domain: string)
      returns (e: Exposed, before: string, name: string, after: string, port: string)
    requires Upstream(db, host, domain).Some?
    ensures e in db.exposed && Dialable(db, e) && NamesSlug(host, before, name, after, port, e.slug, domain)
    ensures Upstream(db, host, domain) == Some(Dial(e.vm, db.vms[e.vm].ip.value, e.port))
  {
    e :| e in db.exposed && Routes(db, e, host, domain)
         && Upstream(db, host, domain).value == Dial(e.vm, db.vms[e.vm].ip.value, e.port);
    before, name, after, port := OnlyNamedSlugs(host, e.slug, domain);
  }

  // ---------------------------------------------------------------- the cache

  const TTL := 5.0

  datatype Entry = Entry(expiry: real, dial: Option<Dial>)

  /** Where a call of resolve stands: waiting for the panel, holding its reply, or over. */
  datatype Stage = Asking | Told(dial: Option<Dial>) | Over

  /** One call of resolve; began is its clock reading. */
  datatype Call = Call(host: string, began: real, stage: Stage)

  /** A value that resolve returned: for a call begun at began, at time at. */
  datatype Return = Return(host: string, began: real, at: real, dial: Option<Dial>)

  /** A lookup that the panel did not answer with a 200 reply to an accepted secret. */
  datatype Failure = Failure(host: string, at: real)

  /** cache is the proxy's module-level dictionary; returned and failures are history. */
  datatype Routing = Routing(
    cache: map<string, Entry>, calls: seq<Call>, clock: real, returned: seq<Return>, failures: seq<Failure>)

  /** Each event carries the time at which it happens. */
  datatype Event =
    | Start(host: string, now: real)
    | Look(call: nat, now: real, ok: bool)   // the panel looks the host up, or fails
    | End(call: nat, now: real)              // its reply is cached and returned
    | Drop(call: nat, now: real)             // the request to the panel raised

  /** The panel's tables at each time, as the lookup sees them. */
  type World = real -> Tables

  function EmptyProxy(clock: real): Routing {
    Routing(map[], [], clock, [], [])
  }

  function Hit(cache: map<string, Entry>, host: string, now: real): Option<Entry> {
    if host in cache && cache[host].expiry > now then Some(cache[host]) else None
  }

  predicate Possible(s: Routing, e: Event) {
    && s.clock <= e.now
    && match e
       case Start(_, _) => true
       case Look(i, _, _) => i < |s.calls| && s.calls[i].stage.Asking?
       case End(i, _) => i < |s.calls| && s.calls[i].stage.Told?
       case Drop(i, _) => i < |s.calls| && !s.calls[i].stage.Over?
  }

  function SetStage(calls: seq<Call>, i: nat, stage: Stage): seq<Call>
    requires i < |calls|
  {
    calls[i := calls[i].(stage := stage)]
  }

  function Happen(s: Routing, e: Event, world: World, domain: string): Routing
    requires Possible(s, e)
  {
    match e
    case Start(host, now) =>
      var hit := Hit(s.cache, host, now);
      if hit.Some? then s.(clock := now, returned := s.returned + [Return(host, now, now, hit.value.dial)])
      else s.(clock := now, calls := s.calls + [Call(host, now, Asking)])
    case Look(i, now, ok) =>
      var host := s.calls[i].host;
      if ok then s.(clock := now, calls := SetStage(s.calls, i, Told(Upstream(world(now), host, domain))))
      else s.(clock := now, calls := SetStage(s.calls, i, Told(None)), failures := s.failures + [Failure(host, now)])
    case End(i, now) =>
      var c := s.calls[i];
      s.(clock := now, calls := SetStage(s.calls, i, Over),
         cache := s.cache[c.host := Entry(c.began + TTL, c.stage.dial)],
         returned := s.returned + [Return(c.host, c.began, now, c.stage.dial)])
    case Drop(i, now) => s.(clock := now, calls := SetStage(s.calls, i, Over))
  }

  /** The state after a sequence of events, if each of them is possible. */
  function RunFrom(s: Routing, events: seq<Event>, world: World, domain: string): Option<Routing> {
    if events == [] then Some(s)
    else
      var before := RunFrom(s, events[..|events| - 1], world, domain);
      var e := events[|events| - 1];
      if before.Some? && Possible(before.value, e) then Some(Happen(before.value, e, world, domain)) else None
  }

  /** At time t the lookup gave this answer for the host, or failed, which reads as none. */
  ghost predicate Gave(s: Routing, world: World, domain: string, host: string, t: real, dial: Option<Dial>) {
    dial == Upstream(world(t), host, domain) || (dial.None? && Failure(host, t) in s.failures)
  }

  ghost predicate GaveSince(s: Routing, world: World, domain: string, host: string, from: real, dial: Option<Dial>) {
    exists t: real :: from <= t <= s.clock && Gave(s, world, domain, host, t, dial)
  }

  /** The answer was given less than TTL before the call began, or later, until it returned. */
  ghost predicate InTime(s: Routing, world: World, domain: string, r: Return) {
    exists t: real :: r.began - TTL < t <= r.at && Gave(s, world, domain, r.host, t, r.dial)
  }

  ghost predicate CacheOk(s: Routing, world: World, domain: string) {
    forall host :: host in s.cache ==>
      GaveSince(s, world, domain, host, s.cache[host].expiry - TTL, s.cache[host].dial)
  }

  ghost predicate CallsOk(s: Routing, world: World, domain: string) {
    forall i :: 0 <= i < |s.calls| ==>
      && s.calls[i].began <= s.clock
      && (s.calls[i].stage.Told? ==>
            GaveSince(s, world, domain, s.calls[i].host, s.calls[i].began, s.calls[i].stage.dial))
  }

  ghost predicate ReturnsOk(s: Routing, world: World, domain: string) {
    forall i :: 0 <= i < |s.returned| ==>
      s.returned[i].began <= s.returned[i].at <= s.clock && InTime(s, world, domain, s.returned[i])
  }

  ghost predicate RoutingOk(s: Routing, world: World, domain: string) {
    CacheOk(s, world, domain) && CallsOk(s, world, domain) && ReturnsOk(s, world, domain)
  }

  /** What was given stays given as time passes and failures are added. */
  lemma StillGiven(s: Routing, s': Routing, world: World, domain: string, host: string, from: real, dial: Option<Dial>)
    requires GaveSince(s, world, domain, host, from, dial) && s.clock <= s'.clock && s.failures <= s'.failures
    ensures GaveSince(s', world, domain, host, from, dial)
  {
    var t: real :| from <= t <= s.clock && Gave(s, world, domain, host, t, dial);
    assert Gave(s', world, domain, host, t, dial);
  }

  lemma StillInTime(s: Routing, s': Routing, world: World, domain: string, r: Return)
    requires InTime(s, world, domain, r) && s.failures <= s'.failures
    ensures InTime(s', world, domain, r)
  {
    var t: real :| r.began - TTL < t <= r.at && Gave(s, world, domain, r.host, t, r.dial);
    assert Gave(s', world, domain, r.host, t, r.dial);
  }

  /** The clock ticks, and a lookup may fail. */
  lemma TickKeeps(s: Routing, s': Routing, world: World, domain: string)
    requires RoutingOk(s, world, domain) && s.clock <= s'.clock && s.failures <= s'.failures
    requires s'.cache == s.cache && s'.calls == s.calls && s'.returned == s.returned
    ensures RoutingOk(s', world, domain)
  {
    forall host | host in s.cache
      ensures GaveSince(s', world, domain, host, s.cache[host].expiry - TTL, s.cache[host].dial)
    {
      StillGiven(s, s', world, domain, host, s.cache[host].expiry - TTL, s.cache[host].dial);
    }
    forall i | 0 <= i < |s.calls| && s.calls[i].stage.Told?
      ensures GaveSince(s', world, domain, s.calls[i].host, s.calls[i].began, s.calls[i].stage.dial)
    {
      StillGiven(s, s', world, domain, s.calls[i].host, s.calls[i].began, s.calls[i].stage.dial);
    }
    forall i | 0 <= i < |s.returned| ensures InTime(s', world, domain, s.returned[i]) {
      StillInTime(s, s', world, domain, s.returned[i]);
    }
  }

  /** A return of something given since a time later than TTL before the call. */
  lemma ReturnInTime(s: Routing, world: World, domain: string, r: Return, from: real)
    requires GaveSince(s, world, domain, r.host, from, r.dial) && r.began - TTL < from && r.at == s.clock
    ensures InTime(s, world, domain, r)
  {
    var t: real :| from <= t <= s.clock && Gave(s, world, domain, r.host, t, r.dial);
  }

  /** The part of the next state that the clock and the history of failures make up. */
  function Ticked(s: Routing, e: Event): Routing {
    s.(clock := e.now, failures := s.failures +
         if e.Look? && !e.ok && e.call < |s.calls| then [Failure(s.calls[e.call].host, e.now)] else [])
  }

  lemma StartKeeps(s: Routing, host: string, now: real, world: World, domain: string)
    requires RoutingOk(s, world, domain) && Possible(s, Start(host, now))
    ensures RoutingOk(Happen(s, Start(host, now), world, domain), world, domain)
  {
    var s1, s' := s.(clock := now), Happen(s, Start(host, now), world, domain);
    TickKeeps(s, s1, world, domain);
    SameAnswers(s1, s', world, domain);
    SetCalls(s1, s', world, domain);
    if Hit(s.cache, host, now).Some? {
      var r := Return(host, now, now, s.cache[host].dial);
      ReturnInTime(s1, world, domain, r, s.cache[host].expiry - TTL);
      AddReturn(s1, s', r, world, domain);
    }
  }

  /** A return is added. */
  lemma AddReturn(s: Routing, s': Routing, r: Return, world: World, domain: string)
    requires ReturnsOk(s, world, domain) && InTime(s, world, domain, r) && r.began <= r.at <= s.clock
    requires s'.clock == s.clock && s'.failures == s.failures && s'.returned == s.returned + [r]
    ensures ReturnsOk(s', world, domain)
  {
    forall i | 0 <= i < |s'.returned| ensures InTime(s', world, domain, s'.returned[i]) {
      StillInTime(s, s', world, domain, if i < |s.returned| then s.returned[i] else r);
    }
  }

  /** An entry of the cache is written. */
  lemma AddEntry(s: Routing, s': Routing, host: string, entry: Entry, world: World, domain: string)
    requires CacheOk(s, world, domain) && GaveSince(s, world, domain, host, entry.expiry - TTL, entry.dial)
    requires s'.clock == s.clock && s'.failures == s.failures && s'.cache == s.cache[host := entry]
    ensures CacheOk(s', world, domain)
  {
    forall h | h in s'.cache
      ensures GaveSince(s', world, domain, h, s'.cache[h].expiry - TTL, s'.cache[h].dial)
    {
      StillGiven(s, s', world, domain, h, s'.cache[h].expiry - TTL, s'.cache[h].dial);
    }
  }

  /** The calls change. */
  lemma SetCalls(s: Routing, s': Routing, world: World, domain: string)
    requires s'.clock == s.clock && s'.failures == s.failures
    requires forall i :: 0 <= i < |s'.calls| ==>
      && s'.calls[i].began <= s.clock
      && (s'.calls[i].stage.Told? ==>
            GaveSince(s, world, domain, s'.calls[i].host, s'.calls[i].began, s'.calls[i].stage.dial))
    ensures CallsOk(s', world, domain)
  {
    forall i | 0 <= i < |s'.calls| && s'.calls[i].stage.Told?
      ensures GaveSince(s', world, domain, s'.calls[i].host, s'.calls[i].began, s'.calls[i].stage.dial)
    {
      StillGiven(s, s', world, domain, s'.calls[i].host, s'.calls[i].began, s'.calls[i].stage.dial);
    }
  }

  /** Cache and returns are as before. */
  lemma SameAnswers(s: Routing, s': Routing, world: World, domain: string)
    requires CacheOk(s, world, domain) && ReturnsOk(s, world, domain)
    requires s'.clock == s.clock && s'.failures == s.failures
    ensures s'.cache == s.cache ==> CacheOk(s', world, domain)
    ensures s'.returned == s.returned ==> ReturnsOk(s', world, domain)
  {
    if s'.cache == s.cache {
      forall h | h in s.cache ensures GaveSince(s', world, domain, h, s.cache[h].expiry - TTL, s.cache[h].dial) {
        StillGiven(s, s', world, domain, h, s.cache[h].expiry - TTL, s.cache[h].dial);
      }
    }
    if s'.returned == s.returned {
      forall i | 0 <= i < |s.returned| ensures InTime(s', world, domain, s.returned[i]) {
        StillInTime(s, s', world, domain, s.returned[i]);
      }
    }
  }

  lemma LookKeeps(s: Routing, i: nat, now: real, ok: bool, world: World, domain: string)
    requires RoutingOk(s, world, domain) && Possible(s, Look(i, now, ok))
    ensures RoutingOk(Happen(s, Look(i, now, ok), world, domain), world, domain)
  {
    var s1 := Ticked(s, Look(i, now, ok));
    TickKeeps(s, s1, world, domain);
    var s' := Happen(s, Look(i, now, ok), world, domain);
    assert Gave(s1, world, domain, s.calls[i].host, now, s'.calls[i].stage.dial);
    SetCalls(s1, s', world, domain);
    SameAnswers(s1, s', world, domain);
  }

  lemma EndKeeps(s: Routing, i: nat, now: real, world: World, domain: string)
    requires RoutingOk(s, world, domain) && Possible(s, End(i, now))
    ensures RoutingOk(Happen(s, End(i, now), world, domain), world, domain)
  {
    var c := s.calls[i];
    var s1 := s.(clock := now);
    TickKeeps(s, s1, world, domain);
    var s' := Happen(s, End(i, now), world, domain);
    var r := Return(c.host, c.began, now, c.stage.dial);
    ReturnInTime(s1, world, domain, r, c.began);
    AddReturn(s1, s', r, world, domain);
    AddEntry(s1, s', c.host, Entry(c.began + TTL, c.stage.dial), world, domain);
    SetCalls(s1, s', world, domain);
  }

  lemma HappenKeeps(s: Routing, e: Event, world: World, domain: string)
    requires RoutingOk(s, world, domain) && Possible(s, e)
    ensures RoutingOk(Happen(s, e, world, domain), world, domain)
  {
    match e
    case Start(host, now) => StartKeeps(s, host, now, world, domain);
    case Look(i, now, ok) => LookKeeps(s, i, now, ok, world, domain);
    case End(i, now) => EndKeeps(s, i, now, world, domain);
    case Drop(i, now) =>
      TickKeeps(s, s.(clock := now), world, domain);
      SameAnswers(s.(clock := now), Happen(s, e, world, domain), world, domain);
      SetCalls(s.(clock := now), Happen(s, e, world, domain), world, domain);
  }

  lemma {:induction false} RunKeeps(clock: real, events: seq<Event>, world: World, domain: string)
    requires RunFrom(EmptyProxy(clock), events, world, domain).Some?
    ensures RoutingOk(RunFrom(EmptyProxy(clock), events, world, domain).value, world, domain)
  {
    if events != [] {
      RunKeeps(clock, events[..|events| - 1], world, domain);
      HappenKeeps(RunFrom(EmptyProxy(clock), events[..|events| - 1], world, domain).value, events[|events| - 1], world, domain);
    }
  }

  /** The i-th return of a run of the proxy from its start. */
  ghost predicate Returned(clock: real, events: seq<Event>, world: World, domain: string, s: Routing, r: Return) {
    RunFrom(EmptyProxy(clock), events, world, domain) == Some(s) && r in s.returned
  }

  /** Bounded staleness: with any number of overlapping calls, every answer returned to a
      call begun at b, an address or none, is one the lookup gave at some time after b - 5
      seconds, or it is none and a lookup for the host failed in that time. */
  lemma BoundedStaleness(clock: real, events: seq<Event>, world: World, domain: string, s: Routing, r: Return)
    requires Returned(clock, events, world, domain, s, r)
    ensures exists t: real ::
      && r.began - 5.0 < t <= r.at
      && (r.dial == Upstream(world(t), r.host, domain) || (r.dial.None? && Failure(r.host, t) in s.failures))
  {
    RunKeeps(clock, events, world, domain);
    assert InTime(s, world, domain, r);
    var t: real :| r.began - 5.0 < t <= r.at && Gave(s, world, domain, r.host, t, r.dial);
  }

  /** No call begun five seconds or more after a VM was deleted for good is routed to it. */
  lemma NoRouteToDeleted(
      clock: real, events: seq<Event>, world: World, domain: string, s: Routing, r: Return, v: VmRow, deletedAt: real)
    requires Returned(clock, events, world, domain, s, r)
    requires forall t: real :: deletedAt <= t && v < |world(t).vms| ==> world(t).vms[v].deleted
    requires r.began >= deletedAt + 5.0
    ensures r.dial.Some? ==> r.dial.value.vm != v
  {
    BoundedStaleness(clock, events, world, domain, s, r);
  }

  /** A host that the lookup knows from x on, without a failing lookup, is found by every
      call begun at x + 5 or later. */
  lemma FoundAgain(
      clock: real, events: seq<Event>, world: World, domain: string, s: Routing, r: Return, x: real)
    requires Returned(clock, events, world, domain, s, r)
    requires forall t: real :: x <= t ==> Upstream(world(t), r.host, domain).Some?
    requires forall f :: f in s.failures && f.host == r.host ==> f.at < x
    requires r.began >= x + 5.0
    ensures r.dial.Some?
  {
    BoundedStaleness(clock, events, world, domain, s, r);
  }

  /** Once the lookup's answer has settled for five seconds, every call returns it; an
      address needs that no lookup fails meanwhile. */
  lemma SettledAnswer(
      clock: real, events: seq<Event>, world: World, domain: string, s: Routing, r: Return, x: real, dial: Option<Dial>)
    requires Returned(clock, events, world, domain, s, r)
    requires forall t: real :: x <= t ==> Upstream(world(t), r.host, domain) == dial
    requires dial.Some? ==> forall f :: f in s.failures && f.host == r.host ==> f.at < x
    requires r.began >= x + 5.0
    ensures r.dial == dial
  {
    BoundedStaleness(clock, events, world, domain, s, r);
  }
}
