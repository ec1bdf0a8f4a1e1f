/** resolve as the exposure proxy runs it (backend/app/exposure_proxy.py): one call, whose
    waits are filled with any events of the other calls. */
module ExposureProxy {
  import opened Exposure
  import opened Numbers
  import opened Wrappers

  /** Events of the rest of the proxy: not of call me. */
  predicate Elsewhere(me: nat, e: Event) {
    e.Start? || e.call != me
  }

  ghost predicate Others(me: nat, s: Routing, s': Routing, world: World, domain: string) {
    exists events :: RunFrom(s, events, world, domain) == Some(s')
      && forall i :: 0 <= i < |events| ==> Elsewhere(me, events[i])
  }

  ghost predicate Fair(me: nat, meanwhile: (nat, Routing) -> Routing, world: World, domain: string) {
    forall n: nat, s: Routing :: Others(me, s, meanwhile(n, s), world, domain)
  }

  ghost predicate Reaches(s: Routing, s': Routing, world: World, domain: string) {
    exists events :: RunFrom(s, events, world, domain) == Some(s')
  }

  lemma ReachesItself(s: Routing, world: World, domain: string)
    ensures Reaches(s, s, world, domain)
  {
    assert RunFrom(s, [], world, domain) == Some(s);
  }

  lemma ReachesNext(s: Routing, s1: Routing, e: Event, world: World, domain: string)
    requires Reaches(s, s1, world, domain) && Possible(s1, e)
    ensures Reaches(s, Happen(s1, e, world, domain), world, domain)
  {
    var events :| RunFrom(s, events, world, domain) == Some(s1);
    assert (events + [e])[..|events|] == events;
    assert RunFrom(s, events + [e], world, domain) == Some(Happen(s1, e, world, domain));
  }

  /** What a waiting call can rely on. */
  predicate Undisturbed(me: nat, s: Routing, s': Routing) {
    me < |s.calls| <= |s'.calls| && s'.calls[me] == s.calls[me] && s.clock <= s'.clock
  }

  lemma {:induction false} EventsElsewhere(
      me: nat, start: Routing, s: Routing, events: seq<Event>, s': Routing, world: World, domain: string)
    requires RunFrom(s, events, world, domain) == Some(s')
    requires forall i :: 0 <= i < |events| ==> Elsewhere(me, events[i])
    requires me < |s.calls| && RoutingOk(s, world, domain) && Reaches(start, s, world, domain)
    ensures Undisturbed(me, s, s') && RoutingOk(s', world, domain) && Reaches(start, s', world, domain)
  {
    if events != [] {
      var n := |events| - 1;
      var s1 := RunFrom(s, events[..n], world, domain).value;
      EventsElsewhere(me, start, s, events[..n], s1, world, domain);
      HappenKeeps(s1, events[n], world, domain);
      ReachesNext(start, s1, events[n], world, domain);
    }
  }

  /** How the request to the panel ends, and how long it takes to get there. */
  datatype Fate = Replies(after: Span) | Refuses(after: Span) | Raises(after: Span)

  /** One call of resolve on the shared state s; me is its place among the calls. */
  class Resolver {
    const me: nat
    const world: World
    const domain: string
    const meanwhile: (nat, Routing) -> Routing
    const fate: Routing -> Fate
    var s: Routing
    var waits: nat
    ghost var start: Routing

    ghost predicate Valid()
      reads this
    {
      && Fair(me, meanwhile, world, domain)
      && RoutingOk(s, world, domain) && Reaches(start, s, world, domain)
    }

    constructor (s: Routing, world: World, domain: string, meanwhile: (nat, Routing) -> Routing, fate: Routing -> Fate)
      requires RoutingOk(s, world, domain) && Fair(|s.calls|, meanwhile, world, domain)
      ensures Valid() && this.s == s && start == s && me == |s.calls| && this.world == world && this.domain == domain
    {
      me, this.world, this.domain, this.meanwhile, this.fate := |s.calls|, world, domain, meanwhile, fate;
      this.s, waits, start := s, 0, s;
      ReachesItself(s, world, domain);
    }

    /** An await: any events of the other calls. */
    method Wait()
      requires Valid() && me < |s.calls|
      modifies this`s, this`waits
      ensures Valid() && Undisturbed(me, old(s), s)
    {
      ghost var before := s;
      s := meanwhile(waits, s);
      waits := waits + 1;
      ghost var events :|
        RunFrom(before, events, world, domain) == Some(s) && forall i :: 0 <= i < |events| ==> Elsewhere(me, events[i]);
      EventsElsewhere(me, start, before, events, s, world, domain);
    }

    /** An event of this call. */
    method Do(next: Routing, ghost e: Event)
      requires Valid() && Possible(s, e) && next == Happen(s, e, world, domain)
      modifies this`s
      ensures Valid() && s == next
    {
      HappenKeeps(s, e, world, domain);
      ReachesNext(start, s, e, world, domain);
      s := next;
    }

    /** resolve; now is its reading of the clock, and None means that the request raised. A
        value it returns was the lookup's less than five seconds before now or since, or is
        none because a lookup failed in that time. */
    method Resolve(host: string, now: real) returns (r: Option<Option<Dial>>)
      requires Valid() && me == |s.calls| && s.clock <= now
      modifies this`s, this`waits
      ensures Valid() && now <= s.clock
      ensures r.Some? ==> InTime(s, world, domain, Return(host, now, s.clock, r.value))
      ensures host in old(s).cache && old(s).cache[host].expiry > now ==>
        r == Some(old(s).cache[host].dial) && s.cache == old(s).cache && s.calls == old(s).calls
      ensures !(host in old(s).cache && old(s).cache[host].expiry > now) && r.Some? ==>
        host in s.cache && s.cache[host] == Entry(now + 5.0, r.value)
    {
      if host in s.cache {
        var cached := s.cache[host];
        if cached.expiry > now {
          Do(s.(clock := now, returned := s.returned + [Return(host, now, now, cached.dial)]), Start(host, now));
          assert s.returned[|s.returned| - 1] == Return(host, now, now, cached.dial);
          return Some(cached.dial);
        }
      }
      Do(s.(clock := now, calls := s.calls + [Call(host, now, Asking)]), Start(host, now));
      Wait();
      var answered := AskPanel(host, now);
      if !answered {
        return None;
      }
      Wait();
      var dial := Answer(host, now);
      return Some(dial);
    }

    /** The request to the panel, up to the moment it replies. */
    method AskPanel(host: string, ghost now: real) returns (answered: bool)
      requires Valid() && me < |s.calls| && s.calls[me] == Call(host, now, Asking)
      modifies this`s
      ensures Valid() && me < |s.calls| && old(s).clock <= s.clock
      ensures answered ==> s.calls[me].stage.Told? && s.calls[me] == Call(host, now, s.calls[me].stage)
    {
      var f := fate(s);
      var at := s.clock + f.after;
      if f.Raises? {
        Do(s.(clock := at, calls := SetStage(s.calls, me, Over)), Drop(me, at));
        return false;
      }
      if f.Replies? {
        var dial := Upstream(world(at), host, domain);
        Do(s.(clock := at, calls := SetStage(s.calls, me, Told(dial))), Look(me, at, true));
      } else {
        Do(s.(clock := at, calls := SetStage(s.calls, me, Told(None)), failures := s.failures + [Failure(host, at)]),
           Look(me, at, false));
      }
      return true;
    }

    /** The reply is cached under the time at which the call began, and returned. */
    method Answer(host: string, now: real) returns (dial: Option<Dial>)
      requires Valid() && me < |s.calls| && s.calls[me].stage.Told? && s.calls[me] == Call(host, now, s.calls[me].stage)
      modifies this`s
      ensures Valid() && s.clock == old(s).clock
      ensures host in s.cache && s.cache[host] == Entry(now + TTL, dial)
      ensures InTime(s, world, domain, Return(host, now, s.clock, dial))
    {
      dial := s.calls[me].stage.dial;
      var r := Return(host, now, s.clock, dial);
      var cache := s.cache[host := Entry(now + 5.0, dial)];
      Do(s.(calls := SetStage(s.calls, me, Over), cache := cache, returned := s.returned + [r]), End(me, s.clock));
      assert s.returned[|s.returned| - 1] == r;
    }
  }
}
