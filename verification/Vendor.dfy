/**
 The payments vendor: links, debits and calls, each created once per idempotency key, and
 notifications sent once per link and medium. `effects` records what reached the customer
 and which action asked for it.
*/
module Vendor {
  import opened Candidates
  import opened Options

  /** What an action means. Hashing it is taken to be collision-free. */
  datatype Fingerprint = Fingerprint(
    merchant: nat,
    obligation: nat,
    kind: ActionKind,
    channel: Channel,
    day: int,
    amount: int,
    discount: int)

  type Id = nat

  datatype Link = Link(origin: Fingerprint, notified: set<Channel>)

  /** What reached the customer, for which action, and under which key or through which link. */
  datatype Effect =
    | LinkCreated(origin: Fingerprint, key: Option<Fingerprint>)
    | Charged(origin: Fingerprint, key: Option<Fingerprint>)
    | Called(origin: Fingerprint, key: Option<Fingerprint>)
    | Notified(origin: Fingerprint, link: Id, medium: Channel)

  datatype Store = Store(
    next: Id,
    links: map<Id, Link>,
    attempts: set<Id>,
    calls: set<Id>,
    idempotency: map<Fingerprint, Id>,
    effects: seq<Effect>)
  {
    /** The resource an earlier request with this key created. */
    function Resolve(key: Option<Fingerprint>): Option<Id> {
      if key.Some? && key.value in idempotency then Some(idempotency[key.value]) else None
    }

    function Remember(key: Option<Fingerprint>, id: Id): map<Fingerprint, Id> {
      if key.Some? then idempotency[key.value := id] else idempotency
    }
  }

  const EMPTY := Store(0, map[], {}, {}, map[], [])

  /** The new store and the resource, or no resource if the request failed. */
  datatype Reply = Reply(store: Store, id: Option<Id>)

  function CreateLink(s: Store, origin: Fingerprint, key: Option<Fingerprint>): Reply {
    var existing := s.Resolve(key);
    if existing.Some? then Reply(s, if existing.value in s.links then existing else None)
    else
      var id := s.next;
      Reply(s.(next := id + 1, links := s.links[id := Link(origin, {})], idempotency := s.Remember(key, id),
               effects := s.effects + [LinkCreated(origin, key)]), Some(id))
  }

  function Charge(s: Store, origin: Fingerprint, key: Option<Fingerprint>): Reply {
    var existing := s.Resolve(key);
    if existing.Some? then Reply(s, if existing.value in s.attempts then existing else None)
    else
      var id := s.next;
      Reply(s.(next := id + 1, attempts := s.attempts + {id}, idempotency := s.Remember(key, id),
               effects := s.effects + [Charged(origin, key)]), Some(id))
  }

  function Call(s: Store, origin: Fingerprint, key: Option<Fingerprint>): Reply {
    var existing := s.Resolve(key);
    if existing.Some? then Reply(s, existing)
    else
      var id := s.next;
      Reply(s.(next := id + 1, calls := s.calls + {id}, idempotency := s.Remember(key, id),
               effects := s.effects + [Called(origin, key)]), Some(id))
  }

  /** A repeated notification over one medium is acknowledged and not sent again. */
  function NotifyBy(s: Store, id: Id, medium: Channel): Reply {
    if id !in s.links then Reply(s, None)
    else if medium in s.links[id].notified then Reply(s, Some(id))
    else
      var link := s.links[id];
      Reply(s.(links := s.links[id := link.(notified := link.notified + {medium})],
               effects := s.effects + [Notified(link.origin, id, medium)]), Some(id))
  }

  /** Links, debits and calls made for an action. */
  function Created(effects: seq<Effect>, f: Fingerprint): nat {
    if effects == [] then 0
    else
      var e := effects[|effects| - 1];
      Created(effects[..|effects| - 1], f) + if !e.Notified? && e.origin == f then 1 else 0
  }

  /** Messages sent for an action. */
  function Messaged(effects: seq<Effect>, f: Fingerprint): nat {
    if effects == [] then 0
    else
      var e := effects[|effects| - 1];
      Messaged(effects[..|effects| - 1], f) + if e.Notified? && e.origin == f then 1 else 0
  }

  lemma EffectAppend(effects: seq<Effect>, e: Effect, f: Fingerprint)
    ensures Created(effects + [e], f) == Created(effects, f) + if !e.Notified? && e.origin == f then 1 else 0
    ensures Messaged(effects + [e], f) == Messaged(effects, f) + if e.Notified? && e.origin == f then 1 else 0
  {
    assert (effects + [e])[..|effects|] == effects;
  }

  // What the tables guarantee over any sequence of requests

  datatype Request =
    | MakeLink(origin: Fingerprint, key: Option<Fingerprint>)
    | Debit(origin: Fingerprint, key: Option<Fingerprint>)
    | Ring(origin: Fingerprint, key: Option<Fingerprint>)
    | Notify(link: Id, medium: Channel)

  function Serve(s: Store, r: Request): Reply {
    match r
    case MakeLink(origin, key) => CreateLink(s, origin, key)
    case Debit(origin, key) => Charge(s, origin, key)
    case Ring(origin, key) => Call(s, origin, key)
    case Notify(link, medium) => NotifyBy(s, link, medium)
  }

  function ServeAll(s: Store, requests: seq<Request>): Store
    decreases |requests|
  {
    if requests == [] then s else ServeAll(Serve(s, requests[0]).store, requests[1..])
  }

  /** Links, debits and calls made under a key. */
  function MadeUnder(effects: seq<Effect>, key: Fingerprint): nat {
    if effects == [] then 0
    else
      var e := effects[|effects| - 1];
      MadeUnder(effects[..|effects| - 1], key) + if !e.Notified? && e.key == Some(key) then 1 else 0
  }

  /** Notifications sent through a link over one medium. */
  function SentOver(effects: seq<Effect>, link: Id, medium: Channel): nat {
    if effects == [] then 0
    else
      var e := effects[|effects| - 1];
      SentOver(effects[..|effects| - 1], link, medium)
      + if e.Notified? && e.link == link && e.medium == medium then 1 else 0
  }

  predicate Told(s: Store, link: Id, medium: Channel) {
    link in s.links && medium in s.links[link].notified
  }

  /** The key map and the links record exactly what has been done; ids are handed out once. */
  ghost predicate Consistent(s: Store) {
    && (forall k :: MadeUnder(s.effects, k) == if k in s.idempotency then 1 else 0)
    && (forall link, medium :: SentOver(s.effects, link, medium) == if Told(s, link, medium) then 1 else 0)
    && (forall link :: link in s.links ==> link < s.next)
  }

  lemma TallyAppend(effects: seq<Effect>, e: Effect, k: Fingerprint, link: Id, medium: Channel)
    ensures MadeUnder(effects + [e], k) == MadeUnder(effects, k) + if !e.Notified? && e.key == Some(k) then 1 else 0
    ensures SentOver(effects + [e], link, medium)
         == SentOver(effects, link, medium) + if e.Notified? && e.link == link && e.medium == medium then 1 else 0
  {
    assert (effects + [e])[..|effects|] == effects;
  }

  lemma MakingKeepsConsistent(s: Store, t: Store, e: Effect)
    requires Consistent(s) && !e.Notified? && t.effects == s.effects + [e]
    requires s.Resolve(e.key).None? && t.idempotency == s.Remember(e.key, s.next) && t.next == s.next + 1
    requires t.links == s.links || t.links == s.links[s.next := Link(e.origin, {})]
    ensures Consistent(t)
  {
    forall k ensures MadeUnder(t.effects, k) == if k in t.idempotency then 1 else 0 {
      TallyAppend(s.effects, e, k, 0, NoChannel);
    }
    forall link, medium ensures SentOver(t.effects, link, medium) == if Told(t, link, medium) then 1 else 0 {
      TallyAppend(s.effects, e, e.origin, link, medium);
      assert Told(t, link, medium) <==> Told(s, link, medium);
    }
  }

  lemma NotifyKeepsConsistent(s: Store, id: Id, medium: Channel)
    requires Consistent(s)
    ensures Consistent(NotifyBy(s, id, medium).store)
  {
    var t := NotifyBy(s, id, medium).store;
    if t != s {
      var e := Notified(s.links[id].origin, id, medium);
      forall k ensures MadeUnder(t.effects, k) == if k in t.idempotency then 1 else 0 {
        TallyAppend(s.effects, e, k, 0, NoChannel);
      }
      forall link, m ensures SentOver(t.effects, link, m) == if Told(t, link, m) then 1 else 0 {
        TallyAppend(s.effects, e, e.origin, link, m);
      }
    }
  }

  lemma ServeKeepsConsistent(s: Store, r: Request)
    requires Consistent(s)
    ensures Consistent(Serve(s, r).store)
  {
    var t := Serve(s, r).store;
    match r
    case Notify(link, medium) => NotifyKeepsConsistent(s, link, medium);
    case MakeLink(origin, key) =>
      if s.Resolve(key).None? {
        MakingKeepsConsistent(s, t, LinkCreated(origin, key));
      }
    case Debit(origin, key) =>
      if s.Resolve(key).None? {
        MakingKeepsConsistent(s, t, Charged(origin, key));
      }
    case Ring(origin, key) =>
      if s.Resolve(key).None? {
        MakingKeepsConsistent(s, t, Called(origin, key));
      }
  }

  lemma {:induction false} ServeAllKeepsConsistent(s: Store, requests: seq<Request>)
    requires Consistent(s)
    ensures Consistent(ServeAll(s, requests))
    decreases |requests|
  {
    if requests != [] {
      ServeKeepsConsistent(s, requests[0]);
      ServeAllKeepsConsistent(Serve(s, requests[0]).store, requests[1..]);
    }
  }

  /** Whatever is requested, a key makes one link, debit or call at most, and exactly one if it is on record. */
  lemma OneResourcePerKey(requests: seq<Request>, key: Fingerprint)
    ensures var s := ServeAll(EMPTY, requests);
            MadeUnder(s.effects, key) == if key in s.idempotency then 1 else 0
  {
    ServeAllKeepsConsistent(EMPTY, requests);
  }

  /** Whatever is requested, a link notifies over each medium once at most, and exactly once if it is on record. */
  lemma OneNotificationPerMedium(requests: seq<Request>, link: Id, medium: Channel)
    ensures var s := ServeAll(EMPTY, requests);
            SentOver(s.effects, link, medium) == if Told(s, link, medium) then 1 else 0
  {
    ServeAllKeepsConsistent(EMPTY, requests);
  }

  /** Tables only grow, and a key keeps the resource it first named. */
  ghost predicate Grows(s: Store, t: Store) {
    && (forall k :: k in s.idempotency ==> k in t.idempotency && t.idempotency[k] == s.idempotency[k])
    && (forall link :: link in s.links ==> link in t.links && s.links[link].notified <= t.links[link].notified)
    && s.attempts <= t.attempts && s.calls <= t.calls && s.next <= t.next
    && (forall link :: link in t.links ==> link < t.next)
  }

  lemma {:induction false} TablesGrow(s: Store, requests: seq<Request>)
    requires forall link :: link in s.links ==> link < s.next
    ensures Grows(s, ServeAll(s, requests))
    decreases |requests|
  {
    if requests != [] {
      var t := Serve(s, requests[0]).store;
      assert Grows(s, t);
      TablesGrow(t, requests[1..]);
    }
  }

  /** A request that carries a key, or notifies. */
  predicate Repeatable(r: Request) {
    r.Notify? || r.key.Some?
  }

  /**
   Repeating a request that succeeded, after any other traffic, returns the resource it
   returned the first time and changes nothing.
  */
  lemma RepeatReturnsTheOriginal(s: Store, r: Request, traffic: seq<Request>)
    requires Consistent(s) && Repeatable(r) && Serve(s, r).id.Some?
    ensures var later := ServeAll(Serve(s, r).store, traffic);
            Serve(later, r) == Reply(later, Serve(s, r).id)
  {
    ServeKeepsConsistent(s, r);
    TablesGrow(Serve(s, r).store, traffic);
  }

  // The in-memory store behind the handlers

  class Sandbox {
    var next: Id
    var links: map<Id, Link>
    var attempts: set<Id>
    var calls: set<Id>
    var idempotency: map<Fingerprint, Id>
    ghost var effects: seq<Effect>

    ghost function Value(): Store
      reads this
    {
      Store(next, links, attempts, calls, idempotency, effects)
    }

    /** The tables record exactly what has been done: once per key, once per link and medium. */
    ghost predicate Valid()
      reads this
    {
      Consistent(Value())
    }

    constructor ()
      ensures Value() == EMPTY && Valid()
    {
      next, links, attempts, calls, idempotency, effects := 0, map[], {}, {}, map[], [];
    }

    method ResolveIdempotent(key: Option<Fingerprint>) returns (existing: Option<Id>)
      ensures existing == Value().Resolve(key)
    {
      if key.Some? && key.value in idempotency {
        existing := Some(idempotency[key.value]);
      } else {
        existing := None;
      }
    }

    method PutKey(key: Option<Fingerprint>, id: Id)
      modifies `idempotency
      ensures idempotency == old(Value()).Remember(key, id)
    {
      if key.Some? {
        idempotency := idempotency[key.value := id];
      }
    }

    method CreatePaymentLink(origin: Fingerprint, key: Option<Fingerprint>) returns (id: Option<Id>)
      requires Valid()
      modifies this
      ensures Reply(Value(), id) == CreateLink(old(Value()), origin, key)
      ensures Valid()
    {
      ServeKeepsConsistent(Value(), MakeLink(origin, key));
      var existing := ResolveIdempotent(key);
      if existing.Some? {
        return if existing.value in links then existing else None;
      }
      links := links[next := Link(origin, {})];
      PutKey(key, next);
      effects := effects + [LinkCreated(origin, key)];
      id := Some(next);
      next := next + 1;
    }

    method ChargeMandate(origin: Fingerprint, key: Option<Fingerprint>) returns (id: Option<Id>)
      requires Valid()
      modifies this
      ensures Reply(Value(), id) == Charge(old(Value()), origin, key)
      ensures Valid()
    {
      ServeKeepsConsistent(Value(), Debit(origin, key));
      var existing := ResolveIdempotent(key);
      if existing.Some? {
        return if existing.value in attempts then existing else None;
      }
      attempts := attempts + {next};
      PutKey(key, next);
      effects := effects + [Charged(origin, key)];
      id := Some(next);
      next := next + 1;
    }

    method VoiceCall(origin: Fingerprint, key: Option<Fingerprint>) returns (id: Option<Id>)
      requires Valid()
      modifies this
      ensures Reply(Value(), id) == Call(old(Value()), origin, key)
      ensures Valid()
    {
      ServeKeepsConsistent(Value(), Ring(origin, key));
      var existing := ResolveIdempotent(key);
      if existing.Some? {
        return existing;
      }
      calls := calls + {next};
      PutKey(key, next);
      effects := effects + [Called(origin, key)];
      id := Some(next);
      next := next + 1;
    }

    method NotifyPaymentLink(link: Id, medium: Channel) returns (id: Option<Id>)
      requires Valid()
      modifies this
      ensures Reply(Value(), id) == NotifyBy(old(Value()), link, medium)
      ensures Valid()
    {
      ServeKeepsConsistent(Value(), Notify(link, medium));
      if link !in links {
        return None;
      }
      if medium in links[link].notified {
        return Some(link);
      }
      effects := effects + [Notified(links[link].origin, link, medium)];
      links := links[link := links[link].(notified := links[link].notified + {medium})];
      id := Some(link);
    }
  }
}
