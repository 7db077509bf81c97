/**
 Browser fan-out (backend/app/api/ws.py): sessions with bounded queues, an index from instruments to
 subscribed sessions, and the demand announced to the hot cache.

 `Fanout` is the state as a value, with one function per operation; the classes are proved to perform
 exactly those functions.  What holds after every sequence of operations is proved about the functions.
 */
module Fanout {
  import opened Common
  import opened Instruments

  type SessionId = string

  datatype Message = Message(kind: string, channel: string, instrument: Instrument, data: string)

  // ---------------------------------------------------------------- one session

  /** A session: its outbound queue, what it listens to, and the record of dropped messages. */
  datatype Session = Session(queue: seq<Message>, bound: int, instruments: set<Instrument>, channels: set<string>,
                             isSlow: bool, dropped: nat)

  /** A bound of zero or less means no bound, as for the library's queue. */
  predicate Full(s: Session) {
    s.bound > 0 && |s.queue| >= s.bound
  }

  function Send(s: Session, m: Message): Session {
    if Full(s) then s.(isSlow := true, dropped := s.dropped + 1) else s.(queue := s.queue + [m])
  }

  /** Offer the messages whose channel the session listens to, in order. */
  function Deliver(s: Session, ms: seq<Message>): Session {
    if ms == [] then s
    else
      var t := Deliver(s, ms[..|ms| - 1]);
      if ms[|ms| - 1].channel in s.channels then Send(t, ms[|ms| - 1]) else t
  }

  function Matching(channels: set<string>, ms: seq<Message>): seq<Message> {
    if ms == [] then []
    else
      var rest := Matching(channels, ms[..|ms| - 1]);
      if ms[|ms| - 1].channel in channels then rest + [ms[|ms| - 1]] else rest
  }

  /** How many more messages fit, when `wanted` are offered. */
  function Room(s: Session, wanted: nat): (n: nat)
    ensures n <= wanted
  {
    if s.bound <= 0 || s.bound - |s.queue| >= wanted then wanted
    else if s.bound <= |s.queue| then 0 else s.bound - |s.queue|
  }

  /**
     Backpressure: exactly the longest prefix of the matching messages that fits is appended, each of
     the others is counted as dropped, and nothing else about the session changes.
     */
  lemma {:induction false} DeliverAppendsPrefix(s: Session, ms: seq<Message>)
    ensures var matching := Matching(s.channels, ms);
            var accepted := Room(s, |matching|);
            Deliver(s, ms) == s.(queue := s.queue + matching[..accepted],
                                 dropped := s.dropped + (|matching| - accepted),
                                 isSlow := s.isSlow || accepted < |matching|)
  {
    if ms != [] {
      DeliverAppendsPrefix(s, ms[..|ms| - 1]);
    } else {
      assert s.queue + [] == s.queue;
    }
  }

  /** The pump takes the oldest message off the queue and sends it to the browser. */
  function Take(s: Session): Session {
    if s.queue == [] then s else s.(queue := s.queue[1..])
  }

  /** A queue within its bound stays within it. */
  predicate WithinBound(s: Session) {
    s.bound > 0 ==> |s.queue| <= s.bound
  }

  // ---------------------------------------------------------------- the manager's state

  datatype State = State(sessions: map<SessionId, Session>, index: map<Instrument, set<SessionId>>,
                         demand: set<Instrument>)

  const EMPTY := State(map[], map[], {})

  /** What the hot cache holds for a channel of an instrument, if anything. */
  type Cache = (string, Instrument) -> Option<string>

  const CHANNELS := ["quotes", "depth", "oi"]

  /** Entries with an empty segment or id are ignored. */
  function Normalize(insts: seq<Instrument>): seq<Instrument> {
    if insts == [] then []
    else
      var rest, inst := Normalize(insts[..|insts| - 1]), insts[|insts| - 1];
      if inst.segment != "" && inst.securityId != "" then rest + [inst] else rest
  }

  /** The snapshots of one instrument on the first n channels. */
  function Snapshots(listening: set<string>, inst: Instrument, cache: Cache, n: nat): seq<Message>
    requires n <= 3
  {
    if n == 0 then []
    else
      var rest, channel := Snapshots(listening, inst, cache, n - 1), CHANNELS[n - 1];
      if channel in listening && cache(channel, inst).Some? then
        rest + [Message("snapshot", channel, inst, cache(channel, inst).value)]
      else rest
  }

  function AllSnapshots(listening: set<string>, insts: seq<Instrument>, cache: Cache): seq<Message> {
    if insts == [] then []
    else AllSnapshots(listening, insts[..|insts| - 1], cache) + Snapshots(listening, insts[|insts| - 1], cache, 3)
  }

  /** Add a session under every instrument of a set. */
  function Enlist(index: map<Instrument, set<SessionId>>, id: SessionId, insts: set<Instrument>)
    : map<Instrument, set<SessionId>>
  {
    map i | i in index.Keys + insts ::
      if i in insts then (if i in index then index[i] else {}) + {id} else index[i]
  }

  /** The instruments of a set that lose their last subscriber when this session leaves. */
  function Orphans(index: map<Instrument, set<SessionId>>, id: SessionId, insts: set<Instrument>): set<Instrument> {
    set i | i in insts && i in index && index[i] != {} && index[i] - {id} == {}
  }

  /** Remove a session from under every instrument of a set, dropping emptied entries. */
  function Delist(index: map<Instrument, set<SessionId>>, id: SessionId, insts: set<Instrument>)
    : map<Instrument, set<SessionId>>
  {
    map i | i in index.Keys - Orphans(index, id, insts) :: if i in insts then index[i] - {id} else index[i]
  }

  function Register(f: State, id: SessionId, s: Session): State {
    f.(sessions := f.sessions[id := s])
  }

  function Joined(s: Session, insts: seq<Instrument>, channels: set<string>): Session {
    s.(channels := s.channels + channels, instruments := s.instruments + Elements(Normalize(insts)))
  }

  /** An unknown session is an error and changes nothing. */
  function Subscribe(f: State, id: SessionId, insts: seq<Instrument>, channels: set<string>, cache: Cache): State {
    if id !in f.sessions then f
    else
      var wanted, s := Normalize(insts), Joined(f.sessions[id], insts, channels);
      State(f.sessions[id := Deliver(s, AllSnapshots(s.channels, wanted, cache))],
            Enlist(f.index, id, Elements(wanted)), f.demand + Elements(wanted))
  }

  function Unsubscribe(f: State, id: SessionId, insts: set<Instrument>): State {
    if id !in f.sessions then f
    else
      var s := f.sessions[id];
      State(f.sessions[id := s.(instruments := s.instruments - insts)],
            Delist(f.index, id, insts), f.demand - Orphans(f.index, id, insts))
  }

  function Unregister(f: State, id: SessionId): State {
    if id !in f.sessions then f
    else
      var insts := f.sessions[id].instruments;
      State(f.sessions - {id}, Delist(f.index, id, insts), f.demand - Orphans(f.index, id, insts))
  }

  function Subscribers(f: State, inst: Instrument): set<SessionId> {
    if inst in f.index then f.index[inst] else {}
  }

  /** Offer messages to those of some sessions that are live. */
  function DeliverTo(f: State, ids: set<SessionId>, ms: seq<Message>): State {
    f.(sessions := map id | id in f.sessions :: if id in ids then Deliver(f.sessions[id], ms) else f.sessions[id])
  }

  function Broadcast(f: State, inst: Instrument, ms: seq<Message>): State {
    DeliverTo(f, Subscribers(f, inst), ms)
  }

  // ---------------------------------------------------------------- every run

  /** The operations; a resync names the order in which it happens to walk the session's set. */
  datatype Op =
    | Registering(id: SessionId, bound: int)
    | Subscribing(id: SessionId, insts: seq<Instrument>, channels: set<string>, cache: Cache)
    | Unsubscribing(id: SessionId, gone: set<Instrument>)
    | Resyncing(id: SessionId, order: seq<Instrument>, cache: Cache)
    | Unregistering(id: SessionId)
    | Reading(id: SessionId)
    | Broadcasting(inst: Instrument, ms: seq<Message>)

  function NewSession(bound: int): Session {
    Session([], bound, {}, {"quotes", "depth", "oi"}, false, 0)
  }

  function Apply(f: State, op: Op): State {
    match op
    case Registering(id, bound) => Register(f, id, NewSession(bound))
    case Subscribing(id, insts, channels, cache) => Subscribe(f, id, insts, channels, cache)
    case Unsubscribing(id, gone) => Unsubscribe(f, id, gone)
    case Resyncing(id, order, cache) => Subscribe(f, id, order, {}, cache)
    case Unregistering(id) => Unregister(f, id)
    case Reading(id) => if id in f.sessions then f.(sessions := f.sessions[id := Take(f.sessions[id])]) else f
    case Broadcasting(inst, ms) => Broadcast(f, inst, ms)
  }

  /** Registrations use ids that are not live; a resync walks the session's own set. */
  predicate Allowed(f: State, op: Op) {
    match op
    case Registering(id, _) => id !in f.sessions
    case Resyncing(id, order, _) => id in f.sessions ==> Elements(order) == f.sessions[id].instruments
    case _ => true
  }

  function Run(t: Trace<Op>): State {
    if t.Begin? then EMPTY else Apply(Run(t.earlier), t.last)
  }

  ghost predicate AllAllowed(t: Trace<Op>) {
    t.Begin? || (AllAllowed(t.earlier) && Allowed(Run(t.earlier), t.last))
  }

  /** Session id is in the subscriber set of inst. */
  predicate Listed(f: State, id: SessionId, inst: Instrument) {
    inst in f.index && id in f.index[inst]
  }

  /** Session id is live and lists inst. */
  predicate Lists(f: State, id: SessionId, inst: Instrument) {
    id in f.sessions && inst in f.sessions[id].instruments
  }

  /** The index mirrors the sessions, has no empty entry, and its keys are the announced demand. */
  ghost predicate Consistent(f: State) {
    && (forall id, inst :: Listed(f, id, inst) <==> Lists(f, id, inst))
    && (forall inst :: inst in f.index ==> f.index[inst] != {})
    && f.demand == f.index.Keys
  }

  ghost predicate QueuesBounded(f: State) {
    forall id :: id in f.sessions ==> WithinBound(f.sessions[id])
  }

  /** Only the listed instruments matter to the index: delivering messages leaves them alone. */
  lemma DeliverKeeps(s: Session, ms: seq<Message>)
    ensures Deliver(s, ms).instruments == s.instruments && Deliver(s, ms).channels == s.channels
    ensures WithinBound(s) ==> WithinBound(Deliver(s, ms))
  {
    DeliverAppendsPrefix(s, ms);
  }

  lemma SubscribeKeeps(f: State, id: SessionId, insts: seq<Instrument>, channels: set<string>, cache: Cache)
    requires Consistent(f)
    ensures Consistent(Subscribe(f, id, insts, channels, cache))
  {
    if id in f.sessions {
      var s := Joined(f.sessions[id], insts, channels);
      DeliverKeeps(s, AllSnapshots(s.channels, Normalize(insts), cache));
      var g := Subscribe(f, id, insts, channels, cache);
      forall other, inst ensures Listed(g, other, inst) <==> Lists(g, other, inst) {
        assert Listed(f, other, inst) <==> Lists(f, other, inst);
      }
    }
  }

  /** Leaving instruments keeps the mirror, for the leaving session as it is afterwards. */
  lemma DelistKeeps(f: State, id: SessionId, insts: set<Instrument>, g: State)
    requires Consistent(f) && id in f.sessions
    requires g.index == Delist(f.index, id, insts) && g.demand == f.demand - Orphans(f.index, id, insts)
    requires forall other :: other != id ==> (other in g.sessions <==> other in f.sessions)
    requires forall other :: other != id && other in f.sessions ==> g.sessions[other] == f.sessions[other]
    requires forall inst :: Lists(g, id, inst) <==> Lists(f, id, inst) && inst !in insts
    ensures Consistent(g)
  {
    forall other, inst ensures Listed(g, other, inst) <==> Lists(g, other, inst) {
      assert Listed(f, other, inst) <==> Lists(f, other, inst);
      if Listed(f, other, inst) && other != id {
        assert other in f.index[inst] - {id};
      }
    }
  }

  lemma BroadcastKeeps(f: State, inst: Instrument, ms: seq<Message>)
    requires Consistent(f)
    ensures Consistent(Broadcast(f, inst, ms))
  {
    var g := Broadcast(f, inst, ms);
    forall id, i ensures Listed(g, id, i) <==> Lists(g, id, i) {
      assert Listed(f, id, i) <==> Lists(f, id, i);
      if id in f.sessions { DeliverKeeps(f.sessions[id], ms); }
    }
  }

  /** Re-registering a live id breaks the index exactly when the old session still had subscriptions. */
  lemma RegisterKeeps(f: State, id: SessionId, bound: int)
    requires Consistent(f)
    ensures Consistent(Register(f, id, NewSession(bound))) <==> (id in f.sessions ==> f.sessions[id].instruments == {})
  {
    var g := Register(f, id, NewSession(bound));
    if id in f.sessions && f.sessions[id].instruments != {} {
      var inst := Pick(f.sessions[id].instruments);
      assert Lists(f, id, inst) && Listed(f, id, inst);
      assert Listed(g, id, inst) && !Lists(g, id, inst);
    } else {
      forall other, inst ensures Listed(g, other, inst) <==> Lists(g, other, inst) {
        assert Listed(f, other, inst) <==> Lists(f, other, inst);
      }
    }
  }

  lemma ApplyKeeps(f: State, op: Op)
    requires Consistent(f) && Allowed(f, op)
    ensures Consistent(Apply(f, op))
  {
    match op
    case Registering(id, bound) => RegisterKeeps(f, id, bound);
    case Subscribing(id, insts, channels, cache) => SubscribeKeeps(f, id, insts, channels, cache);
    case Resyncing(id, order, cache) => SubscribeKeeps(f, id, order, {}, cache);
    case Unsubscribing(id, gone) => if id in f.sessions { DelistKeeps(f, id, gone, Apply(f, op)); }
    case Unregistering(id) => if id in f.sessions { DelistKeeps(f, id, f.sessions[id].instruments, Apply(f, op)); }
    case Reading(id) => if id in f.sessions { ReadingKeeps(f, id); }
    case Broadcasting(inst, ms) => BroadcastKeeps(f, inst, ms);
  }

  lemma ReadingKeeps(f: State, id: SessionId)
    requires Consistent(f) && id in f.sessions
    ensures Consistent(f.(sessions := f.sessions[id := Take(f.sessions[id])]))
  {
    var g := f.(sessions := f.sessions[id := Take(f.sessions[id])]);
    forall other, inst ensures Listed(g, other, inst) <==> Lists(g, other, inst) {
      assert Listed(f, other, inst) <==> Lists(f, other, inst);
    }
  }

  lemma ApplyKeepsBounds(f: State, op: Op)
    requires QueuesBounded(f)
    ensures QueuesBounded(Apply(f, op))
  {
    match op
    case Subscribing(id, insts, channels, cache) =>
      if id in f.sessions {
        var s := Joined(f.sessions[id], insts, channels);
        DeliverKeeps(s, AllSnapshots(s.channels, Normalize(insts), cache));
      }
    case Resyncing(id, order, cache) =>
      if id in f.sessions {
        var s := Joined(f.sessions[id], order, {});
        DeliverKeeps(s, AllSnapshots(s.channels, Normalize(order), cache));
      }
    case Broadcasting(inst, ms) =>
      forall id | id in f.sessions ensures WithinBound(Apply(f, op).sessions[id]) {
        DeliverKeeps(f.sessions[id], ms);
      }
    case _ =>
  }

  /**
     After any sequence of operations a session is in an instrument's subscriber set exactly when it is
     live and lists the instrument, no subscriber set is empty, the demand announced minus the demand
     released is exactly the indexed instruments, and no queue is over its bound.
     */
  lemma {:induction false} RunsAreConsistent(t: Trace<Op>)
    requires AllAllowed(t)
    ensures Consistent(Run(t)) && QueuesBounded(Run(t))
  {
    if t.Then? {
      RunsAreConsistent(t.earlier);
      ApplyKeeps(Run(t.earlier), t.last);
      ApplyKeepsBounds(Run(t.earlier), t.last);
    }
  }

  // ---------------------------------------------------------------- who gets what

  datatype PacketKind =
    | IndexTick | Ticker | Quote | OpenInterest | PreviousClose | FullMarket | MarketStatus | Disconnect

  /** The channels a packet is dispatched on, in order. */
  function Dispatched(kind: PacketKind): seq<string> {
    match kind
    case IndexTick | Ticker | Quote | PreviousClose => ["quotes"]
    case OpenInterest => ["oi"]
    case FullMarket => ["quotes", "oi", "depth"]
    case MarketStatus | Disconnect => []
  }

  function Deltas(kind: PacketKind, inst: Instrument, data: string -> string): seq<Message> {
    var channels := Dispatched(kind);
    seq(|channels|, i requires 0 <= i < |channels| => Message("delta", channels[i], inst, data(channels[i])))
  }

  /** How many of the offered messages a session takes. */
  function Accepted(f: State, id: SessionId, ms: seq<Message>): nat {
    if id in f.sessions then Room(f.sessions[id], |Matching(f.sessions[id].channels, ms)|) else 0
  }

  ghost function TotalAccepted(f: State, ids: set<SessionId>, ms: seq<Message>): nat {
    if ids == {} then 0
    else
      var id := Pick(ids);
      Accepted(f, id, ms) + TotalAccepted(f, ids - {id}, ms)
  }

  /** The total does not depend on the order in which the sessions are visited. */
  lemma {:induction false} TotalAcceptedRemove(f: State, ids: set<SessionId>, id: SessionId, ms: seq<Message>)
    requires id in ids
    ensures TotalAccepted(f, ids, ms) == Accepted(f, id, ms) + TotalAccepted(f, ids - {id}, ms)
    decreases |ids|
  {
    var first := Pick(ids);
    if first != id {
      TotalAcceptedRemove(f, ids - {first}, id, ms);
      TotalAcceptedRemove(f, ids - {id}, first, ms);
      assert ids - {first} - {id} == ids - {id} - {first};
    }
  }

  /**
     In a consistent state a broadcast reaches exactly the sessions that list the instrument; each gains
     the longest prefix of its matching messages that fits, and every other session is as before.
     */
  lemma BroadcastReachesListeners(f: State, inst: Instrument, ms: seq<Message>, id: SessionId)
    requires Consistent(f) && id in f.sessions
    ensures var s, t := f.sessions[id], Broadcast(f, inst, ms).sessions[id];
            if inst !in s.instruments then t == s
            else
              var matching := Matching(s.channels, ms);
              && t.queue == s.queue + matching[..Accepted(f, id, ms)]
              && Accepted(f, id, ms) + (t.dropped - s.dropped) == |matching|
              && t.instruments == s.instruments && t.channels == s.channels
  {
    assert Listed(f, id, inst) <==> Lists(f, id, inst);
    DeliverAppendsPrefix(f.sessions[id], ms);
  }

  /** The messages waiting for some sessions, together. */
  ghost function Waiting(f: State, ids: set<SessionId>): nat {
    if ids == {} then 0
    else
      var id := Pick(ids);
      (if id in f.sessions then |f.sessions[id].queue| else 0) + Waiting(f, ids - {id})
  }

  lemma {:induction false} WaitingGrows(f: State, all: set<SessionId>, ids: set<SessionId>, ms: seq<Message>)
    requires ids <= all
    ensures Waiting(DeliverTo(f, all, ms), ids) == Waiting(f, ids) + TotalAccepted(f, ids, ms)
    decreases |ids|
  {
    if ids != {} {
      var id := Pick(ids);
      hide Matching, Deliver;
      WaitingGrows(f, all, ids - {id}, ms);
      if id in f.sessions { DeliverAppendsPrefix(f.sessions[id], ms); }
    }
  }

  /** The number a broadcast reports is by how much the queues of its subscribers have grown. */
  lemma AcceptedIsGrowth(f: State, inst: Instrument, ms: seq<Message>)
    ensures TotalAccepted(f, Subscribers(f, inst), ms)
            == Waiting(Broadcast(f, inst, ms), Subscribers(f, inst)) - Waiting(f, Subscribers(f, inst))
  {
    WaitingGrows(f, Subscribers(f, inst), Subscribers(f, inst), ms);
    hide Waiting, TotalAccepted, Subscribers, DeliverTo;
  }

  // ---------------------------------------------------------------- what a subscription does

  /** An instrument with a segment and an id. */
  predicate Named(inst: Instrument) {
    inst.segment != "" && inst.securityId != ""
  }

  lemma {:induction false} NormalizeKeepsNamed(insts: seq<Instrument>, inst: Instrument)
    ensures multiset(Normalize(insts))[inst] == if Named(inst) then multiset(insts)[inst] else 0
  {
    if insts != [] {
      var last := |insts| - 1;
      NormalizeKeepsNamed(insts[..last], inst);
      LastCounted(insts, inst);
      SnocCounted(Normalize(insts[..last]), insts[last], inst);
    }
  }

  /** After a subscription the session lists what it listed before and every named instrument it asked for. */
  lemma SubscriptionListsExactly(f: State, id: SessionId, insts: seq<Instrument>, channels: set<string>, cache: Cache,
                                 who: SessionId, inst: Instrument)
    requires id in f.sessions
    ensures Lists(Apply(f, Subscribing(id, insts, channels, cache)), who, inst)
            <==> || Lists(f, who, inst)
                 || (who == id && inst in insts && inst.segment != "" && inst.securityId != "")
  {
    hide Deliver, AllSnapshots, Normalize;
    NormalizeKeepsNamed(insts, inst);
    assert inst in insts <==> multiset(insts)[inst] > 0;
    assert inst in Normalize(insts) <==> multiset(Normalize(insts))[inst] > 0;
    var joined := Joined(f.sessions[id], insts, channels);
    DeliverKeeps(joined, AllSnapshots(joined.channels, Normalize(insts), cache));
  }

  /** After an unsubscription it no longer lists what it named; nobody else is concerned. */
  lemma UnsubscriptionListsExactly(f: State, id: SessionId, gone: set<Instrument>, who: SessionId, inst: Instrument)
    requires id in f.sessions
    ensures Lists(Apply(f, Unsubscribing(id, gone)), who, inst) <==> Lists(f, who, inst) && !(who == id && inst in gone)
  {
  }

  /** Messages on the channels listened to, as often as they come. */
  lemma {:induction false} MatchingKeepsChannels(channels: set<string>, ms: seq<Message>, m: Message)
    ensures multiset(Matching(channels, ms))[m] == if m.channel in channels then multiset(ms)[m] else 0
  {
    if ms != [] {
      var last := |ms| - 1;
      MatchingKeepsChannels(channels, ms[..last], m);
      LastCounted(ms, m);
      SnocCounted(Matching(channels, ms[..last]), ms[last], m);
    }
  }

  /** And in their order. */
  lemma {:induction false} MatchingKeepsOrder(channels: set<string>, ms: seq<Message>)
    ensures Subsequence(Matching(channels, ms), ms)
  {
    if ms != [] {
      hide Subsequence;
      var last := |ms| - 1;
      MatchingKeepsOrder(channels, ms[..last]);
      SubsequenceSnoc(Matching(channels, ms[..last]), ms[..last], ms[last]);
      assert ms == ms[..last] + [ms[last]];
    }
  }

  /**
     From a subscription on, a broadcast of a named instrument offers the session exactly the messages on the channels
     it listens to, old and new ones.
     */
  lemma SubscribedIsOffered(f: State, id: SessionId, insts: seq<Instrument>, channels: set<string>, cache: Cache,
                            inst: Instrument, ms: seq<Message>, m: Message)
    requires Consistent(f) && id in f.sessions && inst in insts && inst.segment != "" && inst.securityId != ""
    ensures var g := Apply(f, Subscribing(id, insts, channels, cache));
            && Subsequence(Offers(g, Broadcasting(inst, ms), id), ms)
            && multiset(Offers(g, Broadcasting(inst, ms), id))[m]
               == if m.channel in f.sessions[id].channels + channels then multiset(ms)[m] else 0
  {
    hide Deliver, AllSnapshots, Normalize, Matching, Enlist, Subsequence, Consistent;
    SubscriptionListsExactly(f, id, insts, channels, cache, id, inst);
    SubscribeKeeps(f, id, insts, channels, cache);
    var g := Apply(f, Subscribing(id, insts, channels, cache));
    ListenersAreListed(g, id, inst);
    var joined := Joined(f.sessions[id], insts, channels);
    DeliverKeeps(joined, AllSnapshots(joined.channels, Normalize(insts), cache));
    MatchingKeepsChannels(f.sessions[id].channels + channels, ms, m);
    MatchingKeepsOrder(f.sessions[id].channels + channels, ms);
  }

  lemma ListenersAreListed(f: State, id: SessionId, inst: Instrument)
    requires Consistent(f)
    ensures Lists(f, id, inst) <==> id in Subscribers(f, inst)
  {
    assert Listed(f, id, inst) <==> Lists(f, id, inst);
  }

  /** A snapshot goes out for what the cache holds of an instrument on a channel listened to, and for nothing else. */
  lemma {:induction false} SnapshotsExactly(listening: set<string>, insts: seq<Instrument>, cache: Cache, m: Message)
    ensures m in AllSnapshots(listening, insts, cache)
            <==> && m.kind == "snapshot" && m.channel in {"quotes", "depth", "oi"} && m.channel in listening
                 && m.instrument in insts && cache(m.channel, m.instrument) == Some(m.data)
  {
    if insts != [] {
      var last := |insts| - 1;
      SnapshotsExactly(listening, insts[..last], cache, m);
      SnapshotsOfOne(listening, insts[last], cache, m);
      assert insts == insts[..last] + [insts[last]];
      hide Snapshots;
    }
  }

  lemma SnapshotsOfOne(listening: set<string>, inst: Instrument, cache: Cache, m: Message)
    ensures m in Snapshots(listening, inst, cache, 3)
            <==> && m.kind == "snapshot" && m.channel in {"quotes", "depth", "oi"} && m.channel in listening
                 && m.instrument == inst && cache(m.channel, inst) == Some(m.data)
  {
    assert Snapshots(listening, inst, cache, 0) == [];
    var one, two := Snapshots(listening, inst, cache, 1), Snapshots(listening, inst, cache, 2);
    assert forall x :: x in one <==> "quotes" in listening && cache("quotes", inst).Some?
                                     && x == Message("snapshot", "quotes", inst, cache("quotes", inst).value);
    assert forall x :: x in two <==> x in one || ("depth" in listening && cache("depth", inst).Some?
                                     && x == Message("snapshot", "depth", inst, cache("depth", inst).value));
  }

  /** For one instrument the quote comes before the depth, and the depth before the open interest. */
  lemma SnapshotsInOrder(listening: set<string>, inst: Instrument, cache: Cache)
    ensures var s := Snapshots(listening, inst, cache, 3);
            forall i, j :: 0 <= i < j < |s| ==>
              (s[i].channel, s[j].channel) in {("quotes", "depth"), ("quotes", "oi"), ("depth", "oi")}
  {
    var one, two := Snapshots(listening, inst, cache, 1), Snapshots(listening, inst, cache, 2);
    assert Snapshots(listening, inst, cache, 0) == [];
    assert |one| <= 1 && forall i :: 0 <= i < |one| ==> one[i].channel == "quotes";
    assert |two| <= |one| + 1 && two[..|one|] == one
           && forall i :: |one| <= i < |two| ==> two[i].channel == "depth";
  }

  /** A packet's deltas: quotes of any kind on the quote channel, open interest and depth where the packet has them. */
  lemma DeltasExactly(kind: PacketKind, inst: Instrument, data: string -> string, m: Message)
    ensures m in Deltas(kind, inst, data)
            <==> && m == Message("delta", m.channel, inst, data(m.channel))
                 && (|| (m.channel == "quotes" && kind in {IndexTick, Ticker, Quote, PreviousClose, FullMarket})
                     || (m.channel == "oi" && kind in {OpenInterest, FullMarket})
                     || (m.channel == "depth" && kind == FullMarket))
    ensures forall i, j :: 0 <= i < j < |Deltas(kind, inst, data)| ==>
              Deltas(kind, inst, data)[i] != Deltas(kind, inst, data)[j]
  {
    var d := Dispatched(kind);
    var all := Deltas(kind, inst, data);
    assert |all| == |d| && forall i :: 0 <= i < |d| ==> all[i] == Message("delta", d[i], inst, data(d[i]));
    assert "quotes"[0] != "oi"[0] && "quotes"[0] != "depth"[0] && "oi"[0] != "depth"[0];
    match kind
    case IndexTick | Ticker | Quote | PreviousClose => assert all[0].channel == "quotes";
    case OpenInterest => assert all[0].channel == "oi";
    case FullMarket =>
      assert all[0].channel == "quotes" && all[1].channel == "oi" && all[2].channel == "depth";
    case MarketStatus | Disconnect =>
  }

  // ---------------------------------------------------------------- who listens to what over a run

  /** The session was registered and has not left since. */
  predicate Live(t: Trace<Op>, id: SessionId) {
    && t.Then?
    && (|| (t.last.Registering? && t.last.id == id)
        || (t.last != Unregistering(id) && Live(t.earlier, id)))
  }

  /** The session's last word on the instrument, since it was registered, was to ask for it. */
  predicate Wants(t: Trace<Op>, id: SessionId, inst: Instrument) {
    && t.Then?
    && match t.last
       case Registering(who, _) => who != id && Wants(t.earlier, id, inst)
       case Unregistering(who) => who != id && Wants(t.earlier, id, inst)
       case Subscribing(who, insts, _, _) =>
         (who == id && inst in insts && Named(inst) && Live(t.earlier, id)) || Wants(t.earlier, id, inst)
       case Resyncing(who, order, _) =>
         (who == id && inst in order && Named(inst) && Live(t.earlier, id)) || Wants(t.earlier, id, inst)
       case Unsubscribing(who, gone) => !(who == id && inst in gone) && Wants(t.earlier, id, inst)
       case Reading(_) => Wants(t.earlier, id, inst)
       case Broadcasting(_, _) => Wants(t.earlier, id, inst)
  }

  lemma StepListsExactly(f: State, op: Op, id: SessionId, inst: Instrument)
    ensures id in Apply(f, op).sessions
            <==> (op.Registering? && op.id == id) || (op != Unregistering(id) && id in f.sessions)
    ensures Lists(Apply(f, op), id, inst)
            <==> match op
                 case Registering(who, _) => who != id && Lists(f, id, inst)
                 case Unregistering(who) => who != id && Lists(f, id, inst)
                 case Subscribing(who, insts, _, _) =>
                   (who == id && inst in insts && Named(inst) && id in f.sessions) || Lists(f, id, inst)
                 case Resyncing(who, order, _) =>
                   (who == id && inst in order && Named(inst) && id in f.sessions) || Lists(f, id, inst)
                 case Unsubscribing(who, gone) => !(who == id && inst in gone) && Lists(f, id, inst)
                 case Reading(_) => Lists(f, id, inst)
                 case Broadcasting(_, _) => Lists(f, id, inst)
  {
    hide Deliver, AllSnapshots, Normalize, Enlist, Delist, Orphans;
    match op
    case Subscribing(who, insts, channels, cache) =>
      if who in f.sessions { SubscriptionListsExactly(f, who, insts, channels, cache, id, inst); }
    case Resyncing(who, order, cache) =>
      if who in f.sessions { SubscriptionListsExactly(f, who, order, {}, cache, id, inst); }
    case Broadcasting(_, ms) => if id in f.sessions { DeliverKeeps(f.sessions[id], ms); }
    case _ =>
  }

  /**
     After any sequence of operations the live sessions are those registered and not unregistered since, and each
     lists exactly the named instruments its last word on which was a subscription.
     */
  lemma {:induction false} RunFollowsRequests(t: Trace<Op>, id: SessionId, inst: Instrument)
    ensures id in Run(t).sessions <==> Live(t, id)
    ensures Lists(Run(t), id, inst) <==> Wants(t, id, inst)
  {
    hide Apply, Lists;
    if t.Begin? {
      NobodyYet(id, inst);
    } else {
      RunFollowsRequests(t.earlier, id, inst);
      StepListsExactly(Run(t.earlier), t.last, id, inst);
    }
  }

  lemma NobodyYet(id: SessionId, inst: Instrument)
    ensures id !in Run(Begin).sessions && !Lists(Run(Begin), id, inst)
  {
  }

  /** Over every run a broadcast offers a session exactly the messages on its channels, of the instruments it wants. */
  lemma BroadcastFollowsRequests(t: Trace<Op>, id: SessionId, inst: Instrument, ms: seq<Message>, m: Message)
    requires AllAllowed(t) && Live(t, id)
    ensures id in Run(t).sessions
    ensures multiset(Offers(Run(t), Broadcasting(inst, ms), id))[m]
            == if Wants(t, id, inst) && m.channel in Run(t).sessions[id].channels then multiset(ms)[m] else 0
  {
    hide Run, Matching, Consistent, QueuesBounded, Subsequence, Wants, Live;
    RunFollowsRequests(t, id, inst);
    RunsAreConsistent(t);
    ListenersAreListed(Run(t), id, inst);
    MatchingKeepsChannels(Run(t).sessions[id].channels, ms, m);
  }

  // ---------------------------------------------------------------- nothing is lost or reordered

  /** The messages an operation offers to a session, those on its channels only. */
  function Offers(f: State, op: Op, id: SessionId): seq<Message> {
    if id !in f.sessions then []
    else
      match op
      case Subscribing(who, insts, channels, cache) =>
        var listening := f.sessions[id].channels + channels;
        if who == id then Matching(listening, AllSnapshots(listening, Normalize(insts), cache)) else []
      case Resyncing(who, order, cache) =>
        var listening := f.sessions[id].channels;
        if who == id then Matching(listening, AllSnapshots(listening, Normalize(order), cache)) else []
      case Broadcasting(inst, ms) => if id in Subscribers(f, inst) then Matching(f.sessions[id].channels, ms) else []
      case _ => []
  }

  /** The session begins or ends with this operation. */
  predicate Restarts(op: Op, id: SessionId) {
    (op.Registering? || op.Unregistering?) && op.id == id
  }

  /** What was offered to a session since it was registered. */
  function Offered(t: Trace<Op>, id: SessionId): seq<Message> {
    if t.Begin? || Restarts(t.last, id) then [] else Offered(t.earlier, id) + Offers(Run(t.earlier), t.last, id)
  }

  /** What its queue took of that: of each portion the part that fitted. */
  function Accepts(f: State, op: Op, id: SessionId): seq<Message> {
    var portion := Offers(f, op, id);
    if id in f.sessions then portion[..Room(f.sessions[id], |portion|)] else []
  }

  function Taken(t: Trace<Op>, id: SessionId): seq<Message> {
    if t.Begin? || Restarts(t.last, id) then [] else Taken(t.earlier, id) + Accepts(Run(t.earlier), t.last, id)
  }

  /** What the browser has read. */
  function ReadBy(t: Trace<Op>, id: SessionId): seq<Message> {
    if t.Begin? || Restarts(t.last, id) then []
    else
      var before, f := ReadBy(t.earlier, id), Run(t.earlier);
      if t.last == Reading(id) && id in f.sessions && f.sessions[id].queue != [] then
        before + [f.sessions[id].queue[0]]
      else
        before
  }

  /** a is b with some elements left out. */
  ghost predicate Subsequence<T>(a: seq<T>, b: seq<T>) {
    || a == []
    || (b != [] && ((a[|a| - 1] == b[|b| - 1] && Subsequence(a[..|a| - 1], b[..|b| - 1]))
                    || Subsequence(a, b[..|b| - 1])))
  }

  lemma SubsequenceSnoc<T>(a: seq<T>, b: seq<T>, x: T)
    requires Subsequence(a, b)
    ensures Subsequence(a + [x], b + [x]) && Subsequence(a, b + [x])
  {
    assert (a + [x])[..|a|] == a && (b + [x])[..|b|] == b;
  }

  lemma LastOfPortion<T>(s: seq<T>, portion: seq<T>)
    requires portion != []
    ensures s + portion == s + portion[..|portion| - 1] + [portion[|portion| - 1]]
  {
  }

  lemma {:induction false} SubsequenceAppend<T>(a: seq<T>, b: seq<T>, portion: seq<T>, n: nat)
    requires Subsequence(a, b) && n <= |portion|
    ensures Subsequence(a + portion[..n], b + portion)
  {
    if portion == [] {
      assert a + portion[..n] == a && b + portion == b;
    } else {
      hide Subsequence;
      var last := |portion| - 1;
      var x := portion[last];
      LastOfPortion(b, portion);
      if n > last {
        SubsequenceAppend(a, b, portion[..last], last);
        assert portion[..last][..last] == portion[..last] && portion[..n] == portion;
        LastOfPortion(a, portion);
        SubsequenceSnoc(a + portion[..last], b + portion[..last], x);
      } else {
        SubsequenceAppend(a, b, portion[..last], n);
        assert portion[..last][..n] == portion[..n];
        SubsequenceSnoc(a + portion[..n], b + portion[..last], x);
      }
    }
  }

  /** What an operation does to the queue of a session that stays. */
  lemma OperationMovesQueue(f: State, op: Op, id: SessionId)
    requires id in f.sessions && !Restarts(op, id)
    ensures id in Apply(f, op).sessions
    ensures var s, after, portion := f.sessions[id], Apply(f, op).sessions[id], Offers(f, op, id);
            && after.queue == (if op == Reading(id) then Take(s).queue else s.queue) + Accepts(f, op, id)
            && after.dropped == s.dropped + (|portion| - |Accepts(f, op, id)|)
  {
    hide Matching, Deliver, Normalize, AllSnapshots, Enlist, Delist, Orphans;
    var s := f.sessions[id];
    match op
    case Subscribing(who, insts, channels, cache) =>
      if who == id {
        DeliverAppendsPrefix(Joined(s, insts, channels), AllSnapshots(s.channels + channels, Normalize(insts), cache));
      }
    case Resyncing(who, order, cache) =>
      if who == id {
        assert s.channels + {} == s.channels;
        DeliverAppendsPrefix(Joined(s, order, {}), AllSnapshots(s.channels, Normalize(order), cache));
      }
    case Broadcasting(inst, ms) => DeliverAppendsPrefix(s, ms);
    case Registering(_, _) =>
    case Unregistering(_) =>
    case Unsubscribing(_, _) =>
    case Reading(_) =>
  }

  lemma OnlyRestartsCreate(f: State, op: Op, id: SessionId)
    requires id !in f.sessions && !Restarts(op, id)
    ensures id !in Apply(f, op).sessions
  {
    hide Deliver, Normalize, AllSnapshots, Enlist, Delist, Orphans;
  }

  /**
     Over every run, for every live session: what the browser has read followed by what is queued is exactly what the
     queue took, in order; that is what was offered with some messages left out; and those left out are the ones counted
     as dropped.
     */
  lemma {:induction false} MessagesAreConserved(t: Trace<Op>, id: SessionId)
    requires id in Run(t).sessions
    ensures ReadBy(t, id) + Run(t).sessions[id].queue == Taken(t, id)
    ensures Subsequence(Taken(t, id), Offered(t, id))
    ensures |Offered(t, id)| == |Taken(t, id)| + Run(t).sessions[id].dropped
  {
    hide Offers, Accepts, Subscribe, Unsubscribe, Broadcast;
    var f, op := Run(t.earlier), t.last;
    if Restarts(op, id) {
      FreshSession(f, op, id);
    } else {
      if id !in f.sessions { OnlyRestartsCreate(f, op, id); }
      MessagesAreConserved(t.earlier, id);
      OperationMovesQueue(f, op, id);
      AcceptsPrefix(f, op, id);
      var s := f.sessions[id];
      OneMorePortion(ReadBy(t.earlier, id), s.queue, Taken(t.earlier, id), Offered(t.earlier, id), s.dropped,
                     Offers(f, op, id), |Accepts(f, op, id)|, op == Reading(id));
      hide Apply, Subsequence;
    }
  }

  lemma OneMorePortion(read: seq<Message>, queue: seq<Message>, taken: seq<Message>, offered: seq<Message>,
                       dropped: nat, portion: seq<Message>, n: nat, reading: bool)
    requires read + queue == taken && Subsequence(taken, offered) && |offered| == |taken| + dropped
    requires n <= |portion| && (reading ==> portion == [])
    ensures var moves := reading && queue != [];
            (if moves then read + [queue[0]] else read) + ((if moves then queue[1..] else queue) + portion[..n])
            == taken + portion[..n]
    ensures Subsequence(taken + portion[..n], offered + portion)
    ensures |offered + portion| == |taken + portion[..n]| + (dropped + (|portion| - n))
  {
    SubsequenceAppend(taken, offered, portion, n);
    if queue != [] { assert [queue[0]] + queue[1..] == queue; }
  }

  lemma AcceptsPrefix(f: State, op: Op, id: SessionId)
    requires id in f.sessions
    ensures |Accepts(f, op, id)| <= |Offers(f, op, id)|
            && Accepts(f, op, id) == Offers(f, op, id)[..|Accepts(f, op, id)|]
    ensures op == Reading(id) ==> Offers(f, op, id) == []
  {
  }

  lemma FreshSession(f: State, op: Op, id: SessionId)
    requires Restarts(op, id) && id in Apply(f, op).sessions
    ensures Apply(f, op).sessions[id].queue == [] && Apply(f, op).sessions[id].dropped == 0
  {
  }

  // ---------------------------------------------------------------- one step of each loop

  lemma NobodyLeaves(index: map<Instrument, set<SessionId>>, id: SessionId)
    ensures forall insts: set<Instrument> :: insts - insts == {}
    ensures Delist(index, id, {}) == index && Orphans(index, id, {}) == {}
  {
  }

  /** Leaving one more instrument. */
  lemma LeaveOne(index: map<Instrument, set<SessionId>>, id: SessionId, done: set<Instrument>, inst: Instrument)
    requires inst !in done
    ensures var now, next := Delist(index, id, done), Delist(index, id, done + {inst});
            var gone, more := Orphans(index, id, done), Orphans(index, id, done + {inst});
            if inst in now && now[inst] != {} then
              var rest := now[inst] - {id};
              if rest == {} then next == now - {inst} && more == gone + {inst}
              else next == now[inst := rest] && more == gone
            else next == now && more == gone
  {
    var now, next := Delist(index, id, done), Delist(index, id, done + {inst});
    var gone, more := Orphans(index, id, done), Orphans(index, id, done + {inst});
    assert inst in now <==> inst in index;
    if inst in index && index[inst] != {} && index[inst] - {id} == {} {
      assert more == gone + {inst};
      assert next.Keys == now.Keys - {inst};
    } else {
      assert more == gone;
      assert next.Keys == now.Keys;
      if inst in index {
        assert next[inst] == index[inst] - {id};
        if index[inst] == {} { assert next[inst] == now[inst]; }
      }
    }
  }

  lemma NothingWanted(s: Session, index: map<Instrument, set<SessionId>>, id: SessionId, cache: Cache)
    ensures AllSnapshots(s.channels, [], cache) == [] && Deliver(s, []) == s
    ensures Enlist(index, id, {}) == index && s.(instruments := s.instruments + {}) == s
  {
    assert s.instruments + {} == s.instruments;
    assert Enlist(index, id, {}).Keys == index.Keys;
  }

  /** Joining one more instrument. */
  lemma EnlistOne(index: map<Instrument, set<SessionId>>, id: SessionId, done: set<Instrument>, inst: Instrument)
    ensures var now := Enlist(index, id, done);
            Enlist(index, id, done + {inst}) == now[inst := (if inst in now then now[inst] else {}) + {id}]
  {
    var now, next := Enlist(index, id, done), Enlist(index, id, done + {inst});
    assert next.Keys == now.Keys + {inst};
    assert next[inst] == (if inst in now then now[inst] else {}) + {id};
  }

  lemma SnapshotsOne(listening: set<string>, wanted: seq<Instrument>, i: nat, cache: Cache)
    requires i < |wanted|
    ensures AllSnapshots(listening, wanted[..i + 1], cache)
            == AllSnapshots(listening, wanted[..i], cache) + Snapshots(listening, wanted[i], cache, 3)
  {
    assert wanted[..i + 1][..i] == wanted[..i];
  }

  /** Delivering in two portions, and joining an instrument before or after a delivery. */
  lemma {:induction false} DeliverTwice(s: Session, ms: seq<Message>, more: seq<Message>)
    ensures Deliver(s, ms + more) == Deliver(Deliver(s, ms), more)
  {
    if more == [] {
      assert ms + more == ms;
    } else {
      DeliverTwice(s, ms, more[..|more| - 1]);
      DeliverKeeps(s, ms);
      assert (ms + more)[..|ms + more| - 1] == ms + more[..|more| - 1];
    }
  }

  lemma {:induction false} JoinBeforeDelivery(s: Session, ms: seq<Message>, insts: set<Instrument>)
    ensures Deliver(s.(instruments := insts), ms) == Deliver(s, ms).(instruments := insts)
  {
    if ms != [] { JoinBeforeDelivery(s, ms[..|ms| - 1], insts); }
  }

  /** One round of a subscription: an instrument is added after earlier deliveries, then its snapshots follow. */
  lemma JoinThenOffer(s: Session, insts: set<Instrument>, inst: Instrument, sent: seq<Message>, snaps: seq<Message>)
    ensures var before := Deliver(s.(instruments := insts), sent);
            && before.instruments == insts && before.channels == s.channels
            && Deliver(before.(instruments := insts + {inst}), snaps)
               == Deliver(s.(instruments := insts + {inst}), sent + snaps)
            && Deliver(before.(instruments := insts + {inst}), snaps).channels == s.channels
  {
    var joined := s.(instruments := insts + {inst});
    JoinBeforeDelivery(s, sent, insts);
    JoinBeforeDelivery(s, sent, insts + {inst});
    DeliverTwice(joined, sent, snaps);
    DeliverKeeps(s, sent);
    DeliverKeeps(joined, sent + snaps);
  }

  /** Some instruments were joined, one after the other, each followed by its snapshots. */
  ghost predicate JoinedUpTo(start: Session, before: map<Instrument, set<SessionId>>, id: SessionId,
                             done: seq<Instrument>, cache: Cache,
                             now: Session, sent: seq<Message>, index: map<Instrument, set<SessionId>>)
  {
    && now == Deliver(start.(instruments := start.instruments + Elements(done)), sent)
    && sent == AllSnapshots(start.channels, done, cache)
    && index == Enlist(before, id, Elements(done))
  }

  lemma JoinedMeans(start: Session, before: map<Instrument, set<SessionId>>, id: SessionId,
                    done: seq<Instrument>, cache: Cache,
                    now: Session, sent: seq<Message>, index: map<Instrument, set<SessionId>>)
    requires JoinedUpTo(start, before, id, done, cache, now, sent, index)
    ensures now == Deliver(start.(instruments := start.instruments + Elements(done)),
                           AllSnapshots(start.channels, done, cache))
    ensures sent == AllSnapshots(start.channels, done, cache) && index == Enlist(before, id, Elements(done))
  {
  }

  lemma JoinedOneMore(start: Session, before: map<Instrument, set<SessionId>>, id: SessionId,
                      wanted: seq<Instrument>, i: nat, cache: Cache,
                      now: Session, sent: seq<Message>, index: map<Instrument, set<SessionId>>, snaps: seq<Message>)
    requires i < |wanted| && JoinedUpTo(start, before, id, wanted[..i], cache, now, sent, index)
    requires snaps == Snapshots(now.channels, wanted[i], cache, 3)
    ensures JoinedUpTo(start, before, id, wanted[..i + 1], cache,
                       Deliver(now.(instruments := now.instruments + {wanted[i]}), snaps), sent + snaps,
                       index[wanted[i] := (if wanted[i] in index then index[wanted[i]] else {}) + {id}])
  {
    hide AllSnapshots, Deliver, Snapshots, Enlist, Elements;
    var inst := wanted[i];
    ElementsSnoc(wanted, i);
    SnapshotsOne(start.channels, wanted, i, cache);
    EnlistOne(before, id, Elements(wanted[..i]), inst);
    JoinThenOffer(start, start.instruments + Elements(wanted[..i]), inst, sent, snaps);
    assert start.instruments + Elements(wanted[..i]) + {inst} == start.instruments + Elements(wanted[..i + 1]);
  }

  ghost predicate Splits(done: set<SessionId>, todo: set<SessionId>, all: set<SessionId>) {
    done !! todo && done + todo == all
  }

  lemma SplitStarts(all: set<SessionId>)
    ensures Splits({}, all, all)
  {
  }

  lemma SplitMoves(done: set<SessionId>, todo: set<SessionId>, all: set<SessionId>, id: SessionId)
    requires Splits(done, todo, all) && id in todo
    ensures Splits(done + {id}, todo - {id}, all) && id !in done
  {
  }

  lemma SplitEnds(done: set<SessionId>, all: set<SessionId>)
    requires Splits(done, {}, all)
    ensures done == all
  {
  }

  /** Offering to one more session. */
  lemma DeliverToOne(f: State, done: set<SessionId>, id: SessionId, ms: seq<Message>)
    requires id !in done
    ensures DeliverTo(DeliverTo(f, done, ms), {id}, ms) == DeliverTo(f, done + {id}, ms)
    ensures Accepted(DeliverTo(f, done, ms), id, ms) == Accepted(f, id, ms)
  {
    var next := DeliverTo(f, done + {id}, ms);
    assert next.sessions.Keys == DeliverTo(f, done, ms).sessions.Keys == f.sessions.Keys;
  }

  // ---------------------------------------------------------------- the classes

  class ClientSession {
    const id: SessionId
    const bound: int
    var queue: seq<Message>
    var instruments: set<Instrument>
    var channels: set<string>
    var isSlow: bool
    var dropped: nat

    constructor (id: SessionId, bound: int)
      ensures this.id == id && Value() == NewSession(bound)
    {
      this.id, this.bound := id, bound;
      queue, instruments, channels, isSlow, dropped := [], {}, {"quotes", "depth", "oi"}, false, 0;
    }

    ghost function Value(): Session
      reads this
    {
      Session(queue, bound, instruments, channels, isSlow, dropped)
    }

    method SendNowait(m: Message) returns (accepted: bool)
      modifies this
      ensures Value() == Send(old(Value()), m)
      ensures accepted <==> !Full(old(Value()))
    {
      if bound > 0 && |queue| >= bound {
        isSlow := true;
        dropped := dropped + 1;
        return false;
      }
      queue := queue + [m];
      return true;
    }

    /** What the pump sends next, if anything is queued. */
    method TakeNext() returns (next: Option<Message>)
      modifies this
      ensures Value() == Take(old(Value()))
      ensures next == if old(queue) == [] then None else Some(old(queue)[0])
    {
      if queue == [] {
        return None;
      }
      next := Some(queue[0]);
      queue := queue[1..];
    }

    /** Offer several messages to the channels listened to; count those taken. */
    method Offer(ms: seq<Message>) returns (taken: nat)
      modifies this
      ensures Value() == Deliver(old(Value()), ms)
      ensures taken == |queue| - |old(queue)|
    {
      taken := 0;
      for i := 0 to |ms|
        invariant Value() == Deliver(old(Value()), ms[..i])
        invariant taken == |queue| - |old(queue)| && channels == old(channels)
      {
        assert ms[..i + 1][..i] == ms[..i];
        if ms[i].channel in channels {
          var accepted := SendNowait(ms[i]);
          if accepted {
            taken := taken + 1;
          }
        }
      }
      assert ms[..|ms|] == ms;
    }
  }

  class MarketDataFanoutManager {
    var sessions: map<SessionId, ClientSession>
    var index: map<Instrument, set<SessionId>>
    /** What the hot cache has been asked for. */
    var demand: set<Instrument>

    constructor ()
      ensures Valid() && Value() == EMPTY
    {
      sessions, index, demand := map[], map[], {};
    }

    /** Sessions are stored under their own ids, so no object is stored twice. */
    ghost predicate Valid()
      reads this, sessions.Values
    {
      forall id :: id in sessions ==> sessions[id].id == id
    }

    ghost function Value(): (f: State)
      reads this, sessions.Values
      ensures f.sessions.Keys == sessions.Keys
    {
      State(map id | id in sessions :: sessions[id].Value(), index, demand)
    }

    method RegisterSession(session: ClientSession)
      requires Valid()
      modifies this
      ensures Valid() && Value() == Register(old(Value()), session.id, old(session.Value()))
    {
      sessions := sessions[session.id := session];
    }

    /**
       Take one session out of the subscriber sets of some instruments and tell the hot cache what is no longer
       wanted.
       */
    method Leave(id: SessionId, insts: set<Instrument>)
      requires Valid()
      modifies this`index, this`demand
      ensures Valid()
      ensures index == Delist(old(index), id, insts) && demand == old(demand) - Orphans(old(index), id, insts)
    {
      hide Delist, Orphans;
      var released := {};
      var todo := insts;
      NobodyLeaves(index, id);
      while todo != {}
        invariant todo <= insts && demand == old(demand)
        invariant index == Delist(old(index), id, insts - todo)
        invariant released == Orphans(old(index), id, insts - todo)
        decreases |todo|
      {
        ghost var before := todo;
        var inst :| inst in todo;
        todo := todo - {inst};
        assert insts - todo == (insts - before) + {inst};
        LeaveOne(old(index), id, insts - before, inst);
        if inst in index && index[inst] != {} {
          var subscribers := index[inst] - {id};
          if subscribers == {} {
            index := index - {inst};
            released := released + {inst};
          } else {
            index := index[inst := subscribers];
          }
        }
      }
      assert insts - todo == insts;
      demand := demand - released;
    }

    method UnregisterSession(id: SessionId)
      requires Valid()
      modifies this
      ensures Valid() && Value() == Unregister(old(Value()), id)
    {
      if id in sessions {
        var insts := sessions[id].instruments;
        sessions := sessions - {id};
        Leave(id, insts);
      }
    }

    method UnsubscribeSession(id: SessionId, insts: seq<Instrument>)
      requires Valid()
      modifies this, sessions.Values
      ensures Valid() && Value() == Unsubscribe(old(Value()), id, Elements(insts))
    {
      if id in sessions {
        var session := sessions[id];
        session.instruments := session.instruments - Elements(insts);
        Leave(id, Elements(insts));
      }
    }

    /** Join one instrument; its snapshots go out on the session's queue. */
    method JoinOne(session: ClientSession, inst: Instrument, cache: Cache) returns (snaps: seq<Message>)
      modifies this`index, session
      ensures snaps == Snapshots(old(session.channels), inst, cache, 3)
      ensures var before := old(session.Value());
              session.Value() == Deliver(before.(instruments := before.instruments + {inst}), snaps)
      ensures index == old(index)[inst := (if inst in old(index) then old(index)[inst] else {}) + {session.id}]
    {
      hide Snapshots, Deliver;
      session.instruments := session.instruments + {inst};
      index := index[inst := (if inst in index then index[inst] else {}) + {session.id}];
      snaps := Snapshots(session.channels, inst, cache, 3);
      var _ := session.Offer(snaps);
    }

    /** Join the wanted instruments one after the other, each followed by its snapshots. */
    method JoinAll(session: ClientSession, wanted: seq<Instrument>, cache: Cache) returns (sent: seq<Message>)
      modifies this`index, session
      ensures var start := old(session.Value());
              session.Value() == Deliver(start.(instruments := start.instruments + Elements(wanted)),
                                         AllSnapshots(start.channels, wanted, cache))
      ensures index == Enlist(old(index), session.id, Elements(wanted))
      ensures sent == AllSnapshots(old(session.channels), wanted, cache)
    {
      ghost var start, before := session.Value(), index;
      sent := [];
      NothingWanted(start, index, session.id, cache);
      assert wanted[..0] == [] && Elements(wanted[..0]) == {};
      hide AllSnapshots, Deliver, Snapshots, Enlist, Elements;
      assert JoinedUpTo(start, before, session.id, wanted[..0], cache, session.Value(), sent, index);
      hide JoinedUpTo;
      for i := 0 to |wanted|
        invariant JoinedUpTo(start, before, session.id, wanted[..i], cache, session.Value(), sent, index)
      {
        ghost var now, subscribers := session.Value(), index;
        var snaps := JoinOne(session, wanted[i], cache);
        JoinedOneMore(start, before, session.id, wanted, i, cache, now, sent, subscribers, snaps);
        sent := sent + snaps;
      }
      assert wanted[..|wanted|] == wanted;
      JoinedMeans(start, before, session.id, wanted, cache, session.Value(), sent, index);
    }

    /** Subscribe a known session; its snapshots go out on its queue and are returned. */
    method SubscribeSession(id: SessionId, insts: seq<Instrument>, channels: set<string>, cache: Cache)
      returns (snapshots: Option<seq<Message>>)
      requires Valid()
      modifies this, sessions.Values
      ensures Valid() && Value() == Subscribe(old(Value()), id, insts, channels, cache)
      ensures snapshots == if id in old(sessions) then
                             Some(AllSnapshots(old(Value()).sessions[id].channels + channels, Normalize(insts), cache))
                           else None
    {
      hide AllSnapshots, Deliver, Snapshots, Enlist, Elements, Normalize;
      if id !in sessions {
        return None;
      }
      var session := sessions[id];
      session.channels := session.channels + channels;
      var wanted := Normalize(insts);
      demand := demand + Elements(wanted);
      var sent := JoinAll(session, wanted, cache);
      snapshots := Some(sent);
    }

    /** Send fresh snapshots of everything a session has; `order` is the order its set is walked in. */
    method Resync(id: SessionId, order: seq<Instrument>, cache: Cache) returns (snapshots: seq<Message>)
      requires Valid() && (id in sessions ==> Elements(order) == sessions[id].instruments)
      modifies this, sessions.Values
      ensures Valid() && Value() == Apply(old(Value()), Resyncing(id, order, cache))
      ensures snapshots == if id in old(sessions) then
                             AllSnapshots(old(Value()).sessions[id].channels, Normalize(order), cache)
                           else []
    {
      hide AllSnapshots, Normalize;
      var sent := SubscribeSession(id, order, {}, cache);
      assert id in old(sessions) ==> old(Value()).sessions[id].channels + {} == old(Value()).sessions[id].channels;
      snapshots := if sent.Some? then sent.value else [];
    }

    /** Offer messages to one session, if it is live. */
    method OfferTo(id: SessionId, ms: seq<Message>) returns (taken: nat)
      requires Valid()
      modifies sessions.Values
      ensures Valid() && sessions == old(sessions)
      ensures Value() == DeliverTo(old(Value()), {id}, ms) && taken == Accepted(old(Value()), id, ms)
    {
      hide Deliver, Matching;
      taken := 0;
      if id in sessions {
        DeliverAppendsPrefix(sessions[id].Value(), ms);
        taken := sessions[id].Offer(ms);
      }
    }

    /** Offer messages to those of some sessions that are live, in any order; the number taken. */
    method OfferToAll(ids: set<SessionId>, ms: seq<Message>) returns (successes: nat)
      requires Valid()
      modifies sessions.Values
      ensures Valid()
      ensures Value() == DeliverTo(old(Value()), ids, ms) && successes == TotalAccepted(old(Value()), ids, ms)
    {
      ghost var before := Value();
      assert DeliverTo(before, {}, ms) == before;
      SplitStarts(ids);
      hide DeliverTo, Accepted, Value, Valid, Splits;
      successes := 0;
      var todo := ids;
      ghost var done := {};
      while todo != {}
        invariant Splits(done, todo, ids) && Valid()
        invariant sessions == old(sessions)
        invariant Value() == DeliverTo(before, done, ms)
        invariant successes + TotalAccepted(before, todo, ms) == TotalAccepted(before, ids, ms)
        decreases |todo|
      {
        hide TotalAccepted;
        var id :| id in todo;
        SplitMoves(done, todo, ids, id);
        TotalAcceptedRemove(before, todo, id, ms);
        DeliverToOne(before, done, id, ms);
        todo, done := todo - {id}, done + {id};
        var taken := OfferTo(id, ms);
        successes := successes + taken;
      }
      SplitEnds(done, ids);
    }

    /** Dispatch a packet to its subscribers; the number of messages taken. */
    method BroadcastPacket(kind: PacketKind, inst: Instrument, data: string -> string) returns (successes: nat)
      requires Valid()
      modifies sessions.Values
      ensures Valid()
      ensures Value() == Broadcast(old(Value()), inst, Deltas(kind, inst, data))
      ensures successes == TotalAccepted(old(Value()), Subscribers(old(Value()), inst), Deltas(kind, inst, data))
    {
      hide TotalAccepted, DeliverTo, Deltas;
      successes := OfferToAll(if inst in index then index[inst] else {}, Deltas(kind, inst, data));
    }
  }
}
