/**
 Broker subscriptions of the live feed (backend/app/dhan/live_feed_service.py): the names instruments
 have on the wire, batching, and the reconciliation of the broker's set with the browsers' demand.
 */
module FeedSubscriptions {
  import opened Common
  import opened Instruments

  const PER_MESSAGE := 100
  const PER_SOCKET := 5000
  const PER_QUOTE_REQUEST := 1000

  // ---------------------------------------------------------------- names on the wire

  datatype Wire = Wire(segment: string, securityId: string)

  /** Segments are known by number and by name. */
  const SEGMENT_TO_DHAN: map<string, string> := map[
    "0" := "IDX_I", "1" := "NSE_EQ", "2" := "NSE_FNO", "3" := "NSE_CURRENCY", "4" := "BSE_EQ",
    "5" := "MCX_COMM", "7" := "BSE_CURRENCY", "8" := "BSE_FNO",
    "IDX_I" := "IDX_I", "NSE_EQ" := "NSE_EQ", "NSE_FNO" := "NSE_FNO", "NSE_CURRENCY" := "NSE_CURRENCY",
    "BSE_EQ" := "BSE_EQ", "MCX_COMM" := "MCX_COMM", "BSE_CURRENCY" := "BSE_CURRENCY", "BSE_FNO" := "BSE_FNO"]

  /** Bombay equities are asked for under their National listing; unknown segments are not sent. */
  function WireSegment(segment: string): Option<string> {
    if segment in {"4", "BSE_EQ", "BSE"} then Some("NSE_EQ")
    else if segment in SEGMENT_TO_DHAN then Some(SEGMENT_TO_DHAN[segment])
    else None
  }

  /** Each wire segment and everything that is sent under it. */
  lemma SegmentsOnTheWire(segment: string)
    ensures WireSegment(segment) == Some("NSE_EQ") <==> segment in {"1", "NSE_EQ", "4", "BSE_EQ", "BSE"}
    ensures WireSegment(segment) == Some("IDX_I") <==> segment in {"0", "IDX_I"}
    ensures WireSegment(segment) == Some("NSE_FNO") <==> segment in {"2", "NSE_FNO"}
    ensures WireSegment(segment) == Some("NSE_CURRENCY") <==> segment in {"3", "NSE_CURRENCY"}
    ensures WireSegment(segment) == Some("MCX_COMM") <==> segment in {"5", "MCX_COMM"}
    ensures WireSegment(segment) == Some("BSE_CURRENCY") <==> segment in {"7", "BSE_CURRENCY"}
    ensures WireSegment(segment) == Some("BSE_FNO") <==> segment in {"8", "BSE_FNO"}
    ensures WireSegment(segment).Some? ==>
              WireSegment(segment).value in {"NSE_EQ", "IDX_I", "NSE_FNO", "NSE_CURRENCY", "MCX_COMM",
                                             "BSE_CURRENCY", "BSE_FNO"}
  {
  }

  function WireOf(inst: Instrument): Option<Wire> {
    var segment := WireSegment(inst.segment);
    if segment.Some? then Some(Wire(segment.value, inst.securityId)) else None
  }

  function WireImage(insts: set<Instrument>): set<Wire> {
    set i | i in insts && WireOf(i).Some? :: WireOf(i).value
  }

  /** The wire names of a list of instruments, in its order. */
  function WireList(insts: seq<Instrument>): seq<Wire> {
    if insts == [] then []
    else
      var rest, w := WireList(insts[..|insts| - 1]), WireOf(insts[|insts| - 1]);
      if w.Some? then rest + [w.value] else rest
  }

  lemma {:induction false} WireListImage(insts: seq<Instrument>)
    ensures Elements(WireList(insts)) == WireImage(Elements(insts))
    ensures |WireList(insts)| <= |insts|
  {
    if insts != [] {
      var n := |insts| - 1;
      WireListImage(insts[..n]);
      ElementsSnoc(insts, n);
      assert insts[..n + 1] == insts;
      var rest, w := WireList(insts[..n]), WireOf(insts[n]);
      if w.Some? { assert Elements(rest + [w.value]) == Elements(rest) + {w.value}; }
    }
  }

  // ---------------------------------------------------------------- batches

  function Chunks<T>(items: seq<T>, size: nat): seq<seq<T>>
    requires size > 0
  {
    if items == [] then []
    else if |items| <= size then [items]
    else [items[..size]] + Chunks(items[size..], size)
  }

  function Concat<T>(parts: seq<seq<T>>): seq<T> {
    if parts == [] then [] else parts[0] + Concat(parts[1..])
  }

  /** Batches are never empty, never too long, only the last may be short, and together they are the list. */
  lemma {:induction false} ChunksPartition<T>(items: seq<T>, size: nat)
    requires size > 0
    ensures Concat(Chunks(items, size)) == items
    ensures forall i :: 0 <= i < |Chunks(items, size)| ==> 1 <= |Chunks(items, size)[i]| <= size
    ensures forall i :: 0 <= i < |Chunks(items, size)| - 1 ==> |Chunks(items, size)[i]| == size
    decreases |items|
  {
    if items == [] {
    } else if |items| <= size {
      assert Concat([items]) == items + Concat([]);
    } else {
      ChunksPartition(items[size..], size);
      var rest := Chunks(items[size..], size);
      assert Chunks(items, size) == [items[..size]] + rest;
      assert ([items[..size]] + rest)[1..] == rest;
      assert items == items[..size] + items[size..];
    }
  }

  // ---------------------------------------------------------------- what the broker makes of the messages

  datatype Request = Request(unsubscribe: bool, count: nat, instruments: seq<Wire>)

  /** The broker's subscriptions after a connection's messages. */
  function Replay(sent: seq<Request>): set<Wire> {
    if sent == [] then {}
    else
      var before, r := Replay(sent[..|sent| - 1]), sent[|sent| - 1];
      if r.unsubscribe then before - Elements(r.instruments) else before + Elements(r.instruments)
  }

  /** The messages a change is sent in. */
  function Requests(batches: seq<seq<Wire>>, unsubscribe: bool): seq<Request> {
    seq(|batches|, i requires 0 <= i < |batches| => Request(unsubscribe, |batches[i]|, batches[i]))
  }

  lemma {:induction false} ReplayRequests(sent: seq<Request>, batches: seq<seq<Wire>>, unsubscribe: bool)
    ensures Replay(sent + Requests(batches, unsubscribe))
            == if unsubscribe then Replay(sent) - Elements(Concat(batches))
               else Replay(sent) + Elements(Concat(batches))
    decreases |batches|
  {
    if batches == [] {
      assert sent + Requests(batches, unsubscribe) == sent;
      assert Elements(Concat(batches)) == {};
    } else {
      var first := Request(unsubscribe, |batches[0]|, batches[0]);
      ReplayRequests(sent + [first], batches[1..], unsubscribe);
      assert sent + Requests(batches, unsubscribe) == (sent + [first]) + Requests(batches[1..], unsubscribe);
      assert (sent + [first])[..|sent|] == sent;
      assert Elements(Concat(batches)) == Elements(batches[0]) + Elements(Concat(batches[1..]));
    }
  }

  /** Messages of full batches have the sizes of the batches. */
  lemma RequestsAreSized(before: seq<Request>, batches: seq<seq<Wire>>, unsubscribe: bool)
    requires forall i :: 0 <= i < |batches| ==> 1 <= |batches[i]| <= 100
    ensures var sent := before + Requests(batches, unsubscribe);
            forall i :: |before| <= i < |sent| ==>
              && sent[i].unsubscribe == unsubscribe
              && 1 <= sent[i].count == |sent[i].instruments| <= 100
  {
  }

  class Socket {
    var sent: seq<Request>

    constructor ()
      ensures sent == []
    {
      sent := [];
    }

    method Send(r: Request)
      modifies this
      ensures sent == old(sent) + [r]
    {
      sent := sent + [r];
    }
  }

  // ---------------------------------------------------------------- the service

  class DhanLiveFeedService {
    /** What the service believes the broker sends, since the connection was opened. */
    var active: set<Instrument>

    constructor ()
      ensures active == {}
    {
      active := {};
    }

    method WireInstruments(insts: set<Instrument>) returns (wire: seq<Wire>)
      ensures exists order :: Ordered(order) && Elements(order) == insts && wire == WireList(order)
      ensures Elements(wire) == WireImage(insts)
    {
      var order := SortedSet(insts);
      wire := [];
      for i := 0 to |order|
        invariant wire == WireList(order[..i])
      {
        assert order[..i + 1][..i] == order[..i];
        var w := WireOf(order[i]);
        if w.Some? {
          wire := wire + [w.value];
        }
      }
      assert order[..|order|] == order;
      WireListImage(order);
    }

    method SendSubscriptionChange(ws: Socket, insts: set<Instrument>, unsubscribe: bool)
      modifies ws
      ensures exists order :: Ordered(order) && Elements(order) == insts
                              && ws.sent == old(ws.sent) + Requests(Chunks(WireList(order), PER_MESSAGE), unsubscribe)
      ensures Replay(ws.sent) == if unsubscribe then Replay(old(ws.sent)) - WireImage(insts)
                                 else Replay(old(ws.sent)) + WireImage(insts)
      ensures |old(ws.sent)| <= |ws.sent|
      ensures forall i :: |old(ws.sent)| <= i < |ws.sent| ==>
                            && ws.sent[i].unsubscribe == unsubscribe
                            && 1 <= ws.sent[i].count == |ws.sent[i].instruments| <= 100
    {
      var wire := WireInstruments(insts);
      var batches := Chunks(wire, PER_MESSAGE);
      ChunksPartition(wire, PER_MESSAGE);
      SendBatches(ws, batches, unsubscribe);
      ReplayRequests(old(ws.sent), batches, unsubscribe);
      RequestsAreSized(old(ws.sent), batches, unsubscribe);
      hide Requests, Replay, Chunks, WireList, WireImage;
    }

    method SendBatches(ws: Socket, batches: seq<seq<Wire>>, unsubscribe: bool)
      modifies ws
      ensures ws.sent == old(ws.sent) + Requests(batches, unsubscribe)
    {
      for i := 0 to |batches|
        invariant ws.sent == old(ws.sent) + Requests(batches[..i], unsubscribe)
      {
        ws.Send(Request(unsubscribe, |batches[i]|, batches[i]));
        assert Requests(batches[..i + 1], unsubscribe)
               == Requests(batches[..i], unsubscribe) + [Request(unsubscribe, |batches[i]|, batches[i])];
      }
      assert batches[..|batches|] == batches;
    }

    /** At most 5000 of the requested instruments: all of them, or the first 5000 in order. */
    method Capped(requested: set<Instrument>) returns (desired: set<Instrument>)
      ensures desired <= requested && |desired| <= 5000
      ensures |requested| <= 5000 ==> desired == requested
      ensures |requested| > 5000 ==> |desired| == 5000
      ensures forall kept, left :: kept in desired && left in requested - desired ==> Less(kept, left)
    {
      desired := requested;
      if |requested| > PER_SOCKET {
        var order := SortedSet(requested);
        desired := Elements(order[..PER_SOCKET]);
        DistinctElements(order[..PER_SOCKET]);
        assert forall j :: 0 <= j < PER_SOCKET ==> order[..PER_SOCKET][j] == order[j];
        forall kept, left | kept in desired && left in requested - desired ensures Less(kept, left) {
          var i :| 0 <= i < PER_SOCKET && order[i] == kept;
          assert left in Elements(order);
          var j :| 0 <= j < |order| && order[j] == left;
        }
      }
    }

    method ReconcileSubscriptions(ws: Socket, requested: set<Instrument>)
      modifies this, ws
      ensures active <= requested && |active| <= 5000
      ensures |requested| <= 5000 ==> active == requested
      ensures |requested| > 5000 ==> |active| == 5000
      ensures forall kept, left :: kept in active && left in requested - active ==> Less(kept, left)
      ensures active == old(active) ==> ws.sent == old(ws.sent)
      ensures Connection(active, Replay(ws.sent)) == Reconcile(Connection(old(active), Replay(old(ws.sent))), active)
    {
      var desired := Capped(requested);
      var additions, removals := desired - active, active - desired;
      if additions != {} {
        SendSubscriptionChange(ws, additions, false);
      } else {
        assert WireImage(additions) == {};
      }
      if removals != {} {
        SendSubscriptionChange(ws, removals, true);
      } else {
        assert WireImage(removals) == {};
      }
      active := desired;
    }
  }

  lemma {:induction false} DistinctElements(s: seq<Instrument>)
    requires Ordered(s)
    ensures |Elements(s)| == |s|
  {
    if s != [] {
      var n := |s| - 1;
      DistinctElements(s[..n]);
      ElementsSnoc(s, n);
      assert s[..n + 1] == s;
      forall i | 0 <= i < n ensures s[i] != s[n] { LessIsTotal(s[i], s[n]); }
    }
  }

  // ---------------------------------------------------------------- every connection

  /** What the service believes and what the broker does. */
  datatype Connection = Connection(active: set<Instrument>, broker: set<Wire>)

  /** One reconciliation towards a desired set: additions first, then removals. */
  function Reconcile(c: Connection, desired: set<Instrument>): Connection {
    Connection(desired, (c.broker + WireImage(desired - c.active)) - WireImage(c.active - desired))
  }

  function Run(t: Trace<set<Instrument>>): Connection {
    if t.Begin? then Connection({}, {}) else Reconcile(Run(t.earlier), t.last)
  }

  /** Wire names of an instrument leaving and of one staying or joining never coincide. */
  predicate NoClash(active: set<Instrument>, desired: set<Instrument>) {
    WireImage(active - desired) !! WireImage(desired)
  }

  lemma WireImageUnion(a: set<Instrument>, b: set<Instrument>)
    ensures WireImage(a + b) == WireImage(a) + WireImage(b)
  {
    forall w | w in WireImage(a + b) ensures w in WireImage(a) + WireImage(b) {
      var i :| i in a + b && WireOf(i) == Some(w);
    }
  }

  /** From agreement, one reconciliation keeps agreement exactly when nothing clashes. */
  lemma ReconcileIsExact(c: Connection, desired: set<Instrument>)
    requires c.broker == WireImage(c.active)
    ensures Reconcile(c, desired).broker == WireImage(desired) <==> NoClash(c.active, desired)
  {
    WireImageUnion(c.active, desired - c.active);
    WireImageUnion(c.active - desired, desired);
    assert c.active + (desired - c.active) == (c.active - desired) + desired;
    var left := WireImage(c.active - desired);
    assert Reconcile(c, desired).broker == WireImage(desired) - left;
  }

  ghost predicate NeverClashes(t: Trace<set<Instrument>>) {
    t.Begin? || (NeverClashes(t.earlier) && NoClash(Run(t.earlier).active, t.last))
  }

  /** As long as nothing clashes the broker's set is the wire image of the active set, on every connection. */
  lemma {:induction false} BrokerFollowsActive(t: Trace<set<Instrument>>)
    requires NeverClashes(t)
    ensures Run(t).broker == WireImage(Run(t).active)
  {
    if t.Then? {
      BrokerFollowsActive(t.earlier);
      ReconcileIsExact(Run(t.earlier), t.last);
    }
  }

  /** Clashes or not, the broker is never subscribed to anything that is not active. */
  lemma {:induction false} NeverOversubscribed(t: Trace<set<Instrument>>)
    ensures Run(t).broker <= WireImage(Run(t).active)
  {
    if t.Then? {
      NeverOversubscribed(t.earlier);
      var c, desired := Run(t.earlier), t.last;
      WireImageUnion(c.active, desired - c.active);
      WireImageUnion(c.active - desired, desired);
      assert c.active + (desired - c.active) == (c.active - desired) + desired;
    }
  }

  /** Different instruments of a set have different wire names. */
  ghost predicate Injective(insts: set<Instrument>) {
    forall i, j :: i in insts && j in insts && WireOf(i).Some? && WireOf(i) == WireOf(j) ==> i == j
  }

  /** Where the wire names are injective nothing can clash. */
  lemma InjectiveNeverClashes(active: set<Instrument>, desired: set<Instrument>)
    requires Injective(active + desired)
    ensures NoClash(active, desired)
  {
    forall i, j | i in active - desired && j in desired && WireOf(i).Some?
      ensures WireOf(i) != WireOf(j)
    {
      assert i in active + desired && j in active + desired;
    }
  }

  /** Two browsers watching one share under its two listings: when one leaves, the feed of both stops. */
  lemma ClashSilencesAnActiveInstrument()
    ensures var nse, bse := Instrument("1", "500"), Instrument("4", "500");
            var c := Run(Then(Then(Begin, {nse, bse}), {nse}));
            c.active == {nse} && WireImage(c.active) == {Wire("NSE_EQ", "500")} && c.broker == {}
  {
    var nse, bse, name := Instrument("1", "500"), Instrument("4", "500"), Wire("NSE_EQ", "500");
    assert WireOf(nse) == WireOf(bse) == Some(name);
    assert WireImage({}) == {} && WireImage({nse}) == {name} && WireImage({bse}) == {name};
    WireImageUnion({nse}, {bse});
    assert {nse} + {bse} == {nse, bse};
    OpeningSubscribes({nse, bse});
    var both := Run(Then(Begin, {nse, bse}));
    assert {nse} - both.active == {} && both.active - {nse} == {bse};
    assert Run(Then(Then(Begin, {nse, bse}), {nse})) == Reconcile(both, {nse});
  }

  /** The first reconciliation of a connection subscribes everything. */
  lemma OpeningSubscribes(desired: set<Instrument>)
    ensures Run(Then(Begin, desired)) == Connection(desired, WireImage(desired))
  {
    var none: set<Instrument> := {};
    assert desired - none == desired && none - desired == none && WireImage(none) == {};
    assert Run(Then(Begin, desired)) == Reconcile(Connection(none, {}), desired);
  }

  // ---------------------------------------------------------------- direct quote requests

  type Entry = (string, int)

  /** A request body: ids by segment. */
  type Body = map<string, seq<int>>

  /** The entries that can be asked for: a known segment and an id that reads as a number. */
  function Normalized(insts: seq<Instrument>, parse: string -> Option<int>): seq<Entry> {
    if insts == [] then []
    else
      var rest, inst := Normalized(insts[..|insts| - 1], parse), insts[|insts| - 1];
      var segment, id := WireSegment(inst.segment), parse(inst.securityId);
      if segment.Some? && id.Some? then rest + [(segment.value, id.value)] else rest
  }

  function Add(body: Body, e: Entry): Body {
    body[e.0 := (if e.0 in body then body[e.0] else []) + [e.1]]
  }

  function Group(entries: seq<Entry>): Body {
    if entries == [] then map[] else Add(Group(entries[..|entries| - 1]), entries[|entries| - 1])
  }

  /** The ids of one segment, in order. */
  function IdsOf(entries: seq<Entry>, segment: string): seq<int> {
    if entries == [] then []
    else
      var rest, e := IdsOf(entries[..|entries| - 1], segment), entries[|entries| - 1];
      if e.0 == segment then rest + [e.1] else rest
  }

  function Bodies(batches: seq<seq<Entry>>): seq<Body> {
    seq(|batches|, i requires 0 <= i < |batches| => Group(batches[i]))
  }

  /** How often a request names an entry. */
  ghost function Occurrences(body: Body, e: Entry): nat {
    if e.0 in body then multiset(body[e.0])[e.1] else 0
  }

  ghost function TotalOccurrences(bodies: seq<Body>, e: Entry): nat {
    if bodies == [] then 0 else Occurrences(bodies[0], e) + TotalOccurrences(bodies[1..], e)
  }

  /** A body lists, under every segment of its entries and no other, exactly that segment's ids in order. */
  lemma {:induction false} GroupListsBySegment(entries: seq<Entry>, segment: string)
    ensures segment in Group(entries) <==> IdsOf(entries, segment) != []
    ensures segment in Group(entries) ==> Group(entries)[segment] == IdsOf(entries, segment)
  {
    if entries != [] {
      GroupListsBySegment(entries[..|entries| - 1], segment);
    }
  }

  lemma {:induction false} GroupKeepsEntries(entries: seq<Entry>, e: Entry)
    ensures Occurrences(Group(entries), e) == multiset(entries)[e]
  {
    if entries != [] {
      var rest, last := entries[..|entries| - 1], entries[|entries| - 1];
      GroupKeepsEntries(rest, e);
      assert entries == rest + [last];
      if last.0 == e.0 {
        var before := if e.0 in Group(rest) then Group(rest)[e.0] else [];
        assert multiset(before + [last.1])[e.1] == multiset(before)[e.1] + (if last == e then 1 else 0);
      }
    }
  }

  lemma {:induction false} BodiesKeepEntries(batches: seq<seq<Entry>>, e: Entry)
    ensures TotalOccurrences(Bodies(batches), e) == multiset(Concat(batches))[e]
    decreases |batches|
  {
    if batches != [] {
      BodiesKeepEntries(batches[1..], e);
      GroupKeepsEntries(batches[0], e);
      assert Bodies(batches)[1..] == Bodies(batches[1..]);
      assert multiset(batches[0] + Concat(batches[1..])) == multiset(batches[0]) + multiset(Concat(batches[1..]));
    }
  }

  /** The bodies together ask for every valid entry exactly as often as it was requested, 1 to 1000 at a time. */
  lemma BodiesCoverOnce(entries: seq<Entry>, e: Entry)
    ensures var batches := Chunks(entries, PER_QUOTE_REQUEST);
            && TotalOccurrences(Bodies(batches), e) == multiset(entries)[e]
            && (forall i :: 0 <= i < |batches| ==> 1 <= |batches[i]| <= 1000)
            && (forall i :: 0 <= i < |batches| - 1 ==> |batches[i]| == 1000)
  {
    ChunksPartition(entries, PER_QUOTE_REQUEST);
    BodiesKeepEntries(Chunks(entries, PER_QUOTE_REQUEST), e);
  }

  /** Is this instrument known to the broker under the entry's segment and number? */
  ghost predicate Asks(inst: Instrument, parse: string -> Option<int>, e: Entry) {
    WireSegment(inst.segment) == Some(e.0) && parse(inst.securityId) == Some(e.1)
  }

  ghost function Asking(insts: set<Instrument>, parse: string -> Option<int>, e: Entry): set<Instrument> {
    set i | i in insts && Asks(i, parse, e)
  }

  lemma AskingGrows(insts: set<Instrument>, inst: Instrument, parse: string -> Option<int>, e: Entry)
    requires inst !in insts
    ensures |Asking(insts + {inst}, parse, e)|
            == |Asking(insts, parse, e)| + if Asks(inst, parse, e) then 1 else 0
  {
    hide WireSegment;
    var before, after := Asking(insts, parse, e), Asking(insts + {inst}, parse, e);
    assert after == before + if Asks(inst, parse, e) then {inst} else {};
  }

  /** Every instrument of a list without repetition is asked for once. */
  lemma {:induction false} NormalizedCounts(order: seq<Instrument>, parse: string -> Option<int>, e: Entry)
    requires Ordered(order)
    ensures multiset(Normalized(order, parse))[e] == |Asking(Elements(order), parse, e)|
  {
    if order == [] {
      assert Asking(Elements(order), parse, e) == {};
    } else {
      hide Elements, WireSegment, Asking, Less;
      var n := |order| - 1;
      var rest, inst := order[..n], order[n];
      NormalizedCounts(rest, parse, e);
      DistinctFromEarlier(order);
      ElementsSnoc(order, n);
      assert order[..n + 1] == order;
      AskingGrows(Elements(rest), inst, parse, e);
    }
  }

  lemma DistinctFromEarlier(order: seq<Instrument>)
    requires Ordered(order) && order != []
    ensures order[|order| - 1] !in Elements(order[..|order| - 1])
  {
    var n := |order| - 1;
    forall i | 0 <= i < n ensures order[i] != order[n] { LessIsTotal(order[i], order[n]); }
  }

  /** The bodies ask for a number under a segment as often as instruments carry it: none is lost, none made up. */
  method QuoteRequestBodies(insts: set<Instrument>, parse: string -> Option<int>) returns (bodies: seq<Body>)
    ensures exists order :: Ordered(order) && Elements(order) == insts
                            && bodies == Bodies(Chunks(Normalized(order, parse), PER_QUOTE_REQUEST))
    ensures forall e :: TotalOccurrences(bodies, e) == |Asking(insts, parse, e)|
  {
    var order := SortedSet(insts);
    var normalized := NormalizeAll(order, parse);
    bodies := [];
    var batches := Chunks(normalized, PER_QUOTE_REQUEST);
    for k := 0 to |batches|
      invariant bodies == Bodies(batches[..k])
    {
      var body: Body := map[];
      for i := 0 to |batches[k]|
        invariant body == Group(batches[k][..i])
      {
        assert batches[k][..i + 1][..i] == batches[k][..i];
        body := Add(body, batches[k][i]);
      }
      assert batches[k][..|batches[k]|] == batches[k];
      bodies := bodies + [body];
    }
    assert batches[..|batches|] == batches;
    forall e ensures TotalOccurrences(bodies, e) == |Asking(insts, parse, e)| {
      BodiesCoverOnce(normalized, e);
      NormalizedCounts(order, parse, e);
    }
  }

  /** The entries of the instruments in order, one by one. */
  method NormalizeAll(order: seq<Instrument>, parse: string -> Option<int>) returns (normalized: seq<Entry>)
    ensures normalized == Normalized(order, parse)
  {
    hide WireSegment;
    normalized := [];
    for i := 0 to |order|
      invariant normalized == Normalized(order[..i], parse)
    {
      assert order[..i + 1][..i] == order[..i];
      var segment, id := WireSegment(order[i].segment), parse(order[i].securityId);
      if segment.Some? && id.Some? {
        normalized := normalized + [(segment.value, id.value)];
      }
    }
    assert order[..|order|] == order;
  }
}
