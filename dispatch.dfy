/**
 The outbound side of the air-side module (cuav/modules/camera_air.py): how one queued
 object is fanned out over the links under backpressure (``send_object``), what a whole
 drain of ``transmit_queue`` does to each link, and how the ``gcs_address`` setting is
 turned into links (``start_aircraft_bsend``).
 */
module Dispatch {
  import opened Common
  import opened AirTypes
  import Text

  /** The priority of an object queued without one. */
  const DefaultPriority := 10000

  function PriorityOf(e: Outbound): (p: int)
    ensures e.priority.Some? ==> p == e.priority.value
    ensures e.priority.None? ==> p == DefaultPriority
  {
    match e.priority
    case Some(p) => p
    case None => DefaultPriority
  }

  /** What a link's ``send`` records for the object. */
  function SentOf(e: Outbound): Sent { Sent(e.pkt, PriorityOf(e)) }

  /** A link's ``send``: one more queued block and one more entry in its log. */
  function Push(l: Link, s: Sent): Link
  {
    l.(sendqSize := l.sendqSize + 1, log := l.log + [s])
  }

  /** Whether link ``i`` is one the object is meant for: every link when the object has no
      target, otherwise only its target. */
  predicate Considers(e: Outbound, i: nat)
  {
    e.target.None? || e.target == Some(i)
  }

  /** The broadcast loop of ``send_object`` after it has visited the first ``k`` links. */
  function FanOut(links: seq<Link>, s: Sent, maxqueue: int, k: nat): (r: seq<Link>)
    requires k <= |links|
    ensures |r| == |links|
    decreases k
  {
    if k == 0 then links
    else
      var p := FanOut(links, s, maxqueue, k - 1);
      if p[k - 1].sendqSize < maxqueue then p[k - 1 := Push(p[k - 1], s)] else p
  }

  /** ``send_object``: without a target, every link whose queue is below ``maxqueue``
      gets the object; with a target, only that link, under the same limit. */
  function SendObject(links: seq<Link>, e: Outbound, maxqueue: int): (r: seq<Link>)
    ensures |r| == |links|
  {
    match e.target
    case None => FanOut(links, SentOf(e), maxqueue, |links|)
    case Some(t) =>
      if t < |links| && links[t].sendqSize < maxqueue then links[t := Push(links[t], SentOf(e))]
      else links
  }

  lemma {:induction false} FanOutAt(links: seq<Link>, s: Sent, maxqueue: int, k: nat, i: nat)
    requires k <= |links| && i < |links|
    ensures FanOut(links, s, maxqueue, k)[i] ==
              if i < k && links[i].sendqSize < maxqueue then Push(links[i], s) else links[i]
    decreases k
  {
    if k > 0 {
      FanOutAt(links, s, maxqueue, k - 1, i);
      FanOutAt(links, s, maxqueue, k - 1, k - 1);
    }
  }

  /** Per link, ``send_object`` sends the object exactly when the link is one the object
      is meant for and its queue is below the limit, and otherwise leaves it alone. */
  lemma SendObjectAt(links: seq<Link>, e: Outbound, maxqueue: int, i: nat)
    requires i < |links|
    ensures SendObject(links, e, maxqueue)[i] ==
              if Considers(e, i) && links[i].sendqSize < maxqueue then Push(links[i], SentOf(e))
              else links[i]
  {
    if e.target.None? {
      FanOutAt(links, SentOf(e), maxqueue, |links|, i);
    }
  }

  /** The drain ``while not transmit_queue.empty()`` applied to the links. */
  function Drain(links: seq<Link>, queue: seq<Outbound>, maxqueue: int): (r: seq<Link>)
    ensures |r| == |links|
    decreases |queue|
  {
    if queue == [] then links else Drain(SendObject(links, queue[0], maxqueue), queue[1..], maxqueue)
  }

  /** The drain seen from one link, which does not depend on the other links. */
  function LinkDrain(l: Link, i: nat, queue: seq<Outbound>, maxqueue: int): Link
    decreases |queue|
  {
    if queue == [] then l
    else
      var l' := if Considers(queue[0], i) && l.sendqSize < maxqueue then Push(l, SentOf(queue[0])) else l;
      LinkDrain(l', i, queue[1..], maxqueue)
  }

  /** Links are independent: link ``i`` after the drain is determined by link ``i`` before
      it and the queue alone. */
  lemma {:induction false} DrainIsPerLink(links: seq<Link>, queue: seq<Outbound>, maxqueue: int, i: nat)
    requires i < |links|
    ensures Drain(links, queue, maxqueue)[i] == LinkDrain(links[i], i, queue, maxqueue)
    decreases |queue|
  {
    if queue != [] {
      SendObjectAt(links, queue[0], maxqueue, i);
      DrainIsPerLink(SendObject(links, queue[0], maxqueue), queue[1..], maxqueue, i);
    }
  }

  /** The objects of a queue meant for link ``i``, in queue order, as they would be sent. */
  function Wanted(queue: seq<Outbound>, i: nat): (r: seq<Sent>)
    ensures |r| <= |queue|
    decreases |queue|
  {
    if queue == [] then []
    else (if Considers(queue[0], i) then [SentOf(queue[0])] else []) + Wanted(queue[1..], i)
  }

  /** How many more objects a link takes before it reaches the limit. */
  function Room(l: Link, maxqueue: int): nat
  {
    if l.sendqSize < maxqueue then maxqueue - l.sendqSize else 0
  }

  function Min(a: nat, b: nat): nat { if a < b then a else b }

  /** A drain gives link ``i`` exactly the first ``Room`` objects meant for it, in queue
      order, each once; its queue grows by that number. */
  lemma {:induction false} LinkDrainTakesRoom(l: Link, i: nat, queue: seq<Outbound>, maxqueue: int)
    ensures var n := Min(|Wanted(queue, i)|, Room(l, maxqueue));
            LinkDrain(l, i, queue, maxqueue) ==
              l.(sendqSize := l.sendqSize + n, log := l.log + Wanted(queue, i)[..n])
    decreases |queue|
  {
    if queue != [] {
      var e := queue[0];
      var l' := if Considers(e, i) && l.sendqSize < maxqueue then Push(l, SentOf(e)) else l;
      LinkDrainTakesRoom(l', i, queue[1..], maxqueue);
      var w := Wanted(queue[1..], i);
      if Considers(e, i) && l.sendqSize < maxqueue {
        assert Wanted(queue, i) == [SentOf(e)] + w;
        assert Room(l', maxqueue) == Room(l, maxqueue) - 1;
        var n := Min(|w|, Room(l', maxqueue));
        assert ([SentOf(e)] + w)[..n + 1] == [SentOf(e)] + w[..n];
        assert l.log + [SentOf(e)] + w[..n] == l.log + ([SentOf(e)] + w[..n]);
      } else if Considers(e, i) {
        assert Room(l, maxqueue) == 0;
      } else {
        assert Wanted(queue, i) == w;
      }
    }
  }

  function Max(a: int, b: int): int { if a < b then b else a }

  /** Backpressure over a whole drain: a link never ends above the larger of its queue
      size before the drain and the limit. */
  lemma DrainNeverOverfills(links: seq<Link>, queue: seq<Outbound>, maxqueue: int, i: nat)
    requires i < |links|
    ensures Drain(links, queue, maxqueue)[i].sendqSize <= Max(links[i].sendqSize, maxqueue)
  {
    DrainIsPerLink(links, queue, maxqueue, i);
    LinkDrainTakesRoom(links[i], i, queue, maxqueue);
  }

  /** A link whose queue is at or above the limit receives nothing during a drain. */
  lemma DrainSkipsCloggedLink(links: seq<Link>, queue: seq<Outbound>, maxqueue: int, i: nat)
    requires i < |links| && links[i].sendqSize >= maxqueue
    ensures Drain(links, queue, maxqueue)[i] == links[i]
  {
    DrainIsPerLink(links, queue, maxqueue, i);
    LinkDrainTakesRoom(links[i], i, queue, maxqueue);
    assert links[i].log + [] == links[i].log;
  }

  /** A freshly built block sender: nothing queued, nothing sent. */
  function NewLink(ep: Endpoint): Link { Link(ep, 0, []) }

  /** One fresh link per endpoint, in order. */
  function LinksOf(eps: seq<Endpoint>): (r: seq<Link>)
    ensures |r| == |eps|
    ensures forall i :: 0 <= i < |eps| ==> r[i] == NewLink(eps[i])
  {
    seq(|eps|, i requires 0 <= i < |eps| => NewLink(eps[i]))
  }

  /** One ``gcs_address`` entry: exactly four ``:``-fields, the last three integers
      (``int()`` allows white space around them); the address is kept as written. */
  function ParseEndpoint(entry: string): (r: Option<Endpoint>)
    ensures r.Some? ==> |Text.Split(entry, ':')| == 4
  {
    var f := Text.Split(entry, ':');
    if |f| != 4 then None
    else
      match (Text.ParseInt(f[1]), Text.ParseInt(f[2]), Text.ParseInt(f[3]))
      case (Some(rp), Some(lp), Some(bw)) => Some(Endpoint(f[0], rp, lp, bw))
      case _ => None
  }

  /** An entry is accepted exactly when it has four ``:``-fields whose last three read
      as integers, and then the endpoint holds the first field and those three values. */
  lemma ParseEndpointFields(entry: string)
    ensures var f := Text.Split(entry, ':');
            ParseEndpoint(entry).Some? <==>
              |f| == 4 && Text.ParseInt(f[1]).Some? && Text.ParseInt(f[2]).Some? && Text.ParseInt(f[3]).Some?
    ensures var f := Text.Split(entry, ':');
            ParseEndpoint(entry).Some? ==>
              ParseEndpoint(entry).value ==
                Endpoint(f[0], Text.ParseInt(f[1]).value, Text.ParseInt(f[2]).value, Text.ParseInt(f[3]).value)
  {
  }

  /** The endpoints of the well-formed entries, in order; malformed ones are skipped. */
  function ParseEndpoints(entries: seq<string>): seq<Endpoint>
    decreases |entries|
  {
    if entries == [] then []
    else
      var init := ParseEndpoints(entries[..|entries| - 1]);
      match ParseEndpoint(entries[|entries| - 1])
      case Some(ep) => init + [ep]
      case None => init
  }

  /** The endpoints of a whole ``gcs_address`` value. */
  function ParseGcsAddress(address: string): seq<Endpoint>
  {
    ParseEndpoints(Text.Split(address, ','))
  }

  /** Parsing distributes over concatenation of entry lists, so a malformed entry affects
      no other entry. */
  lemma {:induction false} ParseEndpointsAppend(a: seq<string>, b: seq<string>)
    ensures ParseEndpoints(a + b) == ParseEndpoints(a) + ParseEndpoints(b)
    decreases |b|
  {
    if b != [] {
      var b' := b[..|b| - 1];
      assert (a + b)[..|a + b| - 1] == a + b';
      assert (a + b)[|a + b| - 1] == b[|b| - 1];
      ParseEndpointsAppend(a, b');
    } else {
      assert a + b == a;
    }
  }

  /** A malformed entry anywhere in the list is skipped without affecting the others. */
  lemma MalformedEntrySkipped(a: seq<string>, bad: string, b: seq<string>)
    requires ParseEndpoint(bad).None?
    ensures ParseEndpoints(a + [bad] + b) == ParseEndpoints(a) + ParseEndpoints(b)
  {
    ParseEndpointsAppend(a + [bad], b);
    ParseEndpointsAppend(a, [bad]);
    assert [bad][..0] == [];
  }

  /** The textual form of an endpoint. */
  function FormatEndpoint(ep: Endpoint): string
  {
    Text.Join([ep.remoteIp, Text.ShowInt(ep.remotePort), Text.ShowInt(ep.localPort), Text.ShowInt(ep.bandwidth)], ':')
  }

  /** An address that can be written into ``remIP`` without breaking the format. */
  predicate PlainAddress(ep: Endpoint)
  {
    ':' !in ep.remoteIp && ',' !in ep.remoteIp
  }

  lemma ParseFormatEndpoint(ep: Endpoint)
    requires PlainAddress(ep)
    ensures ParseEndpoint(FormatEndpoint(ep)) == Some(ep)
    ensures ',' !in FormatEndpoint(ep)
  {
    var parts := [ep.remoteIp, Text.ShowInt(ep.remotePort), Text.ShowInt(ep.localPort), Text.ShowInt(ep.bandwidth)];
    assert ',' !in FormatEndpoint(ep) by {
      Text.ShowIntHasNoPunctuation(ep.remotePort, ',');
      Text.ShowIntHasNoPunctuation(ep.localPort, ',');
      Text.ShowIntHasNoPunctuation(ep.bandwidth, ',');
      assert ',' !in parts[0] && ',' !in parts[1] && ',' !in parts[2] && ',' !in parts[3];
      JoinAvoids(parts, ':', ',');
    }
    assert Text.Split(FormatEndpoint(ep), ':') == parts by {
      Text.ShowIntHasNoPunctuation(ep.remotePort, ':');
      Text.ShowIntHasNoPunctuation(ep.localPort, ':');
      Text.ShowIntHasNoPunctuation(ep.bandwidth, ':');
      Text.SplitJoin(parts, ':');
    }
    Text.ParseShowInt(ep.remotePort);
    Text.ParseShowInt(ep.localPort);
    Text.ParseShowInt(ep.bandwidth);
  }

  lemma {:induction false} JoinAvoids(parts: seq<string>, sep: char, c: char)
    requires |parts| >= 1 && sep != c
    requires forall i :: 0 <= i < |parts| ==> c !in parts[i]
    ensures c !in Text.Join(parts, sep)
    decreases |parts|
  {
    if |parts| > 1 {
      JoinAvoids(parts[1..], sep, c);
    }
  }

  /** The entries of a ``gcs_address`` written out from endpoints, in order. */
  function FormatEntries(eps: seq<Endpoint>): (r: seq<string>)
    ensures |r| == |eps|
    ensures forall i :: 0 <= i < |eps| ==> r[i] == FormatEndpoint(eps[i])
    decreases |eps|
  {
    if eps == [] then [] else FormatEntries(eps[..|eps| - 1]) + [FormatEndpoint(eps[|eps| - 1])]
  }

  /** A ``gcs_address`` value naming the given endpoints. */
  function FormatGcsAddress(eps: seq<Endpoint>): string
    requires |eps| >= 1
  {
    Text.Join(FormatEntries(eps), ',')
  }

  lemma ParseFormattedEntries(eps: seq<Endpoint>)
    requires forall i :: 0 <= i < |eps| ==> PlainAddress(eps[i])
    ensures ParseEndpoints(FormatEntries(eps)) == eps
  {
    var entries := FormatEntries(eps);
    forall i | 0 <= i < |eps| ensures ParseEndpoint(entries[i]) == Some(eps[i]) {
      ParseFormatEndpoint(eps[i]);
    }
    AllEntriesParse(entries, eps);
  }

  /** Entries that each parse give exactly their endpoints, in order. */
  lemma {:induction false} AllEntriesParse(entries: seq<string>, eps: seq<Endpoint>)
    requires |entries| == |eps|
    requires forall i :: 0 <= i < |entries| ==> ParseEndpoint(entries[i]) == Some(eps[i])
    ensures ParseEndpoints(entries) == eps
    decreases |entries|
  {
    if entries != [] {
      var n := |entries|;
      var init, initEps := entries[..n - 1], eps[..n - 1];
      forall i | 0 <= i < n - 1 ensures ParseEndpoint(init[i]) == Some(initEps[i]) {
        assert init[i] == entries[i] && initEps[i] == eps[i];
      }
      AllEntriesParse(init, initEps);
      assert ParseEndpoint(entries[n - 1]) == Some(eps[n - 1]);
      assert initEps + [eps[n - 1]] == eps;
    }
  }

  /** A ``gcs_address`` written out from endpoints parses back to those endpoints. */
  lemma ParseFormatGcsAddress(eps: seq<Endpoint>)
    requires |eps| >= 1
    requires forall i :: 0 <= i < |eps| ==> PlainAddress(eps[i])
    ensures ParseGcsAddress(FormatGcsAddress(eps)) == eps
  {
    var entries := FormatEntries(eps);
    forall i | 0 <= i < |entries| ensures ',' !in entries[i] {
      ParseFormatEndpoint(eps[i]);
    }
    Text.SplitJoin(entries, ',');
    ParseFormattedEntries(eps);
  }
}
