/**
 The delayed delivery pipe of cmd/test-streammanager/deliverypipe.go: two lanes, for data and for
 acknowledgements, whose packets are delivered after a delay that differs by up to a skew either way.
 */
module DeliveryPipeModel {
  import opened Wrappers

  /** `at` is when the packet was enqueued, `time` when it is due; `text` is its base64 data or its ack. */
  datatype Packet = Packet(seqNo: nat, at: int, time: int, text: string)

  /** `delivered` went to the target, `skipped` came when there was none. */
  datatype Lane = Lane(
    lastSeq: nat, enqueued: seq<Packet>,
    pending: seq<Packet>, inFlight: seq<Packet>, delivered: seq<Packet>, skipped: seq<Packet>,
    hasTarget: bool)

  /** `accounting` is the data packet whose delivery is done but whose bytes are not yet subtracted. */
  datatype Pipe = Pipe(
    delay: int, skew: nat, clock: int, closed: bool,
    data: Lane, ack: Lane, accounting: Option<Packet>, currentBytes: int)

  function EmptyLane(): Lane {
    Lane(0, [], [], [], [], [], false)
  }

  function Initial(delay: int, skew: nat, clock: int): Pipe {
    Pipe(delay, skew, clock, false, EmptyLane(), EmptyLane(), None, 0)
  }

  predicate Before(p: Packet, q: Packet) {
    p.time < q.time || (p.time == q.time && p.seqNo < q.seqNo)
  }

  ghost predicate Sorted(packets: seq<Packet>) {
    forall i, j | 0 <= i < j < |packets| :: Before(packets[i], packets[j])
  }

  function Insert(packets: seq<Packet>, p: Packet): seq<Packet> {
    if packets == [] || Before(p, packets[0]) then [p] + packets else [packets[0]] + Insert(packets[1..], p)
  }

  /** Base64 with padding: three bytes for every four characters. */
  function DecodedLen(text: string): nat {
    |text| / 4 * 3
  }

  function Bytes(packets: seq<Packet>): nat {
    if packets == [] then 0 else DecodedLen(packets[0].text) + Bytes(packets[1..])
  }

  // ---- One lane ----

  /** `shift` is the random part of the delay; without a skew there is none. */
  function DueTime(pipe: Pipe, shift: int): int {
    pipe.clock + pipe.delay + (if pipe.skew == 0 then 0 else shift)
  }

  function Accept(lane: Lane, at: int, time: int, text: string): Lane {
    var p := Packet(lane.lastSeq + 1, at, time, text);
    lane.(lastSeq := lane.lastSeq + 1, enqueued := lane.enqueued + [p], pending := Insert(lane.pending, p))
  }

  function ReadyCount(packets: seq<Packet>, now: int): (n: nat)
    ensures n <= |packets|
  {
    if packets == [] || packets[0].time > now then 0 else 1 + ReadyCount(packets[1..], now)
  }

  function Take(lane: Lane, now: int): Lane {
    var n := ReadyCount(lane.pending, now);
    lane.(inFlight := lane.pending[..n], pending := lane.pending[n..])
  }

  function Deliver(lane: Lane): Lane
    requires lane.inFlight != []
  {
    var p := lane.inFlight[0];
    if lane.hasTarget then lane.(inFlight := lane.inFlight[1..], delivered := lane.delivered + [p])
    else lane.(inFlight := lane.inFlight[1..], skipped := lane.skipped + [p])
  }

  // ---- The pipe ----

  /** `now` may be any later reading of the monotone clock; `shift` is within the skew. */
  datatype Event =
    | Waited(elapsed: nat)
    | DataEnqueued(text: string, shift: int)
    | AckEnqueued(text: string, shift: int)
    | DataTaken
    | AckTaken
    | DataDelivered
    | BytesAccounted
    | AckDelivered
    | DataTargetSet
    | AckTargetSet
    | Closed

  predicate CanHappen(pipe: Pipe, e: Event) {
    match e
    case DataEnqueued(_, shift) => 0 - pipe.skew <= shift <= pipe.skew
    case AckEnqueued(_, shift) => 0 - pipe.skew <= shift <= pipe.skew
    case DataTaken => !pipe.closed && pipe.data.inFlight == [] && pipe.accounting.None?
    case AckTaken => !pipe.closed && pipe.ack.inFlight == []
    case DataDelivered => pipe.data.inFlight != [] && pipe.accounting.None?
    case BytesAccounted => pipe.accounting.Some?
    case AckDelivered => pipe.ack.inFlight != []
    case _ => true
  }

  function Apply(pipe: Pipe, e: Event): Pipe
    requires CanHappen(pipe, e)
  {
    match e
    case Waited(elapsed) => pipe.(clock := pipe.clock + elapsed)
    case DataEnqueued(text, shift) =>
      if pipe.closed then pipe else
        pipe.(data := Accept(pipe.data, pipe.clock, DueTime(pipe, shift), text),
              currentBytes := pipe.currentBytes + DecodedLen(text))
    case AckEnqueued(text, shift) =>
      if pipe.closed then pipe else pipe.(ack := Accept(pipe.ack, pipe.clock, DueTime(pipe, shift), text))
    case DataTaken => pipe.(data := Take(pipe.data, pipe.clock))
    case AckTaken => pipe.(ack := Take(pipe.ack, pipe.clock))
    case DataDelivered =>
      pipe.(data := Deliver(pipe.data),
            accounting := if pipe.data.hasTarget then Some(pipe.data.inFlight[0]) else None)
    case BytesAccounted =>
      pipe.(currentBytes := pipe.currentBytes - DecodedLen(pipe.accounting.value.text), accounting := None)
    case AckDelivered => pipe.(ack := Deliver(pipe.ack))
    case DataTargetSet => pipe.(data := pipe.data.(hasTarget := true))
    case AckTargetSet => pipe.(ack := pipe.ack.(hasTarget := true))
    case Closed => pipe.(closed := true)
  }

  ghost predicate IsRun(pipe: Pipe, events: seq<Event>)
    decreases |events|
  {
    events == [] || (CanHappen(pipe, events[0]) && IsRun(Apply(pipe, events[0]), events[1..]))
  }

  ghost function Run(pipe: Pipe, events: seq<Event>): Pipe
    requires IsRun(pipe, events)
    decreases |events|
  {
    if events == [] then pipe else Run(Apply(pipe, events[0]), events[1..])
  }

  // ---- Insertion keeps the queue sorted ----

  lemma {:induction false} InsertMultiset(packets: seq<Packet>, p: Packet)
    ensures multiset(Insert(packets, p)) == multiset(packets) + multiset{p}
    ensures Bytes(Insert(packets, p)) == Bytes(packets) + DecodedLen(p.text)
  {
    if packets == [] || Before(p, packets[0]) {
      assert ([p] + packets)[1..] == packets;
    } else {
      InsertMultiset(packets[1..], p);
      assert packets == [packets[0]] + packets[1..];
      assert ([packets[0]] + Insert(packets[1..], p))[1..] == Insert(packets[1..], p);
    }
  }

  lemma PrependSorted(head: Packet, tail: seq<Packet>)
    requires Sorted(tail) && forall j | 0 <= j < |tail| :: Before(head, tail[j])
    ensures Sorted([head] + tail)
  {
    hide Before;
  }

  /** The head of a sorted queue stays before everybody, also before a packet that is put in behind it. */
  lemma HeadIsBefore(packets: seq<Packet>, p: Packet, tail: seq<Packet>)
    requires packets != [] && Sorted(packets) && Before(packets[0], p)
    requires multiset(tail) == multiset(packets[1..]) + multiset{p}
    ensures forall j | 0 <= j < |tail| :: Before(packets[0], tail[j])
  {
    hide Before;
    forall j | 0 <= j < |tail|
      ensures Before(packets[0], tail[j])
    {
      assert tail[j] in multiset(tail);
      assert tail[j] in multiset(packets[1..]) || tail[j] == p;
    }
  }

  lemma FirstIsBefore(packets: seq<Packet>, p: Packet)
    requires packets != [] && Sorted(packets) && Before(p, packets[0])
    ensures forall j | 0 <= j < |packets| :: Before(p, packets[j])
  {
  }

  lemma {:induction false} InsertSorted(packets: seq<Packet>, p: Packet)
    requires Sorted(packets) && forall q | q in packets :: q.seqNo != p.seqNo
    ensures Sorted(Insert(packets, p))
  {
    if packets == [] {
    } else if Before(p, packets[0]) {
      FirstIsBefore(packets, p);
      hide Sorted, Before;
      PrependSorted(p, packets);
    } else {
      InsertSorted(packets[1..], p);
      InsertMultiset(packets[1..], p);
      assert Before(packets[0], p);
      hide Sorted, Before;
      HeadIsBefore(packets, p, Insert(packets[1..], p));
      PrependSorted(packets[0], Insert(packets[1..], p));
    }
  }

  lemma SameHead(first: seq<Packet>, second: seq<Packet>)
    requires Sorted(first) && Sorted(second) && multiset(first) == multiset(second) && first != []
    ensures second != [] && first[0] == second[0]
  {
    assert first[0] in multiset(second);
    assert forall i | 0 < i < |first| :: Before(first[0], first[i]);
    assert forall j | 0 < j < |second| :: Before(second[0], second[j]);
    var j :| 0 <= j < |second| && second[j] == first[0];
    assert second[0] in multiset(first);
    var i :| 0 <= i < |first| && first[i] == second[0];
  }

  lemma TailOf(packets: seq<Packet>)
    requires packets != []
    ensures multiset(packets[1..]) == multiset(packets) - multiset{packets[0]}
  {
    assert packets == [packets[0]] + packets[1..];
  }

  /** Only one order of distinct packets is sorted, so any correct sort puts a new packet where `Insert` does. */
  lemma {:induction false} SortedIsUnique(first: seq<Packet>, second: seq<Packet>)
    requires Sorted(first) && Sorted(second) && multiset(first) == multiset(second)
    ensures first == second
  {
    if first == [] {
      if second != [] {
        SameHead(second, first);
      }
    } else {
      SameHead(first, second);
      TailOf(first);
      TailOf(second);
      hide Before;
      SortedIsUnique(first[1..], second[1..]);
      assert first == [first[0]] + first[1..] && second == [second[0]] + second[1..];
    }
  }

  lemma {:induction false} ReadyCountExact(packets: seq<Packet>, now: int)
    requires Sorted(packets)
    ensures forall i | 0 <= i < |packets| :: packets[i].time <= now <==> i < ReadyCount(packets, now)
  {
    if packets != [] {
      ReadyCountExact(packets[1..], now);
      forall i | 0 < i < |packets|
        ensures packets[i].time <= now <==> i < ReadyCount(packets, now)
      {
        assert packets[i] == packets[1..][i - 1];
        assert Before(packets[0], packets[i]);
      }
    }
  }

  lemma {:induction false} BytesAppend(first: seq<Packet>, second: seq<Packet>)
    ensures Bytes(first + second) == Bytes(first) + Bytes(second)
  {
    if first == [] {
      assert first + second == second;
    } else {
      assert (first + second)[1..] == first[1..] + second;
      BytesAppend(first[1..], second);
    }
  }

  // ---- Invariant of a lane ----

  /** All packets of a lane in the order in which they left, or will leave, its queue. */
  function Line(lane: Lane): seq<Packet> {
    lane.skipped + lane.delivered + lane.inFlight + lane.pending
  }

  /** A packet behind a later one is due later, too. */
  ghost predicate Overtaking(line: seq<Packet>) {
    forall i, j | 0 <= i < j < |line| && line[j].seqNo < line[i].seqNo :: Before(line[i], line[j])
  }

  ghost predicate EnqueuedOk(enqueued: seq<Packet>, delay: int, skew: nat, clock: int) {
    && (forall i | 0 <= i < |enqueued| ::
          var p := enqueued[i];
          p.seqNo == i + 1 && p.at <= clock && p.at + delay - skew <= p.time <= p.at + delay + skew)
    && (forall i, j | 0 <= i < j < |enqueued| :: enqueued[i].at <= enqueued[j].at)
  }

  ghost predicate Permutes(first: seq<Packet>, second: seq<Packet>) {
    multiset(first) == multiset(second)
  }

  ghost predicate AllDue(packets: seq<Packet>, clock: int) {
    forall p | p in packets :: p.time <= clock
  }

  ghost predicate LaneOk(lane: Lane, delay: int, skew: nat, clock: int) {
    && |lane.enqueued| == lane.lastSeq
    && EnqueuedOk(lane.enqueued, delay, skew, clock)
    && Permutes(Line(lane), lane.enqueued)
    && Sorted(lane.pending)
    && Overtaking(Line(lane))
    && (!lane.hasTarget ==> lane.delivered == [])
    && AllDue(lane.skipped + lane.delivered + lane.inFlight, clock)
  }

  function Unaccounted(pipe: Pipe): nat {
    Bytes(pipe.data.pending) + Bytes(pipe.data.inFlight) + Bytes(pipe.data.skipped)
    + (if pipe.accounting.Some? then DecodedLen(pipe.accounting.value.text) else 0)
  }

  ghost predicate Inv(pipe: Pipe) {
    && LaneOk(pipe.data, pipe.delay, pipe.skew, pipe.clock)
    && LaneOk(pipe.ack, pipe.delay, pipe.skew, pipe.clock)
    && pipe.currentBytes == Unaccounted(pipe)
  }

  lemma LineMember(line: seq<Packet>, enqueued: seq<Packet>, delay: int, skew: nat, clock: int, p: Packet)
    requires EnqueuedOk(enqueued, delay, skew, clock) && Permutes(line, enqueued) && p in line
    ensures 1 <= p.seqNo <= |enqueued| && enqueued[p.seqNo - 1] == p
  {
    assert p in multiset(enqueued);
    var i :| 0 <= i < |enqueued| && enqueued[i] == p;
  }

  lemma AcceptKeeps(lane: Lane, delay: int, skew: nat, clock: int, time: int, text: string)
    requires LaneOk(lane, delay, skew, clock)
    requires clock + delay - skew <= time <= clock + delay + skew
    ensures LaneOk(Accept(lane, clock, time, text), delay, skew, clock)
    ensures Bytes(Accept(lane, clock, time, text).pending) == Bytes(lane.pending) + DecodedLen(text)
  {
    var p := Packet(lane.lastSeq + 1, clock, time, text);
    var after := Accept(lane, clock, time, text);
    var gone := lane.skipped + lane.delivered + lane.inFlight;
    assert Line(lane) == gone + lane.pending && Line(after) == gone + after.pending;
    forall q | q in Line(lane)
      ensures q.seqNo < p.seqNo
    {
      LineMember(Line(lane), lane.enqueued, delay, skew, clock, q);
    }
    hide Overtaking, EnqueuedOk, Line;
    forall q | q in lane.pending
      ensures q.seqNo < p.seqNo
    {
      assert q in gone + lane.pending;
    }
    InsertSorted(lane.pending, p);
    InsertMultiset(lane.pending, p);
    InsertOvertaking(gone, lane.pending, p);
    EnqueuedGrows(lane.enqueued, delay, skew, clock, p);
    InsertPermutes(gone, lane.pending, lane.enqueued, p);
  }

  lemma EnqueuedGrows(enqueued: seq<Packet>, delay: int, skew: nat, clock: int, p: Packet)
    requires EnqueuedOk(enqueued, delay, skew, clock) && p.seqNo == |enqueued| + 1 && p.at == clock
    requires clock + delay - skew <= p.time <= clock + delay + skew
    ensures EnqueuedOk(enqueued + [p], delay, skew, clock)
  {
  }

  lemma InsertPermutes(gone: seq<Packet>, pending: seq<Packet>, enqueued: seq<Packet>, p: Packet)
    requires Permutes(gone + pending, enqueued)
    requires multiset(Insert(pending, p)) == multiset(pending) + multiset{p}
    ensures Permutes(gone + Insert(pending, p), enqueued + [p])
  {
  }

  lemma InsertOvertaking(gone: seq<Packet>, pending: seq<Packet>, p: Packet)
    requires Overtaking(gone + pending) && Sorted(pending)
    requires forall q | q in gone + pending :: q.seqNo < p.seqNo
    requires Sorted(Insert(pending, p)) && multiset(Insert(pending, p)) == multiset(pending) + multiset{p}
    ensures Overtaking(gone + Insert(pending, p))
  {
    var line := gone + pending;
    var after := gone + Insert(pending, p);
    forall i, j | 0 <= i < j < |after| && after[j].seqNo < after[i].seqNo
      ensures Before(after[i], after[j])
    {
      if j < |gone| {
        assert line[i] == after[i] && line[j] == after[j];
      } else if i < |gone| {
        assert after[j] in multiset(Insert(pending, p));
        assert after[i] == line[i] && line[i] in line;
        var k :| 0 <= k < |pending| && pending[k] == after[j];
        assert line[|gone| + k] == pending[k];
      } else {
        assert Before(Insert(pending, p)[i - |gone|], Insert(pending, p)[j - |gone|]);
      }
    }
  }

  lemma TakeKeeps(lane: Lane, delay: int, skew: nat, clock: int)
    requires LaneOk(lane, delay, skew, clock) && lane.inFlight == []
    ensures LaneOk(Take(lane, clock), delay, skew, clock)
    ensures Bytes(Take(lane, clock).pending) + Bytes(Take(lane, clock).inFlight) ==
              Bytes(lane.pending) + Bytes(lane.inFlight)
  {
    hide Overtaking, EnqueuedOk, Permutes;
    var n := ReadyCount(lane.pending, clock);
    ReadyCountExact(lane.pending, clock);
    assert lane.pending == lane.pending[..n] + lane.pending[n..];
    BytesAppend(lane.pending[..n], lane.pending[n..]);
    assert Line(Take(lane, clock)) == Line(lane);
  }

  lemma DeliverKeeps(lane: Lane, delay: int, skew: nat, clock: int)
    requires LaneOk(lane, delay, skew, clock) && lane.inFlight != []
    ensures LaneOk(Deliver(lane), delay, skew, clock)
    ensures Bytes(Deliver(lane).inFlight) + DecodedLen(lane.inFlight[0].text) == Bytes(lane.inFlight)
    ensures !lane.hasTarget ==> Bytes(Deliver(lane).skipped) == Bytes(lane.skipped) + DecodedLen(lane.inFlight[0].text)
  {
    hide Overtaking, EnqueuedOk, Permutes, Sorted;
    assert lane.inFlight == [lane.inFlight[0]] + lane.inFlight[1..];
    assert Line(Deliver(lane)) == Line(lane);
    BytesAppend(lane.skipped, [lane.inFlight[0]]);
  }

  lemma TargetKeeps(lane: Lane, delay: int, skew: nat, clock: int)
    requires LaneOk(lane, delay, skew, clock)
    ensures LaneOk(lane.(hasTarget := true), delay, skew, clock)
  {
    hide Overtaking, Permutes, Sorted, EnqueuedOk;
  }

  lemma WaitKeeps(lane: Lane, delay: int, skew: nat, clock: int, elapsed: nat)
    requires LaneOk(lane, delay, skew, clock)
    ensures LaneOk(lane, delay, skew, clock + elapsed)
  {
    hide Overtaking, Permutes, Sorted, Line;
  }

  lemma EventKeeps(pipe: Pipe, e: Event)
    requires Inv(pipe) && CanHappen(pipe, e)
    ensures Inv(Apply(pipe, e))
    ensures Apply(pipe, e).delay == pipe.delay && Apply(pipe, e).skew == pipe.skew
  {
    hide LaneOk, ReadyCount, Insert, Bytes, DecodedLen;
    var delay, skew, clock := pipe.delay, pipe.skew, pipe.clock;
    match e {
      case Waited(elapsed) =>
        WaitKeeps(pipe.data, delay, skew, clock, elapsed);
        WaitKeeps(pipe.ack, delay, skew, clock, elapsed);
      case DataEnqueued(text, shift) => AcceptKeeps(pipe.data, delay, skew, clock, DueTime(pipe, shift), text);
      case AckEnqueued(text, shift) => AcceptKeeps(pipe.ack, delay, skew, clock, DueTime(pipe, shift), text);
      case DataTaken => TakeKeeps(pipe.data, delay, skew, clock);
      case AckTaken => TakeKeeps(pipe.ack, delay, skew, clock);
      case DataDelivered => DeliverKeeps(pipe.data, delay, skew, clock);
      case AckDelivered => DeliverKeeps(pipe.ack, delay, skew, clock);
      case DataTargetSet => TargetKeeps(pipe.data, delay, skew, clock);
      case AckTargetSet => TargetKeeps(pipe.ack, delay, skew, clock);
      case _ =>
    }
  }

  lemma {:induction false} RunKeeps(pipe: Pipe, events: seq<Event>)
    requires Inv(pipe) && IsRun(pipe, events)
    ensures Inv(Run(pipe, events))
    ensures Run(pipe, events).delay == pipe.delay && Run(pipe, events).skew == pipe.skew
    decreases |events|
  {
    if events != [] {
      hide Inv, Apply, CanHappen;
      EventKeeps(pipe, events[0]);
      RunKeeps(Apply(pipe, events[0]), events[1..]);
    }
  }

  // ---- What every run guarantees ----

  lemma InitialOk(delay: int, skew: nat, clock: int)
    ensures Inv(Initial(delay, skew, clock))
  {
  }

  lemma ReachedOk(pipe: Pipe, delay: int, skew: nat, clock: int, events: seq<Event>)
    requires Reached(pipe, delay, skew, clock, events)
    ensures Inv(pipe) && pipe.delay == delay && pipe.skew == skew
  {
    InitialOk(delay, skew, clock);
    hide Inv;
    RunKeeps(Initial(delay, skew, clock), events);
  }

  ghost predicate Reached(pipe: Pipe, delay: int, skew: nat, clock: int, events: seq<Event>) {
    IsRun(Initial(delay, skew, clock), events) && pipe == Run(Initial(delay, skew, clock), events)
  }

  /** Nothing is lost or made up, the queues stay sorted, nothing leaves early, and the byte count is exact. */
  lemma PipeConserves(delay: int, skew: nat, clock: int, events: seq<Event>, pipe: Pipe, lane: Lane)
    requires Reached(pipe, delay, skew, clock, events) && (lane == pipe.data || lane == pipe.ack)
    ensures multiset(lane.enqueued) ==
              multiset(lane.delivered) + multiset(lane.skipped) + multiset(lane.inFlight) + multiset(lane.pending)
    ensures Sorted(lane.pending)
    ensures forall p | p in lane.delivered :: p.time <= pipe.clock
    ensures pipe.currentBytes == Unaccounted(pipe)
  {
    ReachedOk(pipe, delay, skew, clock, events);
    hide Reached;
    hide Overtaking, EnqueuedOk, LaneOk, Run, IsRun;
    LaneParts(lane, delay, skew, pipe.clock);
  }

  lemma LaneParts(lane: Lane, delay: int, skew: nat, clock: int)
    requires LaneOk(lane, delay, skew, clock)
    ensures multiset(lane.enqueued) ==
              multiset(lane.delivered) + multiset(lane.skipped) + multiset(lane.inFlight) + multiset(lane.pending)
    ensures Sorted(lane.pending)
    ensures forall p | p in lane.delivered :: p.time <= clock
  {
    hide Overtaking, EnqueuedOk, Sorted;
  }

  /** Two packets of a lane enqueued at least twice the skew apart are delivered in that order. */
  lemma NeverFarOutOfOrder(delay: int, skew: nat, clock: int, events: seq<Event>,
                           pipe: Pipe, lane: Lane, i: nat, j: nat)
    requires Reached(pipe, delay, skew, clock, events) && (lane == pipe.data || lane == pipe.ack)
    requires i < j < |lane.delivered|
    ensures lane.delivered[j].seqNo < lane.delivered[i].seqNo ==> lane.delivered[i].at - lane.delivered[j].at < 2 * skew
  {
    LaneReached(delay, skew, clock, events, pipe, lane);
    hide Reached, LaneOk;
    DeliveredFarInOrder(lane, delay, skew, pipe.clock, i, j);
  }

  lemma LaneReached(delay: int, skew: nat, clock: int, events: seq<Event>, pipe: Pipe, lane: Lane)
    requires Reached(pipe, delay, skew, clock, events) && (lane == pipe.data || lane == pipe.ack)
    ensures LaneOk(lane, delay, skew, pipe.clock)
  {
    ReachedOk(pipe, delay, skew, clock, events);
    hide Reached, LaneOk;
  }

  lemma DeliveredInLine(lane: Lane, i: nat)
    requires i < |lane.delivered|
    ensures |lane.skipped| + |lane.delivered| <= |Line(lane)|
    ensures Line(lane)[|lane.skipped| + i] == lane.delivered[i]
  {
  }

  lemma DeliveredFarInOrder(lane: Lane, delay: int, skew: nat, clock: int, i: nat, j: nat)
    requires LaneOk(lane, delay, skew, clock) && i < j < |lane.delivered|
    ensures lane.delivered[j].seqNo < lane.delivered[i].seqNo ==> lane.delivered[i].at - lane.delivered[j].at < 2 * skew
  {
    hide LaneOk, Line;
    DeliveredInLine(lane, i);
    DeliveredInLine(lane, j);
    FarInOrder(lane, delay, skew, clock, |lane.skipped| + i, |lane.skipped| + j);
  }

  lemma FarInOrder(lane: Lane, delay: int, skew: nat, clock: int, i: nat, j: nat)
    requires LaneOk(lane, delay, skew, clock) && i < j < |Line(lane)|
    ensures var line := Line(lane);
            line[j].seqNo < line[i].seqNo ==> line[i].at - line[j].at < 2 * skew
  {
    hide Sorted, AllDue;
    var p, q := Line(lane)[i], Line(lane)[j];
    LineMember(Line(lane), lane.enqueued, delay, skew, clock, p);
    LineMember(Line(lane), lane.enqueued, delay, skew, clock, q);
  }

  /** So a pipe without skew is first in, first out. */
  lemma WithoutSkewInOrder(delay: int, clock: int, events: seq<Event>, pipe: Pipe, lane: Lane, i: nat, j: nat)
    requires Reached(pipe, delay, 0, clock, events) && (lane == pipe.data || lane == pipe.ack)
    requires i < j < |lane.delivered|
    ensures lane.delivered[i].seqNo < lane.delivered[j].seqNo
  {
    LaneReached(delay, 0, clock, events, pipe, lane);
    hide Reached, LaneOk;
    DeliveredInOrder(lane, delay, pipe.clock, i, j);
  }

  lemma DeliveredInOrder(lane: Lane, delay: int, clock: int, i: nat, j: nat)
    requires LaneOk(lane, delay, 0, clock) && i < j < |lane.delivered|
    ensures lane.delivered[i].seqNo < lane.delivered[j].seqNo
  {
    hide LaneOk, Line;
    DeliveredInLine(lane, i);
    DeliveredInLine(lane, j);
    FarInOrder(lane, delay, 0, clock, |lane.skipped| + i, |lane.skipped| + j);
    InOrderByTime(lane, delay, 0, clock, |lane.skipped| + i, |lane.skipped| + j);
  }

  /** A packet that leaves before an earlier one was enqueued after it, strictly later unless it is the same. */
  lemma InOrderByTime(lane: Lane, delay: int, skew: nat, clock: int, i: nat, j: nat)
    requires LaneOk(lane, delay, skew, clock) && i < j < |Line(lane)|
    ensures var line := Line(lane);
            line[j].seqNo <= line[i].seqNo ==> line[j].seqNo < line[i].seqNo && line[j].at <= line[i].at
  {
    hide Sorted, AllDue, Overtaking;
    var p, q := Line(lane)[i], Line(lane)[j];
    LineMember(Line(lane), lane.enqueued, delay, skew, clock, p);
    LineMember(Line(lane), lane.enqueued, delay, skew, clock, q);
    if p.seqNo == q.seqNo {
      TwiceInLine(Line(lane), i, j);
      EnqueuedOnce(lane.enqueued, delay, skew, clock, p);
    }
  }

  lemma TwiceInLine(line: seq<Packet>, i: nat, j: nat)
    requires i < j < |line| && line[i] == line[j]
    ensures multiset(line)[line[i]] >= 2
  {
    assert line == line[..j] + [line[j]] + line[j + 1..];
    assert line[i] in line[..j];
  }

  lemma EnqueuedOnce(enqueued: seq<Packet>, delay: int, skew: nat, clock: int, p: Packet)
    requires EnqueuedOk(enqueued, delay, skew, clock)
    ensures multiset(enqueued)[p] <= 1
  {
    if multiset(enqueued)[p] > 0 {
      var i :| 0 <= i < |enqueued| && enqueued[i] == p;
      assert enqueued == enqueued[..i] + [p] + enqueued[i + 1..];
      assert p !in enqueued[..i] && p !in enqueued[i + 1..];
    }
  }

  // ---- What one event does ----

  /** The lane has one packet more, numbered on, due within the skew around the delay, and queued in its place. */
  ghost predicate HasAccepted(before: Pipe, lane: Lane, after: Lane, text: string) {
    && after.inFlight == lane.inFlight && after.delivered == lane.delivered && after.skipped == lane.skipped
    && after.hasTarget == lane.hasTarget
    && |after.enqueued| == |lane.enqueued| + 1
    && var p := after.enqueued[|lane.enqueued|];
       && after.enqueued == lane.enqueued + [p]
       && p.seqNo == |lane.enqueued| + 1 && p.at == before.clock && p.text == text
       && before.clock + before.delay - before.skew <= p.time <= before.clock + before.delay + before.skew
       && Sorted(after.pending) && multiset(after.pending) == multiset(lane.pending) + multiset{p}
  }

  lemma AcceptedExactly(pipe: Pipe, lane: Lane, text: string, shift: int)
    requires LaneOk(lane, pipe.delay, pipe.skew, pipe.clock) && 0 - pipe.skew <= shift <= pipe.skew
    ensures HasAccepted(pipe, lane, Accept(lane, pipe.clock, DueTime(pipe, shift), text), text)
  {
    var time := DueTime(pipe, shift);
    AcceptKeeps(lane, pipe.delay, pipe.skew, pipe.clock, time, text);
    InsertMultiset(lane.pending, Packet(lane.lastSeq + 1, pipe.clock, time, text));
    NumbersFollow(lane, pipe.delay, pipe.skew, pipe.clock);
    LaneParts(Accept(lane, pipe.clock, time, text), pipe.delay, pipe.skew, pipe.clock);
    hide LaneOk, Sorted, Insert;
  }

  lemma NumbersFollow(lane: Lane, delay: int, skew: nat, clock: int)
    requires LaneOk(lane, delay, skew, clock)
    ensures lane.lastSeq == |lane.enqueued|
  {
    hide Overtaking, Permutes, Sorted, Line;
  }

  /** Enqueueing adds a packet to its own lane, and nothing to a closed pipe. */
  lemma EnqueuesExactly(pipe: Pipe, text: string, shift: int)
    requires Inv(pipe) && 0 - pipe.skew <= shift <= pipe.skew
    ensures var t := Apply(pipe, DataEnqueued(text, shift));
            if pipe.closed then t == pipe else
              && HasAccepted(pipe, pipe.data, t.data, text) && t.ack == pipe.ack
              && t.currentBytes == pipe.currentBytes + |text| / 4 * 3
    ensures var t := Apply(pipe, AckEnqueued(text, shift));
            if pipe.closed then t == pipe else
              HasAccepted(pipe, pipe.ack, t.ack, text) && t.data == pipe.data && t.currentBytes == pipe.currentBytes
  {
    AcceptedExactly(pipe, pipe.data, text, shift);
    AcceptedExactly(pipe, pipe.ack, text, shift);
    hide LaneOk, Accept, HasAccepted;
  }

  /** Taking divides the queue: what is due is on its way, in order, and the rest still waits. */
  ghost predicate HasTaken(lane: Lane, after: Lane, clock: int) {
    && after.inFlight + after.pending == lane.pending
    && (forall p | p in after.inFlight :: p.time <= clock) && (forall p | p in after.pending :: p.time > clock)
    && after == lane.(inFlight := after.inFlight, pending := after.pending)
  }

  lemma TakesExactly(pipe: Pipe)
    requires Inv(pipe)
    ensures CanHappen(pipe, DataTaken) ==>
              var t := Apply(pipe, DataTaken); HasTaken(pipe.data, t.data, pipe.clock) && t == pipe.(data := t.data)
    ensures CanHappen(pipe, AckTaken) ==>
              var t := Apply(pipe, AckTaken); HasTaken(pipe.ack, t.ack, pipe.clock) && t == pipe.(ack := t.ack)
  {
    hide LaneOk;
    LaneIsSorted(pipe.data, pipe.delay, pipe.skew, pipe.clock);
    LaneIsSorted(pipe.ack, pipe.delay, pipe.skew, pipe.clock);
    hide Inv, Take, Sorted, HasTaken;
    TakenParts(pipe.data, pipe.clock);
    TakenParts(pipe.ack, pipe.clock);
  }

  lemma LaneIsSorted(lane: Lane, delay: int, skew: nat, clock: int)
    requires LaneOk(lane, delay, skew, clock)
    ensures Sorted(lane.pending)
  {
    hide Sorted, Overtaking, EnqueuedOk, Permutes, AllDue;
  }

  lemma TakenParts(lane: Lane, clock: int)
    requires Sorted(lane.pending)
    ensures HasTaken(lane, Take(lane, clock), clock)
  {
    var n := ReadyCount(lane.pending, clock);
    ReadyCountExact(lane.pending, clock);
    hide ReadyCount, Sorted;
    assert lane.pending == lane.pending[..n] + lane.pending[n..];
  }

  lemma TakenIsDue(lane: Lane, after: Lane, clock: int)
    requires HasTaken(lane, after, clock)
    ensures IsDuePart(after.inFlight, lane.pending, clock) && after.pending == lane.pending[|after.inFlight|..]
  {
    assert lane.pending[|after.inFlight|..] == after.pending;
  }

  // ---- What is due is delivered ----

  /** Handing over what is on its way empties it, in order, and gives the bytes back. */
  lemma {:induction false} FlightArrives(pipe: Pipe) returns (events: seq<Event>)
    requires pipe.data.hasTarget && pipe.accounting.None?
    ensures IsRun(pipe, events)
    ensures Run(pipe, events) ==
              pipe.(data := pipe.data.(delivered := pipe.data.delivered + pipe.data.inFlight, inFlight := []),
                    currentBytes := pipe.currentBytes - Bytes(pipe.data.inFlight))
    decreases |pipe.data.inFlight|
  {
    if pipe.data.inFlight == [] {
      events := [];
    } else {
      var s1 := Apply(pipe, DataDelivered);
      var s2 := Apply(s1, BytesAccounted);
      assert s2.data.delivered + s2.data.inFlight == pipe.data.delivered + pipe.data.inFlight;
      events := FlightArrives(s2);
      RunStep(s1, BytesAccounted, events);
      RunStep(pipe, DataDelivered, [BytesAccounted] + events);
      events := [DataDelivered] + ([BytesAccounted] + events);
    }
  }

  lemma {:induction false} AckFlightArrives(pipe: Pipe) returns (events: seq<Event>)
    requires pipe.ack.hasTarget
    ensures IsRun(pipe, events)
    ensures Run(pipe, events) ==
              pipe.(ack := pipe.ack.(delivered := pipe.ack.delivered + pipe.ack.inFlight, inFlight := []))
    decreases |pipe.ack.inFlight|
  {
    if pipe.ack.inFlight == [] {
      events := [];
    } else {
      var s1 := Apply(pipe, AckDelivered);
      assert s1.ack.delivered + s1.ack.inFlight == pipe.ack.delivered + pipe.ack.inFlight;
      events := AckFlightArrives(s1);
      RunStep(pipe, AckDelivered, events);
      events := [AckDelivered] + events;
    }
  }

  /** The part of a sorted queue that is due by now, in order. */
  ghost predicate IsDuePart(due: seq<Packet>, pending: seq<Packet>, clock: int) {
    && due <= pending && (forall p | p in due :: p.time <= clock)
    && forall p | p in pending[|due|..] :: p.time > clock
  }

  /** An open, idle pipe with its targets set can deliver everything that is due, in both lanes, and nothing else. */
  lemma DueIsDelivered(pipe: Pipe) returns (events: seq<Event>, data: seq<Packet>, acks: seq<Packet>)
    requires Inv(pipe) && !pipe.closed && pipe.data.hasTarget && pipe.ack.hasTarget
    requires pipe.data.inFlight == [] && pipe.ack.inFlight == [] && pipe.accounting.None?
    ensures IsDuePart(data, pipe.data.pending, pipe.clock) && IsDuePart(acks, pipe.ack.pending, pipe.clock)
    ensures IsRun(pipe, events)
    ensures var t := Run(pipe, events);
            && t.data.delivered == pipe.data.delivered + data && t.data.pending == pipe.data.pending[|data|..]
            && t.ack.delivered == pipe.ack.delivered + acks && t.ack.pending == pipe.ack.pending[|acks|..]
            && t.currentBytes == pipe.currentBytes - Bytes(data)
  {
    TakesExactly(pipe);
    var s1 := Apply(pipe, DataTaken);
    var s2 := Apply(s1, AckTaken);
    assert s2 == pipe.(data := Take(pipe.data, pipe.clock), ack := Take(pipe.ack, pipe.clock));
    TakenIsDue(pipe.data, s2.data, pipe.clock);
    TakenIsDue(pipe.ack, s2.ack, pipe.clock);
    assert CanHappen(pipe, DataTaken) && CanHappen(s1, AckTaken);
    assert s2.data.hasTarget && s2.ack.hasTarget && s2.accounting.None?;
    hide Inv, Take, HasTaken, IsDuePart;
    data, acks := s2.data.inFlight, s2.ack.inFlight;
    var first := FlightArrives(s2);
    var s3 := Run(s2, first);
    var second := AckFlightArrives(s3);
    hide Apply, CanHappen, Run, IsRun, Bytes;
    RunAppend(s2, first, second);
    RunStep(s1, AckTaken, first + second);
    RunStep(pipe, DataTaken, [AckTaken] + (first + second));
    events := [DataTaken] + ([AckTaken] + (first + second));
  }

  // ---- The bound is tight ----

  lemma RunStep(pipe: Pipe, e: Event, events: seq<Event>)
    requires CanHappen(pipe, e) && IsRun(Apply(pipe, e), events)
    ensures IsRun(pipe, [e] + events) && Run(pipe, [e] + events) == Run(Apply(pipe, e), events)
  {
    assert ([e] + events)[1..] == events;
  }

  lemma {:induction false} RunAppend(pipe: Pipe, first: seq<Event>, second: seq<Event>)
    requires IsRun(pipe, first) && IsRun(Run(pipe, first), second)
    ensures IsRun(pipe, first + second) && Run(pipe, first + second) == Run(Run(pipe, first), second)
    decreases |first|
  {
    if first == [] {
      assert first + second == second;
    } else {
      assert (first + second)[1..] == first[1..] + second;
      RunAppend(Apply(pipe, first[0]), first[1..], second);
    }
  }

  predicate BothDue(pipe: Pipe, first: Packet, second: Packet) {
    && !pipe.closed && pipe.accounting.None? && pipe.data.hasTarget
    && pipe.data.inFlight == [] && pipe.data.delivered == []
    && pipe.data.pending == [second, first]
    && first.time <= pipe.clock && second.time <= pipe.clock
  }

  lemma EnqueueBoth(delay: int, skew: nat, clock: int, gap: nat) returns (events: seq<Event>)
    requires gap < 2 * skew
    ensures IsRun(Initial(delay, skew, clock), events)
    ensures BothDue(Run(Initial(delay, skew, clock), events), Packet(1, clock, clock + delay + skew, ""),
                    Packet(2, clock + gap, clock + gap + delay - skew, ""))
  {
    var patience := (if delay < 0 then 0 else delay) + skew;
    var s0 := Initial(delay, skew, clock);
    var s1 := Apply(s0, DataTargetSet);
    var s2 := Apply(s1, DataEnqueued("", skew));
    var s3 := Apply(s2, Waited(gap));
    var s4 := Apply(s3, DataEnqueued("", 0 - skew));
    RunStep(s4, Waited(patience), []);
    RunStep(s3, DataEnqueued("", 0 - skew), [Waited(patience)] + []);
    var last := [DataEnqueued("", 0 - skew)] + ([Waited(patience)] + []);
    RunStep(s2, Waited(gap), last);
    RunStep(s1, DataEnqueued("", skew), [Waited(gap)] + last);
    RunStep(s0, DataTargetSet, [DataEnqueued("", skew)] + ([Waited(gap)] + last));
    events := [DataTargetSet] + ([DataEnqueued("", skew)] + ([Waited(gap)] + last));
  }

  lemma DeliverBoth(pipe: Pipe, first: Packet, second: Packet) returns (events: seq<Event>)
    requires BothDue(pipe, first, second)
    ensures IsRun(pipe, events) && Run(pipe, events).data.delivered == [second, first]
  {
    BothReady(first, second, pipe.clock);
    var s1 := Apply(pipe, DataTaken);
    assert s1.data.inFlight == [second, first];
    var s2 := Apply(s1, DataDelivered);
    var s3 := Apply(s2, BytesAccounted);
    assert s3.data.inFlight == [first] && s3.data.delivered == [second];
    RunStep(s3, DataDelivered, []);
    RunStep(s2, BytesAccounted, [DataDelivered] + []);
    RunStep(s1, DataDelivered, [BytesAccounted] + ([DataDelivered] + []));
    events := [DataDelivered] + ([BytesAccounted] + ([DataDelivered] + []));
    RunStep(pipe, DataTaken, events);
    events := [DataTaken] + events;
  }

  /** The second of two packets enqueued less than twice the skew apart may be delivered first. */
  lemma CloserMayOvertake(delay: int, skew: nat, clock: int, gap: nat)
    requires gap < 2 * skew
    ensures exists events, pipe ::
              && Reached(pipe, delay, skew, clock, events)
              && |pipe.data.delivered| == 2
              && pipe.data.delivered[1].seqNo < pipe.data.delivered[0].seqNo
              && pipe.data.delivered[0].at - pipe.data.delivered[1].at == gap
  {
    var start := Initial(delay, skew, clock);
    var events := EnqueueBoth(delay, skew, clock, gap);
    var first := Packet(1, clock, clock + delay + skew, "");
    var second := Packet(2, clock + gap, clock + gap + delay - skew, "");
    var more := DeliverBoth(Run(start, events), first, second);
    RunAppend(start, events, more);
    hide Run, IsRun;
    assert Reached(Run(start, events + more), delay, skew, clock, events + more);
  }

  lemma BothReady(first: Packet, second: Packet, now: int)
    requires first.time <= now && second.time <= now
    ensures ReadyCount([second, first], now) == 2
  {
    assert [second, first][1..] == [first] && [first][1..] == [];
    assert ReadyCount([first], now) == 1;
  }
}

module DeliveryPipe {
  import opened Wrappers
  import opened DeliveryPipeModel
  import Model = DeliveryPipeModel

  lemma InsertAt(sorted: seq<Packet>, k: nat, p: Packet)
    requires Sorted(sorted) && k <= |sorted|
    requires k > 0 ==> Before(sorted[k - 1], p)
    requires forall j | k <= j < |sorted| :: Before(p, sorted[j])
    ensures Sorted(sorted[..k] + [p] + sorted[k..])
  {
    var after := sorted[..k] + [p] + sorted[k..];
    forall i, j | 0 <= i < j < |after|
      ensures Before(after[i], after[j])
    {
      if i < k - 1 {
        assert Before(sorted[i], sorted[k - 1]);
      }
    }
  }

  lemma InsertedMultiset(sorted: seq<Packet>, k: nat, p: Packet)
    requires k <= |sorted|
    ensures multiset(sorted[..k] + [p] + sorted[k..]) == multiset(sorted) + multiset{p}
  {
    assert sorted == sorted[..k] + sorted[k..];
  }

  /** Where the packet belongs: the search goes from the back. */
  method FindPlace(sorted: seq<Packet>, p: Packet) returns (k: nat)
    ensures k <= |sorted| && (k > 0 ==> !Before(p, sorted[k - 1]))
    ensures forall j | k <= j < |sorted| :: Before(p, sorted[j])
  {
    k := |sorted|;
    while k > 0 && Before(p, sorted[k - 1])
      invariant 0 <= k <= |sorted|
      invariant forall j | k <= j < |sorted| :: Before(p, sorted[j])
    {
      k := k - 1;
    }
  }

  /** The packet at `i` goes to its place among those before it. */
  lemma SortStep(pending: seq<Packet>, i: nat, sorted: seq<Packet>, k: nat)
    requires DistinctNumbers(pending) && i < |pending| && Sorted(sorted) && multiset(sorted) == multiset(pending[..i])
    requires k <= |sorted| && (k > 0 ==> !Before(pending[i], sorted[k - 1]))
    requires forall j | k <= j < |sorted| :: Before(pending[i], sorted[j])
    ensures var after := sorted[..k] + [pending[i]] + sorted[k..];
            Sorted(after) && multiset(after) == multiset(pending[..i + 1])
  {
    if k > 0 {
      OtherNumber(pending, i, sorted, k - 1);
    }
    hide DistinctNumbers, Sorted;
    InsertAt(sorted, k, pending[i]);
    InsertedMultiset(sorted, k, pending[i]);
    assert pending[..i + 1] == pending[..i] + [pending[i]];
  }

  lemma OtherNumber(pending: seq<Packet>, i: nat, sorted: seq<Packet>, k: nat)
    requires DistinctNumbers(pending) && i < |pending| && multiset(sorted) == multiset(pending[..i]) && k < |sorted|
    ensures sorted[k].seqNo != pending[i].seqNo
  {
    assert sorted[k] in multiset(sorted);
    assert sorted[k] in pending[..i];
  }

  ghost predicate DistinctNumbers(packets: seq<Packet>) {
    forall i, j | 0 <= i < j < |packets| :: packets[i].seqNo != packets[j].seqNo
  }

  /** Sorts by time due and then by sequence number; sequence numbers are distinct. */
  method SortPending(pending: seq<Packet>) returns (sorted: seq<Packet>)
    requires DistinctNumbers(pending)
    ensures Sorted(sorted) && multiset(sorted) == multiset(pending)
  {
    hide DistinctNumbers, Before;
    sorted := [];
    for i := 0 to |pending|
      invariant Sorted(sorted) && multiset(sorted) == multiset(pending[..i])
    {
      var k := FindPlace(sorted, pending[i]);
      SortStep(pending, i, sorted, k);
      sorted := sorted[..k] + [pending[i]] + sorted[k..];
    }
    assert pending[..|pending|] == pending;
  }

  lemma SortingInserts(lane: Lane, delay: int, skew: nat, clock: int, p: Packet, sorted: seq<Packet>)
    requires LaneOk(lane, delay, skew, clock) && p.seqNo == lane.lastSeq + 1
    requires Sorted(sorted) && multiset(sorted) == multiset(lane.pending + [p])
    ensures sorted == Insert(lane.pending, p)
  {
    QueueIsFresh(lane, delay, skew, clock, p);
    LaneParts(lane, delay, skew, clock);
    hide LaneOk, Sorted, Insert;
    InsertSorted(lane.pending, p);
    InsertMultiset(lane.pending, p);
    SortedIsUnique(sorted, Insert(lane.pending, p));
  }

  class DeliveryPipe {
    const delay: int
    const skew: nat
    var clock: int
    var closed: bool
    var data: Lane
    var ack: Lane
    var accounting: Option<Packet>
    var currentBytes: int

    function Snapshot(): Pipe
      reads this
    {
      Pipe(delay, skew, clock, closed, data, ack, accounting, currentBytes)
    }

    ghost predicate Valid()
      reads this
    {
      Inv(Snapshot())
    }

    constructor (delay: int, skew: nat, clock: int)
      ensures Valid() && Snapshot() == Initial(delay, skew, clock)
    {
      this.delay, this.skew, this.clock, closed := delay, skew, clock, false;
      data, ack, accounting, currentBytes := EmptyLane(), EmptyLane(), None, 0;
      new;
      InitialOk(delay, skew, clock);
    }

    method EnqueueData(text: string, shift: int)
      requires Valid() && CanHappen(Snapshot(), DataEnqueued(text, shift))
      modifies this
      ensures Valid() && Snapshot() == Apply(old(Snapshot()), DataEnqueued(text, shift))
    {
      hide LaneOk;
      EventKeeps(Snapshot(), DataEnqueued(text, shift));
      if closed {
        return;
      }
      data := Queued(data, text, shift);
      currentBytes := currentBytes + |text| / 4 * 3;
    }

    method EnqueueAck(text: string, shift: int)
      requires Valid() && CanHappen(Snapshot(), AckEnqueued(text, shift))
      modifies this
      ensures Valid() && Snapshot() == Apply(old(Snapshot()), AckEnqueued(text, shift))
    {
      hide LaneOk;
      EventKeeps(Snapshot(), AckEnqueued(text, shift));
      if closed {
        return;
      }
      ack := Queued(ack, text, shift);
    }

    /** Tags a packet, appends it and sorts. */
    method Queued(lane: Lane, text: string, shift: int) returns (after: Lane)
      requires LaneOk(lane, delay, skew, clock)
      ensures after == Accept(lane, clock, DueTime(Snapshot(), shift), text)
    {
      var due := clock + delay;
      if skew != 0 {
        due := due + shift;
      }
      var tagged := Packet(lane.lastSeq + 1, clock, due, text);
      QueueIsFresh(lane, delay, skew, clock, tagged);
      hide LaneOk, Sorted, Insert;
      var pending := SortPending(lane.pending + [tagged]);
      SortingInserts(lane, delay, skew, clock, tagged, pending);
      after := lane.(lastSeq := tagged.seqNo, enqueued := lane.enqueued + [tagged], pending := pending);
    }

    /** One turn of a delivery loop up to its unlock: the packets that are due leave the queue. */
    method TakeReady(lane: Lane) returns (after: Lane)
      requires LaneOk(lane, delay, skew, clock)
      ensures after == Take(lane, clock)
    {
      var readyCount := 0;
      while readyCount < |lane.pending| && lane.pending[readyCount].time <= clock
        invariant 0 <= readyCount <= |lane.pending|
        invariant readyCount + ReadyCount(lane.pending[readyCount..], clock) == ReadyCount(lane.pending, clock)
      {
        assert lane.pending[readyCount..][1..] == lane.pending[readyCount + 1..];
        readyCount := readyCount + 1;
      }
      after := lane.(inFlight := lane.pending[..readyCount], pending := lane.pending[readyCount..]);
    }

    method TakeReadyData()
      requires Valid() && CanHappen(Snapshot(), DataTaken)
      modifies this
      ensures Valid() && Snapshot() == Apply(old(Snapshot()), DataTaken)
    {
      hide LaneOk;
      EventKeeps(Snapshot(), DataTaken);
      data := TakeReady(data);
    }

    method TakeReadyAcks()
      requires Valid() && CanHappen(Snapshot(), AckTaken)
      modifies this
      ensures Valid() && Snapshot() == Apply(old(Snapshot()), AckTaken)
    {
      hide LaneOk;
      EventKeeps(Snapshot(), AckTaken);
      ack := TakeReady(ack);
    }

    /** The data lane's `deliver`, whose second half takes the lock again to give the bytes back. */
    method DeliverData()
      requires Valid() && CanHappen(Snapshot(), DataDelivered)
      modifies this
      ensures Valid() && Snapshot() == Apply(old(Snapshot()), DataDelivered)
    {
      hide LaneOk;
      EventKeeps(Snapshot(), DataDelivered);
      var p := data.inFlight[0];
      data := data.(inFlight := data.inFlight[1..]);
      if data.hasTarget {
        data := data.(delivered := data.delivered + [p]);
        accounting := Some(p);
      } else {
        data := data.(skipped := data.skipped + [p]);
      }
    }

    method AccountBytes()
      requires Valid() && CanHappen(Snapshot(), BytesAccounted)
      modifies this
      ensures Valid() && Snapshot() == Apply(old(Snapshot()), BytesAccounted)
    {
      hide LaneOk;
      EventKeeps(Snapshot(), BytesAccounted);
      currentBytes := currentBytes - |accounting.value.text| / 4 * 3;
      accounting := None;
    }

    method DeliverAck()
      requires Valid() && CanHappen(Snapshot(), AckDelivered)
      modifies this
      ensures Valid() && Snapshot() == Apply(old(Snapshot()), AckDelivered)
    {
      hide LaneOk;
      EventKeeps(Snapshot(), AckDelivered);
      var p := ack.inFlight[0];
      ack := ack.(inFlight := ack.inFlight[1..]);
      if ack.hasTarget {
        ack := ack.(delivered := ack.delivered + [p]);
      } else {
        ack := ack.(skipped := ack.skipped + [p]);
      }
    }

    method Close()
      requires Valid()
      modifies this
      ensures Valid() && Snapshot() == old(Snapshot()).(closed := true)
    {
      hide LaneOk;
      EventKeeps(Snapshot(), Closed);
      closed := true;
    }
  }

  lemma QueueIsFresh(lane: Lane, delay: int, skew: nat, clock: int, p: Packet)
    requires LaneOk(lane, delay, skew, clock) && p.seqNo == lane.lastSeq + 1
    ensures DistinctNumbers(lane.pending + [p])
    ensures forall q | q in lane.pending :: q.seqNo != p.seqNo
  {
    var line := Line(lane);
    var gone := |line| - |lane.pending|;
    forall q | q in lane.pending
      ensures q.seqNo <= lane.lastSeq
    {
      assert q in line;
      LineMember(line, lane.enqueued, delay, skew, clock, q);
    }
    forall i, j | 0 <= i < j < |lane.pending|
      ensures lane.pending[i].seqNo != lane.pending[j].seqNo
    {
      assert line[gone + i] == lane.pending[i] && line[gone + j] == lane.pending[j];
      InOrderByTime(lane, delay, skew, clock, gone + i, gone + j);
      assert Before(lane.pending[i], lane.pending[j]);
    }
  }
}
