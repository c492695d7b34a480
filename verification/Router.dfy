/**
 * The relay's mailboxes and its delayed delivery (server/router.py, network/mix_router.py). The
 * clock readings and the sampled delays are parameters.
 */
module Router {
  import opened Common

  datatype Envelope = Envelope(locator: Option<string>, recipient: Option<string>, payload: bytes)

  datatype Scheduled = Scheduled(deliverAt: real, envelope: Envelope)

  type Boxes = map<string, seq<Envelope>>

  datatype State = State(boxes: Boxes, scheduled: seq<Scheduled>)

  /** get_routing_recipient: a locator counts whatever it is, a legacy recipient only if not empty. */
  function Route(e: Envelope): Option<string> {
    if e.locator.Some? then e.locator
    else if e.recipient.Some? && e.recipient.value != "" then e.recipient
    else None
  }

  /** A locator wins over a legacy recipient, which must not be empty. */
  lemma RouteIff(e: Envelope, r: string)
    ensures Route(e) == Some(r) <==> e.locator == Some(r) || (e.locator.None? && r != "" && e.recipient == Some(r))
  {
  }

  function At(boxes: Boxes, r: string): seq<Envelope> {
    if r in boxes then boxes[r] else []
  }

  function Put(boxes: Boxes, r: string, e: Envelope): Boxes {
    boxes[r := At(boxes, r) + [e]]
  }

  // What becomes due --------------------------------------------------------------------------------

  function Due(s: seq<Scheduled>, now: real): seq<Scheduled> {
    if s == [] then [] else
      Due(s[..|s| - 1], now) + (if s[|s| - 1].deliverAt <= now then [s[|s| - 1]] else [])
  }

  function Remaining(s: seq<Scheduled>, now: real): seq<Scheduled> {
    if s == [] then [] else
      Remaining(s[..|s| - 1], now) + (if s[|s| - 1].deliverAt <= now then [] else [s[|s| - 1]])
  }

  /** How many leading envelopes have a recipient. */
  function Routable(s: seq<Scheduled>): (n: nat)
    ensures n <= |s| && (n < |s| ==> Route(s[n].envelope).None?)
    ensures forall i :: 0 <= i < n ==> Route(s[i].envelope).Some?
  {
    if s == [] || Route(s[0].envelope).None? then 0 else 1 + Routable(s[1..])
  }

  function PutAll(boxes: Boxes, s: seq<Scheduled>): Boxes
    requires forall i :: 0 <= i < |s| ==> Route(s[i].envelope).Some?
  {
    if s == [] then boxes else
      var e := s[|s| - 1].envelope;
      Put(PutAll(boxes, s[..|s| - 1]), Route(e).value, e)
  }

  /** deliver_due: the schedule is cut first, and an envelope without a recipient ends the delivery. */
  function Deliver(st: State, now: real): State {
    var due := Due(st.scheduled, now);
    State(PutAll(st.boxes, due[..Routable(due)]), Remaining(st.scheduled, now))
  }

  /** The due envelopes that are neither delivered nor kept. */
  function Dropped(st: State, now: real): seq<Scheduled> {
    var due := Due(st.scheduled, now);
    due[Routable(due)..]
  }

  class Router {
    var mailboxes: Boxes
    var scheduled: seq<Scheduled>
    const mixing: bool

    constructor (mixing: bool)
      ensures this.mixing == mixing && View() == State(map[], [])
    {
      this.mixing := mixing;
      mailboxes, scheduled := map[], [];
    }

    ghost function View(): State
      reads this
    {
      State(mailboxes, scheduled)
    }

    method Enqueue(recipient: string, e: Envelope)
      modifies this
      ensures View() == old(View()).(boxes := Put(old(mailboxes), recipient, e))
    {
      if recipient !in mailboxes {
        mailboxes := mailboxes[recipient := []];
      }
      mailboxes := mailboxes[recipient := mailboxes[recipient] + [e]];
    }

    /** A delayed envelope is accepted without looking at its recipient. */
    method EnqueueByEnvelope(e: Envelope, useMix: bool, now: real, delay: real) returns (ok: bool)
      modifies this
      ensures View() == Submit(old(View()), e, useMix && mixing, now + delay)
      ensures ok <==> (useMix && mixing) || Route(e).Some?
    {
      if useMix && mixing {
        scheduled := scheduled + [Scheduled(now + delay, e)];
        return true;
      }
      var r := Route(e);
      if r.None? {
        return false;
      }
      Enqueue(r.value, e);
      return true;
    }

    /** Some count when all that was due was delivered, None when an envelope had no recipient. */
    method DeliverDue(now: real) returns (count: Option<nat>)
      modifies this
      ensures View() == Deliver(old(View()), now)
      ensures count == if Dropped(old(View()), now) == [] then Some(|Due(old(scheduled), now)|) else None
    {
      ghost var before := scheduled;
      var due, remaining: seq<Scheduled> := [], [];
      for i := 0 to |scheduled|
        invariant due == Due(scheduled[..i], now) && remaining == Remaining(scheduled[..i], now)
        invariant scheduled == before && mailboxes == old(mailboxes)
      {
        assert scheduled[..i + 1][..i] == scheduled[..i];
        if scheduled[i].deliverAt <= now {
          due := due + [scheduled[i]];
        } else {
          remaining := remaining + [scheduled[i]];
        }
      }
      assert before[..|before|] == before;
      scheduled := remaining;
      for i := 0 to |due|
        invariant scheduled == remaining && i <= Routable(due)
        invariant mailboxes == PutAll(old(mailboxes), due[..i])
      {
        var r := Route(due[i].envelope);
        if r.None? {
          assert i == Routable(due);
          return None;
        }
        assert due[..i + 1][..i] == due[..i];
        Enqueue(r.value, due[i].envelope);
      }
      return Some(|due|);
    }

    method DequeueAll(recipient: string) returns (r: seq<Envelope>)
      modifies this
      ensures r == At(old(mailboxes), recipient)
      ensures View() == Emptied(old(View()), recipient)
    {
      if recipient !in mailboxes {
        return [];
      }
      r := mailboxes[recipient];
      mailboxes := mailboxes[recipient := []];
    }
  }

  /** enqueue_by_envelope */
  function Submit(st: State, e: Envelope, mixed: bool, deliverAt: real): State {
    if mixed then st.(scheduled := st.scheduled + [Scheduled(deliverAt, e)])
    else if Route(e).Some? then st.(boxes := Put(st.boxes, Route(e).value, e))
    else st
  }

  function Emptied(st: State, r: string): State {
    if r in st.boxes then st.(boxes := st.boxes[r := []]) else st
  }

  /** An undelayed envelope goes to the end of the mailbox of its locator, or of its recipient without one. */
  lemma SubmittedTo(st: State, e: Envelope, r: string, deliverAt: real)
    requires e.locator == Some(r) || (e.locator.None? && r != "" && e.recipient == Some(r))
    ensures var next := Submit(st, e, false, deliverAt);
            && next.scheduled == st.scheduled && At(next.boxes, r) == At(st.boxes, r) + [e]
            && forall x :: x != r ==> At(next.boxes, x) == At(st.boxes, x)
  {
    RouteIff(e, r);
  }

  // Runs --------------------------------------------------------------------------------------------

  /** An envelope the relay has accepted: for whom, and from when on if delayed. */
  datatype Ticket = Ticket(to: Option<string>, envelope: Envelope, deliverAt: Option<real>)

  function TicketOf(s: Scheduled): Ticket {
    Ticket(Route(s.envelope), s.envelope, Some(s.deliverAt))
  }

  function TicketsOf(s: seq<Scheduled>): (t: seq<Ticket>)
    ensures |t| == |s| && forall i :: 0 <= i < |s| ==> t[i] == TicketOf(s[i])
  {
    seq(|s|, i requires 0 <= i < |s| => TicketOf(s[i]))
  }

  /** The envelopes for one recipient, in order. */
  function For(s: seq<Ticket>, r: string): seq<Envelope> {
    if s == [] then [] else
      For(s[..|s| - 1], r) + (if s[|s| - 1].to == Some(r) then [s[|s| - 1].envelope] else [])
  }

  /**
   * The router with what it has accepted, put into mailboxes, dropped and handed out so far. Next to
   * every envelope that has left the schedule is the clock reading of the delivery that took it out.
   */
  datatype World = World(
    router: State,
    sent: seq<Ticket>,
    released: seq<Ticket>,
    releasedAt: seq<Option<real>>,
    dropped: seq<Ticket>,
    droppedAt: seq<Option<real>>,
    handed: Boxes)

  datatype Action =
    | Direct(to: string, e: Envelope)
    | Send(e: Envelope, mixed: bool, now: real, delay: real)
    | Tick(now: real)
    | Fetch(to: string)

  const IDLE := World(State(map[], []), [], [], [], [], [], map[])

  function AllAt(now: real, n: nat): seq<Option<real>> {
    seq(n, _ => Some(now))
  }

  function SendStep(w: World, e: Envelope, mixed: bool, deliverAt: real): World {
    var router := Submit(w.router, e, mixed, deliverAt);
    if mixed then
      w.(router := router, sent := w.sent + [TicketOf(Scheduled(deliverAt, e))])
    else if Route(e).Some? then
      var t := Ticket(Route(e), e, None);
      w.(router := router, sent := w.sent + [t], released := w.released + [t], releasedAt := w.releasedAt + [None])
    else w.(router := router)
  }

  function TickStep(w: World, now: real): World {
    var due := Due(w.router.scheduled, now);
    w.(router := Deliver(w.router, now),
    released := w.released + TicketsOf(due[..Routable(due)]),
    releasedAt := w.releasedAt + AllAt(now, Routable(due)),
    dropped := w.dropped + TicketsOf(Dropped(w.router, now)),
    droppedAt := w.droppedAt + AllAt(now, |due| - Routable(due)))
  }

  function Step(w: World, a: Action): World {
    match a
    case Direct(to, e) =>
      var t := Ticket(Some(to), e, None);
      w.(router := w.router.(boxes := Put(w.router.boxes, to, e)), sent := w.sent + [t],
      released := w.released + [t], releasedAt := w.releasedAt + [None])
    case Send(e, mixed, now, delay) => SendStep(w, e, mixed, now + delay)
    case Tick(now) => TickStep(w, now)
    case Fetch(to) =>
      w.(router := Emptied(w.router, to), handed := w.handed[to := At(w.handed, to) + At(w.router.boxes, to)])
  }

  predicate IsStep(w: World, a: Action, next: World) {
    next == Step(w, a)
  }

  ghost predicate IsRun(run: seq<World>, actions: seq<Action>) {
    && |run| == |actions| + 1 && run[0] == IDLE
    && forall k :: 0 <= k < |actions| ==> IsStep(run[k], actions[k], run[k + 1])
  }

  /** What was released to a recipient is what was handed out followed by what is in the mailbox. */
  predicate InOrder(w: World, r: string) {
    At(w.handed, r) + At(w.router.boxes, r) == For(w.released, r)
  }

  /** A delayed envelope left the schedule in a delivery whose clock had reached its time. */
  predicate OnTime(t: Ticket, at: Option<real>) {
    t.deliverAt.Some? ==> at.Some? && t.deliverAt.value <= at.value
  }

  ghost predicate AllOnTime(s: seq<Ticket>, at: seq<Option<real>>) {
    |s| == |at| && forall i :: 0 <= i < |s| ==> OnTime(s[i], at[i])
  }

  /**
   * Every accepted envelope is in exactly one place; mailboxes are first-in first-out; nothing is
   * released before its time; and only deliveries that met an envelope without a recipient drop any.
   */
  ghost predicate Inv(w: World) {
    Accounted(w) && Timely(w) && forall r :: InOrder(w, r)
  }

  ghost predicate Accounted(w: World) {
    multiset(w.sent) == multiset(TicketsOf(w.router.scheduled)) + multiset(w.released) + multiset(w.dropped)
  }

  ghost predicate Timely(w: World) {
    AllOnTime(w.released, w.releasedAt) && AllOnTime(w.dropped, w.droppedAt)
  }

  lemma {:induction false} ForConcat(a: seq<Ticket>, b: seq<Ticket>, r: string)
    ensures For(a + b, r) == For(a, r) + For(b, r)
  {
    if b == [] {
      assert a + b == a;
    } else {
      assert (a + b)[..|a + b| - 1] == a + b[..|b| - 1];
      ForConcat(a, b[..|b| - 1], r);
    }
  }

  lemma ForOne(t: Ticket, r: string)
    ensures For([t], r) == if t.to == Some(r) then [t.envelope] else []
  {
    assert [t][..0] == [];
  }

  lemma {:induction false} PutAllAppends(boxes: Boxes, s: seq<Scheduled>, r: string)
    requires forall i :: 0 <= i < |s| ==> Route(s[i].envelope).Some?
    ensures At(PutAll(boxes, s), r) == At(boxes, r) + For(TicketsOf(s), r)
  {
    if s != [] {
      var init, last := s[..|s| - 1], s[|s| - 1];
      PutAllAppends(boxes, init, r);
      PutAppends(PutAll(boxes, init), last, r);
      ForLast(s, r);
      Associates(At(boxes, r), For(TicketsOf(init), r), For(TicketsOf([last]), r));
    }
  }

  lemma Associates(a: seq<Envelope>, b: seq<Envelope>, c: seq<Envelope>)
    ensures (a + b) + c == a + (b + c)
  {
  }

  lemma ForLast(s: seq<Scheduled>, r: string)
    requires s != []
    ensures For(TicketsOf(s), r) == For(TicketsOf(s[..|s| - 1]), r) + For(TicketsOf([s[|s| - 1]]), r)
  {
    assert s == s[..|s| - 1] + [s[|s| - 1]];
    TicketsConcat(s[..|s| - 1], [s[|s| - 1]]);
    ForConcat(TicketsOf(s[..|s| - 1]), TicketsOf([s[|s| - 1]]), r);
  }

  lemma PutAppends(boxes: Boxes, x: Scheduled, r: string)
    requires Route(x.envelope).Some?
    ensures At(Put(boxes, Route(x.envelope).value, x.envelope), r) == At(boxes, r) + For(TicketsOf([x]), r)
  {
    assert TicketsOf([x]) == [TicketOf(x)];
    ForOne(TicketOf(x), r);
  }

  lemma TicketsConcat(a: seq<Scheduled>, b: seq<Scheduled>)
    ensures TicketsOf(a + b) == TicketsOf(a) + TicketsOf(b)
  {
  }

  lemma OneMoreTicket(s: seq<Scheduled>, x: Scheduled)
    ensures multiset(TicketsOf(s + [x])) == multiset(TicketsOf(s)) + multiset{TicketOf(x)}
  {
    assert TicketsOf(s + [x]) == TicketsOf(s) + [TicketOf(x)];
  }

  lemma {:induction false} CutTimes(s: seq<Scheduled>, now: real)
    ensures forall i :: 0 <= i < |Due(s, now)| ==> Due(s, now)[i].deliverAt <= now
    ensures forall i :: 0 <= i < |Remaining(s, now)| ==> Remaining(s, now)[i].deliverAt > now
  {
    if s != [] {
      CutTimes(s[..|s| - 1], now);
    }
  }

  /** Cutting the schedule loses and adds nothing. */
  lemma {:induction false} CutConserves(s: seq<Scheduled>, now: real)
    ensures multiset(TicketsOf(s)) == multiset(TicketsOf(Due(s, now))) + multiset(TicketsOf(Remaining(s, now)))
  {
    if s != [] {
      var init, last := s[..|s| - 1], s[|s| - 1];
      CutConserves(init, now);
      assert s == init + [last];
      assert Due(init, now) + [] == Due(init, now) && Remaining(init, now) + [] == Remaining(init, now);
      OneMoreTicket(init, last);
      OneMoreTicket(Due(init, now), last);
      OneMoreTicket(Remaining(init, now), last);
    }
  }

  lemma TickConserves(w: World, now: real, next: World)
    requires next == TickStep(w, now) && Accounted(w)
    ensures Accounted(next)
  {
    var due := Due(w.router.scheduled, now);
    CutConserves(w.router.scheduled, now);
    assert due == due[..Routable(due)] + due[Routable(due)..];
    TicketsConcat(due[..Routable(due)], due[Routable(due)..]);
  }

  lemma TickIsOnTime(w: World, now: real, next: World)
    requires next == TickStep(w, now) && Timely(w)
    ensures Timely(next)
  {
    var due := Due(w.router.scheduled, now);
    CutTimes(w.router.scheduled, now);
    AppendOnTime(w.released, w.releasedAt, due[..Routable(due)], now);
    AppendOnTime(w.dropped, w.droppedAt, due[Routable(due)..], now);
  }

  lemma AppendOnTime(s: seq<Ticket>, at: seq<Option<real>>, more: seq<Scheduled>, now: real)
    requires AllOnTime(s, at) && forall i :: 0 <= i < |more| ==> more[i].deliverAt <= now
    ensures AllOnTime(s + TicketsOf(more), at + AllAt(now, |more|))
  {
  }

  /** Nor is anything late: a delivery leaves only what is due after it. */
  lemma TickIsPrompt(w: World, now: real)
    ensures forall x :: x in TickStep(w, now).router.scheduled ==> x.deliverAt > now
  {
    CutTimes(w.router.scheduled, now);
  }

  lemma TickKeepsInv(w: World, now: real)
    requires Inv(w)
    ensures Inv(TickStep(w, now))
  {
    var next := TickStep(w, now);
    TickConserves(w, now, next);
    TickIsOnTime(w, now, next);
    forall r
      ensures InOrder(next, r)
    {
      TickKeepsOrder(w, now, next, r);
    }
  }

  lemma TickKeepsOrder(w: World, now: real, next: World, r: string)
    requires InOrder(w, r) && next == TickStep(w, now)
    ensures InOrder(next, r)
  {
    var due := Due(w.router.scheduled, now);
    var out := due[..Routable(due)];
    PutAllAppends(w.router.boxes, out, r);
    ForConcat(w.released, TicketsOf(out), r);
  }

  lemma PutKeepsInv(w: World, to: string, e: Envelope, next: World)
    requires Inv(w)
    requires var t := Ticket(Some(to), e, None);
             next == w.(router := w.router.(boxes := Put(w.router.boxes, to, e)), sent := w.sent + [t],
                        released := w.released + [t], releasedAt := w.releasedAt + [None])
    ensures Inv(next)
  {
    assert Accounted(next) && Timely(next);
    forall r
      ensures InOrder(next, r)
    {
      assert InOrder(w, r);
      PutKeepsOrder(w, to, e, next, r);
    }
  }

  lemma PutKeepsOrder(w: World, to: string, e: Envelope, next: World, r: string)
    requires InOrder(w, r) && next.handed == w.handed && next.router.boxes == Put(w.router.boxes, to, e)
    requires next.released == w.released + [Ticket(Some(to), e, None)]
    ensures InOrder(next, r)
  {
    var t := Ticket(Some(to), e, None);
    ForConcat(w.released, [t], r);
    ForOne(t, r);
    Associates(At(w.handed, r), At(w.router.boxes, r), For([t], r));
  }

  lemma ScheduleKeepsInv(w: World, s: Scheduled, next: World)
    requires Inv(w)
    requires next == w.(router := w.router.(scheduled := w.router.scheduled + [s]), sent := w.sent + [TicketOf(s)])
    ensures Inv(next)
  {
    assert TicketsOf(next.router.scheduled) == TicketsOf(w.router.scheduled) + [TicketOf(s)];
    forall r
      ensures InOrder(next, r)
    {
      assert InOrder(w, r);
    }
  }

  lemma FetchKeepsInv(w: World, to: string, next: World)
    requires Inv(w) && next == Step(w, Fetch(to))
    ensures Inv(next)
  {
    assert Accounted(next) && Timely(next);
    forall r
      ensures InOrder(next, r)
    {
      FetchKeepsOrder(w, to, next, r);
    }
  }

  lemma FetchKeepsOrder(w: World, to: string, next: World, r: string)
    requires InOrder(w, r) && next == Step(w, Fetch(to))
    ensures InOrder(next, r)
  {
  }

  lemma StepKeepsInv(w: World, a: Action, next: World)
    requires Inv(w) && IsStep(w, a, next)
    ensures Inv(next)
  {
    match a {
      case Direct(to, e) => PutKeepsInv(w, to, e, next);
      case Send(e, mixed, now, delay) =>
        if mixed {
          ScheduleKeepsInv(w, Scheduled(now + delay, e), next);
        } else if Route(e).Some? {
          PutKeepsInv(w, Route(e).value, e, next);
        }
      case Tick(now) => TickKeepsInv(w, now);
      case Fetch(to) => FetchKeepsInv(w, to, next);
    }
  }

  /** Relay conservation over every run. */
  lemma {:induction false} RunKeepsInv(run: seq<World>, actions: seq<Action>, k: nat)
    requires IsRun(run, actions) && k <= |actions|
    ensures Inv(run[k])
  {
    if k > 0 {
      RunKeepsInv(run, actions, k - 1);
      StepKeepsInv(run[k - 1], actions[k - 1], run[k]);
    } else {
      assert forall r :: InOrder(IDLE, r);
    }
  }

  // Dropped envelopes -------------------------------------------------------------------------------

  predicate AllRoutable(s: seq<Scheduled>) {
    forall i :: 0 <= i < |s| ==> Route(s[i].envelope).Some?
  }

  /** A delivery drops nothing exactly when every due envelope has a recipient. */
  lemma DropsNothingIff(st: State, now: real)
    ensures Dropped(st, now) == [] <==> AllRoutable(Due(st.scheduled, now))
  {
  }

  const NOWHERE := Envelope(None, None, [])

  const FOR_BOB := Envelope(Some("bob"), None, [])

  /** Otherwise envelopes with a recipient can be lost: here one that is in order but due in the same delivery. */
  lemma DeliveryCanLose()
    ensures var st := State(map[], [Scheduled(0.0, NOWHERE), Scheduled(0.0, FOR_BOB)]);
            Deliver(st, 0.0) == State(map[], [])
  {
    var s := [Scheduled(0.0, NOWHERE), Scheduled(0.0, FOR_BOB)];
    assert s[..1] == [s[0]] && s[..1][..0] == [];
    assert Due(s[..1], 0.0) == [s[0]] && Due(s, 0.0) == s;
    assert Remaining(s[..1], 0.0) == [];
    assert Remaining(s, 0.0) == [];
  }

  lemma {:induction false} CutKeepsRoutable(s: seq<Scheduled>, now: real)
    requires AllRoutable(s)
    ensures AllRoutable(Due(s, now)) && AllRoutable(Remaining(s, now))
  {
    if s != [] {
      CutKeepsRoutable(s[..|s| - 1], now);
    }
  }

  /** If only routable envelopes are ever delayed, no run drops any. */
  lemma {:induction false} RoutableRunDropsNothing(run: seq<World>, actions: seq<Action>, k: nat)
    requires IsRun(run, actions) && k <= |actions|
    requires forall i :: 0 <= i < k && actions[i].Send? && actions[i].mixed ==> Route(actions[i].e).Some?
    ensures run[k].dropped == [] && AllRoutable(run[k].router.scheduled)
  {
    if k > 0 {
      RoutableRunDropsNothing(run, actions, k - 1);
      var w, a := run[k - 1], actions[k - 1];
      assert IsStep(w, a, run[k]);
      if a.Tick? {
        CutKeepsRoutable(w.router.scheduled, a.now);
        DropsNothingIff(w.router, a.now);
      }
    }
  }

  // Order -------------------------------------------------------------------------------------------

  predicate NoLater(s: seq<Scheduled>, i: int, j: int) {
    0 <= i < j < |s| ==> s[i].deliverAt <= s[j].deliverAt
  }

  ghost predicate Ascending(s: seq<Scheduled>) {
    forall i, j :: NoLater(s, i, j)
  }

  lemma PartIsAscending(s: seq<Scheduled>, from: nat, to: nat)
    requires Ascending(s) && from <= to <= |s|
    ensures Ascending(s[from..to])
  {
    forall i, j
      ensures NoLater(s[from..to], i, j)
    {
      assert NoLater(s, from + i, from + j);
    }
  }

  /** In an ascending schedule the due envelopes are the first ones. */
  lemma {:induction false} CutIsPrefix(s: seq<Scheduled>, now: real)
    requires Ascending(s)
    ensures s == Due(s, now) + Remaining(s, now)
  {
    if s != [] {
      var init, last := s[..|s| - 1], s[|s| - 1];
      assert s[0..|s| - 1] == init && s == init + [last];
      PartIsAscending(s, 0, |s| - 1);
      CutIsPrefix(init, now);
      CutTimes(init, now);
      var n := |Due(init, now)|;
      assert Remaining(init, now) != [] ==> Remaining(init, now)[0] == s[n] && NoLater(s, n, |s| - 1);
    }
  }

  predicate DelayedBy(a: Action, d: real) {
    !a.Direct? && (a.Send? ==> a.mixed && a.delay == d && Route(a.e).Some?)
  }

  /** Everything is delayed by the same time, and sent by a clock that does not go back. */
  ghost predicate Steady(actions: seq<Action>, d: real) {
    && (forall i :: 0 <= i < |actions| ==> DelayedBy(actions[i], d))
    && (forall i, j :: 0 <= i < j < |actions| && actions[i].Send? && actions[j].Send? ==> actions[i].now <= actions[j].now)
  }

  predicate NotAfter(s: Scheduled, actions: seq<Action>, d: real, j: int) {
    0 <= j < |actions| && actions[j].Send? ==> s.deliverAt <= actions[j].now + d
  }

  ghost predicate Fifo(w: World, actions: seq<Action>, d: real, k: nat) {
    && w.sent == w.released + TicketsOf(w.router.scheduled)
    && Ascending(w.router.scheduled)
    && forall s, j :: s in w.router.scheduled && k <= j ==> NotAfter(s, actions, d, j)
  }

  lemma ReleasePrefix(released: seq<Ticket>, s: seq<Scheduled>, n: nat)
    requires n <= |s|
    ensures released + TicketsOf(s) == (released + TicketsOf(s[..n])) + TicketsOf(s[n..])
  {
    assert s == s[..n] + s[n..];
    TicketsConcat(s[..n], s[n..]);
  }

  lemma TailKeepsFifo(w: World, actions: seq<Action>, d: real, k: nat, s: seq<Scheduled>, n: nat, next: World)
    requires Fifo(w, actions, d, k) && s == w.router.scheduled && n <= |s|
    requires next.router.scheduled == s[n..] && next.sent == w.sent && next.released == w.released + TicketsOf(s[..n])
    ensures Fifo(next, actions, d, k + 1)
  {
    ReleasePrefix(w.released, s, n);
    PartIsAscending(s, n, |s|);
    assert s[n..|s|] == s[n..];
    forall x, j | x in next.router.scheduled && k + 1 <= j
      ensures NotAfter(x, actions, d, j)
    {
      assert x in s;
    }
  }

  lemma TickKeepsFifo(w: World, actions: seq<Action>, d: real, k: nat, now: real, next: World)
    requires Fifo(w, actions, d, k) && AllRoutable(w.router.scheduled) && next == TickStep(w, now)
    ensures Fifo(next, actions, d, k + 1)
  {
    var s := w.router.scheduled;
    var due := Due(s, now);
    CutIsPrefix(s, now);
    CutKeepsRoutable(s, now);
    assert due[..Routable(due)] == due == s[..|due|] && Remaining(s, now) == s[|due|..];
    TailKeepsFifo(w, actions, d, k, s, |due|, next);
  }

  lemma SendKeepsFifo(w: World, actions: seq<Action>, d: real, k: nat, next: World)
    requires Fifo(w, actions, d, k) && k < |actions| && Steady(actions, d) && actions[k].Send?
    requires next == Step(w, actions[k])
    ensures Fifo(next, actions, d, k + 1)
  {
    var a := actions[k];
    assert DelayedBy(a, d);
    var s, x := w.router.scheduled, Scheduled(a.now + d, a.e);
    assert next.router.scheduled == s + [x];
    TicketsConcat(s, [x]);
    var more := s + [x];
    forall i, j
      ensures NoLater(more, i, j)
    {
      assert NoLater(s, i, j);
      assert 0 <= i < |s| ==> s[i] in s && NotAfter(s[i], actions, d, k);
    }
  }

  lemma {:induction false} RunIsFifo(run: seq<World>, actions: seq<Action>, d: real, k: nat)
    requires IsRun(run, actions) && k <= |actions| && Steady(actions, d)
    ensures Fifo(run[k], actions, d, k)
  {
    if k > 0 {
      var w, a := run[k - 1], actions[k - 1];
      RunIsFifo(run, actions, d, k - 1);
      assert IsStep(w, a, run[k]) && DelayedBy(a, d);
      match a {
        case Send(_, _, _, _) => SendKeepsFifo(w, actions, d, k - 1, run[k]);
        case Tick(now) =>
          assert forall i :: 0 <= i < k - 1 ==> DelayedBy(actions[i], d);
          RoutableRunDropsNothing(run, actions, k - 1);
          TickKeepsFifo(w, actions, d, k - 1, now, run[k]);
        case Fetch(_) =>
      }
    }
  }

  /**
   * With a fixed delay and a clock that does not go back, each recipient gets the envelopes in the
   * order in which they were sent: first those handed out, then the mailbox, then the schedule.
   */
  lemma OrderIsPreserved(run: seq<World>, actions: seq<Action>, d: real, k: nat, r: string)
    requires IsRun(run, actions) && k <= |actions| && Steady(actions, d)
    ensures var w := run[k];
            For(w.sent, r) == At(w.handed, r) + At(w.router.boxes, r) + For(TicketsOf(w.router.scheduled), r)
  {
    RunKeepsInv(run, actions, k);
    RunIsFifo(run, actions, d, k);
    var w := run[k];
    assert InOrder(w, r);
    ForConcat(w.released, TicketsOf(w.router.scheduled), r);
  }
}
