/** The QMP side of the client: events that arrive while a command waits for its reply are stashed,
    and a wait for an event looks through the stash before it reads on. */
module QmpEvents {
  import opened Wrappers

  /** `event` is the name if the message is an event; otherwise it is a reply. */
  datatype Msg = Msg(event: Option<string>, body: nat)

  predicate Named(m: Msg, name: string) { m.event == Some(name) }

  /** `stash`: events put aside; `unread`: everything that is still to arrive, in order. */
  datatype Qmp = Qmp(stash: seq<Msg>, unread: seq<Msg>)

  /** A callback takes an event or leaves it; without one every event is left. */
  datatype Handler = NoCallback | Callback(takes: Msg -> bool)
  {
    predicate Leaves(m: Msg) { NoCallback? || !takes(m) }
  }

  function Events(ms: seq<Msg>): seq<Msg> {
    if ms == [] then []
    else
      var k := |ms| - 1;
      Events(ms[..k]) + if ms[k].event.Some? then [ms[k]] else []
  }

  /** The events in `ms` that the callback leaves. */
  function LeftOver(ms: seq<Msg>, h: Handler): seq<Msg> {
    if ms == [] then []
    else
      var k := |ms| - 1;
      LeftOver(ms[..k], h) + if ms[k].event.Some? && h.Leaves(ms[k]) then [ms[k]] else []
  }

  /** Messages before the first reply. */
  function BeforeReply(ms: seq<Msg>): (k: nat)
    ensures k <= |ms| && (forall i | 0 <= i < k :: ms[i].event.Some?) && (k < |ms| ==> ms[k].event.None?)
  {
    if ms == [] || ms[0].event.None? then 0 else 1 + BeforeReply(ms[1..])
  }

  /** Messages before the first event of that name. */
  function BeforeNamed(ms: seq<Msg>, name: string): (k: nat)
    ensures k <= |ms| && (forall i | 0 <= i < k :: !Named(ms[i], name)) && (k < |ms| ==> Named(ms[k], name))
  {
    if ms == [] || Named(ms[0], name) then 0 else 1 + BeforeNamed(ms[1..], name)
  }

  /** `result` is None when the call never returns, because what it waits for does not arrive. */
  datatype Answer = Answer(result: Option<Msg>, q: Qmp)

  function Receive(q: Qmp, h: Handler): Answer {
    var k := BeforeReply(q.unread);
    var stash := q.stash + LeftOver(q.unread[..k], h);
    if k == |q.unread| then Answer(None, Qmp(stash, [])) else Answer(Some(q.unread[k]), Qmp(stash, q.unread[k + 1..]))
  }

  /** `qtest_qmp_event_ref`: the stash only; here None is an answer. */
  function EventRef(q: Qmp, name: string): Answer {
    var k := BeforeNamed(q.stash, name);
    if k == |q.stash| then Answer(None, q.(stash := [])) else Answer(Some(q.stash[k]), q.(stash := q.stash[k + 1..]))
  }

  function EventWait(q: Qmp, name: string): Answer {
    var a := EventRef(q, name);
    if a.result.Some? then a
    else
      var k := BeforeNamed(q.unread, name);
      if k == |q.unread| then Answer(None, Qmp([], [])) else Answer(Some(q.unread[k]), Qmp([], q.unread[k + 1..]))
  }

  // The order of events.

  predicate StashOfEvents(q: Qmp) {
    forall i | 0 <= i < |q.stash| :: q.stash[i].event.Some?
  }

  /** Every event that has not been handed out or dropped yet, in order of arrival. */
  function Timeline(q: Qmp): seq<Msg> { q.stash + Events(q.unread) }

  /** Waiting on a list of events that is all there: the earliest of that name, and what follows it. */
  function Wait(events: seq<Msg>, name: string): Option<(Msg, seq<Msg>)> {
    var k := BeforeNamed(events, name);
    if k == |events| then None else Some((events[k], events[k + 1..]))
  }

  lemma {:induction false} EventsAppend(a: seq<Msg>, b: seq<Msg>)
    ensures Events(a + b) == Events(a) + Events(b)
  {
    if b == [] {
      assert a + b == a;
    } else {
      var k := |b| - 1;
      assert (a + b)[..|a + b| - 1] == a + b[..k];
      EventsAppend(a, b[..k]);
    }
  }

  lemma {:induction false} EventsOfEvents(ms: seq<Msg>)
    requires forall i | 0 <= i < |ms| :: ms[i].event.Some?
    ensures Events(ms) == ms && LeftOver(ms, NoCallback) == ms
  {
    if ms != [] {
      EventsOfEvents(ms[..|ms| - 1]);
    }
  }

  lemma EventsCons(m: Msg, ms: seq<Msg>)
    ensures Events([m] + ms) == (if m.event.Some? then [m] else []) + Events(ms)
  {
    EventsAppend([m], ms);
    assert [m][..0] == [];
  }

  lemma EventsSplit(ms: seq<Msg>, k: nat)
    requires k <= |ms| && forall i | 0 <= i < k :: ms[i].event.Some?
    requires k < |ms| ==> ms[k].event.None?
    ensures Events(ms) == LeftOver(ms[..k], NoCallback) + Events(if k < |ms| then ms[k + 1..] else [])
  {
    assert ms == ms[..k] + ms[k..];
    EventsBehind(ms[..k], ms[k..]);
    if k < |ms| {
      assert ms[k..] == [ms[k]] + ms[k + 1..];
      ReplySkipped(ms[k], ms[k + 1..]);
    }
  }

  lemma EventsBehind(front: seq<Msg>, back: seq<Msg>)
    requires forall i | 0 <= i < |front| :: front[i].event.Some?
    ensures Events(front + back) == LeftOver(front, NoCallback) + Events(back)
  {
    EventsOfEvents(front);
    EventsAppend(front, back);
  }

  lemma ReplySkipped(m: Msg, ms: seq<Msg>)
    requires m.event.None?
    ensures Events([m] + ms) == Events(ms)
  {
    EventsCons(m, ms);
    assert [] + Events(ms) == Events(ms);
  }

  lemma LeftOverEvents(ms: seq<Msg>, h: Handler)
    ensures forall i | 0 <= i < |LeftOver(ms, h)| :: LeftOver(ms, h)[i].event.Some?
  {
  }

  /** Receiving a command's reply loses no event and keeps their order. */
  lemma ReceiveKeepsTimeline(q: Qmp)
    ensures Timeline(Receive(q, NoCallback).q) == Timeline(q)
    ensures StashOfEvents(q) ==> StashOfEvents(Receive(q, NoCallback).q)
  {
    var k := BeforeReply(q.unread);
    var kept, rest := LeftOver(q.unread[..k], NoCallback), if k < |q.unread| then q.unread[k + 1..] else [];
    EventsSplit(q.unread, k);
    LeftOverEvents(q.unread[..k], NoCallback);
    ThreeParts(q.stash, kept, Events(rest));
  }

  lemma ThreeParts(a: seq<Msg>, b: seq<Msg>, c: seq<Msg>)
    ensures (a + b) + c == a + (b + c)
  {
  }

  /** Messages that are no events do not matter for which event comes first. */
  lemma {:induction false} WaitSkipsReplies(ms: seq<Msg>, name: string)
    ensures var k := BeforeNamed(ms, name);
            Wait(Events(ms), name) == if k == |ms| then None else Some((ms[k], Events(ms[k + 1..])))
  {
    if ms != [] {
      var m, more := ms[0], ms[1..];
      assert ms == [m] + more;
      EventsCons(m, more);
      if Named(m, name) {
        assert Events(ms)[1..] == Events(more);
      } else {
        WaitSkipsReplies(more, name);
        var k := BeforeNamed(more, name);
        assert ms[k + 1..] == more[k..];
        if m.event.Some? {
          WaitCons(m, Events(more), name);
        } else {
          assert Events(ms) == Events(more);
        }
      }
    }
  }

  lemma WaitCons(m: Msg, ms: seq<Msg>, name: string)
    requires !Named(m, name)
    ensures Wait([m] + ms, name) == Wait(ms, name)
  {
    assert ([m] + ms)[1..] == ms;
  }

  lemma {:induction false} WaitAppend(a: seq<Msg>, b: seq<Msg>, name: string)
    ensures var k := BeforeNamed(a, name);
            Wait(a + b, name) == if k == |a| then Wait(b, name) else Some((a[k], a[k + 1..] + b))
  {
    if a == [] {
      assert a + b == b;
    } else {
      var m, more := a[0], a[1..];
      assert a + b == [m] + (more + b);
      if Named(m, name) {
        assert (a + b)[1..] == a[1..] + b;
      } else {
        WaitAppend(more, b, name);
        WaitCons(m, more + b, name);
      }
    }
  }

  /** A wait returns exactly when an event of that name is stashed or still to come; it then returns
      the earliest one, drops what came before it and keeps the rest in order. */
  lemma WaitIsEarliest(q: Qmp, name: string)
    requires StashOfEvents(q)
    ensures var a := EventWait(q, name);
            && Wait(Timeline(q), name) == (if a.result.None? then None else Some((a.result.value, Timeline(a.q))))
            && StashOfEvents(a.q)
  {
    WaitAppend(q.stash, Events(q.unread), name);
    if BeforeNamed(q.stash, name) == |q.stash| {
      WaitSkipsReplies(q.unread, name);
      NothingStashed(EventWait(q, name).q);
    }
  }

  lemma NothingStashed(q: Qmp)
    requires q.stash == []
    ensures Timeline(q) == Events(q.unread)
  {
  }

  // Whole sessions without a callback.

  datatype Call = Command | Await(name: string)

  function Do(q: Qmp, c: Call): Answer {
    if c.Command? then Receive(q, NoCallback) else EventWait(q, c.name)
  }

  /** The answers to a sequence of calls, as long as each of them returns. */
  function Session(q: Qmp, calls: seq<Call>): (r: (seq<Msg>, Qmp))
    ensures |r.0| <= |calls|
    decreases |calls|
  {
    if calls == [] || Do(q, calls[0]).result.None? then ([], q)
    else
      var a := Do(q, calls[0]);
      var (more, last) := Session(a.q, calls[1..]);
      ([a.result.value] + more, last)
  }

  predicate Completes(q: Qmp, calls: seq<Call>) { |Session(q, calls).0| == |calls| }

  /** The events a session handed out. */
  function Handed(calls: seq<Call>, answers: seq<Msg>): seq<Msg>
    requires |calls| == |answers|
  {
    if calls == [] then []
    else if calls[0].Command? then Handed(calls[1..], answers[1..])
    else [answers[0]] + Handed(calls[1..], answers[1..])
  }

  /** The same waits, on the bare list of all events and with no commands in between. */
  function Waits(events: seq<Msg>, calls: seq<Call>): (seq<Msg>, seq<Msg>)
    decreases |calls|
  {
    if calls == [] then ([], events)
    else if calls[0].Command? then Waits(events, calls[1..])
    else
      match Wait(events, calls[0].name)
      case None => ([], events)
      case Some((m, rest)) => var (ms, last) := Waits(rest, calls[1..]); ([m] + ms, last)
  }

  lemma SessionStep(q: Qmp, calls: seq<Call>)
    requires calls != [] && Completes(q, calls)
    ensures var a := Do(q, calls[0]);
            && a.result.Some? && Completes(a.q, calls[1..])
            && Session(q, calls).0 == [a.result.value] + Session(a.q, calls[1..]).0
            && Session(q, calls).1 == Session(a.q, calls[1..]).1
  {
  }

  /** However commands and waits are mixed, a session that completes hands out exactly the events that
      the waits alone would pick from the events in order of arrival, and leaves the same ones. */
  lemma {:induction false} EventOrder(q: Qmp, calls: seq<Call>)
    requires StashOfEvents(q) && Completes(q, calls)
    ensures var (answers, last) := Session(q, calls);
            Waits(Timeline(q), calls) == (Handed(calls, answers), Timeline(last)) && StashOfEvents(last)
    decreases |calls|
  {
    if calls != [] {
      SessionStep(q, calls);
      var a, later := Do(q, calls[0]), calls[1..];
      var (answers, last) := Session(q, calls);
      assert answers[0] == a.result.value && answers[1..] == Session(a.q, later).0;
      if calls[0].Command? {
        ReceiveKeepsTimeline(q);
        EventOrder(a.q, later);
      } else {
        WaitIsEarliest(q, calls[0].name);
        EventOrder(a.q, later);
        WaitsAwait(Timeline(q), calls, a.result.value, Timeline(a.q));
      }
    }
  }

  lemma WaitsAwait(events: seq<Msg>, calls: seq<Call>, m: Msg, rest: seq<Msg>)
    requires calls != [] && calls[0].Await? && Wait(events, calls[0].name) == Some((m, rest))
    ensures Waits(events, calls) == ([m] + Waits(rest, calls[1..]).0, Waits(rest, calls[1..]).1)
  {
  }

  // What comes back, by its place among the messages.

  /** Message `i` is the first reply, or there is none and `i` is the end. */
  predicate FirstReply(ms: seq<Msg>, i: nat) {
    && i <= |ms| && (forall j | 0 <= j < i :: ms[j].event.Some?)
    && (i < |ms| ==> ms[i].event.None?)
  }

  /** Message `i` is the first event of that name, or there is none and `i` is the end. */
  predicate FirstNamed(ms: seq<Msg>, name: string, i: nat) {
    && i <= |ms| && (forall j | 0 <= j < i :: ms[j].event != Some(name))
    && (i < |ms| ==> ms[i].event == Some(name))
  }

  /** The events that a callback does not take, from the front on; all of them without a callback. */
  function Untaken(ms: seq<Msg>, h: Handler): seq<Msg> {
    if ms == [] then []
    else (if h.Callback? && h.takes(ms[0]) then [] else [ms[0]]) + Untaken(ms[1..], h)
  }

  lemma {:induction false} UntakenSnoc(ms: seq<Msg>, m: Msg, h: Handler)
    ensures Untaken(ms + [m], h) == Untaken(ms, h) + if h.Callback? && h.takes(m) then [] else [m]
  {
    if ms == [] {
      assert ([m])[1..] == [];
    } else {
      assert (ms + [m])[1..] == ms[1..] + [m];
      UntakenSnoc(ms[1..], m, h);
    }
  }

  lemma {:induction false} LeftOverIsUntaken(ms: seq<Msg>, h: Handler)
    requires forall i | 0 <= i < |ms| :: ms[i].event.Some?
    ensures LeftOver(ms, h) == Untaken(ms, h)
  {
    if ms != [] {
      var k := |ms| - 1;
      LeftOverIsUntaken(ms[..k], h);
      UntakenSnoc(ms[..k], ms[k], h);
      assert ms[..k] + [ms[k]] == ms;
    }
  }

  /** A command returns the first reply that is still to come, whichever events are before it. Those go
      to the stash, in order, unless the callback takes them; what follows the reply stays unread. If no
      reply comes there is no result. */
  lemma ReceiveIsFirstReply(q: Qmp, h: Handler, i: nat)
    requires FirstReply(q.unread, i)
    ensures var a := Receive(q, h);
            && a.result == (if i < |q.unread| then Some(q.unread[i]) else None)
            && a.q.unread == (if i < |q.unread| then q.unread[i + 1..] else [])
            && a.q.stash == q.stash + Untaken(q.unread[..i], h)
  {
    assert BeforeReply(q.unread) == i;
    LeftOverIsUntaken(q.unread[..i], h);
  }

  /** Asking the stash for an event returns the first one of that name and drops what was before it;
      without one the stash is empty afterwards. Nothing is read. */
  lemma EventRefIsFirst(q: Qmp, name: string, i: nat)
    requires FirstNamed(q.stash, name, i)
    ensures var a := EventRef(q, name);
            && a.result == (if i < |q.stash| then Some(q.stash[i]) else None)
            && a.q.stash == (if i < |q.stash| then q.stash[i + 1..] else [])
            && a.q.unread == q.unread
  {
    assert BeforeNamed(q.stash, name) == i;
  }

  /** A wait that finds nothing in the stash reads up to the first event of that name. */
  lemma EventWaitReads(q: Qmp, name: string, i: nat)
    requires FirstNamed(q.stash, name, |q.stash|) && FirstNamed(q.unread, name, i)
    ensures var a := EventWait(q, name);
            && a.result == (if i < |q.unread| then Some(q.unread[i]) else None)
            && a.q.stash == [] && a.q.unread == (if i < |q.unread| then q.unread[i + 1..] else [])
  {
    EventRefIsFirst(q, name, |q.stash|);
    assert BeforeNamed(q.unread, name) == i;
  }

  // The answers of a session's commands.

  lemma {:induction false} SessionPrefix(q: Qmp, calls: seq<Call>, i: nat)
    requires i < |calls| && Completes(q, calls)
    ensures var before := Session(q, calls[..i]).1;
            && Completes(q, calls[..i]) && Completes(q, calls[..i + 1])
            && Do(before, calls[i]) == Answer(Some(Session(q, calls).0[i]), Session(q, calls[..i + 1]).1)
    decreases |calls|
  {
    SessionStep(q, calls);
    var a, later := Do(q, calls[0]), calls[1..];
    if i == 0 {
      assert calls[..1][1..] == [];
      assert Session(q, calls[..1]).1 == a.q;
    } else {
      SessionPrefix(a.q, later, i - 1);
      assert calls[..i][1..] == later[..i - 1] && calls[..i + 1][1..] == later[..i];
    }
  }

  /** `b` is what is left of `a` when some of its front was read. */
  predicate Suffix(a: seq<Msg>, b: seq<Msg>) { |b| <= |a| && b == a[|a| - |b|..] }

  lemma DoReadsOn(q: Qmp, c: Call)
    ensures Suffix(q.unread, Do(q, c).q.unread)
  {
  }

  lemma SuffixTrans(a: seq<Msg>, b: seq<Msg>, c: seq<Msg>)
    requires Suffix(a, b) && Suffix(b, c)
    ensures Suffix(a, c)
  {
  }

  lemma {:induction false} SessionReadsOn(q: Qmp, calls: seq<Call>, i: nat)
    requires i <= |calls| && Completes(q, calls)
    ensures Suffix(q.unread, Session(q, calls[..i]).1.unread)
    decreases i
  {
    if i == 0 {
      assert q.unread[0..] == q.unread;
    } else {
      SessionReadsOn(q, calls, i - 1);
      SessionPrefix(q, calls, i - 1);
      DoReadsOn(Session(q, calls[..i - 1]).1, calls[i - 1]);
      SuffixTrans(q.unread, Session(q, calls[..i - 1]).1.unread, Session(q, calls[..i]).1.unread);
    }
  }

  /** However commands and waits are mixed, each command of a session that completes is answered with the
      first reply among what no earlier call has read, and that much more is read afterwards: so the
      answers are replies of the stream in order, none handed out twice. */
  lemma CommandsAnswered(q: Qmp, calls: seq<Call>, i: nat)
    requires Completes(q, calls) && i < |calls| && calls[i].Command?
    ensures var before, after := Session(q, calls[..i]).1.unread, Session(q, calls[..i + 1]).1.unread;
            var k := |before| - |after| - 1;
            && Suffix(q.unread, before) && 0 <= k < |before| && FirstReply(before, k)
            && Session(q, calls).0[i] == before[k] && after == before[k + 1..]
  {
    SessionReadsOn(q, calls, i);
    SessionPrefix(q, calls, i);
    var before := Session(q, calls[..i]).1;
    ReceiveIsFirstReply(before, NoCallback, BeforeReply(before.unread));
  }
}
