/** The qtest client as it runs: a receive buffer cut in place, interrupt levels updated line by
    line, and a stash of QMP events. */
module QtestClient {
  import opened Lines
  import opened Replies
  import opened QmpEvents
  import opened Wrappers

  /** One call of `recv`: some bytes (none if the other side closed), EINTR, or another error. */
  datatype Recv = Chunk(data: string) | Interrupted | Failed

  /** The bytes that arrive before the connection ends, whatever chunks they come in. */
  function Arriving(incoming: seq<Recv>): string {
    if incoming == [] then ""
    else
      match incoming[0]
      case Interrupted => Arriving(incoming[1..])
      case Failed => ""
      case Chunk(data) => if data == "" then "" else data + Arriving(incoming[1..])
  }

  /** The data of some calls, back to front. */
  function Concat(recvs: seq<Recv>): string {
    if recvs == [] then ""
    else
      var k := |recvs| - 1;
      Concat(recvs[..k]) + if recvs[k].Chunk? then recvs[k].data else ""
  }

  /** A call after which the connection is still good. */
  predicate GoesOn(r: Recv) { r.Interrupted? || (r.Chunk? && r.data != "") }

  lemma {:induction false} ConcatCons(r: Recv, more: seq<Recv>)
    ensures Concat([r] + more) == (if r.Chunk? then r.data else "") + Concat(more)
  {
    var all := [r] + more;
    if more == [] {
      assert all[..0] == [];
    } else {
      var k := |more| - 1;
      assert all[..|all| - 1] == [r] + more[..k];
      ConcatCons(r, more[..k]);
    }
  }

  /** What arrives is the data of all calls before the first that fails or brings nothing; interrupted
      calls in between do no harm. */
  lemma {:induction false} ArrivingIs(recvs: seq<Recv>, k: nat)
    requires k <= |recvs| && (forall i | 0 <= i < k :: GoesOn(recvs[i]))
    requires k < |recvs| ==> !GoesOn(recvs[k])
    ensures Arriving(recvs) == Concat(recvs[..k])
    decreases k
  {
    if k > 0 {
      ArrivingIs(recvs[1..], k - 1);
      assert recvs[..k] == [recvs[0]] + recvs[1..][..k - 1];
      ConcatCons(recvs[0], recvs[1..][..k - 1]);
    }
  }

  lemma ReceiveStep(q: Qmp, h: Handler)
    requires q.unread != [] && q.unread[0].event.Some?
    ensures var m := q.unread[0];
            Receive(q, h) == Receive(Qmp(if h.Leaves(m) then q.stash + [m] else q.stash, q.unread[1..]), h)
  {
    var m, more := q.unread[0], q.unread[1..];
    var k := BeforeReply(more);
    assert BeforeReply(q.unread) == 1 + k;
    assert q.unread[..1 + k] == [m] + more[..k];
    StashGrows(q.stash, m, more[..k], h);
  }

  lemma StashGrows(stash: seq<Msg>, m: Msg, ms: seq<Msg>, h: Handler)
    requires m.event.Some?
    ensures stash + LeftOver([m] + ms, h) == (if h.Leaves(m) then stash + [m] else stash) + LeftOver(ms, h)
  {
    LeftOverCons(m, ms, h);
    if h.Leaves(m) {
      ThreeParts(stash, [m], LeftOver(ms, h));
    }
  }

  lemma {:induction false} LeftOverCons(m: Msg, ms: seq<Msg>, h: Handler)
    ensures LeftOver([m] + ms, h) == (if m.event.Some? && h.Leaves(m) then [m] else []) + LeftOver(ms, h)
  {
    var all := [m] + ms;
    if ms == [] {
      assert all[..0] == [];
      assert LeftOver([], h) == [];
    } else {
      var k := |ms| - 1;
      assert all[..|all| - 1] == [m] + ms[..k];
      LeftOverCons(m, ms[..k], h);
    }
  }

  class Client {
    var rx: string
    const irqLevel: array<bool>
    var pending: seq<Msg>
    var handler: Handler
    /** What the two sockets still have to deliver. */
    var incoming: seq<Recv>
    var unread: seq<Msg>
    /** Everything received on the qtest socket, and the lines handed out. */
    ghost var received: string
    ghost var returned: seq<string>

    ghost predicate Valid()
      reads this
    {
      && irqLevel.Length == MAX_IRQ
      && received == Join(returned) + rx && AllNewlineFree(returned)
      && forall i | 0 <= i < |pending| :: pending[i].event.Some?
    }

    /** The part of the qtest stream that no line has been taken from yet. */
    ghost function Stream(): string
      reads this
    {
      rx + Arriving(incoming)
    }

    ghost function Qmps(): Qmp
      reads this
    {
      Qmp(pending, unread)
    }

    constructor (recvs: seq<Recv>, msgs: seq<Msg>)
      ensures Valid() && fresh(irqLevel)
      ensures Stream() == Arriving(recvs) && received == "" && returned == [] && Qmps() == Qmp([], msgs)
      ensures forall i | 0 <= i < irqLevel.Length :: !irqLevel[i]
    {
      rx, received, returned, incoming := "", "", [], recvs;
      pending, unread, handler := [], msgs, NoCallback;
      irqLevel := new bool[MAX_IRQ](_ => false);
    }

    /** Appends what one `recv` brings; false when the pipe is broken. */
    method Pull() returns (ok: bool)
      requires Valid()
      modifies `rx, `incoming, `received
      ensures Valid() && Stream() == old(Stream())
      ensures received + Arriving(incoming) == old(received + Arriving(incoming))
      ensures ok ==> |incoming| < |old(incoming)|
      ensures !ok ==> Arriving(incoming) == "" && rx == old(rx)
    {
      if incoming == [] {
        return false;
      }
      var r := incoming[0];
      if r.Interrupted? {
        incoming := incoming[1..];
        return true;
      }
      if r.Failed? || r.data == "" {
        return false;
      }
      Assoc(rx, r.data, Arriving(incoming[1..]));
      Assoc(Join(returned), rx, r.data);
      Assoc(received, r.data, Arriving(incoming[1..]));
      rx := rx + r.data;
      received := received + r.data;
      incoming := incoming[1..];
      return true;
    }

    /** `qtest_client_socket_recv_line`; None is the abort on a broken pipe. Nothing is read while the
        buffer holds a complete line. */
    method RecvLine() returns (line: Option<string>)
      requires Valid()
      modifies `rx, `incoming, `received, `returned
      ensures Valid() && received + Arriving(incoming) == old(received + Arriving(incoming))
      ensures if HasLine(old(Stream()))
              then line == Some(LineOf(old(Stream()))) && Stream() == After(old(Stream()))
                   && returned == old(returned) + [LineOf(old(Stream()))]
              else line == None && returned == old(returned)
      ensures HasLine(old(rx)) ==> incoming == old(incoming)
    {
      while !HasLine(rx)
        invariant Valid() && Stream() == old(Stream()) && returned == old(returned)
        invariant received + Arriving(incoming) == old(received + Arriving(incoming))
        invariant HasLine(old(rx)) ==> rx == old(rx) && incoming == old(incoming)
        decreases |incoming|
        modifies `rx, `incoming, `received
      {
        var ok := Pull();
        if !ok {
          assert rx + "" == rx;
          return None;
        }
      }
      MoreBehind(rx, Arriving(incoming));
      var cut := TakeLine();
      line := Some(cut);
    }

    /** At any time, for any chunks: the lines handed out are the front of the split of everything the
        connection delivers, and what is not handed out yet is all still there. */
    lemma LinesInOrder(ls: seq<string>, tail: string)
      requires Valid() && SplitsTo(received + Arriving(incoming), ls, tail)
      ensures returned <= ls && Stream() == Join(ls[|returned|..]) + tail
    {
      ReturnedLines(returned, rx, Arriving(incoming), ls, tail);
    }

    /** Cuts the first line off the buffer. */
    method TakeLine() returns (line: string)
      requires Valid() && HasLine(rx)
      modifies `rx, `returned
      ensures Valid() && line == LineOf(old(rx)) && rx == After(old(rx))
      ensures returned == old(returned) + [LineOf(old(rx))]
    {
      CutLine(rx);
      line := LineOf(rx);
      JoinAppend(returned, [line]);
      JoinCons(line, []);
      Assoc(Join(returned), line + "\n", After(rx));
      assert AllNewlineFree(returned + [line]);
      rx := After(rx);
      returned := returned + [line];
    }

    /** What an IRQ notification does. */
    method SetLevel(line: string, strtol: Strtol)
      requires Valid() && GoodIrq(line, strtol)
      modifies irqLevel
      ensures irqLevel[..] == Notify(old(irqLevel[..]), line, strtol)
    {
      var words := Words(line);
      var irq := strtol(words[2]).n;
      if words[1] == "raise" {
        irqLevel[irq] := true;
      } else {
        irqLevel[irq] := false;
      }
    }

    /** `qtest_rsp_args`; None is a failed assertion or a broken pipe. */
    method RspArgs(expected: nat, strtol: Strtol) returns (words: Option<seq<string>>)
      requires Valid()
      modifies `rx, `incoming, `received, `returned, irqLevel
      ensures Valid()
      ensures match Rsp(old(Stream()), old(irqLevel[..]), expected, strtol)
              case Args(ws, levels, rest) => words == Some(ws) && irqLevel[..] == levels && Stream() == rest
              case Aborted => words == None
    {
      ghost var goal := Rsp(Stream(), irqLevel[..], expected, strtol);
      while true
        invariant Valid() && Rsp(Stream(), irqLevel[..], expected, strtol) == goal
        decreases |Stream()|
      {
        var line := RecvLine();
        if line.None? {
          return None;
        }
        var ws := Words(line.value);
        if ws == [] || ws[0] != "IRQ" {
          if ws == [] || ws[0] != "OK" || expected > |ws| {
            return None;
          }
          return Some(ws);
        }
        if |ws| < 3 {
          return None;
        }
        var irq := strtol(ws[2]);
        if irq.NotANumber? || irq.n < 0 || irq.n >= MAX_IRQ {
          return None;
        }
        SetLevel(line.value, strtol);
      }
    }

    /** `qtest_qmp_receive`; None if the reply never comes. */
    method QmpReceive() returns (response: Option<Msg>)
      requires Valid()
      modifies `pending, `unread
      ensures Valid() && Answer(response, Qmps()) == Receive(old(Qmps()), handler)
    {
      ghost var goal := Receive(Qmps(), handler);
      while unread != []
        invariant Valid() && Receive(Qmps(), handler) == goal
        decreases |unread|
      {
        var m := unread[0];
        if m.event.Some? {
          ReceiveStep(Qmps(), handler);
        }
        unread := unread[1..];
        if m.event.None? {
          return Some(m);
        }
        if handler.NoCallback? || !handler.takes(m) {
          pending := pending + [m];
        }
      }
      return None;
    }

    /** `qtest_qmp_event_ref` */
    method EventByName(name: string) returns (response: Option<Msg>)
      requires Valid()
      modifies `pending
      ensures Valid() && Answer(response, Qmps()) == EventRef(old(Qmps()), name)
    {
      ghost var goal := EventRef(Qmps(), name);
      while pending != []
        invariant Valid() && EventRef(Qmps(), name) == goal
        decreases |pending|
      {
        var m := pending[0];
        pending := pending[1..];
        if m.event.value == name {
          return Some(m);
        }
      }
      return None;
    }

    /** `qtest_qmp_eventwait_ref`; None if the event never comes. */
    method WaitForEvent(name: string) returns (response: Option<Msg>)
      requires Valid()
      modifies `pending, `unread
      ensures Valid() && Answer(response, Qmps()) == EventWait(old(Qmps()), name)
    {
      response := EventByName(name);
      if response.Some? {
        return;
      }
      ghost var k, all := 0, unread;
      while unread != []
        invariant Valid() && pending == []
        invariant k <= |all| && unread == all[k..] && forall i | 0 <= i < k :: !Named(all[i], name)
        decreases |unread|
      {
        var m := unread[0];
        unread := unread[1..];
        if m.event == Some(name) {
          return Some(m);
        }
        k := k + 1;
      }
    }
  }
}
