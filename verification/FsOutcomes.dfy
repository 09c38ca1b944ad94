/** What each fs op does in any run that is not astronomically long. */
module FsOutcomes {
  import opened Bytes
  import opened Guest
  import opened Virtqueue
  import opened Confinement
  import opened Assembly
  import opened Chain
  import opened Counting
  import opened Guards
  import opened PairOutcomes
  import opened Fuse
  import opened FsHarness

  /** Requests go to the queue the op names modulo 8, but never to the first two. */
  function QueueFor(vqIdx: u32): u32 { if vqIdx % 8 < 2 then 2 else vqIdx % 8 }

  lemma RequestIsPair(r: FuseRequest)
    ensures ActionOf(Request(r)) ==
            DoSubmit(Pair(QueueFor(r.vqIdx), 3, RequestBytes(r), Zeros(AnswerSize(r.inBufSize))))
  {
  }

  /** After any run of fewer than 429 million steps, a request goes out exactly if its queue has a size,
      the descriptors so far and three more stay below it, and the pool has room for message and
      answer. The device then finds the message, which parses to the request, and the room for the
      answer; otherwise no queue changes. */
  lemma RequestOutcome(m0: Memory, s: Core, acts: seq<Action>, r: FuseRequest)
    requires Shaped(s) && |s.vqs| == 8 && ValidActions(8, acts) && SmallDeviceRun(acts) && Brief(|acts|)
    ensures ActionOf(Request(r)).Valid(8) && MessageIs(RequestBytes(r), r)
    ensures var c := Run(Reset(s), acts);
            PairSent(m0, c, Step(c, ActionOf(Request(r))),
                     QueueFor(r.vqIdx), 3, RequestBytes(r), AnswerSize(r.inBufSize))
  {
    OpsAreActions(Request(r));
    MessageCarries(r);
    RequestIsPair(r);
    PairStep(m0, s, acts, QueueFor(r.vqIdx), 3, RequestBytes(r), AnswerSize(r.inBufSize), ActionOf(Request(r)));
  }

  // High-priority requests.

  /** What a high-priority message says: its ids, no sender, and at most 256 bytes of payload. */
  predicate HpIs(s: seq<byte>, m: HpReq) {
    var p := ParseMessage(s);
    && p.Some? && p.value.opcode == m.opcode && p.value.unique == m.unique && p.value.nodeid == m.nodeid
    && p.value.uid == p.value.gid == p.value.pid == 0
    && |s| >= 40 && s[40..] == m.payload[..Min(|m.payload|, 256)]
  }

  lemma HpCarries(m: HpReq)
    ensures HpIs(HpBytes(m), m)
  {
    HpRoundTrip(m);
  }

  lemma HpPieces(m: HpReq)
    ensures var sub := HpSubmission(m);
            && sub.Valid(8) && ReadableFirst(sub.parts) && Lengths(sub.parts) == [|HpBytes(m)|]
            && sub.vq == 0 && sub.slack == 1 && sub.named && sub.tail == [] && sub.placed == 1
  {
    assert Lengths(HpSubmission(m).parts) == [|HpBytes(m)|];
  }

  /** What a high-priority message does to queue 0: sent alone, with one slot to spare, or not at all. */
  ghost predicate HpSent(m0: Memory, r: Core, t: Core, message: seq<byte>)
    requires |r.vqs| == |r.hist.queues| == 8
  {
    if Free(r, 0, 1) && Fitting(r, [|message|]) then
      && Gained(r, t, 0, 1) && EndsWith(t.log, [Mmio(RegWrite(0x050, 0))])
      && HpFound(Image(m0, t.log), ChainFrom(Image(m0, t.log), r, 0), message)
    else Unmoved(r, t) && (!Free(r, 0, 1) ==> t == r)
  }

  ghost predicate HpFound(m: Memory, hops: seq<Hop>, message: seq<byte>) {
    |hops| == 1 && !hops[0].desc.Writable() && Peek(m, hops[0].desc.addr, hops[0].desc.len) == message
  }

  lemma HpRead(m: Memory, q: Vq, h: HpReq)
    requires q.size > 0 && HpSubmission(h).Valid(8) && Readable(m, q, HpSubmission(h))
    ensures HpFound(m, Walk(m, 0, q.nextDesc % q.size, 256), HpBytes(h))
  {
    var hops := Walk(m, 0, q.nextDesc % q.size, 256);
    assert SeesPart(m, hops[0].desc, HpSubmission(h).parts[0]);
  }

  lemma HpSentAt(m0: Memory, r: Core, h: HpReq)
    requires Shaped(r) && |r.vqs| == 8 && HpSubmission(h).Valid(8) && IdsLeft(r, 1)
    requires LeftBehind(m0, r, Submit(r, HpSubmission(h)), HpSubmission(h))
    ensures HpSent(m0, r, Submit(r, HpSubmission(h)), HpBytes(h))
  {
    HpPieces(h);
    OneNotification(HpSubmission(h));
    if Admits(r, HpSubmission(h)) {
      HpRead(Image(m0, Submit(r, HpSubmission(h)).log), r.vqs[0], h);
    }
  }

  lemma HpSentFrom(m0: Memory, s: Core, acts: seq<Action>, h: HpReq)
    requires Shaped(s) && |s.vqs| == 8 && ValidActions(8, acts) && SmallDeviceRun(acts) && Brief(|acts|)
    requires HpSubmission(h).Valid(8)
    ensures var r := Run(Reset(s), acts);
            HpSent(m0, r, Submit(r, HpSubmission(h)), HpBytes(h))
  {
    HpPieces(h);
    SubmissionTheorem(m0, s, acts, HpSubmission(h));
    IdsAlwaysLeft(s, acts, 1);
    HpSentAt(m0, Run(Reset(s), acts), h);
  }

  /** After any such run, a high-priority message goes out on queue 0 exactly if that queue has a size,
      the descriptors so far and one more stay below it, and the pool has room for the message. */
  lemma HpOutcome(m0: Memory, s: Core, acts: seq<Action>, h: HpReq)
    requires Shaped(s) && |s.vqs| == 8 && ValidActions(8, acts) && SmallDeviceRun(acts) && Brief(|acts|)
    ensures ActionOf(HighPriority(h)).Valid(8) && HpIs(HpBytes(h), h)
    ensures var r := Run(Reset(s), acts);
            HpSent(m0, r, Step(r, ActionOf(HighPriority(h))), HpBytes(h))
  {
    OpsAreActions(HighPriority(h));
    HpCarries(h);
    HpStep(m0, s, acts, h, ActionOf(HighPriority(h)));
  }

  lemma HpStep(m0: Memory, s: Core, acts: seq<Action>, h: HpReq, a: Action)
    requires Shaped(s) && |s.vqs| == 8 && ValidActions(8, acts) && SmallDeviceRun(acts) && Brief(|acts|)
    requires a == DoSubmit(HpSubmission(h)) && a.Valid(8)
    ensures HpSent(m0, Run(Reset(s), acts), Step(Run(Reset(s), acts), a), HpBytes(h))
  {
    StepSubmits(Run(Reset(s), acts), HpSubmission(h));
    HpSentFrom(m0, s, acts, h);
  }
}
