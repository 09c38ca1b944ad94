/** What a request with an answer buffer behind it does: sent, exactly if there is room, or not at all. */
module PairOutcomes {
  import opened Bytes
  import opened Guest
  import opened Virtqueue
  import opened Confinement
  import opened Assembly
  import opened Chain
  import opened Counting
  import opened Guards

  lemma StepSubmits(r: Core, sub: Submission)
    requires Shaped(r) && sub.Valid(|r.vqs|)
    ensures Step(r, DoSubmit(sub)) == Submit(r, sub)
  {
  }

  lemma PairPieces(v: u32, slack: u32, request: blob, response: blob)
    requires v < 8 && 2 <= slack <= 5
    ensures var sub := Pair(v, slack, request, response);
            && sub.Valid(8) && ReadableFirst(sub.parts) && Lengths(sub.parts) == [|request|, |response|]
            && sub.named && sub.tail == [] && sub.placed == 2
  {
    assert Lengths(Pair(v, slack, request, response).parts) == [|request|, |response|];
  }

  /** A request and, writable, a cleared buffer of `n` bytes for the answer. */
  ghost predicate PairFound(m: Memory, hops: seq<Hop>, request: seq<byte>, n: nat) {
    && |hops| == 2 && !hops[0].desc.Writable()
    && Peek(m, hops[0].desc.addr, hops[0].desc.len) == request && Cleared(m, hops[1].desc, n)
  }

  lemma PairRead(m: Memory, q: Vq, v: u32, slack: u32, request: blob, n: u32)
    requires q.size > 0 && n < 0x8000_0000 && Readable(m, q, Pair(v, slack, request, Zeros(n)))
    ensures PairFound(m, Walk(m, v, q.nextDesc % q.size, 256), request, n)
  {
    var sub, hops := Pair(v, slack, request, Zeros(n)), Walk(m, v, q.nextDesc % q.size, 256);
    assert SeesPart(m, hops[0].desc, sub.parts[0]) && SeesPart(m, hops[1].desc, sub.parts[1]);
  }

  /** What a request with `n` bytes of answer does to queue `v`: sent with `slack` slots to spare, or not
      at all. */
  ghost predicate PairSent(m0: Memory, r: Core, t: Core, v: u32, slack: nat, request: seq<byte>, n: nat)
    requires v < |r.vqs| == |r.hist.queues|
  {
    if Free(r, v, slack) && Fitting(r, [|request|, n]) then
      && Gained(r, t, v, 2) && EndsWith(t.log, [Mmio(RegWrite(0x050, v))])
      && PairFound(Image(m0, t.log), ChainFrom(Image(m0, t.log), r, v), request, n)
    else Unmoved(r, t) && (!Free(r, v, slack) ==> t == r)
  }

  lemma PairSentAt(m0: Memory, r: Core, v: u32, slack: u32, request: blob, n: u32)
    requires Shaped(r) && v < |r.vqs| && n < 0x8000_0000 && IdsLeft(r, 2)
    requires var sub := Pair(v, slack, request, Zeros(n));
             && sub.Valid(|r.vqs|) && Lengths(sub.parts) == [|request|, n]
             && LeftBehind(m0, r, Submit(r, sub), sub)
    ensures PairSent(m0, r, Submit(r, Pair(v, slack, request, Zeros(n))), v, slack, request, n)
  {
    var sub := Pair(v, slack, request, Zeros(n));
    OneNotification(sub);
    if Admits(r, sub) {
      PairRead(Image(m0, Submit(r, sub).log), r.vqs[v], v, slack, request, n);
    }
  }

  lemma PairOutcome(m0: Memory, s: Core, acts: seq<Action>, v: u32, slack: u32, request: blob, n: u32)
    requires Shaped(s) && |s.vqs| == 8 && ValidActions(8, acts) && SmallDeviceRun(acts) && Brief(|acts|)
    requires v < 8 && 2 <= slack <= 5 && n < 0x8000_0000
    ensures var r, sub := Run(Reset(s), acts), Pair(v, slack, request, Zeros(n));
            sub.Valid(8) && PairSent(m0, r, Submit(r, sub), v, slack, request, n)
  {
    PairPieces(v, slack, request, Zeros(n));
    SubmissionTheorem(m0, s, acts, Pair(v, slack, request, Zeros(n)));
    IdsAlwaysLeft(s, acts, 2);
    PairSentAt(m0, Run(Reset(s), acts), v, slack, request, n);
  }

  lemma PairStep(
    m0: Memory, s: Core, acts: seq<Action>, v: u32, slack: u32, request: blob, n: u32, a: Action)
    requires Shaped(s) && |s.vqs| == 8 && ValidActions(8, acts) && SmallDeviceRun(acts) && Brief(|acts|)
    requires v < 8 && 2 <= slack <= 5 && n < 0x8000_0000 && a == DoSubmit(Pair(v, slack, request, Zeros(n)))
    requires a.Valid(8)
    ensures PairSent(m0, Run(Reset(s), acts), Step(Run(Reset(s), acts), a), v, slack, request, n)
  {
    PairOutcome(m0, s, acts, v, slack, request, n);
    StepSubmits(Run(Reset(s), acts), Pair(v, slack, request, Zeros(n)));
  }
}
