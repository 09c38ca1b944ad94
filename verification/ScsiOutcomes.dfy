/** What each typed scsi op does in any run that is not astronomically long: sent, exactly if there is
    room, with the op's own fields before the device, or not sent at all. */
module ScsiOutcomes {
  import opened Bytes
  import opened Guest
  import opened Virtqueue
  import opened Confinement
  import opened Assembly
  import opened Chain
  import opened Counting
  import opened Guards
  import opened PairOutcomes
  import opened Scsi
  import opened ScsiHarness

  // Commands.

  /** The lengths of the buffers of a command. */
  function CommandLengths(c: Cdb): seq<nat> {
    [52] + (if OutCount(c) > 0 then [OutCount(c)] else []) + [108] + (if InCount(c) > 0 then [InCount(c)] else [])
  }

  lemma CommandPieces(c: ScsiCmd)
    ensures var sub := CommandSubmission(c);
            && sub.Valid(8) && ReadableFirst(sub.parts) && Lengths(sub.parts) == CommandLengths(c.cdb)
            && sub.vq == c.vqIdx % 8 && sub.slack == 5 && sub.named && sub.tail == []
            && sub.placed == |sub.parts| == |CommandLengths(c.cdb)| <= 4
  {
    CommandShape(c);
    CountsAre(c.cdb);
    PartsAt(c);
    assert Lengths(Parts(c)) == CommandLengths(c.cdb);
  }

  /** What a command does to its queue: sent with five slots to spare, or not at all. */
  ghost predicate CommandSent(m0: Memory, r: Core, t: Core, c: ScsiCmd)
    requires |r.vqs| == |r.hist.queues| == 8
  {
    var v := c.vqIdx % 8;
    if Free(r, v, 5) && Fitting(r, CommandLengths(c.cdb)) then
      && Gained(r, t, v, |CommandLengths(c.cdb)|) && EndsWith(t.log, [Mmio(RegWrite(0x050, v))])
      && CommandFound(Image(m0, t.log), ChainFrom(Image(m0, t.log), r, v), c)
      && Published(Image(m0, t.log), r.vqs[v], CommandSubmission(c))
    else Unmoved(r, t) && (!Free(r, v, 5) ==> t == r)
  }

  lemma CommandSentAt(m0: Memory, r: Core, c: ScsiCmd)
    requires Shaped(r) && |r.vqs| == 8 && CommandSubmission(c).Valid(8) && IdsLeft(r, 4)
    requires LeftBehind(m0, r, Submit(r, CommandSubmission(c)), CommandSubmission(c))
    ensures CommandSent(m0, r, Submit(r, CommandSubmission(c)), c)
  {
    CommandPieces(c);
    var sub := CommandSubmission(c);
    OneNotification(sub);
    if Admits(r, sub) {
      CommandRead(Image(m0, Submit(r, sub).log), r.vqs[sub.vq], c);
    }
  }

  /** After any run of fewer than 429 million steps, a command goes out on queue `vqIdx` mod 8 exactly if
      that queue has a size, its descriptors so far and five more stay below it, and the pool has room
      for its buffers. The device then finds its request, data and answer buffers; otherwise no queue
      changes. */
  lemma CommandOutcome(m0: Memory, s: Core, acts: seq<Action>, c: ScsiCmd)
    requires Shaped(s) && |s.vqs| == 8 && ValidActions(8, acts) && SmallDeviceRun(acts) && Brief(|acts|)
    ensures ActionOf(Command(c)).Valid(8)
    ensures var r := Run(Reset(s), acts);
            CommandSent(m0, r, Step(r, ActionOf(Command(c))), c)
  {
    CommandPieces(c);
    StepSubmits(Run(Reset(s), acts), CommandSubmission(c));
    CommandSentFrom(m0, s, acts, c);
  }

  lemma CommandSentFrom(m0: Memory, s: Core, acts: seq<Action>, c: ScsiCmd)
    requires Shaped(s) && |s.vqs| == 8 && ValidActions(8, acts) && SmallDeviceRun(acts) && Brief(|acts|)
    requires CommandSubmission(c).Valid(8)
    ensures var r := Run(Reset(s), acts);
            CommandSent(m0, r, Submit(r, CommandSubmission(c)), c)
  {
    CommandPieces(c);
    SubmissionTheorem(m0, s, acts, CommandSubmission(c));
    IdsAlwaysLeft(s, acts, 4);
    CommandSentAt(m0, Run(Reset(s), acts), c);
  }

  // Task management and asynchronous notification.

  /** The 24 bytes of a task-management request. */
  predicate TmfIs(s: seq<byte>, m: TmfReq) {
    && |s| == 24 && UnLe32(s[..4]) == 0 && UnLe32(s[4..8]) == m.subtype
    && LunIs(s[8..16], m.target, m.lun) && UnLe64(s[16..]) == m.tag
  }

  /** The 16 bytes of an asynchronous-notification request. */
  predicate AnIs(s: seq<byte>, m: AnReq) {
    && |s| == 16 && UnLe32(s[..4]) == (if m.subtype == 1 then 1 else 2)
    && LunIs(s[4..12], m.target, m.lun) && UnLe32(s[12..]) == m.eventRequested
  }

  /** A task-management request goes to queue 0, sent with three slots to spare, with one byte for the
      answer. */
  lemma TmfOutcome(m0: Memory, s: Core, acts: seq<Action>, m: TmfReq)
    requires Shaped(s) && |s.vqs| == 8 && ValidActions(8, acts) && SmallDeviceRun(acts) && Brief(|acts|)
    ensures ActionOf(Tmf(m)).Valid(8)
    ensures var r := Run(Reset(s), acts);
            TmfIs(TmfRequest(m), m) && PairSent(m0, r, Step(r, ActionOf(Tmf(m))), 0, 3, TmfRequest(m), 1)
  {
    TmfBytes(m);
    TmfPair(m);
    PairStep(m0, s, acts, 0, 3, TmfRequest(m), 1, ActionOf(Tmf(m)));
  }

  lemma TmfBytes(m: TmfReq)
    ensures TmfIs(TmfRequest(m), m)
  {
    TmfRoundTrip(m);
  }

  lemma TmfPair(m: TmfReq)
    ensures ActionOf(Tmf(m)) == DoSubmit(Pair(0, 3, TmfRequest(m), Zeros(1)))
  {
    assert Zeros(1) == [0];
  }

  /** An asynchronous-notification request goes to queue 0 in the same way, with five bytes. */
  lemma AnOutcome(m0: Memory, s: Core, acts: seq<Action>, m: AnReq)
    requires Shaped(s) && |s.vqs| == 8 && ValidActions(8, acts) && SmallDeviceRun(acts) && Brief(|acts|)
    ensures ActionOf(An(m)).Valid(8)
    ensures var r := Run(Reset(s), acts);
            AnIs(AnRequest(m), m) && PairSent(m0, r, Step(r, ActionOf(An(m))), 0, 3, AnRequest(m), 5)
  {
    AnBytes(m);
    AnPair(m);
    PairStep(m0, s, acts, 0, 3, AnRequest(m), 5, ActionOf(An(m)));
  }

  lemma AnBytes(m: AnReq)
    ensures AnIs(AnRequest(m), m)
  {
    AnRoundTrip(m);
  }

  lemma AnPair(m: AnReq)
    ensures ActionOf(An(m)) == DoSubmit(Pair(0, 3, AnRequest(m), Zeros(5)))
  {
    assert Zeros(5) == [0, 0, 0, 0, 0];
  }
}
