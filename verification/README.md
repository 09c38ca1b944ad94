# Verification of the virtio fuzz harnesses and the qtest client

This project models, in Dafny, the guest driver that the in-process virtio fuzz harnesses implement
(blk, net, scsi, fs and gpu), the typed requests they build on top of it, and the stream handling of
the qtest client library, and proves what they keep over whole runs.

## How it is put together

- `Wrappers`, `Bytes`, `Layout`, `Guest`: optional results, fixed-width integers and their byte layouts, records of fields and the
  parser that undoes them, and the outside world: the calls made to the qtest layer, in order, and
  the memory those calls leave behind, over arbitrary initial contents.
- `QueueSize`: the rounding loop and the arithmetic of free-running counters.
- `Virtqueue`: the driver state as a value, and every step as a function on it. `Driver` is the same
  state as a class updated in place; each of its methods is proved to compute one of those steps. A
  history that no step looks at records what was placed and published with counters that never wrap.
- `Pool`, `Confinement`, `Refinement`, `Setup`, `Submission`, `Counting`, `Chain`, `Ordering`: the
  theorems about every run of steps that begins with a reset.
- `Guards`, `CommonOps`, `Effects`, `PairOutcomes`, `NetOutcomes`, `ScsiOutcomes`, `FsOutcomes`,
  `GpuOutcomes`: what each op does, in the fields of the op and in numbers: when it goes out, to which
  queue, what the device then finds byte by byte, and what stays as it was.
- `Blk`: the sequential loop and the two-thread mode. `Scsi`, `Net`, `Fuse`, `Gpu`, `GpuCommands`,
  `GpuDecode`: requests, their parsers and the slot tables. `ScsiHarness`, `NetHarness`, `FsHarness`,
  `GpuHarness` and `Assembly`: the harnesses in place, with loops, packers and dispatch.
- `Lines`, `Replies`, `QmpEvents`, `QtestClient`: the client library.

Theorems about memory speak of the harness's own writes. What the device answers (`QUEUE_NUM_MAX`,
the interrupt status) is a parameter of the op, bounded by 256 only where a theorem says so. Theorems about what a device finds hold of every run of
up to 858 million steps (an iteration of the fuzzer has 256 ops), and of longer runs wherever the
chain is no longer than its queue. Theorems about what one op does hold of every run of up to 429
million steps, in which no 32-bit counter and no synthetic id comes to its wrap.

## What the code does where its comments say otherwise

- The index written to the ring is that of the last descriptor of a chain, although the comments call
  it the head (tests/qtest/fuzz/proto_fuzz_virtio_blk.cc:329-334,
  tests/qtest/fuzz/proto_fuzz_virtio_net.cc:325-332). The model keeps chain start and published index
  apart (`Chain.PublishedIndex`).
- The comment on the cursor command gives 48 bytes; the code sends 56
  (tests/qtest/fuzz/proto_fuzz_virtio_gpu.cc:621-650).
- The two-thread mode is described as collision-free; a Reset in thread B's list moves its allocator
  back to the bottom of the pool, and until that reset thread B's descriptors go to address 0. Both
  are proved with their exact conditions (`Blk.SeparationTheorem`, `Blk.ThreadBConfinement`).
- A 16-byte READ or WRITE of a multiple of 2^23 blocks has no data buffer, because the byte count
  wraps (`Scsi.CommandShape`).

## Model

| member | source | states |
|---|---|---|
| QueueSize.QueueSizeIsGreatest | tests/qtest/fuzz/proto_fuzz_virtio_blk.cc:229-233 | The size that a set-up picks is the greatest power of two not above the requested size (64 if none is asked for) and the device maximum: a power of two fits under it exactly when it fits under both. |
| QueueSize.ClearLowestBit | tests/qtest/fuzz/proto_fuzz_virtio_blk.cc:232 | One pass of the rounding loop (`size &= size - 1`) strictly decreases the size, reaches 0 exactly from a power of two, and otherwise keeps the greatest power of two below. |
| QueueSize.RoundQueueSize | tests/qtest/fuzz/proto_fuzz_virtio_blk.cc:229-233 | The loop terminates with that size for every request and every non-zero maximum. |
| QueueSize.CounterSlot | tests/qtest/fuzz/proto_fuzz_virtio_blk.cc:331-337 | The slot taken from the wrapping 32-bit counter is the slot of the true, unbounded count, past any wrap. |
| QueueSize.DeviceSlotAgrees | tests/qtest/fuzz/proto_fuzz_virtio_blk.cc:331-337 | A device that reduces the 16-bit index modulo the queue size reaches the slot the harness wrote, for every count, if and only if the size is at most 2^16. |
| Virtqueue.DescRoundTrip | tests/qtest/fuzz/proto_fuzz_virtio_blk.cc:313-324 | The 16 bytes of a descriptor decode to its address, length, flags and next index. |
| Bytes.LittleEndian | tests/qtest/fuzz/proto_fuzz_virtio_fs.cc:311-316 | Numbers in requests and rings go least significant byte first. |
| Bytes.BigEndian | tests/qtest/fuzz/proto_fuzz_virtio_scsi.cc:333-342 | Numbers in a CDB go most significant byte first. |
| Bytes.Halves | tests/qtest/fuzz/proto_fuzz_virtio_scsi.cc:341-344 | A 64-bit number is its two 32-bit halves, the low one first in requests and the high one first in a CDB. |
| Virtqueue.AbsoluteTarget | tests/qtest/fuzz/proto_fuzz_virtio_blk.cc:378-396 | For every 64-bit address and every length up to 4096, the whole of a raw write lies in the buffer pool. |
| DriverCore.Driver.ResetIteration | tests/qtest/fuzz/proto_fuzz_virtio_blk.cc:203-219 | Resets status, queues, allocator and buffer map in place and leaves DRAM alone: the state becomes `Reset` of the old one. |
| DriverCore.Driver.SetupQueue | tests/qtest/fuzz/proto_fuzz_virtio_blk.cc:221-245 | Chooses the size and programs the eight registers in order; does nothing for an unknown queue or a device that answers 0; counters are not cleared. |
| DriverCore.Driver.GuestWrite | tests/qtest/fuzz/proto_fuzz_virtio_blk.cc:247-260 | Takes a block, writes at most 4096 bytes and enters the buffer in the map, or changes nothing when the pool is full. |
| DriverCore.Driver.AllocBuf | tests/qtest/fuzz/proto_fuzz_virtio_net.cc:257-265 | Takes and fills a block under a fresh synthetic id; 0 exactly when the allocation failed or the id counter stood at 0. |
| DriverCore.Driver.AllocGpa | tests/qtest/fuzz/proto_fuzz_virtio_gpu.cc:272-277 | Takes a block and returns its address, or 0 and no change when the pool is full. |
| DriverCore.Driver.Place | tests/qtest/fuzz/proto_fuzz_virtio_net.cc:308-338 | Writes one descriptor and, at the end of a chain, the ring entry and the index, and moves the counters: the state becomes `PlaceDesc` of the old one. |
| DriverCore.Driver.AddDescriptor | tests/qtest/fuzz/proto_fuzz_virtio_blk.cc:262-340 | Resolves buffer or register block, cuts the length, and places the descriptor; no change for an unknown queue, an unset queue or an unknown buffer. |
| DriverCore.Driver.WriteAbsolute | tests/qtest/fuzz/proto_fuzz_virtio_blk.cc:378-396 | One guest-memory write at the clamped address, and nothing for empty data. |
| Chain.AddDescSeen | tests/qtest/fuzz/proto_fuzz_virtio_blk.cc:262-340 | In every reachable state, after a VqAddDesc of a mapped buffer, the next slot in memory decodes to that buffer's address, the length cut to the buffer and raised to the minimum, the direction and the link asked for; when the chain ends, the ring entry is this descriptor's index and `avail.idx` has moved by one. |
| Setup.SetupSeen | tests/qtest/fuzz/proto_fuzz_virtio_blk.cc:221-245 | In every reachable state, a set-up leaves the device registers naming the queue, its size and, low and high halves together, the very descriptor table and rings that the driver writes to (0x47000000 plus 0x3000 for each queue before it, and 0x1000 and 0x2000 behind that), with ready written last; the size of that queue is all that changes. |
| Setup.SetupRefused | tests/qtest/fuzz/proto_fuzz_virtio_blk.cc:221-226 | A set-up of a queue that is not there does nothing; one that the device answers with 0 only selects and asks. |
| CommonOps.SizesFollowHistory | tests/qtest/fuzz/proto_fuzz_virtio_blk.cc:221-245 | The size of every queue is the one its latest set-up since the last reset gave it, and 0 if there was none; set-ups answered with 0 do not count. |
| CommonOps.ResetSeen | tests/qtest/fuzz/proto_fuzz_virtio_blk.cc:203-219 | A reset writes 0 and then 3 to the status register and leaves every queue without size and with counters at 0, the allocator at the bottom of the pool, no buffer, and ids from 0x80000000 on. |
| CommonOps.TouchSeen | tests/qtest/fuzz/proto_fuzz_virtio_blk.cc:400-449 | A register op makes exactly its accesses, in order, and nothing else. |
| CommonOps.WriteSeen | tests/qtest/fuzz/proto_fuzz_virtio_blk.cc:247-260 | After a GuestMemWrite memory holds the first at most 4096 bytes of the op's data at the place of the allocator, entered under the op's id and no other; without room for them and 16 bytes more nothing changes. |
| CommonOps.RawSeen | tests/qtest/fuzz/proto_fuzz_virtio_blk.cc:378-396 | A raw write makes one write of the first at most 4096 bytes of its data: at its own address if all of them fit into the pool there, else at the offset into the pool that the address gives modulo the room; nothing else changes. |
| CommonOps.DescOutcome | tests/qtest/fuzz/proto_fuzz_virtio_blk.cc:262-340 | In every reachable state, a VqAddDesc places one descriptor exactly if its queue is there and has a size and it names a register block or a mapped buffer; the next slot then decodes to the address and length of that buffer or block, flags 1 and 2 as asked, and the next index; otherwise nothing changes. |
| CommonOps.PoolAccount | tests/qtest/fuzz/proto_fuzz_virtio_blk.cc:247-255 | In every reachable state the allocator stands behind all blocks taken since the last reset, each with its length and 16 more, down to a multiple of 16. |
| Effects.StepAccesses | tests/qtest/fuzz/proto_fuzz_virtio_blk.cc:203-245 | Each kind of step touches exactly these registers with these values in this order: a set-up ten, a reset two, a delivered submission its notification and tail, the others none. |
| Effects.BuffersStay | tests/qtest/fuzz/proto_fuzz_virtio_blk.cc:247-260 | In every reachable state, a step other than a raw write changes no byte of a buffer that is already there. |
| Effects.MapStays | tests/qtest/fuzz/proto_fuzz_virtio_net.cc:257-265 | Only buffer writes, resets and named submissions with queue room touch the map of buffers and the next id; gpu commands do not. |
| Pool.AllocatorTheorem | tests/qtest/fuzz/proto_fuzz_virtio_scsi.cc:178-186 | After any run from a reset, all buffers are 16-byte aligned, inside the pool and pairwise disjoint, and every descriptor of every queue lies in device registers or inside the bytes reserved for one buffer, whatever ids were overwritten or collide. |
| Pool.StepOk | tests/qtest/fuzz/proto_fuzz_virtio_scsi.cc:252-274 | Every op keeps that invariant, including a zero length raised to 1 and an id that overwrites another buffer's entry. |
| Confinement.RegionsDisjoint | tests/qtest/fuzz/proto_fuzz_virtio_blk.cc:147-154 | Descriptor tables, avail rings, used rings and the buffer pool are pairwise disjoint. |
| Confinement.ConfinementTheorem | tests/qtest/fuzz/proto_fuzz_virtio_blk.cc:247-260 | In any run of any ops with device maxima up to 256, every guest-memory write since the reset lies wholly inside one descriptor table, one avail ring or the pool. |
| Confinement.UsedRingsUntouched | ARCHITECTURE.md:1206-1239 | No byte of a used ring is ever written by the harness, raw writes at any 64-bit address included. |
| Refinement.RefinementTheorem | tests/qtest/fuzz/proto_fuzz_virtio_blk.cc:313-339 | From any memory contents and after any run from a reset, the bytes of each table decode to the last descriptor placed in each slot, the ring bytes to the last index published in each ring slot, and, once something was published, `avail.idx` to the publish count mod 2^16; the counters are the true counts mod 2^32. |
| Refinement.RingBufferTheorem | tests/qtest/fuzz/proto_fuzz_virtio_blk.cc:203-219 | When the queue kept one size, memory holds exactly the last `size` descriptors and published indices, each where its unbounded number puts it. |
| Refinement.PlacementRefines | tests/qtest/fuzz/proto_fuzz_virtio_blk.cc:313-339 | The writes of one placement take the bytes of a queue from the abstract queue to the abstract queue with the descriptor (and the publication) added. |
| SubmissionTheorems.AllOrNothing | tests/qtest/fuzz/proto_fuzz_virtio_scsi.cc:531-656 | For every state and every point of failure, a typed submission either places its whole chain with one ring entry, one index bump and one notification, or leaves every table, ring and index as it was; it goes through exactly when queue and pool have room (`Guards.GuardTheorem` says when that is, in numbers), and without queue room nothing at all changes. |
| Guards.GuardTheorem | tests/qtest/fuzz/proto_fuzz_virtio_scsi.cc:531-536 | After any run of at most 858 million steps, a submission adds its descriptors and one publication to its queue and notifies, if and only if the queue has a size, the descriptors placed on it so far plus the slack stay below that size, the pool holds every buffer with its padding and 16 bytes to spare, and the ids last; otherwise no queue changes, and without queue room nothing does. |
| Guards.SubmissionTheorem | tests/qtest/fuzz/proto_fuzz_virtio_net.cc:308-338 | And when it goes out, the device finds its whole chain and the published index. |
| Guards.BuffersEntered | tests/qtest/fuzz/proto_fuzz_virtio_net.cc:257-265 | The buffers of a submission that goes out are entered under consecutive ids from the next one on, laid one behind the other from where the allocator stood, and no other id changes. |
| Counting.IdsLast | tests/qtest/fuzz/proto_fuzz_virtio_net.cc:257-265 | In a run of at most 429 million steps the synthetic ids never come to 0. |
| SubmissionTheorems.AllocSucceeds | tests/qtest/fuzz/proto_fuzz_virtio_scsi.cc:178-186 | All parts of a request are allocated if and only if the pool has room for them with their padding and no synthetic id of 0 comes up. |
| Chain.ChainShape | tests/qtest/fuzz/proto_fuzz_virtio_scsi.cc:221-250 | Following `next` from the start slot while NEXT is set visits exactly the descriptors of the request, in order, in consecutive slots, each with its own bytes, length and direction. |
| Chain.LinkedIff | tests/qtest/fuzz/proto_fuzz_virtio_scsi.cc:630-652 | A delivered chain can be followed in memory if and only if it is no longer than the queue. |
| Chain.NoLapWithoutWrap | tests/qtest/fuzz/proto_fuzz_virtio_scsi.cc:531-545 | The guard of a submission rules out a longer chain unless the 32-bit counter wraps in the guard's own sum. |
| Counting.ShortRunsFit | tests/qtest/fuzz/proto_fuzz_virtio_scsi.cc:531-545 | In every run of at most 858 million steps from a reset, counters move by at most five a step and no guard wraps, so a submission that has room is no longer than its queue. |
| Chain.PublishedIndex | tests/qtest/fuzz/proto_fuzz_virtio_blk.cc:326-337 | The ring entry is the index of the chain's last descriptor, not of its head; it names the slot where the walk ends and equals the start index exactly for a chain of one. |
| Chain.DeviceView | tests/qtest/fuzz/proto_fuzz_virtio_net.cc:308-338 | After any run short enough that no counter wraps, and after any longer one if the chain is no longer than the queue, a device finds the chain of a submission that goes through, readable part first, with all its bytes, and the published index as above. |
| Chain.SubmitKeepsBuffers | tests/qtest/fuzz/proto_fuzz_virtio_net.cc:257-265 | A submission, delivered or not, changes no byte of any buffer allocated before it. |
| Ordering.OrderingTheorem | tests/qtest/fuzz/proto_fuzz_virtio_net.cc:308-338 | In any run of typed submissions between resets, with queues set up again to other sizes up to 256: no descriptor slot and no ring slot is written twice, every published index is below the queue size, and at every prefix of the writes each ring entry below `avail.idx` is already written, and so is every descriptor up to the one it names, the whole chain with it (sections 2.7.13.1 to 2.7.13.3 of VIRTIO 1.2). |
| Ordering.StepOrderly | tests/qtest/fuzz/proto_fuzz_virtio_net.cc:404-450 | Each op keeps that invariant from any state that has it. |
| Blk.RunSequential | tests/qtest/fuzz/proto_fuzz_virtio_blk.cc:493-500 | The single-list loop resets and executes the first 256 ops: the final state is that run. |
| Blk.SeparationTheorem | tests/qtest/fuzz/proto_fuzz_virtio_blk.cc:491-542 | All buffers the two threads ever allocate are disjoint, for every schedule, if and only if not both: thread A allocates, and thread B allocates after a reset of its own. |
| Blk.ThreadsCollide | tests/qtest/fuzz/proto_fuzz_virtio_blk.cc:518-541 | One buffer of thread A and a reset and one buffer of thread B: two op lists whose buffers overlap. |
| Blk.TwoThreadBuffersApart | tests/qtest/fuzz/proto_fuzz_virtio_blk.cc:518-541 | Without a Reset in thread B's list, no buffer of A overlaps one of B, with A cut at 256 ops and B repeated in full passes. |
| Blk.ThreadBStarts | tests/qtest/fuzz/proto_fuzz_virtio_blk.cc:519-527 | Thread B starts at 0x47786000, the middle of the pool, with four queues without address, size or descriptors. |
| Blk.OpAdvance | tests/qtest/fuzz/proto_fuzz_virtio_blk.cc:247-260 | One op moves the allocator by at most 4112 bytes, and by exactly the padded length of the buffer it takes. |
| Blk.TwoThreadIsolation | tests/qtest/fuzz/proto_fuzz_virtio_blk.cc:518-541 | If thread B's list has no reset, then under every interleaving of the two threads' writes, every range below the middle of the pool that none of B's raw writes is aimed at holds what thread A alone would leave there: queues, and A's half of the pool. |
| Blk.QueueIsolation | tests/qtest/fuzz/proto_fuzz_virtio_blk.cc:518-541 | If thread B adds no descriptor after a reset, then, whatever raw writes and resets it makes, the whole queue area holds under every interleaving what thread A alone would leave there. |
| Blk.TwoThreadRefinement | tests/qtest/fuzz/proto_fuzz_virtio_blk.cc:518-541 | So, for such a thread B, thread A's queues decode from the interleaved memory as in the sequential mode. |
| Blk.ThreadBConfinement | tests/qtest/fuzz/proto_fuzz_virtio_blk.cc:524-532 | Thread B writes only inside the harness's regions if and only if its list does not, before its first reset, set up a queue with a non-zero maximum and then add to it a descriptor that is exotic or names an id written before while its pool had room; that descriptor goes to address 0. |
| Blk.ThreadBEscapes | tests/qtest/fuzz/proto_fuzz_virtio_blk.cc:524-532 | Two ops with which thread B writes outside every region: set up a queue, add a descriptor of a register block. |
| Scsi.CdbRoundTrip | tests/qtest/fuzz/proto_fuzz_virtio_scsi.cc:333-518 | For every typed CDB, decoding the packed bytes gives the input fields under the packers' masks. |
| Scsi.CdbHasNothingElse | tests/qtest/fuzz/proto_fuzz_virtio_scsi.cc:350-508 | The 32 bytes hold the flags of the op and the service action, and zeros wherever no field lies. |
| Scsi.RequestRoundTrip | tests/qtest/fuzz/proto_fuzz_virtio_scsi.cc:548-570 | The 52-byte request parses to LUN, tag, attributes, a zero byte and the CDB. |
| Scsi.CommandShape | tests/qtest/fuzz/proto_fuzz_virtio_scsi.cc:600-652 | The optional data buffers exist exactly when the CDB announces a non-zero length; for 16-byte reads and writes the 32-bit product with 512 is non-zero exactly when the block count is no multiple of 2^23; no readable part follows a writable one. |
| Scsi.TmfRoundTrip | tests/qtest/fuzz/proto_fuzz_virtio_scsi.cc:660-690 | A task-management request parses to its type, subtype, LUN and tag. |
| Scsi.AnRoundTrip | tests/qtest/fuzz/proto_fuzz_virtio_scsi.cc:692-721 | An asynchronous-notification request parses to its type (1 only if asked for), LUN and event mask. |
| ScsiHarness.PackCdb | tests/qtest/fuzz/proto_fuzz_virtio_scsi.cc:350-518 | Every packer fills the zeroed CDB in place with exactly the bytes of its layout, returns the announced lengths, and leaves the rest of the request alone. |
| ScsiHarness.SubmitScsiCmd | tests/qtest/fuzz/proto_fuzz_virtio_scsi.cc:531-656 | Packs, stages up to four buffers, chains them and notifies: the state becomes `Submit` of the old one. |
| ScsiHarness.Dispatch | tests/qtest/fuzz/proto_fuzz_virtio_scsi.cc:725-806 | Each op takes the driver from its state to the step of its action. |
| ScsiHarness.CommandSeen | tests/qtest/fuzz/proto_fuzz_virtio_scsi.cc:531-656 | In every reachable state and for every CDB, raw ones included, a device that follows the chain of a command reads 52 bytes with its LUN, tag, attributes and CDB; if data goes out, exactly the op's data, cut or zero-padded to the announced length (a number for each kind of CDB, at most 4096); and finds behind it, writable and cleared, 108 bytes for the response and, if data comes in, the announced number of bytes. |
| ScsiOutcomes.CommandOutcome | tests/qtest/fuzz/proto_fuzz_virtio_scsi.cc:531-656 | After any run, a command goes out on queue `vqIdx` mod 8 exactly if that queue has a size, its descriptors so far and five more stay below it, and the pool has room; the device then finds the chain above, and otherwise no queue changes. |
| ScsiOutcomes.TmfOutcome | tests/qtest/fuzz/proto_fuzz_virtio_scsi.cc:660-690 | A task-management request goes to queue 0 with three slots to spare, under the same condition, with one byte for the answer. |
| ScsiOutcomes.AnOutcome | tests/qtest/fuzz/proto_fuzz_virtio_scsi.cc:692-721 | An asynchronous-notification request goes to queue 0 in the same way, with five bytes for the answer. |
| Net.HeaderRoundTrip | tests/qtest/fuzz/proto_fuzz_virtio_net.cc:378-392 | The 12 header bytes hold each field of the packet at its offset, under its width. |
| NetHarness.PacketSeen | tests/qtest/fuzz/proto_fuzz_virtio_net.cc:404-450 | After any net run, a device that follows the chain of a packet finds exactly the header and, unless the packet is empty, exactly its payload cut at 9018 bytes, or, for a tagged packet of 14 bytes or more, the first 9018 bytes of the payload with 0x8100 and the TCI behind its addresses; and nothing writable. |
| NetOutcomes.TxOutcome | tests/qtest/fuzz/proto_fuzz_virtio_net.cc:404-450 | After any net run, a packet goes out on queue `vqIdx` mod 8 exactly if that queue has a size, its descriptors so far and two more stay below it, and the pool has room; the device then finds header and frame, and otherwise no queue changes. |
| Net.TagRoundTrip | tests/qtest/fuzz/proto_fuzz_virtio_net.cc:404-430 | Taking the VLAN tag out of a tagged frame gives back the frame, the ethertype 0x8100 and the low 16 bits of the TCI. |
| Net.CtrlShape | tests/qtest/fuzz/proto_fuzz_virtio_net.cc:556-587 | A control command is a valid chain: class and command, the payload if there is any, then the acknowledgement byte, the only writable part. |
| Net.RssRoundTrip | tests/qtest/fuzz/proto_fuzz_virtio_net.cc:717-744 | An RSS payload always survives the 2048-byte cap and parses to its fields, with a table of exactly mask + 1 entries and at most 40 key bytes (section 5.1.6.5.7 of VIRTIO 1.2). |
| Net.MacTableRoundTrip | tests/qtest/fuzz/proto_fuzz_virtio_net.cc:556-571 | A MAC table reads back as its two lists, addresses cut or padded to 6 bytes, if and only if it has at most 340 addresses in total (section 5.1.6.5.2 of VIRTIO 1.2). |
| NetHarness.SlotsFollowHistory | tests/qtest/fuzz/proto_fuzz_virtio_net.cc:647-698 | Over any run of ops from a reset: the control queue is always 2, 4 or 6, as the last pair count says; a VLAN delete by slot carries the VID of the latest add to that slot since its last slot-delete or reset, or 0. |
| NetHarness.NetRunIsCoreRun | tests/qtest/fuzz/proto_fuzz_virtio_net.cc:746-859 | A run of net ops is a run of the driver core, so the theorems on core runs hold of it. |
| NetHarness.SubmissionsReadableFirst | tests/qtest/fuzz/proto_fuzz_virtio_net.cc:404-450 | Every typed net op, in every state, is a valid submission with no readable part after a writable one (section 2.7.4.2 of VIRTIO 1.2). |
| NetHarness.ControlSeen | tests/qtest/fuzz/proto_fuzz_virtio_net.cc:556-587 | After any net run, a device that follows the chain of a control command finds the class and command bytes, exactly the payload sent, and one writable byte. |
| NetOutcomes.CtrlOutcome | tests/qtest/fuzz/proto_fuzz_virtio_net.cc:509-744 | After any net run, each control op says this class, this command and this payload, worked out from its own fields and the earlier ops, to this queue; it goes out exactly if the descriptors so far and three more stay below the size and the pool has room; the device then finds it, and otherwise no queue changes. |
| NetOutcomes.MacsFollowHistory | tests/qtest/fuzz/proto_fuzz_virtio_net.cc:604-644 | The MAC address and the address lists the harness remembers are those of the latest ops since the reset. |
| NetHarness.BuildMacTable | tests/qtest/fuzz/proto_fuzz_virtio_net.cc:622-644 | The two appending loops build count and addresses of both lists. |
| NetHarness.BuildRss | tests/qtest/fuzz/proto_fuzz_virtio_net.cc:717-744 | The appends, table resized and key cut, build a payload within the 2048-byte cap that parses to the fields of the op. |
| NetHarness.SubmitTx | tests/qtest/fuzz/proto_fuzz_virtio_net.cc:404-450 | Sends header and frame, or the header alone for an empty frame: the state becomes `Submit` of the old one. |
| NetHarness.SubmitCtrl | tests/qtest/fuzz/proto_fuzz_virtio_net.cc:556-587 | Sends two or three descriptors for a control command: the state becomes `Submit` of the old one. |
| NetHarness.Harness.Dispatch | tests/qtest/fuzz/proto_fuzz_virtio_net.cc:746-859 | Each op takes the whole harness, slot arrays included, from its state to `NetStep` of it. |
| Fuse.MessageRoundTrip | tests/qtest/fuzz/proto_fuzz_virtio_fs.cc:337-549 | Every typed FUSE message parses back to its opcode, ids and fixed arguments, with the header `len` equal to the message length, all padding 0, every name region the first at most 256 bytes ending in NUL, and setxattr's name and value recovered from `len` and the value length alone. |
| Fuse.RawRoundTrip | tests/qtest/fuzz/proto_fuzz_virtio_fs.cc:530-549 | A raw message keeps opcode and ids and at most 4096 bytes of payload. |
| Fuse.HpRoundTrip | tests/qtest/fuzz/proto_fuzz_virtio_fs.cc:575-598 | A high-priority message parses to its opcode, unique and nodeid, zero ids, and the arguments its payload of at most 256 bytes spells; its header gives its length. |
| FsHarness.BuildMessage | tests/qtest/fuzz/proto_fuzz_virtio_fs.cc:318-330 | Appending the arguments behind 40 reserved bytes and patching the header in at the end gives the message whose header knows its length. |
| FsHarness.SubmitFuse | tests/qtest/fuzz/proto_fuzz_virtio_fs.cc:337-568 | Chooses queue and answer size, builds and sends the message: the state becomes `Submit` of the old one. |
| FsHarness.SubmitFuseHp | tests/qtest/fuzz/proto_fuzz_virtio_fs.cc:575-598 | Sends one readable descriptor on queue 0: the state becomes `Submit` of the old one. |
| FsHarness.RequestSeen | tests/qtest/fuzz/proto_fuzz_virtio_fs.cc:557-568 | In every reachable state, a device that follows the chain of a request reads a message that parses to that request, or for a raw one keeps its opcode and the first 4096 bytes of its payload, and finds behind it cleared room: 1024 bytes, or what the op asks for between 16 and 4096. |
| FsOutcomes.RequestOutcome | tests/qtest/fuzz/proto_fuzz_virtio_fs.cc:337-568 | After any run, a request goes out on queue `vqIdx` mod 8, or 2 for the first two, exactly if the descriptors so far and three more stay below its size and the pool has room; the device then finds message and answer room, and otherwise no queue changes. |
| FsOutcomes.HpOutcome | tests/qtest/fuzz/proto_fuzz_virtio_fs.cc:575-598 | A high-priority message goes out alone on queue 0 exactly if the descriptors so far and one more stay below its size and the pool has room. |
| Gpu.SlotsFollowHistory | tests/qtest/fuzz/proto_fuzz_virtio_gpu.cc:405-446 | Over any op sequence before the id counter wraps: a slot holds the id of the latest create recorded there and not since unreferenced, or 0; live ids are pairwise distinct and below the next id, which is one more than the number of creates since the reset, failed ones included, so none is given out twice. |
| Gpu.GpuRunIsCoreRun | tests/qtest/fuzz/proto_fuzz_virtio_gpu.cc:846-931 | A run of gpu ops is a run of the driver core, so the theorems on core runs hold of it. |
| Gpu.RepeatIsCycle | tests/qtest/fuzz/proto_fuzz_virtio_gpu.cc:471-484 | Writing a unit again and again, the last time cut short, gives byte j mod |unit| at position j. |
| GpuCommands.UseCarriesLatestId | tests/qtest/fuzz/proto_fuzz_virtio_gpu.cc:533-598 | The bytes of a command that uses a slot parse, to the last byte, to fields among which the resource id is the one the slot's history gives. |
| GpuDecode.CommandRoundTrip | tests/qtest/fuzz/proto_fuzz_virtio_gpu.cc:405-447 | From the bytes alone, a device that insists on zero padding decodes every command to the command code, each field of the op in its place, the resource id of its slot, the fence in force and as many entries as the bytes announce, with nothing left over. |
| GpuDecode.EntriesTile | tests/qtest/fuzz/proto_fuzz_virtio_gpu.cc:486-499 | The scatter-gather entries that a device decodes from an attach or blob command, by the count in the bytes, are as many as asked for between 1 and 16, each as long as asked for between 1 (a blob: 16) and 4096, entry i that many times i behind the base: together exactly the region. |
| GpuCommands.BackingIsFilled | tests/qtest/fuzz/proto_fuzz_virtio_gpu.cc:464-484 | Before anything is sent, byte j of the region is fill[j mod |fill|] of an attach with a fill, and 0 without a fill and for every blob, for every j below the two clamped numbers multiplied. |
| GpuCommands.SendingKeepsBacking | tests/qtest/fuzz/proto_fuzz_virtio_gpu.cc:363-393 | Sending the command changes no byte of the region: it still holds the op's fill. |
| GpuCommands.BackingApart | tests/qtest/fuzz/proto_fuzz_virtio_gpu.cc:272-277 | The request and response buffers lie wholly behind the region. |
| GpuCommands.CommandSeen | tests/qtest/fuzz/proto_fuzz_virtio_gpu.cc:363-393 | After any gpu run from a reset, when a command goes out, a device that follows its chain reads exactly the command and finds 408, 1056 or 24 cleared bytes for the response, and the backing region, if there is one, still holds the op's fill. |
| GpuOutcomes.CommandOutcome | tests/qtest/fuzz/proto_fuzz_virtio_gpu.cc:363-393 | After any gpu run, a command goes out on queue 1 for the cursor and 0 otherwise exactly if the descriptors so far and two more stay below its size and the pool has room for region, command and response; the device then decodes the fence in force, the command and the ranges, the interrupt is read and acknowledged, and otherwise no queue changes; a region is filled if and only if it fits. |
| GpuOutcomes.FencesFollowHistory | tests/qtest/fuzz/proto_fuzz_virtio_gpu.cc:656-660 | The fence in force is the one of the latest SetFence since the reset, and none if that cleared it. |
| GpuOutcomes.ShapesFollowHistory | tests/qtest/fuzz/proto_fuzz_virtio_gpu.cc:405-430 | A slot remembers width, height and format of the latest create recorded there. |
| GpuOutcomes.BackingsFollowHistory | tests/qtest/fuzz/proto_fuzz_virtio_gpu.cc:455-506 | A backing slot remembers place, size and resource slot of the latest attach that got its memory. |
| GpuOutcomes.FatesFollowPool | tests/qtest/fuzz/proto_fuzz_virtio_gpu.cc:466-467 | Which calls got their backing memory: exactly those whose region and 16 bytes more fitted into the pool. |
| GpuHarness.WriteRepeated | tests/qtest/fuzz/proto_fuzz_virtio_gpu.cc:471-484 | The fill loop makes exactly the writes that fill the region. |
| GpuHarness.LeftFills | tests/qtest/fuzz/proto_fuzz_virtio_gpu.cc:471-484 | Those writes are the pieces of the repeated unit, back to back. |
| GpuHarness.PackEntries | tests/qtest/fuzz/proto_fuzz_virtio_gpu.cc:486-499 | The loop writes the entries into the sized request string: fixed fields, then all entries. |
| GpuHarness.SubmitCmd | tests/qtest/fuzz/proto_fuzz_virtio_gpu.cc:363-393 | Stages and clears, chains two descriptors, notifies and acknowledges: the state becomes `Submit` of the old one. |
| GpuHarness.Harness.Dispatch | tests/qtest/fuzz/proto_fuzz_virtio_gpu.cc:846-931 | Each op takes the whole harness, tables and fence state included, from its state to `GpuStep` of it; a plain create fills its slot even if nothing was sent, a blob create only if it got memory. |
| Lines.FramingIsSplitting | tests/qtest/libqtest.c:720-748 | Taking lines off a stream yields its split at newlines if and only if no newline comes after a NUL, so for every NUL-free stream; in any case the lines are the front of the split. |
| Lines.SplitUnique | tests/qtest/libqtest.c:743-747 | A stream has only one split at newlines; a list of lines that rebuilds its front is the front of that split. |
| Lines.NulStops | tests/qtest/libqtest.c:726 | A stream with a NUL in front of its newline: a complete line arrived and none comes out. |
| Lines.DrainRebuilds | tests/qtest/libqtest.c:743-747 | Lines taken off and the leftover rebuild the bytes received. |
| QtestClient.Client.RecvLine | tests/qtest/libqtest.c:720-748 | For any chunks, interruptions included: returns the bytes before the first newline and keeps what follows it, reads nothing while the buffer holds a line, and aborts exactly when the connection ends without one. |
| QtestClient.Client.LinesInOrder | tests/qtest/libqtest.c:720-748 | At any time, the lines handed out are the front of the split of everything the connection delivers, and the rest is all still there. |
| QtestClient.ArrivingIs | tests/qtest/libqtest.c:720-741 | What the connection delivers is the data of all receive calls before the first that fails or brings nothing; interrupted calls do no harm. |
| Replies.CutRejoins | tests/qtest/libqtest.c:758 | The words of a line hold no space and, put back together with single spaces, give the line. |
| Replies.CutOfUnwords | tests/qtest/libqtest.c:758 | Words without spaces, put together with single spaces, come apart again as they were. |
| Replies.NotificationMeans | tests/qtest/libqtest.c:761-781 | A line `IRQ`, word, number is a good notification exactly if the number is one from 0 to 255; it raises that interrupt for the word `raise`, lowers it for any other, and leaves the rest. |
| Replies.ReplyMeans | tests/qtest/libqtest.c:783-788 | A line is an acceptable reply exactly if its first word is OK and it has the expected number of words. |
| Replies.RspMeaning | tests/qtest/libqtest.c:750-791 | A command succeeds exactly when the first line that is no IRQ notification is an acceptable OK line and all notifications before it are well formed; it returns that line's words, leaves what follows, and each interrupt level is what the last of those notifications naming it says, or as before. |
| QtestClient.Client.RspArgs | tests/qtest/libqtest.c:750-791 | The loop with its redo computes that outcome and updates the level array in place. |
| QmpEvents.ReceiveKeepsTimeline | tests/qtest/libqtest.c:814-832 | Without a callback, receiving a reply loses no event and keeps their order. |
| QmpEvents.ReceiveIsFirstReply | tests/qtest/libqtest.c:814-832 | A command returns the first reply among the unread messages; the events before it go to the stash in order unless the callback takes them, what follows stays unread; without a reply there is no result. |
| QmpEvents.CommandsAnswered | tests/qtest/libqtest.c:814-832 | In every session that completes, each command is answered with the first reply among what no earlier call has read, and everything up to it is read then: replies come in stream order, none twice. |
| QmpEvents.EventRefIsFirst | tests/qtest/libqtest.c:945-959 | Asking the stash returns its first event of that name and drops what was before it; without one the stash is emptied; nothing is read. |
| QmpEvents.EventWaitReads | tests/qtest/libqtest.c:961-978 | A wait that finds nothing in the stash reads up to the first event of that name and leaves what follows unread. |
| QmpEvents.WaitIsEarliest | tests/qtest/libqtest.c:961-978 | A wait returns exactly when an event of that name is stashed or still to come; it returns the earliest one, drops exactly what came before it and keeps the rest in order. |
| QmpEvents.EventOrder | tests/qtest/libqtest.c:945-978 | However commands and waits are mixed, a session that completes hands out exactly the events the waits alone would pick from the events in order of arrival, and leaves the same ones. |
| QtestClient.Client.QmpReceive | tests/qtest/libqtest.c:814-832 | Computes that answer in place: result, stash and unread messages. |
| QtestClient.Client.EventByName | tests/qtest/libqtest.c:945-959 | Pops the stash up to the first event of that name, or empties it. |
| QtestClient.Client.WaitForEvent | tests/qtest/libqtest.c:961-978 | Looks through the stash, then reads on up to the event, dropping everything before it. |

## Left out

- Ops that only touch device registers (feature negotiation, config space, queue select, status, kick, wait, register corruption) are one action that performs any list of register accesses; which registers they touch, and the access width, is not modelled.
- Host-side ops (link state, console resize) and `flush_events`: they change nothing in the harness.
- Device behaviour, device writes to guest memory, and the effect of descriptors that point at register blocks.
- Two threads run as interleavings of their single writes to shared memory; weaker memory behaviour inside one write is not modelled.
- Chain.ChainShape: asks that the chain be no longer than the queue; `Chain.LinkedIff` gives the exact condition, and `Counting.ShortRunsFit` and `Chain.NoLapWithoutWrap` say when the guard provides it.
- Blk.TwoThreadIsolation: states nothing for a thread B that resets, because B then allocates from the bottom of the pool and shares it with A; `Blk.QueueIsolation` gives what is left of it. A range that a raw write of B is aimed at is one that B may change.
- `encode_lun` drops bits 6 and 7 of a LUN, so a request parses to the encoded LUN and not to the number.
- `qemu_strtol` is a parameter of the reply functions; the text of a failed assertion is not modelled, only that the program ends.
- A receive or wait that never returns is an absent result once the finite list of messages still to arrive is used up; `g_assert` on the event name being a string is not modelled.
- Descriptor tables longer than 4 KB: the device maximum is taken to be at most 256 where regions must not overlap.
- The balloon, console, input, sound and vsock harnesses repeat the same core with one- or two-descriptor requests and would only add easy members.
- The mock vhost-user backend, QEMU process handling, signal hooks, the other QMP wrappers, and the corpus generators.
- Request strings that the harness sizes in advance and overwrites are overwritten for the gpu's entry lists and for the SCSI request; the fixed-size gpu requests are laid out field after field.
