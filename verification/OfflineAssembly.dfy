/** What repeated, overlapping, gapped and damaged chunks do to the stream being assembled. */
module OfflineAssembly {
  import opened Crc32
  import opened OfflineCrashSafety
  import opened OfflineDisk
  import opened OfflineProtocol
  import opened OfflineRuns
  import opened OfflineStoreSpec

  datatype Call = Call(offset: int, payload: bytes, prefixCrc: bv32)

  function AppendOne(w: World, c: Call): World {
    AfterAppend(w, c.offset, c.payload, c.prefixCrc)
  }

  function ResultOf(w: World, c: Call): AppendResult {
    Append(w.dir, w.mem, c.offset, c.payload, c.prefixCrc)
  }

  function AppendAll(w: World, calls: seq<Call>): World
    decreases |calls|
  {
    if calls == [] then w else AppendAll(AppendOne(w, calls[0]), calls[1..])
  }

  /** The payloads of the calls that were accepted as new, in order. */
  function FreshPayloads(w: World, calls: seq<Call>): bytes
    decreases |calls|
  {
    if calls == [] then []
    else (if ResultOf(w, calls[0]) == Fresh then calls[0].payload else [])
         + FreshPayloads(AppendOne(w, calls[0]), calls[1..])
  }

  /** What `append` accepts, said about the accepted stream instead of the file and the offsets. */
  lemma AppendMeaning(w: World, c: Call)
    requires WorldInv(w) && w.mem.Active?
    ensures ResultOf(w, c) == Fresh <==>
            && c.payload != [] && c.offset == |w.accepted|
            && |w.accepted + c.payload| <= w.mem.manifest.logicalBytes
            && c.prefixCrc == Crc(w.accepted + c.payload, 0)
    ensures ResultOf(w, c) == Duplicate <==>
            && c.payload != [] && 0 <= c.offset && c.offset + |c.payload| <= |w.accepted|
            && c.payload == w.accepted[c.offset..c.offset + |c.payload|]
            && c.prefixCrc == Crc(w.accepted[..c.offset + |c.payload|], 0)
  {
    CrcChain(w.accepted, c.payload, 0);
  }

  /** A call that is not fresh, be it a retransmission or an error, changes nothing at all. */
  lemma NotFreshChangesNothing(w: World, c: Call)
    requires ResultOf(w, c) != Fresh
    ensures AppendOne(w, c) == w
  {
    assert AppendOps(ResultOf(w, c), c.payload) == [];
  }

  lemma AppendOneKeepsSession(w: World, c: Call)
    requires WorldInv(w) && w.mem.Active?
    ensures WorldInv(AppendOne(w, c)) && AppendOne(w, c).mem.Active?
    ensures AppendOne(w, c).mem.manifest == w.mem.manifest
    ensures AppendOne(w, c).mem.durable == w.mem.durable
    ensures AppendOne(w, c).accepted
            == w.accepted + if ResultOf(w, c) == Fresh then c.payload else []
  {
    AppendStep(w, c.offset, c.payload, c.prefixCrc);
    if ResultOf(w, c) != Fresh {
      NotFreshChangesNothing(w, c);
      assert w.accepted + [] == w.accepted;
    }
  }

  lemma {:induction false} AssemblyGrows(w: World, calls: seq<Call>)
    requires WorldInv(w) && w.mem.Active?
    ensures var v := AppendAll(w, calls);
            && WorldInv(v) && v.mem.Active? && v.mem.manifest == w.mem.manifest
            && v.mem.durable == w.mem.durable
            && v.accepted == w.accepted + FreshPayloads(w, calls)
    decreases |calls|
  {
    hide AppendOne, ResultOf, WorldInv;
    if calls == [] {
      assert w.accepted + [] == w.accepted;
    } else {
      AppendOneKeepsSession(w, calls[0]);
      AssemblyGrows(AppendOne(w, calls[0]), calls[1..]);
    }
  }

  /**
   * Gap-free, exactly once: after any calls the part file is what it held before followed by the
   * fresh payloads, and durable <= received <= logical bytes.
   */
  lemma PartFileIsAssembly(w: World, calls: seq<Call>)
    requires WorldInv(w) && w.mem.Active?
    ensures var v := AppendAll(w, calls);
            && v.mem.Active? && v.dir.part.Present?
            && v.dir.part.data == w.dir.part.data + FreshPayloads(w, calls)
            && v.mem.durable == w.mem.durable <= v.mem.received == |v.dir.part.data|
            && v.mem.received <= w.mem.manifest.logicalBytes
            && v.mem.receivedCrc == Crc(v.dir.part.data, 0)
  {
    AssemblyGrows(w, calls);
  }

  /** `c` carries the bytes of `source` at its offset. */
  predicate Slices(c: Call, source: bytes) {
    0 <= c.offset && c.offset + |c.payload| <= |source|
    && c.payload == source[c.offset..c.offset + |c.payload|]
  }

  /** In any order and with any repetition, slices of one stream only ever assemble a prefix of it. */
  lemma {:induction false} AssemblesOnlyTheSource(w: World, calls: seq<Call>, source: bytes)
    requires WorldInv(w) && w.mem.Active? && w.accepted <= source
    requires forall c :: c in calls ==> Slices(c, source)
    ensures AppendAll(w, calls).accepted <= source
    decreases |calls|
  {
    if calls != [] {
      var c := calls[0];
      assert c in calls && forall x :: x in calls[1..] ==> x in calls;
      AppendMeaning(w, c);
      AppendOneKeepsSession(w, c);
      AssemblesOnlyTheSource(AppendOne(w, c), calls[1..], source);
    }
  }

  /** The chunk at the received offset is always taken, and takes the stream forward by its length. */
  lemma NextChunkIsTaken(w: World, source: bytes, length: nat)
    requires WorldInv(w) && w.mem.Active? && w.accepted <= source && |source| == w.mem.manifest.logicalBytes
    requires 0 < length <= |source| - |w.accepted|
    ensures var at := |w.accepted|;
            var c := Call(at, source[at..at + length], Crc(source[..at + length], 0));
            ResultOf(w, c) == Fresh && AppendOne(w, c).accepted == source[..at + length]
  {
    var at := |w.accepted|;
    var c := Call(at, source[at..at + length], Crc(source[..at + length], 0));
    assert w.accepted + c.payload == source[..at + length];
    AppendMeaning(w, c);
  }
}
