/** The report of a stress run: the saved files are read again and judged one after the other. */
module StressReport {
  import opened Backlog
  import opened Crc32
  import opened StressStream
  import opened Wrappers

  const SPOOL_HEADER_BYTES := 256
  const RECORD_MAGIC: bv32 := 0x534C_4E4F
  const RAW := 1
  const STRESS := 4
  const UNMEASURED := 0xFFFF_FFFF

  /** What the RAW section parser finds in a record; it refuses by `None` where it is used. */
  datatype RawCounts = RawCounts(imu: nat, mag: nat)

  /** One saved file; `content` is `None` when it cannot be read, `headerSaved` that its JSON twin agrees. */
  datatype StoredFile = StoredFile(content: Option<bytes>, headerSaved: bool, raw: Option<RawCounts>)

  datatype Accepted = Accepted(kind: nat, length: nat, counts: RawCounts, stress: Option<StressRecord>)

  /** `parse_online_spool_header` and `validate_online_completed_record` on a whole record. */
  predicate SpoolOk(data: bytes, session: bv32) {
    && |data| >= SPOOL_HEADER_BYTES
    && WordAt(data, 0) == RECORD_MAGIC && Half(data[4..6]) == 1 && Half(data[6..8]) == SPOOL_HEADER_BYTES
    && (data[13] & 1 != 0 ==> Half(data[14..16]) == 1 && WordAt(data, 32) != 0)
    && WordAt(data, 8) == session
    && WordAt(data, 24) as nat + SPOOL_HEADER_BYTES == |data|
    && WordAt(data, 28) == Crc(data[SPOOL_HEADER_BYTES..], 0)
    && 1 <= data[12] as nat <= 4
  }

  /** The record a file holds, or `None` for every error that makes the report count it as failed. */
  function Judge(file: StoredFile, session: bv32): Option<Accepted> {
    if file.content == None || !SpoolOk(file.content.value, session) then None
    else
      var data := file.content.value;
      var kind := data[12] as nat;
      if kind == STRESS then
        match ParseStress(data[SPOOL_HEADER_BYTES..], session)
        case None => None
        case Some(r) =>
          if r.dataBytes == WordAt(data, 20) as nat then Some(Accepted(kind, |data|, RawCounts(0, 0), Some(r)))
          else None
      else if kind == RAW then
        match file.raw
        case None => None
        case Some(counts) => Some(Accepted(kind, |data|, counts, None))
      else Some(Accepted(kind, |data|, RawCounts(0, 0), None))
  }

  // ----- the running totals -----

  datatype Tally = Tally(
    counts: map<nat, nat>, maxRecord: nat, imu: nat, mag: nat, blocks: nat, total: nat, failed: nat)

  const EMPTY := Tally(map[1 := 0, 2 := 0, 3 := 0, 4 := 0], 1, 0, 0, 0, 0, 0)

  function CountOf(t: Tally, kind: nat): nat {
    if kind in t.counts then t.counts[kind] else 0
  }

  /** One pass of the file loop. */
  function TallyFile(t: Tally, file: StoredFile, session: bv32, rate: Option<nat>): Tally {
    match Judge(file, session)
    case None => t.(failed := t.failed + 1)
    case Some(a) =>
      var counted := t.(counts := t.counts[a.kind := CountOf(t, a.kind) + 1],
                        maxRecord := if a.length > t.maxRecord then a.length else t.maxRecord);
      if !file.headerSaved then counted.(failed := t.failed + 1)
      else
        var seen := counted.(imu := t.imu + a.counts.imu, mag := t.mag + a.counts.mag);
        match a.stress
        case None => seen
        case Some(r) =>
          if r.firstBlock != t.blocks || r.byteOffset != t.total || Some(r.rate) != rate
          then seen.(failed := t.failed + 1)
          else seen.(blocks := t.blocks + r.blockCount, total := t.total + r.dataBytes)
  }

  function TallyAll(files: seq<StoredFile>, session: bv32, rate: Option<nat>): Tally
    decreases |files|
  {
    if files == [] then EMPTY
    else TallyFile(TallyAll(files[..|files| - 1], session, rate), files[|files| - 1], session, rate)
  }

  /** The body of the file loop: an exception keeps what was counted before it. */
  method AddFile(t: Tally, file: StoredFile, session: bv32, rate: Option<nat>) returns (r: Tally)
    ensures r == TallyFile(t, file, session, rate)
  {
    hide Judge;
    var judged := JudgeFile(file, session);
    if judged == None {
      return t.(failed := t.failed + 1);
    }
    var a := judged.value;
    r := t.(counts := t.counts[a.kind := CountOf(t, a.kind) + 1]);
    if a.length > r.maxRecord {
      r := r.(maxRecord := a.length);
    }
    if !file.headerSaved {
      return r.(failed := r.failed + 1);
    }
    r := r.(imu := r.imu + a.counts.imu, mag := r.mag + a.counts.mag);
    if a.stress.Some? {
      var s := a.stress.value;
      if s.firstBlock != r.blocks || s.byteOffset != r.total || Some(s.rate) != rate {
        return r.(failed := r.failed + 1);
      }
      r := r.(blocks := r.blocks + s.blockCount, total := r.total + s.dataBytes);
    }
  }

  method TallyFiles(files: seq<StoredFile>, session: bv32, rate: Option<nat>) returns (t: Tally)
    ensures t == TallyAll(files, session, rate)
  {
    hide TallyFile;
    t := EMPTY;
    var i := 0;
    while i < |files|
      invariant 0 <= i <= |files| && t == TallyAll(files[..i], session, rate)
    {
      assert files[..i + 1][..i] == files[..i];
      t := AddFile(t, files[i], session, rate);
      i := i + 1;
    }
    assert files[..i] == files;
  }

  method JudgeFile(file: StoredFile, session: bv32) returns (a: Option<Accepted>)
    ensures a == Judge(file, session)
  {
    hide SpoolOk, ParseStress;
    if file.content == None {
      return None;
    }
    var data := file.content.value;
    if !SpoolOk(data, session) {
      return None;
    }
    SpoolHasHeader(data, session);
    var kind := data[12] as nat;
    if kind == STRESS {
      var r := ParseStressSource(data[SPOOL_HEADER_BYTES..], session);
      if r == None || r.value.dataBytes != WordAt(data, 20) as nat {
        return None;
      }
      return Some(Accepted(kind, |data|, RawCounts(0, 0), r));
    }
    if kind == RAW {
      return if file.raw == None then None else Some(Accepted(kind, |data|, file.raw.value, None));
    }
    return Some(Accepted(kind, |data|, RawCounts(0, 0), None));
  }

  lemma SpoolHasHeader(data: bytes, session: bv32)
    requires SpoolOk(data, session)
    ensures |data| >= SPOOL_HEADER_BYTES
  {
  }

  // ----- the stream on disk -----

  /** The simulated bytes a file contributes. */
  function StressBytes(file: StoredFile, session: bv32): bytes {
    match Judge(file, session)
    case None => []
    case Some(a) =>
      if a.stress == None then []
      else
        var source := file.content.value[SPOOL_HEADER_BYTES..];
        if HEADER_BYTES + a.stress.value.dataBytes <= |source| then DataArea(source, a.stress.value) else []
  }

  function StreamOnDisk(files: seq<StoredFile>, session: bv32): bytes
    decreases |files|
  {
    if files == [] then []
    else StreamOnDisk(files[..|files| - 1], session) + StressBytes(files[|files| - 1], session)
  }

  /** What holds while no file has failed: the stream read so far is the generated one, without a gap. */
  predicate WholeSoFar(stream: bytes, t: Tally, session: bv32, rate: Option<nat>) {
    && stream == Pattern(session, 0, t.total)
    && (if rate.Some? then t.total == t.blocks * (rate.value / 50) else t.total == t.blocks == 0)
  }

  lemma OneFile(t: Tally, file: StoredFile, session: bv32, rate: Option<nat>, stream: bytes)
    requires WholeSoFar(stream, t, session, rate) && t.failed == 0
    requires TallyFile(t, file, session, rate).failed == 0
    ensures WholeSoFar(stream + StressBytes(file, session), TallyFile(t, file, session, rate), session, rate)
  {
    hide SpoolOk, ParseStress, Pattern;
    var a := Judge(file, session).value;
    if a.stress == None {
      assert stream + [] == stream;
    } else {
      var r := a.stress.value;
      SpoolHasHeader(file.content.value, session);
      AcceptedCarriesTheStream(file.content.value[SPOOL_HEADER_BYTES..], session);
      PatternSplit(session, 0, t.total, r.dataBytes);
      BlocksAdd(t.blocks, r.blockCount, r.rate / 50);
    }
  }

  lemma BlocksAdd(a: nat, b: nat, size: nat)
    ensures a * size + b * size == (a + b) * size
  {
  }

  lemma FailuresStay(t: Tally, file: StoredFile, session: bv32, rate: Option<nat>)
    ensures TallyFile(t, file, session, rate).failed >= t.failed
  {
    hide SpoolOk, ParseStress;
  }

  /** If no file failed, the files hold the stream from its first byte, in order, once. */
  lemma {:induction false} FilesHoldTheStream(files: seq<StoredFile>, session: bv32, rate: Option<nat>)
    requires TallyAll(files, session, rate).failed == 0
    ensures WholeSoFar(StreamOnDisk(files, session), TallyAll(files, session, rate), session, rate)
    ensures forall i :: 0 <= i < |files| ==> Judge(files[i], session).Some? && files[i].headerSaved
    decreases |files|
  {
    hide SpoolOk, ParseStress, Pattern, StressBytes;
    if files == [] {
      EmptyStream(session, rate);
    } else {
      var init, last := files[..|files| - 1], files[|files| - 1];
      FailuresStay(TallyAll(init, session, rate), last, session, rate);
      FilesHoldTheStream(init, session, rate);
      OneFile(TallyAll(init, session, rate), last, session, rate, StreamOnDisk(init, session));
      assert forall i :: 0 <= i < |init| ==> files[i] == init[i];
    }
  }

  lemma EmptyStream(session: bv32, rate: Option<nat>)
    ensures WholeSoFar([], EMPTY, session, rate)
  {
    assert [] == Pattern(session, 0, 0);
  }

  // ----- the verdict -----

  datatype EndCounts = EndCounts(produced: map<nat, nat>, acked: map<nat, nat>)

  datatype Metadata = Metadata(
    session: bv32, rate: Option<nat>, durationS: nat, magReadErrors: nat, sequenceBroken: bool, ended: bool,
    endCounts: Option<EndCounts>, stressAcks: nat)

  datatype Terminal = Terminal(
    rate: nat, stopReason: nat, elapsed: nat, expected: nat, generated: nat, committed: nat, acked: nat,
    failureCode: nat, rejected: nat, pendingBytes: nat, ring: nat, imuPackets: nat, magSamples: nat,
    appStack: nat, workerStack: nat, workerGap: nat, eraseCount: nat, missedDeadlines: nat, latenessMax: nat,
    intervalMax: nat)

  datatype Verdict = Pass | Review | Failed

  predicate MetadataOk(m: Metadata) {
    m.magReadErrors == 0 && !m.sequenceBroken && m.ended
  }

  predicate TerminalOk(m: Metadata, t: Terminal, tally: Tally) {
    && m.rate == Some(t.rate) && t.stopReason == 1
    && t.elapsed / 20 * (t.rate / 50) == t.expected == t.generated == t.committed == tally.total == t.acked
    && t.failureCode == 0 && t.rejected == 0 && t.pendingBytes == 0 && t.ring == 0
    && tally.imu == t.imuPackets && tally.mag == t.magSamples
  }

  predicate SameCount(m: map<nat, nat>, kind: nat, n: nat) {
    kind in m && m[kind] == n
  }

  predicate CountsOk(m: Metadata, tally: Tally) {
    m.endCounts.Some? ==>
      var e := m.endCounts.value;
      && SameCount(e.produced, 1, CountOf(tally, 1)) && SameCount(e.acked, 1, CountOf(tally, 1))
      && SameCount(e.produced, 2, CountOf(tally, 2)) && SameCount(e.acked, 2, CountOf(tally, 2))
      && SameCount(e.produced, 3, CountOf(tally, 3)) && SameCount(e.acked, 3, CountOf(tally, 3))
      && CountOf(tally, 4) == m.stressAcks
  }

  /** Nothing for a person to look at: the run was long enough, measured, and no worse than the baseline. */
  predicate Measured(m: Metadata, t: Terminal, samples: seq<Sample>) {
    && t.elapsed + 1000 >= m.durationS * 1000
    && t.appStack != UNMEASURED && t.workerStack != UNMEASURED && t.workerGap != UNMEASURED
    && samples != [] && samples[0].elapsed <= 2500 && t.elapsed - samples[|samples| - 1].elapsed <= 2500
    && t.eraseCount >= 2
  }

  function AtLeastOne(n: nat): nat {
    if n == 0 then 1 else n
  }

  predicate BaselineOk(m: Metadata, t: Terminal, baseline: Option<Terminal>) {
    m.rate.Some? && m.rate.value != 0 ==>
      && baseline.Some?
      && var b := baseline.value;
         && t.latenessMax <= b.latenessMax && t.intervalMax <= b.intervalMax && t.workerGap <= b.workerGap
         && t.missedDeadlines * AtLeastOne(b.elapsed) <= b.missedDeadlines * AtLeastOne(t.elapsed)
  }

  ghost predicate NoFailure(files: seq<StoredFile>, m: Metadata, samples: seq<Sample>, terminal: Option<Terminal>) {
    var tally := TallyAll(files, m.session, m.rate);
    && tally.failed == 0 && MetadataOk(m) && (terminal.Some? ==> TerminalOk(m, terminal.value, tally))
    && CountsOk(m, tally) && !Unsustainable(samples, tally.maxRecord)
  }

  ghost predicate NoReview(m: Metadata, samples: seq<Sample>, terminal: Option<Terminal>, baseline: Option<Terminal>) {
    terminal.Some? && Measured(m, terminal.value, samples) && NoHole(samples) && BaselineOk(m, terminal.value, baseline)
  }

  method BuildStressReport(files: seq<StoredFile>, m: Metadata, samples: seq<Sample>, terminal: Option<Terminal>,
                           baseline: Option<Terminal>) returns (verdict: Verdict, tally: Tally)
    ensures tally == TallyAll(files, m.session, m.rate)
    ensures verdict == Failed <==> !NoFailure(files, m, samples, terminal)
    ensures verdict == Pass <==> NoFailure(files, m, samples, terminal) && NoReview(m, samples, terminal, baseline)
  {
    hide TallyAll, TerminalOk, CountsOk, Measured, BaselineOk, NoHole, Unsustainable;
    tally := TallyFiles(files, m.session, m.rate);
    var failures, review := tally.failed, 0;
    if !MetadataOk(m) {
      failures := failures + 1;
    }
    if terminal == None {
      review := review + 1;
    } else {
      if !TerminalOk(m, terminal.value, tally) {
        failures := failures + 1;
      }
      if !Measured(m, terminal.value, samples) {
        review := review + 1;
      }
    }
    if !CountsOk(m, tally) {
      failures := failures + 1;
    }
    var unsustainable, complete := AssessBacklog(samples, tally.maxRecord);
    if unsustainable {
      failures := failures + 1;
    }
    if !complete {
      review := review + 1;
    }
    if terminal.Some? && !BaselineOk(m, terminal.value, baseline) {
      review := review + 1;
    }
    verdict := if failures > 0 then Failed else if review > 0 then Review else Pass;
  }

  /**
   * Pass means the whole stream: the data areas of the STRESS files, in file order, are the stream of
   * this session from its first byte on, as many bytes as whole 20 ms blocks elapsed, and the device
   * acknowledged exactly those.
   */
  lemma PassMeansWholeStream(files: seq<StoredFile>, m: Metadata, samples: seq<Sample>, terminal: Option<Terminal>,
                             baseline: Option<Terminal>)
    requires NoFailure(files, m, samples, terminal) && NoReview(m, samples, terminal, baseline)
    ensures m.rate.Some? && terminal.Some?
    ensures var tally := TallyAll(files, m.session, m.rate);
            && StreamOnDisk(files, m.session) == Pattern(m.session, 0, tally.total)
            && tally.total == tally.blocks * (m.rate.value / 50)
            && tally.total == terminal.value.elapsed / 20 * (m.rate.value / 50)
            && tally.total == terminal.value.acked == terminal.value.generated
    ensures forall i :: 0 <= i < |files| ==> Judge(files[i], m.session).Some? && files[i].headerSaved
  {
    hide TallyAll, StreamOnDisk, Judge, Pattern;
    FilesHoldTheStream(files, m.session, m.rate);
  }
}
