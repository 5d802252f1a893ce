/** The recorder object: a trace file shared with other recorders, and a cached head. */
module TraceRecorders {
  import opened Texts
  import opened Entities
  import EvidenceLog

  /** `trace.jsonl` and `trace-head.json` of one run. */
  class TraceFile {
    var present: bool
    var records: seq<EvidenceLog.Record>
    var ends: seq<nat>
    var mtime: int
    var stored: Option<EvidenceLog.Head>

    ghost function State(): EvidenceLog.Trace
      reads this
    {
      EvidenceLog.Trace(present, records, ends, mtime, stored)
    }

    function Size(): nat
      reads this
    {
      EvidenceLog.SizeAt(ends, |ends|)
    }

    method WriteHead(head: EvidenceLog.Head)
      modifies this`stored
      ensures State() == old(State()).(stored := Some(head))
    {
      stored := Some(head);
    }

    method WriteLine(record: EvidenceLog.Record, lineSize: nat, writtenAt: int)
      modifies this`present, this`records, this`ends, this`mtime
      ensures State() == EvidenceLog.Trace(true, old(records) + [record], old(ends) + [old(Size()) + lineSize],
                                           writtenAt, old(stored))
    {
      present, records, ends, mtime := true, records + [record], ends + [Size() + lineSize], writtenAt;
    }
  }

  class TraceRecorder {
    const file: TraceFile
    const runId: string
    var headCache: Option<EvidenceLog.Head>

    constructor (file: TraceFile, runId: string)
      ensures this.file == file && this.runId == runId && headCache.None?
      ensures EvidenceLog.Laid(file.State()) ==> EvidenceLog.HonestCache(headCache, file.State())
    {
      this.file := file;
      this.runId := runId;
      this.headCache := None;
    }

    method CachedHeadMatches(head: EvidenceLog.Head) returns (matches: bool)
      requires EvidenceLog.Laid(file.State())
      ensures matches == EvidenceLog.CachedMatches(head, file.State())
    {
      return head.size == file.Size() && head.mtime == file.mtime;
    }

    method HeadMatchesTrace(head: EvidenceLog.Head) returns (matches: bool)
      requires EvidenceLog.Laid(file.State())
      ensures matches == EvidenceLog.StoredMatches(head, file.State())
    {
      var sameFile := CachedHeadMatches(head);
      if !sameFile {
        return false;
      }
      if head.count == 0 {
        return file.Size() == 0 && head.hash.None?;
      }
      if file.records == [] {
        return false;
      }
      var last := file.records[|file.records| - 1];
      return Some(last.hash) == head.hash && last.sequence == Some(head.count);
    }

    /** None where the trace does not verify. */
    method LoadVerifiedHead() returns (head: Option<EvidenceLog.Head>)
      requires EvidenceLog.Laid(file.State())
      modifies this`headCache, file`stored
      ensures EvidenceLog.Loaded(file.State(), headCache, head) ==
              EvidenceLog.LoadHead(old(file.State()), old(headCache))
    {
      if !file.present {
        file.stored := None;
        headCache := None;
        return Some(EvidenceLog.Head(0, None, 0, file.mtime));
      }
      if headCache.Some? {
        var matches := CachedHeadMatches(headCache.value);
        if matches {
          return headCache;
        }
      }
      if file.stored.Some? {
        var matches := HeadMatchesTrace(file.stored.value);
        if matches {
          headCache := file.stored;
          return headCache;
        }
      }
      var verification := EvidenceLog.VerifyEvents(file.records);
      if !verification.Valid? {
        return None;
      }
      var rebuilt := EvidenceLog.Head(verification.count, verification.head, file.Size(), file.mtime);
      file.WriteHead(rebuilt);
      headCache := Some(rebuilt);
      return headCache;
    }

    /** None where it raises: for another run's event, or on a trace that does not verify. On a
        valid trace, with a cache that was right at some time, what is appended is the next
        link of the chain. */
    method Append(content: Event, lineSize: nat, writtenAt: int) returns (record: Option<EvidenceLog.Record>)
      requires EvidenceLog.Laid(file.State()) && lineSize > 0
      modifies this`headCache, file
      ensures EvidenceLog.Written(file.State(), headCache, record) ==
              EvidenceLog.Append(old(file.State()), old(headCache), runId, content, lineSize, writtenAt)
      ensures old(EvidenceLog.WellKept(file.State()) && EvidenceLog.HonestCache(headCache, file.State())) ==>
                && EvidenceLog.WellKept(file.State()) && EvidenceLog.HonestCache(headCache, file.State())
                && (record.Some? ==> file.records == old(file.records) + [record.value])
    {
      ghost var before, cache := file.State(), headCache;
      record := AppendLocked(content, lineSize, writtenAt);
      if EvidenceLog.WellKept(before) && EvidenceLog.HonestCache(cache, before) {
        EvidenceLog.AppendKeeps(before, cache, runId, content, lineSize, writtenAt);
      }
    }

    method AppendLocked(content: Event, lineSize: nat, writtenAt: int) returns (record: Option<EvidenceLog.Record>)
      requires EvidenceLog.Laid(file.State()) && lineSize > 0
      modifies this`headCache, file
      ensures EvidenceLog.Written(file.State(), headCache, record) ==
              EvidenceLog.Append(old(file.State()), old(headCache), runId, content, lineSize, writtenAt)
    {
      hide EvidenceLog.LoadHead;
      var head := LoadVerifiedHead();
      if head.None? || RunOf(content) != runId || runId == "" {
        return None;
      }
      var sequence := Some(head.value.count + 1);
      var hash := EvidenceLog.HashOf(EvidenceLog.Body(content, sequence, head.value.hash));
      var event := EvidenceLog.Record(content, sequence, head.value.hash, hash);
      file.WriteLine(event, lineSize, writtenAt);
      var next := EvidenceLog.Head(head.value.count + 1, Some(hash), file.Size(), file.mtime);
      headCache := Some(next);
      if next.count == 1 || next.count % EvidenceLog.CHECKPOINT_INTERVAL == 0 {
        file.WriteHead(next);
      }
      return Some(event);
    }
  }
}
