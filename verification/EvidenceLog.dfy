/** The hash-linked trace, its verification, and the recorder that avoids scanning it. */
module EvidenceLog {
  import opened Texts
  import opened Entities

  /** What an event hash covers: everything in the event but the hash itself. */
  datatype Body = Body(content: Event, sequence: Option<nat>, previous: Option<Hash>)

  /** SHA-256, idealised: a hash is equal only to the hash of the same body. `Stray` is any
      other text an event may carry as its hash. */
  datatype Hash = HashOf(body: Body) | Stray(text: string)

  /** One line of the trace. Events written before the v1 envelope carry no sequence. */
  datatype Record = Record(content: Event, sequence: Option<nat>, previous: Option<Hash>, hash: Hash)

  function EventHash(r: Record): Hash { HashOf(Body(r.content, r.sequence, r.previous)) }

  /** The hash of the last of the first n records. */
  function HashAt(records: seq<Record>, n: nat): Option<Hash>
    requires n <= |records|
  {
    if n == 0 then None else Some(records[n - 1].hash)
  }

  predicate Links(records: seq<Record>, i: nat)
    requires i < |records|
  {
    records[i].previous == HashAt(records, i)
  }

  predicate Chained(records: seq<Record>) {
    forall i | 0 <= i < |records| :: Links(records, i) && EventHash(records[i]) == records[i].hash
  }

  datatype Verification =
    | Valid(count: nat, head: Option<Hash>)
    | PreviousHashMismatch(index: nat)
    | EventHashMismatch(index: nat)

  /** `verify_events`: the chain is valid, or this is its first fault. */
  method VerifyEvents(records: seq<Record>) returns (v: Verification)
    ensures v.Valid? <==> Chained(records)
    ensures v.Valid? ==> v.count == |records| && v.head == HashAt(records, |records|)
    ensures !v.Valid? ==> 1 <= v.index <= |records| && Chained(records[..v.index - 1])
    ensures v.PreviousHashMismatch? <==> !v.Valid? && !Links(records, v.index - 1)
  {
    var previous: Option<Hash> := None;
    for i := 0 to |records|
      invariant Chained(records[..i])
      invariant previous == HashAt(records, i)
    {
      if records[i].previous != previous {
        return PreviousHashMismatch(i + 1);
      }
      if EventHash(records[i]) != records[i].hash {
        return EventHashMismatch(i + 1);
      }
      assert records[..i + 1] == records[..i] + [records[i]];
      previous := Some(records[i].hash);
    }
    assert records[..|records|] == records;
    return Valid(|records|, previous);
  }

  // ----- What a hash pins down -----

  /** The head hash determines the whole log. */
  lemma {:induction false} HeadDeterminesLog(a: seq<Record>, b: seq<Record>)
    requires Chained(a) && Chained(b) && HashAt(a, |a|) == HashAt(b, |b|)
    ensures a == b
  {
    hide Chained, HashAt;
    OnlyEmptyHasNoHead(a);
    OnlyEmptyHasNoHead(b);
    if a != [] && b != [] {
      var m, n := |a| - 1, |b| - 1;
      SameLastRecord(a, b);
      ChainedPrefix(a, m);
      ChainedPrefix(b, n);
      HeadDeterminesLog(a[..m], b[..n]);
      assert a == a[..m] + [a[m]] && b == b[..n] + [b[n]];
    }
  }

  lemma OnlyEmptyHasNoHead(records: seq<Record>)
    ensures HashAt(records, |records|).None? <==> records == []
  {
  }

  lemma SameLastRecord(a: seq<Record>, b: seq<Record>)
    requires Chained(a) && Chained(b) && a != [] && b != [] && HashAt(a, |a|) == HashAt(b, |b|)
    ensures a[|a| - 1] == b[|b| - 1] && HashAt(a, |a| - 1) == HashAt(b, |b| - 1)
  {
    var m, n := |a| - 1, |b| - 1;
    assert Links(a, m) && Links(b, n);
    assert EventHash(a[m]) == a[m].hash == b[n].hash == EventHash(b[n]);
  }

  lemma ChainedPrefix(records: seq<Record>, n: nat)
    requires Chained(records) && n <= |records|
    ensures Chained(records[..n]) && HashAt(records[..n], n) == HashAt(records, n)
  {
    forall i | 0 <= i < n
      ensures Links(records[..n], i) && EventHash(records[..n][i]) == records[..n][i].hash
    {
      assert Links(records, i);
    }
  }

  function Depth(h: Option<Hash>): nat
  {
    if h.None? then 0 else match h.value case HashOf(b) => 1 + Depth(b.previous) case Stray(_) => 0
  }

  lemma {:induction false} DepthIsPosition(records: seq<Record>, n: nat)
    requires Chained(records) && n <= |records|
    ensures Depth(HashAt(records, n)) == n
  {
    if n > 0 {
      DepthIsPosition(records, n - 1);
      assert Links(records, n - 1);
      assert EventHash(records[n - 1]) == records[n - 1].hash;
    }
  }

  /** No two events of a valid chain have the same hash. */
  lemma HashesAreDistinct(records: seq<Record>, i: nat, j: nat)
    requires Chained(records) && i < j < |records|
    ensures records[i].hash != records[j].hash
  {
    DepthIsPosition(records, i + 1);
    DepthIsPosition(records, j + 1);
  }

  // ----- Reading -----

  /** `event_sequence` is the position, wherever it is recorded. */
  predicate Sequenced(records: seq<Record>) {
    forall i | 0 <= i < |records| :: records[i].sequence.Some? ==> records[i].sequence.value == i + 1
  }

  function Contents(records: seq<Record>): (events: seq<Event>)
    ensures |events| == |records| && forall i | 0 <= i < |records| :: events[i] == records[i].content
  {
    seq(|records|, i requires 0 <= i < |records| => records[i].content)
  }

  /** `read_verified_events`; None where it raises. */
  function ReadVerified(runId: string, records: seq<Record>): Option<seq<Event>> {
    if Chained(records) && Sequenced(records) && (forall i | 0 <= i < |records| :: RunOf(records[i].content) == runId)
    then Some(Contents(records)) else None
  }

  // ----- Appending -----

  /** A checkpoint of the trace: what it was taken of, and the file it was taken at. */
  datatype Head = Head(count: nat, hash: Option<Hash>, size: nat, mtime: int)

  /** The trace file with the offset at which each line ends, and the head file beside it. */
  datatype Trace = Trace(present: bool, records: seq<Record>, ends: seq<nat>, mtime: int, stored: Option<Head>)

  function SizeAt(ends: seq<nat>, n: nat): nat
    requires n <= |ends|
  {
    if n == 0 then 0 else ends[n - 1]
  }

  predicate Laid(t: Trace) {
    && |t.ends| == |t.records| && (!t.present ==> t.records == [])
    && (forall i | 0 <= i < |t.ends| :: 0 < t.ends[i])
    && (forall i, j | 0 <= i < j < |t.ends| :: t.ends[i] < t.ends[j])
  }

  /** `_cached_head_matches_trace`. */
  predicate CachedMatches(h: Head, t: Trace)
    requires Laid(t)
  {
    h.size == SizeAt(t.ends, |t.ends|) && h.mtime == t.mtime
  }

  /** `_head_matches_trace`. */
  predicate StoredMatches(h: Head, t: Trace)
    requires Laid(t)
  {
    && CachedMatches(h, t)
    && if h.count == 0 then SizeAt(t.ends, |t.ends|) == 0 && h.hash.None?
       else
         && t.records != []
         && Some(t.records[|t.records| - 1].hash) == h.hash
         && t.records[|t.records| - 1].sequence == Some(h.count)
  }

  /** A recorder's load of the head: what it leaves on disk and in its cache. */
  datatype Loaded = Loaded(trace: Trace, cache: Option<Head>, head: Option<Head>)

  /** `_load_verified_head`; head is None where the trace does not verify. */
  function LoadHead(t: Trace, cache: Option<Head>): Loaded
    requires Laid(t)
  {
    if !t.present then Loaded(t.(stored := None), None, Some(Head(0, None, 0, t.mtime)))
    else if cache.Some? && CachedMatches(cache.value, t) then Loaded(t, cache, cache)
    else if t.stored.Some? && StoredMatches(t.stored.value, t) then Loaded(t, t.stored, t.stored)
    else if !Chained(t.records) then Loaded(t, cache, None)
    else
      var n := |t.records|;
      var rebuilt := Some(Head(n, HashAt(t.records, n), SizeAt(t.ends, n), t.mtime));
      Loaded(t.(stored := rebuilt), rebuilt, rebuilt)
  }

  const CHECKPOINT_INTERVAL := 64

  datatype Written = Written(trace: Trace, cache: Option<Head>, record: Option<Record>)

  function NewRecord(content: Event, head: Head): Record {
    var sequence := Some(head.count + 1);
    Record(content, sequence, head.hash, HashOf(Body(content, sequence, head.hash)))
  }

  /** `TraceRecorder.append`; record is None where it raises. */
  function Append(t: Trace, cache: Option<Head>, runId: string, content: Event, lineSize: nat, mtime: int): (w: Written)
    requires Laid(t) && lineSize > 0
    ensures Laid(w.trace)
  {
    var loaded := LoadHead(t, cache);
    if loaded.head.None? || RunOf(content) != runId || runId == "" then Written(loaded.trace, loaded.cache, None)
    else
      var head := loaded.head.value;
      var record := NewRecord(content, head);
      var size := SizeAt(t.ends, |t.ends|) + lineSize;
      var next := Head(head.count + 1, Some(record.hash), size, mtime);
      var stored :=
        if next.count == 1 || next.count % CHECKPOINT_INTERVAL == 0 then Some(next) else loaded.trace.stored;
      Written(Trace(true, t.records + [record], t.ends + [size], mtime, stored), Some(next), Some(record))
  }

  // ----- The cached head is the scanned head -----

  predicate WellKept(t: Trace) {
    Laid(t) && Chained(t.records) && Sequenced(t.records)
  }

  /** A head that was right for some earlier state of the file. */
  predicate Honest(h: Head, t: Trace)
    requires Laid(t)
  {
    && h.count <= |t.records| && h.size == SizeAt(t.ends, h.count)
    && h.hash == HashAt(t.records, h.count)
  }

  predicate HonestCache(cache: Option<Head>, t: Trace)
    requires Laid(t)
  {
    cache.Some? ==> Honest(cache.value, t)
  }

  /** However old the cache, and whatever the head file holds, the head a recorder appends to
      is the one a full verification of the trace would give. */
  lemma LoadedHeadIsScanned(t: Trace, cache: Option<Head>)
    requires WellKept(t) && HonestCache(cache, t)
    ensures var loaded := LoadHead(t, cache);
            && loaded.head.Some? && loaded.head.value.count == |t.records|
            && loaded.head.value.hash == HashAt(t.records, |t.records|)
            && loaded.trace == t.(stored := loaded.trace.stored) && HonestCache(loaded.cache, t)
  {
    hide Chained, EventHash;
  }

  lemma ChainSnoc(records: seq<Record>, r: Record)
    requires Chained(records) && r.previous == HashAt(records, |records|) && r.hash == EventHash(r)
    requires Sequenced(records) && r.sequence == Some(|records| + 1)
    ensures Chained(records + [r]) && Sequenced(records + [r])
  {
    var longer := records + [r];
    forall i | 0 <= i < |longer|
      ensures Links(longer, i) && EventHash(longer[i]) == longer[i].hash
    {
      assert i < |records| ==> Links(records, i);
    }
  }

  /** A cache that was honest stays so while others append. */
  lemma HonestySurvives(h: Head, t: Trace, cache: Option<Head>, runId: string, content: Event, lineSize: nat,
                        mtime: int)
    requires Laid(t) && Honest(h, t) && lineSize > 0
    ensures Honest(h, Append(t, cache, runId, content, lineSize, mtime).trace)
  {
    hide Chained, EventHash, StoredMatches, CachedMatches;
  }

  /** An append is refused only for another run, and else adds one record, numbered by its
      position and linked to the head of the trace. */
  lemma AppendAdds(t: Trace, cache: Option<Head>, runId: string, content: Event, lineSize: nat, mtime: int)
    requires WellKept(t) && HonestCache(cache, t) && lineSize > 0
    ensures var w := Append(t, cache, runId, content, lineSize, mtime);
            && (w.record.Some? <==> RunOf(content) == runId && runId != "")
            && (w.record.None? ==> w.trace == t.(stored := w.trace.stored) && HonestCache(w.cache, t))
            && (w.record.Some? ==>
                  && w.trace.records == t.records + [w.record.value]
                  && w.record.value.content == content
                  && w.record.value.sequence == Some(|w.trace.records|)
                  && w.record.value.previous == HashAt(t.records, |t.records|)
                  && w.record.value.hash == EventHash(w.record.value)
                  && w.cache == Some(Head(|w.trace.records|, Some(w.record.value.hash),
                                          SizeAt(w.trace.ends, |w.trace.ends|), mtime)))
  {
    hide Chained, LoadHead, Sequenced, HashAt, HonestCache, CachedMatches, StoredMatches, Blank;
    LoadedHeadIsScanned(t, cache);
    var loaded := LoadHead(t, cache);
    assert loaded.head.Some?;
    hide WellKept, Laid;
  }

  lemma NewestIsHonest(t: Trace, h: Head, r: Record)
    requires Laid(t) && t.records != [] && t.records[|t.records| - 1] == r
    requires h.count == |t.records| && h.hash == Some(r.hash) && h.size == SizeAt(t.ends, |t.ends|)
    ensures Honest(h, t)
  {
  }

  lemma CacheOf(h: Head, t: Trace)
    requires Laid(t) && Honest(h, t)
    ensures HonestCache(Some(h), t)
  {
  }

  lemma AppendLaid(t: Trace, cache: Option<Head>, runId: string, content: Event, lineSize: nat, mtime: int)
    requires Laid(t) && lineSize > 0
    ensures Laid(Append(t, cache, runId, content, lineSize, mtime).trace)
  {
    hide Laid;
  }

  lemma AppendKeeps(t: Trace, cache: Option<Head>, runId: string, content: Event, lineSize: nat, mtime: int)
    requires WellKept(t) && HonestCache(cache, t) && lineSize > 0
    ensures var w := Append(t, cache, runId, content, lineSize, mtime);
            WellKept(w.trace) && HonestCache(w.cache, w.trace)
  {
    hide Append, Chained, EventHash, Sequenced, Laid, LoadHead, HashAt, SizeAt;
    AppendAdds(t, cache, runId, content, lineSize, mtime);
    var w := Append(t, cache, runId, content, lineSize, mtime);
    AppendLaid(t, cache, runId, content, lineSize, mtime);
    if w.record.Some? {
      hide HonestCache;
      ChainSnoc(t.records, w.record.value);
      NewestIsHonest(w.trace, w.cache.value, w.record.value);
      assert HonestCache(w.cache, w.trace) by { CacheOf(w.cache.value, w.trace); }
    }
  }

  // ----- Many recorders on one trace -----

  /** Recorders by name, each with its own cache. */
  datatype System = System(trace: Trace, caches: map<nat, Option<Head>>)

  datatype Action =
    | Opens(who: nat)
    | Appends(who: nat, content: Event, lineSize: nat, mtime: int)
    // the head file is lost, left behind by a crash, or overwritten with anything
    | HeadFileBecomes(stored: Option<Head>)

  function Act(s: System, runId: string, a: Action): (s': System)
    requires Laid(s.trace)
    ensures Laid(s'.trace)
  {
    match a
    case Opens(who) => s.(caches := s.caches[who := None])
    case Appends(who, content, lineSize, mtime) =>
      if who !in s.caches || lineSize == 0 then s
      else
        var w := Append(s.trace, s.caches[who], runId, content, lineSize, mtime);
        System(w.trace, s.caches[who := w.cache])
    case HeadFileBecomes(stored) => s.(trace := s.trace.(stored := stored))
  }

  function ActAll(s: System, runId: string, actions: seq<Action>): (s': System)
    requires Laid(s.trace)
    ensures Laid(s'.trace)
  {
    if actions == [] then s else Act(ActAll(s, runId, actions[..|actions| - 1]), runId, actions[|actions| - 1])
  }

  predicate Trustworthy(s: System) {
    WellKept(s.trace) && forall who | who in s.caches :: HonestCache(s.caches[who], s.trace)
  }

  lemma ActKeeps(s: System, runId: string, a: Action)
    requires Trustworthy(s)
    ensures Trustworthy(Act(s, runId, a)) && s.trace.records <= Act(s, runId, a).trace.records
  {
    if a.Appends? && a.who in s.caches && a.lineSize > 0 {
      hide Chained, Append, Sequenced;
      forall who | who in s.caches && s.caches[who].Some?
        ensures Honest(s.caches[who].value, Act(s, runId, a).trace)
      {
        HonestySurvives(s.caches[who].value, s.trace, s.caches[a.who], runId, a.content, a.lineSize, a.mtime);
      }
      AppendAdds(s.trace, s.caches[a.who], runId, a.content, a.lineSize, a.mtime);
      AppendKeeps(s.trace, s.caches[a.who], runId, a.content, a.lineSize, a.mtime);
    }
  }

  /** Over every interleaving of any number of recorders, on a valid trace of any age and
      with any head file: the chain stays valid, each event is numbered by its position,
      nothing is rewritten, and whoever appends next uses the head of a full scan. */
  lemma {:induction false} EveryInterleavingIsValid(s: System, runId: string, actions: seq<Action>)
    requires Trustworthy(s)
    ensures var s' := ActAll(s, runId, actions);
            && Trustworthy(s') && s.trace.records <= s'.trace.records
            && forall who | who in s'.caches ::
                 var head := LoadHead(s'.trace, s'.caches[who]).head;
                 && head.Some? && head.value.count == |s'.trace.records|
                 && head.value.hash == HashAt(s'.trace.records, |s'.trace.records|)
  {
    if actions != [] {
      EveryInterleavingIsValid(s, runId, actions[..|actions| - 1]);
      ActKeeps(ActAll(s, runId, actions[..|actions| - 1]), runId, actions[|actions| - 1]);
    }
    var s' := ActAll(s, runId, actions);
    forall who | who in s'.caches
      ensures var head := LoadHead(s'.trace, s'.caches[who]).head;
              && head.Some? && head.value.count == |s'.trace.records|
              && head.value.hash == HashAt(s'.trace.records, |s'.trace.records|)
    {
      LoadedHeadIsScanned(s'.trace, s'.caches[who]);
    }
  }
}
