/**
 * The persistent dedup and cooldown store (radar/state.py): a map from entry key to a
 * record of when the entry was first and last seen, plus the date of the last digest.
 * The clock is a parameter `now`; a timestamp is an integer number of microseconds, and a
 * record's timestamp is None when it is missing, empty or cannot be parsed.
 */
module State {
  import opened Wrappers

  /** The hex SHA-1 digest of a key base; the digest itself is kept symbolic. */
  datatype Key = Sha1Hex(base: string)

  /** A metadata value stored with a record. */
  datatype MetaValue = MStr(s: string) | MInt(i: int)

  /** One `seen` record: `first_seen`, `last_seen` and the metadata fields written with them. */
  datatype SeenRecord = SeenRecord(firstSeen: Option<int>, lastSeen: Option<int>, meta: map<string, MetaValue>)

  /**
   * The `seen` entry of the state document: absent, a dictionary of records, or some
   * other value (None, a list, a string, ...) that is truthy or not.
   */
  datatype SeenSlot = SeenAbsent | SeenMap(records: map<Key, SeenRecord>) | SeenOther(truthy: bool)

  /**
   * The `telegram` entry: absent, a dictionary whose `last_sent_date` is a string or
   * missing/None, or some other value.
   */
  datatype TelegramSlot = TelegramAbsent | TelegramMap(lastSent: Option<string>) | TelegramOther

  const DayMicros: int := 86400 * 1000000

  // ---------------------------------------------------------------------------
  // The store as values

  /** `state.get("seen") or {}` when that is a dictionary: the records, or none. */
  function Records(slot: SeenSlot): map<Key, SeenRecord> {
    if slot.SeenMap? then slot.records else map[]
  }

  /** `is_seen`; None where the membership test would run on a value that is not a dictionary. */
  function SeenIn(slot: SeenSlot, key: Key): (r: Option<bool>)
    ensures r == Some(true) <==> key in Records(slot)
    ensures r == None <==> slot == SeenOther(true)
  {
    match slot
    case SeenAbsent => Some(false)
    case SeenMap(recs) => Some(key in recs)
    case SeenOther(truthy) => if truthy then None else Some(false)
  }

  /** The record upsert of `mark_seen`: a new key gets `first_seen`; every call sets `last_seen` and overlays `meta`. */
  function Marked(recs: map<Key, SeenRecord>, key: Key, meta: map<string, MetaValue>, now: int): map<Key, SeenRecord> {
    var old_ := if key in recs then recs[key] else SeenRecord(Some(now), None, map[]);
    recs[key := SeenRecord(old_.firstSeen, Some(now), old_.meta + meta)]
  }

  /** `mark_seen` on the slot: it creates the map when absent and fails on any value that is not a dictionary. */
  function MarkSlot(slot: SeenSlot, key: Key, meta: map<string, MetaValue>, now: int): Option<SeenSlot> {
    match slot
    case SeenAbsent => Some(SeenMap(Marked(map[], key, meta, now)))
    case SeenMap(recs) => Some(SeenMap(Marked(recs, key, meta, now)))
    case SeenOther(_) => None
  }

  function Cutoff(keepDays: int, now: int): int {
    now - keepDays * DayMicros
  }

  /** A record expires when its `last_seen` parses and is strictly before the cutoff. */
  predicate Expired(r: SeenRecord, cutoff: int) {
    r.lastSeen.Some? && r.lastSeen.value < cutoff
  }

  function ExpiredKeys(recs: map<Key, SeenRecord>, cutoff: int): set<Key> {
    set k | k in recs && Expired(recs[k], cutoff)
  }

  function Pruned(recs: map<Key, SeenRecord>, cutoff: int): map<Key, SeenRecord> {
    recs - ExpiredKeys(recs, cutoff)
  }

  /** `prune_seen` on the slot: the new slot and the number of records removed. */
  function PruneSlot(slot: SeenSlot, cutoff: int): (SeenSlot, nat) {
    match slot
    case SeenAbsent => (SeenAbsent, 0)
    case SeenMap(recs) => (SeenMap(Pruned(recs, cutoff)), |ExpiredKeys(recs, cutoff)|)
    case SeenOther(truthy) => (if truthy then SeenMap(map[]) else slot, 0)
  }

  /** `get_last_sent_date`: the stored date, or None when there is no dictionary to read it from. */
  function LastSent(slot: TelegramSlot): Option<string> {
    if slot.TelegramMap? then slot.lastSent else None
  }

  /** `set_last_sent_date` on the slot: it creates the dictionary when absent and fails on another value. */
  function SetSent(slot: TelegramSlot, date: string): Option<TelegramSlot> {
    if slot.TelegramOther? then None else Some(TelegramMap(Some(date)))
  }

  /** The first loop of `prune_seen`: the keys of the records that have expired. */
  method CollectExpired(recs: map<Key, SeenRecord>, cutoff: int) returns (toDel: set<Key>)
    ensures toDel == ExpiredKeys(recs, cutoff)
  {
    toDel := {};
    var todo := recs.Keys;
    while todo != {}
      invariant todo <= recs.Keys && toDel <= recs.Keys && toDel !! todo
      invariant forall k :: k in recs && k !in todo ==> (k in toDel <==> Expired(recs[k], cutoff))
      decreases |todo|
    {
      var k :| k in todo;
      var v := recs[k];
      if v.lastSeen.Some? && v.lastSeen.value < cutoff {
        toDel := toDel + {k};
      }
      todo := todo - {k};
    }
  }

  /** The second loop of `prune_seen`: deletes the collected keys one by one. */
  method DeleteKeys(recs: map<Key, SeenRecord>, toDel: set<Key>) returns (m: map<Key, SeenRecord>)
    requires toDel <= recs.Keys
    ensures m == recs - toDel
  {
    m := recs;
    var left := toDel;
    while left != {}
      invariant left <= toDel
      invariant m.Keys == recs.Keys - (toDel - left)
      invariant forall k :: k in m ==> m[k] == recs[k]
      decreases |left|
    {
      var k :| k in left;
      m := m - {k};
      left := left - {k};
    }
  }

  // ---------------------------------------------------------------------------
  // The state object

  class RadarState {
    var version: int
    var seen: SeenSlot
    var telegram: TelegramSlot

    /** The state used when no state file can be read: version 1, nothing seen, nothing sent. */
    constructor Default()
      ensures version == 1 && seen == SeenMap(map[]) && telegram == TelegramMap(None)
    {
      version := 1;
      seen := SeenMap(map[]);
      telegram := TelegramMap(None);
    }

    function IsSeen(key: Key): (r: Option<bool>)
      reads this
      ensures r == SeenIn(seen, key)
    {
      SeenIn(seen, key)
    }

    /** `mark_seen`; `ok` is false where Python raises, and then nothing changes. */
    method MarkSeen(key: Key, meta: map<string, MetaValue>, now: int) returns (ok: bool)
      modifies this
      ensures ok <==> MarkSlot(old(seen), key, meta, now).Some?
      ensures ok ==> seen == MarkSlot(old(seen), key, meta, now).value
      ensures !ok ==> seen == old(seen)
      ensures version == old(version) && telegram == old(telegram)
    {
      if seen.SeenAbsent? {
        seen := SeenMap(map[]);
      }
      if !seen.SeenMap? {
        return false;
      }
      var recs := seen.records;
      if key !in recs {
        recs := recs[key := SeenRecord(Some(now), None, map[])];
      }
      var r := recs[key];
      recs := recs[key := SeenRecord(r.firstSeen, Some(now), r.meta + meta)];
      seen := SeenMap(recs);
      ok := true;
    }

    /** `prune_seen`: collects the expired keys in one loop, deletes them in another. */
    method PruneSeen(keepDays: int, now: int) returns (removed: nat)
      modifies this
      ensures (seen, removed) == PruneSlot(old(seen), Cutoff(keepDays, now))
      ensures version == old(version) && telegram == old(telegram)
    {
      if !seen.SeenMap? {
        if seen == SeenOther(true) {
          seen := SeenMap(map[]);
        }
        return 0;
      }
      var recs := seen.records;
      var cutoff := now - keepDays * DayMicros;
      var toDel := CollectExpired(recs, cutoff);
      var m := DeleteKeys(recs, toDel);
      seen := SeenMap(m);
      removed := |toDel|;
    }

    function GetLastSentDate(): (r: Option<string>)
      reads this
      ensures r == LastSent(telegram)
    {
      LastSent(telegram)
    }

    /** `set_last_sent_date`; `ok` is false where Python raises, and then nothing changes. */
    method SetLastSentDate(date: string) returns (ok: bool)
      modifies this
      ensures ok <==> SetSent(old(telegram), date).Some?
      ensures ok ==> telegram == SetSent(old(telegram), date).value && GetLastSentDate() == Some(date)
      ensures !ok ==> telegram == old(telegram)
      ensures version == old(version) && seen == old(seen)
    {
      if telegram.TelegramOther? {
        return false;
      }
      telegram := TelegramMap(Some(date));
      ok := true;
    }
  }

  // ---------------------------------------------------------------------------
  // Lemmas

  /**
   * After marking, the key is seen; `first_seen` is now only for a new key and otherwise kept;
   * `last_seen` is now; the metadata is overlaid; every other record is unchanged.
   */
  lemma MarkedFacts(recs: map<Key, SeenRecord>, key: Key, meta: map<string, MetaValue>, now: int)
    ensures var m := Marked(recs, key, meta, now);
            key in m &&
            m.Keys == recs.Keys + {key} &&
            m[key].firstSeen == (if key in recs then recs[key].firstSeen else Some(now)) &&
            m[key].lastSeen == Some(now) &&
            (forall f :: f in meta ==> f in m[key].meta && m[key].meta[f] == meta[f]) &&
            (key in recs ==> forall f :: f in recs[key].meta && f !in meta ==> f in m[key].meta && m[key].meta[f] == recs[key].meta[f]) &&
            forall k :: k in recs && k != key ==> k in m && m[k] == recs[k]
  {
  }

  /** Marking the same key twice, with the same metadata and clock, is the same as marking it once. */
  lemma MarkedIdempotent(recs: map<Key, SeenRecord>, key: Key, meta: map<string, MetaValue>, now: int)
    ensures Marked(Marked(recs, key, meta, now), key, meta, now) == Marked(recs, key, meta, now)
  {
    var m := Marked(recs, key, meta, now);
    var r := m[key];
    assert r.meta + meta == r.meta;
  }

  /** `mark_seen` succeeds exactly on an absent or dictionary slot, and the key is seen afterwards. */
  lemma MarkSlotThenSeen(slot: SeenSlot, key: Key, meta: map<string, MetaValue>, now: int)
    ensures MarkSlot(slot, key, meta, now).Some? <==> !slot.SeenOther?
    ensures MarkSlot(slot, key, meta, now).Some? ==> SeenIn(MarkSlot(slot, key, meta, now).value, key) == Some(true)
  {
  }

  /**
   * Pruning deletes exactly the records whose `last_seen` is before the cutoff, keeps the rest
   * unchanged, and the removed count plus the kept count is the old count.
   */
  lemma PrunedFacts(recs: map<Key, SeenRecord>, cutoff: int)
    ensures forall k :: k in Pruned(recs, cutoff) <==> k in recs && !Expired(recs[k], cutoff)
    ensures forall k :: k in Pruned(recs, cutoff) ==> Pruned(recs, cutoff)[k] == recs[k]
    ensures |ExpiredKeys(recs, cutoff)| + |Pruned(recs, cutoff)| == |recs|
  {
    var e := ExpiredKeys(recs, cutoff);
    var p := Pruned(recs, cutoff);
    assert recs.Keys == e + p.Keys;
    assert e * p.Keys == {};
    assert |recs.Keys| == |e + p.Keys|;
  }

  /** A record whose `last_seen` is missing or unparseable, or at or after the cutoff, survives. */
  lemma PruneKeeps(recs: map<Key, SeenRecord>, cutoff: int, k: Key)
    requires k in recs
    requires recs[k].lastSeen == None || recs[k].lastSeen.value >= cutoff
    ensures k in Pruned(recs, cutoff) && Pruned(recs, cutoff)[k] == recs[k]
  {
    PrunedFacts(recs, cutoff);
  }

  /** With the same cutoff, a second prune removes nothing and changes nothing. */
  lemma PruneIdempotent(slot: SeenSlot, cutoff: int)
    ensures PruneSlot(PruneSlot(slot, cutoff).0, cutoff) == (PruneSlot(slot, cutoff).0, 0)
  {
    if slot.SeenMap? {
      var p := Pruned(slot.records, cutoff);
      PrunedFacts(slot.records, cutoff);
      assert ExpiredKeys(p, cutoff) == {};
      assert p - {} == p;
    }
  }

  /** A slot that is present but not a dictionary is reset to an empty map when it is truthy; nothing is removed. */
  lemma PruneOtherSlot(truthy: bool, cutoff: int)
    ensures PruneSlot(SeenOther(truthy), cutoff) == (if truthy then SeenMap(map[]) else SeenOther(truthy), 0)
    ensures SeenIn(PruneSlot(SeenOther(truthy), cutoff).0, Sha1Hex("")).Some?
  {
  }

  /** After pruning, membership is always decided: the slot is never a truthy non-dictionary. */
  lemma PruneDecidesMembership(slot: SeenSlot, cutoff: int, key: Key)
    ensures SeenIn(PruneSlot(slot, cutoff).0, key).Some?
  {
  }

  /** Setting the date makes it the last sent date, except on a slot that is not a dictionary. */
  lemma SetThenGet(slot: TelegramSlot, date: string)
    ensures SetSent(slot, date).Some? <==> !slot.TelegramOther?
    ensures SetSent(slot, date).Some? ==> LastSent(SetSent(slot, date).value) == Some(date)
  {
  }
}
