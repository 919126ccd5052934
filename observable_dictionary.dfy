/**
 * `ObservableBaseDictionary<TKey, TValue>`: a dictionary that logs every
 * upsert and remove in an update queue, serialises its whole state
 * (`ToBytes`/`FromBytes`) and its log (`GetUpdates`/`ApplyUpdates`).
 *
 * The key and value codecs (`WriteKey`/`ReadKey`, `WriteValue`/`ReadValue`)
 * are abstract in the source; here a codec is a pair of functions, and the
 * round-trip law a concrete codec must obey is the predicate `Lawful`.
 * A reader that runs out of bytes throws in the source; here the byte
 * readers return `None`, and the state changes made before the failure stay.
 */
module Observable {
  import opened Common

  /** `Operation` byte of a Set entry in the update log. */
  const SetOperation: byte := 0
  /** `Operation` byte of a Remove entry in the update log. */
  const RemoveOperation: byte := 1

  /** A value codec: `decode` returns the value and the number of bytes it consumed. */
  datatype Codec<!T> = Codec(encode: T -> seq<byte>, decode: seq<byte> -> Option<(T, nat)>)

  /** A codec reads back exactly what it wrote, whatever bytes follow. */
  ghost predicate Lawful<T(!new)>(c: Codec<T>) {
    forall x: T, rest: seq<byte> :: c.decode(c.encode(x) + rest) == Some((x, |c.encode(x)|))
  }

  /** Reads one value from the front of `b`, returning it and the bytes after it. */
  function ReadFront<T>(c: Codec<T>, b: seq<byte>): (r: Option<(T, seq<byte>)>)
    ensures r.Some? ==> |r.value.1| <= |b|
  {
    match c.decode(b)
    case None => None
    case Some((x, n)) => if n <= |b| then Some((x, b[n..])) else None
  }

  lemma ReadFrontLawful<T(!new)>(c: Codec<T>, x: T, rest: seq<byte>)
    requires Lawful(c)
    ensures ReadFront(c, c.encode(x) + rest) == Some((x, rest))
  {
    assert c.decode(c.encode(x) + rest) == Some((x, |c.encode(x)|));
    assert (c.encode(x) + rest)[|c.encode(x)|..] == rest;
  }

  /** `EndianBinaryReader.ReadInt32` at the front of `b`. */
  function ReadInt32Front(b: seq<byte>): Option<(int, seq<byte>)> {
    if |b| < 4 then None else Some((Int32At(b, 0), b[4..]))
  }

  lemma ReadInt32FrontOf(x: int, rest: seq<byte>)
    requires IsInt32(x)
    ensures ReadInt32Front(Int32Bytes(x) + rest) == Some((x, rest))
  {
    Int32RoundTrip(x, rest);
    assert (Int32Bytes(x) + rest)[4..] == rest;
  }

  // ---------------------------------------------------------------------
  // Full-state snapshot: int32 count, then key and value of every entry.
  // ---------------------------------------------------------------------

  function EncodeEntries<K(==, !new), V(!new)>(kc: Codec<K>, vc: Codec<V>, es: seq<(K, V)>): seq<byte> {
    if es == [] then [] else kc.encode(es[0].0) + vc.encode(es[0].1) + EncodeEntries(kc, vc, es[1..])
  }

  lemma {:induction false} EncodeEntriesAppend<K(!new), V(!new)>(kc: Codec<K>, vc: Codec<V>, es: seq<(K, V)>, e: (K, V))
    ensures EncodeEntries(kc, vc, es + [e]) == EncodeEntries(kc, vc, es) + (kc.encode(e.0) + vc.encode(e.1))
  {
    if es == [] {
      assert [e][1..] == [];
    } else {
      assert (es + [e])[1..] == es[1..] + [e];
      EncodeEntriesAppend(kc, vc, es[1..], e);
    }
  }

  /** The bytes `ToBytes` writes for the entries enumerated in order `es`. */
  function SnapshotBytes<K(==, !new), V(!new)>(kc: Codec<K>, vc: Codec<V>, es: seq<(K, V)>): seq<byte> {
    Int32Bytes(|es|) + EncodeEntries(kc, vc, es)
  }

  /**
   * `es` lists exactly the entries of `m` whose keys are in `done`, each
   * once: it has as many entries as `done` has keys (see `EnumeratedOnce`).
   */
  ghost predicate EnumeratesKeys<K(!new), V(!new)>(es: seq<(K, V)>, m: map<K, V>, done: set<K>) {
    && (forall i :: 0 <= i < |es| ==> es[i].0 in m && m[es[i].0] == es[i].1)
    && KeysOf(es) == done
    && |es| == |done|
  }

  /** The keys listed in `es`. */
  ghost function KeysOf<K(!new), V(!new)>(es: seq<(K, V)>): set<K>
    decreases |es|
  {
    if es == [] then {} else KeysOf(es[..|es| - 1]) + {es[|es| - 1].0}
  }

  lemma {:induction false} KeysOfListed<K(!new), V(!new)>(es: seq<(K, V)>, k: K)
    ensures k in KeysOf(es) <==> exists i :: 0 <= i < |es| && es[i].0 == k
    decreases |es|
  {
    if es != [] {
      var front := es[..|es| - 1];
      KeysOfListed(front, k);
      if k in KeysOf(front) {
        var i :| 0 <= i < |front| && front[i].0 == k;
        assert es[i].0 == k;
      }
      if i :| 0 <= i < |es| && es[i].0 == k {
        if i < |front| {
          assert front[i].0 == k;
        }
      }
    }
  }

  lemma {:induction false} KeysOfBound<K(!new), V(!new)>(es: seq<(K, V)>)
    ensures |KeysOf(es)| <= |es|
    decreases |es|
  {
    if es != [] {
      KeysOfBound(es[..|es| - 1]);
    }
  }

  /** As many distinct keys as entries: no key is listed twice. */
  lemma {:induction false} EnumeratedOnce<K(!new), V(!new)>(es: seq<(K, V)>)
    requires |KeysOf(es)| == |es|
    ensures forall i, j :: 0 <= i < j < |es| ==> es[i].0 != es[j].0
    decreases |es|
  {
    if es != [] {
      var front := es[..|es| - 1];
      var last := es[|es| - 1].0;
      KeysOfBound(front);
      assert last in KeysOf(front) ==> KeysOf(es) == KeysOf(front);
      assert |KeysOf(front)| == |front|;
      EnumeratedOnce(front);
      forall i, j | 0 <= i < j < |es| ensures es[i].0 != es[j].0 {
        assert es[i] == front[i];
        if j == |es| - 1 {
          KeysOfListed(front, es[i].0);
        } else {
          assert es[j] == front[j];
        }
      }
    }
  }

  /** `es` lists every entry of `m` exactly once. */
  ghost predicate Enumerates<K(!new), V(!new)>(es: seq<(K, V)>, m: map<K, V>) {
    EnumeratesKeys(es, m, m.Keys)
  }

  lemma EnumerateStep<K(!new), V(!new)>(es: seq<(K, V)>, m: map<K, V>, done: set<K>, k: K)
    requires EnumeratesKeys(es, m, done) && k in m && k !in done
    ensures EnumeratesKeys(es + [(k, m[k])], m, done + {k})
  {
    var es' := es + [(k, m[k])];
    assert es'[..|es'| - 1] == es;
    assert KeysOf(es') == done + {k};
  }

  /** Upserting a sequence of entries, in order. */
  function UpsertAll<K(==, !new), V(!new)>(m: map<K, V>, es: seq<(K, V)>): map<K, V>
    decreases |es|
  {
    if es == [] then m else UpsertAll(m[es[0].0 := es[0].1], es[1..])
  }

  /**
   * The read loop of `FromBytes`: `count` times, a key then a value, each
   * upserted. `false` means the reader failed; the upserts done so far stay.
   */
  function LoadEntries<K(==, !new), V(!new)>(kc: Codec<K>, vc: Codec<V>, m: map<K, V>, b: seq<byte>, count: int): (map<K, V>, bool)
    decreases count
  {
    if count <= 0 then (m, true)
    else match ReadFront(kc, b)
      case None => (m, false)
      case Some((k, afterKey)) =>
        match ReadFront(vc, afterKey)
        case None => (m, false)
        case Some((v, afterValue)) => LoadEntries(kc, vc, m[k := v], afterValue, count - 1)
  }

  /** `FromBytes` on dictionary state `m`: the new state and whether no read failed. */
  function LoadSnapshot<K(==, !new), V(!new)>(kc: Codec<K>, vc: Codec<V>, m: map<K, V>, b: seq<byte>): (map<K, V>, bool) {
    match ReadInt32Front(b)
    case None => (m, false)
    case Some((count, rest)) => LoadEntries(kc, vc, m, rest, count)
  }

  lemma {:induction false} LoadEncodedEntries<K(!new), V(!new)>(kc: Codec<K>, vc: Codec<V>, m: map<K, V>, es: seq<(K, V)>, rest: seq<byte>)
    requires Lawful(kc) && Lawful(vc)
    ensures LoadEntries(kc, vc, m, EncodeEntries(kc, vc, es) + rest, |es|) == (UpsertAll(m, es), true)
    decreases |es|
  {
    if es != [] {
      var (k, v) := es[0];
      var tail := EncodeEntries(kc, vc, es[1..]) + rest;
      assert EncodeEntries(kc, vc, es) + rest == kc.encode(k) + (vc.encode(v) + tail);
      ReadFrontLawful(kc, k, vc.encode(v) + tail);
      ReadFrontLawful(vc, v, tail);
      LoadEncodedEntries(kc, vc, m[k := v], es[1..], rest);
    }
  }

  /** Upserting entries keeps every key and adds the entries' keys; nothing is deleted. */
  lemma {:induction false} UpsertAllKeys<K(!new), V(!new)>(m: map<K, V>, es: seq<(K, V)>)
    ensures UpsertAll(m, es).Keys == m.Keys + set i | 0 <= i < |es| :: es[i].0
    decreases |es|
  {
    if es != [] {
      UpsertAllKeys(m[es[0].0 := es[0].1], es[1..]);
      var tailKeys := set i | 0 <= i < |es[1..]| :: es[1..][i].0;
      var allKeys := set i | 0 <= i < |es| :: es[i].0;
      assert allKeys == {es[0].0} + tailKeys by {
        forall k | k in allKeys ensures k in {es[0].0} + tailKeys {
          var i :| 0 <= i < |es| && es[i].0 == k;
          if i > 0 { assert es[1..][i - 1].0 == k; }
        }
      }
    }
  }

  /** The value a key ends up with after upserting entries whose keys are distinct. */
  lemma {:induction false} UpsertAllDistinct<K(!new), V(!new)>(m: map<K, V>, es: seq<(K, V)>, i: nat)
    requires forall a, b :: 0 <= a < b < |es| ==> es[a].0 != es[b].0
    requires i < |es|
    ensures es[i].0 in UpsertAll(m, es) && UpsertAll(m, es)[es[i].0] == es[i].1
    decreases |es|
  {
    var m' := m[es[0].0 := es[0].1];
    if i == 0 {
      UpsertAllUntouched(m', es[1..], es[0].0);
    } else {
      UpsertAllDistinct(m', es[1..], i - 1);
    }
  }

  lemma {:induction false} UpsertAllUntouched<K(!new), V(!new)>(m: map<K, V>, es: seq<(K, V)>, k: K)
    requires k in m
    requires forall i :: 0 <= i < |es| ==> es[i].0 != k
    ensures k in UpsertAll(m, es) && UpsertAll(m, es)[k] == m[k]
    decreases |es|
  {
    if es != [] {
      UpsertAllUntouched(m[es[0].0 := es[0].1], es[1..], k);
    }
  }

  /**
   * Snapshot round trip: loading the bytes `ToBytes` writes for a dictionary
   * `d` into an empty dictionary rebuilds `d` exactly.
   */
  lemma SnapshotRoundTrip<K(!new), V(!new)>(kc: Codec<K>, vc: Codec<V>, es: seq<(K, V)>, d: map<K, V>)
    requires Lawful(kc) && Lawful(vc)
    requires Enumerates(es, d) && |es| < TwoTo31
    ensures LoadSnapshot(kc, vc, map[], SnapshotBytes(kc, vc, es)) == (d, true)
  {
    ReadInt32FrontOf(|es|, EncodeEntries(kc, vc, es));
    assert EncodeEntries(kc, vc, es) + [] == EncodeEntries(kc, vc, es);
    LoadEncodedEntries(kc, vc, map[], es, []);
    var r := UpsertAll(map[], es);
    UpsertAllKeys(map[], es);
    EnumeratedOnce(es);
    forall k | k in d ensures k in r && r[k] == d[k] {
      KeysOfListed(es, k);
      var i :| 0 <= i < |es| && es[i].0 == k;
      UpsertAllDistinct(map[], es, i);
    }
    forall k | k in r ensures k in d {
      var i :| 0 <= i < |es| && es[i].0 == k;
      KeysOfListed(es, k);
    }
    assert r == d;
  }

  /** On a non-empty dictionary, a snapshot only upserts: no key is ever deleted. */
  lemma SnapshotNeverDeletes<K(!new), V(!new)>(kc: Codec<K>, vc: Codec<V>, m: map<K, V>, b: seq<byte>)
    ensures m.Keys <= LoadSnapshot(kc, vc, m, b).0.Keys
  {
    match ReadInt32Front(b)
    case None =>
    case Some((count, rest)) => LoadEntriesGrows(kc, vc, m, rest, count);
  }

  lemma {:induction false} LoadEntriesGrows<K(!new), V(!new)>(kc: Codec<K>, vc: Codec<V>, m: map<K, V>, b: seq<byte>, count: int)
    ensures m.Keys <= LoadEntries(kc, vc, m, b, count).0.Keys
    decreases count
  {
    if count > 0 {
      match ReadFront(kc, b)
      case None =>
      case Some((k, afterKey)) =>
        match ReadFront(vc, afterKey)
        case None =>
        case Some((v, afterValue)) => LoadEntriesGrows(kc, vc, m[k := v], afterValue, count - 1);
    }
  }

  // ---------------------------------------------------------------------
  // Update log: int32 count, then per entry an operation byte, the key and,
  // for a Set entry only, the value.
  // ---------------------------------------------------------------------

  datatype Update<K, V> = SetEntry(key: K, value: V) | RemoveEntry(key: K)

  /** The effect of one log entry on a dictionary. */
  function Apply<K(==, !new), V(!new)>(m: map<K, V>, u: Update<K, V>): map<K, V> {
    match u
    case SetEntry(k, v) => m[k := v]
    case RemoveEntry(k) => m - {k}
  }

  /** The effect of a whole log, oldest entry first. */
  function Replay<K(==, !new), V(!new)>(m: map<K, V>, log: seq<Update<K, V>>): map<K, V>
    decreases |log|
  {
    if log == [] then m else Replay(Apply(m, log[0]), log[1..])
  }

  lemma {:induction false} ReplayAppend<K(!new), V(!new)>(m: map<K, V>, log: seq<Update<K, V>>, u: Update<K, V>)
    ensures Replay(m, log + [u]) == Apply(Replay(m, log), u)
    decreases |log|
  {
    if log == [] {
      assert [u][1..] == [];
    } else {
      assert (log + [u])[1..] == log[1..] + [u];
      ReplayAppend(Apply(m, log[0]), log[1..], u);
    }
  }

  function EncodeUpdate<K(==, !new), V(!new)>(kc: Codec<K>, vc: Codec<V>, u: Update<K, V>): seq<byte> {
    match u
    case SetEntry(k, v) => [SetOperation] + kc.encode(k) + vc.encode(v)
    case RemoveEntry(k) => [RemoveOperation] + kc.encode(k)
  }

  function EncodeLog<K(==, !new), V(!new)>(kc: Codec<K>, vc: Codec<V>, log: seq<Update<K, V>>): seq<byte> {
    if log == [] then [] else EncodeUpdate(kc, vc, log[0]) + EncodeLog(kc, vc, log[1..])
  }

  lemma {:induction false} EncodeLogAppend<K(!new), V(!new)>(kc: Codec<K>, vc: Codec<V>, log: seq<Update<K, V>>, u: Update<K, V>)
    ensures EncodeLog(kc, vc, log + [u]) == EncodeLog(kc, vc, log) + EncodeUpdate(kc, vc, u)
  {
    if log == [] {
      assert [u][1..] == [];
    } else {
      assert (log + [u])[1..] == log[1..] + [u];
      EncodeLogAppend(kc, vc, log[1..], u);
    }
  }

  /** The bytes `GetUpdates` writes for a log. */
  function UpdatesBytes<K(==, !new), V(!new)>(kc: Codec<K>, vc: Codec<V>, log: seq<Update<K, V>>): seq<byte> {
    Int32Bytes(|log|) + EncodeLog(kc, vc, log)
  }

  /**
   * The read loop of `ApplyUpdates`: an operation byte and a key; a Remove
   * entry deletes the key and carries no value; any other operation byte
   * reads a value and upserts it.
   */
  function ReplayEntries<K(==, !new), V(!new)>(kc: Codec<K>, vc: Codec<V>, m: map<K, V>, b: seq<byte>, count: int): (map<K, V>, bool)
    decreases count
  {
    if count <= 0 then (m, true)
    else if |b| == 0 then (m, false)
    else match ReadFront(kc, b[1..])
      case None => (m, false)
      case Some((k, afterKey)) =>
        if b[0] == RemoveOperation then ReplayEntries(kc, vc, m - {k}, afterKey, count - 1)
        else match ReadFront(vc, afterKey)
          case None => (m, false)
          case Some((v, afterValue)) => ReplayEntries(kc, vc, m[k := v], afterValue, count - 1)
  }

  /** `ApplyUpdates` on dictionary state `m`: the new state and whether no read failed. */
  function ApplyUpdateBytes<K(==, !new), V(!new)>(kc: Codec<K>, vc: Codec<V>, m: map<K, V>, b: seq<byte>): (map<K, V>, bool) {
    match ReadInt32Front(b)
    case None => (m, false)
    case Some((count, rest)) => ReplayEntries(kc, vc, m, rest, count)
  }

  /** One Set entry at the front of the bytes. */
  lemma ReplaySetStep<K(!new), V(!new)>(kc: Codec<K>, vc: Codec<V>, m: map<K, V>, k: K, v: V, tail: seq<byte>, count: int)
    requires Lawful(kc) && Lawful(vc) && count > 0
    ensures ReplayEntries(kc, vc, m, EncodeUpdate(kc, vc, SetEntry(k, v)) + tail, count)
            == ReplayEntries(kc, vc, m[k := v], tail, count - 1)
  {
    var b := EncodeUpdate(kc, vc, SetEntry(k, v)) + tail;
    assert b[1..] == kc.encode(k) + (vc.encode(v) + tail);
    ReadFrontLawful(kc, k, vc.encode(v) + tail);
    ReadFrontLawful(vc, v, tail);
  }

  /** One Remove entry at the front of the bytes. */
  lemma ReplayRemoveStep<K(!new), V(!new)>(kc: Codec<K>, vc: Codec<V>, m: map<K, V>, k: K, tail: seq<byte>, count: int)
    requires Lawful(kc) && count > 0
    ensures ReplayEntries(kc, vc, m, EncodeUpdate(kc, vc, RemoveEntry(k)) + tail, count)
            == ReplayEntries(kc, vc, m - {k}, tail, count - 1)
  {
    var b := EncodeUpdate(kc, vc, RemoveEntry(k)) + tail;
    assert b[1..] == kc.encode(k) + tail;
    ReadFrontLawful(kc, k, tail);
  }

  lemma {:induction false} ReplayEncodedLog<K(!new), V(!new)>(kc: Codec<K>, vc: Codec<V>, m: map<K, V>, log: seq<Update<K, V>>, rest: seq<byte>)
    requires Lawful(kc) && Lawful(vc)
    ensures ReplayEntries(kc, vc, m, EncodeLog(kc, vc, log) + rest, |log|) == (Replay(m, log), true)
    decreases |log|
  {
    if log != [] {
      var tail := EncodeLog(kc, vc, log[1..]) + rest;
      assert EncodeLog(kc, vc, log) + rest == EncodeUpdate(kc, vc, log[0]) + tail;
      match log[0]
      case SetEntry(k, v) =>
        ReplaySetStep(kc, vc, m, k, v, tail, |log|);
        ReplayEncodedLog(kc, vc, m[k := v], log[1..], rest);
      case RemoveEntry(k) =>
        ReplayRemoveStep(kc, vc, m, k, tail, |log|);
        ReplayEncodedLog(kc, vc, m - {k}, log[1..], rest);
    }
  }

  /**
   * Log replay: applying the bytes of a sender's log to a copy of the
   * sender's state from before the log reproduces the sender's current
   * state.
   */
  lemma LogReplayRoundTrip<K(!new), V(!new)>(kc: Codec<K>, vc: Codec<V>, before: map<K, V>, log: seq<Update<K, V>>)
    requires Lawful(kc) && Lawful(vc) && |log| < TwoTo31
    ensures ApplyUpdateBytes(kc, vc, before, UpdatesBytes(kc, vc, log)) == (Replay(before, log), true)
  {
    ReadInt32FrontOf(|log|, EncodeLog(kc, vc, log));
    assert EncodeLog(kc, vc, log) + [] == EncodeLog(kc, vc, log);
    ReplayEncodedLog(kc, vc, before, log, []);
  }

  // ---------------------------------------------------------------------
  // A concrete codec: the big-endian int32 of `ObservableDictStringInt`'s
  // values, which obeys the round-trip law.
  // ---------------------------------------------------------------------

  type int32 = x: int | IsInt32(x)

  function Int32Codec(): Codec<int32> {
    Codec(x => Int32Bytes(x), b => if |b| < 4 then None else Some((Int32At(b, 0) as int32, 4)))
  }

  lemma Int32CodecLawful()
    ensures Lawful(Int32Codec())
  {
    var c := Int32Codec();
    forall x: int32, rest: seq<byte> ensures c.decode(c.encode(x) + rest) == Some((x, |c.encode(x)|)) {
      Int32RoundTrip(x, rest);
    }
  }

  /** The loop of `ToBytes`: each entry of `d`, key then value, in the order the loop picks them. */
  method EncodeAll<K(==, !new), V(!new)>(kc: Codec<K>, vc: Codec<V>, d: map<K, V>) returns (body: seq<byte>, ghost es: seq<(K, V)>)
    ensures Enumerates(es, d) && body == EncodeEntries(kc, vc, es) && |es| == |d|
  {
    var remaining := d.Keys;
    ghost var done: set<K> := {};
    body := [];
    es := [];
    while remaining != {}
      invariant done + remaining == d.Keys && done !! remaining
      invariant EnumeratesKeys(es, d, done) && body == EncodeEntries(kc, vc, es)
      decreases remaining
    {
      var k :| k in remaining;
      var v := d[k];
      EnumerateStep(es, d, done, k);
      EncodeEntriesAppend(kc, vc, es, (k, v));
      body := body + (kc.encode(k) + vc.encode(v));
      es := es + [(k, v)];
      done := done + {k};
      remaining := remaining - {k};
    }
    assert done == d.Keys;
    assert |d.Keys| == |d|;
  }

  // ---------------------------------------------------------------------
  // The dictionary object.
  // ---------------------------------------------------------------------

  class ObservableDictionary<K(==, !new), V(!new)> {
    /** `UnderlyingDictionary`. */
    var dict: map<K, V>
    /** `_updates`: the change log, oldest first. */
    var updates: seq<Update<K, V>>
    const keyCodec: Codec<K>
    const valueCodec: Codec<V>

    /** The constructor copies the default values (maps are values here, so the copy is independent). */
    constructor (keyCodec: Codec<K>, valueCodec: Codec<V>, defaultValues: Option<map<K, V>>)
      ensures this.keyCodec == keyCodec && this.valueCodec == valueCodec
      ensures dict == (if defaultValues.Some? then defaultValues.value else map[])
      ensures updates == []
    {
      this.keyCodec := keyCodec;
      this.valueCodec := valueCodec;
      dict := if defaultValues.Some? then defaultValues.value else map[];
      updates := [];
    }

    /** `SetValue`: a `null` value (`None`) is exactly `Remove(key)`; otherwise an upsert, logged. */
    method SetValue(key: K, value: Option<V>)
      modifies this
      ensures value.None? ==> dict == old(dict) - {key} && updates == old(updates) + [RemoveEntry(key)]
      ensures value.Some? ==> dict == old(dict)[key := value.value] && updates == old(updates) + [SetEntry(key, value.value)]
      ensures dict == Apply(old(dict), updates[|updates| - 1]) && |updates| == |old(updates)| + 1
    {
      if value.None? {
        Remove(key);
        return;
      }
      dict := dict[key := value.value];
      updates := updates + [SetEntry(key, value.value)];
    }

    /** `Remove`: deletes the key (no error when absent) and always logs a Remove entry. */
    method Remove(key: K)
      modifies this
      ensures dict == old(dict) - {key}
      ensures updates == old(updates) + [RemoveEntry(key)]
    {
      dict := dict - {key};
      updates := updates + [RemoveEntry(key)];
    }

    /** `GetValue`: the stored value, or the type's default (`None`) when the key is absent. */
    function GetValue(key: K): (r: Option<V>)
      reads this
      ensures r.Some? <==> key in dict
      ensures r.Some? ==> r.value == dict[key]
    {
      if key in dict then Some(dict[key]) else None
    }

    /** `ClearUpdates`: empties the log; the dictionary is unchanged. */
    method ClearUpdates()
      modifies this
      ensures updates == [] && dict == old(dict)
    {
      updates := [];
    }

    /**
     * `ToBytes`: the count, then every entry in the dictionary's own
     * enumeration order (left unspecified here), so that loading the bytes
     * into an empty dictionary rebuilds this one.
     */
    method ToBytes() returns (b: seq<byte>)
      ensures exists es :: Enumerates(es, dict) && b == SnapshotBytes(keyCodec, valueCodec, es)
      ensures Lawful(keyCodec) && Lawful(valueCodec) && |dict| < TwoTo31 ==>
                LoadSnapshot(keyCodec, valueCodec, map[], b) == (dict, true)
    {
      var body;
      ghost var es;
      body, es := EncodeAll(keyCodec, valueCodec, dict);
      b := Int32Bytes(|dict|) + body;
      if Lawful(keyCodec) && Lawful(valueCodec) && |dict| < TwoTo31 {
        SnapshotRoundTrip(keyCodec, valueCodec, es, dict);
      }
    }

    /**
     * `FromBytes`: reads the count and upserts that many entries into the
     * current state; `ok` is false when the reader ran out of bytes (the
     * source throws), with the upserts already done kept.
     */
    method FromBytes(data: seq<byte>) returns (ok: bool)
      modifies this
      ensures (dict, ok) == LoadSnapshot(keyCodec, valueCodec, old(dict), data)
      ensures updates == old(updates)
    {
      if |data| < 4 {
        return false;
      }
      var count := Int32At(data, 0);
      var pointer := 4;
      var i := 0;
      while i < count
        invariant 4 <= pointer <= |data|
        invariant LoadSnapshot(keyCodec, valueCodec, old(dict), data)
                  == LoadEntries(keyCodec, valueCodec, dict, data[pointer..], count - i)
        invariant updates == old(updates)
        decreases count - i
      {
        var key := ReadFront(keyCodec, data[pointer..]);
        if key.None? {
          return false;
        }
        var afterKey := |data| - |key.value.1|;
        assert data[afterKey..] == key.value.1;
        var value := ReadFront(valueCodec, data[afterKey..]);
        if value.None? {
          return false;
        }
        dict := dict[key.value.0 := value.value.0];
        pointer := |data| - |value.value.1|;
        assert data[pointer..] == value.value.1;
        i := i + 1;
      }
      return true;
    }

    /** `GetUpdates`: the count of log entries, then each entry in log order. */
    method GetUpdates() returns (b: seq<byte>)
      ensures b == UpdatesBytes(keyCodec, valueCodec, updates)
    {
      var log := updates;
      var body: seq<byte> := [];
      var i := 0;
      while i < |log|
        invariant 0 <= i <= |log|
        invariant body == EncodeLog(keyCodec, valueCodec, log[..i])
      {
        var u := log[i];
        var entry := [if u.RemoveEntry? then RemoveOperation else SetOperation] + keyCodec.encode(u.key);
        if !u.RemoveEntry? {
          entry := entry + valueCodec.encode(u.value);
        }
        assert entry == EncodeUpdate(keyCodec, valueCodec, u);
        EncodeLogAppend(keyCodec, valueCodec, log[..i], u);
        assert log[..i + 1] == log[..i] + [u];
        body := body + entry;
        i := i + 1;
      }
      assert log[..|log|] == log;
      b := Int32Bytes(|log|) + body;
    }

    /**
     * `ApplyUpdates`: replays another dictionary's log bytes onto this
     * state, without adding anything to this dictionary's own log.
     */
    method ApplyUpdates(data: seq<byte>) returns (ok: bool)
      modifies this
      ensures (dict, ok) == ApplyUpdateBytes(keyCodec, valueCodec, old(dict), data)
      ensures updates == old(updates)
    {
      var d;
      d, ok := ReadUpdates(keyCodec, valueCodec, dict, data);
      dict := d;
    }
  }

  /** The loop of `ApplyUpdates`, on the entries alone: replays what `data` lists onto `d0`. */
  method ReadUpdates<K(==, !new), V(!new)>(kc: Codec<K>, vc: Codec<V>, d0: map<K, V>, data: seq<byte>) returns (d: map<K, V>, ok: bool)
    ensures (d, ok) == ApplyUpdateBytes(kc, vc, d0, data)
  {
    d := d0;
    if |data| < 4 {
      return d, false;
    }
    var count := Int32At(data, 0);
    var rest := data[4..];
    var i := 0;
    while i < count
      invariant ApplyUpdateBytes(kc, vc, d0, data) == ReplayEntries(kc, vc, d, rest, count - i)
      decreases count - i
    {
      if |rest| == 0 {
        return d, false;
      }
      var operation := rest[0];
      var key := ReadFront(kc, rest[1..]);
      if key.None? {
        return d, false;
      }
      rest := key.value.1;
      if operation == RemoveOperation {
        d := d - {key.value.0};
        i := i + 1;
        continue;
      }
      var value := ReadFront(vc, rest);
      if value.None? {
        return d, false;
      }
      d := d[key.value.0 := value.value.0];
      rest := value.value.1;
      i := i + 1;
    }
    return d, true;
  }

  /**
   * Synchronising two dictionaries: the receiver holds the state the
   * sender's log starts from, the sender makes any sequence of changes
   * (`None` removes), and the receiver applies the sender's log bytes; the
   * two then hold the same entries, and the receiver's own log is untouched.
   */
  method SyncByLog<K(==, !new), V(!new)>(sender: ObservableDictionary<K, V>, receiver: ObservableDictionary<K, V>, changes: seq<(K, Option<V>)>)
    requires sender != receiver
    requires Lawful(sender.keyCodec) && Lawful(sender.valueCodec)
    requires receiver.keyCodec == sender.keyCodec && receiver.valueCodec == sender.valueCodec
    requires Replay(receiver.dict, sender.updates) == sender.dict
    requires |sender.updates| + |changes| < TwoTo31
    modifies sender, receiver
    ensures receiver.dict == sender.dict && receiver.updates == old(receiver.updates)
    ensures |sender.updates| == |old(sender.updates)| + |changes|
  {
    ghost var base := receiver.dict;
    for i := 0 to |changes|
      invariant Replay(base, sender.updates) == sender.dict
      invariant |sender.updates| == |old(sender.updates)| + i
      invariant receiver.dict == base && receiver.updates == old(receiver.updates)
      invariant receiver.keyCodec == sender.keyCodec && receiver.valueCodec == sender.valueCodec
    {
      ghost var log := sender.updates;
      sender.SetValue(changes[i].0, changes[i].1);
      assert sender.updates == log + [sender.updates[|sender.updates| - 1]];
      ReplayAppend(base, log, sender.updates[|sender.updates| - 1]);
    }
    var bytes := sender.GetUpdates();
    LogReplayRoundTrip(sender.keyCodec, sender.valueCodec, base, sender.updates);
    var ok := receiver.ApplyUpdates(bytes);
  }
}
