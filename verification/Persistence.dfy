/** Resumable entries in the browser's localStorage. Another page may have written to the
    same namespace, so a row can hold anything. */
module Persistence {
  import opened Wrappers
  import opened UploadTypes
  import MatchKey
  import Origin

  const STORAGE_KEY_PREFIX: string := "dioxus-tus:v1:"
  const STORAGE_TTL_MS: Millis := 86_400_000.0

  datatype ResumableEntry = ResumableEntry(
    matchKey: string,
    endpoint: string,
    filename: string,
    fileSize: nat,
    lastModified: MatchKey.LastModified,
    uploadUrl: string,
    bytesUploaded: nat,
    storedAt: Millis)

  /** A stored text: one that parses as an entry, or one that does not. */
  datatype Text = Json(entry: ResumableEntry) | Junk(text: string)

  function FromJson(t: Text): Option<ResumableEntry> {
    if t.Json? then Some(t.entry) else None
  }

  /** serde_json prints a non-finite number as `null` and then refuses to read it back. */
  function ToJson(e: ResumableEntry): (t: Text)
    ensures FromJson(t) == (if e.lastModified.Finite? then Some(e) else None)
  {
    if e.lastModified.Finite? then Json(e) else Junk("last_modified: null")
  }

  // ---------------------------------------------------------------- keys

  /** UTF-8. */
  function Encode(s: string): MatchKey.Bytes {
    if s == [] then [] else EncodeChar(s[0]) + Encode(s[1..])
  }

  function EncodeChar(c: char): MatchKey.Bytes {
    var n := c as int;
    if n < 0x80 then [n]
    else if n < 0x800 then [0xC0 + n / 64, 0x80 + n % 64]
    else if n < 0x1_0000 then [0xE0 + n / 4096, 0x80 + n / 64 % 64, 0x80 + n % 64]
    else [0xF0 + n / 262144 % 8, 0x80 + n / 4096 % 64, 0x80 + n / 64 % 64, 0x80 + n % 64]
  }

  function KeyFor(endpoint: string, file: File): string {
    MatchKey.MatchKeyOf(Encode(endpoint), Encode(file.name), |file.content|, file.modified)
  }

  function StorageKey(matchKey: string): string {
    STORAGE_KEY_PREFIX + matchKey
  }

  predicate InNamespace(key: string) {
    STORAGE_KEY_PREFIX <= key
  }

  function Stripped(key: string): string
    requires InNamespace(key)
  {
    key[|STORAGE_KEY_PREFIX|..]
  }

  lemma StripsBack(key: string, matchKey: string)
    ensures InNamespace(StorageKey(matchKey)) && Stripped(StorageKey(matchKey)) == matchKey
    ensures InNamespace(key) ==> StorageKey(Stripped(key)) == key
  {
  }

  // ---------------------------------------------------------------- what a reader may see

  type Rows = map<string, Text>

  /** Neither expired nor dated in the future. */
  predicate Fresh(e: ResumableEntry, now: Millis) {
    0.0 <= now - e.storedAt <= STORAGE_TTL_MS
  }

  /** An entry that may be offered for `endpoint` at time `now`. */
  predicate Offerable(e: ResumableEntry, endpoint: string, now: Millis) {
    Fresh(e, now) && e.endpoint == endpoint && Origin.OriginMatches(endpoint, e.uploadUrl)
  }

  /** The answer of `get`. */
  function GetEntry(rows: Rows, endpoint: string, matchKey: string, now: Millis): Option<ResumableEntry> {
    var key := StorageKey(matchKey);
    if key !in rows then None else
      var entry := FromJson(rows[key]);
      if entry.None? || entry.value.matchKey != matchKey || !Offerable(entry.value, endpoint, now) then None
      else entry
  }

  /** Rows that eviction drops: malformed, expired or dated in the future. */
  predicate Doomed(t: Text, now: Millis) {
    FromJson(t).None? || !Fresh(FromJson(t).value, now)
  }

  function Evicted(rows: Rows, now: Millis): Rows {
    map key | key in rows && !(InNamespace(key) && Doomed(rows[key], now)) :: rows[key]
  }

  /** Rows that `scan` drops: it leaves a stale row alone when its key disagrees. */
  predicate Swept(key: string, t: Text, now: Millis) {
    InNamespace(key) && Doomed(t, now)
    && (FromJson(t).Some? ==> FromJson(t).value.matchKey == Stripped(key))
  }

  function SweptRows(rows: Rows, now: Millis): Rows {
    map key | key in rows && !Swept(key, rows[key], now) :: rows[key]
  }

  /** Part of a scan: the rows left, and the entries offered, once these keys were visited. */
  function SweptAt(rows: Rows, keys: seq<string>, now: Millis): Rows {
    map key | key in rows && !(key in keys && Swept(key, rows[key], now)) :: rows[key]
  }

  function OffersAt(rows: Rows, endpoint: string, keys: seq<string>, now: Millis): seq<ResumableEntry>
    requires forall i | 0 <= i < |keys| :: InNamespace(keys[i])
  {
    if keys == [] then [] else
      var last := keys[|keys| - 1];
      var found := GetEntry(rows, endpoint, Stripped(last), now);
      OffersAt(rows, endpoint, keys[..|keys| - 1], now) + (if found.Some? then [found.value] else [])
  }

  ghost predicate Offered(rows: Rows, endpoint: string, keys: seq<string>, now: Millis, out: seq<ResumableEntry>) {
    && (forall e :: e in out <==>
          StorageKey(e.matchKey) in keys && GetEntry(rows, endpoint, e.matchKey, now) == Some(e))
    && (forall i, j | 0 <= i < j < |out| :: out[i].matchKey != out[j].matchKey)
  }

  /** The entries offered at these keys are exactly what `get` answers for them, each once. */
  lemma {:induction false} OffersAre(rows: Rows, endpoint: string, keys: seq<string>, now: Millis)
    requires forall i | 0 <= i < |keys| :: InNamespace(keys[i])
    requires forall i, j | 0 <= i < j < |keys| :: keys[i] != keys[j]
    ensures Offered(rows, endpoint, keys, now, OffersAt(rows, endpoint, keys, now))
  {
    if keys != [] {
      var n := |keys| - 1;
      OffersAre(rows, endpoint, keys[..n], now);
      assert keys == keys[..n] + [keys[n]];
      StripsBack(keys[n], Stripped(keys[n]));
      OnlyKeyOf(keys[n]);
    }
  }

  lemma VisitOne(rows: Rows, endpoint: string, keys: seq<string>, key: string, now: Millis)
    requires key in rows && key !in keys && InNamespace(key) && forall i | 0 <= i < |keys| :: InNamespace(keys[i])
    ensures var before := SweptAt(rows, keys, now);
            && key in before && before[key] == rows[key]
            && SweptAt(rows, keys + [key], now) == (if Swept(key, rows[key], now) then before - {key} else before)
    ensures var found := GetEntry(SweptAt(rows, keys, now), endpoint, Stripped(key), now);
            OffersAt(rows, endpoint, keys + [key], now) ==
            OffersAt(rows, endpoint, keys, now) + (if found.Some? then [found.value] else [])
  {
    assert (keys + [key])[..|keys|] == keys;
    StripsBack(key, Stripped(key));
  }

  lemma AllVisited(rows: Rows, endpoint: string, keys: seq<string>, now: Millis)
    requires forall k :: k in keys <==> k in rows && InNamespace(k)
    requires forall i, j | 0 <= i < j < |keys| :: keys[i] != keys[j]
    ensures SweptAt(rows, keys, now) == SweptRows(rows, now)
    ensures var out := OffersAt(rows, endpoint, keys, now);
            && (forall e :: e in out <==> GetEntry(rows, endpoint, e.matchKey, now) == Some(e))
            && (forall i, j | 0 <= i < j < |out| :: out[i].matchKey != out[j].matchKey)
  {
    OffersAre(rows, endpoint, keys, now);
    var out := OffersAt(rows, endpoint, keys, now);
    forall e: ResumableEntry | GetEntry(rows, endpoint, e.matchKey, now) == Some(e) ensures e in out {
      StripsBack(StorageKey(e.matchKey), e.matchKey);
    }
  }

  lemma OnlyKeyOf(key: string)
    requires InNamespace(key)
    ensures forall e: ResumableEntry :: StorageKey(e.matchKey) == key ==> e.matchKey == Stripped(key)
  {
    forall e: ResumableEntry | StorageKey(e.matchKey) == key ensures e.matchKey == Stripped(key) {
      StripsBack(key, e.matchKey);
    }
  }

  // ---------------------------------------------------------------- the store

  class Storage {
    const available: bool
    /** What the browser's quota says to each write in turn; it is not ours to know. */
    const accepts: nat -> bool
    var rows: Rows
    var writes: nat

    ghost predicate Valid()
      reads this
    {
      !available ==> rows == map[]
    }

    constructor (available: bool, accepts: nat -> bool, rows: Rows)
      ensures Valid()
      ensures this.available == available && this.accepts == accepts && this.rows == if available then rows else map[]
    {
      this.available, this.accepts, this.writes := available, accepts, 0;
      this.rows := if available then rows else map[];
    }

    /** The next `put` will succeed, at its first write or after making room. */
    predicate WillAccept()
      reads this`writes
    {
      available && (accepts(writes) || accepts(writes + 1))
    }

    /** No write is ever refused. */
    ghost predicate Generous() {
      available && forall n :: accepts(n)
    }

    /** The namespace's key names in whatever order the browser lists them. */
    method NamespaceKeys() returns (keys: seq<string>)
      ensures forall k :: k in keys <==> k in rows && InNamespace(k)
      ensures forall i, j | 0 <= i < j < |keys| :: keys[i] != keys[j]
    {
      var rest := rows.Keys;
      keys := [];
      while rest != {}
        invariant forall k :: k in keys <==> k in rows && k !in rest && InNamespace(k)
        invariant forall i, j | 0 <= i < j < |keys| :: keys[i] != keys[j]
        decreases rest
      {
        var k :| k in rest;
        rest := rest - {k};
        if InNamespace(k) {
          keys := keys + [k];
        }
      }
    }

    method SetItem(key: string, value: Text) returns (ok: bool)
      modifies this
      ensures ok == old(accepts(writes)) && writes == old(writes) + 1
      ensures rows == if ok then old(rows)[key := value] else old(rows)
    {
      ok := accepts(writes);
      writes := writes + 1;
      if ok {
        rows := rows[key := value];
      }
    }

    method RemoveItem(key: string)
      modifies this`rows
      ensures rows == old(rows) - {key}
    {
      rows := rows - {key};
    }

    /** One row of a scan: removed when malformed or stale, offered when it fits. */
    method ScanRow(endpoint: string, now: Millis, key: string) returns (found: Option<ResumableEntry>)
      requires Valid() && key in rows && InNamespace(key)
      modifies this`rows
      ensures rows == if Swept(key, old(rows)[key], now) then old(rows) - {key} else old(rows)
      ensures found == GetEntry(old(rows), endpoint, Stripped(key), now)
    {
      StripsBack(key, Stripped(key));
      found := None;
      var parsed := FromJson(rows[key]);
      if parsed.None? {
        RemoveItem(key);
      } else {
        var entry := parsed.value;
        if entry.matchKey != Stripped(key) {
        } else if !Fresh(entry, now) {
          RemoveItem(key);
        } else if entry.endpoint != endpoint {
        } else if !Origin.OriginMatches(endpoint, entry.uploadUrl) {
        } else {
          found := Some(entry);
        }
      }
    }

    method Scan(endpoint: string, now: Millis) returns (out: seq<ResumableEntry>)
      requires Valid()
      modifies this`rows
      ensures Valid()
      ensures rows == SweptRows(old(rows), now)
      ensures forall e :: e in out <==> GetEntry(old(rows), endpoint, e.matchKey, now) == Some(e)
      ensures forall i, j | 0 <= i < j < |out| :: out[i].matchKey != out[j].matchKey
    {
      out := [];
      if !available {
        assert SweptRows(rows, now) == rows;
        return;
      }
      var keys := NamespaceKeys();
      for i := 0 to |keys|
        invariant rows == SweptAt(old(rows), keys[..i], now)
        invariant out == OffersAt(old(rows), endpoint, keys[..i], now)
      {
        VisitOne(old(rows), endpoint, keys[..i], keys[i], now);
        assert keys[..i + 1] == keys[..i] + [keys[i]];
        var found := ScanRow(endpoint, now, keys[i]);
        if found.Some? {
          out := out + [found.value];
        }
      }
      assert keys[..|keys|] == keys;
      AllVisited(old(rows), endpoint, keys, now);
    }

    method Get(endpoint: string, matchKey: string, now: Millis) returns (entry: Option<ResumableEntry>)
      requires Valid()
      ensures entry == GetEntry(rows, endpoint, matchKey, now)
    {
      if !available {
        return None;
      }
      var key := StorageKey(matchKey);
      if key !in rows {
        return None;
      }
      entry := FromJson(rows[key]);
      if entry.None? || entry.value.matchKey != matchKey {
        return None;
      }
      if !Fresh(entry.value, now) || entry.value.endpoint != endpoint {
        return None;
      }
      if !Origin.OriginMatches(endpoint, entry.value.uploadUrl) {
        return None;
      }
    }

    /** Writes the entry; after a first failure drops dead rows and tries once more. */
    method Put(entry: ResumableEntry, now: Millis) returns (ok: bool)
      requires Valid()
      modifies this
      ensures Valid() && ok == old(WillAccept())
      ensures ok ==>
        var made := if old(accepts(writes)) then old(rows) else Evicted(old(rows), now);
        rows == made[StorageKey(entry.matchKey) := ToJson(entry)] && PutRows(old(rows), entry, now, rows)
      ensures !ok ==> rows == if available then Evicted(old(rows), now) else old(rows)
    {
      if !available {
        return false;
      }
      var key := StorageKey(entry.matchKey);
      ok := SetItem(key, ToJson(entry));
      if ok {
        return;
      }
      EvictStaleEntries(now);
      ok := SetItem(key, ToJson(entry));
    }

    method EvictStaleEntries(now: Millis)
      modifies this`rows
      ensures rows == Evicted(old(rows), now)
    {
      var keys := NamespaceKeys();
      for i := 0 to |keys|
        invariant forall k :: k in rows <==> k in old(rows) && !(k in keys[..i] && Doomed(old(rows)[k], now))
        invariant forall k | k in rows :: rows[k] == old(rows)[k]
      {
        var key := keys[i];
        assert keys[..i + 1] == keys[..i] + [key];
        if key in rows {
          var parsed := FromJson(rows[key]);
          if parsed.None? || !Fresh(parsed.value, now) {
            RemoveItem(key);
          }
        }
      }
      assert keys[..|keys|] == keys;
      assert rows == Evicted(old(rows), now);
    }

    method Remove(matchKey: string)
      requires Valid()
      modifies this`rows
      ensures Valid()
      ensures rows == old(rows) - {StorageKey(matchKey)}
    {
      if available {
        RemoveItem(StorageKey(matchKey));
      }
    }
  }

  /** What a successful `put` may leave behind. */
  ghost predicate PutRows(before: Rows, entry: ResumableEntry, now: Millis, after: Rows) {
    var key, text := StorageKey(entry.matchKey), ToJson(entry);
    after == before[key := text] || after == Evicted(before, now)[key := text]
  }

  /** No reader, for any endpoint, can tell the two stores apart at time `now`. */
  ghost predicate SameAnswers(a: Rows, b: Rows, now: Millis) {
    forall endpoint, matchKey :: GetEntry(a, endpoint, matchKey, now) == GetEntry(b, endpoint, matchKey, now)
  }

  /** Cleaning up, in `scan` or before a retried write, changes no answer. */
  lemma CleanupInvisible(rows: Rows, now: Millis)
    ensures SameAnswers(rows, Evicted(rows, now), now)
    ensures SameAnswers(rows, SweptRows(rows, now), now)
  {
  }

  /** At a later time the clean-up has cost exactly the entries that were dated in the future
      when it ran: a clock set back makes it lose resumable uploads. */
  lemma CleanupLater(rows: Rows, now: Millis, later: Millis, endpoint: string, matchKey: string)
    requires now <= later
    ensures var answer := GetEntry(rows, endpoint, matchKey, later);
            var lost := answer.Some? && answer.value.storedAt > now;
            && (GetEntry(Evicted(rows, now), endpoint, matchKey, later) == answer <==> !lost)
            && (GetEntry(SweptRows(rows, now), endpoint, matchKey, later) == answer <==> !lost)
  {
    StripsBack(StorageKey(matchKey), matchKey);
  }

  /** A successful `put` updates the answers at one key and nowhere else. The new entry can be
      read back exactly when its modification time is a number. */
  lemma PutIsOneUpdate(before: Rows, entry: ResumableEntry, now: Millis, after: Rows, endpoint: string,
                       matchKey: string)
    requires PutRows(before, entry, now, after)
    ensures GetEntry(after, endpoint, matchKey, now) ==
            if matchKey != entry.matchKey then GetEntry(before, endpoint, matchKey, now)
            else if entry.lastModified.Finite? && Offerable(entry, endpoint, now) then Some(entry)
            else None
  {
    CleanupInvisible(before, now);
    StripsBack(StorageKey(matchKey), matchKey);
    StripsBack(StorageKey(matchKey), entry.matchKey);
  }

  /** A failed `put` is invisible, whatever the quota did. */
  lemma FailedPutInvisible(before: Rows, now: Millis, after: Rows)
    requires after == before || after == Evicted(before, now)
    ensures SameAnswers(before, after, now)
  {
    CleanupInvisible(before, now);
  }

  // ---------------------------------------------------------------- what is offered, written out

  /** An answer is the entry stored in the namespace under this key; it was stored for this key
      and this endpoint within the last day and not in the future, and its upload lies at the
      endpoint's origin. Every such entry is an answer. */
  lemma OfferedIsValid(rows: Rows, endpoint: string, matchKey: string, now: Millis, e: ResumableEntry)
    ensures GetEntry(rows, endpoint, matchKey, now) == Some(e) <==>
            && "dioxus-tus:v1:" + matchKey in rows && rows["dioxus-tus:v1:" + matchKey] == Json(e)
            && e.matchKey == matchKey && e.endpoint == endpoint
            && 0.0 <= now - e.storedAt <= 24.0 * 3_600_000.0
            && Origin.ParseOrigin(endpoint).Some? && Origin.ParseOrigin(e.uploadUrl) == Origin.ParseOrigin(endpoint)
  {
    StoredUnder(rows, endpoint, matchKey, now, e);
    MayBeOffered(e, endpoint, now);
  }

  lemma StoredUnder(rows: Rows, endpoint: string, matchKey: string, now: Millis, e: ResumableEntry)
    ensures GetEntry(rows, endpoint, matchKey, now) == Some(e) <==>
            && "dioxus-tus:v1:" + matchKey in rows && rows["dioxus-tus:v1:" + matchKey] == Json(e)
            && e.matchKey == matchKey && Offerable(e, endpoint, now)
  {
  }

  lemma MayBeOffered(e: ResumableEntry, endpoint: string, now: Millis)
    ensures Offerable(e, endpoint, now) <==>
            && e.endpoint == endpoint && 0.0 <= now - e.storedAt <= 24.0 * 3_600_000.0
            && Origin.ParseOrigin(endpoint).Some? && Origin.ParseOrigin(e.uploadUrl) == Origin.ParseOrigin(endpoint)
  {
  }

  /** Eviction keeps the rows outside the namespace and the readable entries of the last day. */
  lemma EvictionDrops(rows: Rows, now: Millis, key: string)
    ensures key in Evicted(rows, now) <==>
            key in rows && ("dioxus-tus:v1:" <= key ==>
                              rows[key].Json? && 0.0 <= now - rows[key].entry.storedAt <= 24.0 * 3_600_000.0)
    ensures key in Evicted(rows, now) ==> Evicted(rows, now)[key] == rows[key]
  {
  }

  /** A scan drops the unreadable rows of the namespace, and the stale ones that are stored under
      their own key. */
  lemma ScanDrops(rows: Rows, now: Millis, key: string)
    ensures key in SweptRows(rows, now) <==>
            key in rows && !("dioxus-tus:v1:" <= key &&
                             (rows[key].Junk? || (key == "dioxus-tus:v1:" + rows[key].entry.matchKey
                                                  && !(0.0 <= now - rows[key].entry.storedAt <= 24.0 * 3_600_000.0))))
    ensures key in SweptRows(rows, now) ==> SweptRows(rows, now)[key] == rows[key]
  {
    if InNamespace(key) {
      StripsBack(key, Stripped(key));
    }
  }

  /** A row holds what was put there, but for a time of modification that JSON cannot carry. */
  lemma PutWritesRow(before: Rows, entry: ResumableEntry, now: Millis, after: Rows)
    requires PutRows(before, entry, now, after)
    ensures var key := "dioxus-tus:v1:" + entry.matchKey;
            key in after && (if entry.lastModified.Finite? then after[key] == Json(entry) else after[key].Junk?)
  {
  }

  // ---------------------------------------------------------------- text as bytes

  /** One encoded character ends where its first byte says. */
  lemma CharDecodes(c: char, x: MatchKey.Bytes, d: char, y: MatchKey.Bytes)
    requires EncodeChar(c) + x == EncodeChar(d) + y
    ensures c == d && x == y
  {
    var s, t := EncodeChar(c) + x, EncodeChar(d) + y;
    assert s[0] == EncodeChar(c)[0] && t[0] == EncodeChar(d)[0];
    SameLead(c, d);
    var n := |EncodeChar(c)|;
    assert EncodeChar(c) == s[..n] == t[..n] == EncodeChar(d);
    assert x == s[n..] && y == t[n..];
    SameCode(c, d);
  }

  lemma SameLead(c: char, d: char)
    requires EncodeChar(c)[0] == EncodeChar(d)[0]
    ensures |EncodeChar(c)| == |EncodeChar(d)|
  {
    CodeRange(c);
    CodeRange(d);
  }

  lemma CodeRange(c: char)
    ensures 0 <= c as int < 0x11_0000
    ensures var lead := EncodeChar(c)[0];
            |EncodeChar(c)| == if lead < 0x80 then 1 else if lead < 0xE0 then 2 else if lead < 0xF0 then 3 else 4
  {
  }

  /** A number is made of its groups of six bits. */
  lemma SixBitGroups(m: nat, n: nat)
    requires m % 64 == n % 64
    ensures m / 64 == n / 64 ==> m == n
    ensures m / 64 % 64 == n / 64 % 64 && m / 4096 == n / 4096 ==> m == n
    ensures m / 64 % 64 == n / 64 % 64 && m / 4096 % 64 == n / 4096 % 64 && m / 262144 == n / 262144 ==> m == n
  {
    assert m / 64 / 64 == m / 4096 && n / 64 / 64 == n / 4096;
    assert m / 4096 / 64 == m / 262144 && n / 4096 / 64 == n / 262144;
  }

  lemma SameCode(c: char, d: char)
    requires EncodeChar(c) == EncodeChar(d)
    ensures c == d
  {
    var s, t, m, n := EncodeChar(c), EncodeChar(d), c as int, d as int;
    CodeRange(c);
    CodeRange(d);
    if |s| > 1 {
      assert s[|s| - 1] == 0x80 + m % 64 && t[|s| - 1] == 0x80 + n % 64;
      if |s| > 2 {
        assert s[|s| - 2] == 0x80 + m / 64 % 64 && t[|s| - 2] == 0x80 + n / 64 % 64;
      }
      SixBitGroups(m, n);
    }
  }

  /** Different texts have different bytes. */
  lemma {:induction false} EncodeInjective(s: string, t: string)
    requires Encode(s) == Encode(t)
    ensures s == t
  {
    if s != [] && t != [] {
      CharDecodes(s[0], Encode(s[1..]), t[0], Encode(t[1..]));
      EncodeInjective(s[1..], t[1..]);
      assert s == [s[0]] + s[1..] && t == [t[0]] + t[1..];
    }
  }
}
