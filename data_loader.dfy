/**
 * Reading decoded log records into usage entries (src/core/dataLoader.ts).
 * A log file is its sequence of lines; `JSON.parse` and `new Date(string)` are the
 * parameters `decode` and `parseTime` (`None` for a line that does not decode to a record
 * and for an unparseable date). Finding the files is the path-discovery model's concern.
 */
module DataLoader {
  import opened Types
  import opened Text
  import opened StableSort

  // ------------------------------------------------------------ decoded records

  /** A `usage` object: the four counts it may hold, and how many other keys it has. */
  datatype RawTokens = RawTokens(
    input_tokens: Option<int>,
    output_tokens: Option<int>,
    cache_creation_input_tokens: Option<int>,
    cache_read_input_tokens: Option<int>,
    otherKeys: nat)

  /** `message` when it is an object; a missing, null or non-object `message` is `None`. */
  datatype RawMessage = RawMessage(id: Option<string>, model: Option<string>, usage: Option<RawTokens>)

  /** One decoded log line. */
  datatype RawUsageData = RawUsageData(
    timestamp: Option<string>,
    usage: Option<RawTokens>,
    message: Option<RawMessage>,
    model: Option<string>,
    message_id: Option<string>,
    request_id: Option<string>,
    requestId: Option<string>,
    cost: Option<real>,
    costUSD: Option<real>)

  const EmptyUsage := RawTokens(None, None, None, None, 0)

  /** `Object.keys(usage).length`. */
  function KeyCount(u: RawTokens): nat
  {
    (if u.input_tokens.Some? then 1 else 0) + (if u.output_tokens.Some? then 1 else 0)
    + (if u.cache_creation_input_tokens.Some? then 1 else 0) + (if u.cache_read_input_tokens.Some? then 1 else 0)
    + u.otherKeys
  }

  /** `n || 0` for a count that may be missing (0 is falsy and gives 0 either way). */
  function CountOrZero(n: Option<int>): int
  {
    if n.Some? then n.value else 0
  }

  /** `a || b` on two optional numbers. */
  function OrNumber(a: Option<real>, b: Option<real>): (r: Option<real>)
    ensures TruthyNumber(a) ==> r == a
    ensures !TruthyNumber(a) ==> r == b
  {
    if TruthyNumber(a) then a else b
  }

  function MessageId(m: Option<RawMessage>): Option<string>
  {
    if m.Some? then m.value.id else None
  }

  function MessageModel(m: Option<RawMessage>): Option<string>
  {
    if m.Some? then m.value.model else None
  }

  function MessageUsage(m: Option<RawMessage>): Option<RawTokens>
  {
    if m.Some? then m.value.usage else None
  }

  /**
   * The `usage` object the counts are read from: the top-level one unless it is missing
   * or has no keys, in which case the message's one, when there is one.
   */
  function SelectUsage(data: RawUsageData): (u: RawTokens)
    ensures data.usage.Some? && KeyCount(data.usage.value) > 0 ==> u == data.usage.value
    ensures (data.usage.None? || KeyCount(data.usage.value) == 0) && MessageUsage(data.message).Some?
            ==> u == MessageUsage(data.message).value
    ensures (data.usage.None? || KeyCount(data.usage.value) == 0) && MessageUsage(data.message).None?
            ==> KeyCount(u) == 0
  {
    var usage := if data.usage.Some? then data.usage.value else EmptyUsage;
    if KeyCount(usage) == 0 && MessageUsage(data.message).Some? then MessageUsage(data.message).value
    else usage
  }

  /**
   * `convertToUsageEntry`: `None` when the timestamp is missing, empty or unparseable;
   * otherwise the entry, each field taken from the first source in its fallback chain.
   */
  function ConvertToUsageEntry(data: RawUsageData, parseTime: string -> Option<int>): (r: Option<UsageEntry>)
    ensures r.None? <==> !TruthyString(data.timestamp) || parseTime(data.timestamp.value).None?
    ensures r.Some? ==>
      var e := r.value;
      var u := SelectUsage(data);
      && e.timestamp == parseTime(data.timestamp.value).value
      && e.inputTokens == CountOrZero(u.input_tokens)
      && e.outputTokens == CountOrZero(u.output_tokens)
      && e.cacheCreationTokens == CountOrZero(u.cache_creation_input_tokens)
      && e.cacheReadTokens == CountOrZero(u.cache_read_input_tokens)
      && (TruthyString(data.model) ==> e.model == data.model.value)
      && (!TruthyString(data.model) && TruthyString(MessageModel(data.message)) ==> e.model == MessageModel(data.message).value)
      && (!TruthyString(data.model) && !TruthyString(MessageModel(data.message)) ==> e.model == "")
      && e.messageId == (if TruthyString(data.message_id) then data.message_id else MessageId(data.message))
      && e.requestId == (if TruthyString(data.request_id) then data.request_id else data.requestId)
      && e.costUSD == (if TruthyNumber(data.cost) then data.cost else data.costUSD)
  {
    if !TruthyString(data.timestamp) then None
    else match parseTime(data.timestamp.value)
      case None => None
      case Some(timestamp) =>
        var usage := SelectUsage(data);
        var model := OrString(OrString(data.model, MessageModel(data.message)), Some(""));
        Some(UsageEntry(
          timestamp,
          CountOrZero(usage.input_tokens),
          CountOrZero(usage.output_tokens),
          CountOrZero(usage.cache_creation_input_tokens),
          CountOrZero(usage.cache_read_input_tokens),
          OrNumber(data.cost, data.costUSD),
          model.value,
          OrString(data.message_id, MessageId(data.message)),
          OrString(data.request_id, data.requestId)))
  }

  /**
   * `createUniqueHash`: `messageId:requestId`, where the request id prefers `requestId` and
   * the message id is `message.id` whenever `message` is an object (else `message_id`);
   * `None` when either id is missing or empty.
   */
  function CreateUniqueHash(data: RawUsageData): (h: Option<string>)
    ensures var messageId := if data.message.Some? then data.message.value.id else data.message_id;
            var requestId := if TruthyString(data.requestId) then data.requestId else data.request_id;
            && (h.None? <==> !TruthyString(messageId) || !TruthyString(requestId))
            && (h.Some? ==> h.value == messageId.value + ":" + requestId.value)
  {
    var requestId := OrString(data.requestId, data.request_id);
    var messageId := if data.message.Some? then data.message.value.id else data.message_id;
    if !TruthyString(messageId) || !TruthyString(requestId) then None
    else Some(messageId.value + ":" + requestId.value)
  }

  // ------------------------------------------------------------ the dedup fold

  /**
   * The state of a load: the entries accepted so far, the keys remembered, and the
   * records the entries were made from (one per entry).
   */
  datatype Loaded = Loaded(entries: seq<UsageEntry>, seen: set<string>, accepted: seq<RawUsageData>)

  /**
   * The line holds a record that is kept: it is not blank, it decodes, its key (when it has
   * one) was not remembered, and it converts.
   */
  predicate Kept(st: Loaded, line: string, decode: string -> Option<RawUsageData>,
                 parseTime: string -> Option<int>)
  {
    && Trim(line) != []
    && decode(line).Some?
    && (CreateUniqueHash(decode(line).value).None? || CreateUniqueHash(decode(line).value).value !in st.seen)
    && ConvertToUsageEntry(decode(line).value, parseTime).Some?
  }

  /** One line of a file: skipped when blank, undecodable, already seen or not convertible. */
  function StepLine(st: Loaded, line: string, decode: string -> Option<RawUsageData>,
                    parseTime: string -> Option<int>): (r: Loaded)
    ensures Trim(line) == [] || decode(line).None? ==> r == st
    ensures r == st || (decode(line).Some? && ConvertToUsageEntry(decode(line).value, parseTime).Some?
                        && r.entries == st.entries + [ConvertToUsageEntry(decode(line).value, parseTime).value]
                        && r.accepted == st.accepted + [decode(line).value])
    ensures r != st <==> Kept(st, line, decode, parseTime)
  {
    if Trim(line) == [] then st
    else match decode(line)
      case None => st
      case Some(data) =>
        var uniqueHash := CreateUniqueHash(data);
        if uniqueHash.Some? && uniqueHash.value in st.seen then st
        else match ConvertToUsageEntry(data, parseTime)
          case None => st
          case Some(entry) =>
            Loaded(st.entries + [entry],
                   if uniqueHash.Some? then st.seen + {uniqueHash.value} else st.seen,
                   st.accepted + [data])
  }

  /** The lines of one file, in order, from a given state. */
  function ScanLines(st: Loaded, lines: seq<string>, decode: string -> Option<RawUsageData>,
                     parseTime: string -> Option<int>): Loaded
  {
    if lines == [] then st
    else StepLine(ScanLines(st, lines[..|lines| - 1], decode, parseTime), lines[|lines| - 1], decode, parseTime)
  }

  /** `parseJsonlFile`: the file's own entries, starting from the keys remembered by the earlier files. */
  function ParseFile(lines: seq<string>, seen: set<string>, decode: string -> Option<RawUsageData>,
                     parseTime: string -> Option<int>): Loaded
  {
    ScanLines(Loaded([], seen, []), lines, decode, parseTime)
  }

  /** The files in order, each file's entries appended after the earlier ones, one key set for all. */
  function LoadFiles(files: seq<seq<string>>, decode: string -> Option<RawUsageData>,
                     parseTime: string -> Option<int>): Loaded
  {
    if files == [] then Loaded([], {}, [])
    else
      var st := LoadFiles(files[..|files| - 1], decode, parseTime);
      var r := ParseFile(files[|files| - 1], st.seen, decode, parseTime);
      Loaded(st.entries + r.entries, r.seen, st.accepted + r.accepted)
  }

  function TimestampKey(e: UsageEntry): real
  {
    e.timestamp as real
  }

  /** `loadUsageData`: every file's entries, sorted by timestamp (stably, so ties keep file-then-line order). */
  function LoadUsageData(files: seq<seq<string>>, decode: string -> Option<RawUsageData>,
                         parseTime: string -> Option<int>): (r: seq<UsageEntry>)
    ensures SortedBy(r, TimestampKey)
    ensures multiset(r) == multiset(LoadFiles(files, decode, parseTime).entries)
  {
    SortBy(LoadFiles(files, decode, parseTime).entries, TimestampKey)
  }

  // ------------------------------------------------------------ the loops

  /** `parseJsonlFile`: the lines of one file; `processedHashes` is the key set shared by the whole load. */
  method ParseJsonlFile(lines: seq<string>, processedHashes: set<string>, decode: string -> Option<RawUsageData>,
                        parseTime: string -> Option<int>)
    returns (entries: seq<UsageEntry>, hashes: set<string>)
    ensures entries == ParseFile(lines, processedHashes, decode, parseTime).entries
    ensures hashes == ParseFile(lines, processedHashes, decode, parseTime).seen
  {
    entries := [];
    hashes := processedHashes;
    ghost var accepted: seq<RawUsageData> := [];
    for i := 0 to |lines|
      invariant Loaded(entries, hashes, accepted) == ScanLines(Loaded([], processedHashes, []), lines[..i], decode, parseTime)
    {
      var line := lines[i];
      assert lines[..i + 1][..i] == lines[..i];
      if Trim(line) == [] {
        continue;
      }
      var decoded := decode(line);
      if decoded.None? {
        continue;
      }
      var data := decoded.value;
      var uniqueHash := CreateUniqueHash(data);
      if uniqueHash.Some? && uniqueHash.value in hashes {
        continue;
      }
      var entry := ConvertToUsageEntry(data, parseTime);
      if entry.Some? {
        entries := entries + [entry.value];
        accepted := accepted + [data];
        if uniqueHash.Some? {
          hashes := hashes + {uniqueHash.value};
        }
      }
    }
    assert lines[..|lines|] == lines;
  }

  /** `loadUsageData` over the files found: one shared key set, all entries collected, then sorted. */
  method LoadUsage(files: seq<seq<string>>, decode: string -> Option<RawUsageData>,
                   parseTime: string -> Option<int>) returns (result: seq<UsageEntry>)
    ensures result == LoadUsageData(files, decode, parseTime)
  {
    if |files| == 0 {
      return [];
    }
    var allEntries: seq<UsageEntry> := [];
    var processedHashes: set<string> := {};
    for i := 0 to |files|
      invariant allEntries == LoadFiles(files[..i], decode, parseTime).entries
      invariant processedHashes == LoadFiles(files[..i], decode, parseTime).seen
    {
      assert files[..i + 1][..i] == files[..i];
      var entries;
      entries, processedHashes := ParseJsonlFile(files[i], processedHashes, decode, parseTime);
      allEntries := allEntries + entries;
    }
    assert files[..|files|] == files;
    result := SortBy(allEntries, TimestampKey);
  }

  // ------------------------------------------------------------ properties

  /** The keys of the records that have one. */
  function KeysOf(records: seq<RawUsageData>): set<string>
  {
    if records == [] then {}
    else
      var h := CreateUniqueHash(records[|records| - 1]);
      KeysOf(records[..|records| - 1]) + (if h.Some? then {h.value} else {})
  }

  /** A key is among the keys of some records exactly when one of them has it. */
  lemma {:induction false} KeysOfMember(records: seq<RawUsageData>, k: string)
    ensures k in KeysOf(records) <==> exists i :: 0 <= i < |records| && CreateUniqueHash(records[i]) == Some(k)
  {
    if records != [] {
      var init := records[..|records| - 1];
      KeysOfMember(init, k);
      if exists i :: 0 <= i < |init| && CreateUniqueHash(init[i]) == Some(k) {
        var i :| 0 <= i < |init| && CreateUniqueHash(init[i]) == Some(k);
        assert records[i] == init[i];
      }
      if exists i :: 0 <= i < |records| && CreateUniqueHash(records[i]) == Some(k) {
        var i :| 0 <= i < |records| && CreateUniqueHash(records[i]) == Some(k);
        if i < |init| {
          assert init[i] == records[i];
        }
      }
    }
  }

  /** No two of the records share a key. */
  predicate DistinctKeys(records: seq<RawUsageData>)
  {
    forall i, j :: 0 <= i < j < |records| && CreateUniqueHash(records[i]).Some?
      ==> CreateUniqueHash(records[i]) != CreateUniqueHash(records[j])
  }

  /**
   * What a load from a set of keys `seen0` guarantees: every entry is made from its record,
   * the remembered keys are `seen0` and the accepted records' keys, and those keys are
   * distinct and new.
   */
  /** Each entry is the conversion of the record at its position. */
  predicate EntriesFrom(entries: seq<UsageEntry>, records: seq<RawUsageData>, parseTime: string -> Option<int>)
  {
    && |entries| == |records|
    && forall i :: 0 <= i < |records| ==> ConvertToUsageEntry(records[i], parseTime) == Some(entries[i])
  }

  lemma {:induction false} EntriesFromAppend(e1: seq<UsageEntry>, r1: seq<RawUsageData>, e2: seq<UsageEntry>, r2: seq<RawUsageData>,
                                             parseTime: string -> Option<int>)
    requires EntriesFrom(e1, r1, parseTime) && EntriesFrom(e2, r2, parseTime)
    ensures EntriesFrom(e1 + e2, r1 + r2, parseTime)
  {
    var es, rs := e1 + e2, r1 + r2;
    forall i | 0 <= i < |rs| ensures ConvertToUsageEntry(rs[i], parseTime) == Some(es[i]) {
      if i < |r1| {
        assert rs[i] == r1[i] && es[i] == e1[i];
      } else {
        assert rs[i] == r2[i - |r1|] && es[i] == e2[i - |r1|];
      }
    }
  }

  predicate Consistent(st: Loaded, seen0: set<string>, parseTime: string -> Option<int>)
  {
    && EntriesFrom(st.entries, st.accepted, parseTime)
    && st.seen == seen0 + KeysOf(st.accepted)
    && seen0 !! KeysOf(st.accepted)
    && DistinctKeys(st.accepted)
  }

  lemma {:induction false} StepLineConsistent(st: Loaded, seen0: set<string>, line: string, decode: string -> Option<RawUsageData>,
                           parseTime: string -> Option<int>)
    requires Consistent(st, seen0, parseTime)
    ensures Consistent(StepLine(st, line, decode, parseTime), seen0, parseTime)
  {
    var r := StepLine(st, line, decode, parseTime);
    if r != st {
      var data := decode(line).value;
      var h := CreateUniqueHash(data);
      assert r.accepted == st.accepted + [data];
      assert r.accepted[..|st.accepted|] == st.accepted;
      assert KeysOf(r.accepted) == KeysOf(st.accepted) + (if h.Some? then {h.value} else {});
      forall i | 0 <= i < |r.accepted| ensures ConvertToUsageEntry(r.accepted[i], parseTime) == Some(r.entries[i]) {
        if i < |st.accepted| {
          assert r.accepted[i] == st.accepted[i] && r.entries[i] == st.entries[i];
        }
      }
      if h.Some? {
        assert h.value !in st.seen;
        KeysOfMember(st.accepted, h.value);
      }
      forall i, j | 0 <= i < j < |r.accepted| && CreateUniqueHash(r.accepted[i]).Some?
        ensures CreateUniqueHash(r.accepted[i]) != CreateUniqueHash(r.accepted[j])
      {
        assert r.accepted[i] == st.accepted[i];
        if j < |st.accepted| {
          assert r.accepted[j] == st.accepted[j];
        }
      }
    }
  }

  lemma {:induction false} ScanLinesConsistent(st: Loaded, seen0: set<string>, lines: seq<string>,
                                               decode: string -> Option<RawUsageData>, parseTime: string -> Option<int>)
    requires Consistent(st, seen0, parseTime)
    ensures Consistent(ScanLines(st, lines, decode, parseTime), seen0, parseTime)
  {
    if lines != [] {
      ScanLinesConsistent(st, seen0, lines[..|lines| - 1], decode, parseTime);
      StepLineConsistent(ScanLines(st, lines[..|lines| - 1], decode, parseTime), seen0, lines[|lines| - 1], decode, parseTime);
    }
  }

  /** The keys of two record lists together. */
  lemma {:induction false} KeysOfAppend(a: seq<RawUsageData>, b: seq<RawUsageData>)
    ensures KeysOf(a + b) == KeysOf(a) + KeysOf(b)
    decreases |b|
  {
    if b == [] {
      assert a + b == a;
    } else {
      KeysOfAppend(a, b[..|b| - 1]);
      assert (a + b)[..|a + b| - 1] == a + b[..|b| - 1];
    }
  }

  /** Two consistent loads in a row, the second starting from the keys the first remembered, make one. */
  lemma {:induction false} ConsistentAppend(st: Loaded, r: Loaded, parseTime: string -> Option<int>)
    requires Consistent(st, {}, parseTime) && Consistent(r, st.seen, parseTime)
    ensures Consistent(Loaded(st.entries + r.entries, r.seen, st.accepted + r.accepted), {}, parseTime)
  {
    KeysOfAppend(st.accepted, r.accepted);
    EntriesFromAppend(st.entries, st.accepted, r.entries, r.accepted, parseTime);
    DistinctKeysAppend(st.accepted, r.accepted);
  }

  /** Two key-distinct record lists whose key sets are disjoint are key-distinct together. */
  lemma {:induction false} DistinctKeysAppend(a: seq<RawUsageData>, b: seq<RawUsageData>)
    requires DistinctKeys(a) && DistinctKeys(b) && KeysOf(a) !! KeysOf(b)
    ensures DistinctKeys(a + b)
  {
    var ab := a + b;
    forall i, j | 0 <= i < j < |ab| && CreateUniqueHash(ab[i]).Some?
      ensures CreateUniqueHash(ab[i]) != CreateUniqueHash(ab[j])
    {
      if j < |a| {
        assert ab[i] == a[i] && ab[j] == a[j];
      } else if i >= |a| {
        assert ab[i] == b[i - |a|] && ab[j] == b[j - |a|];
      } else {
        var k := CreateUniqueHash(ab[i]).value;
        assert ab[i] == a[i] && ab[j] == b[j - |a|];
        KeysOfMember(a, k);
        if CreateUniqueHash(ab[j]) == Some(k) {
          KeysOfMember(b, k);
        }
      }
    }
  }

  /**
   * The whole load: every entry is made from an accepted record, the key set is exactly the
   * accepted records' keys, and no two accepted records share a key, across all files.
   */
  lemma {:induction false} LoadFilesConsistent(files: seq<seq<string>>, decode: string -> Option<RawUsageData>,
                                               parseTime: string -> Option<int>)
    ensures Consistent(LoadFiles(files, decode, parseTime), {}, parseTime)
  {
    if files != [] {
      var st := LoadFiles(files[..|files| - 1], decode, parseTime);
      LoadFilesConsistent(files[..|files| - 1], decode, parseTime);
      var start := Loaded([], st.seen, []);
      assert Consistent(start, st.seen, parseTime);
      ScanLinesConsistent(start, st.seen, files[|files| - 1], decode, parseTime);
      ConsistentAppend(st, ParseFile(files[|files| - 1], st.seen, decode, parseTime), parseTime);
    }
  }

  /**
   * Deduplication over a whole load: no two loaded entries come from records with the same
   * `messageId:requestId` key, and every loaded entry carries a parsed timestamp.
   */
  lemma {:induction false} LoadedRecordsDistinct(files: seq<seq<string>>, decode: string -> Option<RawUsageData>,
                              parseTime: string -> Option<int>)
    ensures var st := LoadFiles(files, decode, parseTime);
      && |st.entries| == |st.accepted|
      && DistinctKeys(st.accepted)
      && st.seen == KeysOf(st.accepted)
      && forall i :: 0 <= i < |st.entries| ==>
           TruthyString(st.accepted[i].timestamp)
           && parseTime(st.accepted[i].timestamp.value) == Some(st.entries[i].timestamp)
  {
    LoadFilesConsistent(files, decode, parseTime);
  }

  /** A record whose key was already remembered, by this file or an earlier one, is dropped. */
  lemma {:induction false} SeenKeyDropped(st: Loaded, line: string, decode: string -> Option<RawUsageData>,
                       parseTime: string -> Option<int>)
    requires decode(line).Some?
    requires var h := CreateUniqueHash(decode(line).value); h.Some? && h.value in st.seen
    ensures StepLine(st, line, decode, parseTime) == st
  {
  }

  /** A record lacking either id is never deduplicated: it is kept whenever it converts. */
  lemma {:induction false} MissingIdNeverDeduplicated(st: Loaded, line: string, decode: string -> Option<RawUsageData>,
                                   parseTime: string -> Option<int>)
    requires Trim(line) != [] && decode(line).Some?
    requires CreateUniqueHash(decode(line).value).None?
    requires ConvertToUsageEntry(decode(line).value, parseTime).Some?
    ensures StepLine(st, line, decode, parseTime)
            == Loaded(st.entries + [ConvertToUsageEntry(decode(line).value, parseTime).value], st.seen,
                      st.accepted + [decode(line).value])
  {
  }

  /** A record with a new key, or with none, that converts is appended, and its key is remembered. */
  lemma {:induction false} FreshRecordKept(st: Loaded, line: string, decode: string -> Option<RawUsageData>,
                                           parseTime: string -> Option<int>)
    requires Kept(st, line, decode, parseTime)
    ensures var data := decode(line).value;
            var h := CreateUniqueHash(data);
            StepLine(st, line, decode, parseTime)
            == Loaded(st.entries + [ConvertToUsageEntry(data, parseTime).value],
                      if h.Some? then st.seen + {h.value} else st.seen,
                      st.accepted + [data])
  {
  }

  /**
   * A record that does not convert leaves the state as it was, so it cannot suppress a later
   * valid one: a following line that would have been kept without it is still kept.
   */
  lemma {:induction false} RejectedRecordRemembersNothing(st: Loaded, line: string, next: string,
                                                          decode: string -> Option<RawUsageData>,
                                                          parseTime: string -> Option<int>)
    requires decode(line).Some?
    requires ConvertToUsageEntry(decode(line).value, parseTime).None?
    ensures StepLine(st, line, decode, parseTime) == st
    ensures Kept(st, next, decode, parseTime) ==>
              StepLine(StepLine(st, line, decode, parseTime), next, decode, parseTime).entries
              == st.entries + [ConvertToUsageEntry(decode(next).value, parseTime).value]
  {
    if Kept(st, next, decode, parseTime) {
      FreshRecordKept(st, next, decode, parseTime);
    }
  }

  /** The load is stable: entries with the same timestamp keep their file-then-line order. */
  lemma {:induction false} LoadUsageDataStable(files: seq<seq<string>>, decode: string -> Option<RawUsageData>,
                            parseTime: string -> Option<int>, t: int)
    ensures FilterKey(LoadUsageData(files, decode, parseTime), TimestampKey, t as real)
            == FilterKey(LoadFiles(files, decode, parseTime).entries, TimestampKey, t as real)
  {
    SortByStable(LoadFiles(files, decode, parseTime).entries, TimestampKey, t as real);
  }

  /** The identifiers of an entry may differ from the ones its key was made from. */
  lemma KeyAndIdsDiffer()
    ensures var data := RawUsageData(Some("t"), None, Some(RawMessage(Some("m2"), None, None)), None,
                                      Some("m1"), Some("r1"), Some("r2"), None, None);
      && CreateUniqueHash(data) == Some("m2:r2")
      && ConvertToUsageEntry(data, _ => Some(0)).value.messageId == Some("m1")
      && ConvertToUsageEntry(data, _ => Some(0)).value.requestId == Some("r1")
  {
    assert "m2" + ":" + "r2" == "m2:r2";
  }
}
