/** The listener annotations, `port:value,port:value` (pkg/qingcloud/annotation_valid.go). */
module AnnotationParsers {
  import opened Wrappers
  import opened GoStrings

  const LISTENER_TIMEOUT_MIN := 10
  const LISTENER_TIMEOUT_MAX := 86400
  const LISTENER_SCENES := [0, 1, 11]

  // ---------- What the text means ----------

  /** Reads the parts from left to right into `acc`; empty parts are skipped. */
  function LsnParts(parts: seq<string>, acc: map<int, string>): Option<map<int, string>> {
    if parts == [] then Some(acc)
    else if parts[0] == "" then LsnParts(parts[1..], acc)
    else
      var m := Split(parts[0], ':');
      if |m| != 2 || Atoi(m[0]).None? then None
      else LsnParts(parts[1..], acc[Atoi(m[0]).value := m[1]])
  }

  function LsnData(data: string): Option<map<int, string>> {
    LsnParts(Split(data, ','), map[])
  }

  /** As above with numbers for values; here an empty part is an error. */
  function IntParts(parts: seq<string>, acc: map<int, int>): Option<map<int, int>> {
    if parts == [] then Some(acc)
    else
      var m := Split(parts[0], ':');
      if |m| != 2 || Atoi(m[0]).None? || Atoi(m[1]).None? then None
      else IntParts(parts[1..], acc[Atoi(m[0]).value := Atoi(m[1]).value])
  }

  function IntData(data: string): Option<map<int, int>> {
    IntParts(Split(data, ','), map[])
  }

  /** What an annotation says for a port, if it is there and can be read: the value of the last entry. */
  ghost function Said(text: Option<string>, port: int): Option<string> {
    if text.Some? && LsnData(text.value).Some? && port in LsnData(text.value).value
    then Some(LsnData(text.value).value[port]) else None
  }

  ghost function SaidNumber(text: Option<string>, port: int): Option<int> {
    if text.Some? && IntData(text.value).Some? && port in IntData(text.value).value
    then Some(IntData(text.value).value[port]) else None
  }

  /** A part of an annotation that names a port and a value. */
  ghost predicate NamesPort(part: string) {
    |Split(part, ':')| == 2 && Atoi(Split(part, ':')[0]).Some?
  }

  ghost predicate NamesPortAndNumber(part: string) {
    NamesPort(part) && Atoi(Split(part, ':')[1]).Some?
  }

  /** A part that is neither empty nor a port and a value is an error, wherever it stands. */
  lemma {:induction false} LsnErrorIff(parts: seq<string>, acc: map<int, string>)
    ensures LsnParts(parts, acc).None? <==> exists i | 0 <= i < |parts| :: parts[i] != "" && !NamesPort(parts[i])
  {
    if parts != [] {
      var rest := parts[1..];
      var m := Split(parts[0], ':');
      if parts[0] == "" {
        LsnErrorIff(rest, acc);
      } else if NamesPort(parts[0]) {
        LsnErrorIff(rest, acc[Atoi(m[0]).value := m[1]]);
      }
      assert forall i | 0 <= i < |rest| :: rest[i] == parts[i + 1];
      assert forall i | 1 <= i < |parts| :: parts[i] == rest[i - 1];
    }
  }

  /** Among numbers an empty part is an error too. */
  lemma {:induction false} IntErrorIff(parts: seq<string>, acc: map<int, int>)
    ensures IntParts(parts, acc).None? <==> exists i | 0 <= i < |parts| :: !NamesPortAndNumber(parts[i])
  {
    if parts != [] {
      var rest := parts[1..];
      var m := Split(parts[0], ':');
      if NamesPortAndNumber(parts[0]) {
        IntErrorIff(rest, acc[Atoi(m[0]).value := Atoi(m[1]).value]);
      }
      assert forall i | 0 <= i < |rest| :: rest[i] == parts[i + 1];
      assert forall i | 1 <= i < |parts| :: parts[i] == rest[i - 1];
    }
  }

  // ---------- The parsers ----------

  method ParseLsnAnnotaionData(data: string) returns (r: Option<map<int, string>>)
    ensures r == LsnData(data)
  {
    var methods := Split(data, ',');
    var rst: map<int, string> := map[];
    for i := 0 to |methods|
      invariant LsnParts(methods[i..], rst) == LsnData(data)
    {
      assert methods[i..][1..] == methods[i + 1..];
      if methods[i] == "" {
        continue;
      }
      var m := Split(methods[i], ':');
      if |m| != 2 { return None; }
      var port := Atoi(m[0]);
      if port.None? { return None; }
      rst := rst[port.value := m[1]];
    }
    return Some(rst);
  }

  method ParseAnnotationIntoIntIntMap(data: string) returns (r: Option<map<int, int>>)
    ensures r == IntData(data)
  {
    var items := Split(data, ',');
    var result: map<int, int> := map[];
    for i := 0 to |items|
      invariant IntParts(items[i..], result) == IntData(data)
    {
      assert items[i..][1..] == items[i + 1..];
      var parts := Split(items[i], ':');
      if |parts| != 2 { return None; }
      var k, v := Atoi(parts[0]), Atoi(parts[1]);
      if k.None? || v.None? { return None; }
      result := result[k.value := v.value];
    }
    return Some(result);
  }

  predicate TimeoutsOK(data: string) {
    && IntData(data).Some?
    && forall k | k in IntData(data).value :: LISTENER_TIMEOUT_MIN <= IntData(data).value[k] <= LISTENER_TIMEOUT_MAX
  }

  predicate ScenesOK(data: string) {
    && IntData(data).Some?
    && forall k | k in IntData(data).value :: IntData(data).value[k] in LISTENER_SCENES
  }

  method ValidListenerTimeout(data: string) returns (ok: bool)
    ensures ok <==> TimeoutsOK(data)
  {
    var result := ParseAnnotationIntoIntIntMap(data);
    if result.None? { return false; }
    var m := result.value;
    var ports := Enumerate(m.Keys);
    for i := 0 to |ports|
      invariant forall j | 0 <= j < i :: LISTENER_TIMEOUT_MIN <= m[ports[j]] <= LISTENER_TIMEOUT_MAX
    {
      var k := ports[i];
      assert k in ports && k in IntData(data).value;
      if m[k] < LISTENER_TIMEOUT_MIN || m[k] > LISTENER_TIMEOUT_MAX {
        assert IntData(data).value[k] == m[k];
        return false;
      }
    }
    assert forall k | k in m :: k in ports;
    return true;
  }

  method ValidListenerScene(data: string) returns (ok: bool)
    ensures ok <==> ScenesOK(data)
  {
    var result := ParseAnnotationIntoIntIntMap(data);
    if result.None? { return false; }
    var m := result.value;
    var ports := Enumerate(m.Keys);
    for i := 0 to |ports|
      invariant forall j | 0 <= j < i :: m[ports[j]] in LISTENER_SCENES
    {
      var k := ports[i];
      assert k in ports && k in IntData(data).value;
      if m[k] !in LISTENER_SCENES {
        assert IntData(data).value[k] == m[k];
        return false;
      }
    }
    assert forall k | k in m :: k in ports;
    return true;
  }

  // ---------- Round trips ----------

  /** The entries written one after the other, in the order given. */
  function Written<K, T>(acc: map<K, T>, entries: seq<(K, T)>): map<K, T>
    decreases |entries|
  {
    if entries == [] then acc else Written(acc[entries[0].0 := entries[0].1], entries[1..])
  }

  lemma {:induction false} NoEntryKeeps<K, T>(acc: map<K, T>, entries: seq<(K, T)>, port: K)
    requires port in acc && forall i | 0 <= i < |entries| :: entries[i].0 != port
    ensures port in Written(acc, entries) && Written(acc, entries)[port] == acc[port]
    decreases |entries|
  {
    if entries != [] {
      NoEntryKeeps(acc[entries[0].0 := entries[0].1], entries[1..], port);
    }
  }

  /** Among the entries for one port, or one key, the last one counts. */
  lemma {:induction false} LastEntryWins<K, T>(acc: map<K, T>, entries: seq<(K, T)>, i: nat)
    requires i < |entries| && forall j | i < j < |entries| :: entries[j].0 != entries[i].0
    ensures entries[i].0 in Written(acc, entries) && Written(acc, entries)[entries[i].0] == entries[i].1
    decreases |entries|
  {
    var acc' := acc[entries[0].0 := entries[0].1];
    if i == 0 {
      NoEntryKeeps(acc', entries[1..], entries[0].0);
    } else {
      LastEntryWins(acc', entries[1..], i - 1);
    }
  }

  function LsnEntry(e: (int, string)): string {
    Itoa(e.0) + ":" + e.1
  }

  function IntEntry(e: (int, int)): string {
    Itoa(e.0) + ":" + Itoa(e.1)
  }

  function RenderLsn(entries: seq<(int, string)>): string {
    if entries == [] then "" else Join(seq(|entries|, i requires 0 <= i < |entries| => LsnEntry(entries[i])), ',')
  }

  function RenderInt(entries: seq<(int, int)>): string {
    if entries == [] then "" else Join(seq(|entries|, i requires 0 <= i < |entries| => IntEntry(entries[i])), ',')
  }

  lemma EntryParts(port: int, value: string)
    requires Int64(port) && ':' !in value
    ensures Split(Itoa(port) + ":" + value, ':') == [Itoa(port), value]
    ensures Itoa(port) + ":" + value != ""
  {
    ItoaPlain(port, ':');
    SplitAtSep(Itoa(port), ':', value);
    SplitNoSep(value, ':');
  }

  lemma {:induction false} LsnPartsRendered(parts: seq<string>, entries: seq<(int, string)>, acc: map<int, string>)
    requires |parts| == |entries|
    requires forall i | 0 <= i < |entries| ::
             parts[i] == LsnEntry(entries[i]) && Int64(entries[i].0) && ':' !in entries[i].1
    ensures LsnParts(parts, acc) == Some(Written(acc, entries))
  {
    if parts != [] {
      EntryParts(entries[0].0, entries[0].1);
      AtoiItoa(entries[0].0);
      LsnPartsRendered(parts[1..], entries[1..], acc[entries[0].0 := entries[0].1]);
    }
  }

  lemma {:induction false} IntPartsRendered(parts: seq<string>, entries: seq<(int, int)>, acc: map<int, int>)
    requires |parts| == |entries|
    requires forall i | 0 <= i < |entries| ::
             parts[i] == IntEntry(entries[i]) && Int64(entries[i].0) && Int64(entries[i].1)
    ensures IntParts(parts, acc) == Some(Written(acc, entries))
  {
    if parts != [] {
      AtoiItoa(entries[0].0);
      AtoiItoa(entries[0].1);
      ItoaPlain(entries[0].1, ':');
      EntryParts(entries[0].0, Itoa(entries[0].1));
      IntPartsRendered(parts[1..], entries[1..], acc[entries[0].0 := entries[0].1]);
    }
  }

  /** Parsing a rendered list of entries writes them in order; the empty list is allowed. */
  lemma ParseRenderedLsn(entries: seq<(int, string)>)
    requires forall e | e in entries :: Int64(e.0) && ',' !in e.1 && ':' !in e.1
    ensures LsnData(RenderLsn(entries)) == Some(Written(map[], entries))
  {
    if entries != [] {
      var parts := seq(|entries|, i requires 0 <= i < |entries| => LsnEntry(entries[i]));
      forall p | p in parts ensures ',' !in p {
        var i :| 0 <= i < |parts| && parts[i] == p;
        assert entries[i] in entries;
        ItoaPlain(entries[i].0, ',');
      }
      SplitJoin(parts, ',');
      LsnPartsRendered(parts, entries, map[]);
    } else {
      assert Split("", ',') == [""];
      assert LsnParts([""], map[]) == LsnParts([], map[]);
    }
  }

  /** The same for numbers, except that an annotation without entries is an error. */
  lemma ParseRenderedInt(entries: seq<(int, int)>)
    requires forall e | e in entries :: Int64(e.0) && Int64(e.1)
    ensures IntData(RenderInt(entries)) == if entries == [] then None else Some(Written(map[], entries))
  {
    if entries != [] {
      var parts := seq(|entries|, i requires 0 <= i < |entries| => IntEntry(entries[i]));
      forall p | p in parts ensures ',' !in p {
        var i :| 0 <= i < |parts| && parts[i] == p;
        assert entries[i] in entries;
        ItoaPlain(entries[i].0, ',');
        ItoaPlain(entries[i].1, ',');
      }
      SplitJoin(parts, ',');
      IntPartsRendered(parts, entries, map[]);
    } else {
      assert Split("", ',') == [""];
    }
  }

  /** `entries` lists the contents of m, in any order. */
  ghost predicate ListsMap<K, T>(entries: seq<(K, T)>, m: map<K, T>) {
    && (forall i | 0 <= i < |entries| :: entries[i].0 in m && m[entries[i].0] == entries[i].1)
    && (forall k | k in m :: exists i :: 0 <= i < |entries| && entries[i].0 == k)
  }

  lemma SameMap<K, T>(a: map<K, T>, b: map<K, T>)
    requires forall k :: k in a <==> k in b
    requires forall k | k in a :: a[k] == b[k]
    ensures a == b
  {
    forall k | k in a.Keys ensures k in b.Keys { assert k in a; }
    forall k | k in b.Keys ensures k in a.Keys { assert k in b; }
    assert a.Keys <= b.Keys;
    assert b.Keys <= a.Keys;
    assert forall k | k in a :: a[k] == b[k];
  }

  lemma {:induction false} WrittenLists<K, T>(entries: seq<(K, T)>, m: map<K, T>, acc: map<K, T>)
    requires forall i | 0 <= i < |entries| :: entries[i].0 in m && m[entries[i].0] == entries[i].1
    requires forall k | k in acc :: k in m && m[k] == acc[k]
    requires forall k | k in m :: k in acc || exists i :: 0 <= i < |entries| && entries[i].0 == k
    ensures Written(acc, entries) == m
  {
    if entries == [] {
      SameMap(acc, m);
    } else {
      var rest := entries[1..];
      assert forall i | 0 <= i < |rest| :: rest[i] == entries[i + 1];
      forall k | k in m && k !in acc && k != entries[0].0 ensures exists i :: 0 <= i < |rest| && rest[i].0 == k {
        var i :| 0 <= i < |entries| && entries[i].0 == k;
        assert rest[i - 1].0 == k;
      }
      WrittenLists(rest, m, acc[entries[0].0 := entries[0].1]);
    }
  }

  /** A finite map survives being written as an annotation, whatever order its entries are written in. */
  lemma LsnRoundTrip(entries: seq<(int, string)>, m: map<int, string>)
    requires ListsMap(entries, m)
    requires forall k | k in m :: Int64(k) && ',' !in m[k] && ':' !in m[k]
    ensures LsnData(RenderLsn(entries)) == Some(m)
  {
    ParseRenderedLsn(entries);
    WrittenLists(entries, m, map[]);
  }

  /** For numbers this holds exactly of the maps that are not empty. */
  lemma IntRoundTrip(entries: seq<(int, int)>, m: map<int, int>)
    requires ListsMap(entries, m)
    requires forall k | k in m :: Int64(k) && Int64(m[k])
    ensures IntData(RenderInt(entries)) == Some(m) <==> m != map[]
  {
    ParseRenderedInt(entries);
    WrittenLists(entries, m, map[]);
  }
}
