/**
  The events of the daily JSONL files of a set of log sources, and the key that orders them.
 */
module LogRecords {
  import opened Common
  import opened IsoTimestamps

  type Timestamp = t: DateTime | IsDateTime(t) witness DateTime(1970, 1, 1, 0, 0, 0, 0)

  datatype Event = Event(created: Timestamp, id: string, body: string)

  /** A line is None when it is not a JSON object with a valid time of creation. */
  datatype LogFile = LogFile(name: string, lines: seq<Option<Event>>)

  datatype LogSource = LogSource(id: string, prefix: string, files: seq<LogFile>)

  datatype Key = Key(created: string, eventId: string, source: string, file: string, line: int)

  datatype Indexed = Indexed(event: Event, key: Key)

  datatype Query = Query(keep: Event -> bool, from: Option<Timestamp>, until: Option<Timestamp>)

  predicate Matches(q: Query, e: Event) {
    && (q.from.Some? ==> Instant(q.from.value) <= Instant(e.created))
    && (q.until.Some? ==> Instant(e.created) <= Instant(q.until.value))
    && q.keep(e)
  }

  function KeyOf(source: string, file: string, line: int, e: Event): Key {
    Key(IsoText(e.created), e.id, source, file, line)
  }

  // ---------- Reading ----------

  /** The matching events of the first n lines of a file. */
  function FileEvents(source: string, f: LogFile, n: nat, q: Query): seq<Indexed>
    requires n <= |f.lines|
  {
    if n == 0 then []
    else
      var before, line := FileEvents(source, f, n - 1, q), f.lines[n - 1];
      if line.Some? && Matches(q, line.value) then before + [Indexed(line.value, KeyOf(source, f.name, n, line.value))]
      else before
  }

  function SourceEvents(source: string, files: seq<LogFile>, q: Query): seq<Indexed> {
    if files == [] then []
    else
      var n := |files| - 1;
      SourceEvents(source, files[..n], q) + FileEvents(source, files[n], |files[n].lines|, q)
  }

  function AllEvents(sources: seq<LogSource>, q: Query): seq<Indexed> {
    if sources == [] then []
    else
      var n := |sources| - 1;
      AllEvents(sources[..n], q) + SourceEvents(sources[n].id, sources[n].files, q)
  }

  method Selects(q: Query, e: Event) returns (selected: bool)
    ensures selected == Matches(q, e)
  {
    if q.from.Some? && Instant(e.created) < Instant(q.from.value) {
      return false;
    }
    if q.until.Some? && Instant(e.created) > Instant(q.until.value) {
      return false;
    }
    return q.keep(e);
  }

  method ReadFile(source: string, f: LogFile, q: Query) returns (events: seq<Indexed>)
    ensures events == FileEvents(source, f, |f.lines|, q)
  {
    events := [];
    var i := 0;
    while i < |f.lines|
      invariant 0 <= i <= |f.lines| && events == FileEvents(source, f, i, q)
    {
      var line := f.lines[i];
      i := i + 1;
      if line.Some? {
        var selected := Selects(q, line.value);
        if selected {
          events := events + [Indexed(line.value, KeyOf(source, f.name, i, line.value))];
        }
      }
    }
  }

  method ReadSource(source: string, files: seq<LogFile>, q: Query) returns (events: seq<Indexed>)
    ensures events == SourceEvents(source, files, q)
  {
    events := [];
    var j := 0;
    while j < |files|
      invariant 0 <= j <= |files| && events == SourceEvents(source, files[..j], q)
    {
      var more := ReadFile(source, files[j], q);
      assert files[..j + 1][..j] == files[..j];
      events := events + more;
      j := j + 1;
    }
    assert files[..j] == files;
  }

  method ReadSources(sources: seq<LogSource>, q: Query) returns (events: seq<Indexed>)
    ensures events == AllEvents(sources, q)
  {
    events := [];
    var i := 0;
    while i < |sources|
      invariant 0 <= i <= |sources| && events == AllEvents(sources[..i], q)
    {
      var ofSource := ReadSource(sources[i].id, sources[i].files, q);
      assert sources[..i + 1][..i] == sources[..i];
      events := events + ofSource;
      i := i + 1;
    }
    assert sources[..i] == sources;
  }

  // ---------- What is read ----------

  predicate IsLine(source: string, f: LogFile, k: int, q: Query, x: Indexed) {
    && 0 <= k < |f.lines| && f.lines[k] == Some(x.event) && Matches(q, x.event)
    && x.key == KeyOf(source, f.name, k + 1, x.event)
  }

  predicate InFile(source: string, f: LogFile, q: Query, x: Indexed) {
    0 < x.key.line <= |f.lines| && IsLine(source, f, x.key.line - 1, q, x)
  }

  predicate InSource(s: LogSource, q: Query, x: Indexed) {
    exists j :: 0 <= j < |s.files| && InFile(s.id, s.files[j], q, x)
  }

  predicate InSources(sources: seq<LogSource>, q: Query, x: Indexed) {
    exists i :: 0 <= i < |sources| && InSource(sources[i], q, x)
  }

  lemma {:induction false} FileHolds(source: string, f: LogFile, n: nat, q: Query, x: Indexed)
    requires n <= |f.lines|
    ensures x in FileEvents(source, f, n, q) <==> x.key.line <= n && InFile(source, f, q, x)
    decreases n
  {
    if n > 0 {
      FileHolds(source, f, n - 1, q, x);
    }
  }

  predicate InFiles(s: LogSource, n: nat, q: Query, x: Indexed)
    requires n <= |s.files|
  {
    exists j :: 0 <= j < n && InFile(s.id, s.files[j], q, x)
  }

  predicate InPrefix(sources: seq<LogSource>, n: nat, q: Query, x: Indexed)
    requires n <= |sources|
  {
    exists i :: 0 <= i < n && InSource(sources[i], q, x)
  }

  lemma InFilesNext(s: LogSource, n: nat, q: Query, x: Indexed)
    requires 0 < n <= |s.files|
    ensures InFiles(s, n, q, x) <==> InFiles(s, n - 1, q, x) || InFile(s.id, s.files[n - 1], q, x)
  {
  }

  lemma InPrefixNext(sources: seq<LogSource>, n: nat, q: Query, x: Indexed)
    requires 0 < n <= |sources|
    ensures InPrefix(sources, n, q, x) <==> InPrefix(sources, n - 1, q, x) || InSource(sources[n - 1], q, x)
  {
  }

  lemma SourceSnoc(source: string, files: seq<LogFile>, n: nat, q: Query)
    requires 0 < n <= |files|
    ensures SourceEvents(source, files[..n], q) ==
            SourceEvents(source, files[..n - 1], q) + FileEvents(source, files[n - 1], |files[n - 1].lines|, q)
  {
    assert files[..n][..n - 1] == files[..n - 1];
  }

  lemma AllSnoc(sources: seq<LogSource>, n: nat, q: Query)
    requires 0 < n <= |sources|
    ensures AllEvents(sources[..n], q) ==
            AllEvents(sources[..n - 1], q) + SourceEvents(sources[n - 1].id, sources[n - 1].files, q)
  {
    assert sources[..n][..n - 1] == sources[..n - 1];
  }

  lemma {:induction false} SourceHolds(s: LogSource, n: nat, q: Query, x: Indexed)
    requires n <= |s.files|
    ensures x in SourceEvents(s.id, s.files[..n], q) <==> InFiles(s, n, q, x)
    decreases n
  {
    if n > 0 {
      SourceHolds(s, n - 1, q, x);
      SourceSnoc(s.id, s.files, n, q);
      InFilesNext(s, n, q, x);
      FileHolds(s.id, s.files[n - 1], |s.files[n - 1].lines|, q, x);
    }
  }

  lemma WholeSource(s: LogSource, q: Query, x: Indexed)
    ensures x in SourceEvents(s.id, s.files, q) <==> InSource(s, q, x)
  {
    assert s.files[..|s.files|] == s.files;
    SourceHolds(s, |s.files|, q, x);
  }

  lemma {:induction false} PrefixHolds(sources: seq<LogSource>, n: nat, q: Query, x: Indexed)
    requires n <= |sources|
    ensures x in AllEvents(sources[..n], q) <==> InPrefix(sources, n, q, x)
    decreases n
  {
    if n > 0 {
      PrefixHolds(sources, n - 1, q, x);
      AllSnoc(sources, n, q);
      InPrefixNext(sources, n, q, x);
      WholeSource(sources[n - 1], q, x);
    }
  }

  /** Reading finds the matching lines of all files, under their keys, and nothing else. */
  lemma ReadingIsExact(sources: seq<LogSource>, q: Query, x: Indexed)
    ensures x in AllEvents(sources, q) <==> InSources(sources, q, x)
  {
    assert sources[..|sources|] == sources;
    PrefixHolds(sources, |sources|, q, x);
  }

  // ---------- Keys are unique ----------

  predicate DistinctKeys(items: seq<Indexed>) {
    forall i, j :: 0 <= i < j < |items| ==> items[i].key != items[j].key
  }

  ghost predicate KeysApart(a: seq<Indexed>, b: seq<Indexed>) {
    forall x, y :: x in a && y in b ==> x.key != y.key
  }

  lemma JoinDistinct(a: seq<Indexed>, b: seq<Indexed>)
    ensures DistinctKeys(a + b) <==> DistinctKeys(a) && DistinctKeys(b) && KeysApart(a, b)
  {
    var c := a + b;
    if DistinctKeys(c) {
      forall i, j | 0 <= i < |a| && 0 <= j < |b| ensures a[i].key != b[j].key {
        assert c[i] == a[i] && c[|a| + j] == b[j];
      }
      forall i, j | 0 <= i < j < |b| ensures b[i].key != b[j].key {
        assert c[|a| + i] == b[i] && c[|a| + j] == b[j];
      }
      assert forall i :: 0 <= i < |a| ==> c[i] == a[i];
    }
  }

  lemma {:induction false} FileKeys(source: string, f: LogFile, n: nat, q: Query)
    requires n <= |f.lines|
    ensures DistinctKeys(FileEvents(source, f, n, q))
    decreases n
  {
    if n > 0 {
      FileKeys(source, f, n - 1, q);
      var before := FileEvents(source, f, n - 1, q);
      forall i | 0 <= i < |before| ensures before[i].key.line < n {
        assert before[i] in before;
        FileHolds(source, f, n - 1, q, before[i]);
      }
    }
  }

  /** No matching lines of the two files have the same key. */
  ghost predicate FilesApart(s: string, f: LogFile, t: string, g: LogFile, q: Query) {
    forall x, y :: InFile(s, f, q, x) && InFile(t, g, q, y) ==> x.key != y.key
  }

  ghost predicate PrefixApart(s: LogSource, n: nat, q: Query)
    requires n <= |s.files|
  {
    forall j, k :: 0 <= j < k < n ==> FilesApart(s.id, s.files[j], s.id, s.files[k], q)
  }

  lemma NextFileApart(s: LogSource, n: nat, q: Query)
    requires n < |s.files|
    ensures var a, b := SourceEvents(s.id, s.files[..n], q), FileEvents(s.id, s.files[n], |s.files[n].lines|, q);
            KeysApart(a, b) <==> FileApart(s, n, q)
  {
    var a, b := SourceEvents(s.id, s.files[..n], q), FileEvents(s.id, s.files[n], |s.files[n].lines|, q);
    forall x ensures (x in a <==> InFiles(s, n, q, x)) && (x in b <==> InFile(s.id, s.files[n], q, x)) {
      SourceHolds(s, n, q, x);
      FileHolds(s.id, s.files[n], |s.files[n].lines|, q, x);
    }
    if KeysApart(a, b) {
      forall j | 0 <= j < n ensures FilesApart(s.id, s.files[j], s.id, s.files[n], q) {
        forall x, y | InFile(s.id, s.files[j], q, x) && InFile(s.id, s.files[n], q, y) ensures x.key != y.key {
          assert x in a && y in b;
        }
      }
    }
  }

  ghost predicate FileApart(s: LogSource, n: nat, q: Query)
    requires n < |s.files|
  {
    forall j :: 0 <= j < n ==> FilesApart(s.id, s.files[j], s.id, s.files[n], q)
  }

  /** The keys of n + 1 files, from those of the first n. */
  lemma NextSourceKeys(s: LogSource, n: nat, q: Query, next: seq<Indexed>, before: seq<Indexed>)
    requires n < |s.files|
    requires next == SourceEvents(s.id, s.files[..n + 1], q) && before == SourceEvents(s.id, s.files[..n], q)
    ensures DistinctKeys(next) <==> DistinctKeys(before) && FileApart(s, n, q)
  {
    var f := s.files[n];
    var last := FileEvents(s.id, f, |f.lines|, q);
    SourceSnoc(s.id, s.files, n + 1, q);
    FileKeys(s.id, f, |f.lines|, q);
    NextFileApart(s, n, q);
    JoinDistinct(before, last);
  }

  lemma {:induction false} SourceKeys(s: LogSource, n: nat, q: Query)
    requires n <= |s.files| && PrefixApart(s, n, q)
    ensures DistinctKeys(SourceEvents(s.id, s.files[..n], q))
    decreases n
  {
    if n > 0 {
      var m: nat := n - 1;
      SourceKeys(s, m, q);
      NextSourceKeys(s, m, q, SourceEvents(s.id, s.files[..n], q), SourceEvents(s.id, s.files[..m], q));
    }
  }

  lemma {:induction false} DistinctFilesApart(s: LogSource, n: nat, q: Query)
    requires n <= |s.files| && DistinctKeys(SourceEvents(s.id, s.files[..n], q))
    ensures PrefixApart(s, n, q)
    decreases n
  {
    if n > 0 {
      var m: nat := n - 1;
      NextSourceKeys(s, m, q, SourceEvents(s.id, s.files[..n], q), SourceEvents(s.id, s.files[..m], q));
      DistinctFilesApart(s, m, q);
    }
  }

  ghost predicate SourcesApart(s: LogSource, t: LogSource, q: Query) {
    forall j, k :: 0 <= j < |s.files| && 0 <= k < |t.files| ==> FilesApart(s.id, s.files[j], t.id, t.files[k], q)
  }

  /** No two matching lines of different files have the same key. */
  ghost predicate LinesApart(sources: seq<LogSource>, n: nat, q: Query)
    requires n <= |sources|
  {
    && (forall i :: 0 <= i < n ==> PrefixApart(sources[i], |sources[i].files|, q))
    && (forall i, k :: 0 <= i < k < n ==> SourcesApart(sources[i], sources[k], q))
  }

  lemma NextSourceApart(sources: seq<LogSource>, n: nat, q: Query)
    requires n < |sources|
    ensures var a, b := AllEvents(sources[..n], q), SourceEvents(sources[n].id, sources[n].files, q);
            KeysApart(a, b) <==> forall i :: 0 <= i < n ==> SourcesApart(sources[i], sources[n], q)
  {
    var a, b := AllEvents(sources[..n], q), SourceEvents(sources[n].id, sources[n].files, q);
    forall x ensures (x in a <==> InPrefix(sources, n, q, x)) && (x in b <==> InSource(sources[n], q, x)) {
      PrefixHolds(sources, n, q, x);
      WholeSource(sources[n], q, x);
    }
    if KeysApart(a, b) {
      forall i | 0 <= i < n ensures SourcesApart(sources[i], sources[n], q) {
        ApartBySource(sources[i], sources[n], q, a, b);
      }
    }
  }

  lemma ApartBySource(s: LogSource, t: LogSource, q: Query, a: seq<Indexed>, b: seq<Indexed>)
    requires KeysApart(a, b)
    requires forall x :: InSource(s, q, x) ==> x in a
    requires forall x :: InSource(t, q, x) ==> x in b
    ensures SourcesApart(s, t, q)
  {
    forall j, k, x, y |
      0 <= j < |s.files| && 0 <= k < |t.files| && InFile(s.id, s.files[j], q, x) && InFile(t.id, t.files[k], q, y)
      ensures x.key != y.key
    {
      assert InSource(s, q, x) && InSource(t, q, y);
    }
  }

  ghost predicate SourceApart(sources: seq<LogSource>, n: nat, q: Query)
    requires n < |sources|
  {
    && PrefixApart(sources[n], |sources[n].files|, q)
    && forall i :: 0 <= i < n ==> SourcesApart(sources[i], sources[n], q)
  }

  lemma OneSourceKeys(s: LogSource, q: Query)
    ensures DistinctKeys(SourceEvents(s.id, s.files, q)) <==> PrefixApart(s, |s.files|, q)
  {
    assert s.files[..|s.files|] == s.files;
    if PrefixApart(s, |s.files|, q) {
      SourceKeys(s, |s.files|, q);
    } else if DistinctKeys(SourceEvents(s.id, s.files, q)) {
      DistinctFilesApart(s, |s.files|, q);
    }
  }

  /** The keys of n + 1 sources, from those of the first n. */
  lemma NextKeys(sources: seq<LogSource>, n: nat, q: Query, next: seq<Indexed>, before: seq<Indexed>)
    requires n < |sources|
    requires next == AllEvents(sources[..n + 1], q) && before == AllEvents(sources[..n], q)
    ensures DistinctKeys(next) <==> DistinctKeys(before) && SourceApart(sources, n, q)
  {
    AllSnoc(sources, n + 1, q);
    OneSourceKeys(sources[n], q);
    NextSourceApart(sources, n, q);
    JoinDistinct(before, SourceEvents(sources[n].id, sources[n].files, q));
  }

  lemma {:induction false} AllKeys(sources: seq<LogSource>, n: nat, q: Query)
    requires n <= |sources| && LinesApart(sources, n, q)
    ensures DistinctKeys(AllEvents(sources[..n], q))
    decreases n
  {
    if n > 0 {
      var m: nat := n - 1;
      AllKeys(sources, m, q);
      NextKeys(sources, m, q, AllEvents(sources[..n], q), AllEvents(sources[..m], q));
    }
  }

  lemma {:induction false} DistinctLinesApart(sources: seq<LogSource>, n: nat, q: Query)
    requires n <= |sources| && DistinctKeys(AllEvents(sources[..n], q))
    ensures LinesApart(sources, n, q)
    decreases n
  {
    if n > 0 {
      var m: nat := n - 1;
      NextKeys(sources, m, q, AllEvents(sources[..n], q), AllEvents(sources[..m], q));
      DistinctLinesApart(sources, m, q);
    }
  }

  /** For given contents: keys are unique exactly when no two matching lines of different files have the same key. */
  lemma ContentKeysIff(sources: seq<LogSource>, q: Query)
    ensures DistinctKeys(AllEvents(sources, q)) <==> LinesApart(sources, |sources|, q)
  {
    assert sources[..|sources|] == sources;
    if LinesApart(sources, |sources|, q) {
      AllKeys(sources, |sources|, q);
    } else if DistinctKeys(AllEvents(sources, q)) {
      DistinctLinesApart(sources, |sources|, q);
    }
  }

  /** Two files that no key can tell apart. */
  predicate SameFile(s: LogSource, j: int, t: LogSource, k: int)
    requires 0 <= j < |s.files| && 0 <= k < |t.files|
  {
    s.id == t.id && s.files[j].name == t.files[k].name
  }

  /** No two files agree in the id of their source and in their name. */
  predicate Unambiguous(sources: seq<LogSource>) {
    forall i, j, h, k ::
      (0 <= i < |sources| && 0 <= h < |sources| && 0 <= j < |sources[i].files| && 0 <= k < |sources[h].files|
       && (i != h || j != k)) ==> !SameFile(sources[i], j, sources[h], k)
  }

  /** A directory holds no two files of one name; with different source ids that is enough. */
  lemma DistinctIdsSuffice(sources: seq<LogSource>)
    requires forall i, h :: 0 <= i < h < |sources| ==> sources[i].id != sources[h].id
    requires forall i, j, k :: 0 <= i < |sources| && 0 <= j < k < |sources[i].files| ==>
               sources[i].files[j].name != sources[i].files[k].name
    ensures Unambiguous(sources)
  {
  }

  lemma KeysAreUnique(sources: seq<LogSource>, q: Query)
    requires Unambiguous(sources)
    ensures DistinctKeys(AllEvents(sources, q))
  {
    var n := |sources|;
    forall i, j, k | 0 <= i < n && 0 <= j < k < |sources[i].files|
      ensures FilesApart(sources[i].id, sources[i].files[j], sources[i].id, sources[i].files[k], q)
    {
      assert !SameFile(sources[i], j, sources[i], k);
    }
    forall i, h, j, k | 0 <= i < h < n && 0 <= j < |sources[i].files| && 0 <= k < |sources[h].files|
      ensures FilesApart(sources[i].id, sources[i].files[j], sources[h].id, sources[h].files[k], q)
    {
      assert !SameFile(sources[i], j, sources[h], k);
    }
    ContentKeysIff(sources, q);
  }

  /** The same sources and file names, whatever the files hold. */
  predicate SameFiles(a: seq<LogSource>, b: seq<LogSource>) {
    && |a| == |b|
    && forall i :: 0 <= i < |a| ==>
         && a[i].id == b[i].id && a[i].prefix == b[i].prefix && |a[i].files| == |b[i].files|
         && forall j :: 0 <= j < |a[i].files| ==> a[i].files[j].name == b[i].files[j].name
  }

  function FillSource(s: LogSource, e: Event): LogSource {
    s.(files := seq(|s.files|, j requires 0 <= j < |s.files| => s.files[j].(lines := [Some(e)])))
  }

  /** Every file holds one line with the event e. */
  function Fill(sources: seq<LogSource>, e: Event): (b: seq<LogSource>)
    ensures SameFiles(sources, b)
  {
    seq(|sources|, i requires 0 <= i < |sources| => FillSource(sources[i], e))
  }

  const EVERYTHING := Query(_ => true, None, None)

  /** Two files that agree in source id and name repeat a key as soon as they hold the same first line. */
  lemma AmbiguousRepeatsKeys(sources: seq<LogSource>, e: Event)
    requires !Unambiguous(sources)
    ensures !DistinctKeys(AllEvents(Fill(sources, e), EVERYTHING))
  {
    var b, n := Fill(sources, e), |sources|;
    var i, j, h, k :|
      0 <= i < n && 0 <= h < n && 0 <= j < |sources[i].files| && 0 <= k < |sources[h].files|
      && (i != h || j != k) && SameFile(sources[i], j, sources[h], k);
    var x := Indexed(e, KeyOf(b[i].id, b[i].files[j].name, 1, e));
    assert InFile(b[i].id, b[i].files[j], EVERYTHING, x) && InFile(b[h].id, b[h].files[k], EVERYTHING, x);
    assert !FilesApart(b[i].id, b[i].files[j], b[h].id, b[h].files[k], EVERYTHING);
    assert !FilesApart(b[h].id, b[h].files[k], b[i].id, b[i].files[j], EVERYTHING);
    ContentKeysIff(b, EVERYTHING);
  }

  /**
    The exact condition on a configuration: keys are unique whatever the files hold if and only
    if no two files agree in both source id and name.
   */
  lemma KeysAreUniqueIff(sources: seq<LogSource>)
    ensures Unambiguous(sources) <==> forall b, q :: SameFiles(sources, b) ==> DistinctKeys(AllEvents(b, q))
  {
    if Unambiguous(sources) {
      forall b, q | SameFiles(sources, b) ensures DistinctKeys(AllEvents(b, q)) {
        SameFilesUnambiguous(sources, b);
        KeysAreUnique(b, q);
      }
    } else {
      var e := Event(DateTime(1970, 1, 1, 0, 0, 0, 0), "", "");
      AmbiguousRepeatsKeys(sources, e);
    }
  }

  lemma SameFilesUnambiguous(a: seq<LogSource>, b: seq<LogSource>)
    requires Unambiguous(a) && SameFiles(a, b)
    ensures Unambiguous(b)
  {
    forall i, j, h, k |
      0 <= i < |b| && 0 <= h < |b| && 0 <= j < |b[i].files| && 0 <= k < |b[h].files| && (i != h || j != k)
      ensures !SameFile(b[i], j, b[h], k)
    {
      assert !SameFile(a[i], j, a[h], k);
    }
  }

  // ---------- Files grow by appends ----------

  /** Every line that holds an event stays where it is. */
  predicate FileGrows(f: LogFile, g: LogFile) {
    && f.name == g.name && |f.lines| <= |g.lines|
    && forall k :: 0 <= k < |f.lines| && f.lines[k].Some? ==> g.lines[k] == f.lines[k]
  }

  predicate SourceGrows(s: LogSource, t: LogSource) {
    s.id == t.id && s.prefix == t.prefix && forall i :: 0 <= i < |s.files| ==> HasGrown(s.files[i], t.files)
  }

  predicate HasGrown(f: LogFile, files: seq<LogFile>) {
    exists j :: 0 <= j < |files| && FileGrows(f, files[j])
  }

  /** Appends to files and new files; the sources stay configured as they are. */
  predicate Grows(a: seq<LogSource>, b: seq<LogSource>) {
    |a| == |b| && forall i :: 0 <= i < |a| ==> SourceGrows(a[i], b[i])
  }

  /** An event keeps its key when the files grow. */
  lemma AppendsKeepEvents(a: seq<LogSource>, b: seq<LogSource>, q: Query)
    requires Grows(a, b)
    ensures forall x :: x in AllEvents(a, q) ==> x in AllEvents(b, q)
  {
    forall x | x in AllEvents(a, q) ensures x in AllEvents(b, q) {
      ReadingIsExact(a, q, x);
      ReadingIsExact(b, q, x);
      var i :| 0 <= i < |a| && InSource(a[i], q, x);
      assert SourceGrows(a[i], b[i]);
      var j :| 0 <= j < |a[i].files| && InFile(a[i].id, a[i].files[j], q, x);
      assert HasGrown(a[i].files[j], b[i].files);
      var k :| 0 <= k < |b[i].files| && FileGrows(a[i].files[j], b[i].files[k]);
      assert InFile(b[i].id, b[i].files[k], q, x);
      assert InSource(b[i], q, x);
    }
  }

  // ---------- The range of a query ----------

  /** A query returns exactly the events of its range, both ends included, that its predicate keeps. */
  lemma RangeIsInclusive(sources: seq<LogSource>, q: Query, x: Indexed)
    ensures x in AllEvents(sources, q) <==>
              && x in AllEvents(sources, EVERYTHING) && q.keep(x.event)
              && !(q.from.Some? && Instant(x.event.created) < Instant(q.from.value))
              && !(q.until.Some? && Instant(q.until.value) < Instant(x.event.created))
  {
    ReadingIsExact(sources, q, x);
    ReadingIsExact(sources, EVERYTHING, x);
    if InSources(sources, q, x) {
      var i :| 0 <= i < |sources| && InSource(sources[i], q, x);
      var j :| 0 <= j < |sources[i].files| && InFile(sources[i].id, sources[i].files[j], q, x);
      assert InFile(sources[i].id, sources[i].files[j], EVERYTHING, x);
      assert InSource(sources[i], EVERYTHING, x);
    }
    if InSources(sources, EVERYTHING, x) && Matches(q, x.event) {
      var i :| 0 <= i < |sources| && InSource(sources[i], EVERYTHING, x);
      var j :| 0 <= j < |sources[i].files| && InFile(sources[i].id, sources[i].files[j], EVERYTHING, x);
      assert InFile(sources[i].id, sources[i].files[j], q, x);
      assert InSource(sources[i], q, x);
    }
  }
}
