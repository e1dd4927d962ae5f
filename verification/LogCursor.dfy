/**
  Scans of the log files through an encoded cursor: one call, and the run of calls that
  follows the cursor while the files grow.
 */
module LogCursor {
  import opened Common
  import opened IsoTimestamps
  import opened Base64Url
  import opened LogRecords
  import opened LogPaging

  /** What a cursor carries. The key is None when it is not four strings and a number. */
  datatype Payload = Payload(version: int, ascending: bool, sources: seq<string>, key: Option<Key>)

  /** JSON, as some pair of functions between payloads and bytes. */
  datatype Codec = Codec(dump: Payload -> seq<byte>, load: seq<byte> -> Option<Payload>)

  datatype QueryError = BadLimit | BadCursor

  datatype ScanPage = ScanPage(events: seq<Event>, next: Option<string>)

  /** Loading what was dumped gives it back. */
  ghost predicate Inverts(codec: Codec) {
    forall p: Payload :: codec.load(codec.dump(p)) == Some(p)
  }

  // ---------- The cursor ----------

  function Signature(sources: seq<LogSource>): (r: seq<string>)
    ensures |r| == |sources|
  {
    seq(|sources|, i requires 0 <= i < |sources| => sources[i].id + ":" + sources[i].prefix)
  }

  function EncodeCursor(codec: Codec, key: Key, ascending: bool, signature: seq<string>): string {
    Strip(Encode(codec.dump(Payload(1, ascending, signature, Some(key)))))
  }

  function DecodeCursor(codec: Codec, cursor: string, ascending: bool, signature: seq<string>): Option<Key> {
    var bytes := Decode(Restore(cursor));
    if bytes.None? then None
    else
      var loaded := codec.load(bytes.value);
      if loaded.None? then None
      else
        var p := loaded.value;
        if p.version != 1 || p.ascending != ascending || p.sources != signature then None else p.key
  }

  /**
    A cursor leads back to its key in the same direction over the same sources; in the other
    direction or over other sources it is refused.
   */
  lemma CursorRoundTrip(
    codec: Codec, key: Key, ascending: bool, signature: seq<string>, direction: bool, expected: seq<string>)
    requires Inverts(codec)
    ensures DecodeCursor(codec, EncodeCursor(codec, key, ascending, signature), direction, expected) ==
            if direction == ascending && expected == signature then Some(key) else None
  {
    var p := Payload(1, ascending, signature, Some(key));
    RoundTrip(codec.dump(p));
    assert codec.load(codec.dump(p)) == Some(p);
  }

  predicate ColonFree(s: LogSource) {
    ':' !in s.id && ':' !in s.prefix
  }

  predicate SameConfiguration(a: seq<LogSource>, b: seq<LogSource>) {
    |a| == |b| && forall i :: 0 <= i < |a| ==> a[i].id == b[i].id && a[i].prefix == b[i].prefix
  }

  /** No other configuration has the signature of a. */
  ghost predicate IsToldApart(a: seq<LogSource>) {
    forall b :: Signature(a) == Signature(b) ==> SameConfiguration(a, b)
  }

  /** A signature tells its sources apart from all others exactly when no id and no prefix holds a colon. */
  lemma SignatureTellsIff(a: seq<LogSource>)
    ensures IsToldApart(a) <==> forall i :: 0 <= i < |a| ==> ColonFree(a[i])
  {
    if forall i :: 0 <= i < |a| ==> ColonFree(a[i]) {
      forall b | Signature(a) == Signature(b) ensures SameConfiguration(a, b) {
        ColonFreeIsTold(a, b);
      }
    } else {
      var i :| 0 <= i < |a| && !ColonFree(a[i]);
      var other := Collision(a[i]);
      var b := a[i := other];
      assert Signature(a) == Signature(b);
      assert b[i] == other && !SameConfiguration(a, b);
    }
  }

  lemma ColonFreeIsTold(a: seq<LogSource>, b: seq<LogSource>)
    requires Signature(a) == Signature(b) && forall i :: 0 <= i < |a| ==> ColonFree(a[i])
    ensures SameConfiguration(a, b)
  {
    assert |a| == |Signature(a)| == |b|;
    forall i | 0 <= i < |a| ensures a[i].id == b[i].id && a[i].prefix == b[i].prefix {
      assert Signature(a)[i] == Signature(b)[i];
      ColonSplits(a[i].id, a[i].prefix, b[i].id, b[i].prefix);
    }
  }

  /** A text with one colon splits in one way. */
  lemma ColonSplits(x: string, p: string, y: string, r: string)
    requires x + ":" + p == y + ":" + r && ':' !in x && ':' !in p
    ensures x == y && p == r
  {
    var s, t := x + ":" + p, y + ":" + r;
    assert s[|x|] == ':' && t[|y|] == ':';
    forall i | 0 <= i < |s| && i != |x| ensures s[i] != ':' {
      assert i < |x| ==> s[i] == x[i] && x[i] in x;
      assert i > |x| ==> s[i] == p[i - |x| - 1] && p[i - |x| - 1] in p;
    }
    assert |x| == |y|;
    assert x == s[..|x|] && y == t[..|y|];
    assert p == s[|x| + 1..] && r == t[|y| + 1..];
  }

  /** Splitting at another colon gives another source with the same text. */
  lemma Collision(s: LogSource) returns (other: LogSource)
    requires !ColonFree(s)
    ensures other.id + ":" + other.prefix == s.id + ":" + s.prefix && other.id != s.id
  {
    if ':' in s.id {
      var k :| 0 <= k < |s.id| && s.id[k] == ':';
      other := LogSource(s.id[..k], s.id[k + 1..] + ":" + s.prefix, s.files);
      assert s.id == s.id[..k] + ":" + s.id[k + 1..];
    } else {
      var k :| 0 <= k < |s.prefix| && s.prefix[k] == ':';
      other := LogSource(s.id + ":" + s.prefix[..k], s.prefix[k + 1..], s.files);
      assert s.prefix == s.prefix[..k] + ":" + s.prefix[k + 1..];
    }
  }

  // ---------- One call ----------

  function EventsOf(items: seq<Indexed>): (r: seq<Event>)
    ensures |r| == |items|
  {
    seq(|items|, i requires 0 <= i < |items| => items[i].event)
  }

  /** The key a call starts behind, or the refusal of its cursor. */
  function Start(codec: Codec, sources: seq<LogSource>, cursor: Option<string>, ascending: bool): Result<Option<Key>, QueryError> {
    if cursor.None? then Success(None)
    else
      var key := DecodeCursor(codec, cursor.value, ascending, Signature(sources));
      if key.None? then Failure(BadCursor) else Success(key)
  }

  function ScanResult(codec: Codec, sources: seq<LogSource>, q: Query, limit: int, cursor: Option<string>, ascending: bool)
    : Result<ScanPage, QueryError>
  {
    if limit < 1 then Failure(BadLimit)
    else
      var start := Start(codec, sources, cursor, ascending);
      if start.Failure? then Failure(start.error)
      else
        var (page, next) := Page(AllEvents(sources, q), start.value, limit, ascending);
        Success(ScanPage(EventsOf(page), NextCursor(codec, sources, next, ascending)))
  }

  function NextCursor(codec: Codec, sources: seq<LogSource>, next: Option<Key>, ascending: bool): Option<string> {
    if next.None? then None else Some(EncodeCursor(codec, next.value, ascending, Signature(sources)))
  }

  method SkipConsumed(indexed: seq<Indexed>, after: Key, ascending: bool) returns (rest: seq<Indexed>)
    ensures rest == Beyond(indexed, Some(after), ascending)
  {
    rest := [];
    var i := 0;
    while i < |indexed|
      invariant 0 <= i <= |indexed| && rest == Beyond(indexed[..i], Some(after), ascending)
    {
      assert indexed[..i + 1][..i] == indexed[..i];
      if Before(after, indexed[i].key, ascending) {
        rest := rest + [indexed[i]];
      }
      i := i + 1;
    }
    assert indexed[..i] == indexed;
  }

  lemma {:induction false} NoCursorSkipsNothing(s: seq<Indexed>, ascending: bool)
    ensures Beyond(s, None, ascending) == s
  {
    if s != [] {
      NoCursorSkipsNothing(s[..|s| - 1], ascending);
      assert s == s[..|s| - 1] + [s[|s| - 1]];
    }
  }

  /** `scan`. */
  method Scan(codec: Codec, sources: seq<LogSource>, q: Query, limit: int, cursor: Option<string>, ascending: bool)
    returns (r: Result<ScanPage, QueryError>)
    ensures r == ScanResult(codec, sources, q, limit, cursor, ascending)
  {
    if limit < 1 {
      return Failure(BadLimit);
    }
    var start := Start(codec, sources, cursor, ascending);
    if start.Failure? {
      return Failure(start.error);
    }
    var page, next := ReadPage(sources, q, limit, start.value, ascending);
    return Success(ScanPage(EventsOf(page), NextCursor(codec, sources, next, ascending)));
  }

  /** Reading, sorting, resuming and cutting. */
  method ReadPage(sources: seq<LogSource>, q: Query, limit: int, after: Option<Key>, ascending: bool)
    returns (page: seq<Indexed>, next: Option<Key>)
    requires limit > 0
    ensures (page, next) == Page(AllEvents(sources, q), after, limit, ascending)
  {
    var indexed := ReadSources(sources, q);
    indexed := Sort(indexed, ascending);
    NoCursorSkipsNothing(indexed, ascending);
    if after.Some? {
      indexed := SkipConsumed(indexed, after.value, ascending);
    }
    page, next := CutPage(indexed, limit);
  }

  /** One event more than the page shows whether there is a next page. */
  method CutPage(indexed: seq<Indexed>, limit: nat) returns (page: seq<Indexed>, next: Option<Key>)
    requires limit > 0
    ensures (page, next) == Cut(indexed, limit)
  {
    page := if |indexed| <= limit + 1 then indexed else indexed[..limit + 1];
    var hasMore := |page| > limit;
    next := None;
    if hasMore {
      assert page[..limit] == indexed[..limit];
      page := page[..limit];
      next := Some(page[|page| - 1].key);
    }
  }

  // ---------- Following the cursor ----------

  /** What the sources hold at each call. */
  predicate LogsGrow(states: seq<seq<LogSource>>) {
    && (forall i :: 0 <= i < |states| ==> Unambiguous(states[i]))
    && (forall i :: 0 < i < |states| ==> Grows(states[i - 1], states[i]))
  }

  function ListsOf(states: seq<seq<LogSource>>, q: Query): (r: seq<seq<Indexed>>)
    ensures |r| == |states|
  {
    seq(|states|, i requires 0 <= i < |states| => AllEvents(states[i], q))
  }

  /** The events of all calls, and whether the last cursor was absent. A refused call ends the run. */
  function Follow(
    codec: Codec, states: seq<seq<LogSource>>, q: Query, limit: int, cursor: Option<string>, ascending: bool)
    : (seq<Event>, bool)
  {
    if states == [] then ([], false)
    else
      var r := ScanResult(codec, states[0], q, limit, cursor, ascending);
      if r.Failure? then ([], false)
      else if r.value.next.None? then (r.value.events, true)
      else
        var (rest, ended) := Follow(codec, states[1..], q, limit, r.value.next, ascending);
        (r.value.events + rest, ended)
  }

  lemma SameSignature(a: seq<LogSource>, b: seq<LogSource>)
    requires Grows(a, b)
    ensures Signature(a) == Signature(b)
  {
    forall i | 0 <= i < |a| ensures Signature(a)[i] == Signature(b)[i] {
      assert SourceGrows(a[i], b[i]);
    }
  }

  lemma ListsGrow(states: seq<seq<LogSource>>, q: Query)
    requires LogsGrow(states)
    ensures Growing(ListsOf(states, q))
  {
    var lists := ListsOf(states, q);
    forall i | 0 <= i < |lists| ensures DistinctKeys(lists[i]) {
      assert Unambiguous(states[i]);
      KeysAreUnique(states[i], q);
    }
    forall i | 0 < i < |lists| ensures Within(lists[i - 1], lists[i]) {
      assert Grows(states[i - 1], states[i]);
      AppendsKeepEvents(states[i - 1], states[i], q);
    }
  }

  /** The cursor of the sources for a key. */
  predicate CursorFor(codec: Codec, sources: seq<LogSource>, cursor: Option<string>, after: Option<Key>, ascending: bool) {
    Start(codec, sources, cursor, ascending) == Success(after)
  }

  /** The next call starts behind the last event of the page. */
  lemma NextStart(codec: Codec, a: seq<LogSource>, b: seq<LogSource>, next: Key, ascending: bool)
    requires Inverts(codec) && Grows(a, b)
    ensures CursorFor(codec, b, NextCursor(codec, a, Some(next), ascending), Some(next), ascending)
  {
    SameSignature(a, b);
    CursorRoundTrip(codec, next, ascending, Signature(a), ascending, Signature(b));
  }

  lemma ScanStep(
    codec: Codec, sources: seq<LogSource>, q: Query, limit: nat, cursor: Option<string>, after: Option<Key>, ascending: bool)
    requires limit > 0 && CursorFor(codec, sources, cursor, after, ascending)
    ensures var (page, next) := Page(AllEvents(sources, q), after, limit, ascending);
            var r := ScanResult(codec, sources, q, limit, cursor, ascending);
            r == Success(ScanPage(EventsOf(page), NextCursor(codec, sources, next, ascending)))
  {
  }

  /** One step of the run, for the page and the cursor of its first call. */
  lemma FollowStep(
    codec: Codec, states: seq<seq<LogSource>>, q: Query, limit: nat, cursor: Option<string>, ascending: bool,
    events: seq<Event>, next: Option<string>)
    requires states != [] && ScanResult(codec, states[0], q, limit, cursor, ascending) == Success(ScanPage(events, next))
    ensures Follow(codec, states, q, limit, cursor, ascending) ==
            if next.None? then (events, true)
            else
              var (rest, ended) := Follow(codec, states[1..], q, limit, next, ascending);
              (events + rest, ended)
  {
  }

  lemma ListsTail(states: seq<seq<LogSource>>, q: Query)
    requires states != []
    ensures ListsOf(states, q)[0] == AllEvents(states[0], q)
    ensures ListsOf(states, q)[1..] == ListsOf(states[1..], q)
  {
  }

  lemma EventsConcat(a: seq<Indexed>, b: seq<Indexed>)
    ensures EventsOf(a + b) == EventsOf(a) + EventsOf(b)
  {
  }

  /** The run through encoded cursors is the walk over the lists of events. */
  lemma {:induction false} FollowIsWalk(
    codec: Codec, states: seq<seq<LogSource>>, q: Query, limit: nat, cursor: Option<string>, after: Option<Key>, ascending: bool)
    requires Inverts(codec) && limit > 0 && LogsGrow(states)
    requires states != [] ==> CursorFor(codec, states[0], cursor, after, ascending)
    ensures Follow(codec, states, q, limit, cursor, ascending) == ReadOff(Walk(ListsOf(states, q), after, limit, ascending))
    decreases |states|
  {
    if states != [] {
      var tail := states[1..];
      var (page, next) := Page(AllEvents(states[0], q), after, limit, ascending);
      var text := NextCursor(codec, states[0], next, ascending);
      ScanStep(codec, states[0], q, limit, cursor, after, ascending);
      FollowStep(codec, states, q, limit, cursor, ascending, EventsOf(page), text);
      ListsTail(states, q);
      WalkStep(ListsOf(states, q), after, limit, ascending, page, next);
      if next.Some? {
        TailLogsGrow(states);
        if tail != [] {
          assert Grows(states[1 - 1], states[1]);
          NextStart(codec, states[0], states[1], next.value, ascending);
        }
        FollowIsWalk(codec, tail, q, limit, text, next, ascending);
        EventsConcat(page, Walk(ListsOf(tail, q), next, limit, ascending).0);
      }
    }
  }

  function ReadOff(walk: (seq<Indexed>, bool)): (seq<Event>, bool) {
    (EventsOf(walk.0), walk.1)
  }

  lemma TailLogsGrow(states: seq<seq<LogSource>>)
    requires states != [] && LogsGrow(states)
    ensures LogsGrow(states[1..])
  {
    var tail := states[1..];
    forall i | 0 <= i < |tail| ensures Unambiguous(tail[i]) {
      assert tail[i] == states[i + 1];
    }
    forall i | 0 < i < |tail| ensures Grows(tail[i - 1], tail[i]) {
      assert tail[i - 1] == states[i + 1 - 1] && tail[i] == states[i + 1];
    }
  }

  /** The order of keys is the order in time. */
  lemma OrderedInTime(sources: seq<LogSource>, q: Query, a: Indexed, b: Indexed, ascending: bool)
    requires a in AllEvents(sources, q) && b in AllEvents(sources, q) && Before(a.key, b.key, ascending)
    ensures if ascending then Instant(a.event.created) <= Instant(b.event.created)
            else Instant(b.event.created) <= Instant(a.event.created)
  {
    ReadingIsExact(sources, q, a);
    ReadingIsExact(sources, q, b);
    assert a.key.created == IsoText(a.event.created) by { CreatedText(sources, q, a); }
    assert b.key.created == IsoText(b.event.created) by { CreatedText(sources, q, b); }
    IsoOrderIsTimeOrder(a.event.created, b.event.created);
    IsoOrderIsTimeOrder(b.event.created, a.event.created);
  }

  lemma CreatedText(sources: seq<LogSource>, q: Query, x: Indexed)
    requires InSources(sources, q, x)
    ensures x.key.created == IsoText(x.event.created)
  {
    var i :| 0 <= i < |sources| && InSource(sources[i], q, x);
    var j :| 0 <= j < |sources[i].files| && InFile(sources[i].id, sources[i].files[j], q, x);
  }

  /** The items of a complete run: each one once, in order, and in order of time. */
  ghost predicate ExactRun(items: seq<Indexed>, first: seq<LogSource>, last: seq<LogSource>, q: Query, ascending: bool) {
    && Ordered(items, ascending) && DistinctKeys(items)
    && (forall x :: InSources(first, q, x) ==> x in items)
    && (forall x :: x in items ==> InSources(last, q, x))
    && (forall i, j :: 0 <= i < j < |items| ==>
                         if ascending then Instant(items[i].event.created) <= Instant(items[j].event.created)
                         else Instant(items[j].event.created) <= Instant(items[i].event.created))
  }

  /**
    Pagination: calls that follow `next_cursor` until it is absent return every matching event
    present at the first call exactly once and in order, in either direction and for every
    page size, while files grow between the calls; and they do end.
   */
  lemma PaginationIsExact(codec: Codec, states: seq<seq<LogSource>>, q: Query, limit: nat, ascending: bool)
    requires Inverts(codec) && limit > 0 && states != [] && LogsGrow(states)
    ensures var (events, ended) := Follow(codec, states, q, limit, None, ascending);
            && (|states| * limit > |AllEvents(states[|states| - 1], q)| ==> ended)
            && (ended ==> exists items ::
                 events == EventsOf(items) && ExactRun(items, states[0], states[|states| - 1], q, ascending))
  {
    var lists := ListsOf(states, q);
    var last := states[|states| - 1];
    ListsGrow(states, q);
    FollowIsWalk(codec, states, q, limit, None, None, ascending);
    if |states| * limit > |AllEvents(last, q)| {
      WalkEnds(lists, limit, ascending);
    }
    var (items, ended) := Walk(lists, None, limit, ascending);
    if ended {
      WalkIsOrdered(lists, None, limit, ascending);
      OrderedKeys(items, ascending);
      forall x | InSources(states[0], q, x) ensures x in items {
        ReadingIsExact(states[0], q, x);
        WalkIsComplete(lists, None, limit, ascending, x);
      }
      forall x | x in items ensures InSources(last, q, x) {
        ReadingIsExact(last, q, x);
      }
      forall i, j | 0 <= i < j < |items|
        ensures if ascending then Instant(items[i].event.created) <= Instant(items[j].event.created)
                else Instant(items[j].event.created) <= Instant(items[i].event.created)
      {
        assert items[i] in items && items[j] in items;
        OrderedInTime(last, q, items[i], items[j], ascending);
      }
      assert ExactRun(items, states[0], last, q, ascending);
    }
  }
}
