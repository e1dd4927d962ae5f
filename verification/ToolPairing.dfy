/**
  Pairing of tool calls with their outputs in the items of an agent run. Calls and outputs
  may be interleaved in any order; a result is produced exactly when they are in bijection.
 */
module ToolPairing {
  import opened Common

  /**
    An item of a run. The content of a call or of an output is None when it lacks a required
    field or does not parse.
   */
  datatype Item<C, O> = Call(id: string, call: Option<C>) | Output(id: string, output: Option<O>) | Other

  datatype PairingError =
    | IncompleteCall | DuplicateCall | IncompleteOutput | UnknownCall | DuplicateOutput | SourceMismatch | MissingOutput

  datatype Pair<C, O> = Pair(id: string, call: C, output: O)

  // ---------- Calls and outputs of a run ----------

  function CallsOf<C, O>(items: seq<Item<C, O>>): seq<Item<C, O>> {
    if items == [] then []
    else
      var front, last := CallsOf(items[..|items| - 1]), items[|items| - 1];
      if last.Call? then front + [last] else front
  }

  function OutputsOf<C, O>(items: seq<Item<C, O>>): seq<Item<C, O>> {
    if items == [] then []
    else
      var front, last := OutputsOf(items[..|items| - 1]), items[|items| - 1];
      if last.Output? then front + [last] else front
  }

  predicate IsNamed<C, O>(i: Item<C, O>) {
    !i.Other? && i.id != ""
  }

  /** Every call has an identifier and content, and no identifier is used twice. */
  ghost predicate GoodCalls<C(!new), O(!new)>(calls: seq<Item<C, O>>) {
    && (forall k :: 0 <= k < |calls| ==> calls[k].Call? && IsNamed(calls[k]) && calls[k].call.Some?)
    && (forall j, k :: 0 <= j < k < |calls| ==> calls[j].Call? && calls[k].Call? && calls[j].id != calls[k].id)
  }

  ghost predicate HasCall<C(!new), O(!new)>(calls: seq<Item<C, O>>, id: string) {
    exists k :: 0 <= k < |calls| && calls[k].Call? && calls[k].id == id
  }

  ghost predicate HasOutput<C(!new), O(!new)>(outputs: seq<Item<C, O>>, id: string) {
    exists k :: 0 <= k < |outputs| && outputs[k].Output? && outputs[k].id == id
  }

  /** Output o answers a call of the list, and fits it. */
  ghost predicate Answers<C(!new), O(!new)>(calls: seq<Item<C, O>>, o: Item<C, O>, fits: (C, O) -> bool) {
    && o.Output? && IsNamed(o) && o.output.Some?
    && exists k :: 0 <= k < |calls| && IsAnswered(calls[k], o, fits)
  }

  predicate IsAnswered<C, O>(c: Item<C, O>, o: Item<C, O>, fits: (C, O) -> bool) {
    c.Call? && o.Output? && c.id == o.id && c.call.Some? && o.output.Some? && fits(c.call.value, o.output.value)
  }

  ghost predicate GoodOutputs<C(!new), O(!new)>(calls: seq<Item<C, O>>, outputs: seq<Item<C, O>>, fits: (C, O) -> bool) {
    && (forall k :: 0 <= k < |outputs| ==> Answers(calls, outputs[k], fits))
    && (forall j, k :: 0 <= j < k < |outputs| ==> outputs[j].Output? && outputs[k].Output? && outputs[j].id != outputs[k].id)
  }

  /** Calls and outputs are in bijection by identifier. */
  ghost predicate Paired<C(!new), O(!new)>(items: seq<Item<C, O>>, fits: (C, O) -> bool) {
    var calls, outputs := CallsOf(items), OutputsOf(items);
    && GoodCalls(calls) && GoodOutputs(calls, outputs, fits)
    && forall k :: 0 <= k < |calls| ==> calls[k].Call? && HasOutput(outputs, calls[k].id)
  }

  /** The results follow the outputs, each with the content of its own call. */
  ghost predicate IsPairing<C(!new), O(!new)>(calls: seq<Item<C, O>>, outputs: seq<Item<C, O>>, r: seq<Pair<C, O>>) {
    && |r| == |outputs|
    && forall k :: 0 <= k < |r| ==>
         outputs[k] == Output(r[k].id, Some(r[k].output)) && Call(r[k].id, Some(r[k].call)) in calls
  }

  lemma {:induction false} CallsComplete<C, O>(items: seq<Item<C, O>>, i: Item<C, O>)
    ensures i in CallsOf(items) <==> i in items && i.Call?
  {
    if items != [] {
      var front, last := items[..|items| - 1], items[|items| - 1];
      assert items == front + [last];
      CallsComplete(front, i);
    }
  }

  lemma {:induction false} OutputsComplete<C, O>(items: seq<Item<C, O>>, i: Item<C, O>)
    ensures i in OutputsOf(items) <==> i in items && i.Output?
  {
    if items != [] {
      var front, last := items[..|items| - 1], items[|items| - 1];
      assert items == front + [last];
      OutputsComplete(front, i);
    }
  }

  lemma {:induction false} CallsPrefix<C, O>(items: seq<Item<C, O>>, n: nat)
    requires n <= |items|
    ensures CallsOf(items[..n]) <= CallsOf(items)
    decreases |items|
  {
    if n < |items| {
      var front := items[..|items| - 1];
      assert front[..n] == items[..n];
      CallsPrefix(front, n);
    } else {
      assert items[..n] == items;
    }
  }

  lemma {:induction false} OutputsPrefix<C, O>(items: seq<Item<C, O>>, n: nat)
    requires n <= |items|
    ensures OutputsOf(items[..n]) <= OutputsOf(items)
    decreases |items|
  {
    if n < |items| {
      var front := items[..|items| - 1];
      assert front[..n] == items[..n];
      OutputsPrefix(front, n);
    } else {
      assert items[..n] == items;
    }
  }

  // ---------- The first loop ----------

  /** The map of the calls met so far. */
  ghost predicate IsCallMap<C(!new), O(!new)>(calls: seq<Item<C, O>>, m: map<string, C>) {
    && (forall k :: 0 <= k < |calls| ==> calls[k].Call? && calls[k].id in m && calls[k].call == Some(m[calls[k].id]))
    && (forall id :: id in m ==> HasCall(calls, id))
  }

  lemma CallNext<C(!new), O(!new)>(calls: seq<Item<C, O>>, m: map<string, C>, c: Item<C, O>)
    requires GoodCalls(calls) && IsCallMap(calls, m) && c.Call? && IsNamed(c) && c.call.Some? && c.id !in m
    ensures GoodCalls(calls + [c]) && IsCallMap(calls + [c], m[c.id := c.call.value])
  {
    var next, n := calls + [c], m[c.id := c.call.value];
    forall k | 0 <= k < |calls| ensures calls[k].id != c.id {
      assert calls[k].id in m;
    }
    forall id | id in n ensures HasCall(next, id) {
      if id == c.id {
        assert next[|calls|] == c;
      } else {
        assert HasCall(calls, id);
        var k :| 0 <= k < |calls| && calls[k].Call? && calls[k].id == id;
        assert next[k] == calls[k];
      }
    }
  }

  lemma BadCall<C(!new), O(!new)>(calls: seq<Item<C, O>>, m: map<string, C>, c: Item<C, O>, all: seq<Item<C, O>>)
    requires IsCallMap(calls, m) && c.Call? && (!IsNamed(c) || c.call.None? || c.id in m) && calls + [c] <= all
    ensures !GoodCalls(all)
  {
    var n := |calls|;
    assert all[n] == (calls + [c])[n] == c;
    if IsNamed(c) && c.call.Some? {
      assert HasCall(calls, c.id);
      var k :| 0 <= k < |calls| && calls[k].Call? && calls[k].id == c.id;
      assert all[k] == (calls + [c])[k] == calls[k];
    }
  }

  method CollectCalls<C(!new), O(!new)>(items: seq<Item<C, O>>) returns (r: Result<map<string, C>, PairingError>)
    ensures r.Success? <==> GoodCalls(CallsOf(items))
    ensures r.Success? ==> IsCallMap(CallsOf(items), r.value)
  {
    var calls: map<string, C> := map[];
    var i := 0;
    while i < |items|
      invariant 0 <= i <= |items|
      invariant GoodCalls(CallsOf(items[..i])) && IsCallMap(CallsOf(items[..i]), calls)
    {
      ghost var before := CallsOf(items[..i]);
      assert items[..i + 1][..i] == items[..i] && items[..i + 1][i] == items[i];
      if items[i].Call? {
        CallsPrefix(items, i + 1);
        if items[i].id == "" || items[i].call.None? {
          BadCall(before, calls, items[i], CallsOf(items));
          return Failure(IncompleteCall);
        }
        if items[i].id in calls {
          BadCall(before, calls, items[i], CallsOf(items));
          return Failure(DuplicateCall);
        }
        CallNext(before, calls, items[i]);
        calls := calls[items[i].id := items[i].call.value];
      }
      i := i + 1;
    }
    assert items[..i] == items;
    return Success(calls);
  }

  // ---------- The second loop ----------

  lemma AnswerNext<C(!new), O(!new)>(
    calls: seq<Item<C, O>>, m: map<string, C>, outputs: seq<Item<C, O>>, consumed: set<string>, r: seq<Pair<C, O>>,
    o: Item<C, O>, fits: (C, O) -> bool)
    requires IsCallMap(calls, m) && GoodOutputs(calls, outputs, fits) && IsPairing(calls, outputs, r)
    requires forall id :: id in consumed <==> HasOutput(outputs, id)
    requires o.Output? && IsNamed(o) && o.output.Some? && o.id in m && o.id !in consumed && fits(m[o.id], o.output.value)
    ensures GoodOutputs(calls, outputs + [o], fits)
    ensures IsPairing(calls, outputs + [o], r + [Pair(o.id, m[o.id], o.output.value)])
    ensures forall id :: id in consumed + {o.id} <==> HasOutput(outputs + [o], id)
  {
    assert HasCall(calls, o.id);
    var c :| 0 <= c < |calls| && calls[c].Call? && calls[c].id == o.id;
    assert calls[c] == Call(o.id, Some(m[o.id]));
    assert calls[c] in calls && IsAnswered(calls[c], o, fits);
    var next := outputs + [o];
    forall k | 0 <= k < |outputs| ensures outputs[k].Output? && outputs[k].id != o.id {
      assert Answers(calls, outputs[k], fits);
      assert HasOutput(outputs, outputs[k].id);
    }
    forall k | 0 <= k < |next| ensures Answers(calls, next[k], fits) {
      assert k < |outputs| ==> next[k] == outputs[k] && Answers(calls, outputs[k], fits);
    }
    ConsumedNext(outputs, consumed, o);
  }

  lemma ConsumedNext<C(!new), O(!new)>(outputs: seq<Item<C, O>>, consumed: set<string>, o: Item<C, O>)
    requires (forall id :: id in consumed <==> HasOutput(outputs, id)) && o.Output?
    ensures forall id :: id in consumed + {o.id} <==> HasOutput(outputs + [o], id)
  {
    var next := outputs + [o];
    forall id ensures id in consumed + {o.id} <==> HasOutput(next, id) {
      if id == o.id {
        assert next[|outputs|] == o;
      } else if HasOutput(outputs, id) {
        var k :| 0 <= k < |outputs| && outputs[k].Output? && outputs[k].id == id;
        assert next[k] == outputs[k];
      }
    }
  }

  lemma BadAnswer<C(!new), O(!new)>(
    calls: seq<Item<C, O>>, m: map<string, C>, outputs: seq<Item<C, O>>, consumed: set<string>, o: Item<C, O>,
    all: seq<Item<C, O>>, fits: (C, O) -> bool)
    requires IsCallMap(calls, m) && outputs + [o] <= all && o.Output?
    requires forall id :: id in consumed <==> HasOutput(outputs, id)
    requires !IsNamed(o) || o.output.None? || o.id !in m || o.id in consumed || !fits(m[o.id], o.output.value)
    ensures !GoodOutputs(calls, all, fits)
  {
    var n := |outputs|;
    assert all[n] == (outputs + [o])[n] == o;
    if o.id in consumed {
      var k :| 0 <= k < |outputs| && outputs[k].Output? && outputs[k].id == o.id;
      assert all[k] == (outputs + [o])[k] == outputs[k];
    } else {
      assert !Answers(calls, o, fits) by {
        forall k | 0 <= k < |calls| ensures !(IsNamed(o) && o.output.Some? && IsAnswered(calls[k], o, fits)) {
          assert calls[k].id in m && calls[k].call == Some(m[calls[k].id]);
        }
      }
      assert !Answers(calls, all[n], fits);
    }
  }

  /**
    Extraction succeeds exactly on bijective pairs; then results follow the outputs, each with
    its own call, and none is lost or duplicated.
   */
  method Extract<C(!new), O(!new)>(items: seq<Item<C, O>>, fits: (C, O) -> bool)
    returns (r: Result<seq<Pair<C, O>>, PairingError>)
    ensures r.Success? <==> Paired(items, fits)
    ensures r.Success? ==> IsPairing(CallsOf(items), OutputsOf(items), r.value)
    ensures r == Failure(MissingOutput) ==>
              GoodCalls(CallsOf(items)) && GoodOutputs(CallsOf(items), OutputsOf(items), fits)
  {
    var collected := CollectCalls(items);
    if collected.Failure? {
      return Failure(if collected.error == MissingOutput then IncompleteCall else collected.error);
    }
    var calls := collected.value;
    ghost var all := CallsOf(items);
    var results: seq<Pair<C, O>> := [];
    var consumed: set<string> := {};
    var i := 0;
    while i < |items|
      invariant 0 <= i <= |items|
      invariant GoodOutputs(all, OutputsOf(items[..i]), fits) && IsPairing(all, OutputsOf(items[..i]), results)
      invariant forall id :: id in consumed <==> HasOutput(OutputsOf(items[..i]), id)
    {
      ghost var before := OutputsOf(items[..i]);
      assert items[..i + 1][..i] == items[..i] && items[..i + 1][i] == items[i];
      if items[i].Output? {
        var o := items[i];
        OutputsPrefix(items, i + 1);
        if o.id == "" || o.id !in calls || o.id in consumed || o.output.None? || !fits(calls[o.id], o.output.value) {
          BadAnswer(all, calls, before, consumed, o, OutputsOf(items), fits);
          return Failure(RejectedOutput(o, calls, consumed));
        }
        AnswerNext(all, calls, before, consumed, results, o, fits);
        results := results + [Pair(o.id, calls[o.id], o.output.value)];
        consumed := consumed + {o.id};
      }
      i := i + 1;
    }
    assert items[..i] == items;
    if exists id :: id in calls.Keys && id !in consumed {
      Unanswered(all, calls, OutputsOf(items), consumed);
      return Failure(MissingOutput);
    }
    forall k | 0 <= k < |all| ensures all[k].Call? && HasOutput(OutputsOf(items), all[k].id) {
      assert all[k].id in calls;
    }
    return Success(results);
  }

  /** The first check that fails for an output. */
  function RejectedOutput<C, O>(o: Item<C, O>, calls: map<string, C>, consumed: set<string>): (e: PairingError)
    requires o.Output?
    ensures e != MissingOutput
  {
    if o.id == "" then IncompleteOutput
    else if o.id !in calls then UnknownCall
    else if o.id in consumed then DuplicateOutput
    else if o.output.None? then IncompleteOutput
    else SourceMismatch
  }

  lemma Unanswered<C(!new), O(!new)>(
    calls: seq<Item<C, O>>, m: map<string, C>, outputs: seq<Item<C, O>>, consumed: set<string>)
    requires IsCallMap(calls, m) && (forall id :: id in consumed <==> HasOutput(outputs, id))
    requires exists id :: id in m && id !in consumed
    ensures exists k :: 0 <= k < |calls| && calls[k].Call? && !HasOutput(outputs, calls[k].id)
  {
    var id :| id in m && id !in consumed;
    assert HasCall(calls, id);
    var k :| 0 <= k < |calls| && calls[k].Call? && calls[k].id == id;
  }

  /** As many results as calls: none is lost, none is duplicated. */
  lemma PairingIsBijective<C(!new), O(!new)>(items: seq<Item<C, O>>, fits: (C, O) -> bool, r: seq<Pair<C, O>>)
    requires Paired(items, fits) && IsPairing(CallsOf(items), OutputsOf(items), r)
    ensures |r| == |CallsOf(items)|
    ensures forall j, k :: 0 <= j < k < |r| ==> r[j].id != r[k].id
  {
    var calls, outputs := CallsOf(items), OutputsOf(items);
    var ids := seq(|calls|, k requires 0 <= k < |calls| => if calls[k].Call? then calls[k].id else "");
    var answered := seq(|outputs|, k requires 0 <= k < |outputs| => if outputs[k].Output? then outputs[k].id else "");
    assert Distinct(ids) && Distinct(answered);
    ElementsSize(ids);
    ElementsSize(answered);
    forall id ensures id in ids <==> id in answered {
      SameIds(calls, outputs, fits, ids, answered, id);
    }
    assert Elements(ids) == Elements(answered);
  }

  lemma SameIds<C(!new), O(!new)>(
    calls: seq<Item<C, O>>, outputs: seq<Item<C, O>>, fits: (C, O) -> bool, ids: seq<string>, answered: seq<string>,
    id: string)
    requires GoodCalls(calls) && GoodOutputs(calls, outputs, fits)
    requires forall k :: 0 <= k < |calls| ==> calls[k].Call? && HasOutput(outputs, calls[k].id)
    requires |ids| == |calls| && forall k :: 0 <= k < |ids| ==> calls[k].Call? && ids[k] == calls[k].id
    requires |answered| == |outputs| && forall k :: 0 <= k < |answered| ==> outputs[k].Output? && answered[k] == outputs[k].id
    ensures id in ids <==> id in answered
  {
    if id in ids {
      var k :| 0 <= k < |ids| && ids[k] == id;
      assert HasOutput(outputs, calls[k].id);
      var j :| 0 <= j < |outputs| && outputs[j].Output? && outputs[j].id == id;
      assert answered[j] == id;
    }
    if id in answered {
      var j :| 0 <= j < |answered| && answered[j] == id;
      assert Answers(calls, outputs[j], fits);
      var k :| 0 <= k < |calls| && IsAnswered(calls[k], outputs[j], fits);
      assert ids[k] == id;
    }
  }

  // ---------- The two extractors ----------

  datatype CollectorCode = DocumentCollector | ContextCollector | OperationsCollector

  /** The collector behind a tool of the evidence run. */
  function CollectorOf(tool: string): Option<CollectorCode> {
    if tool == "collect_document_information" then Some(DocumentCollector)
    else if tool == "collect_context_information" then Some(ContextCollector)
    else if tool == "collect_operation_information" then Some(OperationsCollector)
    else None
  }

  datatype CollectorResult<P> = CollectorResult(code: CollectorCode, payload: P)

  /** `extract_collector_results`: the calls are of collector tools, and every result names its collector. */
  method ExtractCollectorResults<P(!new)>(items: seq<Item<string, CollectorResult<P>>>)
    returns (r: Result<seq<CollectorResult<P>>, PairingError>)
    ensures r.Success? <==> Paired(CollectorItems(items), (c: CollectorCode, o: CollectorResult<P>) => o.code == c)
    ensures r.Success? ==>
              var outputs := OutputsOf(CollectorItems(items));
              |r.value| == |outputs| && forall k :: 0 <= k < |outputs| ==> outputs[k].Output? && outputs[k].output == Some(r.value[k])
  {
    var coded := CollectorItems(items);
    var pairs := Extract(coded, (c: CollectorCode, o: CollectorResult<P>) => o.code == c);
    if pairs.Failure? {
      return Failure(pairs.error);
    }
    var results := [];
    var i := 0;
    while i < |pairs.value|
      invariant 0 <= i <= |pairs.value| && |results| == i
      invariant forall k :: 0 <= k < i ==> results[k] == pairs.value[k].output
    {
      results := results + [pairs.value[i].output];
      i := i + 1;
    }
    return Success(results);
  }

  function CollectorItem<P>(i: Item<string, CollectorResult<P>>): Item<CollectorCode, CollectorResult<P>> {
    match i
    case Call(id, tool) => Call(id, if tool.Some? then CollectorOf(tool.value) else None)
    case Output(id, output) => Output(id, output)
    case Other => Other
  }

  function CollectorItems<P>(items: seq<Item<string, CollectorResult<P>>>): seq<Item<CollectorCode, CollectorResult<P>>> {
    seq(|items|, i requires 0 <= i < |items| => CollectorItem(items[i]))
  }
}
