/** Test-case synthesis in test_tc_generator/processor.py: generate_testcases (batches of
    five chunks, one backend call per batch, the parse ladder and its fallbacks) and
    create_generic_testcase (the record drawn at random from the taxonomy). */
module Synthesis {
  import opened Values
  import opened Client
  import opened Spans
  import opened Structure

  const BatchSize := 5

  /** len(range(0, n, 5)): the number of batches, and of backend calls, for n chunks. */
  function NumBatches(n: nat): (m: nat)
    ensures BatchSize * m >= n
    ensures m > 0 ==> BatchSize * (m - 1) < n
  {
    (n + BatchSize - 1) / BatchSize
  }

  /** filtered_sentences[i:i+5] for i = 5 * b: a slice that stops early at the end, and is
      empty past it. */
  function Batch(docs: seq<Document>, b: nat): (batch: seq<Document>)
    ensures |batch| <= BatchSize
    ensures b < NumBatches(|docs|) ==> 1 <= |batch|
    ensures b + 1 < NumBatches(|docs|) ==> |batch| == BatchSize
    ensures forall k :: 0 <= k < |batch| ==> BatchSize * b + k < |docs| && batch[k] == docs[BatchSize * b + k]
  {
    var start := Min(BatchSize * b, |docs|);
    var stop := Min(start + BatchSize, |docs|);
    docs[start..stop]
  }

  /** The first m batches one after the other. */
  function Covered(docs: seq<Document>, m: nat): seq<Document>
    requires m <= NumBatches(|docs|)
  {
    if m == 0 then [] else Covered(docs, m - 1) + Batch(docs, m - 1)
  }

  function Min(a: int, b: int): int {
    if a < b then a else b
  }

  lemma {:induction false} CoveredPrefix(docs: seq<Document>, m: nat)
    requires m <= NumBatches(|docs|)
    ensures Covered(docs, m) == docs[..Min(BatchSize * m, |docs|)]
  {
    if m > 0 {
      CoveredPrefix(docs, m - 1);
      var start := BatchSize * (m - 1);
      assert Min(start, |docs|) == start;
      assert docs[..start] + Batch(docs, m - 1) == docs[..Min(BatchSize * m, |docs|)];
    }
  }

  /** The batches partition the chunks: taken in order they give back exactly the input. */
  lemma BatchesPartition(docs: seq<Document>)
    ensures Covered(docs, NumBatches(|docs|)) == docs
  {
    CoveredPrefix(docs, NumBatches(|docs|));
    assert docs[..|docs|] == docs;
  }

  /** Which draw of random.choice is meant: batch, fallback attempt within the batch (1 to 3),
      and position of the chunk within the batch. */
  datatype Slot = Slot(batch: nat, attempt: nat, position: nat)

  /** The four random draws of one create_generic_testcase call, as raw indices. */
  datatype Pick = Pick(major: nat, medium: nat, minor: nat, kind: nat)

  /** The source of randomness of a run. */
  type Chooser = Slot -> Pick

  /** random.choice(options) with the raw draw r: an IndexError on an empty list. */
  function Choice(options: seq<string>, r: nat): (res: Result<string>)
    ensures res.Ok? <==> options != []
    ensures res.Ok? ==> res.value in options
    ensures res.Err? ==> res.error == IndexError
  {
    if options == [] then Err(IndexError) else Ok(options[r % |options|])
  }

  /** Every option of a non-empty list can be drawn. */
  lemma {:induction false} ChoiceReaches(options: seq<string>, x: string) returns (r: nat)
    requires x in options
    ensures Choice(options, r) == Ok(x)
  {
    r :| r < |options| && options[r] == x;
  }

  const Kinds := ["정상", "예외", "경계"]
  const TypeKey := "구분"
  const ContentKey := "테스트 내용"
  const ConditionKey := "테스트 조건"
  const ExpectationKey := "기대 결과"
  const NoteKey := "비고"

  /** The eight keys of a test case, in the order of the record literal at lines 289-298. */
  const RecordKeys := [MajorKey, MediumKey, MinorKey, TypeKey, ContentKey, ConditionKey, ExpectationKey, NoteKey]

  const ContentLead := "다음 내용 검증: "
  const DefaultCondition := "기본 게임 환경에서 테스트"
  const DefaultExpectation := "기획서 내용과 일치하는 결과 확인"

  /** The record literal of lines 289-298 once the four draws are made. */
  function GenericRecord(sentence: string, major: string, medium: string, minor: string, kind: string): Json {
    JObj([
      (MajorKey, JStr(major)),
      (MediumKey, JStr(medium)),
      (MinorKey, JStr(minor)),
      (TypeKey, JStr(kind)),
      (ContentKey, JStr(ContentLead + Prefix(sentence, 50) + "...")),
      (ConditionKey, JStr(DefaultCondition)),
      (ExpectationKey, JStr(DefaultExpectation)),
      (NoteKey, JStr(""))
    ])
  }

  /** v is a generic record for the sentence: its major is one of the taxonomy's majors, its
      medium one of that major's mediums (or "일반"), its minor one of that medium's minors
      (or "기본"), its kind one of 정상/예외/경계, and the other four fields are fixed. */
  predicate IsGenericFor(v: Json, sentence: string, t: Taxonomy) {
    && v.JObj? && |v.fields| == 8
    && v.fields[0].1.JStr? && v.fields[1].1.JStr? && v.fields[2].1.JStr? && v.fields[3].1.JStr?
    && var major := v.fields[0].1.s;
       var medium := v.fields[1].1.s;
       var minor := v.fields[2].1.s;
       var kind := v.fields[3].1.s;
       && v == GenericRecord(sentence, major, medium, minor, kind)
       && major in t.majors
       && medium in MediumOptions(t, major)
       && minor in MinorOptions(t, medium)
       && kind in Kinds
  }

  /** create_generic_testcase with the draws p. */
  function GenericTestcase(sentence: string, t: Taxonomy, p: Pick): (r: Result<Json>)
    ensures r.Ok? ==> IsGenericFor(r.value, sentence, t)
    ensures r.Err? ==> r.error == IndexError && !FallbackSafe(t)
    ensures t.majors == [] ==> r.Err?
  {
    var major :- Choice(t.majors, p.major);
    var medium :- Choice(MediumOptions(t, major), p.medium);
    var minor :- Choice(MinorOptions(t, medium), p.minor);
    var kind := Choice(Kinds, p.kind).value;
    Ok(GenericRecord(sentence, major, medium, minor, kind))
  }

  /** Every generic record for the sentence is produced by some draws. */
  lemma GenericComplete(sentence: string, t: Taxonomy, v: Json) returns (p: Pick)
    requires IsGenericFor(v, sentence, t)
    ensures GenericTestcase(sentence, t, p) == Ok(v)
  {
    var a := ChoiceReaches(t.majors, v.fields[0].1.s);
    var b := ChoiceReaches(MediumOptions(t, v.fields[0].1.s), v.fields[1].1.s);
    var c := ChoiceReaches(MinorOptions(t, v.fields[1].1.s), v.fields[2].1.s);
    var d := ChoiceReaches(Kinds, v.fields[3].1.s);
    p := Pick(a, b, c, d);
  }

  /** One evaluation of the list comprehension [create_generic_testcase(s.page_content, ...)
      for s in batch]: the first chunk whose draw raises stops it. */
  function GenericBatch(batch: seq<Document>, t: Taxonomy, choose: Chooser, b: nat, attempt: nat): Result<seq<Json>> {
    if batch == [] then Ok([])
    else
      var n := |batch| - 1;
      match GenericBatch(batch[..n], t, choose, b, attempt)
      case Err(e) => Err(e)
      case Ok(records) =>
        match GenericTestcase(batch[n].pageContent, t, choose(Slot(b, attempt, n)))
        case Err(e) => Err(e)
        case Ok(record) => Ok(records + [record])
  }

  /** A comprehension that finishes gives one generic record per chunk, in chunk order; it
      always finishes when every draw has something to choose from. */
  lemma {:induction false} GenericBatchRecords(batch: seq<Document>, t: Taxonomy, choose: Chooser, b: nat, attempt: nat)
    ensures var r := GenericBatch(batch, t, choose, b, attempt);
      && (r.Ok? ==> |r.value| == |batch| && forall k :: 0 <= k < |batch| ==> IsGenericFor(r.value[k], batch[k].pageContent, t))
      && (r.Err? ==> r.error == IndexError)
      && (FallbackSafe(t) ==> r.Ok?)
  {
    if batch != [] {
      var n := |batch| - 1;
      var init := batch[..n];
      GenericBatchRecords(init, t, choose, b, attempt);
      var prev := GenericBatch(init, t, choose, b, attempt);
      var last := GenericTestcase(batch[n].pageContent, t, choose(Slot(b, attempt, n)));
      if prev.Ok? && last.Ok? {
        assert GenericBatch(batch, t, choose, b, attempt) == Ok(prev.value + [last.value]);
        GenericExtend(batch, prev.value, last.value, t);
      }
    }
  }

  /** Records for the chunks before the last, then one for the last chunk, are records for
      every chunk. */
  lemma {:induction false} GenericExtend(batch: seq<Document>, records: seq<Json>, record: Json, t: Taxonomy)
    requires batch != [] && |records| == |batch| - 1
    requires forall k :: 0 <= k < |records| ==> IsGenericFor(records[k], batch[..|batch| - 1][k].pageContent, t)
    requires IsGenericFor(record, batch[|batch| - 1].pageContent, t)
    ensures forall k :: 0 <= k < |batch| ==> IsGenericFor((records + [record])[k], batch[k].pageContent, t)
  {
    var out := records + [record];
    forall k | 0 <= k < |batch|
      ensures IsGenericFor(out[k], batch[k].pageContent, t)
    {
      if k < |records| {
        assert out[k] == records[k] && batch[..|batch| - 1][k] == batch[k];
      }
    }
  }

  /** The fallback comprehension tried as attempts k, k+1, ..., n: each attempt but the last
      sits in a try block whose handler runs the next one; the last one's error escapes. */
  function FallbackFrom(batch: seq<Document>, t: Taxonomy, choose: Chooser, b: nat, k: nat, n: nat): Result<seq<Json>>
    requires 1 <= k <= n
    decreases n - k
  {
    var r := GenericBatch(batch, t, choose, b, k);
    if r.Ok? || k == n then r else FallbackFrom(batch, t, choose, b, k + 1, n)
  }

  /** The retries give the first attempt that finishes; they raise only when every attempt
      raised, and then with the last attempt's error. */
  lemma {:induction false} FallbackRetries(batch: seq<Document>, t: Taxonomy, choose: Chooser, b: nat, k: nat, n: nat)
    requires 1 <= k <= n
    ensures var r := FallbackFrom(batch, t, choose, b, k, n);
      && (r.Err? <==> forall a :: k <= a <= n ==> GenericBatch(batch, t, choose, b, a).Err?)
      && (r.Err? ==> r == GenericBatch(batch, t, choose, b, n))
      && (r.Ok? ==> exists a :: k <= a <= n && r == GenericBatch(batch, t, choose, b, a))
    decreases n - k
  {
    var r := GenericBatch(batch, t, choose, b, k);
    if r.Err? && k < n {
      FallbackRetries(batch, t, choose, b, k + 1, n);
      assert FallbackFrom(batch, t, choose, b, k, n) == FallbackFrom(batch, t, choose, b, k + 1, n);
    } else if r.Ok? {
      assert FallbackFrom(batch, t, choose, b, k, n) == r;
      assert k <= k <= n && GenericBatch(batch, t, choose, b, k).Ok?;
    } else {
      assert FallbackFrom(batch, t, choose, b, k, n) == r;
      assert k == n;
    }
  }

  /** Whatever attempt the retries stop at, a fallback batch is one generic record per chunk. */
  lemma FallbackRecords(batch: seq<Document>, t: Taxonomy, choose: Chooser, b: nat, n: nat)
    requires 1 <= n
    ensures var r := FallbackFrom(batch, t, choose, b, 1, n);
      && (r.Ok? ==> |r.value| == |batch| && forall k :: 0 <= k < |batch| ==> IsGenericFor(r.value[k], batch[k].pageContent, t))
      && (r.Err? ==> r.error == IndexError)
      && (FallbackSafe(t) ==> r.Ok?)
  {
    FallbackRetries(batch, t, choose, b, 1, n);
    var r := FallbackFrom(batch, t, choose, b, 1, n);
    if r.Ok? {
      var a :| 1 <= a <= n && r == GenericBatch(batch, t, choose, b, a);
      GenericBatchRecords(batch, t, choose, b, a);
    } else {
      GenericBatchRecords(batch, t, choose, b, n);
    }
  }

  /** Where the try ladder of one batch ends: the parsed value, the fallback comprehension run
      up to `attempts` times, or an exception that leaves generate_testcases. */
  datatype Outcome = Parsed(value: Json) | Fallback(attempts: nat) | Fatal(error: Exc)

  /** The ladder of lines 213-270 for one reply. */
  function Ladder(backend: Backend, reply: Reply, parse: Parser): (o: Outcome)
    ensures o.Fatal? <==> backend == Gemini && reply.CallFailed?
    ensures o.Fatal? ==> o.error == OracleError
    ensures o.Fallback? ==> 1 <= o.attempts <= 3
    ensures !reply.Text? && !o.Fatal? ==> o == Fallback(1)
    ensures reply.Text? && FindSpan(reply.text, '[', ']').Some? ==>
      match parse(FindSpan(reply.text, '[', ']').value)
      case Some(v) => o == Parsed(v)
      case None => o == Fallback(1)
    ensures backend == Gemini && reply.Text? && FindSpan(reply.text, '[', ']').None? ==> o == Fallback(2)
    ensures backend == OpenAI && reply.Text? && FindSpan(reply.text, '[', ']').None? ==> o == WholeReply(parse(reply.text))
  {
    match backend
    case Gemini =>
      (match reply
       case CallFailed => Fatal(OracleError)
       case Unreadable => Fallback(1)
       case Text(text) =>
         match FindSpan(text, '[', ']')
         case None => Fallback(2)
         case Some(span) => SpanOutcome(parse(span)))
    case OpenAI =>
      match reply
      case Text(text) =>
        (match FindSpan(text, '[', ']')
         case None => WholeReply(parse(text))
         case Some(span) => SpanOutcome(parse(span)))
      case _ => Fallback(1)
  }

  /** json.loads on the `[...]` span: its failure is handled by the outer except. */
  function SpanOutcome(parsed: Option<Json>): Outcome {
    match parsed
    case Some(v) => Parsed(v)
    case None => Fallback(1)
  }

  /** Lines 257-266: the whole OpenAI reply parsed. A list is taken as is, a dict's
      "testcases" entry is taken; a dict without it gets the fallback of line 264 inside both
      try blocks; `"testcases" in x` and `x["testcases"]` raise on the other values, which
      sends them to the fallback of line 266 inside the outer try block. */
  function WholeReply(parsed: Option<Json>): (o: Outcome)
    ensures o.Parsed? ==>
      parsed.Some? && ((parsed.value.JArr? && o.value == parsed.value) || (parsed.value.JObj? && Get(parsed.value.fields, "testcases") == Some(o.value)))
    ensures o.Fallback? && o.attempts == 3 <==>
      parsed.Some? && ((parsed.value.JObj? && Get(parsed.value.fields, "testcases").None?) || (parsed.value.JStr? && !Contains(parsed.value.s, "testcases")))
    ensures parsed.Some? && parsed.value.JArr? ==> o == Parsed(parsed.value)
    ensures parsed.Some? && parsed.value.JObj? && Get(parsed.value.fields, "testcases").Some? ==>
      o == Parsed(Get(parsed.value.fields, "testcases").value)
    ensures o == Fallback(2) <==>
      parsed.None? || (!parsed.value.JArr? && !parsed.value.JObj? && !(parsed.value.JStr? && !Contains(parsed.value.s, "testcases")))
    ensures !o.Fatal?
  {
    match parsed
    case None => Fallback(2)
    case Some(JArr(items)) => Parsed(JArr(items))
    case Some(JObj(fields)) =>
      (match Get(fields, "testcases")
       case Some(v) => Parsed(v)
       case None => Fallback(3))
    case Some(JStr(s)) => if Contains(s, "testcases") then Fallback(2) else Fallback(3)
    case Some(_) => Fallback(2)
  }

  /** testcases.extend(v): a list gives its items, a dict its keys, a string its characters;
      other values are not iterable. */
  function Elements(v: Json): (r: Result<seq<Json>>)
    ensures r.Ok? <==> v.JArr? || v.JObj? || v.JStr?
    ensures v.JArr? ==> r == Ok(v.items)
    ensures v.JObj? ==> r.Ok? && |r.value| == |v.fields| && forall i :: 0 <= i < |v.fields| ==> r.value[i] == JStr(v.fields[i].0)
    ensures v.JStr? ==> r.Ok? && |r.value| == |v.s| && forall i :: 0 <= i < |v.s| ==> r.value[i] == JStr([v.s[i]])
    ensures r.Err? ==> r.error == TypeError
  {
    match v
    case JArr(items) => Ok(items)
    case JObj(fields) => Ok(seq(|fields|, i requires 0 <= i < |fields| => JStr(fields[i].0)))
    case JStr(s) => Ok(seq(|s|, i requires 0 <= i < |s| => JStr([s[i]])))
    case _ => Err(TypeError)
  }

  /** What batch b adds to the output: the taxonomy is read before the call (lines 177-183),
      then the ladder decides. */
  function BatchRecords(structure: Json, batch: seq<Document>, backend: Backend, reply: Reply, parse: Parser, choose: Chooser, b: nat): Result<seq<Json>> {
    var t :- AsTaxonomy(structure);
    match Ladder(backend, reply, parse)
    case Parsed(v) => Elements(v)
    case Fallback(n) => FallbackFrom(batch, t, choose, b, 1, n)
    case Fatal(e) => Err(e)
  }

  /** A batch whose ladder ends in the fallback, on any of its paths (no readable reply, no
      span, a span or reply that does not parse, a parsed reply of the wrong shape), gives
      one generic record per chunk when every draw has something to choose from. */
  lemma BatchFallsBack(structure: Json, batch: seq<Document>, backend: Backend, reply: Reply, parse: Parser, choose: Chooser, b: nat, t: Taxonomy)
    requires AsTaxonomy(structure) == Ok(t) && FallbackSafe(t)
    requires Ladder(backend, reply, parse).Fallback?
    ensures var r := BatchRecords(structure, batch, backend, reply, parse, choose, b);
      && r.Ok? && |r.value| == |batch|
      && forall k :: 0 <= k < |batch| ==> IsGenericFor(r.value[k], batch[k].pageContent, t)
  {
    FallbackRecords(batch, t, choose, b, Ladder(backend, reply, parse).attempts);
  }

  /** A batch whose ladder ends with a parsed value adds what `testcases.extend` (line 272)
      adds for that value: its items, its keys or its characters, or a TypeError. */
  lemma BatchTakesParsed(structure: Json, batch: seq<Document>, backend: Backend, reply: Reply, parse: Parser, choose: Chooser, b: nat)
    requires AsTaxonomy(structure).Ok? && Ladder(backend, reply, parse).Parsed?
    ensures BatchRecords(structure, batch, backend, reply, parse, choose, b) == Elements(Ladder(backend, reply, parse).value)
  {
  }

  /** The step of the batch loop: batch b is answered by oracle(b). */
  function BatchStep(docs: seq<Document>, structure: Json, backend: Backend, oracle: Oracle, parse: Parser, choose: Chooser): nat -> Result<seq<Json>> {
    (b: nat) => BatchRecords(structure, Batch(docs, b), backend, oracle(b), parse, choose, b)
  }

  /** The loop of lines 171-272 after m batches, with step(b) what batch b adds: the first
      batch that raises ends the run, and the others extend the output in order. */
  function RunBatches(step: nat -> Result<seq<Json>>, m: nat): Result<seq<Json>> {
    if m == 0 then Ok([])
    else
      match RunBatches(step, m - 1)
      case Err(e) => Err(e)
      case Ok(out) =>
        match step(m - 1)
        case Err(e) => Err(e)
        case Ok(records) => Ok(out + records)
  }

  /** generate_testcases as a value: the credential gate, then every batch. */
  function Generated(docs: seq<Document>, structure: Json, option: string, apiKeys: map<string, string>, oracle: Oracle, parse: Parser, choose: Chooser): Result<seq<Json>> {
    var _ :- ConfigureApiClients(option, apiKeys);
    RunBatches(BatchStep(docs, structure, BackendOf(option), oracle, parse, choose), NumBatches(|docs|))
  }

  lemma {:induction false} RunBatchesErrorPersists(step: nat -> Result<seq<Json>>, m: nat, total: nat)
    requires m <= total && RunBatches(step, m).Err?
    ensures RunBatches(step, total) == RunBatches(step, m)
    decreases total - m
  {
    if m < total {
      RunBatchesErrorPersists(step, m + 1, total);
    }
  }

  /** One turn of the loop of lines 171-272: the batch of chunks that starts at chunk i,
      sent as call number b, and the records it adds. */
  method GenerateBatch(docs: seq<Document>, structure: Json, backend: Backend, oracle: Oracle, parse: Parser, choose: Chooser, i: nat, b: nat)
    returns (records: Result<seq<Json>>)
    requires i == BatchSize * b && i < |docs|
    ensures records == BatchStep(docs, structure, backend, oracle, parse, choose)(b)
  {
    var stop := if i + BatchSize < |docs| then i + BatchSize else |docs|;
    var batch := docs[i..stop];
    assert batch == Batch(docs, b);
    records := BatchRecords(structure, batch, backend, oracle(b), parse, choose, b);
  }

  method GenerateTestcases(docs: seq<Document>, structure: Json, option: string, apiKeys: map<string, string>, oracle: Oracle, parse: Parser, choose: Chooser)
    returns (r: Result<seq<Json>>)
    ensures r == Generated(docs, structure, option, apiKeys, oracle, parse, choose)
  {
    var client := ConfigureApiClients(option, apiKeys);
    if client.Err? {
      return Err(client.error);
    }
    var backend := BackendOf(option);
    ghost var step := BatchStep(docs, structure, backend, oracle, parse, choose);
    var testcases: seq<Json> := [];
    var i := 0;
    var b := 0;
    while i < |docs|
      invariant i == BatchSize * b
      invariant b <= NumBatches(|docs|)
      invariant b == NumBatches(|docs|) <==> i >= |docs|
      invariant RunBatches(step, b) == Ok(testcases)
    {
      var records := GenerateBatch(docs, structure, backend, oracle, parse, choose, i, b);
      if records.Err? {
        RunBatchesErrorPersists(step, b + 1, NumBatches(|docs|));
        return Err(records.error);
      }
      testcases := testcases + records.value;
      i := i + BatchSize;
      b := b + 1;
    }
    r := Ok(testcases);
  }

  /** Only the first m steps matter. */
  lemma {:induction false} RunBatchesLocal(s1: nat -> Result<seq<Json>>, s2: nat -> Result<seq<Json>>, m: nat)
    requires forall b: nat :: b < m ==> s1(b) == s2(b)
    ensures RunBatches(s1, m) == RunBatches(s2, m)
  {
    if m > 0 {
      RunBatchesLocal(s1, s2, m - 1);
    }
  }

  /** Exactly one reply per batch is read, reply b by batch b: replies past the last batch
      never matter. */
  lemma OneReplyPerBatch(docs: seq<Document>, structure: Json, option: string, apiKeys: map<string, string>, o1: Oracle, o2: Oracle, parse: Parser, choose: Chooser)
    requires forall b: nat :: b < NumBatches(|docs|) ==> o1(b) == o2(b)
    ensures Generated(docs, structure, option, apiKeys, o1, parse, choose) == Generated(docs, structure, option, apiKeys, o2, parse, choose)
  {
    var s1 := BatchStep(docs, structure, BackendOf(option), o1, parse, choose);
    var s2 := BatchStep(docs, structure, BackendOf(option), o2, parse, choose);
    forall b: nat | b < NumBatches(|docs|)
      ensures s1(b) == s2(b)
    {
      assert o1(b) == o2(b);
    }
    RunBatchesLocal(s1, s2, NumBatches(|docs|));
  }

  /** The run raises exactly when some step among the first m raises. */
  lemma {:induction false} RunBatchesFailsIff(step: nat -> Result<seq<Json>>, m: nat)
    ensures RunBatches(step, m).Err? <==> exists b :: 0 <= b < m && step(b).Err?
  {
    if m > 0 {
      RunBatchesFailsIff(step, m - 1);
      if RunBatches(step, m - 1).Err? {
        var b :| 0 <= b < m - 1 && step(b).Err?;
        assert 0 <= b < m && step(b).Err?;
      }
    }
  }

  /** One more batch only appends to the output. */
  lemma RunBatchesExtends(step: nat -> Result<seq<Json>>, m: nat)
    requires RunBatches(step, m + 1).Ok?
    ensures RunBatches(step, m).Ok? && step(m).Ok?
    ensures RunBatches(step, m + 1).value == RunBatches(step, m).value + step(m).value
  {
  }

  /** When the reply to batch m parses, the run one batch longer appends what extend adds
      for the parsed value to the test cases generated so far (its items, for a list), or
      raises the TypeError of a value extend cannot iterate. */
  lemma {:induction false} ParsedBatchExtendsRun(docs: seq<Document>, structure: Json, backend: Backend, oracle: Oracle, parse: Parser, choose: Chooser, m: nat)
    requires AsTaxonomy(structure).Ok? && RunBatches(BatchStep(docs, structure, backend, oracle, parse, choose), m).Ok?
    requires Ladder(backend, oracle(m), parse).Parsed?
    ensures var step := BatchStep(docs, structure, backend, oracle, parse, choose);
      var added := Elements(Ladder(backend, oracle(m), parse).value);
      RunBatches(step, m + 1) == if added.Ok? then Ok(RunBatches(step, m).value + added.value) else Err(TypeError)
  {
    BatchTakesParsed(structure, Batch(docs, m), backend, oracle(m), parse, choose, m);
  }

  /** Batch outputs are concatenated in batch order: the output of every shorter run is a
      prefix of the output, and the output of a run is that of the run one batch shorter
      followed by that batch's records. */
  lemma {:induction false} RunBatchesPrefix(step: nat -> Result<seq<Json>>, b: nat, m: nat)
    requires b <= m && RunBatches(step, m).Ok?
    ensures RunBatches(step, b).Ok? && RunBatches(step, b).value <= RunBatches(step, m).value
    decreases m - b
  {
    if b < m {
      RunBatchesExtends(step, m - 1);
      RunBatchesPrefix(step, b, m - 1);
      var part := RunBatches(step, b).value;
      var init := RunBatches(step, m - 1).value;
      assert part == init[..|part|];
      assert init == RunBatches(step, m).value[..|init|];
    }
  }

  /** With no chunks there is no batch: the taxonomy is never read and nothing is called. */
  lemma NoChunksNoBatches(structure: Json, option: string, apiKeys: map<string, string>, oracle: Oracle, parse: Parser, choose: Chooser)
    requires ConfigureApiClients(option, apiKeys).Ok?
    ensures Generated([], structure, option, apiKeys, oracle, parse, choose) == Ok([])
  {
  }

  /** When every step of the first m is one generic record per chunk of its batch, the run is
      one generic record per chunk of the first m batches, in chunk order. */
  lemma {:induction false} AllGenericRun(docs: seq<Document>, step: nat -> Result<seq<Json>>, t: Taxonomy, m: nat)
    requires m <= NumBatches(|docs|)
    requires forall b: nat :: b < m ==>
      && step(b).Ok? && |step(b).value| == |Batch(docs, b)|
      && forall k :: 0 <= k < |Batch(docs, b)| ==> IsGenericFor(step(b).value[k], Batch(docs, b)[k].pageContent, t)
    ensures var r := RunBatches(step, m);
      && r.Ok? && |r.value| == Min(BatchSize * m, |docs|)
      && forall k :: 0 <= k < |r.value| ==> IsGenericFor(r.value[k], docs[k].pageContent, t)
  {
    if m > 0 {
      AllGenericRun(docs, step, t, m - 1);
      var batch := Batch(docs, m - 1);
      var out := RunBatches(step, m - 1).value;
      var records := step(m - 1).value;
      assert |out| == BatchSize * (m - 1);
      forall j | 0 <= j < |records|
        ensures IsGenericFor(records[j], docs[|out| + j].pageContent, t)
      {
        assert batch[j] == docs[|out| + j];
      }
      GenericAppend(docs, out, records, t);
    }
  }

  lemma {:induction false} GenericAppend(docs: seq<Document>, out: seq<Json>, records: seq<Json>, t: Taxonomy)
    requires |out| + |records| <= |docs|
    requires forall k :: 0 <= k < |out| ==> IsGenericFor(out[k], docs[k].pageContent, t)
    requires forall j :: 0 <= j < |records| ==> IsGenericFor(records[j], docs[|out| + j].pageContent, t)
    ensures forall k :: 0 <= k < |out + records| ==> IsGenericFor((out + records)[k], docs[k].pageContent, t)
  {
    var all := out + records;
    forall k | 0 <= k < |all|
      ensures IsGenericFor(all[k], docs[k].pageContent, t)
    {
      if k < |out| {
        assert all[k] == out[k];
      } else {
        assert all[k] == records[k - |out|];
      }
    }
  }

  /** The OpenAI run when every call fails (or every reply is unreadable) and the taxonomy is
      safe to draw from: exactly one generic record per input chunk, in chunk order. */
  lemma OpenAIAllFail(docs: seq<Document>, structure: Json, apiKeys: map<string, string>, oracle: Oracle, parse: Parser, choose: Chooser, t: Taxonomy)
    requires "openai" in apiKeys
    requires AsTaxonomy(structure) == Ok(t) && FallbackSafe(t)
    requires forall b: nat :: !oracle(b).Text?
    ensures var r := Generated(docs, structure, OpenAIOption, apiKeys, oracle, parse, choose);
      && r.Ok? && |r.value| == |docs|
      && forall k :: 0 <= k < |docs| ==> IsGenericFor(r.value[k], docs[k].pageContent, t)
  {
    var step := BatchStep(docs, structure, OpenAI, oracle, parse, choose);
    forall b: nat | b < NumBatches(|docs|)
      ensures && step(b).Ok? && |step(b).value| == |Batch(docs, b)|
        && forall k :: 0 <= k < |Batch(docs, b)| ==> IsGenericFor(step(b).value[k], Batch(docs, b)[k].pageContent, t)
    {
      BatchFallsBack(structure, Batch(docs, b), OpenAI, oracle(b), parse, choose, b, t);
    }
    AllGenericRun(docs, step, t, NumBatches(|docs|));
  }

  /** A taxonomy without the three keys, or of the wrong shape, stops the run at its first
      batch, before any call. */
  lemma MalformedTaxonomyRaises(docs: seq<Document>, structure: Json, option: string, apiKeys: map<string, string>, oracle: Oracle, parse: Parser, choose: Chooser)
    requires ConfigureApiClients(option, apiKeys).Ok?
    requires |docs| > 0 && AsTaxonomy(structure).Err?
    ensures Generated(docs, structure, option, apiKeys, oracle, parse, choose) == Err(AsTaxonomy(structure).error)
  {
    var step := BatchStep(docs, structure, BackendOf(option), oracle, parse, choose);
    assert step(0) == BatchRecords(structure, Batch(docs, 0), BackendOf(option), oracle(0), parse, choose, 0);
    assert step(0).Err?;
    assert RunBatches(step, 1) == Err(AsTaxonomy(structure).error);
    RunBatchesErrorPersists(step, 1, NumBatches(|docs|));
  }

  /** On Gemini the call sits outside the try block: a failed call in any batch ends the run,
      when the taxonomy can be read. */
  lemma GeminiCallFailureRaises(docs: seq<Document>, structure: Json, apiKeys: map<string, string>, oracle: Oracle, parse: Parser, choose: Chooser, b: nat)
    requires "gemini" in apiKeys && AsTaxonomy(structure).Ok?
    requires b < NumBatches(|docs|) && oracle(b) == CallFailed
    ensures Generated(docs, structure, GeminiOption, apiKeys, oracle, parse, choose).Err?
  {
    var step := BatchStep(docs, structure, Gemini, oracle, parse, choose);
    assert step(b).Err?;
    RunBatchesFailsIff(step, NumBatches(|docs|));
  }
}
