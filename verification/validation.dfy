/** Quality scoring in test_tc_generator/processor.py: validate_testcase_quality, which asks
    the backend for a four-part rubric, recomputes the total from the parts, and stores it
    under "점수" in every test case. */
module Validation {
  import opened Values
  import opened Client
  import opened Spans
  import opened Synthesis

  const ScoreKey := "점수"
  const TotalKey := "총점"
  const AccuracyKey := "정확성"
  const ClarityKey := "명확성"
  const UniquenessKey := "중복성"
  const CompletenessKey := "완전성"

  /** The four components, in the order line 360-365 sums them. */
  const ComponentKeys := [AccuracyKey, ClarityKey, UniquenessKey, CompletenessKey]

  /** The total of the scores seeded at line 341; its four seeded components are never
      read, since a parsed reply replaces the whole seed. */
  const DefaultTotal := 75

  /** A value `sum` can add to an int: a number, or a bool counted as 0 or 1. A missing
      component reads as the default 0 of .get. */
  predicate Numeric(v: Option<Json>) {
    v.None? || v.value.JInt? || v.value.JBool?
  }

  /** What a numeric component adds to the total. */
  function ComponentValue(v: Option<Json>): int {
    match v
    case Some(JInt(n)) => n
    case Some(JBool(b)) => if b then 1 else 0
    case _ => 0
  }

  /** One step of sum(...): the running total plus the next value; the first value that is
      not a number raises a TypeError, and an earlier error stays. */
  function AddComponent(acc: Result<int>, v: Option<Json>): Result<int> {
    if acc.Err? then acc
    else if Numeric(v) then Ok(acc.value + ComponentValue(v))
    else Err(TypeError)
  }

  /** Lines 360-365: the four components as score_data.get(k, 0) reads them, summed from 0
      in the source's order. */
  function ComponentSum(fields: seq<(string, Json)>): Result<int> {
    SumOfFour(Get(fields, AccuracyKey), Get(fields, ClarityKey), Get(fields, UniquenessKey), Get(fields, CompletenessKey))
  }

  /** sum([a, b, c, d]) from 0. */
  function SumOfFour(a: Option<Json>, b: Option<Json>, c: Option<Json>, d: Option<Json>): Result<int> {
    AddComponent(AddComponent(AddComponent(AddComponent(Ok(0), a), b), c), d)
  }

  /** The sum succeeds exactly when every component is missing or a number, and is then the
      sum of the four, a missing one counting 0; otherwise it raises a TypeError. */
  lemma ComponentSumMeaning(fields: seq<(string, Json)>)
    ensures ComponentSum(fields).Ok? <==>
      Numeric(Get(fields, AccuracyKey)) && Numeric(Get(fields, ClarityKey))
      && Numeric(Get(fields, UniquenessKey)) && Numeric(Get(fields, CompletenessKey))
    ensures ComponentSum(fields).Ok? ==>
      ComponentSum(fields).value == ComponentValue(Get(fields, AccuracyKey)) + ComponentValue(Get(fields, ClarityKey))
        + ComponentValue(Get(fields, UniquenessKey)) + ComponentValue(Get(fields, CompletenessKey))
    ensures ComponentSum(fields).Err? ==> ComponentSum(fields).error == TypeError
  {
  }

  /** score_data["총점"] at line 399 once json.loads has returned v: the recomputed sum when it
      can be taken (line 367 stores it under "총점"); otherwise v's own total, since score_data is already v; a KeyError when v
      has none, a TypeError when v is not a dict. */
  function Recompute(v: Json): (r: Result<Json>)
    ensures v.JObj? && ComponentSum(v.fields).Ok? ==> r == Ok(JInt(ComponentSum(v.fields).value))
    ensures v.JObj? && ComponentSum(v.fields).Err? ==>
      (r.Ok? <==> TotalKey in Keys(v.fields)) && (r.Ok? ==> Get(v.fields, TotalKey) == Some(r.value))
    ensures r.Err? ==> (v.JObj? && r.error == KeyError(TotalKey)) || (!v.JObj? && r.error == TypeError)
    ensures !v.JObj? ==> r == Err(TypeError)
  {
    match v
    case JObj(fields) =>
      (match ComponentSum(fields)
       case Ok(total) => Ok(JInt(total))
       case Err(_) =>
         match Get(fields, TotalKey)
         case Some(reported) => Ok(reported)
         case None => Err(KeyError(TotalKey)))
    case _ => Err(TypeError)
  }

  /** The text json.loads is given: the first `{...}` span on Gemini, the whole reply on OpenAI. */
  function ScoreText(backend: Backend, text: string): Option<string> {
    match backend
    case Gemini => FindSpan(text, '{', '}')
    case OpenAI => Some(text)
  }

  /** score_data["총점"] for one reply (lines 341-399). The seeded 75 stays when the reply has no
      readable text, no span or no parse; a Gemini call that fails raises. */
  function ScoreFor(backend: Backend, reply: Reply, parse: Parser): (r: Result<Json>)
    ensures r.Err? <==>
      || (backend == Gemini && reply.CallFailed?)
      || (reply.Text? && ScoreText(backend, reply.text).Some? && parse(ScoreText(backend, reply.text).value).Some?
          && Recompute(parse(ScoreText(backend, reply.text).value).value).Err?)
    ensures backend == Gemini && reply.CallFailed? ==> r == Err(OracleError)
    ensures !reply.Text? && !(backend == Gemini && reply.CallFailed?) ==> r == Ok(JInt(DefaultTotal))
    ensures reply.Text? && ScoreText(backend, reply.text).Some? && parse(ScoreText(backend, reply.text).value).Some? ==>
      r == Recompute(parse(ScoreText(backend, reply.text).value).value)
    ensures reply.Text? && (ScoreText(backend, reply.text).None? || parse(ScoreText(backend, reply.text).value).None?) ==>
      r == Ok(JInt(DefaultTotal))
  {
    match reply
    case CallFailed => if backend == Gemini then Err(OracleError) else Ok(JInt(DefaultTotal))
    case Unreadable => Ok(JInt(DefaultTotal))
    case Text(text) =>
      match ScoreText(backend, text)
      case None => Ok(JInt(DefaultTotal))
      case Some(candidate) =>
        match parse(candidate)
        case None => Ok(JInt(DefaultTotal))
        case Some(v) => Recompute(v)
  }

  /** The first of keys that the record lacks, if any. */
  function FirstMissing(fields: seq<(string, Json)>, keys: seq<string>): (r: Option<string>)
    ensures r.None? <==> forall k :: k in keys ==> k in Keys(fields)
    ensures r.Some? ==> r.value in keys && r.value !in Keys(fields)
    ensures r.Some? ==> exists i :: 0 <= i < |keys| && r.value == keys[i] && forall j :: 0 <= j < i ==> keys[j] in Keys(fields)
  {
    if keys == [] then None
    else if keys[0] !in Keys(fields) then
      assert keys[0] in keys;
      Some(keys[0])
    else
      var r := FirstMissing(fields, keys[1..]);
      assert forall k :: k in keys ==> k == keys[0] || k in keys[1..];
      assert r.Some? ==> exists i :: 0 <= i < |keys| && r.value == keys[i] && forall j :: 0 <= j < i ==> keys[j] in Keys(fields) by {
        if r.Some? {
          var i :| 0 <= i < |keys[1..]| && r.value == keys[1..][i] && forall j :: 0 <= j < i ==> keys[1..][j] in Keys(fields);
          assert r.value == keys[i + 1];
          forall j | 0 <= j < i + 1 ensures keys[j] in Keys(fields) {
            if j > 0 { assert keys[j] == keys[1..][j - 1]; }
          }
        }
      }
      r
  }

  /** One iteration of lines 306-400 for the test case tc: its eight fields are read for the
      prompt (a KeyError or TypeError before any call), then the score is stored under "점수". */
  function ValidateOne(tc: Json, backend: Backend, reply: Reply, parse: Parser): (r: Result<Json>)
    ensures !tc.JObj? ==> r == Err(TypeError)
    ensures tc.JObj? && FirstMissing(tc.fields, RecordKeys).Some? ==> r == Err(KeyError(FirstMissing(tc.fields, RecordKeys).value))
    ensures r.Ok? ==> tc.JObj? && forall k :: k in RecordKeys ==> k in Keys(tc.fields)
    ensures r.Ok? ==> ScoreFor(backend, reply, parse).Ok? && r.value.JObj?
    ensures r.Ok? ==> Get(r.value.fields, ScoreKey) == Some(ScoreFor(backend, reply, parse).value)
    ensures r.Ok? ==> forall k :: k != ScoreKey ==> Get(r.value.fields, k) == Get(tc.fields, k)
    ensures r.Ok? ==> Keys(r.value.fields) == if ScoreKey in Keys(tc.fields) then Keys(tc.fields) else Keys(tc.fields) + [ScoreKey]
    ensures tc.JObj? && FirstMissing(tc.fields, RecordKeys).None? && ScoreFor(backend, reply, parse).Err? ==> r == Err(ScoreFor(backend, reply, parse).error)
    ensures tc.JObj? && FirstMissing(tc.fields, RecordKeys).None? && ScoreFor(backend, reply, parse).Ok? ==> r.Ok?
  {
    match tc
    case JObj(fields) =>
      (match FirstMissing(fields, RecordKeys)
       case Some(key) => Err(KeyError(key))
       case None =>
         var score :- ScoreFor(backend, reply, parse);
         Ok(JObj(Put(fields, ScoreKey, score))))
    case _ => Err(TypeError)
  }

  /** A loop over a list applying step(item, index): the first item whose step raises ends it. */
  function MapRun<U>(items: seq<Json>, step: (Json, nat) -> Result<U>): Result<seq<U>> {
    if items == [] then Ok([])
    else
      var n := |items| - 1;
      match MapRun(items[..n], step)
      case Err(e) => Err(e)
      case Ok(out) =>
        match step(items[n], n)
        case Err(e) => Err(e)
        case Ok(v) => Ok(out + [v])
  }

  /** The step of the loop: test case k is scored by reply k. */
  function ValidateStep(backend: Backend, oracle: Oracle, parse: Parser): (Json, nat) -> Result<Json> {
    (tc: Json, k: nat) => ValidateOne(tc, backend, oracle(k), parse)
  }

  /** validate_testcase_quality as a value: the credential gate, then the loop. */
  function Validated(testcases: seq<Json>, option: string, apiKeys: map<string, string>, oracle: Oracle, parse: Parser): Result<seq<Json>> {
    var _ :- ConfigureApiClients(option, apiKeys);
    MapRun(testcases, ValidateStep(BackendOf(option), oracle, parse))
  }

  lemma {:induction false} MapRunErrorPersists<U>(items: seq<Json>, step: (Json, nat) -> Result<U>, n: nat)
    requires n <= |items| && MapRun(items[..n], step).Err?
    ensures MapRun(items, step) == MapRun(items[..n], step)
    decreases |items| - n
  {
    if n < |items| {
      assert items[..n + 1][..n] == items[..n];
      MapRunErrorPersists(items, step, n + 1);
    } else {
      assert items[..n] == items;
    }
  }

  method ValidateTestcaseQuality(testcases: seq<Json>, option: string, apiKeys: map<string, string>, oracle: Oracle, parse: Parser)
    returns (r: Result<seq<Json>>)
    ensures r == Validated(testcases, option, apiKeys, oracle, parse)
  {
    var client := ConfigureApiClients(option, apiKeys);
    if client.Err? {
      return Err(client.error);
    }
    var backend := BackendOf(option);
    ghost var step := ValidateStep(backend, oracle, parse);
    var validated: seq<Json> := [];
    var i := 0;
    while i < |testcases|
      invariant 0 <= i <= |testcases|
      invariant MapRun(testcases[..i], step) == Ok(validated)
    {
      var tc := testcases[i];
      assert testcases[..i + 1][..i] == testcases[..i];
      var scored := ValidateOne(tc, backend, oracle(i), parse);
      assert step(tc, i) == scored;
      if scored.Err? {
        MapRunErrorPersists(testcases, step, i + 1);
        return Err(scored.error);
      }
      validated := validated + [scored.value];
      i := i + 1;
    }
    assert testcases[..i] == testcases;
    r := Ok(validated);
  }

  /** The loop finishes exactly when every step does, and then gives the step's result for
      every item, in the items' order. */
  lemma {:induction false} MapRunSpec<U>(items: seq<Json>, step: (Json, nat) -> Result<U>)
    ensures MapRun(items, step).Ok? <==> forall k :: 0 <= k < |items| ==> step(items[k], k).Ok?
    ensures MapRun(items, step).Ok? ==>
      |MapRun(items, step).value| == |items| &&
      forall k :: 0 <= k < |items| ==> MapRun(items, step).value[k] == step(items[k], k).value
  {
    if items != [] {
      var n := |items| - 1;
      MapRunSpec(items[..n], step);
    }
  }

  /** Validation returns the same test cases in the same order, each with its fields
      unchanged, its keys in the same order and "점수" set to the score of its own reply. */
  lemma ValidatedRecords(testcases: seq<Json>, option: string, apiKeys: map<string, string>, oracle: Oracle, parse: Parser)
    requires Validated(testcases, option, apiKeys, oracle, parse).Ok?
    ensures var out := Validated(testcases, option, apiKeys, oracle, parse).value;
      && |out| == |testcases|
      && forall k :: 0 <= k < |testcases| ==> ValidateOne(testcases[k], BackendOf(option), oracle(k), parse) == Ok(out[k])
  {
    var step := ValidateStep(BackendOf(option), oracle, parse);
    MapRunSpec(testcases, step);
  }

  /** On OpenAI every failure is caught: when no reply can be read, every well-formed test
      case is scored 75. */
  lemma OpenAIAllFailScores(testcases: seq<Json>, apiKeys: map<string, string>, oracle: Oracle, parse: Parser)
    requires "openai" in apiKeys
    requires forall k :: 0 <= k < |testcases| ==> testcases[k].JObj? && forall key :: key in RecordKeys ==> key in Keys(testcases[k].fields)
    requires forall k: nat :: !oracle(k).Text?
    ensures var r := Validated(testcases, OpenAIOption, apiKeys, oracle, parse);
      && r.Ok? && |r.value| == |testcases|
      && forall k :: 0 <= k < |testcases| ==> r.value[k].JObj? && Get(r.value[k].fields, ScoreKey) == Some(JInt(DefaultTotal))
  {
    var step := ValidateStep(OpenAI, oracle, parse);
    forall k | 0 <= k < |testcases|
      ensures step(testcases[k], k).Ok?
    {
      assert FirstMissing(testcases[k].fields, RecordKeys).None?;
    }
    MapRunSpec(testcases, step);
  }

  /** The score ignores the total the backend reports whenever the sum can be taken: two
      parsed objects with the same components score the same. */
  lemma ReportedTotalIgnored(a: seq<(string, Json)>, b: seq<(string, Json)>)
    requires forall k :: k in ComponentKeys ==> Get(a, k) == Get(b, k)
    requires ComponentSum(a).Ok?
    ensures Recompute(JObj(a)) == Recompute(JObj(b))
  {
    ComponentSumMeaning(a);
    ComponentSumMeaning(b);
    assert Get(a, AccuracyKey) == Get(b, AccuracyKey);
    assert Get(a, ClarityKey) == Get(b, ClarityKey);
    assert Get(a, UniquenessKey) == Get(b, UniquenessKey);
    assert Get(a, CompletenessKey) == Get(b, CompletenessKey);
  }

  /** Totals are not clamped to 0-100: numeric components score exactly their sum, however
      large or negative, whatever total the backend reported. */
  lemma TotalsNotClamped(fields: seq<(string, Json)>)
    requires Numeric(Get(fields, AccuracyKey)) && Numeric(Get(fields, ClarityKey))
    requires Numeric(Get(fields, UniquenessKey)) && Numeric(Get(fields, CompletenessKey))
    ensures Recompute(JObj(fields)) == Ok(JInt(ComponentValue(Get(fields, AccuracyKey)) + ComponentValue(Get(fields, ClarityKey))
      + ComponentValue(Get(fields, UniquenessKey)) + ComponentValue(Get(fields, CompletenessKey))))
  {
    ComponentSumMeaning(fields);
  }

  /** Parse-then-fail: a parsed object with a component that is not a number keeps its own
      total, whatever it is, and raises a KeyError at line 399 when it has none. */
  lemma ParseThenFailKeepsReportedTotal(fields: seq<(string, Json)>, reported: Json)
    requires exists k :: k in ComponentKeys && !Numeric(Get(fields, k))
    ensures Recompute(JObj(fields + [(TotalKey, reported)])) ==
      if TotalKey in Keys(fields) then Ok(Get(fields, TotalKey).value) else Ok(reported)
    ensures TotalKey !in Keys(fields) ==> Recompute(JObj(fields)) == Err(KeyError(TotalKey))
  {
    var extended := fields + [(TotalKey, reported)];
    GetAppend(fields, TotalKey, reported, AccuracyKey);
    GetAppend(fields, TotalKey, reported, ClarityKey);
    GetAppend(fields, TotalKey, reported, UniquenessKey);
    GetAppend(fields, TotalKey, reported, CompletenessKey);
    GetAppend(fields, TotalKey, reported, TotalKey);
    ComponentSumMeaning(fields);
    ComponentSumMeaning(extended);
  }

  /** Appending a binding leaves every earlier binding visible. */
  lemma {:induction false} GetAppend(fields: seq<(string, Json)>, key: string, v: Json, k: string)
    ensures Get(fields + [(key, v)], k) == if k in Keys(fields) then Get(fields, k) else if k == key then Some(v) else None
  {
    if fields != [] {
      assert (fields + [(key, v)])[1..] == fields[1..] + [(key, v)];
      GetAppend(fields[1..], key, v, k);
    }
  }
}
