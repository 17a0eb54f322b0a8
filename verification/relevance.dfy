/** The relevance filter of test_tc_generator/processor.py: filter_unnecessary_sentences
    and the answer test of _check_if_useful_for_testcase. */
module Relevance {
  import opened Values
  import opened Client

  const MinContentLength := 10

  /** Lines 27-29: a chunk that is empty or, once trimmed, shorter than 10 characters is
      dropped without asking the backend. */
  predicate IsSkipped(content: string) {
    content == "" || |Strip(content)| < MinContentLength
  }

  /** Lines 57-58 and 67-68: the trimmed, lower-cased answer contains "예" or "yes". */
  predicate Affirmative(text: string) {
    var answer := LowerAscii(Strip(text));
    Contains(answer, "예") || Contains(answer, "yes")
  }

  /** _check_if_useful_for_testcase once the prompt is built: both backends read the
      reply text outside any try block, so a failed call or an unreadable reply raises
      to the caller; a readable reply decides by the answer test. */
  function CheckIfUsefulForTestcase(reply: Reply): (r: Result<bool>)
    ensures r.Ok? <==> reply.Text?
    ensures r.Ok? ==> (r.value <==> Affirmative(reply.text))
    ensures reply.CallFailed? ==> r == Err(OracleError)
  {
    match reply
    case Text(t) => Ok(Affirmative(t))
    case Unreadable => Err(ReplyError)
    case CallFailed => Err(OracleError)
  }

  lemma {:induction false} LowerKeepsSpaces(t: string, i: nat)
    requires i < |t| && !IsSpace(LowerAscii(t)[i])
    ensures !IsSpace(t[i])
  {
  }

  lemma {:induction false} LowerSlice(t: string, a: nat, b: nat)
    requires a <= b <= |t|
    ensures LowerAscii(t[a..b]) == LowerAscii(t)[a..b]
  {
  }

  lemma {:induction false} StrippedWordOccursInAnswer(t: string, w: string)
    requires Contains(LowerAscii(Strip(t)), w)
    ensures Contains(LowerAscii(t), w)
  {
    var a, b := StripBounds(t);
    LowerSlice(t, a, b);
    var lower := LowerAscii(t);
    var i := ContainsWitness(LowerAscii(Strip(t)), w);
    SliceOfSlice(lower, a, b, i, |w|);
    ContainsAt(lower, w, a + i);
  }

  lemma {:induction false} AnswerWordOccursStripped(t: string, w: string)
    requires w != [] && forall k :: 0 <= k < |w| ==> !IsSpace(w[k])
    requires Contains(LowerAscii(t), w)
    ensures Contains(LowerAscii(Strip(t)), w)
  {
    var a, b := StripBounds(t);
    var lower := LowerAscii(t);
    var i := ContainsWitness(lower, w);
    WordWithinStrip(t, w, a, b, i);
    LowerSlice(t, a, b);
    SliceOfSlice(lower, a, b, i - a, |w|);
    ContainsAt(LowerAscii(Strip(t)), w, i - a);
  }

  /** A word without whitespace that occurs in the answer lies between the trimmed ends. */
  lemma {:induction false} WordWithinStrip(t: string, w: string, a: nat, b: nat, i: nat)
    requires w != [] && forall k :: 0 <= k < |w| ==> !IsSpace(w[k])
    requires a <= b <= |t|
    requires forall k :: 0 <= k < a ==> IsSpace(t[k])
    requires forall k :: b <= k < |t| ==> IsSpace(t[k])
    requires i + |w| <= |t| && LowerAscii(t)[i..i + |w|] == w
    ensures a <= i && i + |w| <= b
  {
    assert LowerAscii(t)[i] == w[0];
    LowerKeepsSpaces(t, i);
    assert LowerAscii(t)[i + |w| - 1] == w[|w| - 1];
    LowerKeepsSpaces(t, i + |w| - 1);
  }

  lemma {:induction false} SliceOfSlice(s: string, a: nat, b: nat, i: nat, n: nat)
    requires a <= b <= |s| && i + n <= b - a
    ensures s[a..b][i..i + n] == s[a + i..a + i + n]
  {
    var inner, outer := s[a..b][i..i + n], s[a + i..a + i + n];
    assert |inner| == |outer| && forall k :: 0 <= k < |inner| ==> inner[k] == outer[k];
  }

  /** Trimming never changes whether a word without whitespace occurs in the answer. */
  lemma StripKeepsWords(t: string, w: string)
    requires w != [] && forall k :: 0 <= k < |w| ==> !IsSpace(w[k])
    ensures Contains(LowerAscii(Strip(t)), w) <==> Contains(LowerAscii(t), w)
  {
    if Contains(LowerAscii(Strip(t)), w) {
      StrippedWordOccursInAnswer(t, w);
    }
    if Contains(LowerAscii(t), w) {
      AnswerWordOccursStripped(t, w);
    }
  }

  /** Lower-casing never changes whether "예" occurs. */
  lemma {:induction false} LowerKeepsHangul(t: string)
    ensures Contains(LowerAscii(t), "예") <==> Contains(t, "예")
  {
    if Contains(LowerAscii(t), "예") {
      var i := ContainsWitness(LowerAscii(t), "예");
      assert LowerAscii(t)[i] == '예';
      assert t[i..i + 1] == "예";
      ContainsAt(t, "예", i);
    }
    if Contains(t, "예") {
      var i := ContainsWitness(t, "예");
      assert t[i] == '예';
      assert LowerAscii(t)[i..i + 1] == "예";
      ContainsAt(LowerAscii(t), "예", i);
    }
  }

  /** The verdict ignores whitespace around the answer and the case of "yes": the answer
      counts as useful exactly when it contains "예", or "yes" in any letter case. */
  lemma AffirmativeMeaning(text: string)
    ensures Affirmative(text) <==> Contains(text, "예") || Contains(LowerAscii(text), "yes")
  {
    StripKeepsWords(text, "예");
    StripKeepsWords(text, "yes");
    LowerKeepsHangul(text);
  }

  /** How far the loop of lines 24-34 has got: the chunks kept so far and the number of
      backend calls made so far. */
  datatype Progress = Progress(kept: seq<Document>, calls: nat)

  /** One turn of the loop of lines 24-34 on chunk `sentence`; the next call is answered by
      oracle(p.calls). */
  function FilterStep(oracle: Oracle): (Progress, Document) -> Result<Progress> {
    (p: Progress, sentence: Document) =>
      if IsSkipped(sentence.pageContent) then Ok(p)
      else
        match CheckIfUsefulForTestcase(oracle(p.calls))
        case Err(e) => Err(e)
        case Ok(useful) => Ok(Progress(if useful then p.kept + [sentence] else p.kept, p.calls + 1))
  }

  /** The turns of `step` over `sentences` from an empty start, stopping at the first error. */
  function RunSteps(sentences: seq<Document>, step: (Progress, Document) -> Result<Progress>): Result<Progress>
  {
    if sentences == [] then Ok(Progress([], 0))
    else
      match RunSteps(sentences[..|sentences| - 1], step)
      case Err(e) => Err(e)
      case Ok(p) => step(p, sentences[|sentences| - 1])
  }

  /** The loop of lines 24-34 run over `sentences`; the k-th call is answered by oracle(k). */
  function FilterRun(sentences: seq<Document>, oracle: Oracle): Result<Progress>
  {
    RunSteps(sentences, FilterStep(oracle))
  }

  /** filter_unnecessary_sentences as a value: the credential gate, then the loop. */
  function Filtered(sentences: seq<Document>, option: string, apiKeys: map<string, string>, oracle: Oracle): Result<seq<Document>>
  {
    var _ :- ConfigureApiClients(option, apiKeys);
    var p :- FilterRun(sentences, oracle);
    Ok(p.kept)
  }

  lemma {:induction false} RunStepsErrorPersists(sentences: seq<Document>, step: (Progress, Document) -> Result<Progress>, n: nat)
    requires n <= |sentences| && RunSteps(sentences[..n], step).Err?
    ensures RunSteps(sentences, step) == RunSteps(sentences[..n], step)
    decreases |sentences| - n
  {
    if n < |sentences| {
      assert sentences[..n + 1][..n] == sentences[..n];
      RunStepsErrorPersists(sentences, step, n + 1);
    } else {
      assert sentences[..n] == sentences;
    }
  }

  /** One more turn of the loop. */
  lemma {:induction false} RunStepsLast(sentences: seq<Document>, step: (Progress, Document) -> Result<Progress>, i: nat)
    requires i < |sentences|
    ensures RunSteps(sentences[..i + 1], step) ==
      match RunSteps(sentences[..i], step)
      case Err(e) => Err(e)
      case Ok(p) => step(p, sentences[i])
  {
    assert sentences[..i + 1][..i] == sentences[..i];
  }

  /** One turn of the loop of lines 24-34: a chunk that is too short is passed over,
      any other is sent to the backend and kept when the answer is affirmative. */
  method FilterTurn(p: Progress, sentence: Document, oracle: Oracle) returns (r: Result<Progress>)
    ensures r == FilterStep(oracle)(p, sentence)
  {
    if IsSkipped(sentence.pageContent) {
      return Ok(p);
    }
    var useful :- CheckIfUsefulForTestcase(oracle(p.calls));
    if useful {
      return Ok(Progress(p.kept + [sentence], p.calls + 1));
    }
    return Ok(Progress(p.kept, p.calls + 1));
  }

  method FilterUnnecessarySentences(sentences: seq<Document>, option: string, apiKeys: map<string, string>, oracle: Oracle)
    returns (r: Result<seq<Document>>)
    ensures r == Filtered(sentences, option, apiKeys, oracle)
  {
    var client := ConfigureApiClients(option, apiKeys);
    if client.Err? {
      return Err(client.error);
    }
    ghost var step := FilterStep(oracle);
    var progress := Progress([], 0);
    var i := 0;
    while i < |sentences|
      invariant 0 <= i <= |sentences|
      invariant RunSteps(sentences[..i], step) == Ok(progress)
    {
      RunStepsLast(sentences, step, i);
      var next := FilterTurn(progress, sentences[i], oracle);
      if next.Err? {
        RunStepsErrorPersists(sentences, step, i + 1);
        FilteredAfterGate(sentences, option, apiKeys, oracle, next);
        return Err(next.error);
      }
      progress := next.value;
      i := i + 1;
    }
    assert sentences[..i] == sentences;
    FilteredAfterGate(sentences, option, apiKeys, oracle, Ok(progress));
    r := Ok(progress.kept);
  }

  /** Past the credential gate, the result is the loop's. */
  lemma FilteredAfterGate(sentences: seq<Document>, option: string, apiKeys: map<string, string>, oracle: Oracle, run: Result<Progress>)
    requires ConfigureApiClients(option, apiKeys).Ok? && RunSteps(sentences, FilterStep(oracle)) == run
    ensures Filtered(sentences, option, apiKeys, oracle) ==
      match run
      case Ok(p) => Ok(p.kept)
      case Err(e) => Err(e)
  {
  }

  /** The number of chunks that pass the short-circuit. */
  function CountSent(sentences: seq<Document>): nat {
    if sentences == [] then 0
    else CountSent(sentences[..|sentences| - 1]) + if IsSkipped(sentences[|sentences| - 1].pageContent) then 0 else 1
  }

  /** The elements of s whose mask bit is set, in their order in s. */
  function Select<T>(s: seq<T>, mask: seq<bool>): seq<T>
    requires |mask| == |s|
  {
    if s == [] then []
    else Select(s[..|s| - 1], mask[..|s| - 1]) + if mask[|s| - 1] then [s[|s| - 1]] else []
  }

  /** Chunk j reaches the backend as call number CountSent(sentences[..j]) and is kept when
      that reply is affirmative. */
  predicate KeptAt(sentences: seq<Document>, oracle: Oracle, j: nat)
    requires j < |sentences|
  {
    var reply := oracle(CountSent(sentences[..j]));
    !IsSkipped(sentences[j].pageContent) && reply.Text? && Affirmative(reply.text)
  }

  function KeepMask(sentences: seq<Document>, oracle: Oracle): (mask: seq<bool>)
    ensures |mask| == |sentences|
    ensures forall j :: 0 <= j < |sentences| ==> mask[j] == KeptAt(sentences, oracle, j)
  {
    seq(|sentences|, j requires 0 <= j < |sentences| => KeptAt(sentences, oracle, j))
  }

  /** The filter makes exactly one backend call per chunk that passes the short-circuit,
      and keeps exactly the chunks whose reply is affirmative, in their input order. */
  lemma {:induction false} FilterRunSelects(sentences: seq<Document>, oracle: Oracle)
    requires FilterRun(sentences, oracle).Ok?
    ensures FilterRun(sentences, oracle).value.calls == CountSent(sentences)
    ensures FilterRun(sentences, oracle).value.kept == Select(sentences, KeepMask(sentences, oracle))
  {
    if sentences != [] {
      var n := |sentences| - 1;
      var init := sentences[..n];
      FilterRunSelects(init, oracle);
      var mask := KeepMask(sentences, oracle);
      forall j | 0 <= j < n
        ensures mask[j] == KeepMask(init, oracle)[j]
      {
        assert init[..j] == sentences[..j];
      }
      assert mask[..n] == KeepMask(init, oracle);
      assert sentences[..n] == init;
    }
  }

  /** Chunk j passes the short-circuit and its call gets no readable reply. */
  predicate FailsAt(sentences: seq<Document>, oracle: Oracle, j: nat)
    requires j < |sentences|
  {
    !IsSkipped(sentences[j].pageContent) && !oracle(CountSent(sentences[..j])).Text?
  }

  /** The filter raises exactly when some chunk that passes the short-circuit gets a reply
      that is not text: per-chunk backend failures are never swallowed. */
  lemma {:induction false} FilterRunFailsIff(sentences: seq<Document>, oracle: Oracle)
    ensures FilterRun(sentences, oracle).Err? <==> exists j :: 0 <= j < |sentences| && FailsAt(sentences, oracle, j)
  {
    if sentences != [] {
      var n := |sentences| - 1;
      var init := sentences[..n];
      FilterRunFailsIff(init, oracle);
      forall j | 0 <= j < n
        ensures FailsAt(init, oracle, j) == FailsAt(sentences, oracle, j)
      {
        assert init[..j] == sentences[..j];
      }
      if FilterRun(init, oracle).Ok? {
        LastChunkFails(sentences, oracle);
      }
    }
  }

  /** Once the earlier chunks went through, the run raises exactly when the last one fails. */
  lemma {:induction false} LastChunkFails(sentences: seq<Document>, oracle: Oracle)
    requires sentences != [] && FilterRun(sentences[..|sentences| - 1], oracle).Ok?
    ensures FilterRun(sentences, oracle).Err? <==> FailsAt(sentences, oracle, |sentences| - 1)
  {
    FilterRunSelects(sentences[..|sentences| - 1], oracle);
  }

  /** Only the first CountSent(sentences) replies matter: the short chunks are never sent. */
  lemma {:induction false} FilterRunReadsOnlyItsCalls(sentences: seq<Document>, o1: Oracle, o2: Oracle)
    requires forall k: nat :: k < CountSent(sentences) ==> o1(k) == o2(k)
    ensures FilterRun(sentences, o1) == FilterRun(sentences, o2)
  {
    if sentences != [] {
      var init := sentences[..|sentences| - 1];
      FilterRunReadsOnlyItsCalls(init, o1, o2);
      if FilterRun(init, o1).Ok? {
        FilterRunSelects(init, o1);
      }
    }
  }
}
