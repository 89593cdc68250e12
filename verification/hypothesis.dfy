/**
 One sentence hypothesis as result_pass2 writes it into SHYPO: the scores,
 and WHYPO with one object per word (word_out plus CM and alignment frames).
 */
module Hypothesis {
  import opened JsonTree
  import opened Engine
  import Phone
  import opened Threaded

  /** The last word-level alignment in the list, if any. */
  function LastWordAlign(aligns: seq<SentenceAlign>): (r: Option<SentenceAlign>)
    ensures r.Some? ==> r.value in aligns && r.value.unit == PerWord
    ensures r.None? ==> forall a :: a in aligns ==> a.unit != PerWord
  {
    if |aligns| == 0 then None
    else if aligns[|aligns| - 1].unit == PerWord then Some(aligns[|aligns| - 1])
    else LastWordAlign(aligns[..|aligns| - 1])
  }

  /** The alignment picked is the last word-level one: it sits at some
      position of the list, and every alignment after it is at phoneme or
      state level. */
  lemma {:induction false} LastWordAlignIsLast(aligns: seq<SentenceAlign>)
    ensures LastWordAlign(aligns).Some? ==>
              exists j :: 0 <= j < |aligns| && aligns[j] == LastWordAlign(aligns).value &&
                          forall k :: j < k < |aligns| ==> aligns[k].unit != PerWord
  {
    if |aligns| > 0 && aligns[|aligns| - 1].unit != PerWord {
      var front := aligns[..|aligns| - 1];
      LastWordAlignIsLast(front);
      if LastWordAlign(front).Some? {
        var j :| 0 <= j < |front| && front[j] == LastWordAlign(front).value &&
                 forall k :: j < k < |front| ==> front[k].unit != PerWord;
        assert aligns[j] == front[j];
        forall k | j < k < |aligns| ensures aligns[k].unit != PerWord {
          if k < |front| {
            assert aligns[k] == front[k];
          }
        }
      }
    } else if |aligns| > 0 {
      assert aligns[|aligns| - 1] == LastWordAlign(aligns).value;
    }
  }

  /** Word alignments have frames for word i. */
  predicate FramesCover(aligns: seq<SentenceAlign>, i: nat) {
    forall a :: a in aligns && a.unit == PerWord ==> i < |a.beginFrame| && i < |a.endFrame|
  }

  /** The frames of word i in one word alignment, written as the loop
      writes them: BEGINFRAME, then ENDFRAME. */
  function WriteFrames(o: Obj, a: SentenceAlign, i: nat): Obj
    requires i < |a.beginFrame| && i < |a.endFrame|
  {
    Set(Set(o, BEGINFRAME, JNumber(a.beginFrame[i] as real)), ENDFRAME, JNumber(a.endFrame[i] as real))
  }

  /** The alignment loop for word i, in list order. A word-level alignment
      (re)writes BEGINFRAME and ENDFRAME; a phoneme- or state-level
      alignment writes nothing. Since rewriting keeps the keys' places, the
      loop comes to one write of the last word alignment's frames. */
  function AlignFields(o: Obj, aligns: seq<SentenceAlign>, i: nat): (r: Obj)
    requires FramesCover(aligns, i)
    ensures LastWordAlign(aligns).None? ==> r == o
    ensures LastWordAlign(aligns).Some? ==> r == WriteFrames(o, LastWordAlign(aligns).value, i)
    decreases |aligns|
  {
    if |aligns| == 0 then o
    else
      var last := |aligns| - 1;
      var prev := AlignFields(o, aligns[..last], i);
      var a := aligns[last];
      if a.unit == PerWord then
        var before := LastWordAlign(aligns[..last]);
        if before.Some? then
          SetTwice(o, BEGINFRAME, JNumber(before.value.beginFrame[i] as real),
                   ENDFRAME, JNumber(before.value.endFrame[i] as real),
                   JNumber(a.beginFrame[i] as real), JNumber(a.endFrame[i] as real));
          WriteFrames(prev, a, i)
        else
          WriteFrames(prev, a, i)
      else prev
  }

  /** word_out: WORD and CLASSID from the dictionary entry, PHONE from the
      static buffer after the HMM loop. Returns the members and the new
      buffer content. */
  function WordOut(e: DictWord, center: string -> string, buf: string): (r: (Obj, string))
    ensures Get(r.0, WORD) == Some(JString(e.output))
    ensures Get(r.0, CLASSID) == Some(JString(e.name))
    ensures Get(r.0, PHONE) == Some(JString(r.1))
    ensures r.0.order == [WORD, CLASSID, PHONE]
    ensures |e.hmms| >= 1 ==> r.1 == Phone.Join(Phone.Centres(e.hmms, center))
    ensures |e.hmms| == 0 ==> r.1 == buf
  {
    var phone := Phone.PhoneBuffer(e.hmms, center, buf);
    (Set(Set(Set(Empty, WORD, JString(e.output)), CLASSID, JString(e.name)), PHONE, JString(phone)),
     phone)
  }

  /** The dictionary fields of word i: WORD and CLASSID of its entry, and
      a PHONE string that joins the centre names of its HMMs when it has any. */
  predicate WordFields(o: Obj, s: Sentence, i: nat, winfo: seq<DictWord>, build: Build, center: string -> string)
    requires i < |s.words| && SentenceReadable(s, winfo, build)
  {
    var e := winfo[s.words[i]];
    && Get(o, WORD) == Some(JString(e.output))
    && Get(o, CLASSID) == Some(JString(e.name))
    && Get(o, PHONE).Some? && Get(o, PHONE).value.JString?
    && (|e.hmms| >= 1 ==> Get(o, PHONE) == Some(JString(Phone.Join(Phone.Centres(e.hmms, center)))))
  }

  /** CM is confidence[i] exactly when confidence output is on. */
  predicate WordCm(o: Obj, s: Sentence, i: nat, winfo: seq<DictWord>, build: Build)
    requires i < |s.words| && SentenceReadable(s, winfo, build)
  {
    Get(o, CM) == (if CmOn(build) then Some(JNumber(s.confidence[i])) else None)
  }

  /** The frames of word i in the last word alignment, exactly when there is one. */
  predicate WordFrames(o: Obj, s: Sentence, i: nat, winfo: seq<DictWord>, build: Build)
    requires i < |s.words| && SentenceReadable(s, winfo, build)
  {
    var last := LastWordAlign(s.align);
    && Get(o, BEGINFRAME) == (if last.Some? then Some(JNumber(last.value.beginFrame[i] as real)) else None)
    && Get(o, ENDFRAME) == (if last.Some? then Some(JNumber(last.value.endFrame[i] as real)) else None)
  }

  /** What the WHYPO object of word i of sentence s holds. */
  predicate WordShape(v: Json, s: Sentence, i: nat, winfo: seq<DictWord>, build: Build, center: string -> string)
    requires i < |s.words| && SentenceReadable(s, winfo, build)
  {
    && v.JObject?
    && WordFields(v.obj, s, i, winfo, build, center)
    && WordCm(v.obj, s, i, winfo, build)
    && WordFrames(v.obj, s, i, winfo, build)
  }

  /** The keys of a WHYPO object, in the order they are written. */
  function WordOrder(s: Sentence, build: Build): seq<Key> {
    [WORD, CLASSID, PHONE]
    + (if CmOn(build) then [CM] else [])
    + (if LastWordAlign(s.align).Some? then [BEGINFRAME, ENDFRAME] else [])
  }

  /** One WHYPO element: word_out, then CM, then the alignment loop. Returns
      the element and the phone buffer it leaves. */
  function WordEntry(s: Sentence, i: nat, winfo: seq<DictWord>, build: Build, center: string -> string, buf: string)
    : (r: (Json, string))
    requires i < |s.words| && SentenceReadable(s, winfo, build)
    ensures r.0.JObject?
  {
    var word := WordOut(winfo[s.words[i]], center, buf);
    var withCm := if CmOn(build) then Set(word.0, CM, JNumber(s.confidence[i])) else word.0;
    (JObject(AlignFields(withCm, s.align, i)), word.1)
  }

  /** The WHYPO element of word i has its dictionary entry's fields. */
  lemma WordEntryFields(s: Sentence, i: nat, winfo: seq<DictWord>, build: Build, center: string -> string, buf: string)
    requires i < |s.words| && SentenceReadable(s, winfo, build)
    ensures WordFields(WordEntry(s, i, winfo, build, center, buf).0.obj, s, i, winfo, build, center)
  {
  }

  /** The WHYPO element of word i carries its confidence exactly when
      confidence output is on. */
  lemma WordEntryCm(s: Sentence, i: nat, winfo: seq<DictWord>, build: Build, center: string -> string, buf: string)
    requires i < |s.words| && SentenceReadable(s, winfo, build)
    ensures WordCm(WordEntry(s, i, winfo, build, center, buf).0.obj, s, i, winfo, build)
  {
  }

  /** The WHYPO element of word i carries the frames of the last word
      alignment exactly when there is one. */
  lemma WordEntryFrames(s: Sentence, i: nat, winfo: seq<DictWord>, build: Build, center: string -> string, buf: string)
    requires i < |s.words| && SentenceReadable(s, winfo, build)
    ensures WordFrames(WordEntry(s, i, winfo, build, center, buf).0.obj, s, i, winfo, build)
  {
  }

  /** The PHONE of word i is what the buffer holds afterwards, which is the
      previous content when the word has no HMM. */
  lemma WordEntryPhone(s: Sentence, i: nat, winfo: seq<DictWord>, build: Build, center: string -> string, buf: string)
    requires i < |s.words| && SentenceReadable(s, winfo, build)
    ensures Get(WordEntry(s, i, winfo, build, center, buf).0.obj, PHONE)
            == Some(JString(WordEntry(s, i, winfo, build, center, buf).1))
    ensures |winfo[s.words[i]].hmms| == 0 ==> WordEntry(s, i, winfo, build, center, buf).1 == buf
  {
  }

  lemma WordEntryShape(s: Sentence, i: nat, winfo: seq<DictWord>, build: Build, center: string -> string, buf: string)
    requires i < |s.words| && SentenceReadable(s, winfo, build)
    ensures WordShape(WordEntry(s, i, winfo, build, center, buf).0, s, i, winfo, build, center)
  {
    WordEntryFields(s, i, winfo, build, center, buf);
    WordEntryCm(s, i, winfo, build, center, buf);
    WordEntryFrames(s, i, winfo, build, center, buf);
  }

  /** The WHYPO element of word i has exactly the keys of its shape, in
      write order. */
  lemma WordEntryOrder(s: Sentence, i: nat, winfo: seq<DictWord>, build: Build, center: string -> string, buf: string)
    requires i < |s.words| && SentenceReadable(s, winfo, build)
    ensures WordEntry(s, i, winfo, build, center, buf).0.obj.order == WordOrder(s, build)
  {
    var word := WordOut(winfo[s.words[i]], center, buf);
    var withCm := if CmOn(build) then Set(word.0, CM, JNumber(s.confidence[i])) else word.0;
    assert withCm.order == [WORD, CLASSID, PHONE] + (if CmOn(build) then [CM] else []);
    assert BEGINFRAME !in withCm.fields && ENDFRAME !in withCm.fields;
  }

  /** word_out writes its three keys once each into a fresh object, and
      no other key. */
  lemma WordOutWellFormed(e: DictWord, center: string -> string, buf: string)
    ensures Keys(WordOut(e, center, buf).0) == {WORD, CLASSID, PHONE}
    ensures WellFormed(WordOut(e, center, buf).0)
  {
    var worded := Set(Empty, WORD, JString(e.output));
    var classed := Set(worded, CLASSID, JString(e.name));
    SetKeepsWellFormed(Empty, WORD, JString(e.output));
    SetKeepsWellFormed(worded, CLASSID, JString(e.name));
    SetKeepsWellFormed(classed, PHONE, JString(WordOut(e, center, buf).1));
  }

  /** The alignment loop keeps an object's key order listing each key once. */
  lemma AlignFieldsKeepsWellFormed(o: Obj, aligns: seq<SentenceAlign>, i: nat)
    requires FramesCover(aligns, i)
    requires WellFormed(o)
    ensures WellFormed(AlignFields(o, aligns, i))
  {
    var last := LastWordAlign(aligns);
    if last.Some? {
      var begun := Set(o, BEGINFRAME, JNumber(last.value.beginFrame[i] as real));
      SetKeepsWellFormed(o, BEGINFRAME, JNumber(last.value.beginFrame[i] as real));
      SetKeepsWellFormed(begun, ENDFRAME, JNumber(last.value.endFrame[i] as real));
    }
  }

  /** The WHYPO element of word i lists each of its keys exactly once, so
      it has no key beyond those of its order. */
  lemma WordEntryWellFormed(s: Sentence, i: nat, winfo: seq<DictWord>, build: Build, center: string -> string, buf: string)
    requires i < |s.words| && SentenceReadable(s, winfo, build)
    ensures WellFormed(WordEntry(s, i, winfo, build, center, buf).0.obj)
  {
    var word := WordOut(winfo[s.words[i]], center, buf);
    WordOutWellFormed(winfo[s.words[i]], center, buf);
    var withCm := if CmOn(build) then Set(word.0, CM, JNumber(s.confidence[i])) else word.0;
    if CmOn(build) {
      SetKeepsWellFormed(word.0, CM, JNumber(s.confidence[i]));
    }
    AlignFieldsKeepsWellFormed(withCm, s.align, i);
  }

  /** The word step of the WHYPO loop: word j's element, from the buffer
      the previous word left. */
  function WordSteps(s: Sentence, winfo: seq<DictWord>, build: Build, center: string -> string)
    : (nat, string) --> (Json, string)
  {
    (j: nat, b: string) requires j < |s.words| && SentenceReadable(s, winfo, build) =>
      WordEntry(s, j, winfo, build, center, b)
  }

  /** WHYPO of sentence s: one element per word, in sentence order, and the
      buffer the last word leaves. */
  function Whypo(s: Sentence, winfo: seq<DictWord>, build: Build, center: string -> string, buf: string)
    : (r: (seq<Json>, string))
    requires SentenceReadable(s, winfo, build)
    ensures |r.0| == |s.words|
  {
    Thread(WordSteps(s, winfo, build, center), 0, |s.words|, buf)
  }

  /** WHYPO holds one object per word, in sentence order. */
  predicate WhypoShape(w: Option<Json>, s: Sentence, winfo: seq<DictWord>, build: Build, center: string -> string)
    requires SentenceReadable(s, winfo, build)
  {
    && w.Some? && w.value.JArray?
    && |w.value.items| == |s.words|
    && forall i :: 0 <= i < |s.words| ==> WordShape(w.value.items[i], s, i, winfo, build, center)
  }

  /** Element i of WHYPO is the WHYPO element of word i, built with the
      buffer as the words before it left it. */
  lemma WhypoElement(s: Sentence, winfo: seq<DictWord>, build: Build, center: string -> string, buf: string, i: nat)
    requires SentenceReadable(s, winfo, build)
    requires i < |s.words|
    ensures WordShape(Whypo(s, winfo, build, center, buf).0[i], s, i, winfo, build, center)
  {
    var step := WordSteps(s, winfo, build, center);
    assert forall j: nat, b :: j < |s.words| ==> step.requires(j, b);
    ThreadElement(step, |s.words|, buf, i);
    WordEntryShape(s, i, winfo, build, center, StateAt(step, i, buf));
  }

  /** Element i of WHYPO describes word i of the sentence. */
  lemma WhypoEntries(s: Sentence, winfo: seq<DictWord>, build: Build, center: string -> string, buf: string)
    requires SentenceReadable(s, winfo, build)
    ensures WhypoShape(Some(JArray(Whypo(s, winfo, build, center, buf).0)), s, winfo, build, center)
  {
    forall i | 0 <= i < |s.words|
      ensures WordShape(Whypo(s, winfo, build, center, buf).0[i], s, i, winfo, build, center)
    {
      WhypoElement(s, winfo, build, center, buf, i);
    }
  }

  /** The optional score fields of hypothesis n of process p: RANK n+1 and
      SCORE always, MBRSCORE when MBR is on, AMSCORE and LMSCORE for a
      statistical LM, GRAM for a grammar. */
  predicate ScoreShape(o: Obj, p: RecogProcess, n: nat, build: Build)
    requires n < |p.sent|
  {
    var s := p.sent[n];
    && Get(o, RANK) == Some(JNumber((n + 1) as real))
    && Get(o, SCORE) == Some(JNumber(s.score))
    && Get(o, MBRSCORE) == (if MbrOn(build, p) then Some(JNumber(s.scoreMbr)) else None)
    && Get(o, AMSCORE) == (if p.lmtype == LmProb then Some(JNumber(s.scoreAm)) else None)
    && Get(o, LMSCORE) == (if p.lmtype == LmProb then Some(JNumber(s.scoreLm)) else None)
    && Get(o, GRAM) == (if p.lmtype == LmDfa then Some(JNumber(s.gramId as real)) else None)
  }

  /** The score keys of a SHYPO element, in the order result_pass2 writes
      them. */
  function ScoreOrder(p: RecogProcess, build: Build): seq<Key> {
    [RANK]
    + (if MbrOn(build, p) then [MBRSCORE] else [])
    + [SCORE]
    + (if p.lmtype == LmProb then [AMSCORE, LMSCORE] else [])
    + (if p.lmtype == LmDfa then [GRAM] else [])
  }

  /** What the SHYPO object of hypothesis n (0-based) of process p holds. */
  predicate HypoShape(v: Json, p: RecogProcess, n: nat, build: Build, center: string -> string)
    requires n < |p.sent| && SentenceReadable(p.sent[n], p.winfo, build)
  {
    && v.JObject?
    && ScoreShape(v.obj, p, n, build)
    && WhypoShape(Get(v.obj, WHYPO), p.sent[n], p.winfo, build, center)
  }

  /** The score fields in the order result_pass2 writes them: RANK,
      MBRSCORE, SCORE, then AMSCORE/LMSCORE or GRAM by LM kind. */
  function Scores(p: RecogProcess, n: nat, build: Build): (o: Obj)
    requires n < |p.sent|
    ensures ScoreShape(o, p, n, build)
    ensures o.order == ScoreOrder(p, build)
    ensures WHYPO !in o.fields
  {
    var s := p.sent[n];
    var ranked := Set(Empty, RANK, JNumber((n + 1) as real));
    var withMbr := if MbrOn(build, p) then Set(ranked, MBRSCORE, JNumber(s.scoreMbr)) else ranked;
    var scored := Set(withMbr, SCORE, JNumber(s.score));
    var withProb :=
      if p.lmtype == LmProb then Set(Set(scored, AMSCORE, JNumber(s.scoreAm)), LMSCORE, JNumber(s.scoreLm))
      else scored;
    if p.lmtype == LmDfa then Set(withProb, GRAM, JNumber(s.gramId as real)) else withProb
  }

  /** One SHYPO element: the scores, then WHYPO. Returns the element and the
      buffer its last word leaves. */
  function HypoEntry(p: RecogProcess, n: nat, build: Build, center: string -> string, buf: string)
    : (r: (Json, string))
    requires n < |p.sent| && SentenceReadable(p.sent[n], p.winfo, build)
    ensures r.0.JObject?
  {
    var words := Whypo(p.sent[n], p.winfo, build, center, buf);
    (JObject(Set(Scores(p, n, build), WHYPO, JArray(words.0))), words.1)
  }

  /** A SHYPO element carries RANK n+1, the score fields its LM kind and
      the MBR switch call for, and one WHYPO element per word. */
  lemma HypoEntryShape(p: RecogProcess, n: nat, build: Build, center: string -> string, buf: string)
    requires n < |p.sent| && SentenceReadable(p.sent[n], p.winfo, build)
    ensures HypoShape(HypoEntry(p, n, build, center, buf).0, p, n, build, center)
  {
    WhypoEntries(p.sent[n], p.winfo, build, center, buf);
  }

  /** The score fields are written once each into a fresh object. */
  lemma ScoresWellFormed(p: RecogProcess, n: nat, build: Build)
    requires n < |p.sent|
    ensures WellFormed(Scores(p, n, build))
  {
    var s := p.sent[n];
    var ranked := Set(Empty, RANK, JNumber((n + 1) as real));
    SetKeepsWellFormed(Empty, RANK, JNumber((n + 1) as real));
    var withMbr := if MbrOn(build, p) then Set(ranked, MBRSCORE, JNumber(s.scoreMbr)) else ranked;
    if MbrOn(build, p) {
      SetKeepsWellFormed(ranked, MBRSCORE, JNumber(s.scoreMbr));
    }
    var scored := Set(withMbr, SCORE, JNumber(s.score));
    SetKeepsWellFormed(withMbr, SCORE, JNumber(s.score));
    var withProb :=
      if p.lmtype == LmProb then Set(Set(scored, AMSCORE, JNumber(s.scoreAm)), LMSCORE, JNumber(s.scoreLm))
      else scored;
    if p.lmtype == LmProb {
      SetKeepsWellFormed(scored, AMSCORE, JNumber(s.scoreAm));
      SetKeepsWellFormed(Set(scored, AMSCORE, JNumber(s.scoreAm)), LMSCORE, JNumber(s.scoreLm));
    }
    if p.lmtype == LmDfa {
      SetKeepsWellFormed(withProb, GRAM, JNumber(s.gramId as real));
    }
  }

  /** A SHYPO element has exactly the keys of its shape, in write order. */
  lemma HypoEntryOrder(p: RecogProcess, n: nat, build: Build, center: string -> string, buf: string)
    requires n < |p.sent| && SentenceReadable(p.sent[n], p.winfo, build)
    ensures HypoEntry(p, n, build, center, buf).0.obj.order == ScoreOrder(p, build) + [WHYPO]
  {
  }

  /** A SHYPO element lists each of its keys exactly once. */
  lemma HypoEntryWellFormed(p: RecogProcess, n: nat, build: Build, center: string -> string, buf: string)
    requires n < |p.sent| && SentenceReadable(p.sent[n], p.winfo, build)
    ensures WellFormed(HypoEntry(p, n, build, center, buf).0.obj)
  {
    var words := Whypo(p.sent[n], p.winfo, build, center, buf);
    ScoresWellFormed(p, n, build);
    SetKeepsWellFormed(Scores(p, n, build), WHYPO, JArray(words.0));
  }

  /** The hypothesis step of the SHYPO loop. */
  function HypoSteps(p: RecogProcess, build: Build, center: string -> string): (nat, string) --> (Json, string)
  {
    (n: nat, b: string) requires n < |p.sent| && SentenceReadable(p.sent[n], p.winfo, build) =>
      HypoEntry(p, n, build, center, b)
  }

  /** SHYPO of a process: one element per hypothesis, in input order, and
      the buffer the last word leaves. */
  function Shypo(p: RecogProcess, build: Build, center: string -> string, buf: string): (r: (seq<Json>, string))
    requires SentencesReadable(p, build)
    ensures |r.0| == |p.sent|
  {
    Thread(HypoSteps(p, build, center), 0, |p.sent|, buf)
  }

  /** SHYPO holds one element per hypothesis, in input order. */
  predicate ShypoShape(w: Option<Json>, p: RecogProcess, build: Build, center: string -> string)
    requires SentencesReadable(p, build)
  {
    && w.Some? && w.value.JArray?
    && |w.value.items| == |p.sent|
    && forall n :: 0 <= n < |p.sent| ==> HypoShape(w.value.items[n], p, n, build, center)
  }

  /** Every hypothesis of a readable process can be stepped over. */
  lemma HypoStepsReady(p: RecogProcess, build: Build, center: string -> string)
    requires SentencesReadable(p, build)
    ensures forall j: nat, b :: j < |p.sent| ==> HypoSteps(p, build, center).requires(j, b)
  {
    forall j: nat, b | j < |p.sent| ensures HypoSteps(p, build, center).requires(j, b) {
      assert p.sent[j] in p.sent;
    }
  }

  /** Element n of SHYPO is the SHYPO element of hypothesis n. */
  lemma ShypoElement(p: RecogProcess, build: Build, center: string -> string, buf: string, n: nat)
    requires SentencesReadable(p, build)
    requires n < |p.sent|
    ensures SentenceReadable(p.sent[n], p.winfo, build)
    ensures HypoShape(Shypo(p, build, center, buf).0[n], p, n, build, center)
  {
    var step := HypoSteps(p, build, center);
    HypoStepsReady(p, build, center);
    ThreadElement(step, |p.sent|, buf, n);
    HypoEntryShape(p, n, build, center, StateAt(step, n, buf));
  }

  /** Element n of SHYPO is hypothesis n, so it has RANK n+1. */
  lemma ShypoEntries(p: RecogProcess, build: Build, center: string -> string, buf: string)
    requires SentencesReadable(p, build)
    ensures ShypoShape(Some(JArray(Shypo(p, build, center, buf).0)), p, build, center)
  {
    forall n | 0 <= n < |p.sent|
      ensures HypoShape(Shypo(p, build, center, buf).0[n], p, n, build, center)
    {
      ShypoElement(p, build, center, buf, n);
    }
  }
}
