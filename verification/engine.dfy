/**
 The engine records the plugin reads. They are snapshots handed to each
 callback, and the plugin never changes them.

 C's linked lists (process_list, mfcclist, align) become sequences in list
 order. Arrays with a separate count (sent/sentnum, word/word_num,
 wseq/wlen) become sequences whose length is that count.
 */
module Engine {

  /** r->lmtype: statistical (N-gram), grammar-based, or neither. */
  datatype LmType = LmProb | LmDfa | LmUndef

  /** SentenceAlign.unittype. */
  datatype AlignUnit = PerWord | PerPhoneme | PerState

  /** One forced-alignment result attached to a sentence. */
  datatype SentenceAlign = SentenceAlign(unit: AlignUnit, beginFrame: seq<int>, endFrame: seq<int>)

  /** One ranked sentence hypothesis (Sentence). `words` holds dictionary
      word ids. */
  datatype Sentence = Sentence(
    words: seq<nat>,
    score: real,
    scoreAm: real,
    scoreLm: real,
    scoreMbr: real,
    gramId: int,
    confidence: seq<real>,
    align: seq<SentenceAlign>)

  /** One dictionary entry: woutput[w], wname[w] and the HMM names of
      wseq[w][0 .. wlen[w]). */
  datatype DictWord = DictWord(output: string, name: string, hmms: seq<string>)

  /** The part of a process's configuration the plugin reads. */
  datatype Config = Config(id: int, name: string, useMbr: bool)

  /** One recognition process (RecogProcess) with its result for the
      current utterance. */
  datatype RecogProcess = RecogProcess(
    config: Config,
    live: bool,
    lmtype: LmType,
    status: int,
    sent: seq<Sentence>,
    winfo: seq<DictWord>)

  /** One feature stream (MFCCCalc) with its input length in frames. */
  datatype MfccCalc = MfccCalc(id: int, samplenum: int)

  /** The GMM classifier's result: the best class's name and its confidence. */
  datatype GmmResult = GmmResult(maxName: string, maxCm: real)

  /** The compile-time switches: USE_MBR, CONFIDENCE_MEASURE and
      CM_MULTIPLE_ALPHA. */
  datatype Build = Build(useMbr: bool, confidenceMeasure: bool, cmMultipleAlpha: bool)

  /** MBRSCORE is written only when MBR is compiled in and the process uses it. */
  predicate MbrOn(build: Build, p: RecogProcess) {
    build.useMbr && p.config.useMbr
  }

  /** CM is written per word only when confidence is compiled in with a
      single confidence stream. */
  predicate CmOn(build: Build) {
    build.confidenceMeasure && !build.cmMultipleAlpha
  }

  /** What the hypothesis loop indexes in a sentence: every word id names a
      dictionary entry, there is a confidence for every word when CM is
      written, and a word alignment has frames for every word. */
  predicate SentenceReadable(s: Sentence, winfo: seq<DictWord>, build: Build) {
    && (forall i :: 0 <= i < |s.words| ==> s.words[i] < |winfo|)
    && (CmOn(build) ==> |s.confidence| >= |s.words|)
    && (forall a :: a in s.align && a.unit == PerWord ==>
          |a.beginFrame| >= |s.words| && |a.endFrame| >= |s.words|)
  }

  /** Every sentence of a process can be read. */
  predicate SentencesReadable(p: RecogProcess, build: Build) {
    forall s :: s in p.sent ==> SentenceReadable(s, p.winfo, build)
  }

  /** Only the sentences of a process that succeeded are read. */
  predicate ResultReadable(p: RecogProcess, build: Build) {
    p.status >= 0 ==> SentencesReadable(p, build)
  }

  /** Only live processes are read at all. */
  predicate AllReadable(procs: seq<RecogProcess>, build: Build) {
    forall p :: p in procs && p.live ==> ResultReadable(p, build)
  }
}
