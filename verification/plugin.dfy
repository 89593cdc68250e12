/**
 The plugin's callbacks and the document they fill in for one utterance.

 The plugin keeps one root object. The callbacks write their parts into
 it, and at the end of a recognition the finished document is emitted and
 replaced by a fresh empty one. The only other state is word_out's static
 phone buffer, which outlives every document.
 */
module Plugin {
  import opened JsonTree
  import opened Engine
  import opened Status
  import opened Hypothesis
  import opened Results

  /** The root object being filled in, and the phone buffer. */
  datatype State = State(doc: Obj, phone: string)

  /** json_init: a fresh root object. */
  function JsonInit(): (o: Obj)
    ensures Keys(o) == {} && o.order == []
    ensures WellFormed(o)
  {
    Empty
  }

  /** The plugin before its first callback: an empty document and the
      zero-filled static buffer. */
  function Initial(): (st: State)
    ensures Keys(st.doc) == {} && st.phone == ""
  {
    State(JsonInit(), "")
  }

  /** Two objects that agree on every key but the given ones. */
  predicate AgreeExcept(a: Obj, b: Obj, changed: set<Key>) {
    forall k :: k !in changed ==> Get(a, k) == Get(b, k)
  }

  // ---------------------------------------------------------------------
  // result_best_str

  /** result_best_str: `sentence` is the best string, or "" when there is
      none, and `succeeded` says whether there was one. */
  function ResultBestStr(doc: Obj, str: Option<string>): (r: Obj)
    ensures Get(r, sentence) == Some(JString(if str.Some? then str.value else ""))
    ensures Get(r, succeeded) == Some(JBool(str.Some?))
    ensures AgreeExcept(r, doc, {sentence, succeeded})
  {
    var text := if str.None? then "" else str.value;
    SetOther(doc, sentence, JString(text));
    SetOther(Set(doc, sentence, JString(text)), succeeded, JBool(str.Some?));
    Set(Set(doc, sentence, JString(text)), succeeded, JBool(str.Some?))
  }

  /** Reads the best string back from `sentence` and `succeeded`. */
  function ReadBestStr(o: Obj): Option<string> {
    match (Get(o, succeeded), Get(o, sentence))
    case (Some(JBool(true)), Some(JString(text))) => Some(text)
    case _ => None
  }

  /** The two fields together give back exactly the string passed in, so a
      missing result and an empty one stay apart. */
  lemma BestStrRoundTrip(doc: Obj, str: Option<string>)
    ensures ReadBestStr(ResultBestStr(doc, str)) == str
  {
  }

  // ---------------------------------------------------------------------
  // result_pass1_final, set_json_result_status

  /** An array holding the status fields of each live process, in
      process-list order. */
  predicate StatusArray(v: Option<Json>, procs: seq<RecogProcess>) {
    && v.Some? && v.value.JArray?
    && |v.value.items| == |Live(procs)|
    && forall k :: 0 <= k < |v.value.items| ==>
         && v.value.items[k].JObject?
         && EntryFields(v.value.items[k].obj, Live(procs)[k])
         && v.value.items[k].obj.order == StatusOrder
         && WellFormed(v.value.items[k].obj)
  }

  /** StatusEntries gives such an array. */
  lemma StatusEntriesArray(procs: seq<RecogProcess>)
    ensures StatusArray(Some(JArray(StatusEntries(procs))), procs)
  {
    StatusEntriesAt(procs);
    forall k | 0 <= k < |Live(procs)| ensures WellFormed(StatusFields(Live(procs)[k])) {
      StatusFieldsWellFormed(Live(procs)[k]);
    }
  }

  /** result_pass1_final: PASS1 holds the status fields of every live
      process. */
  function ResultPass1Final(doc: Obj, procs: seq<RecogProcess>): (r: Obj)
    ensures StatusArray(Get(r, PASS1), procs)
    ensures AgreeExcept(r, doc, {PASS1})
  {
    StatusEntriesArray(procs);
    SetOther(doc, PASS1, JArray(StatusEntries(procs)));
    Set(doc, PASS1, JArray(StatusEntries(procs)))
  }

  /** set_json_result_status: `result` holds the status fields of every
      live process. */
  function SetJsonResultStatus(doc: Obj, procs: seq<RecogProcess>): (r: Obj)
    ensures StatusArray(Get(r, result), procs)
    ensures AgreeExcept(r, doc, {result})
  {
    StatusEntriesArray(procs);
    SetOther(doc, result, JArray(StatusEntries(procs)));
    Set(doc, result, JArray(StatusEntries(procs)))
  }

  // ---------------------------------------------------------------------
  // result_pass2

  /** result_pass2: RECOGOUT holds one entry per live process; the phone
      buffer is left as the last word written leaves it. */
  function ResultPass2(st: State, procs: seq<RecogProcess>, build: Build, center: string -> string): (r: State)
    requires AllReadable(procs, build)
    ensures Get(r.doc, RECOGOUT).Some? && Get(r.doc, RECOGOUT).value.JArray?
    ensures |Get(r.doc, RECOGOUT).value.items| == |Live(procs)|
    ensures AgreeExcept(r.doc, st.doc, {RECOGOUT})
  {
    var out := RecogOut(procs, build, center, st.phone);
    SetOther(st.doc, RECOGOUT, JArray(out.0));
    State(Set(st.doc, RECOGOUT, JArray(out.0)), out.1)
  }

  /** Entry k of RECOGOUT describes the k-th live process: its status
      fields, no SHYPO if it failed, and every hypothesis if it succeeded. */
  lemma ResultPass2Entries(st: State, procs: seq<RecogProcess>, build: Build, center: string -> string)
    requires AllReadable(procs, build)
    ensures forall k :: 0 <= k < |Live(procs)| ==>
              Live(procs)[k] in procs && ResultReadable(Live(procs)[k], build) &&
              RecogOutShape(Get(ResultPass2(st, procs, build, center).doc, RECOGOUT).value.items[k],
                            Live(procs)[k], build, center)
  {
    RecogOutEntries(procs, build, center, st.phone);
  }

  // ---------------------------------------------------------------------
  // status_param

  /** The input description of one feature stream. MSEC comes from a float
      computation on the frame count, which `msec` stands for. */
  function InputEntry(m: MfccCalc, msec: int -> int): (o: Obj)
    ensures Get(o, MFCCID) == Some(JNumber(m.id as real))
    ensures Get(o, FRAMES) == Some(JNumber(m.samplenum as real))
    ensures Get(o, MSEC) == Some(JNumber(msec(m.samplenum) as real))
    ensures o.order == [MFCCID, FRAMES, MSEC]
  {
    Set(Set(Set(Empty, MFCCID, JNumber(m.id as real)), FRAMES, JNumber(m.samplenum as real)),
        MSEC, JNumber(msec(m.samplenum) as real))
  }

  /** One input description per stream, in list order. */
  function InputEntries(streams: seq<MfccCalc>, msec: int -> int): (r: seq<Json>)
    ensures |r| == |streams|
    ensures forall k :: 0 <= k < |r| ==> r[k] == JObject(InputEntry(streams[k], msec))
  {
    if |streams| == 0 then []
    else [JObject(InputEntry(streams[0], msec))] + InputEntries(streams[1..], msec)
  }

  /** The single-stream branch of status_param: FRAMES and MSEC go under
      INPUT by dotted writes, which keep whatever else INPUT already holds. */
  function InputDotted(doc: Obj, m: MfccCalc, msec: int -> int): (r: Obj)
    ensures Writable(doc, INPUT) ==>
              && GetPath(r, INPUT, FRAMES) == Some(JNumber(m.samplenum as real))
              && GetPath(r, INPUT, MSEC) == Some(JNumber(msec(m.samplenum) as real))
              && (forall l :: l != FRAMES && l != MSEC ==> GetPath(r, INPUT, l) == GetPath(doc, INPUT, l))
    ensures AgreeExcept(r, doc, {INPUT})
  {
    var framed := DotSet(doc, INPUT, FRAMES, JNumber(m.samplenum as real));
    DotSetOther(doc, INPUT, FRAMES, JNumber(m.samplenum as real));
    DotSetOther(framed, INPUT, MSEC, JNumber(msec(m.samplenum) as real));
    DotSet(framed, INPUT, MSEC, JNumber(msec(m.samplenum) as real))
  }

  /** status_param. With several streams INPUT becomes an array of their
      descriptions, in list order; with one stream, its frame count and
      length go under INPUT. */
  function StatusParam(doc: Obj, streams: seq<MfccCalc>, msec: int -> int): (r: Obj)
    requires |streams| >= 1
    ensures |streams| > 1 ==> Get(r, INPUT) == Some(JArray(InputEntries(streams, msec)))
    ensures |streams| == 1 ==> r == InputDotted(doc, streams[0], msec)
    ensures AgreeExcept(r, doc, {INPUT})
  {
    if |streams| > 1 then
      SetOther(doc, INPUT, JArray(InputEntries(streams, msec)));
      Set(doc, INPUT, JArray(InputEntries(streams, msec)))
    else
      InputDotted(doc, streams[0], msec)
  }

  // ---------------------------------------------------------------------
  // result_gmm, status_recready / status_recstart / status_recend

  /** result_gmm: GMM.RESULT is the best class's name, and GMM.CMSCORE its
      confidence when confidence scoring is compiled in. */
  function ResultGmm(doc: Obj, gmm: GmmResult, build: Build): (r: Obj)
    ensures Writable(doc, GMM) ==>
              && GetPath(r, GMM, RESULT) == Some(JString(gmm.maxName))
              && GetPath(r, GMM, CMSCORE)
                 == (if build.confidenceMeasure then Some(JNumber(gmm.maxCm)) else GetPath(doc, GMM, CMSCORE))
    ensures AgreeExcept(r, doc, {GMM})
  {
    var named := DotSet(doc, GMM, RESULT, JString(gmm.maxName));
    DotSetOther(doc, GMM, RESULT, JString(gmm.maxName));
    if build.confidenceMeasure then
      DotSetOther(named, GMM, CMSCORE, JNumber(gmm.maxCm));
      DotSet(named, GMM, CMSCORE, JNumber(gmm.maxCm))
    else named
  }

  /** The three timestamps go under TIME. */
  predicate TimeLeaf(leaf: Key) {
    leaf == LISTEN || leaf == STARTREC || leaf == ENDREC
  }

  /** status_recready, status_recstart, status_recend: TIME.<leaf> is the
      clock reading `t`, which is an input here. */
  function StatusTime(doc: Obj, leaf: Key, t: int): (r: Obj)
    requires TimeLeaf(leaf)
    ensures Writable(doc, TIME) ==> GetPath(r, TIME, leaf) == Some(JNumber(t as real))
    ensures Writable(doc, TIME) ==>
              forall l :: l != leaf ==> GetPath(r, TIME, l) == GetPath(doc, TIME, l)
    ensures AgreeExcept(r, doc, {TIME})
  {
    DotSetOther(doc, TIME, leaf, JNumber(t as real));
    DotSet(doc, TIME, leaf, JNumber(t as real))
  }

  // ---------------------------------------------------------------------
  // notify_recog_end

  /** notify_recog_end: `result` is added, the document is emitted, and the
      root object starts over empty. The phone buffer is kept. */
  function NotifyRecogEnd(st: State, procs: seq<RecogProcess>): (r: (Obj, State))
    ensures StatusArray(Get(r.0, result), procs)
    ensures AgreeExcept(r.0, st.doc, {result})
    ensures Keys(r.1.doc) == {} && r.1.doc.order == []
    ensures r.1.phone == st.phone
  {
    (SetJsonResultStatus(st.doc, procs), State(JsonInit(), st.phone))
  }

  // ---------------------------------------------------------------------
  // The callbacks in sequence

  /** The callbacks the plugin registers, with the engine data each reads;
      BestStr is result_best_str, which the host calls directly. */
  datatype Event =
    | SpeechReady(time: int)
    | SpeechStart(time: int)
    | SpeechStop(time: int)
    | Pass1(procs: seq<RecogProcess>)
    | Param(streams: seq<MfccCalc>)
    | Pass2(procs: seq<RecogProcess>)
    | Gmm(gmm: GmmResult)
    | BestStr(str: Option<string>)
    | RecogEnd(procs: seq<RecogProcess>)

  /** What the callbacks require of the engine: at least one feature
      stream, and readable results for the hypothesis output. */
  predicate ValidEvent(e: Event, build: Build) {
    match e
    case Param(streams) => |streams| >= 1
    case Pass2(procs) => AllReadable(procs, build)
    case _ => true
  }

  /** One callback: the new state, and the document it emits, if any. */
  function Step(st: State, e: Event, build: Build, center: string -> string, msec: int -> int)
    : (r: (State, Option<Obj>))
    requires ValidEvent(e, build)
    ensures r.1.Some? <==> e.RecogEnd?
    ensures e.RecogEnd? ==> Keys(r.0.doc) == {}
    ensures !e.Pass2? ==> r.0.phone == st.phone
  {
    match e
    case SpeechReady(t) => (State(StatusTime(st.doc, LISTEN, t), st.phone), None)
    case SpeechStart(t) => (State(StatusTime(st.doc, STARTREC, t), st.phone), None)
    case SpeechStop(t) => (State(StatusTime(st.doc, ENDREC, t), st.phone), None)
    case Pass1(procs) => (State(ResultPass1Final(st.doc, procs), st.phone), None)
    case Param(streams) => (State(StatusParam(st.doc, streams, msec), st.phone), None)
    case Pass2(procs) => (ResultPass2(st, procs, build, center), None)
    case Gmm(g) => (State(ResultGmm(st.doc, g, build), st.phone), None)
    case BestStr(str) => (State(ResultBestStr(st.doc, str), st.phone), None)
    case RecogEnd(procs) =>
      var ended := NotifyRecogEnd(st, procs);
      (ended.1, Some(ended.0))
  }

  /** Every callback keeps the root object's key order listing each key
      exactly once. */
  lemma StepKeepsWellFormed(st: State, e: Event, build: Build, center: string -> string, msec: int -> int)
    requires ValidEvent(e, build)
    requires WellFormed(st.doc)
    ensures WellFormed(Step(st, e, build, center, msec).0.doc)
  {
    match e
    case SpeechReady(t) => DotSetKeepsWellFormed(st.doc, TIME, LISTEN, JNumber(t as real));
    case SpeechStart(t) => DotSetKeepsWellFormed(st.doc, TIME, STARTREC, JNumber(t as real));
    case SpeechStop(t) => DotSetKeepsWellFormed(st.doc, TIME, ENDREC, JNumber(t as real));
    case Pass1(procs) => SetKeepsWellFormed(st.doc, PASS1, JArray(StatusEntries(procs)));
    case Param(streams) =>
      if |streams| > 1 {
        SetKeepsWellFormed(st.doc, INPUT, JArray(InputEntries(streams, msec)));
      } else {
        assert StatusParam(st.doc, streams, msec) == InputDotted(st.doc, streams[0], msec);
        var m := streams[0];
        var framed := DotSet(st.doc, INPUT, FRAMES, JNumber(m.samplenum as real));
        DotSetKeepsWellFormed(st.doc, INPUT, FRAMES, JNumber(m.samplenum as real));
        DotSetKeepsWellFormed(framed, INPUT, MSEC, JNumber(msec(m.samplenum) as real));
      }
    case Pass2(procs) =>
      SetKeepsWellFormed(st.doc, RECOGOUT, JArray(RecogOut(procs, build, center, st.phone).0));
    case Gmm(g) =>
      var named := DotSet(st.doc, GMM, RESULT, JString(g.maxName));
      DotSetKeepsWellFormed(st.doc, GMM, RESULT, JString(g.maxName));
      DotSetKeepsWellFormed(named, GMM, CMSCORE, JNumber(g.maxCm));
    case BestStr(str) =>
      var text := if str.None? then "" else str.value;
      SetKeepsWellFormed(st.doc, sentence, JString(text));
      SetKeepsWellFormed(Set(st.doc, sentence, JString(text)), succeeded, JBool(str.Some?));
    case RecogEnd(procs) =>
  }

  /** The dotted parents TIME and GMM are absent or objects, so their
      dotted writes land. */
  predicate DottedWritable(doc: Obj) {
    Writable(doc, TIME) && Writable(doc, GMM)
  }

  /** A write that keeps TIME and GMM keeps them writable. */
  lemma AgreeKeepsWritable(a: Obj, b: Obj, changed: set<Key>)
    requires AgreeExcept(a, b, changed) && TIME !in changed && GMM !in changed
    requires DottedWritable(b)
    ensures DottedWritable(a)
  {
  }

  /** A timestamp write keeps both dotted parents writable. */
  lemma StatusTimeWritable(doc: Obj, leaf: Key, t: int)
    requires TimeLeaf(leaf)
    requires DottedWritable(doc)
    ensures DottedWritable(StatusTime(doc, leaf, t))
  {
    DotSetOther(doc, TIME, leaf, JNumber(t as real));
  }

  /** A GMM write keeps both dotted parents writable. */
  lemma ResultGmmWritable(doc: Obj, g: GmmResult, build: Build)
    requires DottedWritable(doc)
    ensures DottedWritable(ResultGmm(doc, g, build))
  {
    var named := DotSet(doc, GMM, RESULT, JString(g.maxName));
    DotSetOther(doc, GMM, RESULT, JString(g.maxName));
    DotSetOther(named, GMM, CMSCORE, JNumber(g.maxCm));
  }

  /** No callback puts anything but an object under TIME or GMM. */
  lemma StepKeepsWritable(st: State, e: Event, build: Build, center: string -> string, msec: int -> int)
    requires ValidEvent(e, build)
    requires DottedWritable(st.doc)
    ensures DottedWritable(Step(st, e, build, center, msec).0.doc)
  {
    var after := Step(st, e, build, center, msec).0.doc;
    match e
    case SpeechReady(t) => StatusTimeWritable(st.doc, LISTEN, t);
    case SpeechStart(t) => StatusTimeWritable(st.doc, STARTREC, t);
    case SpeechStop(t) => StatusTimeWritable(st.doc, ENDREC, t);
    case Pass1(procs) => AgreeKeepsWritable(after, st.doc, {PASS1});
    case Param(streams) => AgreeKeepsWritable(after, st.doc, {INPUT});
    case Pass2(procs) => AgreeKeepsWritable(after, st.doc, {RECOGOUT});
    case Gmm(g) => ResultGmmWritable(st.doc, g, build);
    case BestStr(str) => AgreeKeepsWritable(after, st.doc, {sentence, succeeded});
    case RecogEnd(procs) =>
  }

  /** A run of callbacks: the final state and the documents emitted, in
      order. */
  function Run(st: State, events: seq<Event>, build: Build, center: string -> string, msec: int -> int)
    : (r: (State, seq<Obj>))
    requires forall i :: 0 <= i < |events| ==> ValidEvent(events[i], build)
    decreases |events|
  {
    if |events| == 0 then (st, [])
    else
      var first := Step(st, events[0], build, center, msec);
      var rest := Run(first.0, events[1..], build, center, msec);
      (rest.0, (if first.1.Some? then [first.1.value] else []) + rest.1)
  }

  /** How many recognitions end in a run. */
  function Ends(events: seq<Event>): nat {
    if |events| == 0 then 0 else (if events[0].RecogEnd? then 1 else 0) + Ends(events[1..])
  }

  /** One document is emitted per recognition end, and after a run that
      ends with one the root object is empty again. */
  lemma {:induction false} RunEmitsPerEnd(st: State, events: seq<Event>, build: Build, center: string -> string, msec: int -> int)
    requires forall i :: 0 <= i < |events| ==> ValidEvent(events[i], build)
    ensures |Run(st, events, build, center, msec).1| == Ends(events)
    ensures |events| > 0 && events[|events| - 1].RecogEnd? ==> Keys(Run(st, events, build, center, msec).0.doc) == {}
    decreases |events|
  {
    if |events| > 0 {
      var first := Step(st, events[0], build, center, msec);
      RunEmitsPerEnd(first.0, events[1..], build, center, msec);
      if |events| == 1 {
        assert events[|events| - 1] == events[0];
      } else {
        assert events[1..][|events[1..]| - 1] == events[|events| - 1];
      }
    }
  }

  /** The key order of the root object lists each key exactly once through
      any run of callbacks. */
  lemma {:induction false} RunKeepsWellFormed(st: State, events: seq<Event>, build: Build, center: string -> string, msec: int -> int)
    requires forall i :: 0 <= i < |events| ==> ValidEvent(events[i], build)
    requires WellFormed(st.doc)
    ensures WellFormed(Run(st, events, build, center, msec).0.doc)
    decreases |events|
  {
    if |events| > 0 {
      StepKeepsWellFormed(st, events[0], build, center, msec);
      RunKeepsWellFormed(Step(st, events[0], build, center, msec).0, events[1..], build, center, msec);
    }
  }

  /** From the plugin's start, TIME and GMM never hold anything but an
      object, so every timestamp and GMM write lands. */
  lemma {:induction false} RunKeepsWritable(st: State, events: seq<Event>, build: Build, center: string -> string, msec: int -> int)
    requires forall i :: 0 <= i < |events| ==> ValidEvent(events[i], build)
    requires DottedWritable(st.doc)
    ensures DottedWritable(Run(st, events, build, center, msec).0.doc)
    decreases |events|
  {
    if |events| > 0 {
      StepKeepsWritable(st, events[0], build, center, msec);
      RunKeepsWritable(Step(st, events[0], build, center, msec).0, events[1..], build, center, msec);
    }
  }

  /** Every state reached from the start accepts the TIME and GMM writes. */
  lemma InitialRunWritable(events: seq<Event>, build: Build, center: string -> string, msec: int -> int)
    requires forall i :: 0 <= i < |events| ==> ValidEvent(events[i], build)
    ensures DottedWritable(Run(Initial(), events, build, center, msec).0.doc)
  {
    RunKeepsWritable(Initial(), events, build, center, msec);
  }
}
