/**
 The per-configuration arrays: PASS1 (result_pass1_final), RECOGOUT
 (result_pass2) and result (set_json_result_status). Each walks the process
 list in order, skips the processes that are not live, and gives every
 other one an entry headed by the same four status fields.
 */
module Results {
  import opened JsonTree
  import opened Engine
  import opened Status
  import opened Threaded
  import opened Hypothesis

  /** The live processes, in process-list order. */
  function Live(procs: seq<RecogProcess>): (live: seq<RecogProcess>)
    ensures |live| <= |procs|
  {
    if |procs| == 0 then []
    else (if procs[0].live then [procs[0]] else []) + Live(procs[1..])
  }

  /** Exactly the live processes of the list are kept. */
  lemma {:induction false} LiveMembers(procs: seq<RecogProcess>)
    ensures forall q :: q in Live(procs) <==> q in procs && q.live
  {
    if |procs| > 0 {
      LiveMembers(procs[1..]);
      assert procs == [procs[0]] + procs[1..];
    }
  }

  /** Filtering a joined list filters each part, so the order of the
      process list is kept. */
  lemma {:induction false} LiveAppend(a: seq<RecogProcess>, b: seq<RecogProcess>)
    ensures Live(a + b) == Live(a) + Live(b)
  {
    if |a| == 0 {
      assert a + b == b;
    } else {
      var head := if a[0].live then [a[0]] else [];
      LiveAppend(a[1..], b);
      assert (a + b)[0] == a[0];
      assert (a + b)[1..] == a[1..] + b;
      assert Live(a + b) == head + Live(a[1..] + b);
      assert Live(a) == head + Live(a[1..]);
      assert head + (Live(a[1..]) + Live(b)) == (head + Live(a[1..])) + Live(b);
    }
  }

  /** How many processes are live. */
  function LiveCount(procs: seq<RecogProcess>): nat {
    if |procs| == 0 then 0 else (if procs[0].live then 1 else 0) + LiveCount(procs[1..])
  }

  /** Each array has one entry per live process. */
  lemma {:induction false} LiveLength(procs: seq<RecogProcess>)
    ensures |Live(procs)| == LiveCount(procs)
  {
    if |procs| > 0 {
      LiveLength(procs[1..]);
    }
  }

  /** The four fields at the head of every entry: ID and NAME of the
      configuration, the STATUS label, and succeeded = (status >= 0). */
  predicate EntryFields(o: Obj, p: RecogProcess) {
    && Get(o, ID) == Some(JNumber(p.config.id as real))
    && Get(o, NAME) == Some(JString(p.config.name))
    && Get(o, STATUS) == Some(JString(StatusInfo(p.status)))
    && Get(o, succeeded) == Some(JBool(Succeeded(p.status)))
  }

  /** The keys of the status fields, in write order. */
  const StatusOrder: seq<Key> := [ID, NAME, STATUS, succeeded]

  /** The status fields of one process, written into a fresh object. */
  function StatusFields(p: RecogProcess): (o: Obj)
    ensures EntryFields(o, p)
    ensures o.order == StatusOrder
    ensures Keys(o) == {ID, NAME, STATUS, succeeded}
  {
    Set(Set(Set(Set(Empty, ID, JNumber(p.config.id as real)), NAME, JString(p.config.name)),
            STATUS, JString(StatusInfo(p.status))),
        succeeded, JBool(p.status >= 0))
  }

  /** The status fields are written once each into a fresh object. */
  lemma StatusFieldsWellFormed(p: RecogProcess)
    ensures WellFormed(StatusFields(p))
  {
    var a := Set(Empty, ID, JNumber(p.config.id as real));
    var b := Set(a, NAME, JString(p.config.name));
    var c := Set(b, STATUS, JString(StatusInfo(p.status)));
    SetKeepsWellFormed(Empty, ID, JNumber(p.config.id as real));
    SetKeepsWellFormed(a, NAME, JString(p.config.name));
    SetKeepsWellFormed(b, STATUS, JString(StatusInfo(p.status)));
    SetKeepsWellFormed(c, succeeded, JBool(p.status >= 0));
  }

  /** The PASS1 and result arrays: one object of status fields per live
      process, in process-list order. */
  function StatusEntries(procs: seq<RecogProcess>): (r: seq<Json>)
    ensures |r| == |Live(procs)|
  {
    if |procs| == 0 then []
    else
      var rest := StatusEntries(procs[1..]);
      if procs[0].live then [JObject(StatusFields(procs[0]))] + rest else rest
  }

  /** Entry k of a status array holds the status fields of the k-th live
      process. */
  lemma {:induction false} StatusEntryAt(procs: seq<RecogProcess>, k: nat)
    requires k < |StatusEntries(procs)|
    ensures StatusEntries(procs)[k] == JObject(StatusFields(Live(procs)[k]))
    decreases |procs|
  {
    var rest := StatusEntries(procs[1..]);
    var tail := Live(procs[1..]);
    if procs[0].live {
      assert StatusEntries(procs) == [JObject(StatusFields(procs[0]))] + rest;
      assert Live(procs) == [procs[0]] + tail;
      if k > 0 {
        StatusEntryAt(procs[1..], k - 1);
      }
    } else {
      assert StatusEntries(procs) == rest;
      assert Live(procs) == tail;
      StatusEntryAt(procs[1..], k);
    }
  }

  /** Every entry of a status array holds the status fields of the live
      process at the same position. */
  lemma StatusEntriesAt(procs: seq<RecogProcess>)
    ensures forall k :: 0 <= k < |StatusEntries(procs)| ==>
              StatusEntries(procs)[k] == JObject(StatusFields(Live(procs)[k]))
  {
    forall k | 0 <= k < |StatusEntries(procs)|
      ensures StatusEntries(procs)[k] == JObject(StatusFields(Live(procs)[k]))
    {
      StatusEntryAt(procs, k);
    }
  }

  /** One RECOGOUT entry: the status fields and, only for a process that
      succeeded, SHYPO. Returns the entry and the phone buffer it leaves. */
  function RecogOutEntry(p: RecogProcess, build: Build, center: string -> string, buf: string)
    : (r: (Json, string))
    requires ResultReadable(p, build)
    ensures r.0.JObject?
    ensures EntryFields(r.0.obj, p)
  {
    var fields := StatusFields(p);
    if p.status < 0 then (JObject(fields), buf)
    else
      var shypo := Shypo(p, build, center, buf);
      (JObject(Set(fields, SHYPO, JArray(shypo.0))), shypo.1)
  }

  /** A process that failed or was rejected has exactly the status fields:
      no SHYPO key at all. */
  lemma RecogOutFailed(p: RecogProcess, build: Build, center: string -> string, buf: string)
    requires ResultReadable(p, build)
    requires p.status < 0
    ensures Get(RecogOutEntry(p, build, center, buf).0.obj, SHYPO) == None
    ensures RecogOutEntry(p, build, center, buf).0.obj.order == StatusOrder
    ensures RecogOutEntry(p, build, center, buf).1 == buf
  {
  }

  /** A process that succeeded gets SHYPO after its status fields, with one
      element per hypothesis in input order. */
  lemma RecogOutSucceeded(p: RecogProcess, build: Build, center: string -> string, buf: string)
    requires ResultReadable(p, build)
    requires p.status >= 0
    ensures ShypoShape(Get(RecogOutEntry(p, build, center, buf).0.obj, SHYPO), p, build, center)
    ensures RecogOutEntry(p, build, center, buf).0.obj.order == StatusOrder + [SHYPO]
  {
    ShypoEntries(p, build, center, buf);
  }

  /** A failed process's RECOGOUT entry has the four status keys and no
      other, each listed once. */
  lemma RecogOutFailedKeys(p: RecogProcess, build: Build, center: string -> string, buf: string)
    requires ResultReadable(p, build)
    requires p.status < 0
    ensures Keys(RecogOutEntry(p, build, center, buf).0.obj) == {ID, NAME, STATUS, succeeded}
    ensures WellFormed(RecogOutEntry(p, build, center, buf).0.obj)
  {
    assert RecogOutEntry(p, build, center, buf).0.obj == StatusFields(p);
    StatusFieldsWellFormed(p);
  }

  /** A succeeded process's RECOGOUT entry has the four status keys and
      SHYPO and no other, each listed once. */
  lemma RecogOutSucceededKeys(p: RecogProcess, build: Build, center: string -> string, buf: string)
    requires ResultReadable(p, build)
    requires p.status >= 0
    ensures Keys(RecogOutEntry(p, build, center, buf).0.obj) == {ID, NAME, STATUS, succeeded, SHYPO}
    ensures WellFormed(RecogOutEntry(p, build, center, buf).0.obj)
  {
    var fields := StatusFields(p);
    var shypo := JArray(Shypo(p, build, center, buf).0);
    assert RecogOutEntry(p, build, center, buf).0.obj == Set(fields, SHYPO, shypo);
    StatusFieldsWellFormed(p);
    SetOther(fields, SHYPO, shypo);
    SetKeepsWellFormed(fields, SHYPO, shypo);
  }

  /** The process step of the RECOGOUT loop, over the live processes. */
  function RecogSteps(live: seq<RecogProcess>, build: Build, center: string -> string)
    : (nat, string) --> (Json, string)
  {
    (k: nat, b: string) requires k < |live| && ResultReadable(live[k], build) =>
      RecogOutEntry(live[k], build, center, b)
  }

  /** The RECOGOUT array, and the phone buffer after it. */
  function RecogOut(procs: seq<RecogProcess>, build: Build, center: string -> string, buf: string)
    : (r: (seq<Json>, string))
    requires AllReadable(procs, build)
    ensures |r.0| == |Live(procs)|
  {
    var live := Live(procs);
    assert forall k: nat, b :: k < |live| ==> RecogSteps(live, build, center).requires(k, b) by {
      LiveMembers(procs);
      forall k: nat | k < |live| ensures ResultReadable(live[k], build) {
        assert live[k] in live;
      }
    }
    Thread(RecogSteps(live, build, center), 0, |live|, buf)
  }

  /** What RECOGOUT entry k says about live process q. */
  predicate RecogOutShape(v: Json, q: RecogProcess, build: Build, center: string -> string)
    requires ResultReadable(q, build)
  {
    && v.JObject?
    && EntryFields(v.obj, q)
    && (q.status < 0 ==> Get(v.obj, SHYPO) == None)
    && (q.status >= 0 ==> ShypoShape(Get(v.obj, SHYPO), q, build, center))
  }

  /** Every live process of a readable list is a readable member of it. */
  lemma LiveReadable(procs: seq<RecogProcess>, build: Build)
    requires AllReadable(procs, build)
    ensures forall k :: 0 <= k < |Live(procs)| ==>
              Live(procs)[k] in procs && ResultReadable(Live(procs)[k], build)
  {
    LiveMembers(procs);
    forall k | 0 <= k < |Live(procs)|
      ensures Live(procs)[k] in procs && ResultReadable(Live(procs)[k], build)
    {
      assert Live(procs)[k] in Live(procs);
    }
  }

  /** Whatever the buffer holds, a process's RECOGOUT entry describes it. */
  lemma RecogOutEntryShape(p: RecogProcess, build: Build, center: string -> string, buf: string)
    requires ResultReadable(p, build)
    ensures RecogOutShape(RecogOutEntry(p, build, center, buf).0, p, build, center)
  {
    if p.status < 0 {
      RecogOutFailed(p, build, center, buf);
    } else {
      RecogOutSucceeded(p, build, center, buf);
    }
  }

  /** Entry k of RECOGOUT is the entry of the k-th live process, built with
      the buffer as the entries before it left it. */
  lemma RecogOutElement(procs: seq<RecogProcess>, build: Build, center: string -> string, buf: string, k: nat)
    requires AllReadable(procs, build)
    requires k < |Live(procs)|
    ensures Live(procs)[k] in procs && ResultReadable(Live(procs)[k], build)
    ensures RecogOutShape(RecogOut(procs, build, center, buf).0[k], Live(procs)[k], build, center)
  {
    var live := Live(procs);
    var step := RecogSteps(live, build, center);
    LiveReadable(procs, build);
    ThreadElement(step, |live|, buf, k);
    RecogOutEntryShape(live[k], build, center, StateAt(step, k, buf));
  }

  /** Entry k of RECOGOUT describes the k-th live process. */
  lemma RecogOutEntries(procs: seq<RecogProcess>, build: Build, center: string -> string, buf: string)
    requires AllReadable(procs, build)
    ensures forall k :: 0 <= k < |Live(procs)| ==>
              Live(procs)[k] in procs && ResultReadable(Live(procs)[k], build) &&
              RecogOutShape(RecogOut(procs, build, center, buf).0[k], Live(procs)[k], build, center)
  {
    forall k | 0 <= k < |Live(procs)|
      ensures Live(procs)[k] in procs && ResultReadable(Live(procs)[k], build)
      ensures RecogOutShape(RecogOut(procs, build, center, buf).0[k], Live(procs)[k], build, center)
    {
      RecogOutElement(procs, build, center, buf, k);
    }
  }
}
