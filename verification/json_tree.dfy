/**
 The JSON tree the plugin builds for one utterance.

 An object keeps its keys in insertion order beside a key-to-value map, as
 the object store the plugin writes into lists its members in the order they
 were added. Only the operations the plugin asks of that store are
 modelled: a flat write (`Set`, the `json_object_set_*` calls and the
 `json_object_dotset_*` calls whose key has no dot) and a two-level dotted
 write (`DotSet`, the `json_object_dotset_*` calls with a key "PARENT.LEAF").
 */
module JsonTree {

  datatype Option<+T> = None | Some(value: T)

  datatype Json =
    | JObject(obj: Obj)
    | JArray(items: seq<Json>)
    | JNumber(num: real)
    | JString(str: string)
    | JBool(b: bool)

  /** An object: its keys in insertion order, and the value of each. */
  datatype Obj = Obj(order: seq<Key>, fields: map<Key, Json>)

  /** The object keys the plugin writes. The plugin only ever uses these
      fixed names, so keys are modelled as this finite vocabulary; `Name`
      gives the text of each. */
  datatype Key =
    | ID | NAME | STATUS | succeeded
    | SHYPO | RANK | MBRSCORE | SCORE | AMSCORE | LMSCORE | GRAM
    | WHYPO | WORD | CLASSID | PHONE | CM | BEGINFRAME | ENDFRAME
    | PASS1 | RECOGOUT | result | sentence
    | INPUT | MFCCID | FRAMES | MSEC
    | GMM | RESULT | CMSCORE
    | TIME | LISTEN | STARTREC | ENDREC

  /** The key text as it appears in the serialized document. */
  function Name(k: Key): string {
    match k
    case ID => "ID"
    case NAME => "NAME"
    case STATUS => "STATUS"
    case succeeded => "succeeded"
    case SHYPO => "SHYPO"
    case RANK => "RANK"
    case MBRSCORE => "MBRSCORE"
    case SCORE => "SCORE"
    case AMSCORE => "AMSCORE"
    case LMSCORE => "LMSCORE"
    case GRAM => "GRAM"
    case WHYPO => "WHYPO"
    case WORD => "WORD"
    case CLASSID => "CLASSID"
    case PHONE => "PHONE"
    case CM => "CM"
    case BEGINFRAME => "BEGINFRAME"
    case ENDFRAME => "ENDFRAME"
    case PASS1 => "PASS1"
    case RECOGOUT => "RECOGOUT"
    case result => "result"
    case sentence => "sentence"
    case INPUT => "INPUT"
    case MFCCID => "MFCCID"
    case FRAMES => "FRAMES"
    case MSEC => "MSEC"
    case GMM => "GMM"
    case RESULT => "RESULT"
    case CMSCORE => "CMSCORE"
    case TIME => "TIME"
    case LISTEN => "LISTEN"
    case STARTREC => "STARTREC"
    case ENDREC => "ENDREC"
  }

  /** The key a text names, if any. */
  function KeyOf(s: string): Option<Key> {
    match s
    case "ID" => Some(ID)
    case "NAME" => Some(NAME)
    case "STATUS" => Some(STATUS)
    case "succeeded" => Some(succeeded)
    case "SHYPO" => Some(SHYPO)
    case "RANK" => Some(RANK)
    case "MBRSCORE" => Some(MBRSCORE)
    case "SCORE" => Some(SCORE)
    case "AMSCORE" => Some(AMSCORE)
    case "LMSCORE" => Some(LMSCORE)
    case "GRAM" => Some(GRAM)
    case "WHYPO" => Some(WHYPO)
    case "WORD" => Some(WORD)
    case "CLASSID" => Some(CLASSID)
    case "PHONE" => Some(PHONE)
    case "CM" => Some(CM)
    case "BEGINFRAME" => Some(BEGINFRAME)
    case "ENDFRAME" => Some(ENDFRAME)
    case "PASS1" => Some(PASS1)
    case "RECOGOUT" => Some(RECOGOUT)
    case "result" => Some(result)
    case "sentence" => Some(sentence)
    case "INPUT" => Some(INPUT)
    case "MFCCID" => Some(MFCCID)
    case "FRAMES" => Some(FRAMES)
    case "MSEC" => Some(MSEC)
    case "GMM" => Some(GMM)
    case "RESULT" => Some(RESULT)
    case "CMSCORE" => Some(CMSCORE)
    case "TIME" => Some(TIME)
    case "LISTEN" => Some(LISTEN)
    case "STARTREC" => Some(STARTREC)
    case "ENDREC" => Some(ENDREC)
    case _ => None
  }

  /** Every key is read back from its text. */
  lemma NameRoundTrip(k: Key)
    ensures KeyOf(Name(k)) == Some(k)
  {
    match k
    case ID => assert KeyOf("ID") == Some(ID);
    case NAME => assert KeyOf("NAME") == Some(NAME);
    case STATUS => assert KeyOf("STATUS") == Some(STATUS);
    case succeeded => assert KeyOf("succeeded") == Some(succeeded);
    case SHYPO => assert KeyOf("SHYPO") == Some(SHYPO);
    case RANK => assert KeyOf("RANK") == Some(RANK);
    case MBRSCORE => assert KeyOf("MBRSCORE") == Some(MBRSCORE);
    case SCORE => assert KeyOf("SCORE") == Some(SCORE);
    case AMSCORE => assert KeyOf("AMSCORE") == Some(AMSCORE);
    case LMSCORE => assert KeyOf("LMSCORE") == Some(LMSCORE);
    case GRAM => assert KeyOf("GRAM") == Some(GRAM);
    case WHYPO => assert KeyOf("WHYPO") == Some(WHYPO);
    case WORD => assert KeyOf("WORD") == Some(WORD);
    case CLASSID => assert KeyOf("CLASSID") == Some(CLASSID);
    case PHONE => assert KeyOf("PHONE") == Some(PHONE);
    case CM => assert KeyOf("CM") == Some(CM);
    case BEGINFRAME => assert KeyOf("BEGINFRAME") == Some(BEGINFRAME);
    case ENDFRAME => assert KeyOf("ENDFRAME") == Some(ENDFRAME);
    case PASS1 => assert KeyOf("PASS1") == Some(PASS1);
    case RECOGOUT => assert KeyOf("RECOGOUT") == Some(RECOGOUT);
    case result => assert KeyOf("result") == Some(result);
    case sentence => assert KeyOf("sentence") == Some(sentence);
    case INPUT => assert KeyOf("INPUT") == Some(INPUT);
    case MFCCID => assert KeyOf("MFCCID") == Some(MFCCID);
    case FRAMES => assert KeyOf("FRAMES") == Some(FRAMES);
    case MSEC => assert KeyOf("MSEC") == Some(MSEC);
    case GMM => assert KeyOf("GMM") == Some(GMM);
    case RESULT => assert KeyOf("RESULT") == Some(RESULT);
    case CMSCORE => assert KeyOf("CMSCORE") == Some(CMSCORE);
    case TIME => assert KeyOf("TIME") == Some(TIME);
    case LISTEN => assert KeyOf("LISTEN") == Some(LISTEN);
    case STARTREC => assert KeyOf("STARTREC") == Some(STARTREC);
    case ENDREC => assert KeyOf("ENDREC") == Some(ENDREC);
  }

  /** Distinct keys have distinct texts, so keys can stand for the
      strings the plugin passes. */
  lemma NameInjective(k1: Key, k2: Key)
    ensures Name(k1) == Name(k2) ==> k1 == k2
  {
    NameRoundTrip(k1);
    NameRoundTrip(k2);
  }

  /** An object whose key order lists exactly its keys, each once. */
  predicate WellFormed(o: Obj) {
    && (forall i, j :: 0 <= i < j < |o.order| ==> o.order[i] != o.order[j])
    && (forall k :: k in o.order <==> k in o.fields)
  }

  /** The fresh object of json_value_init_object. */
  const Empty: Obj := Obj([], map[])

  /** The keys present in an object. */
  function Keys(o: Obj): set<Key> {
    o.fields.Keys
  }

  /** The value stored under `k`, if any. */
  function Get(o: Obj, k: Key): Option<Json> {
    if k in o.fields then Some(o.fields[k]) else None
  }

  /** A flat write: `k` gets the value `v`; a new key goes to the end of
      the order, an existing key keeps its place. */
  function Set(o: Obj, k: Key, v: Json): (r: Obj)
    ensures Get(r, k) == Some(v)
    ensures k in o.fields ==> r.order == o.order
    ensures k !in o.fields ==> r.order == o.order + [k]
  {
    Obj(if k in o.fields then o.order else o.order + [k], o.fields[k := v])
  }

  /** A write changes no other key, and adds `k` to the keys. */
  lemma SetOther(o: Obj, k: Key, v: Json)
    ensures forall k' :: k' != k ==> Get(Set(o, k, v), k') == Get(o, k')
    ensures Keys(Set(o, k, v)) == Keys(o) + {k}
  {
  }

  /** Rewriting two keys replaces the values of an earlier write of the
      same two keys: only the last values and the first placement remain. */
  lemma SetTwice(o: Obj, k1: Key, v1: Json, k2: Key, v2: Json, w1: Json, w2: Json)
    requires k1 != k2
    ensures Set(Set(Set(Set(o, k1, v1), k2, v2), k1, w1), k2, w2) == Set(Set(o, k1, w1), k2, w2)
  {
    var a := Set(Set(Set(Set(o, k1, v1), k2, v2), k1, w1), k2, w2);
    var b := Set(Set(o, k1, w1), k2, w2);
    assert a.fields == b.fields;
  }

  /** A write keeps the key order listing every key exactly once. */
  lemma SetKeepsWellFormed(o: Obj, k: Key, v: Json)
    requires WellFormed(o)
    ensures WellFormed(Set(o, k, v))
  {
    var r := Set(o, k, v);
    if k !in o.fields {
      forall i, j | 0 <= i < j < |r.order| ensures r.order[i] != r.order[j] {
        if j == |o.order| {
          assert r.order[i] == o.order[i];
        }
      }
    }
  }

  /** A dotted write can reach its leaf: the parent key is absent (it is
      created) or holds an object (whose other members are kept). */
  predicate Writable(o: Obj, parent: Key) {
    Get(o, parent).None? || Get(o, parent).value.JObject?
  }

  /** The value at the two-level path "parent.leaf", if there is one. */
  function GetPath(o: Obj, parent: Key, leaf: Key): Option<Json> {
    match Get(o, parent)
    case Some(JObject(inner)) => Get(inner, leaf)
    case _ => None
  }

  /** A two-level dotted write "parent.leaf" := v. */
  function DotSet(o: Obj, parent: Key, leaf: Key, v: Json): (r: Obj)
    ensures Writable(o, parent) ==> GetPath(r, parent, leaf) == Some(v)
    ensures !Writable(o, parent) ==> r == o
  {
    match Get(o, parent)
    case None => Set(o, parent, JObject(Set(Empty, leaf, v)))
    case Some(JObject(inner)) => Set(o, parent, JObject(Set(inner, leaf, v)))
    case Some(_) => o
  }

  /** A dotted write changes no other top-level key and no other leaf
      under its parent, and leaves the parent holding an object. */
  lemma DotSetOther(o: Obj, parent: Key, leaf: Key, v: Json)
    ensures forall k :: k != parent ==> Get(DotSet(o, parent, leaf, v), k) == Get(o, k)
    ensures Writable(o, parent) ==> Writable(DotSet(o, parent, leaf, v), parent)
    ensures Writable(o, parent) ==>
              forall l :: l != leaf ==> GetPath(DotSet(o, parent, leaf, v), parent, l) == GetPath(o, parent, l)
  {
    match Get(o, parent)
    case None =>
      var inner := Set(Empty, leaf, v);
      SetOther(o, parent, JObject(inner));
      SetOther(Empty, leaf, v);
    case Some(JObject(inner)) =>
      SetOther(o, parent, JObject(Set(inner, leaf, v)));
      SetOther(inner, leaf, v);
    case Some(_) =>
  }

  /** A dotted write keeps the outer key order listing every key once. */
  lemma DotSetKeepsWellFormed(o: Obj, parent: Key, leaf: Key, v: Json)
    requires WellFormed(o)
    ensures WellFormed(DotSet(o, parent, leaf, v))
  {
    match Get(o, parent)
    case None => SetKeepsWellFormed(o, parent, JObject(Set(Empty, leaf, v)));
    case Some(JObject(inner)) => SetKeepsWellFormed(o, parent, JObject(Set(inner, leaf, v)));
    case Some(_) =>
  }
}
