# Julius JSON output plugin, modelled in Dafny

This project models `output_json.c`, the Julius recognizer plugin that
collects recognition results for each utterance into one JSON document. The
engine calls the plugin back at fixed points:

- speech ready, speech start and speech stop;
- the end of the first pass;
- the input-parameter report;
- the second-pass result;
- the GMM result;
- the end of recognition.

Each callback writes its part into a root object. At the end of a
recognition the document is emitted and replaced by a fresh empty one.

The model has eight modules:

- `JsonTree` (json_tree.dfy): the JSON tree. Objects keep their keys in
  insertion order. It provides the flat write `Set` and the two-level
  dotted write `DotSet` that the plugin asks of its JSON library.
- `Status` (status.dfy): the recognition status codes and
  `get_status_info`.
- `Engine` (engine.dfy): the engine records the plugin reads, and the
  compile-time switches `USE_MBR`, `CONFIDENCE_MEASURE` and
  `CM_MULTIPLE_ALPHA`. The records are processes, sentences, dictionary
  words, alignments, feature streams and the GMM result.
- `Phone` (phone.dfy): the PHONE string of `word_out`, and a `Split` that
  undoes its join.
- `Threaded` (threaded.dfy): lists built element by element while one
  string of state is carried from each element to the next. This is how
  `word_out`'s static phone buffer runs through the nested loops of
  `result_pass2`.
- `Hypothesis` (hypothesis.dfy): one SHYPO element. It holds the scores,
  and WHYPO with each word's fields, confidence and alignment frames.
- `Results` (results.dfy): the per-configuration arrays PASS1, RECOGOUT and
  `result`.
- `Plugin` (plugin.dfy): the callbacks, the plugin state, and runs of
  callbacks.

Each C linked list becomes a sequence in list order. Each C array with a
separate count becomes a sequence of that length.

An "entry" is one object in PASS1, RECOGOUT or `result`. There is one
entry per live process.

`word_out` keeps PHONE in a static buffer and overwrites it only inside
its HMM loop. So a word with no HMM (wlen = 0) gets, as its PHONE, the text
the previous word left in the buffer. A word with no HMM therefore does
not get an empty PHONE; it repeats the buffer. The model threads the
buffer through every builder, and `Phone.PhoneBuffer` states both cases.

## Model

| member | source | states |
|---|---|---|
| Status.StatusInfo | output_json.c:106-138 | Total on every integer code. Each of the eight known codes gets its own label and is the only code with that label; every other code gets "UNKNOWN". For a known code, the label is "SUCCESS" exactly when the code is non-negative. |
| Status.LabelCode | output_json.c:106-138 | Reading a label back returns only a known code that produces that label. It returns nothing for "UNKNOWN" or for a string no code produces. |
| Status.LabelRoundTrip | output_json.c:106-138 | Every known code is recovered from its label. Every unknown code's label reads back to no code. |
| Status.BufferOverflowUnknown | output_json.c:134-135 | The engine's buffer-overflow code has no case of its own and is labelled "UNKNOWN". |
| JsonTree.NameRoundTrip | output_json.c:219-222 | Every key is read back from the text the plugin writes for it. |
| JsonTree.NameInjective | output_json.c:219-222 | Distinct keys have distinct texts, so the finite key vocabulary loses nothing. |
| JsonTree.Set | output_json.c:181-188 | After a flat write, the key holds the new value. A new key goes to the end of the key order; an existing key keeps its place. |
| JsonTree.SetOther | output_json.c:219-222 | A flat write leaves every other key's value unchanged and adds exactly its key to the key set. |
| JsonTree.SetTwice | output_json.c:479-490 | Writing two keys again over an earlier write of the same two keys leaves only the last values, at the first placement. |
| JsonTree.SetKeepsWellFormed | output_json.c:219-222 | A flat write keeps the key order listing every key of the object exactly once. |
| JsonTree.DotSet | output_json.c:554-555 | A dotted write "PARENT.LEAF" stores the value at that path when the parent is absent or holds an object. Otherwise it leaves the object unchanged. |
| JsonTree.DotSetOther | output_json.c:554-555 | A dotted write changes no other top-level key and no other leaf under its parent. It leaves the parent holding an object. |
| JsonTree.DotSetKeepsWellFormed | output_json.c:554-555 | A dotted write keeps the outer key order listing every key exactly once. |
| Phone.Centres | output_json.c:183-184 | There is one centre name per HMM of the word, and name k is the centre name of HMM k, in sequence order. |
| Phone.AppendEachJoin | output_json.c:186 | Appending " " plus a name for each later HMM equals appending " " and the space-joined names. |
| Phone.PhoneBuffer | output_json.c:183-188 | With at least one HMM, the buffer holds the word's centre names joined by single spaces, in order. With none, the buffer keeps the previous content. |
| Phone.SplitPrefix | output_json.c:186 | A space-free prefix only extends the first field of a split. |
| Phone.SplitJoin | output_json.c:183-188 | If no name contains a space, splitting the PHONE string at spaces gives back the centre names in order. So the join loses nothing. |
| Threaded.Thread | output_json.c:465-470 | A threaded loop builds one element per index. |
| Threaded.ThreadAt | output_json.c:176-177 | Element k of a threaded loop is the step at index k applied to the state the earlier steps left. The loop ends in the state reached after its last index. |
| Threaded.ThreadElement | output_json.c:465-470 | The same statement for a loop started at index 0. |
| Hypothesis.LastWordAlign | output_json.c:479-490 | The alignment it picks is a word-level alignment from the list. When it picks none, the list has no word-level alignment. |
| Hypothesis.LastWordAlignIsLast | output_json.c:479-484 | The alignment picked is the last word-level one: every alignment after its position is at phoneme or state level, so its frames are the ones the loop writes last. |
| Hypothesis.AlignFields | output_json.c:479-490 | With no word-level alignment, the alignment loop leaves the word's object unchanged. Otherwise the result equals a single write of the last word alignment's BEGINFRAME and ENDFRAME for word i. |
| Hypothesis.WordOut | output_json.c:172-189 | WORD is the dictionary output string and CLASSID the word name. PHONE is the resulting buffer: the joined centre names if the word has HMMs, the previous buffer otherwise. Its key order is WORD, CLASSID, PHONE. |
| Hypothesis.WordOutWellFormed | output_json.c:181-188 | The keys of a word_out object are exactly WORD, CLASSID and PHONE, each listed once in the order. |
| Hypothesis.WordEntry | output_json.c:465-490 | Every WHYPO element is an object. |
| Hypothesis.WordEntryFields | output_json.c:181-188 | WHYPO element i carries WORD and CLASSID of the dictionary entry of word i. Its PHONE is a string, and it is the joined centre names when the word has HMMs. |
| Hypothesis.WordEntryCm | output_json.c:471-477 | CM is confidence[i] when confidence output is compiled in with a single confidence stream. Otherwise there is no CM key. |
| Hypothesis.WordEntryFrames | output_json.c:479-490 | BEGINFRAME and ENDFRAME are begin_frame[i] and end_frame[i] of the last word alignment, and are present exactly when such an alignment exists. Phoneme and state alignments add nothing. |
| Hypothesis.WordEntryPhone | output_json.c:183-188 | PHONE is exactly what the buffer holds after the word. For a word without HMMs that is the buffer as the previous word left it. |
| Hypothesis.WordEntryShape | output_json.c:465-490 | WHYPO element i has the word's fields, its CM and its frames, as stated by the three lemmas above. |
| Hypothesis.WordEntryOrder | output_json.c:465-490 | The element's key order is WORD, CLASSID, PHONE, then CM if written, then BEGINFRAME and ENDFRAME if written. |
| Hypothesis.AlignFieldsKeepsWellFormed | output_json.c:479-490 | The alignment loop keeps an object's key order listing each of its keys exactly once. |
| Hypothesis.WordEntryWellFormed | output_json.c:465-490 | A WHYPO element's key order lists each of its keys exactly once, so the element has no key beyond the order above. |
| Hypothesis.Whypo | output_json.c:462-491 | WHYPO has one element per word of the sentence. |
| Hypothesis.WhypoElement | output_json.c:465-470 | WHYPO element i describes word i of the sentence, however the buffer stood before. |
| Hypothesis.WhypoEntries | output_json.c:462-491 | WHYPO is an array with exactly word_num elements, and element i describes word i. |
| Hypothesis.Scores | output_json.c:445-459 | RANK is n+1 and SCORE is always present. MBRSCORE is present iff MBR is compiled in and used. AMSCORE and LMSCORE are present iff the LM is statistical, and GRAM iff it is a grammar. Keys come in write order, and there is no WHYPO yet. |
| Hypothesis.HypoEntry | output_json.c:436-463 | Every SHYPO element is an object. |
| Hypothesis.HypoEntryShape | output_json.c:436-491 | SHYPO element n has the score fields of hypothesis n and a WHYPO with one element per word. |
| Hypothesis.HypoEntryOrder | output_json.c:445-463 | A SHYPO element's key order is the score keys in write order, followed by WHYPO. |
| Hypothesis.ScoresWellFormed | output_json.c:445-459 | The score fields are written into a fresh object once each: the order lists every key exactly once. |
| Hypothesis.HypoEntryWellFormed | output_json.c:436-463 | A SHYPO element's key order lists each of its keys exactly once, so it has no key beyond the score keys and WHYPO. |
| Hypothesis.Shypo | output_json.c:433-438 | SHYPO has exactly sentnum elements, so sentnum = 0 gives an empty array. |
| Hypothesis.HypoStepsReady | output_json.c:436-443 | Every hypothesis of a process whose sentences are readable can be built. |
| Hypothesis.ShypoElement | output_json.c:436-443 | SHYPO element n describes hypothesis n, in input order, with RANK n+1. |
| Hypothesis.ShypoEntries | output_json.c:433-492 | SHYPO is an array of sentnum elements, and element n describes hypothesis n. |
| Results.Live | output_json.c:418-419 | The filtered list is never longer than the process list. |
| Results.LiveMembers | output_json.c:418-419 | A process is kept iff it is in the list and live. |
| Results.LiveAppend | output_json.c:213-214 | Filtering a joined list filters each part in turn, so process-list order is kept. |
| Results.LiveLength | output_json.c:584-585 | The number of entries equals the number of live processes. |
| Results.StatusFields | output_json.c:219-222 | ID is the config id, NAME the config name, STATUS the label of the status, and succeeded = (status >= 0). These are exactly the four keys, in that order. |
| Results.StatusFieldsWellFormed | output_json.c:219-222 | The four status fields are written into a fresh object once each: the order lists every key exactly once. |
| Results.StatusEntries | output_json.c:213-222 | There is one entry per live process. |
| Results.StatusEntryAt | output_json.c:213-222 | Entry k holds the status fields of the k-th live process. |
| Results.StatusEntriesAt | output_json.c:584-594 | Every entry holds the status fields of the live process at the same position. |
| Results.RecogOutEntry | output_json.c:420-434 | Every RECOGOUT entry is an object with the four status fields of its process. |
| Results.RecogOutFailed | output_json.c:429-431 | An entry for a process with status < 0 has no SHYPO key at all. Its key order is the four status fields, and it leaves the phone buffer unchanged. |
| Results.RecogOutSucceeded | output_json.c:432-434 | An entry for a process with status >= 0 has a SHYPO array describing every hypothesis, placed after the four status fields. |
| Results.RecogOutFailedKeys | output_json.c:424-431 | A failed process's entry has exactly the four status keys, each listed once. |
| Results.RecogOutSucceededKeys | output_json.c:424-434 | A succeeded process's entry has exactly the four status keys and SHYPO, each listed once. |
| Results.RecogOutEntryShape | output_json.c:424-434 | Whatever the phone buffer holds, a process's entry has its status fields, no SHYPO if it failed, and every hypothesis if it succeeded. |
| Results.RecogOut | output_json.c:416-422 | RECOGOUT has one entry per live process. |
| Results.LiveReadable | output_json.c:418-419 | Every live process is a member of the list, so its results can be read. |
| Results.RecogOutElement | output_json.c:418-434 | RECOGOUT entry k describes the k-th live process: its status fields, plus SHYPO exactly when it succeeded. |
| Results.RecogOutEntries | output_json.c:416-493 | Every RECOGOUT entry describes the live process at the same position. |
| Plugin.JsonInit | output_json.c:16-23 | A fresh root object has no keys. |
| Plugin.Initial | output_json.c:72-79 | Before the first callback, the document is empty and the static phone buffer is empty. |
| Plugin.ResultBestStr | output_json.c:92-101 | `sentence` is the best string, or "" when there is none. `succeeded` says whether there was one. No other key changes. |
| Plugin.BestStrRoundTrip | output_json.c:95-100 | `sentence` and `succeeded` together give back exactly the argument, so a missing result and an empty string stay distinct. |
| Plugin.StatusEntriesArray | output_json.c:213-222 | A status array has one object per live process, in order. Each object has the process's four status fields, in write order, and no other key. |
| Plugin.ResultPass1Final | output_json.c:206-222 | PASS1 is the status array of the live processes. No other key changes. |
| Plugin.SetJsonResultStatus | output_json.c:579-595 | `result` is the status array of the live processes. No other key changes. |
| Plugin.ResultPass2 | output_json.c:405-495 | RECOGOUT is an array with one entry per live process. No other key changes. |
| Plugin.ResultPass2Entries | output_json.c:416-493 | Entry k of RECOGOUT in the document describes the k-th live process. |
| Plugin.InputEntry | output_json.c:542-549 | A stream's description holds MFCCID, FRAMES = samplenum and MSEC, in that order. |
| Plugin.InputEntries | output_json.c:541-550 | There is one description per stream, in list order. |
| Plugin.InputDotted | output_json.c:551-556 | With one stream, and INPUT absent or an object, INPUT.FRAMES is samplenum and INPUT.MSEC the length, and any other member under INPUT is kept. Every other key is kept in all cases. |
| Plugin.StatusParam | output_json.c:530-557 | With more than one stream, INPUT is the array of stream descriptions. With exactly one stream, the dotted writes above are made. Only INPUT changes. |
| Plugin.ResultGmm | output_json.c:564-571 | When GMM is absent or an object (always so in a reachable document, see Plugin.InitialRunWritable), GMM.RESULT is the best class's name. GMM.CMSCORE is its confidence when confidence scoring is compiled in; otherwise GMM.CMSCORE is left as it was. Only GMM changes. |
| Plugin.StatusTime | output_json.c:501-526 | When TIME is absent or an object (always so in a reachable document, see Plugin.InitialRunWritable), TIME.LISTEN, TIME.STARTREC or TIME.ENDREC is the clock reading. The other timestamps and the other keys are kept. |
| Plugin.NotifyRecogEnd | output_json.c:597-605 | The emitted document is the current one plus the `result` array. Afterwards the root object is empty and the phone buffer is kept. |
| Plugin.Step | output_json.c:618-636 | A callback emits a document iff it is the end of recognition, after which the document is empty. Only the second-pass result touches the phone buffer. |
| Plugin.StepKeepsWellFormed | output_json.c:618-636 | Every callback keeps the root's key order listing every key once. |
| Plugin.RunEmitsPerEnd | output_json.c:597-605 | A run emits exactly one document per end of recognition. A run that ends with one leaves an empty root object. |
| Plugin.RunKeepsWellFormed | output_json.c:618-636 | Through any run of callbacks, the root's key order lists every key exactly once. |
| Plugin.StatusTimeWritable | output_json.c:501-526 | A timestamp write leaves TIME and GMM absent or objects. |
| Plugin.ResultGmmWritable | output_json.c:564-571 | A GMM write leaves TIME and GMM absent or objects. |
| Plugin.StepKeepsWritable | output_json.c:618-636 | No callback puts anything but an object under TIME or GMM. |
| Plugin.RunKeepsWritable | output_json.c:618-636 | Through any run of callbacks, TIME and GMM stay absent or objects. |
| Plugin.InitialRunWritable | output_json.c:72-79 | In every document reached from the plugin's start, TIME and GMM are absent or objects, so every timestamp and GMM write lands. |

## Left out

- The legacy text output path is not modelled: `word_out_old` (output_json.c:144-167), `result_pass2_old` (output_json.c:250-396), the `jsonify*` and `output` macros, and the `output(...)` lines in `result_pass1_final`. It is a console rendering, not the document being built.
- Host I/O is not modelled: `printf`, `fflush`, `setvbuf`, `nop`, `jlog` and `charconv`. Neither is the `fprintf(stderr, ...)` warning for phoneme and state alignments. None of them changes the document.
- `status_pass1_begin`, `result_pass1_current`, `status_pass1_end` and `notify_segment_end` only log, so they are not modelled.
- Serialisation (`json_serialize_to_string`) and the JSON library itself are not part of this model. Only the writes the plugin asks of the library are modelled.
- JsonTree.DotSet: when the parent key holds something other than an object, the write is assumed to be refused and the document left unchanged. This follows the usual behaviour of the JSON library, whose code is not part of this model.
- Strings are taken to be text the JSON library accepts, and every write is taken to succeed. A refused write (invalid UTF-8, such as a dictionary in EUC-JP, or an allocation failure) would leave its key out; the model always writes it.
- Numbers are modelled as mathematical reals, with no double rounding.
- Plugin.InputEntry: MSEC comes from a float product of frame count, period and frame shift, truncated to int. It is the parameter `msec`, so the model states only that MSEC is `msec(samplenum)`.
- Plugin.StatusTime: the `time(NULL)` readings are an input `t`.
- Phone.Centres: `center_name` is an external lexicon lookup and is the uninterpreted parameter `center`.
- Phone.PhoneBuffer: the fixed buffer sizes (`MAX_HMMNAME_LEN`), `snprintf` truncation, and the overlapping source and destination of the second `snprintf` are not modelled. The buffer is taken to hold the intended join.
- Status.StatusInfo: the numeric values of the status codes come from `juliuslib.h`, which is not part of this model. The values used are the engine's usual ones. The proved properties depend only on the codes being distinct and on success being the one non-negative code.
- Plugin registration is not modelled: `initialize`'s option registration, `opt_json`, `get_plugin_info`, `setup_output_json`, `startup` and `callback_add`. `Plugin.Step` takes the registered callbacks as its events. `result_best_str` is one of those events, because the host calls it directly.
- Plugin.InputDotted: the single-stream values are stated only when INPUT is absent or an object. A single-stream report after a multi-stream one in the same document would find INPUT holding an array; the code does not expect the stream count to change within an utterance, and the model promises nothing about INPUT.FRAMES and INPUT.MSEC then.
- Plugin.StatusParam requires at least one feature stream, since the code reads the first stream unconditionally.
- Results.RecogOut requires every live process that succeeded to have readable sentences. That means its word ids index the dictionary, and confidences and word alignments cover every word. The code indexes those arrays without checks.
