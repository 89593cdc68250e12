/**
 The PHONE string of a word: the centre names of its HMMs joined by single
 spaces, built up in word_out's static buffer.
 */
module Phone {

  /** Names separated by single spaces, in order. */
  function Join(names: seq<string>): string
  {
    if |names| == 0 then ""
    else if |names| == 1 then names[0]
    else names[0] + " " + Join(names[1..])
  }

  /** The centre name of every HMM of a word, in order; `center` stands for
      the lexicon's center_name lookup. */
  function Centres(hmms: seq<string>, center: string -> string): (names: seq<string>)
    ensures |names| == |hmms|
    ensures forall k :: 0 <= k < |hmms| ==> names[k] == center(hmms[k])
  {
    if |hmms| == 0 then [] else [center(hmms[0])] + Centres(hmms[1..], center)
  }

  /** The later rounds of word_out's loop: " " and the next name appended
      to what the buffer holds. */
  function AppendEach(acc: string, names: seq<string>): string
    decreases |names|
  {
    if |names| == 0 then acc else AppendEach(acc + " " + names[0], names[1..])
  }

  lemma {:induction false} AppendEachJoin(acc: string, names: seq<string>)
    ensures AppendEach(acc, names) == if |names| == 0 then acc else acc + " " + Join(names)
    decreases |names|
  {
    if |names| > 0 {
      AppendEachJoin(acc + " " + names[0], names[1..]);
      if |names| > 1 {
        assert acc + " " + names[0] + " " + Join(names[1..])
            == acc + " " + (names[0] + " " + Join(names[1..]));
      }
    }
  }

  /** The static phone buffer after word_out's loop over a word's HMMs. The
      first round overwrites the buffer, so a word with at least one HMM
      gets exactly its joined centre names. A word with no HMM leaves the
      buffer as the previous call left it. */
  function PhoneBuffer(hmms: seq<string>, center: string -> string, buf: string): (phone: string)
    ensures |hmms| >= 1 ==> phone == Join(Centres(hmms, center))
    ensures |hmms| == 0 ==> phone == buf
  {
    if |hmms| == 0 then buf
    else
      var names := Centres(hmms, center);
      AppendEachJoin(names[0], names[1..]);
      assert names[1..] == Centres(hmms[1..], center);
      AppendEach(center(hmms[0]), Centres(hmms[1..], center))
  }

  /** The fields of a string separated by single spaces; empty fields are kept. */
  function Split(s: string): (fields: seq<string>)
    ensures |fields| >= 1
  {
    if |s| == 0 then [""]
    else if s[0] == ' ' then [""] + Split(s[1..])
    else
      var rest := Split(s[1..]);
      [[s[0]] + rest[0]] + rest[1..]
  }

  predicate NoSpace(name: string) {
    forall j :: 0 <= j < |name| ==> name[j] != ' '
  }

  /** A space-free prefix extends the first field. */
  lemma {:induction false} SplitPrefix(a: string, t: string)
    requires NoSpace(a)
    ensures Split(a + t) == [a + Split(t)[0]] + Split(t)[1..]
  {
    if |a| == 0 {
      assert a + t == t;
      assert a + Split(t)[0] == Split(t)[0];
      assert Split(t) == [Split(t)[0]] + Split(t)[1..];
    } else {
      SplitPrefix(a[1..], t);
      assert (a + t)[1..] == a[1..] + t;
      assert [a[0]] + (a[1..] + Split(t)[0]) == a + Split(t)[0];
    }
  }

  /** Splitting a joined list at its spaces gives the list back, provided no
      name contains a space. */
  lemma {:induction false} SplitJoin(names: seq<string>)
    requires |names| >= 1
    requires forall i :: 0 <= i < |names| ==> NoSpace(names[i])
    ensures Split(Join(names)) == names
  {
    if |names| == 1 {
      SplitPrefix(names[0], "");
      assert names[0] + "" == names[0];
    } else {
      var t := " " + Join(names[1..]);
      SplitJoin(names[1..]);
      assert t[1..] == Join(names[1..]);
      assert Split(t) == [""] + names[1..];
      SplitPrefix(names[0], t);
      assert names[0] + " " + Join(names[1..]) == names[0] + t;
      assert names[0] + "" == names[0];
      assert [names[0]] + names[1..] == names;
    }
  }
}
