/** The standard key normaliser: `re.sub(r"[^0-9a-zA-Z_]+", "_", k).upper()`,
    with the value passed through untouched. */
module StandardPreprocessor {
  import opened Values

  /** A character of the class `[0-9a-zA-Z_]`, the complement of the pattern. */
  predicate IsWordChar(c: char) {
    '0' <= c <= '9' || 'a' <= c <= 'z' || 'A' <= c <= 'Z' || c == '_'
  }

  /** A character that can appear in a normalised key: `[0-9A-Z_]`. */
  predicate IsKeyChar(c: char) {
    '0' <= c <= '9' || 'A' <= c <= 'Z' || c == '_'
  }

  predicate AllWordChars(s: string) {
    forall i :: 0 <= i < |s| ==> IsWordChar(s[i])
  }

  predicate AllKeyChars(s: string) {
    forall i :: 0 <= i < |s| ==> IsKeyChar(s[i])
  }

  /** `str.upper` on the characters the substitution can leave behind. */
  function UpperChar(c: char): char {
    if 'a' <= c <= 'z' then (c as int - 32) as char else c
  }

  function Upper(s: string): (r: string)
    ensures |r| == |s|
    ensures forall i :: 0 <= i < |s| ==> r[i] == UpperChar(s[i])
  {
    seq(|s|, i requires 0 <= i < |s| => UpperChar(s[i]))
  }

  /** Drops the maximal run of characters outside `[0-9a-zA-Z_]` at the
      start of `s`. */
  function SkipRun(s: string): (r: string)
    ensures |r| <= |s| && r == s[|s| - |r|..]
    ensures forall i :: 0 <= i < |s| - |r| ==> !IsWordChar(s[i])
    ensures r == [] || IsWordChar(r[0])
  {
    if s == [] || IsWordChar(s[0]) then s else SkipRun(s[1..])
  }

  /** `re.sub(r"[^0-9a-zA-Z_]+", "_", s)`: the regular expression is greedy,
      so each maximal run of characters outside the class is one match. */
  function Substitute(s: string): (r: string)
    ensures AllWordChars(r)
    ensures |r| <= |s|
    decreases |s|
  {
    if s == [] then []
    else if IsWordChar(s[0]) then [s[0]] + Substitute(s[1..])
    else "_" + Substitute(SkipRun(s))
  }

  /** The normalised key. */
  function Normalise(k: string): (r: string)
    ensures AllKeyChars(r)
    ensures |r| <= |k|
  {
    Upper(Substitute(k))
  }

  /** `SimputilsStandardPreprocessor.run` with its default pattern and
      replacement: the key is normalised and the value is returned as given. */
  function Run(k: string, v: Value): (r: (string, Value))
    ensures r.1 == v
    ensures AllKeyChars(r.0) && |r.0| <= |k|
  {
    (Normalise(k), v)
  }

  /** A string already made of word characters is left alone by the
      substitution. */
  lemma {:induction false} SubstituteWordsIdentity(s: string)
    requires AllWordChars(s)
    ensures Substitute(s) == s
  {
    if s != [] {
      SubstituteWordsIdentity(s[1..]);
    }
  }

  /** One step of the substitution: a block of word characters is copied,
      and the maximal run of other characters after it becomes exactly one
      `_`. Underscores in `w` are copied as they are, so `__` stays `__`. */
  lemma {:induction false} SubstituteRun(w: string, run: string, rest: string)
    requires AllWordChars(w)
    requires |run| > 0 && forall i :: 0 <= i < |run| ==> !IsWordChar(run[i])
    requires rest == [] || IsWordChar(rest[0])
    ensures Substitute(w + run + rest) == w + "_" + Substitute(rest)
  {
    var tail := Substitute(rest);
    if w == [] {
      assert w + run + rest == run + rest;
      assert SkipRun(run + rest) == rest by {
        SkipRunOver(run, rest);
      }
      assert w + "_" + tail == "_" + tail;
    } else {
      var s := w + run + rest;
      assert s[0] == w[0] && s[1..] == w[1..] + run + rest;
      assert Substitute(s[1..]) == w[1..] + "_" + tail by {
        SubstituteRun(w[1..], run, rest);
      }
      assert [w[0]] + (w[1..] + "_" + tail) == w + "_" + tail;
    }
  }

  lemma {:induction false} SkipRunOver(run: string, rest: string)
    requires forall i :: 0 <= i < |run| ==> !IsWordChar(run[i])
    requires rest == [] || IsWordChar(rest[0])
    ensures SkipRun(run + rest) == rest
  {
    if run != [] {
      assert (run + rest)[1..] == run[1..] + rest;
      SkipRunOver(run[1..], rest);
    } else {
      assert run + rest == rest;
    }
  }

  /** The normaliser counterpart of `SubstituteRun`. */
  lemma NormaliseRun(w: string, run: string, rest: string)
    requires AllWordChars(w)
    requires |run| > 0 && forall i :: 0 <= i < |run| ==> !IsWordChar(run[i])
    requires rest == [] || IsWordChar(rest[0])
    ensures Normalise(w + run + rest) == Upper(w) + "_" + Normalise(rest)
  {
    var tail := Substitute(rest);
    assert Substitute(w + run + rest) == w + "_" + tail by {
      SubstituteRun(w, run, rest);
    }
    UpperAppend(w + "_", tail);
    UpperAppend(w, "_");
  }

  lemma UpperAppend(a: string, b: string)
    ensures Upper(a + b) == Upper(a) + Upper(b)
  {
  }

  /** Normalising twice is normalising once, so preprocessing a key that was
      already preprocessed does not move it. */
  lemma NormaliseIdempotent(k: string)
    ensures Normalise(Normalise(k)) == Normalise(k)
  {
    var n := Normalise(k);
    SubstituteWordsIdentity(n);
  }

  /** Three blocks of word characters separated by two runs of other
      characters normalise to the three blocks upper-cased, joined by `_`. */
  lemma NormaliseThreeWords(w1: string, r1: string, w2: string, r2: string, w3: string)
    requires AllWordChars(w1) && AllWordChars(w2) && AllWordChars(w3)
    requires |w2| > 0 && |w3| > 0
    requires |r1| > 0 && forall i :: 0 <= i < |r1| ==> !IsWordChar(r1[i])
    requires |r2| > 0 && forall i :: 0 <= i < |r2| ==> !IsWordChar(r2[i])
    ensures Normalise(w1 + r1 + w2 + r2 + w3) == Upper(w1) + "_" + Upper(w2) + "_" + Upper(w3)
  {
    NormaliseTwoWords(w2, r2, w3);
    NormaliseRun(w1, r1, w2 + r2 + w3);
    assert w1 + r1 + w2 + r2 + w3 == w1 + r1 + (w2 + r2 + w3);
  }

  /** "my key 1" becomes "MY_KEY_1", as the unit tests expect. */
  lemma NormaliseExampleSpaces()
    ensures Normalise("my key 1") == "MY_KEY_1"
  {
    NormaliseExample("my", " ", "key", " ", "1", "my key 1", "MY_KEY_1");
  }

  /** "my-key-2" becomes "MY_KEY_2". */
  lemma NormaliseExampleDashes()
    ensures Normalise("my-key-2") == "MY_KEY_2"
  {
    NormaliseExample("my", "-", "key", "-", "2", "my-key-2", "MY_KEY_2");
  }

  /** "MY_KEY_3" is already normal. */
  lemma NormaliseExampleNormal()
    ensures Normalise("MY_KEY_3") == "MY_KEY_3"
  {
    NormaliseWordsExample("MY_KEY_3", "MY_KEY_3");
  }

  /** "my.KEy-4" becomes "MY_KEY_4". */
  lemma NormaliseExampleMixed()
    ensures Normalise("my.KEy-4") == "MY_KEY_4"
  {
    NormaliseExample("my", ".", "KEy", "-", "4", "my.KEy-4", "MY_KEY_4");
  }

  /** "my    KEy-----5" becomes "MY_KEY_5": a long run still gives one `_`. */
  lemma NormaliseExampleLongRuns()
    ensures Normalise("my    KEy-----5") == "MY_KEY_5"
  {
    NormaliseExample("my", "    ", "KEy", "-----", "5", "my    KEy-----5", "MY_KEY_5");
  }

  lemma NormaliseExample(w1: string, r1: string, w2: string, r2: string, w3: string, k: string, expected: string)
    requires AllWordChars(w1) && AllWordChars(w2) && AllWordChars(w3)
    requires |w2| > 0 && |w3| > 0
    requires |r1| > 0 && forall i :: 0 <= i < |r1| ==> !IsWordChar(r1[i])
    requires |r2| > 0 && forall i :: 0 <= i < |r2| ==> !IsWordChar(r2[i])
    requires k == w1 + r1 + w2 + r2 + w3
    requires expected == Upper(w1) + "_" + Upper(w2) + "_" + Upper(w3)
    ensures Normalise(k) == expected
  {
    NormaliseThreeWords(w1, r1, w2, r2, w3);
  }

  /** Underscores already in the key are kept, not collapsed: "a__b" stays
      "A__B", and "a_ b" also gives "A__B". */
  lemma NormaliseKeepsUnderscores()
    ensures Normalise("a__b") == "A__B"
    ensures Normalise("a_ b") == "A__B"
  {
    NormaliseDoubleUnderscore();
    NormaliseUnderscoreSpace();
  }

  lemma NormaliseDoubleUnderscore()
    ensures Normalise("a__b") == "A__B"
  {
    NormaliseWordsExample("a__b", "A__B");
  }

  lemma NormaliseUnderscoreSpace()
    ensures Normalise("a_ b") == "A__B"
  {
    NormaliseTwoWordsExample("a_", " ", "b", "a_ b", "A__B");
  }

  lemma NormaliseWordsExample(k: string, expected: string)
    requires AllWordChars(k) && expected == Upper(k)
    ensures Normalise(k) == expected
  {
    SubstituteWordsIdentity(k);
  }

  lemma NormaliseTwoWordsExample(w1: string, r1: string, w2: string, k: string, expected: string)
    requires AllWordChars(w1) && AllWordChars(w2) && |w2| > 0
    requires |r1| > 0 && forall i :: 0 <= i < |r1| ==> !IsWordChar(r1[i])
    requires k == w1 + r1 + w2 && expected == Upper(w1) + "_" + Upper(w2)
    ensures Normalise(k) == expected
  {
    NormaliseTwoWords(w1, r1, w2);
  }

  lemma NormaliseTwoWords(w1: string, r1: string, w2: string)
    requires AllWordChars(w1) && AllWordChars(w2) && |w2| > 0
    requires |r1| > 0 && forall i :: 0 <= i < |r1| ==> !IsWordChar(r1[i])
    ensures Normalise(w1 + r1 + w2) == Upper(w1) + "_" + Upper(w2)
  {
    SubstituteWordsIdentity(w2);
    NormaliseRun(w1, r1, w2);
  }
}
