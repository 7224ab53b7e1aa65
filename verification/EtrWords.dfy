/** When two texts of a report count as the same, and when its score counts as changed. */
module EtrWords {
  import opened Wrappers
  import opened Seqs
  import opened Text
  import opened EtrModels
  import opened EtrDiff

  /** The words of a text, where `word` has been read already. */
  function WordsFrom(word: string, s: string): seq<string>
    decreases |s|
  {
    if s == [] then (if word == [] then [] else [word])
    else if IsSpace(s[0]) then (if word == [] then [] else [word]) + WordsFrom([], s[1..])
    else WordsFrom(word + [s[0]], s[1..])
  }

  /** The words of a text in lower case. */
  function Words(s: string): seq<string>
  {
    WordsFrom([], Lower(s))
  }

  function Joined(words: seq<string>): string
  {
    if words == [] then ""
    else if |words| == 1 then words[0]
    else words[0] + " " + Joined(words[1..])
  }

  /** What is left to add after a word. */
  function Continued(words: seq<string>): string
  {
    if words == [] then "" else " " + Joined(words)
  }

  lemma JoinedCons(word: string, words: seq<string>)
    ensures Joined([word] + words) == word + Continued(words)
  {
    assert ([word] + words)[1..] == words;
  }

  /** The one pass over the characters joins the words by single spaces: inside a word, after one, and
      before the first. */
  lemma {:induction false} WordGoesOn(word: string, s: string)
    requires word != []
    ensures word + Squeeze(s, true, false) == Joined(WordsFrom(word, s))
    decreases |s|, 0
  {
    if s != [] {
      if IsSpace(s[0]) {
        GapGoesOn(s[1..]);
        JoinedCons(word, WordsFrom([], s[1..]));
      } else {
        WordGoesOn(word + [s[0]], s[1..]);
        var tail := Squeeze(s[1..], true, false);
        assert Squeeze(s, true, false) == "" + [s[0]] + tail;
        assert word + ("" + [s[0]] + tail) == (word + [s[0]]) + tail;
      }
    }
  }

  lemma {:induction false} GapGoesOn(s: string)
    ensures Squeeze(s, true, true) == Continued(WordsFrom([], s))
    decreases |s|, 1
  {
    if s != [] {
      if IsSpace(s[0]) {
        GapGoesOn(s[1..]);
        SpaceSkips(s);
      } else {
        LetterStarts(s);
        var tail := Squeeze(s[1..], true, false);
        assert Squeeze(s, true, true) == " " + [s[0]] + tail;
        assert " " + [s[0]] + tail == " " + ([s[0]] + tail);
      }
    }
  }

  lemma {:induction false} StartGoesOn(s: string, gap: bool)
    ensures Squeeze(s, false, gap) == Joined(WordsFrom([], s))
    decreases |s|, 1
  {
    if s != [] {
      if IsSpace(s[0]) {
        StartGoesOn(s[1..], true);
        SpaceSkips(s);
      } else {
        LetterStarts(s);
        var tail := Squeeze(s[1..], true, false);
        assert Squeeze(s, false, gap) == "" + [s[0]] + tail;
        assert "" + [s[0]] + tail == [s[0]] + tail;
      }
    }
  }

  lemma SpaceSkips(s: string)
    requires s != [] && IsSpace(s[0])
    ensures WordsFrom([], s) == WordsFrom([], s[1..])
  {
  }

  lemma LetterStarts(s: string)
    requires s != [] && !IsSpace(s[0])
    ensures WordsFrom([], s) != [] && [s[0]] + Squeeze(s[1..], true, false) == Joined(WordsFrom([], s))
    decreases |s|, 0
  {
    WordGoesOn([s[0]], s[1..]);
    FirstWord([s[0]], s[1..]);
    assert [] + [s[0]] == [s[0]];
  }

  lemma {:induction false} FirstWord(word: string, s: string)
    requires word != []
    ensures WordsFrom(word, s) != []
    decreases |s|
  {
    if s != [] && !IsSpace(s[0]) {
      FirstWord(word + [s[0]], s[1..]);
    }
  }

  lemma NormJoinsWords(s: string)
    ensures Norm(s) == Joined(Words(s))
  {
    StartGoesOn(Lower(s), false);
  }

  predicate Solid(word: string)
  {
    word != [] && forall i :: 0 <= i < |word| ==> !IsSpace(word[i])
  }

  ghost predicate AllSolid(words: seq<string>)
  {
    forall i :: 0 <= i < |words| ==> Solid(words[i])
  }

  lemma {:induction false} WordsAreSolid(word: string, s: string)
    requires word == [] || Solid(word)
    ensures AllSolid(WordsFrom(word, s))
    decreases |s|
  {
    if s != [] {
      if IsSpace(s[0]) {
        WordsAreSolid([], s[1..]);
      } else {
        WordsAreSolid(word + [s[0]], s[1..]);
      }
    }
  }

  lemma {:induction false} ReadsWord(word: string, rest: string, before: string)
    requires forall i :: 0 <= i < |word| ==> !IsSpace(word[i])
    ensures WordsFrom(before, word + rest) == WordsFrom(before + word, rest)
  {
    if word == [] {
      assert word + rest == rest && before + word == before;
    } else {
      assert (word + rest)[1..] == word[1..] + rest;
      ReadsWord(word[1..], rest, before + [word[0]]);
      assert before + [word[0]] + word[1..] == before + word;
    }
  }

  /** Splitting what was joined gives the words back. */
  lemma {:induction false} SplitsAgain(words: seq<string>)
    requires AllSolid(words)
    ensures WordsFrom([], Joined(words)) == words
  {
    if words != [] {
      var w, rest := words[0], words[1..];
      assert words == [w] + rest;
      JoinedCons(w, rest);
      ReadsWord(w, Continued(rest), []);
      assert [] + w == w;
      if rest != [] {
        SplitsAgain(rest);
        assert (" " + Joined(rest))[1..] == Joined(rest);
      }
    }
  }

  /** Two texts count as the same exactly when they have the same words, whatever their case and their
      spaces. */
  lemma SameTextExactly(s: string, t: string)
    ensures Norm(s) == Norm(t) <==> Words(s) == Words(t)
  {
    NormJoinsWords(s);
    NormJoinsWords(t);
    WordsAreSolid([], Lower(s));
    WordsAreSolid([], Lower(t));
    SplitsAgain(Words(s));
    SplitsAgain(Words(t));
  }

  /** The score has left its side of a level: it was off the level and has reached or crossed it. */
  predicate LeavesSide(before: real, after: real, level: real)
  {
    before != level && Min(before, after) <= level <= Max(before, after)
  }

  /** The score counts as changed exactly when both are known and it has moved by the delta or left its
      side of one of the two thresholds. */
  lemma ScoreChangedExactly(p: Report, q: Report, t: Thresholds)
    ensures ScoreChanged(p, q, t) <==>
      && p.score.Some? && q.score.Some?
      && (Max(p.score.value, q.score.value) - Min(p.score.value, q.score.value) >= t.delta
          || exists level :: level in {t.low, t.high} && LeavesSide(p.score.value, q.score.value, level))
  {
    if p.score.Some? && q.score.Some? {
      var a, b := p.score.value, q.score.value;
      assert LeavesSide(a, b, t.low) <==> a > t.low >= b || a < t.low <= b;
      assert LeavesSide(a, b, t.high) <==> a > t.high >= b || a < t.high <= b;
      assert t.low in {t.low, t.high} && t.high in {t.low, t.high};
    }
  }
}
