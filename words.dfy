/** The string operations the dictation screen applies to the transcript:
    joining utterances with a separator (JavaScript's `Array.prototype.join`),
    splitting on a single space (`String.prototype.split(" ")`), dropping the
    empty pieces (`filter(Boolean)`) and counting what is left. */
module Words {

  const SPACE: char := ' '

  /** `pieces.join(sep)`: the pieces in order, with `sep` between neighbours. */
  function Join(pieces: seq<string>, sep: string): (joined: string)
    ensures |pieces| == 0 ==> joined == ""
    ensures |pieces| >= 1 ==> |joined| == TotalLength(pieces) + (|pieces| - 1) * |sep|
    ensures |pieces| >= 1 ==> joined[..|pieces[0]|] == pieces[0]
    decreases |pieces|
  {
    if |pieces| == 0 then ""
    else if |pieces| == 1 then pieces[0]
    else pieces[0] + sep + Join(pieces[1..], sep)
  }

  /** The summed lengths of the pieces. */
  function TotalLength(pieces: seq<string>): (total: nat)
    decreases |pieces|
  {
    if pieces == [] then 0 else |pieces[0]| + TotalLength(pieces[1..])
  }

  /** The number of spaces in `s`. */
  function Spaces(s: string): (count: nat)
    decreases |s|
  {
    if s == [] then 0 else (if s[0] == SPACE then 1 else 0) + Spaces(s[1..])
  }

  /** `s.split(" ")`: the maximal space-free stretches of `s`, one more than
      there are spaces, empty where two spaces are adjacent or `s` starts or
      ends with one (so `"".split(" ")` is `[""]`). */
  function Split(s: string): (pieces: seq<string>)
    ensures |pieces| == Spaces(s) + 1
    ensures forall i :: 0 <= i < |pieces| ==> SPACE !in pieces[i]
    decreases |s|
  {
    if s == [] then [""]
    else
      var rest := Split(s[1..]);
      if s[0] == SPACE then [""] + rest
      else [[s[0]] + rest[0]] + rest[1..]
  }

  /** `pieces.filter(Boolean)`: the non-empty pieces, in order. */
  function NonEmpty(pieces: seq<string>): (kept: seq<string>)
    ensures |kept| <= |pieces|
    ensures forall i :: 0 <= i < |kept| ==> kept[i] != ""
    ensures (forall i :: 0 <= i < |pieces| ==> pieces[i] != "") ==> kept == pieces
    ensures forall p :: p in kept <==> p in pieces && p != ""
    decreases |pieces|
  {
    if pieces == [] then []
    else (if pieces[0] == "" then [] else [pieces[0]]) + NonEmpty(pieces[1..])
  }

  /** Filtering a concatenation filters each part and keeps their order. */
  lemma {:induction false} NonEmptyAppend(a: seq<string>, b: seq<string>)
    ensures NonEmpty(a + b) == NonEmpty(a) + NonEmpty(b)
    decreases |a|
  {
    if a == [] {
      assert a + b == b;
    } else {
      assert (a + b)[0] == a[0];
      assert (a + b)[1..] == a[1..] + b;
      NonEmptyAppend(a[1..], b);
    }
  }

  /** The "Words:" figure: `transcript.split(" ").filter(Boolean).length`.
      It is at most the number of pieces, and 0 exactly when the transcript
      holds nothing but spaces. */
  function WordCount(s: string): (count: nat)
    ensures count <= |Split(s)|
    ensures count == 0 <==> forall i :: 0 <= i < |s| ==> s[i] == SPACE
  {
    RunsCountPieces(s);
    RunsBlank(s);
    |NonEmpty(Split(s))|
  }

  /** Reference count of words: the number of maximal runs of non-space
      characters, scanning left to right; `inWord` says whether the character
      just before `s` was part of a run. */
  function Runs(s: string, inWord: bool): (runs: nat)
    decreases |s|
  {
    if s == [] then 0
    else if s[0] == SPACE then Runs(s[1..], false)
    else (if inWord then 0 else 1) + Runs(s[1..], true)
  }

  /** Joining the pieces of a split with a space gives back the string. */
  lemma {:induction false} JoinSplit(s: string)
    ensures Join(Split(s), [SPACE]) == s
    decreases |s|
  {
    if s != [] {
      var rest := Split(s[1..]);
      JoinSplit(s[1..]);
      if s[0] == SPACE {
        assert Split(s) == [""] + rest;
        assert ([""] + rest)[1..] == rest;
      } else {
        var head := [s[0]] + rest[0];
        assert Split(s) == [head] + rest[1..];
        assert ([head] + rest[1..])[1..] == rest[1..];
        if |rest| == 1 {
          assert Join(rest, [SPACE]) == rest[0];
        } else {
          assert Join(rest, [SPACE]) == rest[0] + [SPACE] + Join(rest[1..], [SPACE]);
        }
        assert s == [s[0]] + s[1..];
      }
    }
  }

  /** A space-free prefix glues onto the first piece of what follows it. */
  lemma {:induction false} SplitSpaceFreePrefix(w: string, t: string)
    requires SPACE !in w
    ensures Split(w + t) == [w + Split(t)[0]] + Split(t)[1..]
    decreases |w|
  {
    if w != [] {
      assert (w + t)[1..] == w[1..] + t;
      assert (w + t)[0] == w[0];
      SplitSpaceFreePrefix(w[1..], t);
      assert [w[0]] + (w[1..] + Split(t)[0]) == w + Split(t)[0];
    } else {
      assert w + t == t;
      assert w + Split(t)[0] == Split(t)[0];
      assert Split(t) == [Split(t)[0]] + Split(t)[1..];
    }
  }

  /** Splitting a space-joined list of space-free pieces gives back the list. */
  lemma {:induction false} SplitJoin(pieces: seq<string>)
    requires |pieces| >= 1
    requires forall i :: 0 <= i < |pieces| ==> SPACE !in pieces[i]
    ensures Split(Join(pieces, [SPACE])) == pieces
    decreases |pieces|
  {
    var w := pieces[0];
    if |pieces| == 1 {
      SplitSpaceFreePrefix(w, "");
      assert w + "" == w;
      assert Split("") == [""];
    } else {
      var tail := Join(pieces[1..], [SPACE]);
      SplitJoin(pieces[1..]);
      assert Join(pieces, [SPACE]) == w + ([SPACE] + tail);
      SplitSpaceFreePrefix(w, [SPACE] + tail);
      assert ([SPACE] + tail)[1..] == tail;
      assert Split([SPACE] + tail) == [""] + pieces[1..];
      assert w + "" == w;
      assert pieces == [w] + pieces[1..];
    }
  }

  /** Both scans agree: `Runs(s, false)` counts the non-empty pieces of the
      split, and `Runs(s, true)` those after the first piece. */
  lemma {:induction false} RunsCountPieces(s: string)
    ensures Runs(s, false) == |NonEmpty(Split(s))|
    ensures Runs(s, true) == |NonEmpty(Split(s)[1..])|
    decreases |s|
  {
    if s != [] {
      var rest := Split(s[1..]);
      RunsCountPieces(s[1..]);
      if s[0] == SPACE {
        assert Split(s) == [""] + rest;
        assert ([""] + rest)[1..] == rest;
      } else {
        var head := [s[0]] + rest[0];
        assert Split(s) == [head] + rest[1..];
        assert ([head] + rest[1..])[1..] == rest[1..];
        assert NonEmpty(Split(s)) == [head] + NonEmpty(rest[1..]);
      }
    }
  }

  /** A string has no run exactly when it holds nothing but spaces. */
  lemma {:induction false} RunsBlank(s: string)
    ensures Runs(s, false) == 0 <==> forall i :: 0 <= i < |s| ==> s[i] == SPACE
    decreases |s|
  {
    if s != [] {
      RunsBlank(s[1..]);
      if s[0] == SPACE {
        assert (forall i :: 0 <= i < |s| ==> s[i] == SPACE)
               <==> (forall i :: 0 <= i < |s[1..]| ==> s[1..][i] == SPACE) by {
          forall i | 0 < i < |s| ensures s[i] == s[1..][i - 1] {}
        }
      }
    }
  }

  /** The word count is the number of maximal non-space runs. */
  lemma WordCountIsRuns(s: string)
    ensures WordCount(s) == Runs(s, false)
  {
    RunsCountPieces(s);
  }

  /** A run needs at least one character of its own. */
  lemma {:induction false} RunsAtMostLength(s: string, inWord: bool)
    ensures Runs(s, inWord) <= |s|
    decreases |s|
  {
    if s != [] {
      RunsAtMostLength(s[1..], s[0] != SPACE);
    }
  }

  /** The "Words:" figure is 0 for the empty transcript and never exceeds
      the "Characters:" figure. */
  lemma WordCountAtMostLength(s: string)
    ensures WordCount(s) <= |s|
    ensures s == "" ==> WordCount(s) == 0
  {
    WordCountIsRuns(s);
    RunsAtMostLength(s, false);
  }

  /** Space-joined words, each non-empty and space-free, count as that many words. */
  lemma WordCountOfJoinedWords(words: seq<string>)
    requires |words| >= 1
    requires forall i :: 0 <= i < |words| ==> words[i] != "" && SPACE !in words[i]
    ensures WordCount(Join(words, [SPACE])) == |words|
  {
    SplitJoin(words);
  }

  /** Joining two non-empty lists puts one separator between their joins. */
  lemma {:induction false} JoinAppend(a: seq<string>, b: seq<string>, sep: string)
    requires |a| >= 1 && |b| >= 1
    ensures Join(a + b, sep) == Join(a, sep) + sep + Join(b, sep)
    decreases |a|
  {
    if |a| == 1 {
      assert (a + b)[1..] == b;
    } else {
      assert (a + b)[1..] == a[1..] + b;
      JoinAppend(a[1..], b, sep);
    }
  }
}
