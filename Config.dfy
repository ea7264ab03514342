/**
  The `PAGE_IDS` setting (backend/core/config.py): the Confluence page ids,
  read from one environment string whose ids may be separated by any runs
  of commas, dots, pipes and whitespace.
 */
module Config {
  import Text

  /** A character of the class `[,\s.|]`. */
  predicate IsSeparator(c: char) {
    c == ',' || c == '.' || c == '|' || Text.IsPySpace(c)
  }

  predicate SeparatorFree(s: string) {
    forall i :: 0 <= i < |s| ==> !IsSeparator(s[i])
  }

  /**
    `re.split(r'[,\s.|]+', s)`: the pieces between the maximal runs of
    separators, an empty piece before a leading run and after a trailing one.
   */
  function ReSplit(s: string): (pieces: seq<string>)
    ensures |pieces| >= 1
    ensures pieces[0] == [] <==> s == [] || IsSeparator(s[0])
  {
    if s == [] then [[]]
    else
      var rest := ReSplit(s[1..]);
      if !IsSeparator(s[0]) then [[s[0]] + rest[0]] + rest[1..]
      else if |s| > 1 && IsSeparator(s[1]) then rest
      else [[]] + rest
  }

  /** `[pid.strip() for pid in pieces if pid.strip()]`. */
  function StripNonEmpty(pieces: seq<string>): (ids: seq<string>)
    ensures |ids| <= |pieces|
  {
    if pieces == [] then []
    else
      var id := Text.Trim(Text.Python, pieces[0]);
      (if id != [] then [id] else []) + StripNonEmpty(pieces[1..])
  }

  /** `PAGE_IDS`, from the value of the environment variable (an unset variable reads as ""). */
  function PageIds(env: string): seq<string> {
    StripNonEmpty(ReSplit(env))
  }

  /**
    The maximal separator-free runs of `s`, in order, read one character at
    a time: a separator adds nothing, and any other character either ends
    its run (before a separator or the end) or starts the first run of the rest.
   */
  function Words(s: string): (words: seq<string>)
    ensures s != [] && !IsSeparator(s[0]) ==> words != [] && words[0] != [] && words[0][0] == s[0]
  {
    if s == [] then []
    else if IsSeparator(s[0]) then Words(s[1..])
    else
      var rest := Words(s[1..]);
      if |s| == 1 || IsSeparator(s[1]) then [[s[0]]] + rest
      else [[s[0]] + rest[0]] + rest[1..]
  }

  /** The separator characters of `s` removed. */
  function NonSeparators(s: string): string {
    if s == [] then []
    else (if IsSeparator(s[0]) then [] else [s[0]]) + NonSeparators(s[1..])
  }

  function Concat(ids: seq<string>): string {
    if ids == [] then [] else ids[0] + Concat(ids[1..])
  }

  /** The ids written back out, comma-separated. */
  function JoinComma(ids: seq<string>): string {
    if ids == [] then []
    else if |ids| == 1 then ids[0]
    else ids[0] + "," + JoinComma(ids[1..])
  }

  /** No piece of the split holds a separator. */
  lemma {:induction false} ReSplitClean(s: string)
    ensures forall k :: 0 <= k < |ReSplit(s)| ==> SeparatorFree(ReSplit(s)[k])
    decreases |s|
  {
    if s != [] {
      ReSplitClean(s[1..]);
      var rest := ReSplit(s[1..]);
      if !IsSeparator(s[0]) {
        var first := [s[0]] + rest[0];
        assert SeparatorFree(first) by {
          forall i | 0 <= i < |first| ensures !IsSeparator(first[i]) {
            if i > 0 { assert first[i] == rest[0][i - 1]; }
          }
        }
        assert forall k :: 1 <= k < |ReSplit(s)| ==> ReSplit(s)[k] == rest[k];
      } else if !(|s| > 1 && IsSeparator(s[1])) {
        assert forall k :: 1 <= k < |ReSplit(s)| ==> ReSplit(s)[k] == rest[k - 1];
      }
    }
  }

  /** A separator-free piece has no whitespace to strip. */
  lemma StripClean(p: string)
    requires SeparatorFree(p)
    ensures Text.Trim(Text.Python, p) == p
  {
    if p != [] {
      assert !IsSeparator(p[0]) && !IsSeparator(p[|p| - 1]);
    }
    Text.TrimUnpadded(Text.Python, p);
  }

  /** Stripping a list of pieces whose first piece is clean keeps that piece iff it is nonempty. */
  lemma {:induction false} StripNonEmptyStep(pieces: seq<string>)
    requires pieces != [] && SeparatorFree(pieces[0])
    ensures StripNonEmpty(pieces) == (if pieces[0] == [] then [] else [pieces[0]]) + StripNonEmpty(pieces[1..])
  {
    StripClean(pieces[0]);
  }

  /** Dropping the empty pieces of the split gives the runs, one character at a time. */
  lemma {:induction false} StripNonEmptyIsWords(s: string)
    ensures StripNonEmpty(ReSplit(s)) == Words(s)
    decreases |s|
  {
    if s != [] {
      var rest := ReSplit(s[1..]);
      StripNonEmptyIsWords(s[1..]);
      ReSplitClean(s[1..]);
      StripNonEmptyStep(rest);
      if IsSeparator(s[0]) {
        if !(|s| > 1 && IsSeparator(s[1])) {
          StripNonEmptyStep([[]] + rest);
          assert ([[]] + rest)[1..] == rest;
        }
      } else {
        GlueStep(s[0], rest);
      }
    }
  }

  /** Gluing a non-separator to the first clean piece: that piece is kept, longer by one. */
  lemma {:induction false} GlueStep(c: char, rest: seq<string>)
    requires !IsSeparator(c) && rest != []
    requires forall k :: 0 <= k < |rest| ==> SeparatorFree(rest[k])
    ensures StripNonEmpty([[c] + rest[0]] + rest[1..]) == [[c] + rest[0]] + StripNonEmpty(rest[1..])
  {
    var pieces := [[c] + rest[0]] + rest[1..];
    assert pieces[1..] == rest[1..];
    assert SeparatorFree(rest[0]);
    assert SeparatorFree(pieces[0]) by {
      forall i | 0 <= i < |pieces[0]| ensures !IsSeparator(pieces[0][i]) {
        if i > 0 { assert pieces[0][i] == rest[0][i - 1]; }
      }
    }
    StripNonEmptyStep(pieces);
  }

  /** The comprehension over the split is exactly the list of maximal separator-free runs. */
  lemma {:induction false} PageIdsAreWords(env: string)
    ensures PageIds(env) == Words(env)
  {
    StripNonEmptyIsWords(env);
  }

  /** No run is empty, and no run contains a separator. */
  lemma {:induction false} WordsClean(s: string)
    ensures forall k :: 0 <= k < |Words(s)| ==> Words(s)[k] != [] && SeparatorFree(Words(s)[k])
    decreases |s|
  {
    if s != [] {
      WordsClean(s[1..]);
      var rest := Words(s[1..]);
      if !IsSeparator(s[0]) && |s| > 1 && !IsSeparator(s[1]) {
        var first := [s[0]] + rest[0];
        assert SeparatorFree(first) by {
          forall i | 0 <= i < |first| ensures !IsSeparator(first[i]) {
            if i > 0 { assert first[i] == rest[0][i - 1]; }
          }
        }
        assert forall k :: 1 <= k < |Words(s)| ==> Words(s)[k] == rest[k];
      } else if !IsSeparator(s[0]) {
        assert forall k :: 1 <= k < |Words(s)| ==> Words(s)[k] == rest[k - 1];
      }
    }
  }

  /** The runs spell out the non-separator characters, none lost and none reordered. */
  lemma {:induction false} WordsConcat(s: string)
    ensures Concat(Words(s)) == NonSeparators(s)
    decreases |s|
  {
    if s != [] {
      WordsConcat(s[1..]);
      var rest := Words(s[1..]);
      if !IsSeparator(s[0]) {
        if |s| == 1 || IsSeparator(s[1]) {
          assert ([[s[0]]] + rest)[1..] == rest;
        } else {
          var words := [[s[0]] + rest[0]] + rest[1..];
          assert words[1..] == rest[1..];
          assert Concat(rest) == rest[0] + Concat(rest[1..]);
        }
      }
    }
  }

  /** There are no runs exactly when every character is a separator. */
  lemma {:induction false} WordsEmptyIff(s: string)
    ensures Words(s) == [] <==> forall i :: 0 <= i < |s| ==> IsSeparator(s[i])
    decreases |s|
  {
    if s != [] && IsSeparator(s[0]) {
      WordsEmptyIff(s[1..]);
      if Words(s) == [] {
        forall i | 0 <= i < |s| ensures IsSeparator(s[i]) {
          if i > 0 { assert s[i] == s[1..][i - 1]; }
        }
      } else {
        var i :| 0 <= i < |s[1..]| && !IsSeparator(s[1..][i]);
        assert !IsSeparator(s[i + 1]);
      }
    }
  }

  /** The runs of a text with one more character in front. */
  lemma WordsCons(h: char, t: string)
    ensures Words([h] + t) ==
      if IsSeparator(h) then Words(t)
      else if t == [] || IsSeparator(t[0]) then [[h]] + Words(t)
      else [[h] + Words(t)[0]] + Words(t)[1..]
  {
    var s := [h] + t;
    assert s[0] == h && s[1..] == t;
    if |s| > 1 { assert s[1] == t[0]; }
  }

  /** A run-character in front of a text that starts with a run extends that first run. */
  lemma WordsConsJoin(h: char, t: string)
    requires !IsSeparator(h) && t != [] && !IsSeparator(t[0])
    ensures Words(t) != [] && Words([h] + t) == [[h] + Words(t)[0]] + Words(t)[1..]
  {
    WordsCons(h, t);
  }

  /** Extending the first run of `x + w` is extending the first run of `x` when `x` has one. */
  lemma ExtendFirstRun(p: string, x: seq<string>, w: seq<string>)
    requires x != []
    ensures [p + (x + w)[0]] + (x + w)[1..] == ([p + x[0]] + x[1..]) + w
  {
    assert (x + w)[0] == x[0] && (x + w)[1..] == x[1..] + w;
  }

  /** The step of `WordsSplit` when the first character continues a run that reaches past it. */
  lemma WordsSplitJoin(h: char, t: string, c: char, b: string)
    requires !IsSeparator(h) && t != [] && !IsSeparator(t[0])
    requires Words(t + [c] + b) == Words(t) + Words(b)
    ensures Words([h] + (t + [c] + b)) == Words([h] + t) + Words(b)
  {
    var tail := t + [c] + b;
    assert tail[0] == t[0];
    WordsConsJoin(h, tail);
    WordsConsJoin(h, t);
    ExtendFirstRun([h], Words(t), Words(b));
  }

  /** The step of `WordsSplit` when the first character is a run of its own. */
  lemma WordsSplitSingle(h: char, t: string, c: char, b: string)
    requires !IsSeparator(h) && IsSeparator(c) && (t == [] || IsSeparator(t[0]))
    requires Words(t + [c] + b) == Words(t) + Words(b)
    ensures Words([h] + (t + [c] + b)) == Words([h] + t) + Words(b)
  {
    var tail := t + [c] + b;
    WordsCons(h, tail);
    WordsCons(h, t);
    assert tail[0] == if t == [] then c else t[0];
  }

  /** A separator cuts the text into two parts whose runs are independent. */
  lemma {:induction false} WordsSplit(a: string, c: char, b: string)
    requires IsSeparator(c)
    ensures Words(a + [c] + b) == Words(a) + Words(b)
    decreases |a|
  {
    if a == [] {
      WordsCons(c, b);
      assert a + [c] + b == [c] + b;
    } else {
      var h, t := a[0], a[1..];
      assert a == [h] + t && a + [c] + b == [h] + (t + [c] + b);
      WordsSplit(t, c, b);
      if IsSeparator(h) {
        WordsCons(h, t + [c] + b);
        WordsCons(h, t);
      } else if t == [] || IsSeparator(t[0]) {
        WordsSplitSingle(h, t, c, b);
      } else {
        WordsSplitJoin(h, t, c, b);
      }
    }
  }

  /** A nonempty separator-free text is a single run. */
  lemma {:induction false} WordsOfWord(w: string)
    requires w != [] && SeparatorFree(w)
    ensures Words(w) == [w]
    decreases |w|
  {
    if |w| == 1 {
      assert w[1..] == [] && [w[0]] == w;
    } else {
      assert !IsSeparator(w[1]);
      assert SeparatorFree(w[1..]) by {
        forall i | 0 <= i < |w[1..]| ensures !IsSeparator(w[1..][i]) {
          assert w[1..][i] == w[i + 1];
        }
      }
      WordsOfWord(w[1..]);
      assert Words(w) == [[w[0]] + w[1..]];
      assert [w[0]] + w[1..] == w;
    }
  }

  /** Clean ids written out with commas read back as the same ids. */
  lemma {:induction false} WordsOfJoin(ids: seq<string>)
    requires forall k :: 0 <= k < |ids| ==> ids[k] != [] && SeparatorFree(ids[k])
    ensures Words(JoinComma(ids)) == ids
    decreases |ids|
  {
    if |ids| == 1 {
      WordsOfWord(ids[0]);
    } else if |ids| > 1 {
      WordsOfJoin(ids[1..]);
      WordsOfWord(ids[0]);
      WordsSplit(ids[0], ',', JoinComma(ids[1..]));
      assert ids[0] + "," + JoinComma(ids[1..]) == ids[0] + [','] + JoinComma(ids[1..]);
      assert [ids[0]] + ids[1..] == ids;
    }
  }

  /** No parsed id is empty, and none contains a comma, dot, pipe or whitespace. */
  lemma {:induction false} PageIdsClean(env: string)
    ensures forall k :: 0 <= k < |PageIds(env)| ==> PageIds(env)[k] != [] && SeparatorFree(PageIds(env)[k])
  {
    PageIdsAreWords(env);
    WordsClean(env);
  }

  /** The ids keep every other character of the input, in input order. */
  lemma {:induction false} PageIdsConcat(env: string)
    ensures Concat(PageIds(env)) == NonSeparators(env)
  {
    PageIdsAreWords(env);
    WordsConcat(env);
  }

  /** The ids are empty exactly when the input is nothing but separators (the empty input included). */
  lemma {:induction false} PageIdsEmptyIff(env: string)
    ensures PageIds(env) == [] <==> forall i :: 0 <= i < |env| ==> IsSeparator(env[i])
  {
    PageIdsAreWords(env);
    WordsEmptyIff(env);
  }

  /** Two inputs glued with any separator parse to the two id lists, one after the other. */
  lemma {:induction false} PageIdsSplit(a: string, c: char, b: string)
    requires IsSeparator(c)
    ensures PageIds(a + [c] + b) == PageIds(a) + PageIds(b)
  {
    PageIdsAreWords(a + [c] + b);
    PageIdsAreWords(a);
    PageIdsAreWords(b);
    WordsSplit(a, c, b);
  }

  /** Parsing, joining with commas and parsing again gives the same list. */
  lemma {:induction false} PageIdsRoundTrip(env: string)
    ensures PageIds(JoinComma(PageIds(env))) == PageIds(env)
  {
    PageIdsClean(env);
    PageIdsAreWords(JoinComma(PageIds(env)));
    WordsOfJoin(PageIds(env));
  }
}
