/**
  The message list's source footer (Frontend/components/chat/MessageList.tsx):
  which messages get one, and the first-occurrence-wins de-duplication of the
  citations shown in it.
 */
module MessageList {
  import opened Wrappers
  import opened ChatTypes

  /** `acc.find(item => item.source === key)`: the first record with that key, if any. */
  function Find(acc: seq<Source>, key: string): (r: Option<Source>)
    ensures r.None? <==> forall i :: 0 <= i < |acc| ==> acc[i].source != key
    ensures r.Some? ==> r.value in acc && r.value.source == key
  {
    if acc == [] then None
    else if acc[0].source == key then Some(acc[0])
    else Find(acc[1..], key)
  }

  /**
    The `reduce` at MessageList.tsx:101-108: walk the sources left to right and
    keep a record only when no kept record already has its `source` key.
   */
  function UniqueSources(sources: seq<Source>): (r: seq<Source>)
    ensures |r| <= |sources|
    ensures sources != [] ==> r != []
  {
    if sources == [] then []
    else
      var acc := UniqueSources(sources[..|sources| - 1]);
      var current := sources[|sources| - 1];
      if Find(acc, current.source).None? then acc + [current] else acc
  }

  /** The footer is drawn for a non-user message that carries at least one source. */
  predicate ShowsSourcesFooter(msg: Message) {
    msg.role != User && msg.sources.Some? && |msg.sources.value| > 0
  }

  /** The citations the footer lists for a message. */
  function FooterSources(msg: Message): seq<Source> {
    if msg.sources.Some? then UniqueSources(msg.sources.value) else []
  }

  /** A shown footer is never empty, and a user message never shows one. */
  lemma FooterNonEmpty(msg: Message)
    ensures ShowsSourcesFooter(msg) ==> FooterSources(msg) != []
    ensures msg.role == User ==> !ShowsSourcesFooter(msg)
  {
  }

  // ---------------------------------------------------------------------------
  // Properties of the de-duplication

  /** `a` can be obtained from `b` by deleting elements: order is preserved. */
  predicate IsSubsequence<T(==)>(a: seq<T>, b: seq<T>)
    decreases |b|
  {
    if a == [] then true
    else if b == [] then false
    else (a[|a| - 1] == b[|b| - 1] && IsSubsequence(a[..|a| - 1], b[..|b| - 1]))
         || IsSubsequence(a, b[..|b| - 1])
  }

  /** The set of citation keys a list mentions. */
  function Keys(s: seq<Source>): set<string> {
    set i | 0 <= i < |s| :: s[i].source
  }

  predicate DistinctKeys(s: seq<Source>) {
    forall i, j :: 0 <= i < j < |s| ==> s[i].source != s[j].source
  }

  /** Position `i` holds the first record of `s` with its key. */
  predicate IsFirstOccurrence(s: seq<Source>, i: int) {
    0 <= i < |s| && forall k :: 0 <= k < i ==> s[k].source != s[i].source
  }

  lemma KeysSnoc(s: seq<Source>, x: Source)
    ensures Keys(s + [x]) == Keys(s) + {x.source}
  {
    var t := s + [x];
    assert forall i :: 0 <= i < |s| ==> t[i] == s[i];
    assert t[|s|] == x;
  }

  /** The output keeps the input's order. */
  lemma {:induction false} UniqueSourcesSubsequence(s: seq<Source>)
    ensures IsSubsequence(UniqueSources(s), s)
  {
    if s != [] {
      var p := s[..|s| - 1];
      UniqueSourcesSubsequence(p);
      var acc := UniqueSources(p);
      if Find(acc, s[|s| - 1].source).None? {
        assert (acc + [s[|s| - 1]])[..|acc|] == acc;
      } else if acc != [] {
        assert s[..|s| - 1] == p;
      }
    }
  }

  /** The output mentions every key of the input and no other. */
  lemma {:induction false} UniqueSourcesKeys(s: seq<Source>)
    ensures Keys(UniqueSources(s)) == Keys(s)
  {
    if s != [] {
      var p := s[..|s| - 1];
      UniqueSourcesKeys(p);
      var x := s[|s| - 1];
      assert s == p + [x];
      KeysSnoc(p, x);
      var acc := UniqueSources(p);
      if Find(acc, x.source).None? {
        KeysSnoc(acc, x);
      } else {
        assert x.source in Keys(acc);
      }
    }
  }

  /** No two output records share a key. */
  lemma {:induction false} UniqueSourcesDistinct(s: seq<Source>)
    ensures DistinctKeys(UniqueSources(s))
  {
    if s != [] {
      var p := s[..|s| - 1];
      UniqueSourcesDistinct(p);
    }
  }

  /** Dropping the last record keeps the first occurrences before it; the last record is a first occurrence exactly when its key is new. */
  lemma FirstOccurrencePrefix(s: seq<Source>)
    requires s != []
    ensures forall i :: 0 <= i < |s| - 1 ==> (IsFirstOccurrence(s, i) <==> IsFirstOccurrence(s[..|s| - 1], i))
    ensures IsFirstOccurrence(s, |s| - 1) <==> s[|s| - 1].source !in Keys(s[..|s| - 1])
  {
    var p := s[..|s| - 1];
    assert forall i :: 0 <= i < |p| ==> p[i] == s[i];
    if s[|s| - 1].source in Keys(p) {
      var k :| 0 <= k < |p| && p[k].source == s[|s| - 1].source;
      assert !IsFirstOccurrence(s, |s| - 1);
    }
  }

  /** A last record whose key is new is kept. */
  lemma LastFirstOccurrenceKept(s: seq<Source>)
    requires s != [] && IsFirstOccurrence(s, |s| - 1)
    ensures s[|s| - 1] in UniqueSources(s)
  {
    var p := s[..|s| - 1];
    var x := s[|s| - 1];
    FirstOccurrencePrefix(s);
    UniqueSourcesKeys(p);
    var acc := UniqueSources(p);
    assert UniqueSources(s) == if Find(acc, x.source).None? then acc + [x] else acc;
    assert x.source !in Keys(acc);
    assert forall k :: 0 <= k < |acc| ==> acc[k].source in Keys(acc);
  }

  /** The first occurrences kept from all but the last record stay kept. */
  lemma EarlierFirstOccurrencesKept(s: seq<Source>, p: seq<Source>)
    requires s != [] && p == s[..|s| - 1]
    requires forall i :: IsFirstOccurrence(p, i) ==> p[i] in UniqueSources(p)
    ensures forall i :: IsFirstOccurrence(s, i) && i < |p| ==> s[i] in UniqueSources(s)
  {
    var n := |s| - 1;
    FirstOccurrencePrefix(s);
    var acc := UniqueSources(p);
    var x := s[n];
    assert UniqueSources(s) == if Find(acc, x.source).None? then acc + [x] else acc;
    assert forall y :: y in acc ==> y in UniqueSources(s);
    forall i | IsFirstOccurrence(s, i) && i < n
      ensures s[i] in UniqueSources(s)
    {
      assert IsFirstOccurrence(p, i) && s[i] == p[i];
    }
  }

  /** Every first occurrence of a key is kept. */
  lemma {:induction false} FirstOccurrencesKept(s: seq<Source>)
    ensures forall i :: IsFirstOccurrence(s, i) ==> s[i] in UniqueSources(s)
  {
    if s != [] {
      var p := s[..|s| - 1];
      FirstOccurrencesKept(p);
      EarlierFirstOccurrencesKept(s, p);
      forall i | IsFirstOccurrence(s, i)
        ensures s[i] in UniqueSources(s)
      {
        if i == |p| {
          LastFirstOccurrenceKept(s);
        }
      }
    }
  }

  /** Every kept record is the first occurrence of its key. */
  lemma {:induction false} KeptAreFirstOccurrences(s: seq<Source>)
    ensures forall x :: x in UniqueSources(s) ==> exists i :: IsFirstOccurrence(s, i) && s[i] == x
  {
    if s != [] {
      var n := |s| - 1;
      var p := s[..n];
      KeptAreFirstOccurrences(p);
      FirstOccurrencePrefix(s);
      UniqueSourcesKeys(p);
      var acc := UniqueSources(p);
      forall y | y in UniqueSources(s)
        ensures exists i :: IsFirstOccurrence(s, i) && s[i] == y
      {
        if y in acc {
          var i :| IsFirstOccurrence(p, i) && p[i] == y;
          assert IsFirstOccurrence(s, i) && s[i] == y;
        } else {
          assert y == s[n] && Find(acc, s[n].source).None?;
          assert s[n].source !in Keys(acc);
          assert IsFirstOccurrence(s, n);
        }
      }
    }
  }

  /** Each record kept is the first record of the input with its key, and each such first record is kept. */
  lemma UniqueSourcesFirstOccurrences(s: seq<Source>)
    ensures forall x :: x in UniqueSources(s) <==> exists i :: IsFirstOccurrence(s, i) && s[i] == x
  {
    FirstOccurrencesKept(s);
    KeptAreFirstOccurrences(s);
  }

  /** A list whose keys are already distinct is left unchanged. */
  lemma {:induction false} UniqueSourcesOfDistinct(s: seq<Source>)
    requires DistinctKeys(s)
    ensures UniqueSources(s) == s
  {
    if s != [] {
      var p := s[..|s| - 1];
      UniqueSourcesOfDistinct(p);
      assert Find(p, s[|s| - 1].source).None?;
      assert p + [s[|s| - 1]] == s;
    }
  }

  /** De-duplicating twice is the same as de-duplicating once. */
  lemma UniqueSourcesIdempotent(s: seq<Source>)
    ensures UniqueSources(UniqueSources(s)) == UniqueSources(s)
  {
    UniqueSourcesDistinct(s);
    UniqueSourcesOfDistinct(UniqueSources(s));
  }

  /** The worked example: `[a, a', b]` gives `[a, b]`, keeping the first `a`. */
  lemma UniqueSourcesExample(a: Source, a': Source, b: Source)
    requires a.source == a'.source && a.source != b.source
    ensures UniqueSources([a, a', b]) == [a, b]
  {
    assert [a][..0] == [];
    assert UniqueSources([a]) == [a];
    assert [a, a'][..1] == [a];
    assert UniqueSources([a, a']) == [a];
    assert [a, a', b][..2] == [a, a'];
  }
}
