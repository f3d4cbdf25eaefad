/**
  RDF terms and quads, the comparison `SimpleQuadStore.removeDuplicates`
  applies to them, the deduplicated list it computes, and the N-Quads text
  `toNQuads` writes.
 */
module Quads {
  import opened Wrappers

  /** An RDF term; two terms are equal exactly when variant and fields agree. */
  datatype Term =
    | Iri(iri: string)
    | Literal(lexical: string, datatypeOrLanguage: Option<string>)
    | BlankNode(id: string)

  /** A statement; `graph == None` stands for the default graph (a null graph). */
  datatype Quad = Quad(subj: Term, pred: Term, obj: Term, graph: Option<Term>)

  /**
    The test of the inner scan of `removeDuplicates`: equal subj, object and
    predicate, never an absent graph against a present one, and equal graphs
    when both are present. It is exactly structural equality of quads.
   */
  function Equivalent(a: Quad, b: Quad): (r: bool)
    ensures r <==> a == b
    ensures r ==> (a.graph.None? <==> b.graph.None?)
  {
    a.subj == b.subj
    && a.obj == b.obj
    && a.pred == b.pred
    && !(a.graph.None? && b.graph.Some?)
    && !(a.graph.Some? && b.graph.None?)
    && ((a.graph.None? && b.graph.None?) || a.graph.value == b.graph.value)
  }

  /** No quad of `kept` is equivalent to `q`: the scan reached the end of `kept`. */
  predicate NoEquivalentIn(kept: seq<Quad>, q: Quad)
  {
    forall j :: 0 <= j < |kept| ==> !Equivalent(kept[j], q)
  }

  /** No two quads of `qs` are equivalent. */
  predicate Distinct(qs: seq<Quad>)
  {
    forall i, j :: 0 <= i < j < |qs| ==> !Equivalent(qs[i], qs[j])
  }

  /** Position `i` holds the first quad of its equivalence class in `qs`. */
  predicate IsFirstOccurrence(qs: seq<Quad>, i: nat)
    requires i < |qs|
  {
    forall j :: 0 <= j < i ==> !Equivalent(qs[j], qs[i])
  }

  /**
    The list `removeDuplicates` builds from `qs`: each quad, in order, is
    appended when nothing appended before is equivalent to it.
   */
  function Deduplicated(qs: seq<Quad>): (r: seq<Quad>)
    ensures |r| <= |qs|
    ensures qs != [] ==> r != [] && r[0] == qs[0]
  {
    if qs == [] then []
    else
      var kept := Deduplicated(qs[..|qs| - 1]);
      if NoEquivalentIn(kept, qs[|qs| - 1]) then kept + [qs[|qs| - 1]] else kept
  }

  /** Deduplication keeps every quad, up to equivalence, and invents none. */
  lemma {:induction false} DeduplicatedElements(qs: seq<Quad>)
    ensures forall q :: q in Deduplicated(qs) <==> q in qs
    ensures forall q :: q in qs ==> exists k :: 0 <= k < |Deduplicated(qs)| && Equivalent(Deduplicated(qs)[k], q)
  {
    if qs != [] {
      var prefix, last := qs[..|qs| - 1], qs[|qs| - 1];
      DeduplicatedElements(prefix);
      assert qs == prefix + [last];
      assert forall q :: q in Deduplicated(qs) <==> q in qs;
    }
    forall q | q in qs
      ensures exists k :: 0 <= k < |Deduplicated(qs)| && Equivalent(Deduplicated(qs)[k], q)
    {
      assert q in Deduplicated(qs);
      var k :| 0 <= k < |Deduplicated(qs)| && Deduplicated(qs)[k] == q;
    }
  }

  /** After deduplication no two quads are equivalent. */
  lemma {:induction false} DeduplicatedDistinct(qs: seq<Quad>)
    ensures Distinct(Deduplicated(qs))
  {
    if qs != [] {
      DeduplicatedDistinct(qs[..|qs| - 1]);
    }
  }

  /** A list without equivalent quads is left as it is. */
  lemma {:induction false} DistinctUnchanged(qs: seq<Quad>)
    requires Distinct(qs)
    ensures Deduplicated(qs) == qs
  {
    if qs != [] {
      var prefix := qs[..|qs| - 1];
      assert Distinct(prefix) by {
        forall i, j | 0 <= i < j < |prefix| ensures !Equivalent(prefix[i], prefix[j]) {
          assert prefix[i] == qs[i] && prefix[j] == qs[j];
        }
      }
      DistinctUnchanged(prefix);
      assert NoEquivalentIn(prefix, qs[|qs| - 1]) by {
        forall j | 0 <= j < |prefix| ensures !Equivalent(prefix[j], qs[|qs| - 1]) {
          assert prefix[j] == qs[j];
        }
      }
      assert qs == prefix + [qs[|qs| - 1]];
    }
  }

  /** Deduplicating twice gives the same list as deduplicating once. */
  lemma DeduplicatedIdempotent(qs: seq<Quad>)
    ensures Deduplicated(Deduplicated(qs)) == Deduplicated(qs)
  {
    DeduplicatedDistinct(qs);
    DistinctUnchanged(Deduplicated(qs));
  }

  /**
    The deduplicated list is the subsequence of `qs` made of exactly the first
    occurrences, in their original order: `idx` gives their positions.
   */
  lemma {:induction false} DeduplicatedSubsequence(qs: seq<Quad>) returns (idx: seq<nat>)
    ensures |idx| == |Deduplicated(qs)| <= |qs|
    ensures forall k :: 0 <= k < |idx| ==> idx[k] < |qs| && Deduplicated(qs)[k] == qs[idx[k]]
    ensures forall k :: 0 <= k < |idx| ==> IsFirstOccurrence(qs, idx[k])
    ensures forall k, l :: 0 <= k < l < |idx| ==> idx[k] < idx[l]
    ensures forall i :: 0 <= i < |qs| && IsFirstOccurrence(qs, i) ==> i in idx
  {
    if qs == [] {
      idx := [];
    } else {
      var n := |qs| - 1;
      var earlier := DeduplicatedSubsequence(qs[..n]);
      FirstOccurrencesOfPrefix(qs, n);
      LastFirstOccurrence(qs);
      if IsFirstOccurrence(qs, n) {
        idx := earlier + [n];
        AppendFirstOccurrence(qs, earlier);
      } else {
        idx := earlier;
        SkipRepeatedOccurrence(qs, earlier);
      }
    }
  }

  /** A last quad seen for the first time is kept, at the next index. */
  lemma AppendFirstOccurrence(qs: seq<Quad>, idx: seq<nat>)
    requires qs != [] && IsFirstOccurrence(qs, |qs| - 1)
    requires NoEquivalentIn(Deduplicated(qs[..|qs| - 1]), qs[|qs| - 1])
    requires forall i :: 0 <= i < |qs| - 1 ==> (IsFirstOccurrence(qs, i) <==> IsFirstOccurrence(qs[..|qs| - 1], i))
    requires |idx| == |Deduplicated(qs[..|qs| - 1])| <= |qs| - 1
    requires forall k :: 0 <= k < |idx| ==> idx[k] < |qs| - 1 && Deduplicated(qs[..|qs| - 1])[k] == qs[..|qs| - 1][idx[k]]
    requires forall k :: 0 <= k < |idx| ==> IsFirstOccurrence(qs[..|qs| - 1], idx[k])
    requires forall k, l :: 0 <= k < l < |idx| ==> idx[k] < idx[l]
    requires forall i :: 0 <= i < |qs| - 1 && IsFirstOccurrence(qs[..|qs| - 1], i) ==> i in idx
    ensures var ix := idx + [|qs| - 1];
      && |ix| == |Deduplicated(qs)| <= |qs|
      && (forall k :: 0 <= k < |ix| ==> ix[k] < |qs| && Deduplicated(qs)[k] == qs[ix[k]])
      && (forall k :: 0 <= k < |ix| ==> IsFirstOccurrence(qs, ix[k]))
      && (forall k, l :: 0 <= k < l < |ix| ==> ix[k] < ix[l])
      && (forall i :: 0 <= i < |qs| && IsFirstOccurrence(qs, i) ==> i in ix)
  {
    var n := |qs| - 1;
    var prefix := qs[..n];
    var ix := idx + [n];
    assert Deduplicated(qs) == Deduplicated(prefix) + [qs[n]];
    forall k | 0 <= k < |ix| ensures ix[k] < |qs| && Deduplicated(qs)[k] == qs[ix[k]] {
      if k < |idx| {
        assert ix[k] == idx[k] && prefix[idx[k]] == qs[idx[k]];
      }
    }
    forall k | 0 <= k < |ix| ensures IsFirstOccurrence(qs, ix[k]) {
      if k < |idx| {
        assert ix[k] == idx[k];
      }
    }
    forall i | 0 <= i < |qs| && IsFirstOccurrence(qs, i) ensures i in ix {
      if i < n {
        assert i in idx;
      } else {
        assert ix[|idx|] == n;
      }
    }
  }

  /** A last quad seen before is dropped and the indices stay as they are. */
  lemma SkipRepeatedOccurrence(qs: seq<Quad>, idx: seq<nat>)
    requires qs != [] && !IsFirstOccurrence(qs, |qs| - 1)
    requires !NoEquivalentIn(Deduplicated(qs[..|qs| - 1]), qs[|qs| - 1])
    requires forall i :: 0 <= i < |qs| - 1 ==> (IsFirstOccurrence(qs, i) <==> IsFirstOccurrence(qs[..|qs| - 1], i))
    requires |idx| == |Deduplicated(qs[..|qs| - 1])| <= |qs| - 1
    requires forall k :: 0 <= k < |idx| ==> idx[k] < |qs| - 1 && Deduplicated(qs[..|qs| - 1])[k] == qs[..|qs| - 1][idx[k]]
    requires forall k :: 0 <= k < |idx| ==> IsFirstOccurrence(qs[..|qs| - 1], idx[k])
    requires forall i :: 0 <= i < |qs| - 1 && IsFirstOccurrence(qs[..|qs| - 1], i) ==> i in idx
    ensures |idx| == |Deduplicated(qs)| <= |qs|
    ensures forall k :: 0 <= k < |idx| ==> idx[k] < |qs| && Deduplicated(qs)[k] == qs[idx[k]]
    ensures forall k :: 0 <= k < |idx| ==> IsFirstOccurrence(qs, idx[k])
    ensures forall i :: 0 <= i < |qs| && IsFirstOccurrence(qs, i) ==> i in idx
  {
    var n := |qs| - 1;
    var prefix := qs[..n];
    assert Deduplicated(qs) == Deduplicated(prefix);
    forall k | 0 <= k < |idx| ensures idx[k] < |qs| && Deduplicated(qs)[k] == qs[idx[k]] {
      assert prefix[idx[k]] == qs[idx[k]];
    }
  }

  /** Positions before `n` are first occurrences in `qs` exactly when they are in its first `n` quads. */
  lemma FirstOccurrencesOfPrefix(qs: seq<Quad>, n: nat)
    requires n <= |qs|
    ensures forall i :: 0 <= i < n ==> qs[..n][i] == qs[i]
    ensures forall i :: 0 <= i < n ==> (IsFirstOccurrence(qs, i) <==> IsFirstOccurrence(qs[..n], i))
  {
  }

  /** The last quad is appended exactly when it is its first occurrence. */
  lemma LastFirstOccurrence(qs: seq<Quad>)
    requires qs != []
    ensures var n := |qs| - 1;
      NoEquivalentIn(Deduplicated(qs[..n]), qs[n]) <==> IsFirstOccurrence(qs, n)
  {
    var n := |qs| - 1;
    var prefix, last := qs[..n], qs[n];
    DeduplicatedElements(prefix);
    assert forall j :: 0 <= j < n ==> prefix[j] == qs[j];
    if NoEquivalentIn(Deduplicated(prefix), last) {
      assert last !in prefix;
    } else {
      assert last in prefix;
    }
  }

  /**
    The same triple without a graph and with a graph is never merged: the two
    quads are not equivalent, and both survive deduplication at distinct
    positions.
   */
  lemma DeduplicatedKeepsGraphForms(qs: seq<Quad>, a: Quad, b: Quad)
    requires a in qs && b in qs
    requires a.subj == b.subj && a.pred == b.pred && a.obj == b.obj
    requires a.graph.None? && b.graph.Some?
    ensures !Equivalent(a, b)
    ensures exists i, j ::
              0 <= i < |Deduplicated(qs)| && 0 <= j < |Deduplicated(qs)| && i != j
              && Deduplicated(qs)[i] == a && Deduplicated(qs)[j] == b
  {
    DeduplicatedElements(qs);
    var d := Deduplicated(qs);
    var i :| 0 <= i < |d| && d[i] == a;
    var j :| 0 <= j < |d| && d[j] == b;
    assert i != j && d[i] == a && d[j] == b;
  }

  /** The line `getNQuadOfQuad` builds from the terms' textual forms. */
  function NQuadLine(q: Quad, text: Term -> string): (line: string)
    ensures text(q.subj) + " " + text(q.pred) + " " + text(q.obj) <= line
    ensures line[|line| - 1] == '.'
  {
    text(q.subj) + " " + text(q.pred) + " " + text(q.obj)
    + (if q.graph.Some? then " " + text(q.graph.value) else "")
    + "."
  }

  /** Everything `toNQuads` writes: each quad's line followed by a line feed. */
  function NQuads(qs: seq<Quad>, text: Term -> string): (r: string)
  {
    if qs == [] then "" else NQuadLine(qs[0], text) + "\n" + NQuads(qs[1..], text)
  }

  /** The lines of a store, one per quad, in list order. */
  function Lines(qs: seq<Quad>, text: Term -> string): (ls: seq<string>)
    ensures |ls| == |qs|
    ensures forall i :: 0 <= i < |qs| ==> ls[i] == NQuadLine(qs[i], text)
  {
    seq(|qs|, i requires 0 <= i < |qs| => NQuadLine(qs[i], text))
  }

  /** Writing one more quad extends the text by exactly its line. */
  lemma {:induction false} NQuadsAppend(qs: seq<Quad>, q: Quad, text: Term -> string)
    ensures NQuads(qs + [q], text) == NQuads(qs, text) + NQuadLine(q, text) + "\n"
  {
    if qs != [] {
      var head := NQuadLine(qs[0], text) + "\n";
      assert (qs + [q])[1..] == qs[1..] + [q];
      NQuadsAppend(qs[1..], q, text);
      assert NQuads(qs + [q], text) == head + (NQuads(qs[1..], text) + NQuadLine(q, text) + "\n");
    }
  }

  /** No term of `q` prints with a line feed. */
  predicate SingleLineTerms(q: Quad, text: Term -> string)
  {
    '\n' !in text(q.subj) && '\n' !in text(q.pred) && '\n' !in text(q.obj)
    && (q.graph.Some? ==> '\n' !in text(q.graph.value))
  }

  /** Position of the first line feed at or after `i`, or `|s|`. */
  function LineEnd(s: string, i: nat): (k: nat)
    requires i <= |s|
    ensures i <= k <= |s|
    ensures k < |s| ==> s[k] == '\n'
    ensures forall j :: i <= j < k ==> s[j] != '\n'
    decreases |s| - i
  {
    if i == |s| || s[i] == '\n' then i else LineEnd(s, i + 1)
  }

  /** Cuts text into its line-feed terminated lines (a last unterminated line is kept). */
  function SplitLines(s: string): seq<string>
    decreases |s|
  {
    if s == "" then []
    else
      var k := LineEnd(s, 0);
      if k == |s| then [s] else [s[..k]] + SplitLines(s[k + 1..])
  }

  /** A line without a line feed, terminated, is split off as one line. */
  lemma SplitLinesCons(line: string, rest: string)
    requires '\n' !in line
    ensures SplitLines(line + "\n" + rest) == [line] + SplitLines(rest)
  {
    var s := line + "\n" + rest;
    assert forall j :: 0 <= j < |line| ==> s[j] == line[j];
    assert s[|line|] == '\n';
    assert LineEnd(s, 0) == |line|;
    assert s[..|line|] == line;
    assert s[|line| + 1..] == rest;
  }

  /** A quad whose terms print on one line prints as one line. */
  lemma NQuadLineSingleLine(q: Quad, text: Term -> string)
    requires SingleLineTerms(q, text)
    ensures '\n' !in NQuadLine(q, text)
  {
  }

  /**
    When no term prints with a line feed, the text `toNQuads` writes reads back
    as exactly one line per quad, in list order.
   */
  lemma {:induction false} NQuadsSplitsIntoLines(qs: seq<Quad>, text: Term -> string)
    requires forall i :: 0 <= i < |qs| ==> SingleLineTerms(qs[i], text)
    ensures SplitLines(NQuads(qs, text)) == Lines(qs, text)
  {
    if qs != [] {
      var rest := qs[1..];
      assert forall i :: 0 <= i < |rest| ==> rest[i] == qs[i + 1];
      NQuadsSplitsIntoLines(rest, text);
      NQuadLineSingleLine(qs[0], text);
      SplitLinesCons(NQuadLine(qs[0], text), NQuads(rest, text));
      LinesCons(qs, text);
    }
  }

  /** The lines of a non-empty store: the first quad's line, then the others'. */
  lemma LinesCons(qs: seq<Quad>, text: Term -> string)
    requires qs != []
    ensures Lines(qs, text) == [NQuadLine(qs[0], text)] + Lines(qs[1..], text)
  {
    var rest := qs[1..];
    assert forall i :: 0 <= i < |rest| ==> rest[i] == qs[i + 1];
  }

  /**
    A triple in the default graph and the same triple in a named graph: the
    first line ends after the object, the second names the graph before its
    terminating dot.
   */
  lemma NQuadsExample(text: Term -> string, s: Term, p: Term, o: Term, g: Term)
    ensures NQuads([Quad(s, p, o, None), Quad(s, p, o, Some(g))], text)
         == text(s) + " " + text(p) + " " + text(o) + "." + "\n"
          + text(s) + " " + text(p) + " " + text(o) + " " + text(g) + "." + "\n"
  {
    var a := Quad(s, p, o, None);
    var b := Quad(s, p, o, Some(g));
    assert [a, b][1..] == [b];
    assert [b][1..] == [];
    var first := text(s) + " " + text(p) + " " + text(o) + ".";
    var second := text(s) + " " + text(p) + " " + text(o) + " " + text(g) + ".";
    assert NQuadLine(a, text) == first;
    assert NQuadLine(b, text) == second;
    assert NQuads([b], text) == second + "\n";
    assert NQuads([a, b], text) == first + "\n" + (second + "\n");
  }
}
