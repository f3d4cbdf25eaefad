/** The in-memory, list-backed quad store and the character sink it writes to. */
module QuadStore {
  import opened Wrappers
  import opened Quads

  /** The exception the unsupported serializers throw. */
  datatype Unsupported = NotSupportedException

  /** A `java.io.Writer` seen as the text it has received so far. */
  class Writer {
    var written: string

    constructor ()
      ensures written == ""
    {
      written := "";
    }

    method Write(s: string)
      modifies this
      ensures written == old(written) + s
    {
      written := written + s;
    }
  }

  /** Subject, predicate and object are all present (non-null). */
  predicate Complete(s: Option<Term>, p: Option<Term>, o: Option<Term>)
  {
    s.Some? && p.Some? && o.Some?
  }

  /** The list after `addQuad(s, p, o, g)`: one new quad at the end, or nothing new. */
  function Added(qs: seq<Quad>, s: Option<Term>, p: Option<Term>, o: Option<Term>, g: Option<Term>): (r: seq<Quad>)
    ensures |r| == |qs| + (if Complete(s, p, o) then 1 else 0)
    ensures r[..|qs|] == qs
    ensures Complete(s, p, o) ==> r[|qs|] == Quad(s.value, p.value, o.value, g)
  {
    if s.Some? && p.Some? && o.Some? then qs + [Quad(s.value, p.value, o.value, g)] else qs
  }

  /** The arguments of one `addQuad` call. */
  datatype AddCall = AddCall(s: Option<Term>, p: Option<Term>, o: Option<Term>, g: Option<Term>)

  /** The list after a series of `addQuad` calls, in order. */
  function AddedAll(qs: seq<Quad>, calls: seq<AddCall>): seq<Quad>
  {
    if calls == [] then qs
    else
      var c := calls[|calls| - 1];
      Added(AddedAll(qs, calls[..|calls| - 1]), c.s, c.p, c.o, c.g)
  }

  /** A series of calls that each lack subject, predicate or object adds nothing. */
  lemma {:induction false} PartialTriplesAddNothing(qs: seq<Quad>, calls: seq<AddCall>)
    requires forall i :: 0 <= i < |calls| ==> !Complete(calls[i].s, calls[i].p, calls[i].o)
    ensures AddedAll(qs, calls) == qs
  {
    if calls != [] {
      PartialTriplesAddNothing(qs, calls[..|calls| - 1]);
    }
  }

  class SimpleQuadStore {
    var quads: seq<Quad>

    /** `new SimpleQuadStore()`: an empty store. */
    constructor ()
      ensures quads == []
    {
      quads := [];
    }

    /** `new SimpleQuadStore(quads)`: a store over the given list. */
    constructor FromList(quads: seq<Quad>)
      ensures this.quads == quads
    {
      this.quads := quads;
    }

    /**
      Replaces the list by its first occurrences: a quad is kept when the
      scan over the quads kept so far finds none equivalent to it.
     */
    method RemoveDuplicates()
      modifies this
      ensures quads == Deduplicated(old(quads))
    {
      var quadsWithDuplicates: seq<Quad> := [];
      for n := 0 to |quads|
        invariant quadsWithDuplicates == Deduplicated(quads[..n])
      {
        var q := quads[n];
        var i := 0;
        while i < |quadsWithDuplicates| && !Equivalent(quadsWithDuplicates[i], q)
          invariant 0 <= i <= |quadsWithDuplicates|
          invariant NoEquivalentIn(quadsWithDuplicates[..i], q)
        {
          i := i + 1;
        }
        assert quads[..n + 1][..n] == quads[..n];
        if i == |quadsWithDuplicates| {
          assert quadsWithDuplicates[..i] == quadsWithDuplicates;
          quadsWithDuplicates := quadsWithDuplicates + [q];
        }
      }
      assert quads[..|quads|] == quads;
      quads := quadsWithDuplicates;
    }

    /** Appends `(s, p, o, g)` when subject, predicate and object are present; otherwise drops it silently. */
    method AddQuad(s: Option<Term>, p: Option<Term>, o: Option<Term>, g: Option<Term>)
      modifies this
      ensures quads == Added(old(quads), s, p, o, g)
    {
      if s.Some? && p.Some? && o.Some? {
        quads := quads + [Quad(s.value, p.value, o.value, g)];
      }
    }

    /** The 4-argument `getQuads`: the whole list, whatever the filter. */
    method GetQuads(s: Option<Term>, p: Option<Term>, o: Option<Term>, g: Option<Term>) returns (r: seq<Quad>)
      ensures r == quads
    {
      r := quads;
    }

    /** The 3-argument `getQuads`: the 4-argument form with a null graph. */
    method GetQuads3(s: Option<Term>, p: Option<Term>, o: Option<Term>) returns (r: seq<Quad>)
      ensures r == quads
    {
      r := GetQuads(s, p, o, None);
    }

    method IsEmpty() returns (b: bool)
      ensures b <==> |quads| == 0
    {
      b := |quads| == 0;
    }

    method Size() returns (n: int)
      ensures n == |quads|
    {
      n := |quads|;
    }

    /** Writes each quad's N-Quads line, then a line feed, in list order. */
    method ToNQuads(out: Writer, text: Term -> string)
      modifies out
      ensures out.written == old(out.written) + NQuads(quads, text)
    {
      var qs := quads;
      ghost var start := out.written;
      for n := 0 to |qs|
        invariant out.written == start + NQuads(qs[..n], text)
      {
        var line := NQuadLine(qs[n], text) + "\n";
        NQuadsAppend(qs[..n], qs[n], text);
        assert qs[..n + 1] == qs[..n] + [qs[n]];
        assert start + NQuads(qs[..n + 1], text) == out.written + line;
        out.Write(line);
      }
      assert qs[..|qs|] == qs;
    }

    /** Turtle is not supported by this store: always throws. */
    method ToTurtle(out: Writer) returns (r: Outcome<Unsupported>)
      ensures r == Fail(NotSupportedException)
    {
      r := Fail(NotSupportedException);
    }

    /** JSON-LD is not supported by this store: always throws. */
    method ToJSONLD(out: Writer) returns (r: Outcome<Unsupported>)
      ensures r == Fail(NotSupportedException)
    {
      r := Fail(NotSupportedException);
    }

    /** TriX is not supported by this store: always throws. */
    method ToTrix(out: Writer) returns (r: Outcome<Unsupported>)
      ensures r == Fail(NotSupportedException)
    {
      r := Fail(NotSupportedException);
    }

    /** TriG is not supported by this store: always throws. */
    method ToTrig(out: Writer) returns (r: Outcome<Unsupported>)
      ensures r == Fail(NotSupportedException)
    {
      r := Fail(NotSupportedException);
    }
  }
}
