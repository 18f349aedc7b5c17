/** The ASCII STL loader: a fold over the lines of the file that keeps
    only `vertex` lines yielding three numbers and turns every complete
    group of three such vertices into one triangle. */
module Meshes {
  import opened Wrappers
  import opened Vec
  import opened Triangles

  /** The characters `isspace` accepts in the C locale. */
  predicate IsSpace(ch: char) {
    ch == ' ' || ch == '\t' || ch == '\n' || ch == '\r' || ch == '\U{000B}' || ch == '\U{000C}'
  }

  /** Drops leading whitespace; what remains is empty or starts with a
      non-space. */
  function SkipSpace(s: string): (r: string)
    ensures |r| <= |s| && r == s[|s| - |r|..]
    ensures forall i :: 0 <= i < |s| - |r| ==> IsSpace(s[i])
    ensures r == [] || !IsSpace(r[0])
    decreases |s|
  {
    if |s| > 0 && IsSpace(s[0]) then SkipSpace(s[1..]) else s
  }

  /** A word read from the start of a string and the text after it. */
  datatype Split = Split(token: string, rest: string)

  /** The longest whitespace-free prefix and the remainder, which is empty
      or starts with whitespace. */
  function TakeWord(s: string): (r: Split)
    ensures s == r.token + r.rest
    ensures forall i :: 0 <= i < |r.token| ==> !IsSpace(r.token[i])
    ensures r.rest == [] || IsSpace(r.rest[0])
    decreases |s|
  {
    if |s| == 0 || IsSpace(s[0]) then Split([], s)
    else
      var w := TakeWord(s[1..]);
      Split([s[0]] + w.token, w.rest)
  }

  /** `iss >> token` on a fresh stream over the line: skip whitespace, read
      one word. On a blank line the token stays empty. */
  function FirstToken(line: string): Split {
    TakeWord(SkipSpace(line))
  }

  /** A line made of blanks, one word, and text that is empty or starts
      with a blank has that word as its first token. */
  lemma {:induction false} FirstTokenOfLine(blanks: string, word: string, rest: string)
    requires forall i :: 0 <= i < |blanks| ==> IsSpace(blanks[i])
    requires word != [] && forall i :: 0 <= i < |word| ==> !IsSpace(word[i])
    requires rest == [] || IsSpace(rest[0])
    ensures FirstToken(blanks + word + rest) == Split(word, rest)
  {
    if blanks == [] {
      assert blanks + word + rest == word + rest;
      TakeWordOfWord(word, rest);
    } else {
      assert (blanks + word + rest)[1..] == blanks[1..] + word + rest;
      FirstTokenOfLine(blanks[1..], word, rest);
    }
  }

  lemma {:induction false} TakeWordOfWord(word: string, rest: string)
    requires forall i :: 0 <= i < |word| ==> !IsSpace(word[i])
    requires rest == [] || IsSpace(rest[0])
    ensures TakeWord(word + rest) == Split(word, rest)
    decreases |word|
  {
    if word == [] {
      assert word + rest == rest;
    } else {
      assert (word + rest)[1..] == word[1..] + rest;
      TakeWordOfWord(word[1..], rest);
      assert [word[0]] + word[1..] == word;
    }
  }

  /** One formatted extraction `>>` of a double: the value read and the
      unread input, or `None` when the stream fails. */
  datatype Scan = Scan(value: real, rest: string)

  /** `iss >> x >> y >> z`: three extractions in a row, failing as soon as
      one fails. The extraction itself is a parameter of the model. */
  function ReadVertex(s: string, read: string -> Option<Scan>): Option<Vec3> {
    match read(s)
    case None => None
    case Some(sx) =>
      match read(sx.rest)
      case None => None
      case Some(sy) =>
        match read(sy.rest)
        case None => None
        case Some(sz) => Some(Vec3(sx.value, sy.value, sz.value))
  }

  const VertexKeyword: string := "vertex"

  /** The vertex a line contributes, if any: only a line whose first token
      is exactly `vertex` and that yields three numbers contributes. */
  function LineVertex(line: string, read: string -> Option<Scan>): Option<Vec3> {
    var split := FirstToken(line);
    if split.token == VertexKeyword then ReadVertex(split.rest, read) else None
  }

  /** Indentation before the keyword is skipped, and the keyword must be the
      whole first word: `vertex` lines are read from just after the
      keyword, and any other first word (`facet`, `vertexes`, ...) makes the
      line contribute nothing. */
  lemma LineVertexOfLine(blanks: string, word: string, rest: string, read: string -> Option<Scan>)
    requires forall i :: 0 <= i < |blanks| ==> IsSpace(blanks[i])
    requires word != [] && forall i :: 0 <= i < |word| ==> !IsSpace(word[i])
    requires rest == [] || IsSpace(rest[0])
    ensures LineVertex(blanks + word + rest, read) == if word == VertexKeyword then ReadVertex(rest, read) else None
  {
    FirstTokenOfLine(blanks, word, rest);
  }

  /** A blank line has an empty first token and contributes nothing. */
  lemma BlankLineIgnored(line: string, read: string -> Option<Scan>)
    requires forall i :: 0 <= i < |line| ==> IsSpace(line[i])
    ensures FirstToken(line).token == []
    ensures LineVertex(line, read) == None
  {
  }

  function OptionToSeq(o: Option<Vec3>): (s: seq<Vec3>)
    ensures |s| <= 1
  {
    if o.Some? then [o.value] else []
  }

  /** What `load_ascii_stl` makes of each line, as a function of the line. */
  function VertexOf(read: string -> Option<Scan>): string -> Option<Vec3> {
    line => LineVertex(line, read)
  }

  /** The vertices a run of lines contributes, in order, when each line
      contributes `vertex(line)`: with `VertexOf(read)`, the accepted
      vertices of a file. */
  function Accepted(lines: seq<string>, vertex: string -> Option<Vec3>): (vs: seq<Vec3>)
    ensures |vs| <= |lines|
  {
    if |lines| == 0 then []
    else Accepted(lines[..|lines| - 1], vertex) + OptionToSeq(vertex(lines[|lines| - 1]))
  }

  /** The accepted vertices of two consecutive runs of lines are those of
      the first run followed by those of the second. */
  lemma {:induction false} AcceptedAppend(a: seq<string>, b: seq<string>, vertex: string -> Option<Vec3>)
    ensures Accepted(a + b, vertex) == Accepted(a, vertex) + Accepted(b, vertex)
    decreases |b|
  {
    if |b| == 0 {
      assert a + b == a;
    } else {
      var init := b[..|b| - 1];
      assert (a + b)[..|a + b| - 1] == a + init;
      AcceptedAppend(a, init, vertex);
    }
  }

  /** A line that contributes no vertex (another keyword, a blank line, or a
      `vertex` line that fails to parse) can be removed without changing
      the accepted vertices. */
  lemma IgnoredLineIsIrrelevant(a: seq<string>, line: string, b: seq<string>, vertex: string -> Option<Vec3>)
    requires vertex(line).None?
    ensures Accepted(a + [line] + b, vertex) == Accepted(a + b, vertex)
  {
    assert Accepted([line], vertex) == [] by {
      assert [line][..0] == [];
    }
    AcceptedAppend(a, [line], vertex);
    AcceptedAppend(a + [line], b, vertex);
    AcceptedAppend(a, b, vertex);
  }

  /** When every line contributes a vertex, the accepted vertices are the
      lines' vertices, one per line. */
  lemma {:induction false} AllVertexLinesAccepted(lines: seq<string>, vertex: string -> Option<Vec3>)
    requires forall i :: 0 <= i < |lines| ==> vertex(lines[i]).Some?
    ensures |Accepted(lines, vertex)| == |lines|
    ensures forall i :: 0 <= i < |lines| ==> Accepted(lines, vertex)[i] == vertex(lines[i]).value
    decreases |lines|
  {
    if |lines| > 0 {
      var init := lines[..|lines| - 1];
      AllVertexLinesAccepted(init, vertex);
    }
  }

  /** The three corners one facet's `vertex` lines supply, in file order. */
  datatype Corners = Corners(a: Vec3, b: Vec3, c: Vec3)

  /** Consecutive vertices grouped by three; a trailing group of one or two
      vertices is dropped. */
  function GroupCorners(vs: seq<Vec3>): (cs: seq<Corners>)
    ensures 3 * |cs| <= |vs| < 3 * |cs| + 3
    ensures forall k :: 0 <= k < |cs| ==> cs[k] == Corners(vs[3 * k], vs[3 * k + 1], vs[3 * k + 2])
    decreases |vs|
  {
    if |vs| < 3 then []
    else
      var tail := GroupCorners(vs[3..]);
      var cs := [Corners(vs[0], vs[1], vs[2])] + tail;
      assert forall k :: 1 <= k < |cs| ==> cs[k] == tail[k - 1];
      cs
  }

  /** The grouping is the only sequence with that length and those
      elements. */
  lemma GroupCornersUnique(vs: seq<Vec3>, cs: seq<Corners>)
    requires 3 * |cs| <= |vs| < 3 * |cs| + 3
    requires forall k :: 0 <= k < |cs| ==> cs[k] == Corners(vs[3 * k], vs[3 * k + 1], vs[3 * k + 2])
    ensures GroupCorners(vs) == cs
  {
  }

  /** Dropping the trailing partial group changes nothing. */
  lemma TrailingPartialGroupDropped(vs: seq<Vec3>)
    ensures GroupCorners(vs) == GroupCorners(vs[..3 * |GroupCorners(vs)|])
  {
    var cs := GroupCorners(vs);
    var full := vs[..3 * |cs|];
    forall k | 0 <= k < |cs|
      ensures cs[k] == Corners(full[3 * k], full[3 * k + 1], full[3 * k + 2])
    {
    }
    GroupCornersUnique(full, cs);
  }

  /** One triangle of the given material per group of corners. */
  function Triangulate(cs: seq<Corners>, mat: Material, sqrt: real -> real): (ts: seq<Tri>)
    requires IsSqrt(sqrt)
    ensures |ts| == |cs|
    ensures forall k :: 0 <= k < |ts| ==> ts[k] == MakeTri(cs[k].a, cs[k].b, cs[k].c, mat, sqrt)
    decreases |cs|
  {
    if cs == [] then []
    else [MakeTri(cs[0].a, cs[0].b, cs[0].c, mat, sqrt)] + Triangulate(cs[1..], mat, sqrt)
  }

  /** Emitting one more group appends exactly its triangle. */
  lemma TriangulateAppend(cs: seq<Corners>, c: Corners, mat: Material, sqrt: real -> real)
    requires IsSqrt(sqrt)
    ensures Triangulate(cs + [c], mat, sqrt) == Triangulate(cs, mat, sqrt) + [MakeTri(c.a, c.b, c.c, mat, sqrt)]
  {
    var l, r := Triangulate(cs + [c], mat, sqrt), Triangulate(cs, mat, sqrt) + [MakeTri(c.a, c.b, c.c, mat, sqrt)];
    assert |l| == |r|;
    forall k | 0 <= k < |l|
      ensures l[k] == r[k]
    {
      if k < |cs| {
        assert (cs + [c])[k] == cs[k];
      }
    }
  }

  /** The inverse of the grouping: the corners laid out again one after
      another. */
  function Flatten(cs: seq<Corners>): (vs: seq<Vec3>)
    ensures |vs| == 3 * |cs|
  {
    if |cs| == 0 then []
    else var c := cs[|cs| - 1]; Flatten(cs[..|cs| - 1]) + [c.a, c.b, c.c]
  }

  /** Corner `j` of group `k` sits at position `3k + j`. */
  lemma {:induction false} FlattenIndex(cs: seq<Corners>, k: nat)
    requires k < |cs|
    ensures Flatten(cs)[3 * k] == cs[k].a && Flatten(cs)[3 * k + 1] == cs[k].b && Flatten(cs)[3 * k + 2] == cs[k].c
  {
    if k < |cs| - 1 {
      FlattenIndex(cs[..|cs| - 1], k);
    }
  }

  /** Grouping undoes flattening, whatever partial group follows. */
  lemma GroupFlatten(cs: seq<Corners>, pending: seq<Vec3>)
    requires |pending| < 3
    ensures GroupCorners(Flatten(cs) + pending) == cs
  {
    var vs := Flatten(cs) + pending;
    forall k | 0 <= k < |cs|
      ensures cs[k] == Corners(vs[3 * k], vs[3 * k + 1], vs[3 * k + 2])
    {
      FlattenIndex(cs, k);
    }
    GroupCornersUnique(vs, cs);
  }

  /** The loader's state between two lines: the groups emitted so far and
      the vertices buffered for the next one (`verts[0..v)`). */
  datatype LoadState = LoadState(corners: seq<Corners>, pending: seq<Vec3>)

  /** One pass of the loop body, given what the line contributes: buffer
      the vertex, and when the buffer holds three, emit them and reset. */
  function Step(st: LoadState, o: Option<Vec3>): LoadState {
    match o
    case None => st
    case Some(x) =>
      if |st.pending| == 2 then LoadState(st.corners + [Corners(st.pending[0], st.pending[1], x)], [])
      else LoadState(st.corners, st.pending + [x])
  }

  /** The loader's state after a run of lines. */
  function Run(lines: seq<string>, vertex: string -> Option<Vec3>): LoadState {
    if |lines| == 0 then LoadState([], [])
    else Step(Run(lines[..|lines| - 1], vertex), vertex(lines[|lines| - 1]))
  }

  /** Every step keeps "emitted corners followed by the buffer are the
      accepted vertices so far", and the buffer never reaches three. */
  lemma StepMeaning(st: LoadState, o: Option<Vec3>)
    requires |st.pending| < 3
    ensures |Step(st, o).pending| < 3
    ensures Flatten(st.corners) + st.pending + OptionToSeq(o) == Flatten(Step(st, o).corners) + Step(st, o).pending
  {
    match o
    case None =>
      assert Flatten(st.corners) + st.pending + [] == Flatten(st.corners) + st.pending;
    case Some(x) =>
      if |st.pending| == 2 {
        var c := Corners(st.pending[0], st.pending[1], x);
        assert (st.corners + [c])[..|st.corners|] == st.corners;
        assert Flatten(st.corners + [c]) == Flatten(st.corners) + [c.a, c.b, c.c];
        assert st.pending + [x] == [c.a, c.b, c.c];
      } else {
        assert Flatten(st.corners) + st.pending + [x] == Flatten(st.corners) + (st.pending + [x]);
      }
  }

  /** After any run of lines the emitted corners followed by the buffer
      are exactly the accepted vertices. */
  lemma {:induction false} RunMeaning(lines: seq<string>, vertex: string -> Option<Vec3>)
    ensures |Run(lines, vertex).pending| < 3
    ensures Accepted(lines, vertex) == Flatten(Run(lines, vertex).corners) + Run(lines, vertex).pending
  {
    if |lines| > 0 {
      var init := lines[..|lines| - 1];
      RunMeaning(init, vertex);
      StepMeaning(Run(init, vertex), vertex(lines[|lines| - 1]));
    }
  }

  /** The triangles a list of lines yields: the accepted vertices grouped
      by three, each group one triangle of the mesh's material. */
  function MeshTriangles(lines: seq<string>, read: string -> Option<Scan>, mat: Material, sqrt: real -> real): (ts: seq<Tri>)
    requires IsSqrt(sqrt)
    ensures 3 * |ts| <= |Accepted(lines, VertexOf(read))| < 3 * |ts| + 3
    ensures forall k :: 0 <= k < |ts| ==> ts[k].mat == mat
  {
    Triangulate(GroupCorners(Accepted(lines, VertexOf(read))), mat, sqrt)
  }

  /** The state after line `i` is one step past the state before it. */
  lemma RunSnoc(lines: seq<string>, i: int, vertex: string -> Option<Vec3>)
    requires 0 <= i < |lines|
    ensures Run(lines[..i + 1], vertex) == Step(Run(lines[..i], vertex), vertex(lines[i]))
  {
    assert lines[..i + 1][..i] == lines[..i];
  }

  /** Storing a vertex in slot `v` of the three-slot buffer is one `Step`:
      the buffer's first `v + 1` slots are the pending vertices, or, once all
      three are filled, they form the emitted corner triple. */
  lemma BufferStep(corners: seq<Corners>, verts: seq<Vec3>, v: int, x: Vec3)
    requires |verts| == 3 && 0 <= v < 3
    ensures var filled := verts[v := x];
            Step(LoadState(corners, verts[..v]), Some(x))
            == if v == 2 then LoadState(corners + [Corners(filled[0], filled[1], filled[2])], [])
               else LoadState(corners, filled[..v + 1])
  {
    assert verts[v := x][..v + 1] == verts[..v] + [x];
  }

  /** `load_ascii_stl`: an unopenable file (`None`) gives no triangles;
      otherwise the lines are read in order with a three-slot vertex buffer
      and a counter that stays in 0..2, and a triangle is emitted whenever
      the buffer fills. */
  method LoadAsciiStl(file: Option<seq<string>>, mat: Material, read: string -> Option<Scan>, sqrt: real -> real)
    returns (list: seq<Tri>)
    requires IsSqrt(sqrt)
    ensures file.None? ==> list == []
    ensures file.Some? ==> list == MeshTriangles(file.value, read, mat, sqrt)
  {
    if file.None? {
      return [];
    }
    var lines := file.value;
    list := [];
    ghost var corners: seq<Corners> := [];
    var verts: seq<Vec3> := [Zero, Zero, Zero];
    var v := 0;
    var i := 0;
    while i < |lines|
      invariant 0 <= i <= |lines|
      invariant |verts| == 3 && 0 <= v < 3
      invariant Run(lines[..i], VertexOf(read)) == LoadState(corners, verts[..v])
      invariant list == Triangulate(corners, mat, sqrt)
    {
      var p := LineVertex(lines[i], read);
      RunSnoc(lines, i, VertexOf(read));
      if p.Some? {
        BufferStep(corners, verts, v, p.value);
        verts := verts[v := p.value];
        v := v + 1;
        if v == 3 {
          ghost var c := Corners(verts[0], verts[1], verts[2]);
          TriangulateAppend(corners, c, mat, sqrt);
          corners := corners + [c];
          list := list + [MakeTri(verts[0], verts[1], verts[2], mat, sqrt)];
          v := 0;
        }
      }
      i := i + 1;
    }
    assert lines[..i] == lines;
    RunMeaning(lines, VertexOf(read));
    GroupFlatten(corners, verts[..v]);
  }

  /** A loaded mesh: the triangle list built once by its constructor. */
  datatype Mesh = Mesh(geometry: seq<Tri>)

  function GetGeometry(m: Mesh): seq<Tri> {
    m.geometry
  }

  /** The `mesh` constructor: loads the file once with the given material;
      `get_geometry` then returns that list. */
  method NewMesh(file: Option<seq<string>>, mat: Material, read: string -> Option<Scan>, sqrt: real -> real)
    returns (m: Mesh)
    requires IsSqrt(sqrt)
    ensures file.None? ==> GetGeometry(m) == []
    ensures file.Some? ==> GetGeometry(m) == MeshTriangles(file.value, read, mat, sqrt)
  {
    var list := LoadAsciiStl(file, mat, read, sqrt);
    m := Mesh(list);
  }
}
