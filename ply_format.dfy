/**
 * The ASCII PLY format as the viewer's reader understands it, as pure
 * functions: the vertex and face records, how one data line becomes a record,
 * the header scan, the two counted blocks, normal derivation, and the whole
 * parse of a file given as its sequence of lines.
 *
 * The imperative reader in module PlyLoading is proved to compute exactly
 * these functions.
 */
module PlyFormat {
  import opened Wrappers
  import opened Geometry
  import opened PlyText

  // ---------------------------------------------------------------------------
  // Records

  /**
   * A QColor built from four ints: valid when every channel is in 0..255,
   * otherwise the invalid colour.
   */
  datatype Color = Rgba(r: int, g: int, b: int, a: int) | InvalidColor

  predicate IsChannel(v: int) { 0 <= v <= 255 }

  function MakeColor(r: int, g: int, b: int, a: int): (c: Color)
    ensures c.Rgba? <==> IsChannel(r) && IsChannel(g) && IsChannel(b) && IsChannel(a)
    ensures c.Rgba? ==> c == Rgba(r, g, b, a)
  {
    if IsChannel(r) && IsChannel(g) && IsChannel(b) && IsChannel(a) then Rgba(r, g, b, a)
    else InvalidColor
  }

  /** The default colour of vertices and faces, QColor(128, 128, 128, 255). */
  const Gray: Color := Rgba(128, 128, 128, 255)

  /** PLYVertex. */
  datatype Vertex = Vertex(position: Vec3, normal: Vec3, color: Color, texCoord: Vec2)

  /** PLYFace. */
  datatype Face = Face(indices: seq<int>, color: Color)

  // ---------------------------------------------------------------------------
  // One data line

  /** PLYLoader::parseColor: gray unless three tokens start at `start`; alpha 255 unless a fourth exists. */
  function ParseColor(parts: seq<string>, start: nat): (c: Color)
    ensures |parts| <= start + 2 ==> c == Gray
    ensures |parts| > start + 2 ==>
      c == MakeColor(ParseInt(parts[start]), ParseInt(parts[start + 1]), ParseInt(parts[start + 2]),
                     if |parts| > start + 3 then ParseInt(parts[start + 3]) else 255)
  {
    if start + 2 >= |parts| then Gray
    else
      var a := if start + 3 < |parts| then ParseInt(parts[start + 3]) else 255;
      MakeColor(ParseInt(parts[start]), ParseInt(parts[start + 1]), ParseInt(parts[start + 2]), a)
  }

  /**
   * The vertex a data line with at least 3 tokens describes. The reader walks
   * the tokens with a cursor: position, then a normal if 3 more tokens exist,
   * then a colour if 3 more exist (the cursor then moves by 4), then texture
   * coordinates if 2 more exist. The contract states the outcome by token
   * count alone: which fields are filled never depends on the header.
   */
  function VertexFromTokens(parts: seq<string>): (v: Vertex)
    requires |parts| >= 3
    ensures v.position == Vec3(ParseFloat(parts[0]), ParseFloat(parts[1]), ParseFloat(parts[2]))
    ensures v.normal == if |parts| >= 6 then Vec3(ParseFloat(parts[3]), ParseFloat(parts[4]), ParseFloat(parts[5]))
                        else Zero3
    // a colour is only ever read after a normal, from tokens 6..8 (and 9 for alpha)
    ensures v.color == if |parts| >= 9 then ParseColor(parts, 6) else Gray
    ensures v.texCoord ==
      if |parts| == 5 then Vec2(ParseFloat(parts[3]), ParseFloat(parts[4]))
      else if |parts| == 8 then Vec2(ParseFloat(parts[6]), ParseFloat(parts[7]))
      else if |parts| >= 12 then Vec2(ParseFloat(parts[10]), ParseFloat(parts[11]))
      else Zero2
  {
    var position := Vec3(ParseFloat(parts[0]), ParseFloat(parts[1]), ParseFloat(parts[2]));
    var normalIndex := 3;
    var hasNormal := normalIndex + 2 < |parts|;
    var normal := if hasNormal then Vec3(ParseFloat(parts[3]), ParseFloat(parts[4]), ParseFloat(parts[5]))
                  else Zero3;
    var colorIndex := if hasNormal then normalIndex + 3 else normalIndex;
    var hasColor := colorIndex + 2 < |parts|;
    var color := if hasColor then ParseColor(parts, colorIndex) else Gray;
    var texIndex := if hasColor then colorIndex + 4 else colorIndex;
    var tex := if texIndex + 1 < |parts| then Vec2(ParseFloat(parts[texIndex]), ParseFloat(parts[texIndex + 1]))
               else Zero2;
    Vertex(position, normal, color, tex)
  }

  /** The vertex count a face line declares: its first token. */
  function FaceArity(parts: seq<string>): int
    requires |parts| >= 1
  {
    ParseInt(parts[0])
  }

  /** The k indices that follow the count token. */
  function FaceIndices(parts: seq<string>, k: nat): (indices: seq<int>)
    requires 1 + k <= |parts|
    ensures |indices| == k && forall j :: 0 <= j < k ==> indices[j] == ParseInt(parts[1 + j])
  {
    seq(k, j requires 0 <= j < k => ParseInt(parts[1 + j]))
  }

  /**
   * The colour test `parts.size() >= 1 + k + 3` holds although 1 + k is
   * negative, so parseColor would read `parts[1 + k]`, before the first
   * token: k <= -3, or k = -2 on a line of at least two tokens.
   */
  predicate ColorReadBeforeFirstToken(parts: seq<string>)
    requires |parts| >= 1
  {
    var k := FaceArity(parts);
    1 + k < 0 && |parts| >= 1 + k + 3
  }

  /**
   * The face a data line describes: its first token k, then the next k tokens
   * as indices (none when k <= 0; no range check, no k >= 3 check), then a
   * colour when 3 more tokens exist. A line with fewer than 1 + k tokens is
   * rejected, as the reader rejects it, and so is a line on which the reader
   * would read before the first token (see FaceGuardAsWritten for the
   * unchecked original). Every other line, a negative k included, gives a face.
   */
  function FaceFromTokens(parts: seq<string>): (r: Option<Face>)
    ensures r.Some? <==> |parts| >= 1 && 1 + FaceArity(parts) <= |parts| && !ColorReadBeforeFirstToken(parts)
    ensures r.Some? ==>
      var k := FaceArity(parts);
      && |r.value.indices| == (if k < 0 then 0 else k)
      && (forall j :: 0 <= j < |r.value.indices| ==> r.value.indices[j] == ParseInt(parts[1 + j]))
      && r.value.color == if 0 <= 1 + k && |parts| >= 1 + k + 3 then ParseColor(parts, 1 + k) else Gray
  {
    if |parts| < 1 then None
    else
      var k := FaceArity(parts);
      if |parts| < 1 + k then None
      else if ColorReadBeforeFirstToken(parts) then None
      else
        var indices := FaceIndices(parts, if k < 0 then 0 else k);
        var color := if |parts| >= 1 + k + 3 then ParseColor(parts, 1 + k) else Gray;
        Some(Face(indices, color))
  }

  /** An accepted face line gives the face built from its indices and its colour. */
  lemma FaceLineResult(parts: seq<string>, indices: seq<int>, color: Color)
    requires |parts| >= 1 && 1 + FaceArity(parts) <= |parts| && !ColorReadBeforeFirstToken(parts)
    requires indices == FaceIndices(parts, if FaceArity(parts) < 0 then 0 else FaceArity(parts))
    requires color == if |parts| >= 1 + FaceArity(parts) + 3 then ParseColor(parts, 1 + FaceArity(parts)) else Gray
    ensures FaceFromTokens(parts) == Some(Face(indices, color))
  {
  }

  /** Lines with a negative count that the reader loads as faces without indices. */
  lemma NegativeArityFaces()
    ensures FaceFromTokens(["-1"]) == Some(Face([], Gray))
    ensures FaceFromTokens(["-2"]) == Some(Face([], Gray))
    ensures FaceFromTokens(["-1", "7", "7"]) == Some(Face([], InvalidColor))
  {
    ParseIntOfText(-1, "-1");
    ParseIntOfText(-2, "-2");
    ParseIntOfText(7, "7");
  }

  // ---------------------------------------------------------------------------
  // The face guard as the source writes it (32-bit int arithmetic, no sign check)

  /**
   * The 32-bit int a sum of two ints yields on two's-complement hardware: a
   * sum outside the range wraps around (once, since both terms are ints).
   */
  function Wrap32(n: int): (w: int)
    requires 2 * IntMin <= n <= 2 * IntMax
    ensures InIntRange(w)
    ensures InIntRange(n) ==> w == n
    ensures w == n || w == n - 0x1_0000_0000 || w == n + 0x1_0000_0000
  {
    if n > IntMax then n - 0x1_0000_0000 else if n < IntMin then n + 0x1_0000_0000 else n
  }

  /** `parts.size() < 1 + vertexCount` does not reject the line. */
  predicate FaceGuardAsWritten(parts: seq<string>)
    requires |parts| >= 1
  {
    !(|parts| < Wrap32(1 + FaceArity(parts)))
  }

  /** `parts.size() >= 1 + vertexCount + 3`: the colour is read, from index 1 + vertexCount. */
  predicate FaceColorReadAsWritten(parts: seq<string>)
    requires |parts| >= 1
  {
    |parts| >= Wrap32(Wrap32(1 + FaceArity(parts)) + 3)
  }

  /** Finding: the line "-3" passes both guards, and the colour is read from index -2. */
  lemma NegativeArityReadsBeforeFirstToken()
    ensures FaceGuardAsWritten(["-3"]) && FaceColorReadAsWritten(["-3"])
    ensures Wrap32(1 + FaceArity(["-3"])) == -2
    ensures ColorReadBeforeFirstToken(["-3"]) && FaceFromTokens(["-3"]).None?
  {
    ParseIntOfText(-3, "-3");
  }

  /** Finding: the line "2147483647" passes the guard (1 + k wraps to INT_MIN) though index 1 does not exist. */
  lemma MaxArityOverflowsGuard()
    ensures FaceArity(["2147483647"]) == IntMax && |["2147483647"]| == 1
    ensures Wrap32(1 + IntMax) == IntMin
    ensures FaceGuardAsWritten(["2147483647"])
    ensures FaceFromTokens(["2147483647"]).None?
  {
    IntMaxText();
    ParseIntOfText(IntMax, "2147483647");
  }

  /**
   * Away from the overflow at k = INT_MAX, the corrected rule accepts exactly
   * the lines the written guard lets through and on which the written colour
   * test does not send parseColor before the first token.
   */
  lemma FaceRuleAgreesWithWrittenGuards(parts: seq<string>)
    requires |parts| >= 1 && FaceArity(parts) < IntMax
    ensures FaceFromTokens(parts).Some? <==>
              FaceGuardAsWritten(parts) && !(FaceColorReadAsWritten(parts) && 1 + FaceArity(parts) < 0)
  {
    var k := FaceArity(parts);
    assert Wrap32(1 + k) == 1 + k;
    if 1 + k < 0 {
      assert Wrap32(1 + k + 3) == 1 + k + 3;
    }
  }

  lemma IntMaxText()
    ensures IntToString(IntMax) == "2147483647"
  {
    assert NatToString(2) == "2";
    assert NatToString(21) == "21";
    assert NatToString(214) == "214";
    assert NatToString(2147) == "2147";
    assert NatToString(21474) == "21474";
    assert NatToString(214748) == "214748";
    assert NatToString(2147483) == "2147483";
    assert NatToString(21474836) == "21474836";
    assert NatToString(214748364) == "214748364";
  }

  /** The text of a 32-bit integer converts back to it. */
  lemma ParseIntOfText(n: int, text: string)
    requires InIntRange(n) && text == IntToString(n)
    ensures ParseInt(text) == n
  {
    IntRoundTrip(n);
  }

  // ---------------------------------------------------------------------------
  // Header

  datatype Header = Header(vertexCount: int, faceCount: int, hasNormals: bool, hasColors: bool, hasTexCoords: bool)

  const EmptyHeader: Header := Header(0, 0, false, false, false)

  /** What one trimmed header line is, in the order the reader tests it. */
  datatype HeaderLine =
    | VertexElement(count: int)
    | FaceElement(count: int)
    | PropertyDecl(name: Option<string>)
    | EndHeader
    | Ignored

  function Last(parts: seq<string>): string
    requires |parts| >= 1
  {
    parts[|parts| - 1]
  }

  function ClassifyHeaderLine(line: string): (l: HeaderLine)
    ensures l.VertexElement? <==> StartsWith(line, "element vertex")
    ensures l.FaceElement? <==> StartsWith(line, "element face")
    ensures l.PropertyDecl? <==> StartsWith(line, "property")
    ensures l == EndHeader <==> line == "end_header"
    ensures l.VertexElement? || l.FaceElement? ==> l.count == ParseInt(Last(SplitSpace(line)))
    ensures l.PropertyDecl? ==> (l.name.Some? <==> |SplitSpace(line)| >= 3)
  {
    StartsWithExclusive(line, "element vertex", "element face", 8);
    if StartsWith(line, "element vertex") then VertexElement(ParseInt(Last(SplitSpace(line))))
    else if StartsWith(line, "element face") then FaceElement(ParseInt(Last(SplitSpace(line))))
    else if StartsWith(line, "property") then
      var parts := SplitSpace(line);
      PropertyDecl(if |parts| >= 3 then Some(parts[2]) else None)
    else if line == "end_header" then EndHeader
    else Ignored
  }

  predicate IsNormalName(n: string) { n == "nx" || n == "ny" || n == "nz" }
  predicate IsColorName(n: string) { n == "red" || n == "green" || n == "blue" || n == "alpha" }
  predicate IsTexCoordName(n: string) { n == "s" || n == "t" }

  function ApplyHeaderLine(h: Header, l: HeaderLine): (r: Header)
    ensures r.vertexCount == if l.VertexElement? then l.count else h.vertexCount
    ensures r.faceCount == if l.FaceElement? then l.count else h.faceCount
    ensures h.hasNormals ==> r.hasNormals
    ensures h.hasColors ==> r.hasColors
    ensures h.hasTexCoords ==> r.hasTexCoords
  {
    match l
    case VertexElement(n) => h.(vertexCount := n)
    case FaceElement(n) => h.(faceCount := n)
    case PropertyDecl(Some(name)) =>
      if IsNormalName(name) then h.(hasNormals := true)
      else if IsColorName(name) then h.(hasColors := true)
      else if IsTexCoordName(name) then h.(hasTexCoords := true)
      else h
    case _ => h
  }

  /**
   * Every line of the file, trimmed and classified. The scan and its lemmas
   * below work on these classified lines, so they hold whatever the text.
   */
  function HeaderLines(lines: seq<string>): (ls: seq<HeaderLine>)
    ensures |ls| == |lines|
  {
    if lines == [] then []
    else HeaderLines(lines[..|lines| - 1]) + [ClassifyHeaderLine(Trim(lines[|lines| - 1]))]
  }

  /** Classified line q is line q, trimmed and classified. */
  lemma {:induction false} HeaderLinesAt(lines: seq<string>, q: nat)
    requires q < |lines|
    ensures HeaderLines(lines)[q] == ClassifyHeaderLine(Trim(lines[q]))
    decreases |lines|
  {
    if q < |lines| - 1 {
      var init := lines[..|lines| - 1];
      HeaderLinesAt(init, q);
      assert init[q] == lines[q];
    }
  }

  datatype HeaderScan = HeaderScan(header: Header, next: nat)

  /** The header loop from line `p`: apply each trimmed line until `end_header` or the end of the file. */
  function ScanHeader(ls: seq<HeaderLine>, p: nat, h: Header): (s: HeaderScan)
    ensures p <= s.next
    decreases |ls| - p
  {
    if p >= |ls| then HeaderScan(h, p)
    else
      var l := ls[p];
      if l == EndHeader then HeaderScan(h, p + 1)
      else ScanHeader(ls, p + 1, ApplyHeaderLine(h, l))
  }

  /** The index of the first `end_header` line from `p`, or the end of the file. */
  function HeaderEnd(ls: seq<HeaderLine>, p: nat): (e: nat)
    ensures p <= e
    ensures e < |ls| ==> ls[e] == EndHeader
    ensures forall q :: p <= q < e && q < |ls| ==> ls[q] != EndHeader
    decreases |ls| - p
  {
    if p >= |ls| || ls[p] == EndHeader then p
    else HeaderEnd(ls, p + 1)
  }

  /** The three header flags. */
  datatype Flag = Normals | Colors | TexCoords

  function FlagOf(f: Flag, h: Header): bool {
    match f
    case Normals => h.hasNormals
    case Colors => h.hasColors
    case TexCoords => h.hasTexCoords
  }

  /** A `property` line naming a component of the flag's group. */
  predicate Declares(f: Flag, l: HeaderLine) {
    && l.PropertyDecl? && l.name.Some?
    && match f
       case Normals => IsNormalName(l.name.value)
       case Colors => IsColorName(l.name.value)
       case TexCoords => IsTexCoordName(l.name.value)
  }

  lemma ApplyHeaderLineFlag(h: Header, l: HeaderLine, f: Flag)
    ensures FlagOf(f, ApplyHeaderLine(h, l)) == (FlagOf(f, h) || Declares(f, l))
  {
  }

  /** The scan stops just after the first `end_header`; a file with none is still scanned to its end. */
  lemma {:induction false} ScanHeaderStops(ls: seq<HeaderLine>, p: nat, h: Header)
    requires p <= |ls|
    ensures var e := HeaderEnd(ls, p);
            ScanHeader(ls, p, h).next == if e < |ls| then e + 1 else |ls|
    decreases |ls| - p
  {
    if p < |ls| && ls[p] != EndHeader {
      ScanHeaderStops(ls, p + 1, ApplyHeaderLine(h, ls[p]));
    }
  }

  /** Some line in [a, e) is a `property` line naming a component of the flag's group. */
  predicate DeclaredIn(f: Flag, ls: seq<HeaderLine>, a: nat, e: nat) {
    exists q :: a <= q < e && q < |ls| && Declares(f, ls[q])
  }

  lemma DeclaredInStep(f: Flag, ls: seq<HeaderLine>, p: nat, e: nat)
    requires p < e && p < |ls|
    ensures DeclaredIn(f, ls, p, e) <==> Declares(f, ls[p]) || DeclaredIn(f, ls, p + 1, e)
  {
    if DeclaredIn(f, ls, p, e) {
      var q :| p <= q < e && q < |ls| && Declares(f, ls[q]);
      if q > p {
        assert p + 1 <= q < e;
      }
    }
  }

  /** A flag is set exactly when some `property` line before `end_header` names one of its components. */
  lemma {:induction false} ScanHeaderFlag(ls: seq<HeaderLine>, p: nat, h: Header, f: Flag)
    ensures FlagOf(f, ScanHeader(ls, p, h).header) <==> FlagOf(f, h) || DeclaredIn(f, ls, p, HeaderEnd(ls, p))
    decreases |ls| - p
  {
    if p < |ls| && ls[p] != EndHeader {
      var l := ls[p];
      ScanHeaderFlag(ls, p + 1, ApplyHeaderLine(h, l), f);
      ApplyHeaderLineFlag(h, l, f);
      var e := HeaderEnd(ls, p);
      assert e == HeaderEnd(ls, p + 1);
      DeclaredInStep(f, ls, p, e);
    }
  }

  /** The two element counts of the header. */
  datatype CountKind = VertexCount | FaceCount

  function CountOf(k: CountKind, h: Header): int {
    match k
    case VertexCount => h.vertexCount
    case FaceCount => h.faceCount
  }

  /** The count an `element vertex` / `element face` line declares, if line q is one. */
  function Declared(k: CountKind, ls: seq<HeaderLine>, q: nat): Option<int>
    requires q < |ls|
  {
    match (k, ls[q])
    case (VertexCount, VertexElement(n)) => Some(n)
    case (FaceCount, FaceElement(n)) => Some(n)
    case _ => None
  }

  lemma ApplyHeaderLineCount(ls: seq<HeaderLine>, q: nat, h: Header, k: CountKind)
    requires q < |ls|
    ensures Declared(k, ls, q).None? ==> CountOf(k, ApplyHeaderLine(h, ls[q])) == CountOf(k, h)
    ensures Declared(k, ls, q).Some? ==> CountOf(k, ApplyHeaderLine(h, ls[q])) == Declared(k, ls, q).value
  {
  }

  /** No line in [a, e) declares the count. */
  predicate NoDeclaration(k: CountKind, ls: seq<HeaderLine>, a: nat, e: nat) {
    forall q :: a <= q < e && q < |ls| ==> Declared(k, ls, q).None?
  }

  /** With no declaration before `end_header`, the count keeps its initial value. */
  lemma {:induction false} ScanHeaderUndeclared(ls: seq<HeaderLine>, p: nat, h: Header, k: CountKind)
    requires NoDeclaration(k, ls, p, HeaderEnd(ls, p))
    ensures CountOf(k, ScanHeader(ls, p, h).header) == CountOf(k, h)
    decreases |ls| - p
  {
    if p < |ls| && ls[p] != EndHeader {
      var l := ls[p];
      ApplyHeaderLineCount(ls, p, h, k);
      assert HeaderEnd(ls, p) == HeaderEnd(ls, p + 1);
      ScanHeaderUndeclared(ls, p + 1, ApplyHeaderLine(h, l), k);
    }
  }

  /** The last declaration before `end_header` sets the count. */
  lemma {:induction false} ScanHeaderLastDeclared(ls: seq<HeaderLine>, p: nat, h: Header, k: CountKind, q: nat)
    requires p <= q < HeaderEnd(ls, p) && q < |ls| && Declared(k, ls, q).Some?
    requires NoDeclaration(k, ls, q + 1, HeaderEnd(ls, p))
    ensures CountOf(k, ScanHeader(ls, p, h).header) == Declared(k, ls, q).value
    decreases |ls| - p
  {
    var l := ls[p];
    assert l != EndHeader;
    assert HeaderEnd(ls, p) == HeaderEnd(ls, p + 1);
    ApplyHeaderLineCount(ls, p, h, k);
    if q == p {
      ScanHeaderUndeclared(ls, p + 1, ApplyHeaderLine(h, l), k);
    } else {
      ScanHeaderLastDeclared(ls, p + 1, ApplyHeaderLine(h, l), k, q);
    }
  }

  // ---------------------------------------------------------------------------
  // Counted blocks

  /** The records a block produced before it stopped, and whether it completed. */
  datatype Block<T> = Block(items: seq<T>, ok: bool)

  /** The line at index i, or the empty string once the file is exhausted (QTextStream::readLine). */
  function LineAt(lines: seq<string>, i: nat): string {
    if i < |lines| then lines[i] else ""
  }

  function Count(n: int): nat { if n > 0 then n else 0 }

  /**
   * A counted loop over the lines: `n` records from line `p`, where
   * `record(q)` is the record line q gives, or None when the loop must stop
   * there (the file is exhausted or the line is unusable).
   */
  function ReadBlock<T>(record: nat -> Option<T>, p: nat, n: int): Block<T>
    decreases Count(n)
  {
    if n <= 0 then Block([], true)
    else
      match record(p)
      case None => Block([], false)
      case Some(x) =>
        var rest := ReadBlock(record, p + 1, n - 1);
        Block([x] + rest.items, rest.ok)
  }

  /** Every line from p to p + n - 1 gives a record. */
  predicate AllRecords<T>(record: nat -> Option<T>, p: nat, n: int) {
    forall q: nat :: p <= q < p + n ==> record(q).Some?
  }

  /**
   * A block completes exactly when every line it needs gives a record, and
   * then holds exactly n records; record i always comes from line p + i, and
   * a block that stops early stops at the first line that gives none.
   */
  lemma {:induction false} ReadBlockSpec<T>(record: nat -> Option<T>, p: nat, n: int)
    ensures ReadBlock(record, p, n).ok <==> AllRecords(record, p, n)
    ensures ReadBlock(record, p, n).ok ==> |ReadBlock(record, p, n).items| == Count(n)
    ensures |ReadBlock(record, p, n).items| <= Count(n)
    ensures forall i :: 0 <= i < |ReadBlock(record, p, n).items| ==>
              record(p + i) == Some(ReadBlock(record, p, n).items[i])
    ensures !ReadBlock(record, p, n).ok ==> record(p + |ReadBlock(record, p, n).items|).None?
    decreases Count(n)
  {
    var b := ReadBlock(record, p, n);
    if n > 0 && record(p).Some? {
      ReadBlockSpec(record, p + 1, n - 1);
      var rest := ReadBlock(record, p + 1, n - 1);
      assert b.items == [record(p).value] + rest.items;
      forall i | 0 <= i < |b.items| ensures record(p + i) == Some(b.items[i]) {
        if i > 0 {
          assert b.items[i] == rest.items[i - 1];
          assert (p + 1) + (i - 1) == p + i;
        }
      }
      if AllRecords(record, p + 1, n - 1) {
        forall q: nat | p <= q < p + n ensures record(q).Some? {
          if q > p { assert p + 1 <= q < (p + 1) + (n - 1); }
        }
      }
    } else if n > 0 {
      assert !AllRecords(record, p, n) by {
        assert record(p).None?;
      }
    }
  }

  /** ReadBlockSpec's placement of the records, indexed by line. */
  lemma ReadBlockLines<T>(record: nat -> Option<T>, p: nat, n: int)
    ensures forall q: nat :: p <= q < p + |ReadBlock(record, p, n).items| ==>
              record(q) == Some(ReadBlock(record, p, n).items[q - p])
  {
    ReadBlockSpec(record, p, n);
    var b := ReadBlock(record, p, n);
    forall q: nat | p <= q < p + |b.items|
      ensures record(q) == Some(b.items[q - p])
    {
      assert record(p + (q - p)) == Some(b.items[q - p]);
    }
  }

  /**
   * A block reader that has read the first i records of its block looks at
   * line q = p + i: if that line gives no record, the block ends there, failed.
   */
  lemma BlockStop<T>(record: nat -> Option<T>, p: nat, n: int, i: nat, q: nat)
    requires q == p + i && i < Count(n) && i <= |ReadBlock(record, p, n).items|
    requires record(q).None?
    ensures ReadBlock(record, p, n) == Block(ReadBlock(record, p, n).items[..i], false)
  {
    ReadBlockSpec(record, p, n);
    ReadBlockLines(record, p, n);
    var b := ReadBlock(record, p, n);
    assert |b.items| <= i;
    assert !b.ok;
    assert b.items[..i] == b.items;
  }

  /** Otherwise the record that line gives is the next item of the block. */
  lemma BlockNext<T>(record: nat -> Option<T>, p: nat, n: int, i: nat, q: nat, x: T)
    requires q == p + i && i < Count(n) && i <= |ReadBlock(record, p, n).items|
    requires record(q) == Some(x)
    ensures i < |ReadBlock(record, p, n).items|
    ensures ReadBlock(record, p, n).items[..i + 1] == ReadBlock(record, p, n).items[..i] + [x]
  {
    ReadBlockSpec(record, p, n);
    var b := ReadBlock(record, p, n);
    assert !b.ok ==> record(p + |b.items|).None?;
    assert b.ok ==> |b.items| == Count(n);
    assert i < |b.items| ==> record(p + i) == Some(b.items[i]);
    assert b.items[..i + 1] == b.items[..i] + [b.items[i]];
  }

  /** A block reader that has read Count(n) records has read the whole block, which completed. */
  lemma BlockEnd<T>(record: nat -> Option<T>, p: nat, n: int)
    requires Count(n) <= |ReadBlock(record, p, n).items|
    ensures ReadBlock(record, p, n) == Block(ReadBlock(record, p, n).items[..Count(n)], true)
  {
    ReadBlockSpec(record, p, n);
    var b := ReadBlock(record, p, n);
    assert b.items[..Count(n)] == b.items;
    assert AllRecords(record, p, n) by {
      forall q: nat | p <= q < p + n
        ensures record(q).Some?
      {
        assert record(p + (q - p)) == Some(b.items[q - p]);
      }
    }
  }

  /** The vertex line q describes: it must exist and have at least 3 tokens. */
  function VertexOfLine(lines: seq<string>, q: nat): Option<Vertex> {
    if q < |lines| && |Tokens(lines[q])| >= 3 then Some(VertexFromTokens(Tokens(lines[q]))) else None
  }

  /** The face line q describes: it must exist and FaceFromTokens must accept it. */
  function FaceOfLine(lines: seq<string>, q: nat): Option<Face> {
    if q < |lines| then FaceFromTokens(Tokens(lines[q])) else None
  }

  function VertexReader(lines: seq<string>): nat -> Option<Vertex> {
    (q: nat) => VertexOfLine(lines, q)
  }

  function FaceReader(lines: seq<string>): nat -> Option<Face> {
    (q: nat) => FaceOfLine(lines, q)
  }

  /** The vertex reader gives nothing for a missing line or one of fewer than 3 tokens. */
  lemma VertexLineRejected(lines: seq<string>, q: nat)
    requires q >= |lines| || |Tokens(lines[q])| < 3
    ensures VertexReader(lines)(q).None?
  {
  }

  /** The vertex reader gives the vertex of a line of at least 3 tokens. */
  lemma VertexLineAccepted(lines: seq<string>, q: nat)
    requires q < |lines| && |Tokens(lines[q])| >= 3
    ensures VertexReader(lines)(q) == Some(VertexFromTokens(Tokens(lines[q])))
  {
  }

  /** The face reader gives nothing for a missing line or one FaceFromTokens rejects. */
  lemma FaceLineRejected(lines: seq<string>, q: nat)
    requires q >= |lines| || FaceFromTokens(Tokens(lines[q])).None?
    ensures FaceReader(lines)(q).None?
  {
  }

  /** The face reader gives the face FaceFromTokens accepts. */
  lemma FaceLineAccepted(lines: seq<string>, q: nat, face: Face)
    requires q < |lines| && FaceFromTokens(Tokens(lines[q])) == Some(face)
    ensures FaceReader(lines)(q) == Some(face)
  {
  }

  /** The vertex loop: `n` lines from `p`, stopping at the end of the file or at a line of fewer than 3 tokens. */
  function VertexBlock(lines: seq<string>, p: nat, n: int): Block<Vertex> {
    ReadBlock(VertexReader(lines), p, n)
  }

  /** The face loop: `n` lines from `p`, stopping at the end of the file or at a line FaceFromTokens rejects. */
  function FaceBlock(lines: seq<string>, p: nat, n: int): Block<Face> {
    ReadBlock(FaceReader(lines), p, n)
  }

  /** Line q = p + i of the vertex block, read after i vertices: fewer than 3 tokens, or no line, ends the block. */
  lemma VertexBlockStop(lines: seq<string>, p: nat, n: int, i: nat, q: nat)
    requires q == p + i && i < Count(n) && i <= |VertexBlock(lines, p, n).items|
    requires q >= |lines| || |Tokens(lines[q])| < 3
    ensures VertexBlock(lines, p, n) == Block(VertexBlock(lines, p, n).items[..i], false)
  {
    VertexLineRejected(lines, q);
    BlockStop(VertexReader(lines), p, n, i, q);
  }

  /** Line q = p + i of the vertex block, read after i vertices, with at least 3 tokens: its vertex is the next item. */
  lemma VertexBlockNext(lines: seq<string>, p: nat, n: int, i: nat, q: nat)
    requires q == p + i && i < Count(n) && i <= |VertexBlock(lines, p, n).items|
    requires q < |lines| && |Tokens(lines[q])| >= 3
    ensures i < |VertexBlock(lines, p, n).items|
    ensures VertexBlock(lines, p, n).items[..i + 1]
         == VertexBlock(lines, p, n).items[..i] + [VertexFromTokens(Tokens(lines[q]))]
  {
    VertexLineAccepted(lines, q);
    BlockNext(VertexReader(lines), p, n, i, q, VertexFromTokens(Tokens(lines[q])));
  }

  /** Line q = p + i of the face block, read after i faces: a rejected line, or no line, ends the block. */
  lemma FaceBlockStop(lines: seq<string>, p: nat, n: int, i: nat, q: nat)
    requires q == p + i && i < Count(n) && i <= |FaceBlock(lines, p, n).items|
    requires q >= |lines| || FaceFromTokens(Tokens(lines[q])).None?
    ensures FaceBlock(lines, p, n) == Block(FaceBlock(lines, p, n).items[..i], false)
  {
    FaceLineRejected(lines, q);
    BlockStop(FaceReader(lines), p, n, i, q);
  }

  /** Line q = p + i of the face block, read after i faces, giving a face: that face is the next item. */
  lemma FaceBlockNext(lines: seq<string>, p: nat, n: int, i: nat, q: nat, face: Face)
    requires q == p + i && i < Count(n) && i <= |FaceBlock(lines, p, n).items|
    requires q < |lines| && FaceFromTokens(Tokens(lines[q])) == Some(face)
    ensures i < |FaceBlock(lines, p, n).items|
    ensures FaceBlock(lines, p, n).items[..i + 1] == FaceBlock(lines, p, n).items[..i] + [face]
  {
    FaceLineAccepted(lines, q, face);
    BlockNext(FaceReader(lines), p, n, i, q, face);
  }

  /** After Count(n) vertices the vertex block is complete. */
  lemma VertexBlockEnd(lines: seq<string>, p: nat, n: int)
    requires Count(n) <= |VertexBlock(lines, p, n).items|
    ensures VertexBlock(lines, p, n) == Block(VertexBlock(lines, p, n).items[..Count(n)], true)
  {
    BlockEnd(VertexReader(lines), p, n);
  }

  /** After Count(n) faces the face block is complete. */
  lemma FaceBlockEnd(lines: seq<string>, p: nat, n: int)
    requires Count(n) <= |FaceBlock(lines, p, n).items|
    ensures FaceBlock(lines, p, n) == Block(FaceBlock(lines, p, n).items[..Count(n)], true)
  {
    BlockEnd(FaceReader(lines), p, n);
  }


  // ---------------------------------------------------------------------------
  // Normal derivation

  function Positions(vs: seq<Vertex>): (ps: seq<Vec3>)
    ensures |ps| == |vs| && forall i :: 0 <= i < |vs| ==> ps[i] == vs[i].position
  {
    seq(|vs|, i requires 0 <= i < |vs| => vs[i].position)
  }

  /** Every index of a face of at least 3 indices names one of `n` vertices. */
  predicate FaceInRange(f: Face, n: int) {
    |f.indices| >= 3 ==> forall j :: 0 <= j < |f.indices| ==> 0 <= f.indices[j] < n
  }

  predicate FacesInRange(faces: seq<Face>, n: int) {
    forall i :: 0 <= i < |faces| ==> FaceInRange(faces[i], n)
  }

  predicate IndicesBelow(idx: seq<int>, n: int) {
    forall j :: 0 <= j < |idx| ==> 0 <= idx[j] < n
  }

  /** The unit normal of a face from its first three positions: normalize(cross(v1 - v0, v2 - v0)). */
  function FaceNormal(ps: seq<Vec3>, idx: seq<int>): Vec3
    requires |idx| >= 3 && IndicesBelow(idx, |ps|)
  {
    var v0, v1, v2 := ps[idx[0]], ps[idx[1]], ps[idx[2]];
    Normalized(Cross(Sub(v1, v0), Sub(v2, v0)))
  }

  /**
   * The face normal is the normalisation of a direction orthogonal to both
   * edges from the first listed position, and only the first three indices
   * matter.
   */
  lemma FaceNormalSpec(ps: seq<Vec3>, idx: seq<int>)
    requires |idx| >= 3 && IndicesBelow(idx, |ps|)
    ensures var v0, v1, v2 := ps[idx[0]], ps[idx[1]], ps[idx[2]];
            exists d :: FaceNormal(ps, idx) == Normalized(d) && Dot(d, Sub(v1, v0)) == 0.0 && Dot(d, Sub(v2, v0)) == 0.0
    ensures FaceNormal(ps, idx) == FaceNormal(ps, idx[..3])
  {
    var v0, v1, v2 := ps[idx[0]], ps[idx[1]], ps[idx[2]];
    CrossOrthogonal(Sub(v1, v0), Sub(v2, v0));
    assert FaceNormal(ps, idx) == Normalized(Cross(Sub(v1, v0), Sub(v2, v0)));
  }

  /** Adds `v` to the normal of every listed vertex, in list order (a repeated index adds twice). */
  function AddToEach(ns: seq<Vec3>, idx: seq<int>, v: Vec3): (r: seq<Vec3>)
    requires IndicesBelow(idx, |ns|)
    ensures |r| == |ns|
  {
    if idx == [] then ns
    else
      var acc := AddToEach(ns, idx[..|idx| - 1], v);
      var i := idx[|idx| - 1];
      acc[i := Add(acc[i], v)]
  }

  /** The accumulation loop of calculateNormals over the faces, in order; faces of fewer than 3 indices are skipped. */
  function AccumulateFaces(ps: seq<Vec3>, ns: seq<Vec3>, faces: seq<Face>): (r: seq<Vec3>)
    requires |ns| == |ps| && FacesInRange(faces, |ps|)
    ensures |r| == |ns|
  {
    if faces == [] then ns
    else
      var acc := AccumulateFaces(ps, ns, faces[..|faces| - 1]);
      var f := faces[|faces| - 1];
      assert FaceInRange(f, |ps|);
      if |f.indices| < 3 then acc else AddToEach(acc, f.indices, FaceNormal(ps, f.indices))
  }

  function Zeros(n: nat): (z: seq<Vec3>)
    ensures |z| == n && forall i :: 0 <= i < n ==> z[i] == Zero3
  {
    seq(n, i => Zero3)
  }

  /** The normals calculateNormals leaves: each accumulated sum, normalised. */
  function DerivedNormals(vs: seq<Vertex>, faces: seq<Face>): (ns: seq<Vec3>)
    requires FacesInRange(faces, |vs|)
    ensures |ns| == |vs|
  {
    var acc := AccumulateFaces(Positions(vs), Zeros(|vs|), faces);
    seq(|vs|, i requires 0 <= i < |vs| => Normalized(acc[i]))
  }

  /** The vertices with their normals replaced, everything else kept. */
  function WithNormals(vs: seq<Vertex>, ns: seq<Vec3>): (r: seq<Vertex>)
    requires |ns| == |vs|
    ensures |r| == |vs|
    ensures forall i :: 0 <= i < |vs| ==> r[i] == vs[i].(normal := ns[i])
  {
    seq(|vs|, i requires 0 <= i < |vs| => vs[i].(normal := ns[i]))
  }

  // Reference definition: the normal sum of a vertex, face by face.

  /** How many times `v` occurs in `idx`. */
  function Occurrences(idx: seq<int>, v: int): nat {
    if idx == [] then 0
    else Occurrences(idx[..|idx| - 1], v) + (if idx[|idx| - 1] == v then 1 else 0)
  }

  /** The sum, over every face of at least 3 indices, of its normal times the number of times it lists vertex v. */
  function NormalSum(ps: seq<Vec3>, faces: seq<Face>, v: int): Vec3
    requires FacesInRange(faces, |ps|)
  {
    if faces == [] then Zero3
    else
      var f := faces[|faces| - 1];
      var before := NormalSum(ps, faces[..|faces| - 1], v);
      assert FaceInRange(f, |ps|);
      if |f.indices| < 3 then before
      else Add(before, Scale(FaceNormal(ps, f.indices), Occurrences(f.indices, v) as real))
  }

  lemma {:induction false} AddToEachAt(ns: seq<Vec3>, idx: seq<int>, w: Vec3, i: int)
    requires IndicesBelow(idx, |ns|) && 0 <= i < |ns|
    ensures AddToEach(ns, idx, w)[i] == Add(ns[i], Scale(w, Occurrences(idx, i) as real))
  {
    if idx != [] {
      var init := idx[..|idx| - 1];
      AddToEachAt(ns, init, w, i);
      var c := Occurrences(init, i) as real;
      if idx[|idx| - 1] == i {
        assert Scale(w, c + 1.0) == Add(Scale(w, c), w);
      }
    }
  }

  /** The accumulated normal of a vertex is its starting value plus its normal sum. */
  lemma {:induction false} AccumulateFacesAt(ps: seq<Vec3>, ns: seq<Vec3>, faces: seq<Face>, i: int)
    requires |ns| == |ps| && FacesInRange(faces, |ps|) && 0 <= i < |ns|
    ensures AccumulateFaces(ps, ns, faces)[i] == Add(ns[i], NormalSum(ps, faces, i))
  {
    if faces != [] {
      var init := faces[..|faces| - 1];
      assert FacesInRange(init, |ps|) by {
        forall k | 0 <= k < |init| ensures FaceInRange(init[k], |ps|) { assert init[k] == faces[k]; }
      }
      AccumulateFacesAt(ps, ns, init, i);
      var f := faces[|faces| - 1];
      assert FaceInRange(f, |ps|);
      if |f.indices| >= 3 {
        AddToEachAt(AccumulateFaces(ps, ns, init), f.indices, FaceNormal(ps, f.indices), i);
      }
    }
  }

  /**
   * Each derived normal is the normalised sum of the normals of the faces
   * (of at least 3 indices) that list the vertex, counted once per listing.
   */
  lemma DerivedNormalIsFaceSum(vs: seq<Vertex>, faces: seq<Face>, i: int)
    requires FacesInRange(faces, |vs|) && 0 <= i < |vs|
    ensures DerivedNormals(vs, faces)[i] == Normalized(NormalSum(Positions(vs), faces, i))
  {
    AccumulateFacesAt(Positions(vs), Zeros(|vs|), faces, i);
  }

  // ---------------------------------------------------------------------------
  // The whole file

  datatype PlyData = PlyData(vertices: seq<Vertex>, faces: seq<Face>)

  /**
   * The outcome of reading a file: the records, a rejection (the reader
   * returns false), or a face whose index lies outside the vertex list when
   * normals have to be derived (the reader then indexes its vertex array out
   * of bounds: undefined behaviour).
   */
  datatype PlyOutcome = Loaded(data: PlyData) | Rejected | IndexOutOfRange

  const MagicLine: string := "ply"
  const FormatLine: string := "format ascii 1.0"

  /** PLYLoader::parseHeader: the two literal lines, the header scan, the two blocks, then normals. */
  function ParsePly(lines: seq<string>): (o: PlyOutcome)
    ensures !o.Rejected? ==> LineAt(lines, 0) == MagicLine && LineAt(lines, 1) == FormatLine
    ensures o.IndexOutOfRange? ==> !HeaderOf(lines).hasNormals
  {
    if LineAt(lines, 0) != MagicLine || LineAt(lines, 1) != FormatLine then Rejected
    else
      var h := HeaderOf(lines);
      var vb := VertexBlock(lines, VertexStart(lines), h.vertexCount);
      if !vb.ok then Rejected
      else
        var fb := FaceBlock(lines, FaceStart(lines), h.faceCount);
        if !fb.ok then Rejected
        else if h.hasNormals then Loaded(PlyData(vb.items, fb.items))
        else if !FacesInRange(fb.items, |vb.items|) then IndexOutOfRange
        else Loaded(PlyData(WithNormals(vb.items, DerivedNormals(vb.items, fb.items)), fb.items))
  }

  /** The header as the reader sees it: scanned from line 2 with every field at its initial value. */
  function HeaderOf(lines: seq<string>): Header {
    ScanHeader(HeaderLines(lines), 2, EmptyHeader).header
  }

  /** The first vertex line: just after `end_header`. */
  function VertexStart(lines: seq<string>): nat {
    ScanHeader(HeaderLines(lines), 2, EmptyHeader).next
  }

  /** The first face line: just after the declared number of vertex lines. */
  function FaceStart(lines: seq<string>): nat {
    VertexStart(lines) + Count(HeaderOf(lines).vertexCount)
  }

  /** A read whose literal lines are wrong is rejected. */
  lemma ParsePlyBadLiteral(lines: seq<string>)
    requires LineAt(lines, 0) != MagicLine || LineAt(lines, 1) != FormatLine
    ensures ParsePly(lines) == Rejected
  {
  }

  /**
   * The outcome of a read whose literal lines are right, in terms of the
   * header h, the first data line p and the two blocks.
   */
  lemma ParsePlyFromBlocks(lines: seq<string>, h: Header, p: nat, vb: Block<Vertex>, fb: Block<Face>)
    requires LineAt(lines, 0) == MagicLine && LineAt(lines, 1) == FormatLine
    requires h == HeaderOf(lines) && p == VertexStart(lines)
    requires vb == VertexBlock(lines, p, h.vertexCount)
    requires fb == FaceBlock(lines, FaceStart(lines), h.faceCount)
    ensures !vb.ok ==> ParsePly(lines) == Rejected
    ensures vb.ok && !fb.ok ==> ParsePly(lines) == Rejected
    ensures vb.ok && fb.ok && h.hasNormals ==> ParsePly(lines) == Loaded(PlyData(vb.items, fb.items))
    ensures vb.ok && fb.ok && !h.hasNormals && FacesInRange(fb.items, |vb.items|) ==>
              ParsePly(lines) == Loaded(PlyData(WithNormals(vb.items, DerivedNormals(vb.items, fb.items)), fb.items))
    ensures vb.ok && fb.ok && !h.hasNormals && !FacesInRange(fb.items, |vb.items|) ==>
              ParsePly(lines) == IndexOutOfRange
  {
  }

  /** A successful read starts with the two literal lines and holds exactly the declared numbers of records. */
  lemma ParsePlyCounts(lines: seq<string>)
    requires ParsePly(lines).Loaded?
    ensures LineAt(lines, 0) == "ply" && LineAt(lines, 1) == "format ascii 1.0"
    ensures |ParsePly(lines).data.vertices| == Count(HeaderOf(lines).vertexCount)
    ensures |ParsePly(lines).data.faces| == Count(HeaderOf(lines).faceCount)
  {
    ReadBlockSpec(VertexReader(lines), VertexStart(lines), HeaderOf(lines).vertexCount);
    ReadBlockSpec(FaceReader(lines), FaceStart(lines), HeaderOf(lines).faceCount);
  }

  /**
   * Vertex i of a successful read comes from line VertexStart + i; its normal
   * is the line's own when the header declares normals.
   */
  lemma ParsePlyVertex(lines: seq<string>, i: int)
    requires ParsePly(lines).Loaded? && 0 <= i < |ParsePly(lines).data.vertices|
    ensures VertexOfLine(lines, VertexStart(lines) + i).Some?
    ensures var v, w := ParsePly(lines).data.vertices[i], VertexOfLine(lines, VertexStart(lines) + i).value;
            && v.position == w.position && v.color == w.color && v.texCoord == w.texCoord
            && (HeaderOf(lines).hasNormals ==> v.normal == w.normal)
  {
    var p, h := VertexStart(lines), HeaderOf(lines);
    var vb := VertexBlock(lines, p, h.vertexCount);
    var fb := FaceBlock(lines, FaceStart(lines), h.faceCount);
    if h.hasNormals {
      assert ParsePly(lines).data.vertices == vb.items;
    } else {
      assert ParsePly(lines).data.vertices == WithNormals(vb.items, DerivedNormals(vb.items, fb.items));
    }
    ReadBlockSpec(VertexReader(lines), p, h.vertexCount);
    assert VertexReader(lines)(p + i) == VertexOfLine(lines, p + i);
    assert VertexOfLine(lines, p + i) == Some(vb.items[i]);
  }

  /** Face i of a successful read is the face line FaceStart + i describes. */
  lemma ParsePlyFace(lines: seq<string>, i: int)
    requires ParsePly(lines).Loaded? && 0 <= i < |ParsePly(lines).data.faces|
    ensures FaceOfLine(lines, FaceStart(lines) + i) == Some(ParsePly(lines).data.faces[i])
  {
    var m, h := FaceStart(lines), HeaderOf(lines);
    var fb := FaceBlock(lines, m, h.faceCount);
    assert ParsePly(lines).data.faces == fb.items;
    ReadBlockSpec(FaceReader(lines), m, h.faceCount);
    assert FaceReader(lines)(m + i) == FaceOfLine(lines, m + i);
  }

  /**
   * Without normals in the header, every face index of a successful read is
   * in range, and each normal is the normalised sum of the normals of the
   * faces that list the vertex.
   */
  lemma ParsePlyNormals(lines: seq<string>, i: int)
    requires ParsePly(lines).Loaded? && !HeaderOf(lines).hasNormals
    requires 0 <= i < |ParsePly(lines).data.vertices|
    ensures var d := ParsePly(lines).data;
            FacesInRange(d.faces, |d.vertices|)
            && d.vertices[i].normal == Normalized(NormalSum(Positions(d.vertices), d.faces, i))
  {
    var d := ParsePly(lines).data;
    var vb := VertexBlock(lines, VertexStart(lines), HeaderOf(lines).vertexCount);
    var fb := FaceBlock(lines, FaceStart(lines), HeaderOf(lines).faceCount);
    assert d.faces == fb.items;
    assert d.vertices == WithNormals(vb.items, DerivedNormals(vb.items, fb.items));
    assert Positions(d.vertices) == Positions(vb.items);
    DerivedNormalIsFaceSum(vb.items, fb.items, i);
  }

  /** Why a read is rejected: a wrong literal line, or a block that runs out of lines or meets a line it cannot use. */
  lemma ParsePlyRejected(lines: seq<string>)
    ensures ParsePly(lines) == Rejected <==>
              || LineAt(lines, 0) != "ply"
              || LineAt(lines, 1) != "format ascii 1.0"
              || !AllRecords(VertexReader(lines), VertexStart(lines), HeaderOf(lines).vertexCount)
              || !AllRecords(FaceReader(lines), FaceStart(lines), HeaderOf(lines).faceCount)
  {
    var h := HeaderOf(lines);
    var vb := VertexBlock(lines, VertexStart(lines), h.vertexCount);
    var fb := FaceBlock(lines, FaceStart(lines), h.faceCount);
    ReadBlockSpec(VertexReader(lines), VertexStart(lines), h.vertexCount);
    ReadBlockSpec(FaceReader(lines), FaceStart(lines), h.faceCount);
    if LineAt(lines, 0) == MagicLine && LineAt(lines, 1) == FormatLine && vb.ok && fb.ok {
      assert ParsePly(lines).Loaded? || ParsePly(lines).IndexOutOfRange?;
    }
  }
}
