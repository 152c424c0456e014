/**
 * The output rewriter of protoc-gen-rest (main.go): after the Go generator
 * has produced every response file, each file is renamed to carry the
 * plugin's name and its content is cut down to the package header, the
 * filtered single-line imports, the plugin's import block and the first
 * service region, with the generator's name replaced by the plugin's.
 */
module Splice {
  import opened Seqs
  import opened Text
  import opened Rest

  /** The keyword whose first occurrence ends the header. */
  const ImportKeyword := "import"
  /** The opening of the import block GenerateImports writes. */
  const ImportBlock := "import ("
  /** Lines holding this are dropped from the single-line imports. */
  const ProtoImport := " proto "
  /** The generator's name, replaced everywhere by the plugin's. */
  const GenPlugin := "protoc-gen-go"
  const RestPlugin := "protoc-gen-rest"
  /** The length of "//Start Services", hard-coded in the rewriter. */
  const StartMarkerLength := 16

  // ---------------------------------------------------------------------------
  // File names
  // ---------------------------------------------------------------------------

  /**
   * The response file name with ".rest" inserted before its last dot
   * ("foo.pb.go" becomes "foo.pb.rest.go").  A name without a dot makes the
   * rewriter slice with index -1, which panics.
   */
  function Rename(name: string): (r: string)
    requires LastIndexOf(name, ".") >= 0
    ensures var i := LastIndexOf(name, ".");
      && |r| == |name| + |"." + Name|
      && r[..i] == name[..i]
      && r[i..i + |"." + Name|] == "." + Name
      && r[i + |"." + Name|..] == name[i..]
      && LastIndexOf(r, ".") == i + |"." + Name|
  {
    var i := LastIndexOf(name, ".");
    var a, b := name[..i] + "." + Name, name[i..];
    var r := a + b;
    forall j | i + 5 < j ensures !OccursAt(r, ".", j) {
      if j + 1 <= |r| {
        assert r[j..j + 1] == b[j - |a|..j - |a| + 1] == name[j - 5..j - 4];
        assert !OccursAt(name, ".", j - 5);
      }
    }
    assert r[i + 5..i + 6] == b[0..1] == name[i..i + 1];
    assert OccursAt(r, ".", i + 5);
    assert r[i + 5..] == b;
    r
  }

  /** Removing the inserted text gives back the original name. */
  lemma RenameInverse(name: string)
    requires LastIndexOf(name, ".") >= 0
    ensures var i := LastIndexOf(name, ".");
            var r := Rename(name);
            r[..i] + r[i + 5..] == name
  {
    var i := LastIndexOf(name, ".");
    var r := Rename(name);
    assert name == name[..i] + name[i..];
  }

  // ---------------------------------------------------------------------------
  // Import filtering
  // ---------------------------------------------------------------------------

  /**
   * A scanned import line is kept unless " proto " first occurs past its
   * start, and only if its first "." is past its start.
   */
  predicate Keep(text: string) {
    !(IndexOf(text, ProtoImport) > 0) && IndexOf(text, ".") > 0
  }

  /** The lines of `ls` that are kept, in order. */
  function Filter(ls: seq<string>): seq<string> {
    if ls == [] then []
    else Filter(ls[..|ls| - 1]) + (if Keep(ls[|ls| - 1]) then [ls[|ls| - 1]] else [])
  }

  /** Each line preceded by a newline, as the rewriter accumulates them. */
  function Prefixed(ls: seq<string>): string {
    if ls == [] then "" else Prefixed(ls[..|ls| - 1]) + "\n" + ls[|ls| - 1]
  }

  /** The import text the rewriter builds from the header's single-line imports. */
  function GenImports(imports: string): string {
    Prefixed(Filter(Lines(imports))) + "\n\n"
  }

  /** What Keep means in terms of occurrences. */
  lemma KeepMeaning(text: string)
    ensures Keep(text) <==>
      && (OccursAt(text, ProtoImport, 0) || Absent(text, ProtoImport))
      && |text| > 0 && text[0] != '.' && '.' in text
  {
    var d := IndexOf(text, ".");
    if '.' in text {
      var k :| 0 <= k < |text| && text[k] == '.';
      assert text[k..k + 1] == ".";
      assert OccursAt(text, ".", k);
    }
    if d >= 0 {
      assert text[d..d + 1] == ".";
      assert text[d] == '.';
    }
    if |text| > 0 {
      assert OccursAt(text, ".", 0) <==> text[0] == '.' by {
        assert text[0..1] == [text[0]];
      }
    }
  }

  /** A line is kept exactly when it is one of the scanned lines and passes Keep. */
  lemma {:induction false} FilterMembers(ls: seq<string>, x: string)
    ensures x in Filter(ls) <==> x in ls && Keep(x)
    decreases |ls|
  {
    if ls != [] {
      var init := ls[..|ls| - 1];
      FilterMembers(init, x);
      assert ls == init + [ls[|ls| - 1]];
    }
  }

  /** Filtering works line by line: it distributes over concatenation. */
  lemma {:induction false} FilterAppend(a: seq<string>, b: seq<string>)
    ensures Filter(a + b) == Filter(a) + Filter(b)
    decreases |b|
  {
    if b == [] {
      assert a + b == a;
    } else {
      var init := b[..|b| - 1];
      FilterAppend(a, init);
      assert (a + b)[..|a + b| - 1] == a + init;
      assert (a + b)[|a + b| - 1] == b[|b| - 1];
    }
  }

  lemma PrefixedSnoc(ls: seq<string>, t: string)
    ensures Prefixed(ls + [t]) == Prefixed(ls) + "\n" + t
  {
    assert (ls + [t])[..|ls|] == ls;
  }

  lemma FilterSnoc(ls: seq<string>, i: nat)
    requires i < |ls|
    ensures Filter(ls[..i + 1]) == Filter(ls[..i]) + (if Keep(ls[i]) then [ls[i]] else [])
  {
    assert ls[..i + 1][..i] == ls[..i];
  }

  /** The scanner loop over the header's imports. */
  method ScanImports(imports: string) returns (genImports: string)
    ensures genImports == GenImports(imports)
  {
    var lines := Lines(imports);
    genImports := "";
    var i := 0;
    while i < |lines|
      invariant 0 <= i <= |lines|
      invariant genImports == Prefixed(Filter(lines[..i]))
    {
      var text := lines[i];
      FilterSnoc(lines, i);
      ghost var before := Filter(lines[..i]);
      i := i + 1;
      if IndexOf(text, ProtoImport) > 0 {
        assert Filter(lines[..i]) == before;
        continue;
      }
      if IndexOf(text, ".") > 0 {
        assert Filter(lines[..i]) == before + [text];
        PrefixedSnoc(before, text);
        genImports := genImports + "\n" + text;
      } else {
        assert Filter(lines[..i]) == before;
      }
    }
    assert lines[..|lines|] == lines;
    genImports := genImports + "\n\n";
  }

  // ---------------------------------------------------------------------------
  // Content rewriting
  // ---------------------------------------------------------------------------

  /**
   * The slicing of the rewriter does not panic: the import block exists and
   * precedes the reference imports, and the end marker does not come before
   * the end of the start marker (a missing start marker counts as offset -1).
   */
  predicate Spliceable(content: string) {
    var p1 := IndexOf(content, ImportBlock);
    && p1 >= 0
    && p1 <= IndexOf(content, RefMarker)
    && IndexOf(content, StartMarker) + StartMarkerLength <= IndexOf(content, EndMarker)
  }

  /** The import keyword occurs no later than the import block it opens. */
  lemma KeywordBeforeBlock(content: string)
    requires IndexOf(content, ImportBlock) >= 0
    ensures 0 <= IndexOf(content, ImportKeyword) <= IndexOf(content, ImportBlock)
  {
    var p1 := IndexOf(content, ImportBlock);
    assert content[p1..p1 + 6] == content[p1..p1 + 8][..6];
    assert OccursAt(content, ImportKeyword, p1);
  }

  /** The rewritten content before the generator's name is replaced. */
  function Assembled(content: string): string
    requires Spliceable(content)
  {
    KeywordBeforeBlock(content);
    var p0 := IndexOf(content, ImportKeyword);
    var p1 := IndexOf(content, ImportBlock);
    var pkgImports := content[p1..IndexOf(content, RefMarker)];
    var first := IndexOf(content, StartMarker) + StartMarkerLength;
    var last := IndexOf(content, EndMarker);
    content[0..p0] + GenImports(content[p0..p1]) + pkgImports + content[first..last]
  }

  /** The rewritten content of a response file. */
  function Spliced(content: string): string
    requires Spliceable(content)
  {
    ReplaceAll(Assembled(content), GenPlugin, RestPlugin)
  }

  /** The body of the rewriter loop for one file's content. */
  method RewriteContent(content: string) returns (contentEnd: string)
    requires Spliceable(content)
    ensures contentEnd == Spliced(content)
  {
    KeywordBeforeBlock(content);
    var p0, p1 := IndexOf(content, ImportKeyword), IndexOf(content, ImportBlock);
    var imports := content[p0..p1];
    var genImports := ScanImports(imports);
    var pkgImports := content[p1..IndexOf(content, RefMarker)];
    var firstIndex := IndexOf(content, StartMarker) + StartMarkerLength;
    var lastIndex := IndexOf(content, EndMarker);
    contentEnd := content[0..p0] + genImports + pkgImports + content[firstIndex..lastIndex];
    contentEnd := ReplaceAll(contentEnd, GenPlugin, RestPlugin);
  }

  /** The replacement is safe: the plugin's name cannot re-create the generator's. */
  lemma GenPluginReplacementSafe()
    ensures SafeReplacement(GenPlugin, RestPlugin)
  {
    assert RestPlugin[..|GenPlugin|] == "protoc-gen-re";
  }

  /** No occurrence of the generator's name survives the rewriting. */
  lemma SplicedHasNoGenPlugin(content: string)
    requires Spliceable(content)
    ensures Absent(Spliced(content), GenPlugin)
  {
    GenPluginReplacementSafe();
    ReplaceAllRemovesEveryMatch(Assembled(content), GenPlugin, RestPlugin);
  }

  /** Content that never names the generator is only cut, not otherwise changed. */
  lemma SplicedWithoutGenPlugin(content: string)
    requires Spliceable(content) && Absent(Assembled(content), GenPlugin)
    ensures Spliced(content) == Assembled(content)
  {
    ReplaceAllWithoutMatch(Assembled(content), GenPlugin, RestPlugin);
  }

  /** A file of the generator's response: its name and its content. */
  class ResponseFile {
    var name: string
    var content: string

    constructor (name: string, content: string)
      ensures this.name == name && this.content == content
    {
      this.name := name;
      this.content := content;
    }
  }

  /**
   * The loop over the response files: each file, in order, is renamed and
   * its content rewritten in place; no other file is touched.
   */
  method RewriteFiles(files: seq<ResponseFile>)
    requires forall i, j :: 0 <= i < j < |files| ==> files[i] != files[j]
    requires forall i :: 0 <= i < |files| ==>
      LastIndexOf(files[i].name, ".") >= 0 && Spliceable(files[i].content)
    modifies files
    ensures forall i :: 0 <= i < |files| ==>
      && files[i].name == Rename(old(files[i].name))
      && files[i].content == Spliced(old(files[i].content))
  {
    hide Rename, Spliced, LastIndexOf, Spliceable;
    for i := 0 to |files|
      invariant forall k :: 0 <= k < i ==>
        && files[k].name == Rename(old(files[k].name))
        && files[k].content == Spliced(old(files[k].content))
      invariant forall k :: i <= k < |files| ==>
        && files[k].name == old(files[k].name)
        && files[k].content == old(files[k].content)
    {
      RewriteFile(files[i]);
    }
  }

  /** The loop body for one response file. */
  method RewriteFile(file: ResponseFile)
    requires LastIndexOf(file.name, ".") >= 0 && Spliceable(file.content)
    modifies file
    ensures file.name == Rename(old(file.name))
    ensures file.content == Spliced(old(file.content))
  {
    var fileName := file.name;
    var index := LastIndexOf(fileName, ".");
    var rename := fileName;
    if |fileName| > index {
      rename := fileName[..index] + "." + Name + fileName[index..];
    }
    file.name := rename;
    var content := file.content;
    var contentEnd := RewriteContent(content);
    file.content := contentEnd;
  }

  // ---------------------------------------------------------------------------
  // The layout of a generated file
  // ---------------------------------------------------------------------------

  /** The last character of `pat` occurs nowhere else in it. */
  predicate UniqueLast(pat: string) {
    |pat| > 0 && forall i :: 0 <= i < |pat| - 1 ==> pat[i] != pat[|pat| - 1]
  }

  /** No occurrence of `pat` starts inside `x` when it is absent from `x` and `pat` ends uniquely. */
  lemma NoEarlyOccurrence(x: string, pat: string, y: string, j: int)
    requires UniqueLast(pat) && Absent(x, pat) && 0 <= j < |x|
    ensures !OccursAt(x + pat + y, pat, j)
  {
    var s := x + pat + y;
    if j + |pat| <= |x| {
      assert s[j..j + |pat|] == x[j..j + |pat|];
      assert !OccursAt(x, pat, j);
    } else if j + |pat| <= |s| {
      var k := j + |pat| - 1;
      assert s[k] == pat[k - |x|];
      assert s[j..j + |pat|][|pat| - 1] == s[k];
    }
  }

  /** The first occurrence of a uniquely ending pattern right after a text without it. */
  lemma FirstOccurrence(x: string, pat: string, y: string)
    requires UniqueLast(pat) && Absent(x, pat)
    ensures IndexOf(x + pat + y, pat) == |x|
  {
    var s := x + pat + y;
    assert s[|x|..|x| + |pat|] == pat;
    assert OccursAt(s, pat, |x|);
    forall j | 0 <= j < |x| ensures !OccursAt(s, pat, j) {
      NoEarlyOccurrence(x, pat, y, j);
    }
  }

  lemma MarkersEndUniquely()
    ensures UniqueLast(ImportKeyword) && UniqueLast(ImportBlock) && UniqueLast(RefMarker)
    ensures UniqueLast(StartMarker) && UniqueLast(EndMarker)
    ensures |StartMarker| == StartMarkerLength
  {
  }

  /**
   * Where five uniquely ending delimiters first occur in a text that holds
   * them in order, each absent from what precedes it, and the slices between
   * them.
   */
  lemma DelimitedSlices(head: string, k: string, imports: string, b: string, pkg: string, r: string,
                        refs: string, st: string, svc: string, e: string, tail: string)
    requires UniqueLast(k) && UniqueLast(b) && UniqueLast(r) && UniqueLast(st) && UniqueLast(e)
    requires Absent(head, k)
    requires Absent(head + k + imports, b)
    requires Absent(head + k + imports + b + pkg, r)
    requires Absent(head + k + imports + b + pkg + r + refs, st)
    requires Absent(head + k + imports + b + pkg + r + refs + st + svc, e)
    ensures var content := head + k + imports + b + pkg + r + refs + st + svc + e + tail;
            var p1 := |head + k + imports|;
            var ref := |head + k + imports + b + pkg|;
            var start := |head + k + imports + b + pkg + r + refs|;
            var end := |head + k + imports + b + pkg + r + refs + st + svc|;
      && IndexOf(content, k) == |head|
      && IndexOf(content, b) == p1
      && IndexOf(content, r) == ref
      && IndexOf(content, st) == start
      && IndexOf(content, e) == end
      && content[0..|head|] == head
      && content[|head|..p1] == k + imports
      && content[p1..ref] == b + pkg
      && content[start + |st|..end] == svc
  {
    DelimiterIndices(head, k, imports, b, pkg, r, refs, st, svc, e, tail);
    DelimitedPieces(head, k, imports, b, pkg, r, refs, st, svc, e, tail);
  }

  /** The first occurrence of each of five delimiters laid out in order. */
  lemma DelimiterIndices(head: string, k: string, imports: string, b: string, pkg: string, r: string,
                         refs: string, st: string, svc: string, e: string, tail: string)
    requires UniqueLast(k) && UniqueLast(b) && UniqueLast(r) && UniqueLast(st) && UniqueLast(e)
    requires Absent(head, k)
    requires Absent(head + k + imports, b)
    requires Absent(head + k + imports + b + pkg, r)
    requires Absent(head + k + imports + b + pkg + r + refs, st)
    requires Absent(head + k + imports + b + pkg + r + refs + st + svc, e)
    ensures var content := head + k + imports + b + pkg + r + refs + st + svc + e + tail;
      && IndexOf(content, k) == |head|
      && IndexOf(content, b) == |head + k + imports|
      && IndexOf(content, r) == |head + k + imports + b + pkg|
      && IndexOf(content, st) == |head + k + imports + b + pkg + r + refs|
      && IndexOf(content, e) == |head + k + imports + b + pkg + r + refs + st + svc|
  {
    hide Absent, OccursAt;
    var x1 := head + k + imports;
    var x2 := x1 + b + pkg;
    var x3 := x2 + r + refs;
    var x4 := x3 + st + svc;
    Regroup4(x3 + st, svc, e, tail);
    Regroup6(x2 + r, refs, st, svc, e, tail);
    Regroup8(x1 + b, pkg, r, refs, st, svc, e, tail);
    Regroup10(head + k, imports, b, pkg, r, refs, st, svc, e, tail);
    FirstOccurrence(head, k, imports + b + pkg + r + refs + st + svc + e + tail);
    FirstOccurrence(x1, b, pkg + r + refs + st + svc + e + tail);
    FirstOccurrence(x2, r, refs + st + svc + e + tail);
    FirstOccurrence(x3, st, svc + e + tail);
    FirstOccurrence(x4, e, tail);
  }

  /** The slices between five delimiters laid out in order. */
  lemma DelimitedPieces(head: string, k: string, imports: string, b: string, pkg: string, r: string,
                        refs: string, st: string, svc: string, e: string, tail: string)
    ensures var content := head + k + imports + b + pkg + r + refs + st + svc + e + tail;
            var p1 := |head + k + imports|;
            var ref := |head + k + imports + b + pkg|;
            var start := |head + k + imports + b + pkg + r + refs|;
            var end := |head + k + imports + b + pkg + r + refs + st + svc|;
      && content[0..|head|] == head
      && content[|head|..p1] == k + imports
      && content[p1..ref] == b + pkg
      && content[start + |st|..end] == svc
  {
    var x1 := head + k + imports;
    var x2 := x1 + b + pkg;
    var x3 := x2 + r + refs;
    var y2 := refs + st + svc + e + tail;
    var y1 := pkg + r + refs + st + svc + e + tail;
    var y0 := imports + b + pkg + r + refs + st + svc + e + tail;
    Regroup4(x3 + st, svc, e, tail);
    Regroup6(x2 + r, refs, st, svc, e, tail);
    Regroup8(x1 + b, pkg, r, refs, st, svc, e, tail);
    Regroup10(head + k, imports, b, pkg, r, refs, st, svc, e, tail);
    AppendAssoc(head, k, imports);
    AppendAssoc(head + (k + imports), b, y1);
    Middle(head, k + imports, b + y1);
    AppendAssoc(x1, b, pkg);
    AppendAssoc(x1 + (b + pkg), r, y2);
    Middle(x1, b + pkg, r + y2);
    Regroup4(x3, st, svc, e + tail);
    Middle(x3 + st, svc, e + tail);
    Prefix(head, k + y0);
  }

  /**
   * For a file laid out as the Go generator and GenerateImports/Generate
   * write it (a header, the single-line imports, the plugin's import block,
   * the reference imports, the service regions and the rest), with each
   * delimiter's first occurrence where the layout puts it, the rewriter
   * keeps the header, the filtered imports, the import block and the body of
   * the first service region, and drops everything else.
   */
  lemma AssembledLayout(head: string, imports: string, pkg: string, refs: string, svc: string, tail: string)
    requires Absent(head, ImportKeyword)
    requires Absent(head + ImportKeyword + imports, ImportBlock)
    requires Absent(head + ImportKeyword + imports + ImportBlock + pkg, RefMarker)
    requires Absent(head + ImportKeyword + imports + ImportBlock + pkg + RefMarker + refs, StartMarker)
    requires Absent(head + ImportKeyword + imports + ImportBlock + pkg + RefMarker + refs + StartMarker + svc,
                    EndMarker)
    ensures var content := head + ImportKeyword + imports + ImportBlock + pkg + RefMarker + refs
                           + StartMarker + svc + EndMarker + tail;
      && Spliceable(content)
      && Assembled(content) == head + GenImports(ImportKeyword + imports) + (ImportBlock + pkg) + svc
  {
    MarkersEndUniquely();
    hide Absent, OccursAt, GenImports;
    DelimitedSlices(head, ImportKeyword, imports, ImportBlock, pkg, RefMarker, refs, StartMarker, svc,
                    EndMarker, tail);
  }

  /** The first service region holds no end marker: it stops at the first one. */
  lemma RegionHasNoEndMarker(content: string)
    requires Spliceable(content)
    ensures var first := IndexOf(content, StartMarker) + StartMarkerLength;
            Absent(content[first..IndexOf(content, EndMarker)], EndMarker)
  {
    var first := IndexOf(content, StartMarker) + StartMarkerLength;
    var last := IndexOf(content, EndMarker);
    forall j ensures !OccursAt(content[first..last], EndMarker, j) {
      OccursInSlice(content, first, last, EndMarker, j);
    }
  }

  /** Regrouping the text the generator writes around the first service region. */
  lemma RegroupGenerated(p: string, rm: string, refs: string, sm: string, svc: string, em: string,
                         others: string, tail: string)
    ensures p + (rm + refs + (sm + svc + em + "\n" + others)) + tail
         == p + rm + refs + sm + svc + em + ("\n" + others + tail)
  {
    var x := sm + svc + em;
    AppendAssoc(x, "\n", others);
    AppendAssoc(rm + refs, x, "\n" + others);
    AppendAssoc(p, rm + refs + x + ("\n" + others), tail);
    Regroup4(p, rm, refs, x);
    Regroup4(p + rm + refs, sm, svc, em);
    AppendAssoc(p + rm + refs + x, "\n" + others, tail);
    AppendAssoc("\n", others, tail);
  }

  /** The joined lines of a service block: its body between the two marker lines. */
  lemma ServiceText(env: Env, s: ServiceDesc)
    requires |env.camelCase(s.name)| > 0
    ensures Unlines(ServiceLines(env, s))
         == StartMarker + ("\n" + Unlines(ServiceBody(env, s))) + EndMarker + "\n"
  {
    var body := ServiceBody(env, s);
    ServiceFramed(env, s);
    UnlinesAppend([StartMarker] + body, [EndMarker]);
    UnlinesAppend([StartMarker], body);
    assert Unlines([StartMarker]) == StartMarker + "\n";
    assert Unlines([EndMarker]) == EndMarker + "\n";
    AppendAssoc(StartMarker, "\n", Unlines(body));
    AppendAssoc(StartMarker + ("\n" + Unlines(body)), EndMarker, "\n");
  }

  /**
   * End to end: a file whose header and single-line imports are followed by
   * the plugin's import block and by what Generate wrote for a file with
   * services comes out as the header, the filtered imports, the import block
   * and the body of the first service block only; the reference imports,
   * both markers, every later service and the rest are dropped.  The
   * conditions say that no delimiter occurs before the place the layout
   * gives it.
   */
  lemma GeneratedFileLayout(env: Env, f: FileDesc, head: string, imports: string, pkg: string, tail: string)
    requires Named(env, f.services) && |f.services| > 0
    requires Absent(head, ImportKeyword)
    requires Absent(head + ImportKeyword + imports, ImportBlock)
    requires Absent(head + ImportKeyword + imports + ImportBlock + pkg, RefMarker)
    requires Absent(head + ImportKeyword + imports + ImportBlock + pkg + RefMarker
                    + ("\n" + Unlines(ReferenceLines(env)[1..])), StartMarker)
    requires Absent(head + ImportKeyword + imports + ImportBlock + pkg + RefMarker
                    + ("\n" + Unlines(ReferenceLines(env)[1..])) + StartMarker
                    + ("\n" + Unlines(ServiceBody(env, f.services[0]))), EndMarker)
    ensures var content := head + ImportKeyword + imports + ImportBlock + pkg + Unlines(GenerateLines(env, f)) + tail;
      && Spliceable(content)
      && Assembled(content) == head + GenImports(ImportKeyword + imports) + (ImportBlock + pkg)
                               + ("\n" + Unlines(ServiceBody(env, f.services[0])))
  {
    var refLines := ReferenceLines(env);
    var refs := "\n" + Unlines(refLines[1..]);
    var svc := "\n" + Unlines(ServiceBody(env, f.services[0]));
    var others := Unlines(ServicesLines(env, f.services[1..]));
    var p := head + ImportKeyword + imports + ImportBlock + pkg;
    assert Unlines(refLines) == RefMarker + refs by {
      AppendAssoc(RefMarker, "\n", Unlines(refLines[1..]));
    }
    ServicesLinesFirst(env, f.services);
    ServiceText(env, f.services[0]);
    UnlinesAppend(ServiceLines(env, f.services[0]), ServicesLines(env, f.services[1..]));
    UnlinesAppend(refLines, ServicesLines(env, f.services));
    hide Unlines, ServiceLines, ServicesLines, ServiceBody;
    RegroupGenerated(p, RefMarker, refs, StartMarker, svc, EndMarker, others, tail);
    AssembledLayout(head, imports, pkg, refs, svc, "\n" + others + tail);
  }
}
