/** scripts/check-strimzi-crs.py, `check`: a manifest stream, document by
    document, against the schemas of the CRDs that serve its kinds. */
module CrdCheck {
  import opened Lists
  import opened Values
  import opened CrdWalk

  /** What `check` reads of a loaded document and of its mapping keys. */
  datatype Document = Document(
    apiVersion: Option<string>,
    kind: Option<string>,
    name: string,
    duplicates: seq<(string, nat)>,
    spec: Option<Value>)

  /** What `check` reads of a CRD: the schema of `.spec`, and whether it is required. */
  datatype Crd = Crd(spec: Schema, specRequired: bool)

  type Crds = map<(string, string), Crd>

  datatype Complaint = DuplicateKey(key: string, line: nat) | SpecMissing | InSpec(finding: Finding)

  datatype Line = Line(kind: Option<string>, name: string, complaint: Complaint)

  function Served(d: Document, crds: Crds): Option<Crd> {
    if d.apiVersion.Some? && d.kind.Some? && (d.apiVersion.value, d.kind.value) in crds
    then Some(crds[(d.apiVersion.value, d.kind.value)])
    else None
  }

  function Lines(d: Document, found: seq<Finding>): (r: seq<Line>)
    ensures |r| == |found|
  {
    seq(|found|, i requires 0 <= i < |found| => Line(d.kind, d.name, InSpec(found[i])))
  }

  function DuplicateLines(d: Document): (r: seq<Line>)
    ensures |r| == |d.duplicates|
  {
    seq(|d.duplicates|, i requires 0 <= i < |d.duplicates| =>
      Line(d.kind, d.name, DuplicateKey(d.duplicates[i].0, d.duplicates[i].1)))
  }

  function SpecLines(d: Document, crd: Crd, search: Search): seq<Line> {
    if d.spec.Some? then Lines(d, Findings(d.spec.value, crd.spec, [Key("spec")], search))
    else if crd.spec.Schema? && crd.specRequired then [Line(d.kind, d.name, SpecMissing)]
    else []
  }

  function DocumentLines(d: Document, crds: Crds, search: Search): seq<Line> {
    DuplicateLines(d) + (match Served(d, crds) case Some(crd) => SpecLines(d, crd, search) case None => [])
  }

  function StreamLines(docs: seq<Document>, crds: Crds, search: Search): seq<Line> {
    if docs == [] then [] else DocumentLines(docs[0], crds, search) + StreamLines(docs[1..], crds, search)
  }

  function ServedCount(docs: seq<Document>, crds: Crds): nat {
    if docs == [] then 0 else (if Served(docs[0], crds).Some? then 1 else 0) + ServedCount(docs[1..], crds)
  }

  method Check(docs: seq<Document>, crds: Crds, search: Search) returns (findings: seq<Line>, checked: nat)
    ensures findings == StreamLines(docs, crds, search)
    ensures checked == ServedCount(docs, crds)
  {
    findings, checked := [], 0;
    var i := 0;
    while i < |docs|
      invariant 0 <= i <= |docs|
      invariant findings + StreamLines(docs[i..], crds, search) == StreamLines(docs, crds, search)
      invariant checked + ServedCount(docs[i..], crds) == ServedCount(docs, crds)
    {
      var d := docs[i];
      StreamStep(docs, i, crds, search);
      var lines := CheckDocument(d, crds, search);
      Regroup(findings, lines, StreamLines(docs[i + 1..], crds, search));
      findings := findings + lines;
      checked := if Served(d, crds).Some? then checked + 1 else checked;
      i := i + 1;
    }
    assert docs[i..] == [];
  }

  lemma StreamStep(docs: seq<Document>, i: nat, crds: Crds, search: Search)
    requires i < |docs|
    ensures StreamLines(docs[i..], crds, search) == DocumentLines(docs[i], crds, search) + StreamLines(docs[i + 1..], crds, search)
    ensures ServedCount(docs[i..], crds) == (if Served(docs[i], crds).Some? then 1 else 0) + ServedCount(docs[i + 1..], crds)
  {
    assert docs[i..][0] == docs[i] && docs[i..][1..] == docs[i + 1..];
  }

  method CheckDocument(d: Document, crds: Crds, search: Search) returns (lines: seq<Line>)
    ensures lines == DocumentLines(d, crds, search)
  {
    lines := DuplicateLines(d);
    var served := Served(d, crds);
    if served.None? {
      return;
    }
    if d.spec.Some? {
      var report := new Report();
      Walk(d.spec.value, served.value.spec, [Key("spec")], search, report);
      assert report.errors == Findings(d.spec.value, served.value.spec, [Key("spec")], search);
      lines := lines + Lines(d, report.errors);
    } else if served.value.spec.Schema? && served.value.specRequired {
      lines := lines + [Line(d.kind, d.name, SpecMissing)];
    }
  }

  // --------------------------------------------------- the stored stream

  /** What the API server stores of a document. */
  function Stored(d: Document, crds: Crds): Document {
    match Served(d, crds)
    case Some(crd) => if d.spec.Some? then d.(spec := Some(Prune(d.spec.value, crd.spec))) else d
    case None => d
  }

  function StoredStream(docs: seq<Document>, crds: Crds): seq<Document> {
    if docs == [] then [] else [Stored(docs[0], crds)] + StoredStream(docs[1..], crds)
  }

  function KnownLines(lines: seq<Line>): seq<Line> {
    if lines == [] then []
    else KnownLine(lines[0]) + KnownLines(lines[1..])
  }

  function KnownLine(line: Line): seq<Line> {
    if line.complaint.InSpec? && line.complaint.finding.UnknownField? then [] else [line]
  }

  lemma {:induction false} KnownLinesConcat(a: seq<Line>, b: seq<Line>)
    ensures KnownLines(a + b) == KnownLines(a) + KnownLines(b)
  {
    if a == [] {
      assert a + b == b;
    } else {
      KnownLinesConcat(a[1..], b);
      assert (a + b)[0] == a[0] && (a + b)[1..] == a[1..] + b;
      Regroup(KnownLine(a[0]), KnownLines(a[1..]), KnownLines(b));
    }
  }

  lemma {:induction false} KnownLinesOfFindings(d: Document, found: seq<Finding>)
    ensures KnownLines(Lines(d, found)) == Lines(d, Known(found))
  {
    if found != [] {
      KnownLinesOfFindings(d, found[1..]);
      assert Lines(d, found)[1..] == Lines(d, found[1..]);
      assert Lines(d, Known(found)) == Lines(d, if found[0].UnknownField? then [] else [found[0]]) + Lines(d, Known(found[1..]));
    }
  }

  lemma {:induction false} DuplicatesAreKnown(lines: seq<Line>)
    requires forall l | l in lines :: l.complaint.DuplicateKey?
    ensures KnownLines(lines) == lines
  {
    if lines != [] {
      assert lines[0] in lines;
      DuplicatesAreKnown(lines[1..]);
    }
  }

  lemma StoredDocument(d: Document, crds: Crds, search: Search)
    requires forall k | k in crds :: ScalarEnums(crds[k].spec) && RequiredDeclared(crds[k].spec)
    ensures DocumentLines(Stored(d, crds), crds, search) == KnownLines(DocumentLines(d, crds, search))
  {
    var dup := DuplicateLines(d);
    DuplicatesAreKnown(dup);
    assert DuplicateLines(Stored(d, crds)) == dup;
    assert Served(Stored(d, crds), crds) == Served(d, crds);
    match Served(d, crds)
    case None =>
      assert dup + [] == dup;
    case Some(crd) =>
      KnownLinesConcat(dup, SpecLines(d, crd, search));
      if d.spec.Some? {
        var found := Findings(d.spec.value, crd.spec, [Key("spec")], search);
        WalkAgreesWithPruning(d.spec.value, crd.spec, [Key("spec")], search);
        KnownLinesOfFindings(d, found);
        assert Lines(Stored(d, crds), Known(found)) == Lines(d, Known(found));
      }
  }

  /** Checking the stored stream reports what checking the stream reported, line
      for line, less the unknown fields the server dropped. */
  lemma {:induction false} StoredStreamCheck(docs: seq<Document>, crds: Crds, search: Search)
    requires forall k | k in crds :: ScalarEnums(crds[k].spec) && RequiredDeclared(crds[k].spec)
    ensures StreamLines(StoredStream(docs, crds), crds, search) == KnownLines(StreamLines(docs, crds, search))
  {
    if docs != [] {
      StoredDocument(docs[0], crds, search);
      StoredStreamCheck(docs[1..], crds, search);
      KnownLinesConcat(DocumentLines(docs[0], crds, search), StreamLines(docs[1..], crds, search));
      assert ([Stored(docs[0], crds)] + StoredStream(docs[1..], crds))[1..] == StoredStream(docs[1..], crds);
    }
  }

  /** A silent check: no document writes a key twice, and every served one fits
      its schema. */
  lemma {:induction false} SilentCheck(docs: seq<Document>, crds: Crds, search: Search)
    ensures StreamLines(docs, crds, search) == [] <==>
      forall d | d in docs ::
        && d.duplicates == []
        && forall key | key in crds && Some(key.0) == d.apiVersion && Some(key.1) == d.kind ::
             var crd := crds[key];
             if d.spec.Some? then Fits(d.spec.value, crd.spec, search) else crd.spec.Schema? ==> !crd.specRequired
  {
    if docs != [] {
      SilentCheck(docs[1..], crds, search);
      assert docs == [docs[0]] + docs[1..];
      var d := docs[0];
      assert DuplicateLines(d) == [] <==> d.duplicates == [];
      ServedIs(d, crds);
      match Served(d, crds)
      case Some(crd) =>
        if d.spec.Some? { CleanWalk(d.spec.value, crd.spec, [Key("spec")], search); }
      case None =>
    }
  }

  /** A document is served by the schema of its own version and kind. */
  lemma ServedIs(d: Document, crds: Crds)
    ensures forall key | key in crds && Some(key.0) == d.apiVersion && Some(key.1) == d.kind :: Served(d, crds) == Some(crds[key])
    ensures Served(d, crds).Some? <==> exists key :: key in crds && Some(key.0) == d.apiVersion && Some(key.1) == d.kind
  {
    if Served(d, crds).Some? {
      var key := (d.apiVersion.value, d.kind.value);
      assert key in crds && Some(key.0) == d.apiVersion && Some(key.1) == d.kind;
    }
  }

  /** Counted are exactly the documents with a schema. */
  lemma {:induction false} ServedAreCounted(docs: seq<Document>, crds: Crds, served: Document -> bool)
    requires forall d :: served(d) <==> exists key :: key in crds && Some(key.0) == d.apiVersion && Some(key.1) == d.kind
    ensures ServedCount(docs, crds) == |Filter(docs, served)|
  {
    if docs != [] {
      ServedIs(docs[0], crds);
      ServedAreCounted(docs[1..], crds, served);
    }
  }
}
