/**
 * The upload endpoint that slices a PDF into per-document files
 * (pages/api/v1/ocr.ts). The multipart parsing, the file system, PDF
 * loading and copying, and base64 encoding are host behaviour: the upload
 * arrives as its path and MIME type, the page count as a number, and the
 * extraction through the reply the model gave.
 */
module OcrHandler {
  import opened Results
  import opened Js
  import opened Text
  import OcrExtract
  import opened Http

  // ---------------------------------------------------------------------
  // slicePdf
  // ---------------------------------------------------------------------

  /**
   * `Array.from({ length: end - start + 1 }, (_, i) => start + i).map(p => p - 1)`:
   * the zero-based indices of the pages start..end, none when end < start.
   */
  function PageIndices(start: int, end: int): (r: seq<int>)
    ensures |r| == if end - start + 1 > 0 then end - start + 1 else 0
    ensures forall k :: 0 <= k < |r| ==> r[k] == start - 1 + k
  {
    if end - start + 1 <= 0 then [] else seq(end - start + 1, k => start - 1 + k)
  }

  /** For a kept slice the indices are valid pages of the file, and cover exactly start..end. */
  lemma PageIndicesOfKept(start: int, end: int, totalPages: int)
    requires 0 < start <= end <= totalPages
    ensures var r := PageIndices(start, end);
      |r| == end - start + 1
      && (forall k :: 0 <= k < |r| ==> 0 <= r[k] < totalPages)
      && (forall p :: start - 1 <= p < end <==> p in r)
  {
    var r := PageIndices(start, end);
    forall p | start - 1 <= p < end
      ensures p in r
    {
      assert r[p - start + 1] == p;
    }
  }

  // ---------------------------------------------------------------------
  // Slices of a PDF
  // ---------------------------------------------------------------------

  /** A document's page range after normalisation. */
  datatype Slice = Slice(id: string, start: real, end: real)

  /** `typeof v === 'string' ? v : fallback` */
  function TextOr(v: Value, fallback: string): (r: string)
    ensures v.Str? ==> r == v.s
    ensures !v.Str? ==> r == fallback
  {
    if v.Str? then v.s else fallback
  }

  /** `typeof v === 'number' ? v : 0` */
  function NumberOr0(v: Value): (r: real)
    ensures v.Num? ==> r == v.n
    ensures !v.Num? ==> r == 0.0
  {
    if v.Num? then v.n else 0.0
  }

  /** The `map` of lines 38-42: an id text or 'document', numeric bounds or 0. */
  function Normalize(d: Value): Slice {
    Slice(TextOr(Get(d, "id"), "document"), NumberOr0(Get(d, "start")), NumberOr0(Get(d, "end")))
  }

  /** `d.start > 0 && d.end >= d.start && d.end <= totalPages` */
  predicate Kept(s: Slice, totalPages: nat) {
    s.start > 0.0 && s.end >= s.start && s.end <= totalPages as real
  }

  /** The listed documents the slicing keeps: objects whose normalised range lies within the file. */
  function KeptDocs(docs: seq<Value>, totalPages: nat): (r: seq<Value>)
    ensures |r| <= |docs|
    ensures forall d :: d in r <==> d in docs && IsObject(d) && Kept(Normalize(d), totalPages)
  {
    if docs == [] then []
    else
      var rest := KeptDocs(docs[1..], totalPages);
      assert forall d :: d in docs <==> d == docs[0] || d in docs[1..];
      if IsObject(docs[0]) && Kept(Normalize(docs[0]), totalPages) then [docs[0]] + rest else rest
  }

  /** The `slices` of lines 36-43. */
  function Slices(docs: seq<Value>, totalPages: nat): (r: seq<Slice>)
    ensures |r| == |KeptDocs(docs, totalPages)|
    ensures forall j :: 0 <= j < |r| ==> r[j] == Normalize(KeptDocs(docs, totalPages)[j])
    ensures forall j :: 0 <= j < |r| ==> Kept(r[j], totalPages)
  {
    var kept := KeptDocs(docs, totalPages);
    assert forall j :: 0 <= j < |kept| ==> kept[j] in kept;
    seq(|kept|, j requires 0 <= j < |kept| => Normalize(kept[j]))
  }

  /** `typeof d?.docdate === 'string' ? d.docdate : 'unknown-date'` */
  function DocDate(d: Value): string {
    TextOr(Get(d, "docdate"), "unknown-date")
  }

  /** One output file of a PDF; its bytes are not modelled. */
  datatype PdfFile = PdfFile(id: string, start: real, end: real, filename: string)

  /**
   * Lines 45-57 as written: the i-th slice takes its date from the i-th
   * listed document, which is another document once an earlier one was dropped.
   */
  function PdfFilesAsWritten(docs: seq<Value>, totalPages: nat): (r: seq<PdfFile>)
    ensures var slices := Slices(docs, totalPages);
      |r| == |slices|
      && forall j :: 0 <= j < |r| ==>
           r[j] == PdfFile(slices[j].id, slices[j].start, slices[j].end,
                           DocDate(docs[j]) + "_" + slices[j].id + ".pdf")
  {
    var slices := Slices(docs, totalPages);
    seq(|slices|, j requires 0 <= j < |slices| =>
      PdfFile(slices[j].id, slices[j].start, slices[j].end, DocDate(docs[j]) + "_" + slices[j].id + ".pdf"))
  }

  /** The file for a kept document: its own range, id and date. */
  function PdfFileOf(d: Value): (r: PdfFile)
    ensures r.filename == DocDate(d) + "_" + r.id + ".pdf"
    ensures r.id == Normalize(d).id && r.start == Normalize(d).start && r.end == Normalize(d).end
  {
    var s := Normalize(d);
    PdfFile(s.id, s.start, s.end, DocDate(d) + "_" + s.id + ".pdf")
  }

  /** Lines 45-57 as intended: each file is named after the date of the document it was cut for. */
  function PdfFiles(docs: seq<Value>, totalPages: nat): (r: seq<PdfFile>)
    ensures var kept := KeptDocs(docs, totalPages);
      |r| == |kept| && forall j :: 0 <= j < |r| ==> r[j] == PdfFileOf(kept[j])
  {
    var kept := KeptDocs(docs, totalPages);
    seq(|kept|, j requires 0 <= j < |kept| => PdfFileOf(kept[j]))
  }

  /** Each intended file carries a range within the file and the date of its own document. */
  lemma PdfFilesSpec(docs: seq<Value>, totalPages: nat)
    ensures forall f :: f in PdfFiles(docs, totalPages) ==>
      0.0 < f.start <= f.end <= totalPages as real
      && exists d :: d in docs && IsObject(d) && f.filename == DocDate(d) + "_" + f.id + ".pdf"
  {
    var kept := KeptDocs(docs, totalPages);
    var r := PdfFiles(docs, totalPages);
    forall f | f in r
      ensures 0.0 < f.start <= f.end <= totalPages as real
      ensures exists d :: d in docs && IsObject(d) && f.filename == DocDate(d) + "_" + f.id + ".pdf"
    {
      var j :| 0 <= j < |r| && r[j] == f;
      assert kept[j] in kept;
    }
  }

  /** When no listed document is dropped, the code as written and the intended one agree. */
  lemma {:induction false} NothingDroppedAgrees(docs: seq<Value>, totalPages: nat)
    requires forall i :: 0 <= i < |docs| ==> IsObject(docs[i]) && Kept(Normalize(docs[i]), totalPages)
    ensures PdfFilesAsWritten(docs, totalPages) == PdfFiles(docs, totalPages)
  {
    KeptAll(docs, totalPages);
  }

  lemma {:induction false} KeptAll(docs: seq<Value>, totalPages: nat)
    requires forall i :: 0 <= i < |docs| ==> IsObject(docs[i]) && Kept(Normalize(docs[i]), totalPages)
    ensures KeptDocs(docs, totalPages) == docs
  {
    if docs != [] {
      KeptAll(docs[1..], totalPages);
      assert docs == [docs[0]] + docs[1..];
    }
  }

  /**
   * A dropped first document shifts the dates: the second document's file
   * is named after the first document's date.
   */
  lemma MisalignedDateExample()
    ensures var docs := [Obj([Prop("id", Str("x")), Prop("docdate", Str("2024-01"))]),
                         Obj([Prop("id", Str("a")), Prop("start", Num(1.0)), Prop("end", Num(1.0)),
                              Prop("docdate", Str("2024-02"))])];
      PdfFilesAsWritten(docs, 1) == [PdfFile("a", 1.0, 1.0, "2024-01_a.pdf")]
      && PdfFiles(docs, 1) == [PdfFile("a", 1.0, 1.0, "2024-02_a.pdf")]
  {
    var x := Obj([Prop("id", Str("x")), Prop("docdate", Str("2024-01"))]);
    var a := Obj([Prop("id", Str("a")), Prop("start", Num(1.0)), Prop("end", Num(1.0)),
                  Prop("docdate", Str("2024-02"))]);
    ExampleFields(x, a);
    KeptOfPair(x, a, 1);
    ExampleAsWritten(x, a);
    ExampleIntended(x, a);
  }

  lemma ExampleNames()
    ensures "2024-01" + "_" + "a" + ".pdf" == "2024-01_a.pdf"
    ensures "2024-02" + "_" + "a" + ".pdf" == "2024-02_a.pdf"
  {
  }

  lemma ExampleAsWritten(x: Value, a: Value)
    requires DocDate(x) == "2024-01" && Normalize(a) == Slice("a", 1.0, 1.0)
    requires KeptDocs([x, a], 1) == [a]
    ensures PdfFilesAsWritten([x, a], 1) == [PdfFile("a", 1.0, 1.0, "2024-01_a.pdf")]
  {
    ExampleNames();
    var w := PdfFilesAsWritten([x, a], 1);
    assert |w| == 1;
    assert w[0] == PdfFile("a", 1.0, 1.0, DocDate(x) + "_" + "a" + ".pdf");
  }

  lemma ExampleIntended(x: Value, a: Value)
    requires DocDate(a) == "2024-02" && Normalize(a) == Slice("a", 1.0, 1.0)
    requires KeptDocs([x, a], 1) == [a]
    ensures PdfFiles([x, a], 1) == [PdfFile("a", 1.0, 1.0, "2024-02_a.pdf")]
  {
    ExampleNames();
    var f := PdfFiles([x, a], 1);
    var g := PdfFileOf(a);
    assert g == PdfFile("a", 1.0, 1.0, "2024-02" + "_" + "a" + ".pdf");
    assert |f| == 1 && f[0] == g;
    assert f == [g];
  }

  lemma ExampleFields(x: Value, a: Value)
    requires x == Obj([Prop("id", Str("x")), Prop("docdate", Str("2024-01"))])
    requires a == Obj([Prop("id", Str("a")), Prop("start", Num(1.0)), Prop("end", Num(1.0)),
                       Prop("docdate", Str("2024-02"))])
    ensures Get(x, "start") == Undefined && DocDate(x) == "2024-01"
    ensures DocDate(a) == "2024-02" && Normalize(a) == Slice("a", 1.0, 1.0)
  {
    assert "start" != "id" && "start" != "docdate" && "docdate" != "id";
    assert "end" != "id" && "end" != "start" && "docdate" != "start" && "docdate" != "end";
  }

  lemma KeptOfPair(x: Value, a: Value, totalPages: nat)
    requires Get(x, "start") == Undefined && IsObject(a) && Kept(Normalize(a), totalPages)
    ensures KeptDocs([x, a], totalPages) == [a]
  {
    assert [x, a][1..] == [a];
    assert [a][1..] == [];
  }

  // ---------------------------------------------------------------------
  // Images
  // ---------------------------------------------------------------------

  /** `mimetype.split('/')[1] || 'jpg'` */
  function Extension(mimetype: string): (r: string)
    ensures r != "" && '/' !in r
    ensures SecondField(mimetype, '/').Some? && SecondField(mimetype, '/').value != "" ==>
      r == SecondField(mimetype, '/').value
    ensures SecondField(mimetype, '/').None? || SecondField(mimetype, '/').value == "" ==> r == "jpg"
  {
    match SecondField(mimetype, '/')
    case Some(e) => if e != "" then e else "jpg"
    case None => "jpg"
  }

  lemma ExtensionOfPng()
    ensures Extension("image/png") == "png"
  {
    assert "image/png" == "image" + "/" + "png";
    SecondFieldOf("image", "png", '/');
  }

  /** `(a + c + b).split(c)[1] == b` when neither part holds the separator. */
  lemma SecondFieldOf(a: string, b: string, c: char)
    requires c !in a && c !in b
    ensures SecondField(a + [c] + b, c) == Some(b)
  {
    var s := a + [c] + b;
    BeforeFirstOf(a, [c] + b, c);
    assert s == a + ([c] + b);
    var t := AfterFirst(s, c).value;
    assert s == a + [c] + t;
    assert t == s[|a| + 1..] == b;
    BeforeFirstOf(b, [], c);
    assert b + [] == b;
  }

  /** The text before the first separator of a + rest is a, when a has none and rest starts with one or is empty. */
  lemma {:induction false} BeforeFirstOf(a: string, rest: string, c: char)
    requires c !in a && (rest == [] || rest[0] == c)
    ensures BeforeFirst(a + rest, c) == a
  {
    if a == [] {
      assert a + rest == rest;
    } else {
      assert a[0] in a;
      assert forall y :: y in a[1..] ==> y in a;
      assert (a + rest)[1..] == a[1..] + rest;
      BeforeFirstOf(a[1..], rest, c);
      assert a == [a[0]] + a[1..];
    }
  }

  /** One output file of an image; its bytes are not modelled. */
  datatype ImageFile = ImageFile(id: string, filename: string, mimetype: string)

  /** `docs.map(...)` of lines 65-75 over the listed objects. */
  function ImageFiles(docs: seq<Value>, mimetype: string): (r: seq<ImageFile>)
    ensures var objs := ObjectsOnly(docs);
      |r| == |objs| && forall j :: 0 <= j < |r| ==>
        var id := TextOr(Get(objs[j], "id"), "document");
        r[j] == ImageFile(id, DocDate(objs[j]) + "_" + id + "." + Extension(mimetype), mimetype)
  {
    var objs := ObjectsOnly(docs);
    seq(|objs|, j requires 0 <= j < |objs| =>
      var id := TextOr(Get(objs[j], "id"), "document");
      ImageFile(id, DocDate(objs[j]) + "_" + id + "." + Extension(mimetype), mimetype))
  }

  /** `.filter(d => d && typeof d === 'object')` */
  function ObjectsOnly(docs: seq<Value>): (r: seq<Value>)
    ensures forall d :: d in r <==> d in docs && IsObject(d)
  {
    if docs == [] then []
    else
      var rest := ObjectsOnly(docs[1..]);
      assert forall d :: d in docs <==> d == docs[0] || d in docs[1..];
      if IsObject(docs[0]) then [docs[0]] + rest else rest
  }

  // ---------------------------------------------------------------------
  // The handler
  // ---------------------------------------------------------------------

  /** The extraction result as the response body spreads it. */
  function ResultObject(d: OcrExtract.DocResult): (r: Value)
    ensures r.Obj? && KeysOf(r.props) == ["doctypeid", "matched", "multiple", "periodo", "data"]
  {
    Obj([Prop("doctypeid", if d.doctypeid.Some? then Str(d.doctypeid.value) else Null),
         Prop("matched", Bool(d.matched)),
         Prop("multiple", Bool(d.multiple)),
         Prop("periodo", d.periodo),
         Prop("data", d.data)])
  }

  /** `(result.documents || [])` */
  function ListedDocuments(d: OcrExtract.DocResult): seq<Value> {
    var listed := Or(Get(ResultObject(d), "documents"), Arr([]));
    if listed.Arr? then listed.items else []
  }

  /** An extraction result has no `documents` field, so nothing is ever listed. */
  lemma NothingListed(d: OcrExtract.DocResult)
    ensures ListedDocuments(d) == []
  {
    var r := ResultObject(d);
    assert "documents" !in KeysOf(r.props);
  }

  datatype Files = NoFiles | PdfOut(pdfs: seq<PdfFile>) | ImageOut(images: seq<ImageFile>)

  datatype OcrReply = Failure(status: nat, error: string) | Success(result: OcrExtract.DocResult, files: Files)

  /**
   * The handler: 405 for anything but POST, 400 without a file, 500 with the
   * message when the extraction fails, otherwise the result with the files
   * cut from it (pages of a PDF, the whole image).
   */
  function Handle(verb: string, upload: Option<Upload>, reply: Option<string>, schemas: set<string>,
                  parse: string -> Result<Value>, totalPages: nat): (r: OcrReply)
    ensures verb != "POST" ==> r == Failure(405, "Method not allowed")
    ensures verb == "POST" && MissingFile(upload) ==>
      r == Failure(400, "No file provided")
    ensures verb == "POST" && !MissingFile(upload) ==>
      var mimetype := upload.value.mimetype;
      match OcrExtract.Doc2Fields(mimetype, OcrExtract.Claude, None, reply, schemas, parse)
      case Err(e) => r == Failure(500, e)
      case Ok(res) => r == Success(res, if mimetype == "application/pdf" then PdfOut([]) else ImageOut([]))
    ensures r.Success? ==>
      upload.Some? && OcrExtract.Accepted(upload.value.mimetype)
      && OcrExtract.Doc2Fields(upload.value.mimetype, OcrExtract.Claude, None, reply, schemas, parse) == Ok(r.result)
      && (r.files == PdfOut([]) || r.files == ImageOut([]))
    ensures r.Failure? && r.status == 500 ==>
      upload.Some? && upload.value.mimetype != "" && OcrExtract.Doc2Fields(upload.value.mimetype, OcrExtract.Claude, None, reply, schemas, parse)
        == Err(r.error)
  {
    if verb != "POST" then Failure(405, "Method not allowed")
    else if MissingFile(upload) then
      Failure(400, "No file provided")
    else
      var mimetype := upload.value.mimetype;
      match OcrExtract.Doc2Fields(mimetype, OcrExtract.Claude, None, reply, schemas, parse)
      case Err(msg) => Failure(500, msg)
      case Ok(result) =>
        NothingListed(result);
        if mimetype == "application/pdf" then
          Success(result, PdfOut(PdfFilesAsWritten(ListedDocuments(result), totalPages)))
        else if StartsWith(mimetype, "image/") then
          Success(result, ImageOut(ImageFiles(ListedDocuments(result), mimetype)))
        else
          Success(result, NoFiles)
  }
}
