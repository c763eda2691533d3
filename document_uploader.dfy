/**
 * The dashboard's document uploader: the list of uploaded documents, the
 * drag-highlight flag, the simulated review that later rewrites a record's
 * status, and the per-type requirement rows.
 *
 * The clock readings (`Date.now()` for the id, `toISOString()` for the
 * timestamp) and the random review verdict are parameters.
 */
module DocumentUploader {
  import opened Wrappers

  datatype DocType = Passport | Nin | UtilityBill

  datatype DocStatus = Pending | Approved | Rejected

  datatype Document = Document(id: string, docType: DocType, fileName: string, status: DocStatus, uploadedAt: string)

  /** A file handed to the uploader; only its name is used. */
  datatype UploadedFile = UploadedFile(name: string)

  /** The clock readings taken while one file is handled. */
  datatype Stamp = Stamp(id: string, uploadedAt: string)

  /** One row of the "Required Documents" list. */
  datatype Requirement = Requirement(docType: DocType, caption: string, required: bool)

  const DocumentTypes: seq<Requirement> := [
    Requirement(Passport, "Passport", true),
    Requirement(Nin, "National ID (NIN)", true),
    Requirement(UtilityBill, "Utility Bill", true)
  ]

  /** The record created for one file: always a pending passport. */
  function NewRecord(file: UploadedFile, stamp: Stamp): (d: Document)
    ensures d.docType == Passport && d.status == Pending
    ensures d.fileName == file.name && d.id == stamp.id && d.uploadedAt == stamp.uploadedAt
  {
    Document(stamp.id, Passport, file.name, Pending, stamp.uploadedAt)
  }

  /** The records one upload appends: one per file, in file order. */
  function NewRecords(files: seq<UploadedFile>, stamps: seq<Stamp>): (r: seq<Document>)
    requires |stamps| == |files|
    ensures |r| == |files|
    ensures forall i :: 0 <= i < |files| ==>
      r[i].id == stamps[i].id && r[i].docType == Passport && r[i].fileName == files[i].name
      && r[i].status == Pending && r[i].uploadedAt == stamps[i].uploadedAt
  {
    if files == [] then []
    else NewRecords(files[..|files| - 1], stamps[..|stamps| - 1]) + [NewRecord(files[|files| - 1], stamps[|stamps| - 1])]
  }

  /** The status the simulated review settles on. */
  function Verdict(approved: bool): (s: DocStatus)
    ensures s != Pending
  {
    if approved then Approved else Rejected
  }

  /**
   * The review callback's `prev.map(...)`: every record whose id is `id` takes
   * the status of its own draw `approved[i]` (`Math.random() > 0.3` is
   * evaluated once per matching record) and keeps its other fields; every
   * other record is left as it is and its draw is unused.
   */
  function ReviewAll(docs: seq<Document>, id: string, approved: seq<bool>): (r: seq<Document>)
    requires |approved| == |docs|
    ensures |r| == |docs|
    ensures forall i :: 0 <= i < |docs| && docs[i].id == id ==> r[i] == docs[i].(status := Verdict(approved[i]))
    ensures forall i :: 0 <= i < |docs| && docs[i].id != id ==> r[i] == docs[i]
  {
    if docs == [] then []
    else
      var head := if docs[0].id == id then docs[0].(status := Verdict(approved[0])) else docs[0];
      var rest := ReviewAll(docs[1..], id, approved[1..]);
      assert forall i :: 1 <= i < |docs| ==> docs[i] == docs[1..][i - 1] && approved[i] == approved[1..][i - 1];
      [head] + rest
  }

  /**
   * Two records that share an id (two files handled within one millisecond)
   * are both settled by one review, each by its own draw.
   */
  lemma {:induction false} SharedIdReviewedTogether(docs: seq<Document>, i: nat, j: nat, approved: seq<bool>)
    requires i < |docs| && j < |docs| && docs[i].id == docs[j].id && |approved| == |docs|
    ensures var r := ReviewAll(docs, docs[i].id, approved);
      r[i].status == Verdict(approved[i]) && r[j].status == Verdict(approved[j])
      && r[i].status != Pending && r[j].status != Pending
  {
  }

  /** The two records of one shared id can settle differently: one approved, the other rejected. */
  lemma SharedIdMaySettleApart()
    ensures var d := Document("1", Passport, "a.pdf", Pending, "t");
      var r := ReviewAll([d, d.(fileName := "b.pdf")], "1", [true, false]);
      r[0].status == Approved && r[1].status == Rejected
  {
  }

  /** `documents.find(doc => doc.type === t)`: the first record of that type. */
  function FindByType(docs: seq<Document>, t: DocType): (r: Option<Document>)
    ensures r.Some? ==> exists i :: 0 <= i < |docs| && docs[i] == r.value && r.value.docType == t
                                   && forall j :: 0 <= j < i ==> docs[j].docType != t
    ensures r.None? <==> forall i :: 0 <= i < |docs| ==> docs[i].docType != t
  {
    if docs == [] then None
    else if docs[0].docType == t then Some(docs[0])
    else
      var r := FindByType(docs[1..], t);
      assert forall i :: 1 <= i < |docs| ==> docs[i] == docs[1..][i - 1];
      r
  }

  predicate AllPassports(docs: seq<Document>)
  {
    forall i :: 0 <= i < |docs| ==> docs[i].docType == Passport
  }

  /** Since every upload is typed as a passport, the NIN and utility-bill rows never show a record. */
  lemma {:induction false} OnlyPassportRowFilled(docs: seq<Document>)
    requires AllPassports(docs)
    ensures FindByType(docs, Nin).None? && FindByType(docs, UtilityBill).None?
    ensures docs != [] ==> FindByType(docs, Passport) == Some(docs[0])
    ensures forall i :: 0 <= i < |DocumentTypes| && DocumentTypes[i].docType != Passport ==>
      FindByType(docs, DocumentTypes[i].docType).None?
  {
  }

  /** Uploads and reviews only ever produce passport records. */
  lemma {:induction false} UploadsAndReviewsKeepPassports(docs: seq<Document>, files: seq<UploadedFile>, stamps: seq<Stamp>,
                                                          id: string, approved: seq<bool>)
    requires AllPassports(docs) && |stamps| == |files| && |approved| == |docs|
    ensures AllPassports(docs + NewRecords(files, stamps))
    ensures AllPassports(ReviewAll(docs, id, approved))
  {
    var added := NewRecords(files, stamps);
    forall i | 0 <= i < |docs + added| ensures (docs + added)[i].docType == Passport {
      if i >= |docs| {
        assert (docs + added)[i] == added[i - |docs|];
      }
    }
  }

  /** The border and background classes of a record with the given status; never the muted empty-row background. */
  function StatusColor(status: DocStatus): (c: string)
    ensures c != "bg-muted/50"
  {
    match status
    case Pending => "border-yellow-200 bg-yellow-50"
    case Approved => "border-green-200 bg-green-50"
    case Rejected => "border-red-200 bg-red-50"
  }

  datatype Glyph = ClockGlyph | CheckGlyph | CrossGlyph

  datatype Icon = Icon(glyph: Glyph, colorClass: string)

  /** The icon shown for a record with the given status: a tick exactly for approved, a cross exactly for rejected. */
  function StatusIcon(status: DocStatus): (i: Icon)
    ensures i.glyph == CheckGlyph <==> status == Approved
    ensures i.glyph == CrossGlyph <==> status == Rejected
  {
    match status
    case Pending => Icon(ClockGlyph, "text-yellow-500")
    case Approved => Icon(CheckGlyph, "text-green-500")
    case Rejected => Icon(CrossGlyph, "text-red-500")
  }

  /** Distinct statuses are drawn distinctly, both by color and by icon. */
  lemma StatusStylesDistinct(s1: DocStatus, s2: DocStatus)
    ensures s1 != s2 ==> StatusColor(s1) != StatusColor(s2) && StatusIcon(s1) != StatusIcon(s2)
  {
  }

  /** A requirement row's classes: the status color of its first record, a muted background without one. */
  function RequirementRowColor(docs: seq<Document>, t: DocType): (c: string)
    ensures FindByType(docs, t).None? ==> c == "bg-muted/50"
    ensures FindByType(docs, t).Some? ==> c == StatusColor(FindByType(docs, t).value.status)
  {
    match FindByType(docs, t)
    case None => "bg-muted/50"
    case Some(d) => StatusColor(d.status)
  }

  class Uploader {
    var documents: seq<Document>
    var isDragging: bool

    predicate Valid()
      reads this
    {
      AllPassports(documents)
    }

    constructor ()
      ensures documents == [] && !isDragging && Valid()
    {
      documents := [];
      isDragging := false;
    }

    method OnDragOver()
      modifies this
      ensures isDragging && documents == old(documents)
    {
      isDragging := true;
    }

    method OnDragLeave()
      modifies this
      ensures !isDragging && documents == old(documents)
    {
      isDragging := false;
    }

    /** `onDrop`: clear the highlight, then upload the dropped files. */
    method OnDrop(files: seq<UploadedFile>, stamps: seq<Stamp>)
      requires |stamps| == |files| && Valid()
      modifies this
      ensures !isDragging && documents == old(documents) + NewRecords(files, stamps) && Valid()
    {
      isDragging := false;
      HandleFileUpload(files, stamps);
    }

    /** `handleFileUpload`: append one pending passport record per file, reading the clock once per file. */
    method HandleFileUpload(files: seq<UploadedFile>, stamps: seq<Stamp>)
      requires |stamps| == |files| && Valid()
      modifies this
      ensures documents == old(documents) + NewRecords(files, stamps)
      ensures isDragging == old(isDragging) && Valid()
    {
      for i := 0 to |files|
        invariant documents == old(documents) + NewRecords(files[..i], stamps[..i])
        invariant isDragging == old(isDragging)
      {
        assert files[..i + 1][..i] == files[..i] && stamps[..i + 1][..i] == stamps[..i];
        documents := documents + [NewRecord(files[i], stamps[i])];
      }
      assert files[..|files|] == files && stamps[..|stamps|] == stamps;
      UploadsAndReviewsKeepPassports(old(documents), files, stamps, "", seq(|old(documents)|, _ => false));
    }

    /** The review timer of one upload firing, with one random draw per record of the list it maps over. */
    method CompleteReview(id: string, approved: seq<bool>)
      requires Valid() && |approved| == |documents|
      modifies this
      ensures documents == ReviewAll(old(documents), id, approved)
      ensures isDragging == old(isDragging) && Valid()
    {
      documents := ReviewAll(documents, id, approved);
      UploadsAndReviewsKeepPassports(old(documents), [], [], id, approved);
    }
  }
}
