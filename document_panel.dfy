/**
  The admin page's document panel: it lists the indexed documents, validates a chosen file
  (PDF type first, then the 10 MiB limit) before uploading it, and deletes a document after
  the user confirms. Each awaited request is a step whose outcome is a parameter; the
  requests issued and the notifications shown are logged in order.
 */
module DocumentPanel {
  import opened Wrappers

  const PdfType := "application/pdf"
  const MaxUploadBytes := 10 * 1024 * 1024

  /** One entry of the `/documents` listing. */
  datatype Document = Document(docId: string, filename: string, uploadDate: string, chunkCount: int)

  /** The file the user picked: its name, its MIME type and its size in bytes. */
  datatype File = File(name: string, mimeType: string, size: int)

  /** A notification: title, description, and whether it is shown as an error. */
  datatype Toast = Toast(title: string, description: string, destructive: bool)

  /** The requests the panel issues to the backend. */
  datatype Request = ListDocuments | UploadDocument(file: File) | DeleteDocument(docId: string)

  /** How `GET /documents` ended: a listing, a non-2xx response, or a thrown error. */
  datatype ListOutcome = Listed(docs: seq<Document>) | ListNotOk | ListThrew

  /** How the upload ended: a 2xx response naming the stored file, a non-2xx response, or a thrown error. */
  datatype UploadOutcome = UploadOk(filename: string) | UploadNotOk | UploadThrew

  /** How the delete request ended. */
  datatype DeleteOutcome = DeleteOk | DeleteNotOk | DeleteThrew

  const InvalidType := Toast("Invalid file type", "Please upload a PDF file", true)
  const TooLarge := Toast("File too large", "Please upload a file smaller than 10MB", true)
  const UploadFailed := Toast("Upload failed", "Failed to upload document. Please try again.", true)
  const DeleteFailed := Toast("Delete failed", "Failed to delete document. Please try again.", true)

  function UploadSucceeded(filename: string): Toast {
    Toast("Upload successful", filename + " has been uploaded and indexed", false)
  }

  function Deleted(filename: string): Toast {
    Toast("Document deleted", filename + " has been removed", false)
  }

  /**
    The client-side validation: a file that is not a PDF is refused for its type whatever
    its size, a PDF above 10 MiB is refused for its size, and everything else passes.
   */
  function Rejection(file: File): (r: Option<Toast>)
    ensures r.None? <==> file.mimeType == PdfType && file.size <= MaxUploadBytes
    ensures file.mimeType != PdfType ==> r == Some(InvalidType)
    ensures file.mimeType == PdfType && file.size > MaxUploadBytes ==> r == Some(TooLarge)
  {
    if file.mimeType != PdfType then Some(InvalidType)
    else if file.size > MaxUploadBytes then Some(TooLarge)
    else None
  }

  class Panel {
    var documents: seq<Document>
    var uploading: bool
    var loading: bool
    var requests: seq<Request>
    var toasts: seq<Toast>

    /** No upload request ever carries a file the validation refuses. */
    ghost predicate Valid()
      reads this
    {
      forall i :: 0 <= i < |requests| && requests[i].UploadDocument? ==> Rejection(requests[i].file).None?
    }

    /** Mounting, before the listing effect runs: no documents, loading, not uploading. */
    constructor ()
      ensures Valid()
      ensures documents == [] && !uploading && loading && requests == [] && toasts == []
    {
      documents := [];
      uploading := false;
      loading := true;
      requests := [];
      toasts := [];
    }

    /**
      `fetchDocuments`: one listing request; the list is replaced only by a 2xx listing,
      and loading ends on every path.
     */
    method FetchDocuments(outcome: ListOutcome)
      requires Valid()
      modifies this
      ensures Valid()
      ensures requests == old(requests) + [ListDocuments]
      ensures documents == if outcome.Listed? then outcome.docs else old(documents)
      ensures !loading
      ensures uploading == old(uploading) && toasts == old(toasts)
    {
      requests := requests + [ListDocuments];
      if outcome.Listed? {
        documents := outcome.docs;
      }
      loading := false;
    }

    /**
      `handleFileUpload` up to the awaited request: nothing happens without a file; a
      refused file shows its notification and sends nothing; a valid file sets `uploading`
      and is sent. The file input is disabled while uploading.
     */
    method StartUpload(file: Option<File>) returns (started: bool)
      requires Valid() && !uploading
      modifies this
      ensures Valid()
      ensures started <==> file.Some? && Rejection(file.value).None?
      ensures uploading == started
      ensures started ==> requests == old(requests) + [UploadDocument(file.value)] && toasts == old(toasts)
      ensures !started ==> requests == old(requests)
      ensures file.None? ==> toasts == old(toasts)
      ensures file.Some? && Rejection(file.value).Some? ==> toasts == old(toasts) + [Rejection(file.value).value]
      ensures documents == old(documents) && loading == old(loading)
    {
      if file.None? {
        return false;
      }
      var refusal := Rejection(file.value);
      if refusal.Some? {
        toasts := toasts + [refusal.value];
        return false;
      }
      uploading := true;
      requests := requests + [UploadDocument(file.value)];
      started := true;
    }

    /**
      The rest of `handleFileUpload`, once the upload request has ended: a 2xx response
      shows the success notification and refreshes the listing (whose outcome is
      `refresh`); anything else shows the failure notification. `uploading` ends on every path.
     */
    method FinishUpload(outcome: UploadOutcome, refresh: ListOutcome)
      requires Valid() && uploading
      modifies this
      ensures Valid()
      ensures !uploading
      ensures outcome.UploadOk? ==>
        && toasts == old(toasts) + [UploadSucceeded(outcome.filename)]
        && requests == old(requests) + [ListDocuments]
        && documents == (if refresh.Listed? then refresh.docs else old(documents))
        && !loading
      ensures !outcome.UploadOk? ==>
        && toasts == old(toasts) + [UploadFailed]
        && requests == old(requests) && documents == old(documents) && loading == old(loading)
    {
      if outcome.UploadOk? {
        toasts := toasts + [UploadSucceeded(outcome.filename)];
        FetchDocuments(refresh);
      } else {
        toasts := toasts + [UploadFailed];
      }
      uploading := false;
    }

    /**
      `handleDelete`: nothing happens unless the user confirms; a confirmed delete sends the
      request, and only a 2xx response refreshes the listing.
     */
    method HandleDelete(docId: string, filename: string, confirmed: bool, outcome: DeleteOutcome, refresh: ListOutcome)
      requires Valid()
      modifies this
      ensures Valid()
      ensures !confirmed ==>
        requests == old(requests) && toasts == old(toasts) && documents == old(documents) && loading == old(loading)
      ensures confirmed && outcome.DeleteOk? ==>
        && requests == old(requests) + [DeleteDocument(docId), ListDocuments]
        && toasts == old(toasts) + [Deleted(filename)]
        && documents == (if refresh.Listed? then refresh.docs else old(documents))
        && !loading
      ensures confirmed && !outcome.DeleteOk? ==>
        && requests == old(requests) + [DeleteDocument(docId)]
        && toasts == old(toasts) + [DeleteFailed]
        && documents == old(documents) && loading == old(loading)
      ensures uploading == old(uploading)
    {
      if !confirmed {
        return;
      }
      requests := requests + [DeleteDocument(docId)];
      if outcome.DeleteOk? {
        toasts := toasts + [Deleted(filename)];
        FetchDocuments(refresh);
      } else {
        toasts := toasts + [DeleteFailed];
      }
    }
  }

  /** The upload of one file on a freshly mounted panel whose listing came back empty. */
  method UploadOnce(file: File, outcome: UploadOutcome, refresh: ListOutcome)
    returns (sent: seq<Request>, shown: seq<Toast>, docs: seq<Document>, busy: bool)
    ensures Rejection(file).Some? ==> sent == [ListDocuments] && shown == [Rejection(file).value] && docs == []
    ensures Rejection(file).None? && outcome.UploadOk? ==>
      && sent == [ListDocuments, UploadDocument(file), ListDocuments]
      && shown == [UploadSucceeded(outcome.filename)]
      && docs == (if refresh.Listed? then refresh.docs else [])
    ensures Rejection(file).None? && !outcome.UploadOk? ==>
      sent == [ListDocuments, UploadDocument(file)] && shown == [UploadFailed] && docs == []
    ensures !busy
  {
    var p := new Panel();
    p.FetchDocuments(Listed([]));
    var started := p.StartUpload(Some(file));
    if started {
      p.FinishUpload(outcome, refresh);
    }
    sent, shown, docs, busy := p.requests, p.toasts, p.documents, p.uploading;
  }

  /** A 12 MiB PDF is refused for its size; a 12 MiB Word file is refused for its type. */
  method OversizedFilesAreRefused() returns (pdf: seq<Toast>, docx: seq<Toast>, pdfSent: nat, docxSent: nat)
    ensures pdf == [TooLarge] && docx == [InvalidType]
    ensures pdfSent == 1 && docxSent == 1
  {
    var big := 12 * 1024 * 1024;
    var r1, t1, d1, b1 := UploadOnce(File("big.pdf", PdfType, big), UploadOk("big.pdf"), ListNotOk);
    var r2, t2, d2, b2 := UploadOnce(File("big.docx", "application/msword", big), UploadOk("big.docx"), ListNotOk);
    pdf, docx, pdfSent, docxSent := t1, t2, |r1|, |r2|;
  }

  /** A PDF of exactly 10 MiB is accepted and, once uploaded, the listing is refreshed. */
  method LimitSizedPdfIsUploaded(listed: seq<Document>) returns (sent: seq<Request>, docs: seq<Document>)
    ensures sent == [ListDocuments, UploadDocument(File("notes.pdf", PdfType, MaxUploadBytes)), ListDocuments]
    ensures docs == listed
  {
    var file := File("notes.pdf", PdfType, MaxUploadBytes);
    var shown, busy;
    sent, shown, docs, busy := UploadOnce(file, UploadOk("notes.pdf"), Listed(listed));
  }

  /** Declining the confirmation sends nothing; a failed delete keeps the list as it was. */
  method DeleteNeedsConfirmation(listed: seq<Document>) returns (declined: seq<Request>, failed: seq<Request>, docs: seq<Document>)
    ensures declined == [ListDocuments]
    ensures failed == [ListDocuments, DeleteDocument("d1")]
    ensures docs == listed
  {
    var p := new Panel();
    p.FetchDocuments(Listed(listed));
    p.HandleDelete("d1", "notes.pdf", false, DeleteOk, Listed([]));
    declined := p.requests;
    p.HandleDelete("d1", "notes.pdf", true, DeleteNotOk, Listed([]));
    failed := p.requests;
    docs := p.documents;
  }
}
