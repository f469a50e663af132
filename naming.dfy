/**
 * The document-number label (app.py, create_pdf) and the download file name
 * (app.py, the GENERATE PDF handler), both chosen by the document type.
 */
module Naming {

  const ProformaInvoice: string := "PROFORMA INVOICE"

  /** doc_label: the label in front of the document number. */
  function DocLabel(docType: string): string {
    if docType == ProformaInvoice then "Invoice Number:" else "Quotation Number:"
  }

  /** doc_prefix: the first part of the download file name. */
  function FilePrefix(docType: string): string {
    if docType == ProformaInvoice then "PI" else "QT"
  }

  /** The label and the prefix are chosen by the same test: an invoice label goes with a PI file, any other with QT. */
  lemma LabelAndPrefixAgree(docType: string)
    ensures DocLabel(docType) == "Invoice Number:" <==> docType == ProformaInvoice
    ensures FilePrefix(docType) == "PI" <==> docType == ProformaInvoice
    ensures DocLabel(docType) == "Quotation Number:" <==> FilePrefix(docType) == "QT"
  {
  }

  /** str.replace(' ', '_'): every space becomes an underscore. */
  function Underscored(s: string): (r: string)
    ensures |r| == |s|
    ensures forall i :: 0 <= i < |s| ==> r[i] == if s[i] == ' ' then '_' else s[i]
  {
    if s == [] then [] else [if s[0] == ' ' then '_' else s[0]] + Underscored(s[1..])
  }

  /** The contact part of the name holds no space, and replacing again changes nothing. */
  lemma UnderscoredHasNoSpace(s: string)
    ensures ' ' !in Underscored(s)
    ensures Underscored(Underscored(s)) == Underscored(s)
    ensures Underscored(s) == s <==> ' ' !in s
  {
    var r := Underscored(s);
    if Underscored(s) == s {
      assert forall i :: 0 <= i < |s| ==> s[i] != ' ' by {
        forall i | 0 <= i < |s| ensures s[i] != ' ' { assert r[i] == s[i]; }
      }
    }
    if ' ' !in s {
      assert forall i :: 0 <= i < |s| ==> r[i] == s[i];
    }
  }

  /** filename = f"{doc_prefix}_{invoice_no}_{contact with spaces as _}.pdf". */
  function DownloadName(docType: string, invoiceNo: string, buyerContact: string): string {
    FilePrefix(docType) + "_" + invoiceNo + "_" + Underscored(buyerContact) + ".pdf"
  }

  /**
   * The name splits back into its parts: the prefix of the document type, '_',
   * the number unchanged, '_', the contact with its spaces replaced (same length,
   * every other character kept), and ".pdf".
   */
  lemma DownloadNameParts(docType: string, invoiceNo: string, buyerContact: string)
    ensures var name := DownloadName(docType, invoiceNo, buyerContact);
      var p := |FilePrefix(docType)|;
      var c := p + 1 + |invoiceNo| + 1;
      |name| == c + |buyerContact| + 4
      && name[..p] == FilePrefix(docType) && name[p] == '_'
      && name[p + 1..p + 1 + |invoiceNo|] == invoiceNo && name[c - 1] == '_'
      && name[|name| - 4..] == ".pdf"
      && (forall i :: 0 <= i < |buyerContact| ==>
            name[c + i] == if buyerContact[i] == ' ' then '_' else buyerContact[i])
  {
    var name := DownloadName(docType, invoiceNo, buyerContact);
    var p := |FilePrefix(docType)|;
    var c := p + 1 + |invoiceNo| + 1;
    var u := Underscored(buyerContact);
    assert name == FilePrefix(docType) + "_" + invoiceNo + "_" + u + ".pdf";
    assert name[..p] == FilePrefix(docType);
    assert name[p + 1..p + 1 + |invoiceNo|] == invoiceNo;
    assert name[|name| - 4..] == ".pdf";
    forall i | 0 <= i < |buyerContact|
      ensures name[c + i] == if buyerContact[i] == ' ' then '_' else buyerContact[i]
    {
      assert name[c + i] == u[i];
    }
  }
}
