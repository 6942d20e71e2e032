/** The documents of the Firestore collections the pages share. The store
    itself is not modelled: a snapshot is a given list of documents in the
    order the query returns them. */
module Store {
  import opened Wrappers

  /** A document of the "receipts" collection, as the capture modal writes it
      (app/components/Camera.js). A price may be absent in documents written
      by other clients; serverTimestamp() is left out. */
  datatype Receipt = Receipt(imageData: string, price: Option<real>, ocrText: Option<string>, imageUrl: string)

  /** A receipt document with its id, as the snapshot delivers it. */
  datatype ReceiptDoc = ReceiptDoc(id: string, data: Receipt)

  /** A document of the "expenses" collection; amount is absent when missing. */
  datatype Expense = Expense(amount: Option<real>, kind: string)
}
