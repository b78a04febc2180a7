/**
 * The single-document text store behind the editor
 * (backend/controllers/textController.js). The collection holds at most
 * one document, modelled as `Option<string>`; database failures of
 * `findOne` and `save` are a parameter.
 */
module TextController {
  import opened Wrappers

  /** Where the database call fails, if anywhere. */
  datatype Fault = NoFault | FindFailed | SaveFailed

  /** A JSON response body: the stored document (`null` when there is none), or a message object. */
  datatype Body = Document(text: Option<string>) | Message(message: string)

  datatype Response = Response(status: int, body: Body)

  const ServerError: Response := Response(500, Message("Server Error"))
  const Updated: Response := Response(200, Message("Text updated successfully"))

  /** The reply to `getText` on a store holding `doc`. */
  function GetReply(doc: Option<string>, fault: Fault): (r: Response)
    ensures fault == FindFailed ==> r == ServerError
    ensures fault != FindFailed ==> r.status == 200 && r.body == Document(doc)
  {
    if fault == FindFailed then ServerError else Response(200, Document(doc))
  }

  /** The store and the reply after `updateText(text)` on a store holding `doc`. */
  function Upsert(doc: Option<string>, text: string, fault: Fault): (r: (Option<string>, Response))
    ensures fault == NoFault ==> r.0 == Some(text) && r.1 == Updated
    ensures fault != NoFault ==> r.0 == doc && r.1 == ServerError
  {
    if fault == NoFault then (Some(text), Updated) else (doc, ServerError)
  }

  /** After a successful update, reading returns exactly the text written. */
  lemma UpdateThenGet(doc: Option<string>, text: string)
    ensures GetReply(Upsert(doc, text, NoFault).0, NoFault) == Response(200, Document(Some(text)))
  {
  }

  /** Updating twice with the same text is the same as updating once. */
  lemma UpsertIdempotent(doc: Option<string>, text: string)
    ensures Upsert(Upsert(doc, text, NoFault).0, text, NoFault) == Upsert(doc, text, NoFault)
  {
  }

  /** A failed database call never reports success and never changes the store. */
  lemma FailureNeverSucceeds(doc: Option<string>, text: string, fault: Fault)
    requires fault != NoFault
    ensures Upsert(doc, text, fault).1.body != Updated.body && Upsert(doc, text, fault).0 == doc
  {
  }

  class TextStore {
    var doc: Option<string>

    /** An empty collection. */
    constructor ()
      ensures doc == None
    {
      doc := None;
    }

    /** `getText`: the stored document, or an error reply. The store is unchanged. */
    method GetText(fault: Fault) returns (r: Response)
      ensures r == GetReply(doc, fault)
    {
      if fault == FindFailed {
        r := ServerError;
      } else {
        r := Response(200, Document(doc));
      }
    }

    /**
     * `updateText`: find the document, create it or overwrite its text,
     * save. A failing find or save leaves the stored document as it was.
     */
    method UpdateText(text: string, fault: Fault) returns (r: Response)
      modifies this
      ensures (doc, r) == Upsert(old(doc), text, fault)
      // whatever held before, a successful update leaves exactly one document
      ensures r == Updated ==> doc == Some(text)
    {
      if fault == FindFailed {
        r := ServerError;
        return;
      }
      // a new document when none was found, otherwise the found one with its text replaced:
      // either way the pending document holds `text`
      var pending := Some(text);
      if fault == SaveFailed {
        r := ServerError;
        return;
      }
      doc := pending;
      r := Updated;
    }
  }

  /** Writing then reading through the store returns the text written. */
  method WriteThenRead(store: TextStore, text: string) returns (r: Response)
    modifies store
    ensures r == Response(200, Document(Some(text)))
    ensures store.doc == Some(text)
  {
    var _ := store.UpdateText(text, NoFault);
    r := store.GetText(NoFault);
  }
}
