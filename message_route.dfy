/** `POST` of src/app/api/message/route.ts: the guard cascade (session, schema, ownership)
    and the one user message it stores. */
module MessageRoute {
  import opened Wrappers
  import opened Session
  import opened SendMessageValidator
  import UploadThing

  /** A row of the message table as `db.message.create` writes it; `id` is the one the
      database assigns. */
  datatype MessageRow = MessageRow(id: string, text: string, isUserMessage: bool, userId: string, fileId: string)

  /** How the handler ends: the thrown 401, the thrown ZodError, the 404 response, or the
      fall-through after storing the message (no response is returned). */
  datatype PostOutcome = Unauthorized401 | InvalidBody(issues: seq<ZodIssue>) | NotFound404 | Stored

  /** `db.file.findFirst({ where: { id: fileId, userId } })`: the file only when both match. */
  function FindOwnedFile(files: map<string, UploadThing.FileRecord>, fileId: string, userId: string)
    : (r: Option<UploadThing.FileRecord>)
    requires UploadThing.KeyedById(files)
    ensures r.Some? <==> exists f :: f in files.Values && f.id == fileId && f.userId == userId
    ensures r.Some? ==> r.value in files.Values && r.value.id == fileId && r.value.userId == userId
  {
    if fileId in files && files[fileId].userId == userId then Some(files[fileId]) else None
  }

  /** Where the guards send a request, checked in the source's order. */
  function Decide(user: Option<KindeUser>, body: Json, files: map<string, UploadThing.FileRecord>)
    : (r: PostOutcome)
    requires UploadThing.KeyedById(files)
    ensures Unauthenticated(user) ==> r == Unauthorized401
    ensures !Unauthenticated(user) && Parse(body).Err? ==> r == InvalidBody(Parse(body).error)
    ensures r == NotFound404 <==>
      && !Unauthenticated(user) && Parse(body).Ok?
      && !(exists f :: f in files.Values && f.id == Parse(body).value.fileId && f.userId == UserId(user))
    ensures r == Stored <==>
      && !Unauthenticated(user) && Parse(body).Ok?
      && exists f :: f in files.Values && f.id == Parse(body).value.fileId && f.userId == UserId(user)
  {
    if Unauthenticated(user) then Unauthorized401
    else
      match Parse(body)
      case Err(issues) => InvalidBody(issues)
      case Ok(request) =>
        if FindOwnedFile(files, request.fileId, UserId(user)).None? then NotFound404 else Stored
  }

  /** A file owned by someone else is indistinguishable from a missing one. */
  lemma ForeignFileNotFound(user: Option<KindeUser>, request: SendMessage,
                            files: map<string, UploadThing.FileRecord>)
    requires UploadThing.KeyedById(files)
    requires !Unauthenticated(user)
    requires request.fileId in files && files[request.fileId].userId != UserId(user)
    ensures Decide(user, Encode(request), files) == NotFound404
  {
    ParseEncode(request);
    var f := files[request.fileId];
    assert FindOwnedFile(files, request.fileId, UserId(user)).None?;
  }

  class MessageTable {
    var messages: seq<MessageRow>

    constructor ()
      ensures messages == []
    {
      messages := [];
    }

    /** `POST`. Without a user the 401 is thrown before the body is looked at; a body that
        fails the schema throws before any file lookup; an unowned or missing file gives
        404; otherwise exactly one user message is appended, and nothing else happens. */
    method Post(user: Option<KindeUser>, body: Json, store: UploadThing.FileStore, newId: string)
      returns (r: PostOutcome)
      requires UploadThing.KeyedById(store.files)
      modifies this
      ensures r == Decide(user, body, store.files)
      ensures r == Stored ==>
        messages == old(messages)
          + [MessageRow(newId, Parse(body).value.message, true, UserId(user), Parse(body).value.fileId)]
      ensures r != Stored ==> messages == old(messages)
    {
      if Unauthenticated(user) {
        return Unauthorized401;
      }
      var parsed := Parse(body);
      if parsed.Err? {
        return InvalidBody(parsed.error);
      }
      var fileId, message := parsed.value.fileId, parsed.value.message;
      var file := FindOwnedFile(store.files, fileId, UserId(user));
      if file.None? {
        return NotFound404;
      }
      messages := messages + [MessageRow(newId, message, true, UserId(user), fileId)];
      return Stored;
    }
  }
}
