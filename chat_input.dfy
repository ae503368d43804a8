/** The chat input: the draft text, the list of attachments being uploaded
    for the next message, and the send decision. Selected files are checked
    against an allow-list and a 10 MiB ceiling; each accepted file is
    appended as a `pending` entry and uploaded in the background, and the
    upload's outcome later updates the entry with the same storage path.
    Sending resolves the conversation (creating one when none is active),
    writes the message and then one attachment row per entry, and clears the
    draft only when all of that went through. */
module ChatInput {
  import opened Common
  import opened ConversationCache
  import CreateConversation
  import ActiveConversation
  import UseMessages
  import FileUpload

  const ALLOWED_TYPES: seq<string> := [
    "image/png", "image/jpeg", "image/webp", "application/pdf",
    "text/plain", "application/zip", "application/json"
  ]
  const MAX_SIZE: int := 10 * 1024 * 1024
  const UNSUPPORTED_MESSAGE: string := "Unsupported file type"
  const TOO_LARGE_MESSAGE: string := "File too large (max 10MB)"
  const UPLOAD_FAILED_MESSAGE: string := "Upload failed"
  const NO_CONVERSATION_MESSAGE: string := "No conversation available"
  const SEND_FAILED_MESSAGE: string := "Send failed"
  /** The model a conversation created from the input is given. */
  const NEW_CONVERSATION_MODEL: string := "GPT-4o"

  datatype Status = Pending | Uploaded | Errored

  /** An entry of `pendingAttachments`. */
  datatype Attachment = Attachment(
    name: string,
    mime: string,
    size: int,
    filePath: string,
    url: string,
    status: Status,
    error: Option<string>)

  /** A selected file with what the handler draws for it from outside:
      `stamp` is the `${Date.now()}-${random}` part of its storage path and
      `localUrl` the preview URL made for it. */
  datatype Selected = Selected(file: FileUpload.FileInfo, stamp: string, localUrl: string)

  /** Why a file is skipped, if it is. */
  function Rejection(file: FileUpload.FileInfo): (r: Option<string>)
    ensures file.mime !in ALLOWED_TYPES ==> r == Some(UNSUPPORTED_MESSAGE)
    ensures file.mime in ALLOWED_TYPES && file.size > MAX_SIZE ==> r == Some(TOO_LARGE_MESSAGE)
    ensures r.None? <==> file.mime in ALLOWED_TYPES && file.size <= MAX_SIZE
  {
    if file.mime !in ALLOWED_TYPES then Some(UNSUPPORTED_MESSAGE)
    else if file.size > MAX_SIZE then Some(TOO_LARGE_MESSAGE)
    else None
  }

  predicate Accepted(s: Selected) {
    Rejection(s.file).None?
  }

  /** `uploads/<stamp>.<extension>`, the extension being the text after the
      name's last dot. */
  function FilePathFor(s: Selected): (p: string)
    ensures p == "uploads/" + s.stamp + "." + AfterLastDot(s.file.name)
    ensures EndsWith(s.file.name, AfterLastDot(s.file.name))
  {
    "uploads/" + s.stamp + "." + AfterLastDot(s.file.name)
  }

  /** The `pending` entry appended for an accepted file. */
  function EntryFor(s: Selected): (a: Attachment)
    ensures a.name == s.file.name && a.mime == s.file.mime && a.size == s.file.size
    ensures a.filePath == FilePathFor(s) && a.url == s.localUrl
    ensures a.status == Pending && a.error.None?
  {
    Attachment(s.file.name, s.file.mime, s.file.size, FilePathFor(s), s.localUrl, Pending, None)
  }

  /** The entries a selection appends, built file by file as the handler's
      loop does. */
  function Appended(sel: seq<Selected>): seq<Attachment>
    decreases |sel|
  {
    if sel == [] then []
    else Appended(sel[..|sel| - 1]) + (if Accepted(sel[|sel| - 1]) then [EntryFor(sel[|sel| - 1])] else [])
  }

  /** The upload error shown after a selection: the message of the last
      skipped file, or none. */
  function LastRejection(sel: seq<Selected>): Option<string>
    decreases |sel|
  {
    if sel == [] then None
    else if Rejection(sel[|sel| - 1].file).Some? then Rejection(sel[|sel| - 1].file)
    else LastRejection(sel[..|sel| - 1])
  }

  /** The storage paths of a list of entries, in order. */
  function PathsOf(list: seq<Attachment>): (r: seq<string>)
    ensures |r| == |list| && forall i :: 0 <= i < |list| ==> r[i] == list[i].filePath
  {
    seq(|list|, i requires 0 <= i < |list| => list[i].filePath)
  }

  function EntriesFor(sel: seq<Selected>): (r: seq<Attachment>)
    ensures |r| == |sel| && forall i :: 0 <= i < |sel| ==> r[i] == EntryFor(sel[i])
  {
    seq(|sel|, i requires 0 <= i < |sel| => EntryFor(sel[i]))
  }

  /** Skipped files do not stop the others: the appended entries are exactly
      those of the accepted files, in selection order. */
  lemma {:induction false} AppendedAreAcceptedFiles(sel: seq<Selected>)
    ensures Appended(sel) == EntriesFor(Filter(sel, Accepted))
    decreases |sel|
  {
    if sel != [] {
      var init := sel[..|sel| - 1];
      var last := sel[|sel| - 1];
      assert sel == init + [last];
      AppendedAreAcceptedFiles(init);
      FilterSnoc(init, last, Accepted);
      EntriesForSnoc(Filter(init, Accepted), last);
    }
  }

  lemma EntriesForSnoc(sel: seq<Selected>, s: Selected)
    ensures EntriesFor(sel + [s]) == EntriesFor(sel) + [EntryFor(s)]
  {
    assert forall i :: 0 <= i < |sel| ==> (sel + [s])[i] == sel[i];
  }

  /** One more selected file: it adds its own entry, if accepted, and its
      own message, if skipped. */
  lemma SelectionStep(sel: seq<Selected>, i: int)
    requires 0 <= i < |sel|
    ensures Appended(sel[..i + 1]) == Appended(sel[..i]) + (if Accepted(sel[i]) then [EntryFor(sel[i])] else [])
    ensures LastRejection(sel[..i + 1]) ==
              if Rejection(sel[i].file).Some? then Rejection(sel[i].file) else LastRejection(sel[..i])
  {
    var next := sel[..i + 1];
    assert next[..|next| - 1] == sel[..i];
    assert next[|next| - 1] == sel[i];
  }

  lemma PathsOfSnoc(list: seq<Attachment>, a: Attachment)
    ensures PathsOf(list + [a]) == PathsOf(list) + [a.filePath]
  {
    assert forall i :: 0 <= i < |list| ==> (list + [a])[i] == list[i];
  }

  /** The last skipped file's message is what is shown; with no skipped file
      nothing is. */
  lemma {:induction false} UploadErrorIsLastRejection(sel: seq<Selected>)
    ensures LastRejection(sel).None? <==> forall i :: 0 <= i < |sel| ==> Accepted(sel[i])
    ensures LastRejection(sel).Some? ==>
              exists i :: 0 <= i < |sel| && Rejection(sel[i].file) == LastRejection(sel) &&
                          forall j :: i < j < |sel| ==> Accepted(sel[j])
    decreases |sel|
  {
    if sel != [] {
      var init := sel[..|sel| - 1];
      UploadErrorIsLastRejection(init);
      assert forall i :: 0 <= i < |init| ==> init[i] == sel[i];
      if LastRejection(sel).Some? && Rejection(sel[|sel| - 1].file).None? {
        var i :| 0 <= i < |init| && Rejection(init[i].file) == LastRejection(init) &&
                 forall j :: i < j < |init| ==> Accepted(init[j]);
        assert forall j :: i < j < |sel| ==> Accepted(sel[j]);
      }
    }
  }

  /** How a background upload ended: the store answered with an error, the
      file was stored (with its public URL), or the call threw. */
  datatype UploadOutcome = StoreFailed(message: string) | StoredAt(publicUrl: string) | UploadThrew

  /** The entries after the upload of `filePath` ended: only entries with
      that path change. */
  function Marked(list: seq<Attachment>, filePath: string, outcome: UploadOutcome): (r: seq<Attachment>)
    ensures |r| == |list|
    ensures forall i :: 0 <= i < |list| && list[i].filePath != filePath ==> r[i] == list[i]
    ensures forall i :: 0 <= i < |list| && list[i].filePath == filePath ==>
              (outcome.StoreFailed? ==> r[i] == list[i].(status := Errored, error := Some(outcome.message))) &&
              (outcome.StoredAt? ==> r[i] == list[i].(url := outcome.publicUrl, status := Uploaded)) &&
              (outcome.UploadThrew? ==> r[i] == list[i].(status := Errored, error := Some(UPLOAD_FAILED_MESSAGE)))
  {
    seq(|list|, i requires 0 <= i < |list| => MarkOne(list[i], filePath, outcome))
  }

  function MarkOne(a: Attachment, filePath: string, outcome: UploadOutcome): Attachment {
    if a.filePath != filePath then a
    else match outcome
      case StoreFailed(message) => a.(status := Errored, error := Some(message))
      case StoredAt(publicUrl) => a.(url := publicUrl, status := Uploaded)
      case UploadThrew => a.(status := Errored, error := Some(UPLOAD_FAILED_MESSAGE))
  }

  /** `prev.filter(a => a.filePath !== filePath)`. */
  function Removed(list: seq<Attachment>, filePath: string): (r: seq<Attachment>)
    ensures forall a :: a in r <==> a in list && a.filePath != filePath
    ensures IsSubsequence(r, list)
  {
    var keep := (a: Attachment) => a.filePath != filePath;
    FilterIsSubsequence(list, keep);
    Filter(list, keep)
  }

  /** An upload that ends after its entry was removed changes nothing: the
      list is the same whether the outcome lands before or after the
      removal. */
  lemma {:induction false} RemovedThenMarkedIsRemoved(list: seq<Attachment>, filePath: string, outcome: UploadOutcome)
    ensures Marked(Removed(list, filePath), filePath, outcome) == Removed(list, filePath)
    ensures Removed(Marked(list, filePath, outcome), filePath) == Removed(list, filePath)
    decreases |list|
  {
    var keep := (a: Attachment) => a.filePath != filePath;
    if list != [] {
      RemovedThenMarkedIsRemoved(list[1..], filePath, outcome);
      assert Marked(list, filePath, outcome)[1..] == Marked(list[1..], filePath, outcome);
      assert Marked(list, filePath, outcome)[0].filePath == list[0].filePath;
      if list[0].filePath != filePath {
        assert Marked(list, filePath, outcome)[0] == list[0];
      }
    }
  }

  /** The error shown when sending fails: a string `message` of an object,
      the error itself when it is a string, or "Send failed". */
  function NormalizeError(err: Json): (m: string)
    ensures Field(err, "message").Some? && Field(err, "message").value.JStr? ==> m == err.fields["message"].s
    ensures !(Field(err, "message").Some? && Field(err, "message").value.JStr?) && err.JStr? ==> m == err.s
    ensures !(Field(err, "message").Some? && Field(err, "message").value.JStr?) && !err.JStr? ==> m == SEND_FAILED_MESSAGE
  {
    if err.JStr? then err.s
    else match Field(err, "message")
      case Some(JStr(message)) => message
      case _ => SEND_FAILED_MESSAGE
  }

  /** Whether a preview shows the file as an image: its type starts with
      `image/`, or its name ends in .png, .jpg, .jpeg or .webp in any
      letter case. */
  predicate IsImagePreview(mime: string, name: string) {
    "image/" <= mime ||
    EndsWith(ToLower(name), ".png") || EndsWith(ToLower(name), ".jpg") ||
    EndsWith(ToLower(name), ".jpeg") || EndsWith(ToLower(name), ".webp")
  }

  /** The preview's test ignores the letter case of the name. */
  lemma ImagePreviewIgnoresCase(mime: string, name: string)
    ensures IsImagePreview(mime, ToLower(name)) <==> IsImagePreview(mime, name)
  {
    assert ToLower(ToLower(name)) == ToLower(name);
  }

  /** Every image type the input accepts is previewed as an image. */
  lemma AcceptedImagesArePreviewed(file: FileUpload.FileInfo)
    requires Rejection(file).None? && file.mime in ["image/png", "image/jpeg", "image/webp"]
    ensures IsImagePreview(file.mime, file.name)
  {
  }

  /** The message row the input writes. */
  datatype NewMessage = NewMessage(conversationId: string, content: string, role: string)

  /** An `attachments` row written for an entry of the sent message. */
  datatype AttachmentRow = AttachmentRow(fileName: string, filePath: string, fileSize: int, fileType: string, messageId: string)

  function RowFor(a: Attachment, messageId: string): (row: AttachmentRow)
    ensures row.fileName == a.name && row.filePath == a.filePath && row.fileSize == a.size
    ensures row.fileType == a.mime && row.messageId == messageId
  {
    AttachmentRow(a.name, a.filePath, a.size, a.mime, messageId)
  }

  /** One row per entry, whatever its upload status, in list order. */
  function RowsFor(list: seq<Attachment>, messageId: string): (rows: seq<AttachmentRow>)
    ensures |rows| == |list|
    ensures forall i :: 0 <= i < |list| ==> rows[i] == RowFor(list[i], messageId)
  {
    seq(|list|, i requires 0 <= i < |list| => RowFor(list[i], messageId))
  }

  /** How a send ends. */
  datatype SendOutcome =
    | NothingToSend
    | NoConversation
    | CreateFailed(error: Json)
    | MessageFailed(conversationId: string, error: Json)
    | Sent(conversationId: string, messageId: string)

  /** A new conversation is created exactly when there is something to
      send, no conversation is active, a user is signed in and no creation
      is already running. */
  predicate Creates(content: string, hasAttachments: bool, activeId: Option<string>,
                    userId: Option<string>, createPending: bool)
  {
    (content != "" || hasAttachments) && NeedsCreate(activeId, userId, createPending)
  }

  /** No conversation is active, a user is signed in and no creation is
      running. */
  predicate NeedsCreate(activeId: Option<string>, userId: Option<string>, createPending: bool) {
    (activeId.None? || activeId.value == "") && userId.Some? && userId.value != "" && !createPending
  }

  /** The send decision: `content` is the trimmed draft, `createAnswer` and
      `messageAnswer` what the two inserts would give. */
  function Decide(content: string, hasAttachments: bool, activeId: Option<string>, userId: Option<string>,
                  createPending: bool, createAnswer: Outcome<Conversation>,
                  messageAnswer: Outcome<UseMessages.Message>): (o: SendOutcome)
    ensures o.NothingToSend? <==> content == "" && !hasAttachments
    ensures o.NoConversation? <==>
              (content != "" || hasAttachments) && (activeId.None? || activeId.value == "") &&
              !(userId.Some? && userId.value != "" && !createPending)
    ensures o.CreateFailed? <==> Creates(content, hasAttachments, activeId, userId, createPending) && createAnswer.Thrown?
    ensures o.CreateFailed? ==> o.error == createAnswer.error
    ensures o.Sent? || o.MessageFailed? ==>
              o.conversationId == (if activeId.Some? && activeId.value != "" then activeId.value else createAnswer.value.id)
    ensures o.Sent? <==> (content != "" || hasAttachments) &&
                         ((activeId.Some? && activeId.value != "") ||
                          (Creates(content, hasAttachments, activeId, userId, createPending) && createAnswer.Done?)) &&
                         messageAnswer.Done?
    ensures o.Sent? ==> o.messageId == messageAnswer.value.id
    ensures o.MessageFailed? ==> o.error == messageAnswer.error
  {
    if content == "" && !hasAttachments then NothingToSend
    else
      var conversationId :=
        if activeId.Some? && activeId.value != "" then Some(activeId.value)
        else if userId.Some? && userId.value != "" && !createPending then
          (if createAnswer.Done? then Some(createAnswer.value.id) else None)
        else None;
      if conversationId.None? then
        (if (activeId.None? || activeId.value == "") && userId.Some? && userId.value != "" && !createPending
         then CreateFailed(createAnswer.error) else NoConversation)
      else match messageAnswer
        case Thrown(err) => MessageFailed(conversationId.value, err)
        case Done(msg) => Sent(conversationId.value, msg.id)
  }

  /** The error shown after a send. */
  function ErrorAfter(o: SendOutcome): (e: Option<string>)
    ensures e.None? <==> o.NothingToSend? || o.Sent?
    ensures o.NoConversation? ==> e == Some(NO_CONVERSATION_MESSAGE)
    ensures o.CreateFailed? || o.MessageFailed? ==> e == Some(NormalizeError(o.error))
  {
    match o
    case NothingToSend => None
    case Sent(_, _) => None
    case NoConversation => Some(NO_CONVERSATION_MESSAGE)
    case CreateFailed(err) => Some(NormalizeError(err))
    case MessageFailed(_, err) => Some(NormalizeError(err))
  }

  /** Nothing is written unless a conversation is at hand: without one the
      send stops with its message before any insert. */
  lemma NoConversationWritesNothing(content: string, hasAttachments: bool, userId: Option<string>, createPending: bool,
                                     createAnswer: Outcome<Conversation>, messageAnswer: Outcome<UseMessages.Message>)
    requires content != "" || hasAttachments
    requires userId.None? || userId.value == "" || createPending
    ensures Decide(content, hasAttachments, None, userId, createPending, createAnswer, messageAnswer) == NoConversation
    ensures ErrorAfter(NoConversation) == Some(NO_CONVERSATION_MESSAGE)
  {
  }

  /** The conversation a send goes to: the active one, else a new one
      created through the create-conversation mutation (whose store answer
      is `createdRow` and `createError`; the new row then becomes active),
      else none. `failure` is how the send ends when there is none. */
  method ResolveConversation(active: ActiveConversation.ActiveConversationStore, cache: QueryCache,
                             userId: Option<string>, createPending: bool, token: string, now: int,
                             createdRow: Conversation, createError: Option<Json>)
    returns (conversationId: Option<string>, failure: Option<SendOutcome>)
    modifies active, cache
    ensures conversationId.Some? <==> failure.None?
    ensures !NeedsCreate(old(active.activeConversationId), userId, createPending) ==>
              cache.lists == old(cache.lists) && active.activeConversationId == old(active.activeConversationId)
    ensures var activeId := old(active.activeConversationId);
            activeId.Some? && activeId.value != "" ==>
              conversationId == activeId && cache.lists == old(cache.lists) && active.activeConversationId == activeId
    ensures var activeId := old(active.activeConversationId);
            (activeId.None? || activeId.value == "") && !NeedsCreate(activeId, userId, createPending) ==>
              failure == Some(NoConversation) &&
              cache.lists == old(cache.lists) && active.activeConversationId == activeId
    ensures NeedsCreate(old(active.activeConversationId), userId, createPending) && createError.Some? ==>
              failure == Some(CreateFailed(createError.value)) &&
              cache.Get(userId.value) == old(cache.Get(userId.value)) &&
              active.activeConversationId == old(active.activeConversationId)
    ensures NeedsCreate(old(active.activeConversationId), userId, createPending) && createError.None? ==>
              var input := CreateConversation.CreateInput(userId.value, NEW_CONVERSATION_MODEL, None);
              conversationId == Some(createdRow.id) &&
              cache.Get(userId.value) ==
                CreateConversation.WithCreated([CreateConversation.OptimisticRow(input, token, now)] + old(cache.Get(userId.value)),
                                               createdRow, TEMP_PREFIX + token) &&
              active.activeConversationId == Some(createdRow.id)
  {
    conversationId := active.activeConversationId;
    failure := None;
    if conversationId.Some? && conversationId.value != "" {
      return;
    }
    if userId.Some? && userId.value != "" && !createPending {
      var input := CreateConversation.CreateInput(userId.value, NEW_CONVERSATION_MODEL, None);
      var created := CreateConversation.Create(cache, input, token, now, createdRow, createError);
      if created.Thrown? {
        return None, Some(CreateFailed(created.error));
      }
      active.SetActiveConversationId(Some(created.value.id));
      conversationId := Some(created.value.id);
    } else {
      conversationId, failure := None, Some(NoConversation);
    }
  }

  /** The loop inserting one `attachments` row per entry of the sent
      message. */
  method WriteAttachmentRows(attachments: seq<Attachment>, messageId: string) returns (rows: seq<AttachmentRow>)
    ensures rows == RowsFor(attachments, messageId)
  {
    rows := [];
    var i := 0;
    while i < |attachments|
      invariant 0 <= i <= |attachments|
      invariant rows == RowsFor(attachments[..i], messageId)
    {
      rows := rows + [RowFor(attachments[i], messageId)];
      i := i + 1;
    }
    assert attachments[..i] == attachments;
  }

  class ChatInputState {
    var inputValue: string
    var pendingAttachments: seq<Attachment>
    var error: Option<string>
    var uploadError: Option<string>

    constructor ()
      ensures inputValue == "" && pendingAttachments == [] && error.None? && uploadError.None?
    {
      inputValue := "";
      pendingAttachments := [];
      error := None;
      uploadError := None;
    }

    /** The text field's `onChange`. */
    method SetInputValue(text: string)
      modifies this
      ensures inputValue == text
      ensures pendingAttachments == old(pendingAttachments) && error == old(error) && uploadError == old(uploadError)
    {
      inputValue := text;
    }

    /** `handleFileChange`: the upload error is cleared, then each file is
        checked in turn; a skipped file sets the upload error, an accepted
        one is appended as `pending` and its upload started. `uploads` are
        the storage paths whose uploads were started. */
    method HandleFileChange(files: Option<seq<Selected>>) returns (uploads: seq<string>)
      modifies this
      ensures files.None? || files.value == [] ==>
                pendingAttachments == old(pendingAttachments) && uploadError.None? && uploads == []
      ensures files.Some? ==>
                pendingAttachments == old(pendingAttachments) + Appended(files.value) &&
                uploadError == LastRejection(files.value)
      ensures files.Some? ==> uploads == PathsOf(Appended(files.value))
      ensures inputValue == old(inputValue) && error == old(error)
    {
      uploadError := None;
      uploads := [];
      if files.None? || files.value == [] {
        return;
      }
      var sel := files.value;
      var i := 0;
      while i < |sel|
        invariant 0 <= i <= |sel|
        invariant pendingAttachments == old(pendingAttachments) + Appended(sel[..i])
        invariant uploadError == LastRejection(sel[..i])
        invariant uploads == PathsOf(Appended(sel[..i]))
        invariant inputValue == old(inputValue) && error == old(error)
      {
        var s := sel[i];
        SelectionStep(sel, i);
        var rejection := Rejection(s.file);
        if rejection.Some? {
          uploadError := rejection;
        } else {
          var entry := EntryFor(s);
          pendingAttachments := pendingAttachments + [entry];
          PathsOfSnoc(Appended(sel[..i]), entry);
          uploads := uploads + [entry.filePath];
        }
        i := i + 1;
      }
      assert sel[..i] == sel;
    }

    /** The end of the background upload of `filePath`. */
    method MarkUpload(filePath: string, outcome: UploadOutcome)
      modifies this
      ensures pendingAttachments == Marked(old(pendingAttachments), filePath, outcome)
      ensures inputValue == old(inputValue) && error == old(error) && uploadError == old(uploadError)
    {
      pendingAttachments := Marked(pendingAttachments, filePath, outcome);
    }

    /** `handleRemoveAttachment`. */
    method RemoveAttachment(filePath: string)
      modifies this
      ensures pendingAttachments == Removed(old(pendingAttachments), filePath)
      ensures inputValue == old(inputValue) && error == old(error) && uploadError == old(uploadError)
    {
      pendingAttachments := Removed(pendingAttachments, filePath);
    }

    /** The form's submit. `createdRow` and `createError` are the store's
        answer to the conversation insert, `messageAnswer` what the message
        insert gives; the conversation is created through the
        create-conversation mutation, whose cache updates are part of the
        effect. `message` and `rows` are what was written. */
    method Submit(active: ActiveConversation.ActiveConversationStore, cache: QueryCache,
                  userId: Option<string>, createPending: bool, token: string, now: int,
                  createdRow: Conversation, createError: Option<Json>, messageAnswer: Outcome<UseMessages.Message>)
      returns (outcome: SendOutcome, message: Option<NewMessage>, rows: seq<AttachmentRow>)
      modifies this, active, cache
      ensures outcome == Decide(Trim(old(inputValue)), old(pendingAttachments) != [], old(active.activeConversationId),
                                userId, createPending, CreateConversation.InsertResult(createdRow, createError), messageAnswer)
      ensures error == ErrorAfter(outcome) && uploadError == old(uploadError)
      ensures outcome.Sent? ==> inputValue == "" && pendingAttachments == []
      ensures !outcome.Sent? ==> inputValue == old(inputValue) && pendingAttachments == old(pendingAttachments)
      ensures outcome.Sent? || outcome.MessageFailed? ==>
                message == Some(NewMessage(outcome.conversationId, Trim(old(inputValue)), "user"))
      ensures !(outcome.Sent? || outcome.MessageFailed?) ==> message.None?
      ensures outcome.Sent? ==> rows == RowsFor(old(pendingAttachments), outcome.messageId)
      ensures !outcome.Sent? ==> rows == []
      ensures !Creates(Trim(old(inputValue)), old(pendingAttachments) != [], old(active.activeConversationId), userId, createPending) ==>
                cache.lists == old(cache.lists) && active.activeConversationId == old(active.activeConversationId)
      ensures Creates(Trim(old(inputValue)), old(pendingAttachments) != [], old(active.activeConversationId), userId, createPending) &&
              createError.Some? ==>
                cache.Get(userId.value) == old(cache.Get(userId.value)) &&
                active.activeConversationId == old(active.activeConversationId)
      ensures Creates(Trim(old(inputValue)), old(pendingAttachments) != [], old(active.activeConversationId), userId, createPending) &&
              createError.None? ==>
                var input := CreateConversation.CreateInput(userId.value, NEW_CONVERSATION_MODEL, None);
                cache.Get(userId.value) ==
                  CreateConversation.WithCreated([CreateConversation.OptimisticRow(input, token, now)] + old(cache.Get(userId.value)),
                                                 createdRow, TEMP_PREFIX + token) &&
                active.activeConversationId == Some(createdRow.id)
    {
      var content := Trim(inputValue);
      error := None;
      message := None;
      rows := [];
      if content == "" && pendingAttachments == [] {
        return NothingToSend, None, [];
      }
      var conversationId, failure := ResolveConversation(active, cache, userId, createPending, token, now, createdRow, createError);
      if failure.Some? {
        outcome := failure.value;
        error := ErrorAfter(outcome);
        return;
      }
      message := Some(NewMessage(conversationId.value, content, "user"));
      if messageAnswer.Thrown? {
        outcome := MessageFailed(conversationId.value, messageAnswer.error);
        error := ErrorAfter(outcome);
        return;
      }
      outcome := Sent(conversationId.value, messageAnswer.value.id);
      rows := WriteAttachmentRows(pendingAttachments, messageAnswer.value.id);
      inputValue := "";
      pendingAttachments := [];
    }
  }
}
