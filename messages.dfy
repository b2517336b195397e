/**
 * The message routes (backend/routes/messages.py): the upload rules, sending
 * a text or a media message, reading a conversation a page at a time,
 * serving a media file, and the delivery and read receipts, both the HTTP
 * routes and the socket handlers of app.py that update the same rows.
 *
 * The messages table is a class whose rows the routes append to and update;
 * row `i` has id `i + 1`, as the database's autoincrement gives them.
 * Times are plain integers supplied by the caller.
 */
module Messages {
  import opened Wrappers
  import opened Text
  import opened Ordering
  import opened Encryption

  type UserId = int

  // ------------------------------------------------------------ upload rules

  /** ALLOWED_EXTENSIONS. */
  const AllowedExtensions: set<string> := {"png", "jpg", "jpeg", "gif", "mp4", "mp3", "wav"}

  /** The message types that carry a file. */
  const MediaTypes: set<string> := {"image", "video", "audio"}

  /** `name.rsplit('.', 1)[1]`: the text after the last '.', when there is one. */
  function Extension(name: string): (r: Option<string>)
    ensures r.None? <==> '.' !in name
    ensures r.Some? ==> '.' !in r.value && |r.value| < |name| && name[|name| - |r.value| - 1] == '.'
    ensures r.Some? ==> r.value == name[|name| - |r.value|..]
  {
    match LastIndexOf(name, '.')
    case None => None
    case Some(i) => Some(name[i + 1..])
  }

  /** allowed_file: the name has a '.', and what follows the last one, lower-cased, is an allowed extension. */
  predicate AllowedFile(name: string)
    ensures AllowedFile(name) ==> '.' in name && |name| >= 4
  {
    Extension(name).Some? && ToLower(Extension(name).value) in AllowedExtensions
  }

  /** The extension is the text after a '.' that no later '.' follows, whichever such '.' is meant. */
  lemma ExtensionIsAfterLastDot(name: string, i: int)
    requires 0 <= i < |name| && name[i] == '.' && '.' !in name[i + 1..]
    ensures Extension(name) == Some(name[i + 1..])
  {
  }

  /** allowed_file, stated without the helper: some '.' with no '.' after it is followed by an allowed extension. */
  lemma AllowedFileIff(name: string)
    ensures AllowedFile(name) <==>
      exists i :: 0 <= i < |name| && name[i] == '.' && '.' !in name[i + 1..] && ToLower(name[i + 1..]) in AllowedExtensions
  {
    if AllowedFile(name) {
      var e := Extension(name).value;
      var i := |name| - |e| - 1;
      assert name[i + 1..] == e;
    }
    if exists i :: 0 <= i < |name| && name[i] == '.' && '.' !in name[i + 1..] && ToLower(name[i + 1..]) in AllowedExtensions {
      var i :| 0 <= i < |name| && name[i] == '.' && '.' !in name[i + 1..] && ToLower(name[i + 1..]) in AllowedExtensions;
      ExtensionIsAfterLastDot(name, i);
    }
  }

  /** A prefix without a '.' does not change the extension of a name that has one. */
  lemma {:induction false} ExtensionOfPrefixed(prefix: string, name: string)
    requires '.' !in prefix && '.' in name
    ensures Extension(prefix + name) == Extension(name)
  {
    var e := Extension(name).value;
    var i := |name| - |e| - 1;
    var s := prefix + name;
    assert s[|prefix| + i] == '.';
    assert s[|prefix| + i + 1..] == name[i + 1..];
    ExtensionIsAfterLastDot(s, |prefix| + i);
  }

  /** The kind of a stored upload: the message type and the Telegram upload method. */
  datatype MediaKind = MediaKind(messageType: string, telegramType: string)

  /** The mapping from a lower-cased extension to a kind in send_media. */
  function KindOf(ext: string): (k: MediaKind)
    ensures k.messageType in MediaTypes <==> ext in AllowedExtensions
    ensures k.messageType == "image" <==> k.telegramType == "photo"
  {
    if ext in ["png", "jpg", "jpeg", "gif"] then MediaKind("image", "photo")
    else if ext in ["mp4"] then MediaKind("video", "video")
    else if ext in ["mp3", "wav"] then MediaKind("audio", "document")
    else MediaKind("file", "document")
  }

  /** The stored content of a media message: the caption, or "Sent a <type>" when there is none. */
  function MediaContent(caption: string, messageType: string): (r: string)
    ensures r != ""
    ensures caption != "" ==> r == caption
    ensures caption == "" ==> StartsWith(r, "Sent a ") && r[|"Sent a "|..] == messageType
  {
    if caption != "" then caption else "Sent a " + messageType
  }

  // ---------------------------------------------------------------- messages

  /** Times are microseconds since the epoch, in the UTC the database stores. */
  const MicrosPerMinute: int := 60 * 1000000

  /** India Standard Time, 5 hours 30 minutes ahead of UTC, which the routes add before rendering a time. */
  const IstOffset: int := (5 * 60 + 30) * MicrosPerMinute

  datatype Message = Message(
    id: nat,
    senderId: UserId,
    receiverId: UserId,
    content: Option<string>,
    messageType: string,
    filePath: Option<string>,
    telegramFileId: Option<string>,
    telegramFileUrl: Option<string>,
    timestamp: int,
    isRead: bool,
    isDelivered: bool,
    deliveredAt: Option<int>,
    readAt: Option<int>)

  /** The receipt flags agree with their times, and a read message has been delivered. */
  predicate ReceiptsConsistent(m: Message)
  {
    && (m.isRead ==> m.isDelivered)
    && (m.isDelivered <==> m.deliveredAt.Some?)
    && (m.isRead <==> m.readAt.Some?)
  }

  predicate IsParty(m: Message, user: UserId)
  {
    m.senderId == user || m.receiverId == user
  }

  /** A receipt pushed to a user's room over the socket: message_status_update. */
  datatype StatusUpdate = StatusUpdate(room: string, messageId: int, status: string)

  function UserRoom(user: UserId): string
  {
    "user_" + IntToString(user)
  }

  /** A message marked delivered now, unless it already was. */
  function Delivered(m: Message, now: int): (r: Message)
    requires ReceiptsConsistent(m)
    ensures ReceiptsConsistent(r) && r.isDelivered
    ensures m.isDelivered ==> r == m
  {
    if m.isDelivered then m else m.(isDelivered := true, deliveredAt := Some(now))
  }

  /** A message marked read now, delivered first if it was not. */
  function Read(m: Message, now: int): (r: Message)
    requires ReceiptsConsistent(m)
    ensures ReceiptsConsistent(r) && r.isRead && r.isDelivered
    ensures r.readAt == Some(now)
    ensures m.isDelivered ==> r.deliveredAt == m.deliveredAt
  {
    Delivered(m, now).(isRead := true, readAt := Some(now))
  }

  /** Receipts change nothing but the four receipt fields. */
  lemma ReceiptsKeepMessage(m: Message, now: int)
    requires ReceiptsConsistent(m)
    ensures Read(m, now).(isRead := m.isRead, readAt := m.readAt, isDelivered := m.isDelivered, deliveredAt := m.deliveredAt) == m
    ensures Delivered(m, now).(isDelivered := m.isDelivered, deliveredAt := m.deliveredAt) == m
  {
  }

  /** Delivering again, or after the message was read, changes nothing. */
  lemma {:induction false} DeliveredIdempotent(m: Message, now: int, later: int)
    requires ReceiptsConsistent(m)
    ensures Delivered(Delivered(m, now), later) == Delivered(m, now)
    ensures Delivered(Read(m, now), later) == Read(m, now)
  {
  }

  /**
   * Message.query.get_or_404(id), where the 404 escapes the route: the row,
   * or 404 Not Found.
   */
  function Fetch(rows: seq<Message>, id: nat): (r: Result<Message, HttpError>)
    requires forall i :: 0 <= i < |rows| ==> rows[i].id == i + 1
    ensures r.Success? <==> exists i :: 0 <= i < |rows| && rows[i].id == id
    ensures r.Success? ==> r.value == rows[id - 1]
    ensures r.Failure? ==> r.error == HttpError(404, "Not Found")
  {
    if 0 < id <= |rows| then Success(rows[id - 1]) else Failure(HttpError(404, "Not Found"))
  }

  /**
   * get_or_404 as the media, mark-delivered and mark-read routes call it:
   * inside `try: ... except Exception`, which also catches the NotFound that
   * get_or_404 raises, so a missing message yields the route's 500 reply.
   */
  function FetchInsideTry(rows: seq<Message>, id: nat, failure: string): (r: Result<Message, HttpError>)
    requires forall i :: 0 <= i < |rows| ==> rows[i].id == i + 1
    ensures r.Success? <==> Fetch(rows, id).Success?
    ensures r.Success? ==> r == Fetch(rows, id)
    ensures r.Failure? ==> r.error == HttpError(500, failure)
  {
    match Fetch(rows, id)
    case Success(m) => Success(m)
    case Failure(_) => Failure(HttpError(500, failure))
  }

  /** As written, a request for a message that does not exist gets 500, not the 404 get_or_404 is for. */
  lemma MissingMessageIs500AsWritten(rows: seq<Message>, id: nat, failure: string)
    requires forall i :: 0 <= i < |rows| ==> rows[i].id == i + 1
    requires !(0 < id <= |rows|)
    ensures Fetch(rows, id) == Failure(HttpError(404, "Not Found"))
    ensures FetchInsideTry(rows, id, failure) == Failure(HttpError(500, failure))
  {
  }

  // ------------------------------------------------------------ media access

  const TelegramApi: string := "https://api.telegram.org"
  const UploadsUrl: string := "/wa/uploads/"

  /** `s.split("/")[-1]`. */
  function LastSegment(s: string): (r: string)
    ensures '/' !in r
  {
    var parts := Split(s, '/');
    parts[|parts| - 1]
  }

  /**
   * The file URL of get_media_file: the Telegram URL when it is non-empty,
   * else the local file's name under /wa/uploads/, else none.
   */
  function FileUrl(m: Message): (r: Option<string>)
    ensures m.telegramFileUrl.Some? && m.telegramFileUrl.value != "" ==> r == m.telegramFileUrl
    ensures r.None? <==> (m.telegramFileUrl.None? || m.telegramFileUrl.value == "") && (m.filePath.None? || m.filePath.value == "")
    ensures r.Some? ==> r.value != ""
  {
    if m.telegramFileUrl.Some? && m.telegramFileUrl.value != "" then m.telegramFileUrl
    else if m.filePath.Some? && m.filePath.value != "" then Some(UploadsUrl + LastSegment(m.filePath.value))
    else None
  }

  /** A local file is served under /wa/uploads/ by its bare name: no directory of the server shows. */
  lemma LocalUrlHidesDirectory(m: Message)
    requires m.telegramFileUrl.None? || m.telegramFileUrl.value == ""
    requires m.filePath.Some? && m.filePath.value != ""
    ensures FileUrl(m).Some? && StartsWith(FileUrl(m).value, UploadsUrl)
    ensures '/' !in FileUrl(m).value[|UploadsUrl|..]
  {
    assert FileUrl(m).value[|UploadsUrl|..] == LastSegment(m.filePath.value);
  }

  /** The file columns of a stored upload: local path, Telegram file id and Telegram URL. */
  datatype FileColumns = FileColumns(filePath: Option<string>, fileId: Option<string>, fileUrl: Option<string>)

  /**
   * The file columns send_media stores for an upload saved as
   * `uploads/<name>`. `telegram` is what upload_file returned: None when no
   * storage is configured or the upload failed, else the file id with the
   * URL get_file_url found, which is None when Telegram's getFile failed.
   * Any such pair counts as a successful upload, after which the local copy
   * is deleted unless the removal failed (`removed` false).
   */
  function StoredFileColumns(name: string, telegram: Option<(string, Option<string>)>, removed: bool): (f: FileColumns)
    ensures f.fileId.Some? <==> telegram.Some?
    ensures telegram.Some? ==> f.fileId == Some(telegram.value.0) && f.fileUrl == telegram.value.1
    ensures telegram.None? ==> f.fileUrl.None?
    ensures f.filePath.None? <==> telegram.Some? && removed
    ensures f.filePath.Some? ==> f.filePath.value == "uploads/" + name
  {
    if telegram.None? then FileColumns(Some("uploads/" + name), None, None)
    else FileColumns(if removed then None else Some("uploads/" + name), Some(telegram.value.0), telegram.value.1)
  }

  /**
   * The same columns with the local copy deleted only once Telegram has
   * given a URL to serve the file from instead.
   */
  function KeptFileColumns(name: string, telegram: Option<(string, Option<string>)>, removed: bool): (f: FileColumns)
    ensures f.fileId.Some? <==> telegram.Some?
    ensures telegram.Some? ==> f.fileId == Some(telegram.value.0) && f.fileUrl == telegram.value.1
    ensures telegram.None? ==> f.fileUrl.None?
    ensures f.filePath.None? <==> telegram.Some? && removed && telegram.value.1.Some? && telegram.value.1.value != ""
    ensures f.filePath.Some? ==> f.filePath.value == "uploads/" + name
  {
    var hasUrl := telegram.Some? && telegram.value.1.Some? && telegram.value.1.value != "";
    if telegram.None? then FileColumns(Some("uploads/" + name), None, None)
    else FileColumns(if removed && hasUrl then None else Some("uploads/" + name), Some(telegram.value.0), telegram.value.1)
  }

  /** A message whose file columns are `f`. */
  predicate HasColumns(m: Message, f: FileColumns)
  {
    m.filePath == f.filePath && m.telegramFileId == f.fileId && m.telegramFileUrl == f.fileUrl
  }

  /** How a media file is handed out: the bytes fetched from Telegram, or a redirect to its URL. */
  datatype MediaReply = Proxied(url: string) | Redirected(url: string)

  /**
   * get_media_file once the message is found: 403 for anyone but its sender
   * and receiver, 404 without a file, the Telegram bytes when the fetch
   * (`fetchOk`: it answered 200 in time) succeeds, a redirect otherwise.
   */
  function MediaAccess(m: Message, user: UserId, fetchOk: bool): (r: Result<MediaReply, HttpError>)
    ensures !IsParty(m, user) ==> r == Failure(HttpError(403, "Unauthorized"))
    ensures IsParty(m, user) && FileUrl(m).None? ==> r == Failure(HttpError(404, "File not found"))
    ensures r.Success? ==> IsParty(m, user) && FileUrl(m) == Some(r.value.url)
    ensures r.Success? ==> (r.value.Proxied? <==> StartsWith(r.value.url, TelegramApi) && fetchOk)
  {
    if !IsParty(m, user) then Failure(HttpError(403, "Unauthorized"))
    else
      match FileUrl(m)
      case None => Failure(HttpError(404, "File not found"))
      case Some(url) =>
        if StartsWith(url, TelegramApi) && fetchOk then Success(Proxied(url)) else Success(Redirected(url))
  }

  // ------------------------------------------------------------ conversations

  /** The message passes between the two users, in either direction. */
  predicate Between(m: Message, a: UserId, b: UserId)
  {
    (m.senderId == a && m.receiverId == b) || (m.senderId == b && m.receiverId == a)
  }

  /** The conversation filter, in table order. */
  function Conversation(rows: seq<Message>, a: UserId, b: UserId): (r: seq<Message>)
    ensures |r| <= |rows|
    ensures forall m :: m in r <==> m in rows && Between(m, a, b)
  {
    if rows == [] then []
    else
      var rest := Conversation(rows[1..], a, b);
      assert rows == [rows[0]] + rows[1..];
      if Between(rows[0], a, b) then [rows[0]] + rest else rest
  }

  function Timestamp(m: Message): int { m.timestamp }

  /** The conversation newest first: ORDER BY timestamp DESC. */
  function Newest(rows: seq<Message>, a: UserId, b: UserId): seq<Message>
  {
    SortDesc(Conversation(rows, a, b), Timestamp)
  }

  /** `(page - 1) * per_page`. */
  function Offset(page: int, perPage: int): (r: int)
    ensures page == 1 ==> r == 0
    ensures page >= 1 && perPage >= 0 ==> r >= 0
    ensures r + perPage == page * perPage
  {
    (page - 1) * perPage
  }

  /** The next page starts where this one ends, at `page * per_page`; from page 1 on, offsets are not negative. */
  lemma OffsetSteps(page: int, perPage: int)
    ensures Offset(page + 1, perPage) == Offset(page, perPage) + perPage == page * perPage
    ensures page >= 1 && perPage >= 0 ==> Offset(page, perPage) >= 0
  {
  }

  /** The messages from `offset` on, at most `limit` of them, newest first, then reversed. */
  function PageAt(rows: seq<Message>, a: UserId, b: UserId, offset: int, limit: int): (r: seq<Message>)
    ensures var n := |Conversation(rows, a, b)|; var start := Min(Max(offset, 0), n);
      |r| == if limit < 0 then n - start else Min(limit, n - start)
  {
    Reverse(Window(Newest(rows, a, b), offset, limit))
  }

  /** One page of the conversation: OFFSET and LIMIT over the newest-first order, then reversed. */
  function PageOf(rows: seq<Message>, a: UserId, b: UserId, page: int, perPage: int): (r: seq<Message>)
    ensures page >= 1 && perPage >= 0 ==>
      |r| == Min(perPage, Max(|Conversation(rows, a, b)| - Offset(page, perPage), 0))
  {
    PageAt(rows, a, b, Offset(page, perPage), perPage)
  }

  /** A page holds only messages of the conversation and shows them oldest first. */
  lemma PageIsOldestFirst(rows: seq<Message>, a: UserId, b: UserId, page: int, perPage: int)
    ensures forall m :: m in PageOf(rows, a, b, page, perPage) ==> m in rows && Between(m, a, b)
    ensures forall i, j :: 0 <= i < j < |PageOf(rows, a, b, page, perPage)| ==>
      PageOf(rows, a, b, page, perPage)[i].timestamp <= PageOf(rows, a, b, page, perPage)[j].timestamp
  {
    var conversation := Conversation(rows, a, b);
    SortDescPermutes(conversation, Timestamp);
    WindowWithin(SortDesc(conversation, Timestamp), Offset(page, perPage), perPage);
    WindowSorted(SortDesc(conversation, Timestamp), Offset(page, perPage), perPage, Timestamp);
    ReverseAscending(Window(SortDesc(conversation, Timestamp), Offset(page, perPage), perPage), Timestamp);
  }

  /**
   * The page at one offset and the page that starts where it ends, each read
   * newest first, continue one another: no message is skipped or repeated.
   * By OffsetSteps, page p + 1 starts where page p ends.
   */
  lemma PagesAdjoin(rows: seq<Message>, a: UserId, b: UserId, offset: nat, perPage: nat)
    ensures Reverse(PageAt(rows, a, b, offset, perPage)) + Reverse(PageAt(rows, a, b, offset + perPage, perPage))
         == Window(Newest(rows, a, b), offset, 2 * perPage)
  {
    ReversedWindowsAdjoin(Newest(rows, a, b), offset, perPage);
  }

  /** `has_more`: for a positive page and a non-negative page size, there is more exactly when the pages so far do not cover the total. */
  lemma HasMoreIff(rows: seq<Message>, a: UserId, b: UserId, page: int, perPage: int)
    requires page >= 1 && perPage >= 0
    ensures Offset(page, perPage) + |PageOf(rows, a, b, page, perPage)| < |Conversation(rows, a, b)|
        <==> page * perPage < |Conversation(rows, a, b)|
  {
    OffsetSteps(page, perPage);
  }

  /** One message as get_conversation returns it; `timestamp` is in IST, before isoformat() renders it. */
  datatype MessageView = MessageView(
    id: nat,
    content: Option<string>,
    messageType: string,
    timestamp: int,
    senderId: UserId,
    isRead: bool,
    isDelivered: bool,
    secureFileId: Option<nat>)

  /** The fields of a stored message a reader sees: text decrypted, the time in IST, and the id as file handle for media. */
  function View(c: Cipher, m: Message): (v: MessageView)
    ensures v.id == m.id && v.messageType == m.messageType && v.senderId == m.senderId
    ensures v.timestamp == m.timestamp + IstOffset && v.timestamp - m.timestamp == 19800 * 1000000
    ensures v.isRead == m.isRead && v.isDelivered == m.isDelivered
    ensures v.secureFileId.Some? <==> m.messageType in MediaTypes
    ensures v.secureFileId.Some? ==> v.secureFileId.value == m.id
    ensures m.messageType != "text" ==> v.content == m.content
  {
    MessageView(
      m.id,
      if m.messageType == "text" then DecryptMessage(c, m.content) else m.content,
      m.messageType,
      m.timestamp + IstOffset,
      m.senderId,
      m.isRead,
      m.isDelivered,
      if m.messageType in MediaTypes then Some(m.id) else None)
  }

  datatype ConversationPage = ConversationPage(messages: seq<MessageView>, hasMore: bool, total: nat)

  /** Token the client sends to open a conversation; see Encryption. */
  datatype SendBody =
    | NoJson
    | Body(nonEmpty: bool, receiverToken: Option<string>, content: Option<string>)

  // ------------------------------------------------------------------ table

  class MessageTable {
    var rows: seq<Message>

    ghost predicate Valid()
      reads this
    {
      forall i :: 0 <= i < |rows| ==> rows[i].id == i + 1 && ReceiptsConsistent(rows[i])
    }

    constructor()
      ensures Valid() && rows == []
    {
      rows := [];
    }

    /**
     * send_message. `body` is the JSON request (NoJson: absent, unreadable or
     * not an object; `nonEmpty`: it has at least one key). The content is
     * stored encrypted and `r` is the stored row; the 201 reply shows its id,
     * its timestamp shifted by IstOffset, and its sender, with the content as
     * the request had it (`body.content`), not the stored ciphertext.
     */
    method SendText(c: Cipher, user: UserId, body: SendBody, now: int, commitOk: bool)
      returns (r: Result<Message, HttpError>)
      requires Valid()
      modifies this
      ensures Valid()
      ensures (body.NoJson? || !body.nonEmpty) ==> r == Failure(HttpError(400, "Invalid JSON data"))
      ensures body.Body? && body.nonEmpty && (body.receiverToken.None? || body.receiverToken.value == "") ==>
        r == Failure(HttpError(400, "Receiver token required"))
      ensures && body.Body? && body.nonEmpty && body.receiverToken.Some? && body.receiverToken.value != ""
              && (body.content.None? || IsBlank(body.content.value)) ==>
        r == Failure(HttpError(400, "Message content required"))
      ensures r.Failure? && r.error.code == 403 <==>
        && body.Body? && body.nonEmpty && body.receiverToken.Some? && body.receiverToken.value != ""
        && body.content.Some? && !IsBlank(body.content.value)
        && ValidateSecureToken(c, body.receiverToken.value, user).None?
      ensures r.Failure? ==> rows == old(rows)
      ensures r.Success? <==>
        && body.Body? && body.nonEmpty && body.receiverToken.Some? && body.receiverToken.value != ""
        && body.content.Some? && !IsBlank(body.content.value)
        && ValidateSecureToken(c, body.receiverToken.value, user).Some? && commitOk
      ensures r.Success? ==>
        && r.value == Message(|old(rows)| + 1, user, ValidateSecureToken(c, body.receiverToken.value, user).value,
                              EncryptMessage(c, body.content), "text", None, None, None, now, false, false, None, None)
        && rows == old(rows) + [r.value]
    {
      if body.NoJson? || !body.nonEmpty {
        return Failure(HttpError(400, "Invalid JSON data"));
      }
      if body.receiverToken.None? || body.receiverToken.value == "" {
        return Failure(HttpError(400, "Receiver token required"));
      }
      if body.content.None? || IsBlank(body.content.value) {
        return Failure(HttpError(400, "Message content required"));
      }
      var receiver := ValidateSecureToken(c, body.receiverToken.value, user);
      if receiver.None? {
        return Failure(HttpError(403, "Invalid or unauthorized token"));
      }
      if !commitOk {
        return Failure(HttpError(500, "Failed to send message"));
      }
      var m := Message(|rows| + 1, user, receiver.value, EncryptMessage(c, body.content), "text",
                       None, None, None, now, false, false, None, None);
      rows := rows + [m];
      r := Success(m);
    }

    /**
     * send_media. `upload` is the uploaded file (None: no `file` part) with
     * its client name and the name secure_filename made of it, `stamp` the
     * time prefix of the stored name, `telegram` what upload_file returned
     * (None: no storage configured, or the upload failed; otherwise the file
     * id with a URL that is None when getFile failed) and `removed` whether
     * the local copy was then deleted. A stored name without a '.' makes the
     * extension lookup raise: 500, and no row. The 201 reply renders the
     * stored row's timestamp shifted by IstOffset.
     */
    method SendMedia(user: UserId, upload: Option<(string, string)>, receiverField: Option<string>,
                     caption: string, stamp: string, telegram: Option<(string, Option<string>)>,
                     removed: bool, now: int)
      returns (r: Result<Message, HttpError>)
      requires Valid()
      modifies this
      ensures Valid()
      ensures upload.None? ==> r == Failure(HttpError(400, "No file provided"))
      ensures upload.Some? && (receiverField.None? || receiverField.value == "") ==>
        r == Failure(HttpError(400, "Receiver ID required"))
      ensures upload.Some? && receiverField.Some? && receiverField.value != "" && PyInt(receiverField.value).None? ==>
        r == Failure(HttpError(400, "Invalid receiver ID"))
      ensures upload.Some? && receiverField.Some? && PyInt(receiverField.value).Some? && !AllowedFile(upload.value.0) ==>
        r == Failure(HttpError(400, "Invalid file type"))
      ensures upload.Some? && receiverField.Some? && PyInt(receiverField.value).Some? && AllowedFile(upload.value.0)
                && Extension(stamp + upload.value.1).None? ==>
        r == Failure(HttpError(500, "Internal Server Error"))
      ensures r.Failure? ==> rows == old(rows)
      ensures r.Success? <==>
        && upload.Some? && receiverField.Some? && PyInt(receiverField.value).Some? && AllowedFile(upload.value.0)
        && Extension(stamp + upload.value.1).Some?
      ensures r.Success? ==>
        var kind := KindOf(ToLower(Extension(stamp + upload.value.1).value));
        var f := StoredFileColumns(stamp + upload.value.1, telegram, removed);
        && r.value == Message(
             |old(rows)| + 1, user, PyInt(receiverField.value).value,
             Some(MediaContent(caption, kind.messageType)), kind.messageType,
             f.filePath, f.fileId, f.fileUrl, now, false, false, None, None)
        && rows == old(rows) + [r.value]
    {
      if upload.None? {
        return Failure(HttpError(400, "No file provided"));
      }
      if receiverField.None? || receiverField.value == "" {
        return Failure(HttpError(400, "Receiver ID required"));
      }
      var receiver := PyInt(receiverField.value);
      if receiver.None? {
        return Failure(HttpError(400, "Invalid receiver ID"));
      }
      if !AllowedFile(upload.value.0) {
        return Failure(HttpError(400, "Invalid file type"));
      }
      var name := stamp + upload.value.1;
      var ext := Extension(name);
      if ext.None? {
        return Failure(HttpError(500, "Internal Server Error"));
      }
      var kind := KindOf(ToLower(ext.value));
      var filePath: Option<string> := Some("uploads/" + name);
      var fileId: Option<string> := None;
      var fileUrl: Option<string> := None;
      if telegram.Some? {
        fileId, fileUrl := Some(telegram.value.0), telegram.value.1;
        if removed {
          filePath := None;
        }
      }
      var m := Message(|rows| + 1, user, receiver.value, Some(MediaContent(caption, kind.messageType)),
                       kind.messageType, filePath, fileId, fileUrl, now, false, false, None, None);
      rows := rows + [m];
      r := Success(m);
    }

    /**
     * get_conversation. `page` and `perPage` are the query arguments as
     * integers (1 and 50 when absent). Reads the table and changes nothing;
     * the page is then encrypted whole with EncryptApiResponse.
     */
    method GetConversation(c: Cipher, user: UserId, token: string, page: int, perPage: int)
      returns (r: Result<ConversationPage, HttpError>)
      ensures ValidateSecureToken(c, token, user).None? ==> r == Failure(HttpError(403, "Invalid or unauthorized token"))
      ensures ValidateSecureToken(c, token, user).Some? ==> r.Success?
      ensures r.Success? ==>
        var other := ValidateSecureToken(c, token, user).value;
        var shown := PageOf(rows, user, other, page, perPage);
        && r.value.total == |Conversation(rows, user, other)|
        && r.value.hasMore == (Offset(page, perPage) + |shown| < r.value.total)
        && |r.value.messages| == |shown|
        && forall i :: 0 <= i < |shown| ==> r.value.messages[i] == View(c, shown[i])
    {
      var target := ValidateSecureToken(c, token, user);
      if target.None? {
        return Failure(HttpError(403, "Invalid or unauthorized token"));
      }
      var offset := Offset(page, perPage);
      var total := |Conversation(rows, user, target.value)|;
      var shown := PageOf(rows, user, target.value, page, perPage);
      var views: seq<MessageView> := [];
      var i := 0;
      while i < |shown|
        invariant 0 <= i <= |shown|
        invariant |views| == i
        invariant forall k :: 0 <= k < i ==> views[k] == View(c, shown[k])
      {
        views := views + [View(c, shown[i])];
        i := i + 1;
      }
      r := Success(ConversationPage(views, offset + |shown| < total, total));
    }

    /**
     * get_media_file. The lookup sits inside the route's `try`, so an unknown
     * id is answered with the route's 500 (FetchInsideTry).
     */
    method GetMedia(user: UserId, id: nat, fetchOk: bool) returns (r: Result<MediaReply, HttpError>)
      requires Valid()
      ensures !(0 < id <= |rows|) ==> r == Failure(HttpError(500, "File access failed"))
      ensures 0 < id <= |rows| ==> r == MediaAccess(rows[id - 1], user, fetchOk)
    {
      var found := FetchInsideTry(rows, id, "File access failed");
      if found.Failure? {
        return Failure(found.error);
      }
      r := MediaAccess(found.value, user, fetchOk);
    }

    /**
     * mark_message_delivered: only the receiver, and only once; a second
     * attempt is refused with 403. An unknown id gets the route's 500, as
     * the lookup sits inside its `try` (FetchInsideTry).
     */
    method MarkDelivered(user: UserId, id: nat, now: int, commitOk: bool) returns (r: Result<Message, HttpError>)
      requires Valid()
      modifies this
      ensures Valid()
      ensures !(0 < id <= |old(rows)|) ==> r == Failure(HttpError(500, "Failed to mark message as delivered"))
      ensures 0 < id <= |old(rows)| && (old(rows)[id - 1].receiverId != user || old(rows)[id - 1].isDelivered) ==>
        r == Failure(HttpError(403, "Unauthorized or already delivered"))
      ensures 0 < id <= |old(rows)| && old(rows)[id - 1].receiverId == user && !old(rows)[id - 1].isDelivered && !commitOk ==>
        r == Failure(HttpError(500, "Failed to mark message as delivered"))
      ensures r.Failure? ==> rows == old(rows)
      ensures r.Success? <==>
        0 < id <= |old(rows)| && old(rows)[id - 1].receiverId == user && !old(rows)[id - 1].isDelivered && commitOk
      ensures r.Success? ==>
        && r.value == Delivered(old(rows)[id - 1], now)
        && rows == old(rows)[id - 1 := r.value]
    {
      var found := FetchInsideTry(rows, id, "Failed to mark message as delivered");
      if found.Failure? {
        return Failure(found.error);
      }
      var m := found.value;
      if m.receiverId != user || m.isDelivered {
        return Failure(HttpError(403, "Unauthorized or already delivered"));
      }
      if !commitOk {
        return Failure(HttpError(500, "Failed to mark message as delivered"));
      }
      var updated := Delivered(m, now);
      rows := rows[id - 1 := updated];
      r := Success(updated);
    }

    /**
     * mark_message_read: only the receiver; marks it delivered too when it
     * was not. An unknown id gets the route's 500 (FetchInsideTry).
     */
    method MarkRead(user: UserId, id: nat, now: int, commitOk: bool) returns (r: Result<Message, HttpError>)
      requires Valid()
      modifies this
      ensures Valid()
      ensures !(0 < id <= |old(rows)|) ==> r == Failure(HttpError(500, "Failed to mark message as read"))
      ensures 0 < id <= |old(rows)| && old(rows)[id - 1].receiverId != user ==>
        r == Failure(HttpError(403, "Unauthorized"))
      ensures 0 < id <= |old(rows)| && old(rows)[id - 1].receiverId == user && !commitOk ==>
        r == Failure(HttpError(500, "Failed to mark message as read"))
      ensures r.Failure? ==> rows == old(rows)
      ensures r.Success? <==> 0 < id <= |old(rows)| && old(rows)[id - 1].receiverId == user && commitOk
      ensures r.Success? ==>
        && r.value == Read(old(rows)[id - 1], now)
        && rows == old(rows)[id - 1 := r.value]
    {
      var found := FetchInsideTry(rows, id, "Failed to mark message as read");
      if found.Failure? {
        return Failure(found.error);
      }
      var m := found.value;
      if m.receiverId != user {
        return Failure(HttpError(403, "Unauthorized"));
      }
      if !commitOk {
        return Failure(HttpError(500, "Failed to mark message as read"));
      }
      var updated := Read(m, now);
      rows := rows[id - 1 := updated];
      r := Success(updated);
    }

    /**
     * The message_delivered socket handler: for a truthy id of a message
     * not yet delivered, mark it and tell the sender's room; otherwise
     * nothing happens. Nobody checks who sent the event.
     */
    method AckDelivered(messageId: Option<int>, now: int) returns (update: Option<StatusUpdate>)
      requires Valid()
      modifies this
      ensures Valid()
      ensures update.Some? <==>
        Truthy(messageId) && 0 < messageId.value <= |old(rows)| && !old(rows)[messageId.value - 1].isDelivered
      ensures update.None? ==> rows == old(rows)
      ensures update.Some? ==>
        && rows == old(rows)[messageId.value - 1 := Delivered(old(rows)[messageId.value - 1], now)]
        && update.value == StatusUpdate(UserRoom(old(rows)[messageId.value - 1].senderId), messageId.value, "delivered")
    {
      if !Truthy(messageId) || !(0 < messageId.value <= |rows|) {
        return None;
      }
      var m := rows[messageId.value - 1];
      if m.isDelivered {
        return None;
      }
      rows := rows[messageId.value - 1 := Delivered(m, now)];
      update := Some(StatusUpdate(UserRoom(m.senderId), messageId.value, "delivered"));
    }

    /**
     * The message_read socket handler: for a truthy id of an existing
     * message, mark it read (and delivered if it was not) and tell the
     * sender's room, every time.
     */
    method AckRead(messageId: Option<int>, now: int) returns (update: Option<StatusUpdate>)
      requires Valid()
      modifies this
      ensures Valid()
      ensures update.Some? <==> Truthy(messageId) && 0 < messageId.value <= |old(rows)|
      ensures update.None? ==> rows == old(rows)
      ensures update.Some? ==>
        && rows == old(rows)[messageId.value - 1 := Read(old(rows)[messageId.value - 1], now)]
        && update.value == StatusUpdate(UserRoom(old(rows)[messageId.value - 1].senderId), messageId.value, "read")
    {
      if !Truthy(messageId) || !(0 < messageId.value <= |rows|) {
        return None;
      }
      var m := rows[messageId.value - 1];
      rows := rows[messageId.value - 1 := Read(m, now)];
      update := Some(StatusUpdate(UserRoom(m.senderId), messageId.value, "read"));
    }
  }

  // -------------------------------------------------------------- properties

  /** A text message, stored by SendText, reads back in the conversation as it was sent. */
  lemma TextReadsBackAsSent(c: Cipher, m: Message, content: string)
    requires Inverts(c)
    requires m.messageType == "text" && m.content == EncryptMessage(c, Some(content))
    ensures View(c, m).content == Some(content)
  {
    MessageRoundTrip(c, Some(content));
  }

  /**
   * An upload the rules accept, saved under a name secure_filename left as
   * it was, becomes an image, video or audio message, and so gets a file
   * handle in the conversation.
   */
  lemma AcceptedUploadIsMedia(name: string, stamp: string)
    requires AllowedFile(name) && '.' !in stamp
    ensures Extension(stamp + name).Some?
    ensures KindOf(ToLower(Extension(stamp + name).value)).messageType in MediaTypes
  {
    ExtensionOfPrefixed(stamp, name);
  }

  /**
   * The row send_media stores can be served exactly when it has a Telegram
   * URL or its local copy was kept.
   */
  lemma StoredMediaHasUrl(m: Message, name: string, telegram: Option<(string, Option<string>)>, removed: bool)
    requires HasColumns(m, StoredFileColumns(name, telegram, removed))
    ensures FileUrl(m).Some? <==> !(telegram.Some? && removed) || (telegram.value.1.Some? && telegram.value.1.value != "")
  {
  }

  /**
   * As written, an upload whose getFile failed loses its local copy anyway:
   * the stored row has neither a path nor a URL, and get_media_file answers
   * 404 for it.
   */
  lemma UnservableUploadAsWritten(m: Message, name: string, fileId: string)
    requires HasColumns(m, StoredFileColumns(name, Some((fileId, None)), true))
    ensures FileUrl(m).None?
  {
  }

  /** Keeping the local copy until there is a URL leaves every stored upload servable. */
  lemma KeptUploadHasUrl(m: Message, name: string, telegram: Option<(string, Option<string>)>, removed: bool)
    requires HasColumns(m, KeptFileColumns(name, telegram, removed))
    ensures FileUrl(m).Some?
    ensures telegram.Some? && telegram.value.1.Some? && telegram.value.1.value != "" ==> FileUrl(m) == telegram.value.1
  {
  }
}
