/** The chat endpoints (backend/routers/chat.py): the validation of a message sent with
    files, the server-sent event stream that relays a reply, the two message endpoints
    over the chat service, and the side-by-side comparison of creators. */
module ChatRouter {
  import opened Common
  import opened Models
  import opened Scraping
  import Json
  import Prompt
  import KnowledgeService
  import Conversation
  import Embeddings

  const MaxMessageLength: nat := 100000
  const MaxFileSize: nat := 500000
  const MaxFilesPerMessage: nat := 3
  const AllowedExtensions: seq<string> := [".txt", ".md", ".csv", ".json"]

  /** An `HTTPException`: its status code and detail. */
  datatype Rejection = Rejection(status: nat, detail: string)

  const SessionMissing := Rejection(404, "Chat session not found")

  // ---------------------------------------------------------------------------
  // File names
  // ---------------------------------------------------------------------------

  /** `s.rfind(c)`: the last position of `c`, or -1. */
  function RFind(s: string, c: char): (r: int)
    ensures -1 <= r < |s|
    ensures r >= 0 ==> s[r] == c
    ensures forall k :: r < k < |s| ==> s[k] != c
  {
    if s == [] then -1 else if s[|s| - 1] == c then |s| - 1 else RFind(s[..|s| - 1], c)
  }

  /** The last position of `c` is the one after which `c` no longer occurs. */
  lemma {:induction false} RFindIs(s: string, c: char, i: int)
    requires -1 <= i < |s| && (i >= 0 ==> s[i] == c)
    requires forall k :: i < k < |s| ==> s[k] != c
    ensures RFind(s, c) == i
  {
    if s != [] && i < |s| - 1 {
      var init := s[..|s| - 1];
      assert forall k :: i < k < |init| ==> init[k] == s[k];
      RFindIs(init, c, i);
    }
  }

  predicate AllDots(s: string)
  {
    forall k :: 0 <= k < |s| ==> s[k] == '.'
  }

  /** `os.path.splitext(path)[1]` on a POSIX server: from the last dot of the last path
      component on, unless the dot is that component's first character after its leading
      dots, in which case there is no extension. */
  function Extension(path: string): string
  {
    var sep, dot := RFind(path, '/'), RFind(path, '.');
    if dot > sep && !AllDots(path[sep + 1..dot]) then path[dot..] else []
  }

  /** An extension is empty or a suffix of the path made of one dot and what follows it:
      no further dot and no slash. */
  lemma ExtensionShape(path: string)
    ensures var r := Extension(path);
      r == [] || (r[0] == '.' && EndsWith(path, r) && '/' !in r && '.' !in r[1..])
  {
    var sep, dot := RFind(path, '/'), RFind(path, '.');
    var r := Extension(path);
    if r != [] {
      assert r == path[dot..];
      assert path[|path| - |r|..] == r;
      assert forall k :: 0 <= k < |r| ==> r[k] == path[dot + k];
    }
  }

  /** A file name made of a stem that is not all dots and an extension of one dot and no
      more: the extension is found, whatever directory precedes the name. */
  lemma ExtensionOfName(dir: string, stem: string, ext: string)
    requires dir == [] || dir[|dir| - 1] == '/'
    requires '/' !in stem && !AllDots(stem)
    requires ext != [] && ext[0] == '.' && '.' !in ext[1..] && '/' !in ext
    ensures Extension(dir + stem + ext) == ext
  {
    var path := dir + stem + ext;
    var dot := |dir| + |stem|;
    forall k | dot < k < |path| ensures path[k] != '.' {
      assert path[k] == ext[1..][k - dot - 1];
    }
    assert path[dot] == ext[0];
    RFindIs(path, '.', dot);
    forall k | |dir| - 1 < k < |path| ensures path[k] != '/' {
      if k < dot {
        assert path[k] == stem[k - |dir|];
      } else {
        assert path[k] == ext[k - dot];
      }
    }
    if dir != [] {
      assert path[|dir| - 1] == '/';
    }
    RFindIs(path, '/', |dir| - 1);
    assert path[|dir|..dot] == stem;
    assert path[dot..] == ext;
  }

  /** A name without a dot after its leading dots, such as `README` or `.bashrc`, has no
      extension. */
  lemma ExtensionOfDotFile(dir: string, dots: string, name: string)
    requires dir == [] || dir[|dir| - 1] == '/'
    requires AllDots(dots) && '.' !in name && '/' !in name
    ensures Extension(dir + dots + name) == []
  {
    var path := dir + dots + name;
    var sep, dot := RFind(path, '/'), RFind(path, '.');
    forall k | |dir| <= k < |path| ensures path[k] != '/' {
      if k < |dir| + |dots| {
        assert path[k] == dots[k - |dir|];
      } else {
        assert path[k] == name[k - |dir| - |dots|];
      }
    }
    if dir != [] {
      assert path[|dir| - 1] == '/';
    }
    assert sep == |dir| - 1;
    forall k | |dir| + |dots| <= k < |path| ensures path[k] != '.' {
      assert path[k] == name[k - |dir| - |dots|];
    }
    if dot > sep {
      assert dot < |dir| + |dots|;
      var between := path[sep + 1..dot];
      forall k | 0 <= k < |between| ensures between[k] == '.' {
        assert between[k] == dots[k];
      }
    }
  }

  // ---------------------------------------------------------------------------
  // Uploads
  // ---------------------------------------------------------------------------

  /** An uploaded file: its name, if any, the number of its bytes, and the text they
      decode to as UTF-8 (nothing when they are not valid UTF-8). */
  datatype Upload = Upload(filename: Option<string>, size: nat, text: Option<string>)

  /** What the loop does with one file. */
  datatype FileCheck = Skipped | Refused(rejection: Rejection) | Accepted(attachment: Attachment)

  predicate Allowed(ext: string)
  {
    ext in AllowedExtensions
  }

  function TooLong(): Rejection
  {
    Rejection(422, "Message too long (max " + Thousands(MaxMessageLength) + " characters)")
  }

  function TooMany(): Rejection
  {
    Rejection(422, "Too many files (max " + NatToString(MaxFilesPerMessage) + ")")
  }

  function TypeRefused(ext: string): Rejection
  {
    Rejection(422, "File type '" + ext + "' not allowed. Allowed: " + Join(AllowedExtensions, ", "))
  }

  function TooBig(name: string): Rejection
  {
    Rejection(422, "File '" + name + "' exceeds max size (" + NatToString(MaxFileSize / 1000) + "KB)")
  }

  function NotText(name: string): Rejection
  {
    Rejection(422, "File '" + name + "' is not valid UTF-8 text")
  }

  /** One pass of the file loop: a file without a name is skipped; otherwise its lowered
      extension, then its size, then its encoding are checked, in that order. */
  function CheckFile(u: Upload): FileCheck
  {
    if !Truthy(u.filename) then Skipped
    else
      var name := u.filename.value;
      var ext := Lower(Extension(name));
      if !Allowed(ext) then Refused(TypeRefused(ext))
      else if u.size > MaxFileSize then Refused(TooBig(name))
      else if u.text.None? then Refused(NotText(name))
      else Accepted(Attachment(name, u.text.value))
  }

  /** The file loop: the attachments in order, or the first file's rejection. Written for
      any per-file check, so that its lemmas are about the loop alone. */
  function CheckAll(files: seq<Upload>, check: Upload -> FileCheck): Result<seq<Attachment>, Rejection>
  {
    if files == [] then Ok([])
    else
      var r := CheckAll(files[..|files| - 1], check);
      if r.Err? then r
      else match check(files[|files| - 1])
        case Skipped => r
        case Refused(e) => Err(e)
        case Accepted(a) => Ok(r.value + [a])
  }

  function CheckFiles(files: seq<Upload>): Result<seq<Attachment>, Rejection>
  {
    CheckAll(files, CheckFile)
  }

  /** The checks of `send_message_with_files` after the session is found: the message
      length, then the file count, then the files; the attachments handed to the service
      are `None` when no file was attached. */
  function Validation(content: string, files: seq<Upload>): Result<Option<seq<Attachment>>, Rejection>
  {
    if |content| > MaxMessageLength then Err(TooLong())
    else if |files| > MaxFilesPerMessage then Err(TooMany())
    else match CheckFiles(files)
      case Err(e) => Err(e)
      case Ok(atts) => Ok(if atts == [] then None else Some(atts))
  }

  /** The files that have a name, in order. */
  function Named(files: seq<Upload>): (r: seq<Upload>)
    ensures forall u :: u in r <==> u in files && Truthy(u.filename)
  {
    if files == [] then []
    else
      var init := Named(files[..|files| - 1]);
      var last := files[|files| - 1];
      assert forall u :: u in files <==> u in files[..|files| - 1] || u == last;
      init + (if Truthy(last.filename) then [last] else [])
  }

  /** Once a file is refused, the files after it are not looked at. */
  lemma {:induction false} CheckAllStops(files: seq<Upload>, check: Upload -> FileCheck, k: nat)
    requires k <= |files| && CheckAll(files[..k], check).Err?
    ensures CheckAll(files, check) == CheckAll(files[..k], check)
    decreases |files| - k
  {
    if k < |files| {
      assert files[..k + 1][..k] == files[..k];
      CheckAllStops(files, check, k + 1);
    } else {
      assert files[..k] == files;
    }
  }

  /** One more file: the loop goes on with it when the files before it passed. */
  lemma CheckAllSnoc(files: seq<Upload>, check: Upload -> FileCheck, k: nat)
    requires k < |files| && CheckAll(files[..k], check).Ok?
    ensures var atts := CheckAll(files[..k], check).value;
      CheckAll(files[..k + 1], check) == match check(files[k])
        case Skipped => Ok(atts)
        case Refused(e) => Err(e)
        case Accepted(a) => Ok(atts + [a])
  {
    assert files[..k + 1][..k] == files[..k];
  }

  /** The files pass exactly when no file is refused. */
  lemma {:induction false} CheckAllOk(files: seq<Upload>, check: Upload -> FileCheck)
    ensures CheckAll(files, check).Ok? <==> forall k :: 0 <= k < |files| ==> !check(files[k]).Refused?
  {
    if files != [] {
      var init := files[..|files| - 1];
      CheckAllOk(init, check);
      assert forall k :: 0 <= k < |init| ==> init[k] == files[k];
    }
  }

  /** The rejection is the first refused file's. */
  lemma {:induction false} CheckAllFirstRefusal(files: seq<Upload>, check: Upload -> FileCheck) returns (k: nat)
    requires CheckAll(files, check).Err?
    ensures k < |files| && check(files[k]) == Refused(CheckAll(files, check).error)
    ensures forall j :: 0 <= j < k ==> !check(files[j]).Refused?
  {
    var init := files[..|files| - 1];
    assert forall j :: 0 <= j < |init| ==> init[j] == files[j];
    if CheckAll(init, check).Err? {
      k := CheckAllFirstRefusal(init, check);
    } else {
      CheckAllOk(init, check);
      k := |files| - 1;
    }
  }

  /** The attachments are the named files, in order, each with its own name and decoded
      text, an allowed extension and a size within the limit. */
  lemma {:induction false} CheckFilesAttachments(files: seq<Upload>)
    requires CheckFiles(files).Ok?
    ensures var atts, named := CheckFiles(files).value, Named(files);
      && |atts| == |named|
      && forall k :: 0 <= k < |atts| ==>
           && atts[k].filename == named[k].filename.value
           && named[k].text == Some(atts[k].content)
           && Allowed(Lower(Extension(atts[k].filename)))
           && named[k].size <= MaxFileSize
  {
    if files != [] {
      CheckFilesAttachments(files[..|files| - 1]);
    }
  }

  /** The order of the checks, and when the message goes through: the length is checked
      first, then the count, then the files; the message goes through exactly when none
      fails, and without attachments (`None`) exactly when no file has a name. */
  lemma ValidationFacts(content: string, files: seq<Upload>)
    ensures |content| > MaxMessageLength ==> Validation(content, files) == Err(TooLong())
    ensures |content| <= MaxMessageLength && |files| > MaxFilesPerMessage ==>
      Validation(content, files) == Err(TooMany())
    ensures Validation(content, files).Ok? <==>
      && |content| <= MaxMessageLength && |files| <= MaxFilesPerMessage
      && forall k :: 0 <= k < |files| ==> !CheckFile(files[k]).Refused?
    ensures Validation(content, files).Ok? ==> (Validation(content, files).value.None? <==> Named(files) == [])
  {
    CheckAllOk(files, CheckFile);
    if CheckFiles(files).Ok? {
      CheckFilesAttachments(files);
    }
  }

  /** A message of allowed length with allowed file count is refused for the first file
      that fails its checks. */
  lemma ValidationFirstRefusal(content: string, files: seq<Upload>) returns (k: nat)
    requires |content| <= MaxMessageLength && |files| <= MaxFilesPerMessage
    requires Validation(content, files).Err?
    ensures k < |files| && CheckFile(files[k]) == Refused(Validation(content, files).error)
    ensures forall j :: 0 <= j < k ==> !CheckFile(files[j]).Refused?
  {
    k := CheckAllFirstRefusal(files, CheckFile);
  }

  /** The validation as the endpoint runs it: a loop over the files that stops at the
      first refusal. */
  method ValidateUpload(content: string, files: seq<Upload>) returns (r: Result<Option<seq<Attachment>>, Rejection>)
    ensures r == Validation(content, files)
  {
    if |content| > MaxMessageLength {
      return Err(TooLong());
    }
    if |files| > MaxFilesPerMessage {
      return Err(TooMany());
    }
    var atts: seq<Attachment> := [];
    var k := 0;
    while k < |files|
      invariant 0 <= k <= |files|
      invariant CheckFiles(files[..k]) == Ok(atts)
    {
      CheckAllSnoc(files, CheckFile, k);
      var check := CheckFile(files[k]);
      if check.Refused? {
        CheckAllStops(files, CheckFile, k + 1);
        return Err(check.rejection);
      } else if check.Accepted? {
        atts := atts + [check.attachment];
      }
      k := k + 1;
    }
    assert files[..k] == files;
    r := Ok(if atts == [] then None else Some(atts));
  }

  // ---------------------------------------------------------------------------
  // The event stream
  // ---------------------------------------------------------------------------

  /** An SSE comment, sent first so that proxies keep the connection open. */
  const Heartbeat := ": heartbeat\n\n"
  /** The frame of `{'type': 'done'}`, sent last. */
  const DoneFrame := "data: {\"type\": \"done\"}\n\n"
  const TextHead := "data: {\"type\": \"text\", \"content\": \""
  const ErrorHead := "data: {\"type\": \"error\", \"content\": \""
  const FrameTail := "\"}\n\n"

  /** The frame of `{'type': 'text', 'content': chunk}`. */
  function TextFrame(chunk: string): string
  {
    "data: {\"type\": \"text\", \"content\": " + Json.Quote(chunk) + "}\n\n"
  }

  /** The frame of `{'type': 'error', 'content': str(e)}`. */
  function ErrorFrame(message: string): string
  {
    "data: {\"type\": \"error\", \"content\": " + Json.Quote(message) + "}\n\n"
  }

  /** How the relayed stream ended: normally, or by raising an exception with this text. */
  datatype StreamEnd = Finished | Raised(message: string)

  /** `event_stream()`: the heartbeat, a text frame per chunk, an error frame when the
      stream raised, and the closing frame in any case. */
  function Frames(chunks: seq<string>, end: StreamEnd): seq<string>
  {
    [Heartbeat] + seq(|chunks|, k requires 0 <= k < |chunks| => TextFrame(chunks[k]))
    + (if end.Raised? then [ErrorFrame(end.message)] else []) + [DoneFrame]
  }

  /** What a client reads from a frame. */
  datatype Event = Comment | TextEvent(content: string) | ErrorEvent(content: string) | Done

  /** An SSE client's reading of one frame: the comment, the closing frame, or a text or
      error frame whose string literal it decodes; nothing for anything else. */
  function EventOf(frame: string): Option<Event>
  {
    if frame == Heartbeat then Some(Comment)
    else if frame == DoneFrame then Some(Done)
    else if |frame| < |TextHead| + |FrameTail| || frame[|frame| - |FrameTail|..] != FrameTail then None
    else if frame[..|TextHead|] == TextHead then
      var body := Json.Unescape(frame[|TextHead|..|frame| - |FrameTail|]);
      if body.Some? then Some(TextEvent(body.value)) else None
    else if |frame| >= |ErrorHead| + |FrameTail| && frame[..|ErrorHead|] == ErrorHead then
      var body := Json.Unescape(frame[|ErrorHead|..|frame| - |FrameTail|]);
      if body.Some? then Some(ErrorEvent(body.value)) else None
    else None
  }

  /** A frame made of a head, a string literal's body and the tail, as a client reads it
      when the head is not the other kind's. */
  lemma EventOfFrame(head: string, other: string, content: string)
    requires (head == TextHead && other == ErrorHead) || (head == ErrorHead && other == TextHead)
    ensures var f := head + Json.Escape(content) + FrameTail;
      && f != Heartbeat && f != DoneFrame && |f| >= |head| + |FrameTail|
      && f[..|head|] == head && f[..|other|] != other
      && f[|f| - |FrameTail|..] == FrameTail
      && Json.Unescape(f[|head|..|f| - |FrameTail|]) == Some(content)
  {
    var e := Json.Escape(content);
    var f := head + e + FrameTail;
    assert f[..|head|] == head;
    assert f[16] == head[16] != other[16];
    assert |f| > |DoneFrame| > |Heartbeat|;
    assert f[|f| - |FrameTail|..] == FrameTail;
    assert f[|head|..|f| - |FrameTail|] == e;
    Json.UnescapeEscape(content);
  }

  /** A client reads back each chunk exactly. */
  lemma EventOfText(chunk: string)
    ensures EventOf(TextFrame(chunk)) == Some(TextEvent(chunk))
  {
    assert TextFrame(chunk) == TextHead + Json.Escape(chunk) + FrameTail;
    EventOfFrame(TextHead, ErrorHead, chunk);
  }

  /** A client reads back the error text exactly. */
  lemma EventOfError(message: string)
    ensures EventOf(ErrorFrame(message)) == Some(ErrorEvent(message))
  {
    assert ErrorFrame(message) == ErrorHead + Json.Escape(message) + FrameTail;
    EventOfFrame(ErrorHead, TextHead, message);
  }

  /** No line break in `s`. */
  predicate NoBreak(s: string)
  {
    forall k :: 0 <= k < |s| ==> s[k] != '\n'
  }

  lemma NoBreakConcat(a: string, b: string)
    requires NoBreak(a) && NoBreak(b)
    ensures NoBreak(a + b)
  {
    forall k | 0 <= k < |a + b| ensures (a + b)[k] != '\n' {
      if k >= |a| {
        assert (a + b)[k] == b[k - |a|];
      }
    }
  }

  lemma HeadsHaveNoBreak()
    ensures NoBreak(TextHead) && NoBreak(ErrorHead) && NoBreak("\"}")
  {
  }

  /** A text or error frame is one SSE event: it has no line break before the blank line
      that ends it, whatever the chunk holds. */
  lemma FrameIsOneEvent(head: string, content: string)
    requires head == TextHead || head == ErrorHead
    ensures var f := head + Json.Escape(content) + FrameTail;
      f == head + Json.Escape(content) + "\"}" + "\n\n" && NoBreak(head + Json.Escape(content) + "\"}")
  {
    var e := Json.Escape(content);
    HeadsHaveNoBreak();
    assert NoBreak(e);
    NoBreakConcat(head, e);
    NoBreakConcat(head + e, "\"}");
  }

  /** The events a client reads from the stream. */
  function Events(chunks: seq<string>, end: StreamEnd): seq<Event>
  {
    [Comment] + seq(|chunks|, k requires 0 <= k < |chunks| => TextEvent(chunks[k]))
    + (if end.Raised? then [ErrorEvent(end.message)] else []) + [Done]
  }

  /** The heartbeat comes first and the closing frame last and nowhere else; in between
      each chunk has its frame, in order, followed by the error frame when the stream
      raised. */
  lemma FramesOrder(chunks: seq<string>, end: StreamEnd)
    ensures var frames := Frames(chunks, end);
      && |frames| == |chunks| + (if end.Raised? then 3 else 2)
      && frames[0] == Heartbeat && frames[|frames| - 1] == DoneFrame
      && (forall k :: 0 <= k < |chunks| ==> frames[k + 1] == TextFrame(chunks[k]))
      && (end.Raised? ==> frames[|chunks| + 1] == ErrorFrame(end.message))
      && (forall k :: 0 <= k < |frames| - 1 ==> frames[k] != DoneFrame)
  {
    var frames := Frames(chunks, end);
    forall k | 0 <= k < |frames| - 1 ensures frames[k] != DoneFrame {
      if k == 0 {
        assert |Heartbeat| < |DoneFrame|;
      } else if k <= |chunks| {
        assert |frames[k]| >= |TextHead| + |FrameTail| > |DoneFrame|;
      } else {
        assert |frames[k]| >= |ErrorHead| + |FrameTail| > |DoneFrame|;
      }
    }
  }

  /** A client reads back exactly the chunks, in order, and the error. */
  lemma FramesDecode(chunks: seq<string>, end: StreamEnd)
    ensures var frames, events := Frames(chunks, end), Events(chunks, end);
      |frames| == |events| && forall k :: 0 <= k < |frames| ==> EventOf(frames[k]) == Some(events[k])
  {
    var frames := Frames(chunks, end);
    var events := Events(chunks, end);
    forall k | 0 <= k < |frames| ensures EventOf(frames[k]) == Some(events[k]) {
      if 1 <= k <= |chunks| {
        assert frames[k] == TextFrame(chunks[k - 1]) && events[k] == TextEvent(chunks[k - 1]);
        EventOfText(chunks[k - 1]);
      } else if k == |chunks| + 1 && end.Raised? {
        assert frames[k] == ErrorFrame(end.message) && events[k] == ErrorEvent(end.message);
        EventOfError(end.message);
      }
    }
  }

  /** The generator of the endpoint, frame by frame. */
  method Stream(chunks: seq<string>, end: StreamEnd) returns (frames: seq<string>)
    ensures frames == Frames(chunks, end)
  {
    frames := [Heartbeat];
    var k := 0;
    while k < |chunks|
      invariant 0 <= k <= |chunks|
      invariant frames == [Heartbeat] + seq(k, j requires 0 <= j < k => TextFrame(chunks[j]))
    {
      frames := frames + [TextFrame(chunks[k])];
      k := k + 1;
    }
    if end.Raised? {
      frames := frames + [ErrorFrame(end.message)];
    }
    frames := frames + [DoneFrame];
  }

  // ---------------------------------------------------------------------------
  // The message endpoints
  // ---------------------------------------------------------------------------

  /** An endpoint's answer: an error response, or the event stream. */
  datatype Response = Rejected(rejection: Rejection) | EventStream(frames: seq<string>)

  /** The request body's own check (`max_length` on `content`), made before the handler
      runs: the message of the `string_too_long` error. */
  const BodyTooLong := Rejection(422, "String should have at most 100000 characters")

  /** `send_message`: a body over the length limit is refused before anything else, an
      unknown session with 404; otherwise the service's turn is relayed as an event stream.
      The service handles its own errors, so the stream ends normally. */
  method SendMessage(service: Conversation.ChatService, lib: Conversation.Library, sid: int, content: string,
                     embedder: Embeddings.Embedder,
                     reply: Conversation.Reply) returns (response: Response, request: Option<Conversation.Request>)
    modifies service
    ensures |content| > MaxMessageLength ==>
      response == Rejected(BodyTooLong) && request.None?
      && service.sessions == old(service.sessions) && service.messages == old(service.messages)
    ensures |content| <= MaxMessageLength && Conversation.SessionIndex(old(service.sessions), sid).None? ==>
      response == Rejected(SessionMissing) && request.None?
      && service.sessions == old(service.sessions) && service.messages == old(service.messages)
    ensures |content| <= MaxMessageLength && Conversation.SessionIndex(old(service.sessions), sid).Some? ==>
      var x := Conversation.Send(old(service.sessions), old(service.messages), lib, sid, content, reply);
      var asked := Conversation.AskedOf(old(service.sessions), old(service.messages), lib, sid);
      && service.sessions == x.sessions && service.messages == x.messages
      && response == EventStream(Frames(x.yielded, Finished))
      && request == (if asked.Some? then Some(Conversation.TurnRequest(service.wording, lib, asked.value, content, None,
                                                                      embedder))
                     else None)
  {
    if |content| > MaxMessageLength {
      return Rejected(BodyTooLong), None;
    }
    if Conversation.SessionIndex(service.sessions, sid).None? {
      return Rejected(SessionMissing), None;
    }
    var yielded;
    yielded, request := service.SendMessage(lib, sid, content, None, embedder, reply);
    var frames := Stream(yielded, Finished);
    response := EventStream(frames);
  }

  /** `send_message_with_files`: an unknown session is refused with 404, then the message
      and its files are validated, and the service's turn, given the attachments, is
      relayed as an event stream. A refused message changes nothing. */
  method SendMessageWithFiles(service: Conversation.ChatService, lib: Conversation.Library, sid: int,
                              content: string, files: seq<Upload>,
                              embedder: Embeddings.Embedder, reply: Conversation.Reply)
    returns (response: Response, request: Option<Conversation.Request>)
    modifies service
    ensures Conversation.SessionIndex(old(service.sessions), sid).None? ==>
      response == Rejected(SessionMissing) && request.None?
      && service.sessions == old(service.sessions) && service.messages == old(service.messages)
    ensures Conversation.SessionIndex(old(service.sessions), sid).Some? && Validation(content, files).Err? ==>
      response == Rejected(Validation(content, files).error) && request.None?
      && service.sessions == old(service.sessions) && service.messages == old(service.messages)
    ensures Conversation.SessionIndex(old(service.sessions), sid).Some? && Validation(content, files).Ok? ==>
      var x := Conversation.Send(old(service.sessions), old(service.messages), lib, sid, content, reply);
      var asked := Conversation.AskedOf(old(service.sessions), old(service.messages), lib, sid);
      && service.sessions == x.sessions && service.messages == x.messages
      && response == EventStream(Frames(x.yielded, Finished))
      && request == (if asked.Some? then Some(Conversation.TurnRequest(service.wording, lib, asked.value, content,
                                                                      Validation(content, files).value,
                                                                      embedder))
                     else None)
  {
    if Conversation.SessionIndex(service.sessions, sid).None? {
      return Rejected(SessionMissing), None;
    }
    var checked := ValidateUpload(content, files);
    if checked.Err? {
      return Rejected(checked.error), None;
    }
    var yielded;
    yielded, request := service.SendMessage(lib, sid, content, checked.value, embedder, reply);
    var frames := Stream(yielded, Finished);
    response := EventStream(frames);
  }

  // ---------------------------------------------------------------------------
  // Comparing creators
  // ---------------------------------------------------------------------------

  /** What one comma-separated piece of the query gives. */
  datatype Piece = Blank | Id(value: int) | NotAnInt

  /** `x.strip()` skipped when empty, else `int(x.strip())`. */
  function PieceOf(piece: string): Piece
  {
    var t := Strip(piece);
    if t == [] then Blank
    else
      var v := ParseInt(t);
      if v.Some? then Id(v.value) else NotAnInt
  }

  /** The ids of the pieces, in order; nothing when a piece is not an integer (the
      `ValueError` of `int`). Written for any reading of a piece, so that its lemmas are
      about the list alone. */
  function Collect(pieces: seq<string>, read: string -> Piece): Option<seq<int>>
  {
    if pieces == [] then Some([])
    else
      var rest := Collect(pieces[1..], read);
      match read(pieces[0])
      case Blank => rest
      case NotAnInt => None
      case Id(v) => if rest.Some? then Some([v] + rest.value) else None
  }

  /** `[int(x.strip()) for x in creator_ids.split(",") if x.strip()]` */
  function CreatorIds(text: string): Option<seq<int>>
  {
    Collect(Split(text, ','), PieceOf)
  }

  /** `{"type": p.type, "handle": p.handle}` */
  datatype PlatformRef = PlatformRef(kind: string, handle: string)

  /** A row of the comparison. `summary` is missing from the row of a creator without
      platforms. */
  datatype Comparison = Comparison(creatorId: int, name: string, platforms: seq<PlatformRef>,
                                   totalContent: nat, avgViews: nat, avgLikes: nat, avgComments: nat,
                                   totalViews: nat, summary: Field<string>)

  function ViewCount(item: ContentItem): nat { item.views }
  function LikeCount(item: ContentItem): nat { item.likes }
  function CommentCount(item: ContentItem): nat { item.comments }

  function Refs(ps: seq<Platform>): (r: seq<PlatformRef>)
    ensures |r| == |ps| && forall k :: 0 <= k < |r| ==> r[k] == PlatformRef(ps[k].kind, ps[k].handle)
  {
    seq(|ps|, k requires 0 <= k < |ps| => PlatformRef(ps[k].kind, ps[k].handle))
  }

  /** A creator's row: zeros without a summary when the creator has no platforms;
      otherwise the number of the platforms' items, the integer part of the average views,
      likes and comments (0 over no items), the sum of the views, and the summary. */
  function RowOf(cid: int, creator: Creator, platforms: seq<Platform>, items: seq<ContentItem>): Comparison
  {
    var ps := KnowledgeService.PlatformsOf(platforms, cid);
    if ps == [] then Comparison(cid, creator.name, [], 0, 0, 0, 0, 0, Absent)
    else
      var rows := OfPlatforms(items, Prompt.PlatformIds(ps));
      Comparison(cid, creator.name, Refs(ps), |rows|, FloorAverage(rows, ViewCount), FloorAverage(rows, LikeCount),
                 FloorAverage(rows, CommentCount), SumOf(rows, ViewCount),
                 if creator.summary.Some? then Present(creator.summary.value) else Null)
  }

  /** The rows of the ids, in order, skipping the ids of no creator. */
  function Rows(ids: seq<int>, creators: map<int, Creator>, platforms: seq<Platform>, items: seq<ContentItem>)
    : seq<Comparison>
  {
    if ids == [] then []
    else
      var init := Rows(ids[..|ids| - 1], creators, platforms, items);
      var cid := ids[|ids| - 1];
      if cid in creators then init + [RowOf(cid, creators[cid], platforms, items)] else init
  }

  const TooFewIds := Rejection(400, "Need at least 2 creator IDs")
  /** An uncaught `ValueError` becomes the server's generic error. */
  const ServerError := Rejection(500, "Internal Server Error")

  /** `compare_creators(creator_ids)` */
  function Compare(text: string, creators: map<int, Creator>, platforms: seq<Platform>, items: seq<ContentItem>)
    : Result<seq<Comparison>, Rejection>
  {
    var ids := CreatorIds(text);
    if ids.None? then Err(ServerError)
    else if |ids.value| < 2 then Err(TooFewIds)
    else Ok(Rows(ids.value, creators, platforms, items))
  }

  /** The endpoint: the ids, then a row per known creator. */
  method CompareCreators(text: string, creators: map<int, Creator>, platforms: seq<Platform>, items: seq<ContentItem>)
    returns (r: Result<seq<Comparison>, Rejection>)
    ensures r == Compare(text, creators, platforms, items)
  {
    var ids := CreatorIds(text);
    if ids.None? {
      return Err(ServerError);
    }
    if |ids.value| < 2 {
      return Err(TooFewIds);
    }
    var results: seq<Comparison> := [];
    var k := 0;
    while k < |ids.value|
      invariant 0 <= k <= |ids.value|
      invariant results == Rows(ids.value[..k], creators, platforms, items)
    {
      var cid := ids.value[k];
      assert ids.value[..k + 1][..k] == ids.value[..k];
      if cid in creators {
        results := results + [RowOf(cid, creators[cid], platforms, items)];
      }
      k := k + 1;
    }
    assert ids.value[..k] == ids.value;
    r := Ok(results);
  }

  /** The ids of known creators, in order (duplicates kept). */
  function Known(ids: seq<int>, creators: map<int, Creator>): (r: seq<int>)
    ensures forall x :: x in r <==> x in ids && x in creators
  {
    if ids == [] then []
    else
      var init := ids[..|ids| - 1];
      assert forall x :: x in ids <==> x in init || x == ids[|ids| - 1];
      Known(init, creators) + (if ids[|ids| - 1] in creators then [ids[|ids| - 1]] else [])
  }

  /** The rows are those of the known creators, one per id and in the order of the ids;
      unknown ids leave no row. */
  lemma {:induction false} RowsOfKnown(ids: seq<int>, creators: map<int, Creator>, platforms: seq<Platform>,
                                       items: seq<ContentItem>)
    ensures var rows, known := Rows(ids, creators, platforms, items), Known(ids, creators);
      && |rows| == |known|
      && forall k :: 0 <= k < |rows| ==> known[k] in creators && rows[k] == RowOf(known[k], creators[known[k]], platforms, items)
  {
    if ids != [] {
      RowsOfKnown(ids[..|ids| - 1], creators, platforms, items);
    }
  }

  /** `a` is the integer part of the mean of `n` values summing to `s`. */
  predicate FloorMean(a: nat, s: nat, n: nat)
  {
    a * n <= s < (a + 1) * n
  }

  lemma DivFloor(s: nat, n: nat)
    requires n > 0
    ensures FloorMean(s / n, s, n)
  {
    var q, r := s / n, s % n;
    assert s == q * n + r;
    assert (q + 1) * n == q * n + n;
  }

  lemma MeanFloor(items: seq<ContentItem>, f: ContentItem -> nat)
    requires items != []
    ensures FloorMean(FloorAverage(items, f), SumOf(items, f), |items|)
  {
    DivFloor(SumOf(items, f), |items|);
  }

  /** A row names its creator and lists its platforms; a creator without platforms gets
      zeros and no summary. */
  lemma RowShape(cid: int, creator: Creator, platforms: seq<Platform>, items: seq<ContentItem>)
    ensures var r, ps := RowOf(cid, creator, platforms, items), KnowledgeService.PlatformsOf(platforms, cid);
      && r.creatorId == cid && r.name == creator.name
      && |r.platforms| == |ps| && (forall k :: 0 <= k < |ps| ==> r.platforms[k] == PlatformRef(ps[k].kind, ps[k].handle))
      && (ps == [] ==> r == Comparison(cid, creator.name, [], 0, 0, 0, 0, 0, Absent))
      && (ps != [] ==> (r.summary.Present? <==> creator.summary.Some?)
                       && (r.summary.Present? ==> r.summary.value == creator.summary.value))
  {
  }

  /** A creator with platforms: the count is the number of the platforms' items, the total
      is the sum of their views, and each average is the integer part of the exact mean
      (at most the mean and less than one below it), 0 over no items. */
  lemma RowFigures(cid: int, creator: Creator, platforms: seq<Platform>, items: seq<ContentItem>)
    requires KnowledgeService.PlatformsOf(platforms, cid) != []
    ensures var r := RowOf(cid, creator, platforms, items);
      var rows := OfPlatforms(items, Prompt.PlatformIds(KnowledgeService.PlatformsOf(platforms, cid)));
      && r.totalContent == |rows| && r.totalViews == SumOf(rows, ViewCount)
      && (rows == [] ==> r.avgViews == 0 && r.avgLikes == 0 && r.avgComments == 0 && r.totalViews == 0)
      && (rows != [] ==>
            && FloorMean(r.avgViews, r.totalViews, |rows|)
            && FloorMean(r.avgLikes, SumOf(rows, LikeCount), |rows|)
            && FloorMean(r.avgComments, SumOf(rows, CommentCount), |rows|))
  {
    var rows := OfPlatforms(items, Prompt.PlatformIds(KnowledgeService.PlatformsOf(platforms, cid)));
    if rows != [] {
      MeanFloor(rows, ViewCount);
      MeanFloor(rows, LikeCount);
      MeanFloor(rows, CommentCount);
    }
  }

  /** The ids as a query writes them: `",".join(str(i) for i in ids)`. */
  function IdsText(ids: seq<int>): string
  {
    Join(seq(|ids|, k requires 0 <= k < |ids| => IntToString(ids[k])), ",")
  }

  /** `str(n)` has no separator. */
  lemma IntToStringNoComma(n: int)
    ensures ',' !in IntToString(n)
  {
    var m: nat := if n < 0 then -n else n;
    NatToStringDigits(m);
    var d := NatToString(m);
    if n < 0 {
      assert IntToString(n) == "-" + d;
      forall k | 0 <= k < |d| + 1 ensures IntToString(n)[k] != ',' {
        if k > 0 {
          assert IntToString(n)[k] == d[k - 1];
        }
      }
    } else {
      assert forall k :: 0 <= k < |d| ==> IsDigit(d[k]);
    }
  }

  /** A rendered integer is read back as itself. */
  lemma PieceOfInt(n: int)
    ensures PieceOf(IntToString(n)) == Id(n)
  {
    var m: nat := if n < 0 then -n else n;
    NatToStringDigits(m);
    var d := NatToString(m);
    var t := IntToString(n);
    assert t[|t| - 1] == d[|d| - 1] && IsDigit(t[|t| - 1]);
    assert t[0] == '-' || IsDigit(t[0]);
    StripKeeps(t);
    ParseIntRoundTrip(n);
  }

  lemma StripKeeps(t: string)
    requires t != [] && !IsSpace(t[0]) && !IsSpace(t[|t| - 1])
    ensures Strip(t) == t
  {
  }

  /** Pieces that each read as an id give those ids, in order. */
  lemma {:induction false} CollectIds(parts: seq<string>, ids: seq<int>, read: string -> Piece)
    requires |parts| == |ids| && forall k :: 0 <= k < |parts| ==> read(parts[k]) == Id(ids[k])
    ensures Collect(parts, read) == Some(ids)
  {
    if parts != [] {
      CollectIds(parts[1..], ids[1..], read);
      assert [ids[0]] + ids[1..] == ids;
    }
  }

  lemma CollectInts(ids: seq<int>)
    ensures Collect(seq(|ids|, k requires 0 <= k < |ids| => IntToString(ids[k])), PieceOf) == Some(ids)
  {
    var parts := seq(|ids|, k requires 0 <= k < |ids| => IntToString(ids[k]));
    forall k | 0 <= k < |parts| ensures PieceOf(parts[k]) == Id(ids[k]) {
      PieceOfInt(ids[k]);
    }
    CollectIds(parts, ids, PieceOf);
  }

  /** Ids written in the query format are read back as they were written. */
  lemma IdsRoundTrip(ids: seq<int>)
    requires ids != []
    ensures CreatorIds(IdsText(ids)) == Some(ids)
  {
    var parts := seq(|ids|, k requires 0 <= k < |ids| => IntToString(ids[k]));
    forall k | 0 <= k < |parts| ensures ',' !in parts[k] {
      IntToStringNoComma(ids[k]);
    }
    SplitJoin(parts, ',');
    CollectInts(ids);
  }

  /** Blank pieces are skipped wherever they stand. */
  lemma {:induction false} CollectSkipsBlank(a: seq<string>, b: string, c: seq<string>, read: string -> Piece)
    requires read(b) == Blank
    ensures Collect(a + [b] + c, read) == Collect(a + c, read)
  {
    if a == [] {
      assert a + [b] + c == [b] + c && a + c == c;
      assert ([b] + c)[1..] == c;
    } else {
      CollectSkipsBlank(a[1..], b, c, read);
      assert (a + [b] + c)[1..] == a[1..] + [b] + c;
      assert (a + c)[1..] == a[1..] + c;
    }
  }

  /** A trailing comma, with or without spaces after it, changes nothing. */
  lemma IdsTrailingComma(ids: seq<int>, pad: string)
    requires ids != [] && ',' !in pad && Strip(pad) == []
    ensures CreatorIds(IdsText(ids) + "," + pad) == Some(ids)
  {
    var parts := seq(|ids|, k requires 0 <= k < |ids| => IntToString(ids[k]));
    forall k | 0 <= k < |parts| ensures ',' !in parts[k] {
      IntToStringNoComma(ids[k]);
    }
    JoinAppend(parts, pad, ",");
    SplitJoin(parts + [pad], ',');
    assert PieceOf(pad) == Blank;
    CollectSkipsBlank(parts, pad, [], PieceOf);
    assert parts + [pad] + [] == parts + [pad];
    assert parts + [] == parts;
    CollectInts(ids);
  }

  /** The comparison is refused when an id is not an integer, and otherwise exactly when
      fewer than two ids are given; it is never refused for unknown ids. */
  lemma CompareRefusal(text: string, creators: map<int, Creator>, platforms: seq<Platform>, items: seq<ContentItem>)
    ensures var r, ids := Compare(text, creators, platforms, items), CreatorIds(text);
      && (ids.None? ==> r == Err(ServerError))
      && (ids.Some? ==> (r == Err(TooFewIds) <==> |ids.value| < 2))
      && (r.Ok? <==> ids.Some? && |ids.value| >= 2)
  {
  }
}
