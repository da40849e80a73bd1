/**
  The Flask backend's request handling: the defaults and the log line of the transcription
  endpoint, the guards of the upload endpoint, the loop that picks a fresh room name and
  the defaults of the token endpoint. Files are a map from name to contents; the clock,
  the date formatting, the random identifiers and the token signing are parameters.
 */
module Server {
  import opened Wrappers
  import opened Text
  import Rag
  import Transcripts

  // ---------------------------------------------------------------- JSON bodies

  /** A JSON scalar as Flask hands it over (`null`, a boolean, an integer or a string). */
  datatype Json = JNull | JBool(b: bool) | JInt(i: int) | JStr(s: string)

  /** Python truthiness of the decoded value. */
  predicate Truthy(v: Json) {
    match v
    case JNull => false
    case JBool(b) => b
    case JInt(i) => i != 0
    case JStr(s) => s != ""
  }

  /** Python's `str(v)` of the decoded value. */
  function PyStr(v: Json): string {
    match v
    case JNull => "None"
    case JBool(b) => if b then "True" else "False"
    case JInt(i) => IntToString(i)
    case JStr(s) => s
  }

  /**
    What `request.get_json(silent=True)` hands over: nothing (no body, a body that is not
    JSON, or JSON `null`), a JSON object, or any other JSON value (an array, a string, a
    number or a boolean), of which only its truthiness matters here.
   */
  datatype Body = NoJson | Object(fields: map<string, Json>) | NotObject(truthy: bool)

  /**
    `request.get_json(silent=True) or {}` as a dictionary. A truthy value that is not an
    object survives the `or`, and the first `data.get` on it raises: there is no dictionary.
   */
  function BodyFields(body: Body): (r: Option<map<string, Json>>)
    ensures r.None? <==> body.NotObject? && body.truthy
    ensures body.Object? ==> r == Some(body.fields)
    ensures body.NoJson? || (body.NotObject? && !body.truthy) ==> r == Some(map[])
  {
    match body
    case NoJson => Some(map[])
    case Object(fields) => Some(fields)
    case NotObject(truthy) => if truthy then None else Some(map[])
  }

  /** `data.get(key) or default`, rendered as text. */
  function Field(data: map<string, Json>, key: string, default: string): (r: string)
    ensures !(key in data && Truthy(data[key])) ==> r == default
    ensures key in data && data[key].JStr? && data[key].s != "" ==> r == data[key].s
    ensures default != "" ==> r != ""
  {
    if key in data && Truthy(data[key]) then PyStr(data[key]) else default
  }

  // ---------------------------------------------------------------- transcriptions

  /** One request to the transcription endpoint after defaulting. */
  datatype Entry = Entry(room: string, speakerType: string, text: string, tsText: string, participant: string)

  /**
    The timestamp text: the current UTC time when `ts` is absent or null, the formatted
    local time when `fromTimestamp` (for `datetime.fromtimestamp(ts / 1000.0).isoformat()`)
    succeeds, and `str(ts)` when it raises.
   */
  function TsText(data: map<string, Json>, fromTimestamp: Json -> Option<string>, utcNow: string): (r: string)
    ensures ("ts" !in data || data["ts"] == JNull) ==> r == utcNow
    ensures "ts" in data && data["ts"] != JNull && fromTimestamp(data["ts"]).None? ==> r == PyStr(data["ts"])
    ensures "ts" in data && data["ts"] != JNull && fromTimestamp(data["ts"]).Some? ==> r == fromTimestamp(data["ts"]).value
  {
    if "ts" !in data || data["ts"] == JNull then utcNow
    else match fromTimestamp(data["ts"])
      case Some(formatted) => formatted
      case None => PyStr(data["ts"])
  }

  /** The defaulting of `save_transcription`. */
  function ParseTranscription(data: map<string, Json>, fromTimestamp: Json -> Option<string>,
                              utcNow: string): (e: Entry)
    ensures e.room != "" && e.speakerType != ""
  {
    Entry(Field(data, "room", "unknown-room"), Field(data, "type", "agent"), Field(data, "text", ""),
          TsText(data, fromTimestamp, utcNow), Field(data, "participant", ""))
  }

  /** `f"[{ts_str}] ({speaker_type}) {participant}: {text}\n"`. */
  function LogLine(e: Entry): (r: string)
    ensures |r| > 0 && r[0] == '[' && r[|r| - 1] == '\n'
  {
    "[" + e.tsText + "] (" + e.speakerType + ") " + e.participant + ": " + e.text + "\n"
  }

  /** The transcript file of a room, relative to the transcripts directory. */
  function TranscriptFile(room: string): string {
    room + ".txt"
  }

  predicate NoNewline(s: string) {
    forall i :: 0 <= i < |s| ==> s[i] != '\n'
  }

  lemma {:induction false} NoNewlineCount(s: string)
    requires NoNewline(s)
    ensures CountNewlines(s) == 0
  {
    if s != [] {
      NoNewlineCount(s[1..]);
    }
  }

  /** When no field holds a newline, a log line is exactly one line: its only newline is the last character. */
  lemma LogLineIsOneLine(e: Entry)
    requires NoNewline(e.tsText) && NoNewline(e.speakerType) && NoNewline(e.participant) && NoNewline(e.text)
    ensures CountNewlines(LogLine(e)) == 1
  {
    NoNewlineCount(e.tsText);
    NoNewlineCount(e.speakerType);
    NoNewlineCount(e.participant);
    NoNewlineCount(e.text);
    var a := "[" + e.tsText;
    var b := a + "] (" + e.speakerType;
    var c := b + ") " + e.participant;
    var d := c + ": " + e.text;
    CountNewlinesAppend("[", e.tsText);
    CountNewlinesAppend(a, "] (");
    CountNewlinesAppend(a + "] (", e.speakerType);
    CountNewlinesAppend(b, ") ");
    CountNewlinesAppend(b + ") ", e.participant);
    CountNewlinesAppend(c, ": ");
    CountNewlinesAppend(c + ": ", e.text);
    CountNewlinesAppend(d, "\n");
  }

  /** The wire name of a speaker type. */
  function RoleName(kind: Transcripts.Role): string {
    match kind
    case Agent => "agent"
    case User => "user"
  }

  /** The JSON body the voice agent posts for one payload. */
  function PayloadBody(p: Transcripts.Payload): map<string, Json> {
    map["room" := JStr(p.room), "type" := JStr(RoleName(p.kind)), "text" := JStr(p.text),
        "ts" := JInt(p.ts), "participant" := JStr(p.participant)]
  }

  /**
    What the voice agent posts arrives field by field: the room (when non-empty), the speaker
    type, the text and the participant are those of the payload, and the timestamp is
    formatted from the payload's time.
   */
  lemma PostedPayloadIsLogged(p: Transcripts.Payload, fromTimestamp: Json -> Option<string>, utcNow: string)
    requires p.room != ""
    ensures var e := ParseTranscription(PayloadBody(p), fromTimestamp, utcNow);
      && e.room == p.room && e.speakerType == RoleName(p.kind) && e.text == p.text
      && e.participant == p.participant
      && e.tsText == (if fromTimestamp(JInt(p.ts)).Some? then fromTimestamp(JInt(p.ts)).value else IntToString(p.ts))
  {
    var data := PayloadBody(p);
    assert data["room"] == JStr(p.room) && data["type"] == JStr(RoleName(p.kind));
    assert data["text"] == JStr(p.text) && data["participant"] == JStr(p.participant);
    assert data["ts"] == JInt(p.ts);
  }

  /**
    The outcome of the transcription endpoint: `{"ok": True}` with status 200, the caught
    write error `({"ok": False, ...}, 500)`, or an exception that escapes the handler before
    the write, which Flask answers with status 500.
   */
  datatype SaveReply = Saved | WriteFailed | SaveRaised

  function SaveStatus(reply: SaveReply): int {
    if reply.Saved? then 200 else 500
  }

  /** The transcripts directory: file name to contents. */
  class TranscriptStore {
    var files: map<string, string>

    constructor ()
      ensures files == map[]
    {
      files := map[];
    }

    function Contents(name: string): string
      reads this
    {
      if name in files then files[name] else ""
    }

    /**
      `save_transcription`: append one log line to the room's file. `writeFails` stands for
      an exception raised while opening or writing the file.
     */
    method SaveTranscription(body: Body, fromTimestamp: Json -> Option<string>,
                             utcNow: string, writeFails: bool) returns (reply: SaveReply)
      modifies this
      ensures BodyFields(body).None? ==> reply == SaveRaised && files == old(files)
      ensures BodyFields(body).Some? ==>
        var e := ParseTranscription(BodyFields(body).value, fromTimestamp, utcNow);
        if writeFails then reply == WriteFailed && files == old(files)
        else (reply == Saved
          && files == old(files)[TranscriptFile(e.room) := old(Contents(TranscriptFile(e.room))) + LogLine(e)])
    {
      var data := BodyFields(body);
      if data.None? {
        return SaveRaised;
      }
      var e := ParseTranscription(data.value, fromTimestamp, utcNow);
      var path := TranscriptFile(e.room);
      var line := LogLine(e);
      if writeFails {
        return WriteFailed;
      }
      files := files[path := Contents(path) + line];
      reply := Saved;
    }
  }

  /** A timestamp formatter that always raises. */
  function NoDate(v: Json): Option<string> { None }

  /** A complete user post to `room-1`, without a timestamp. */
  function UserPost(): map<string, Json> {
    map["room" := JStr("room-1"), "type" := JStr("user"), "text" := JStr("hello"), "participant" := JStr("visitor")]
  }

  /** A post to `room-1` with an empty text, a null timestamp and neither type nor participant. */
  function SparsePost(): map<string, Json> {
    map["room" := JStr("room-1"), "text" := JStr(""), "ts" := JNull]
  }

  lemma UserPostParses()
    ensures ParseTranscription(UserPost(), NoDate, "t1") == Entry("room-1", "user", "hello", "t1", "visitor")
  {
    var d := UserPost();
    assert d["room"] == JStr("room-1") && d["type"] == JStr("user");
    assert d["text"] == JStr("hello") && d["participant"] == JStr("visitor");
    assert "ts" !in d;
  }

  lemma SparsePostParses()
    ensures ParseTranscription(SparsePost(), NoDate, "t2") == Entry("room-1", "agent", "", "t2", "")
  {
    var d := SparsePost();
    assert d["room"] == JStr("room-1") && d["text"] == JStr("") && d["ts"] == JNull;
    assert "type" !in d && "participant" !in d;
  }

  lemma UserPostLine()
    ensures LogLine(Entry("room-1", "user", "hello", "t1", "visitor")) == "[t1] (user) visitor: hello\n"
  {
    assert LogLine(Entry("room-1", "user", "hello", "t1", "visitor"))
        == "[" + "t1" + "] (" + "user" + ") " + "visitor" + ": " + "hello" + "\n";
  }

  lemma SparsePostLine()
    ensures LogLine(Entry("room-1", "agent", "", "t2", "")) == "[t2] (agent) : \n"
  {
    assert LogLine(Entry("room-1", "agent", "", "t2", ""))
        == "[" + "t2" + "] (" + "agent" + ") " + "" + ": " + "" + "\n";
  }

  /** Two posts to one room land in that room's file, one line each, in order. */
  method TwoLinesInOrder() returns (contents: string)
    ensures contents == "[t1] (user) visitor: hello\n" + "[t2] (agent) : \n"
  {
    var store := new TranscriptStore();
    UserPostParses();
    SparsePostParses();
    var e1 := Entry("room-1", "user", "hello", "t1", "visitor");
    var e2 := Entry("room-1", "agent", "", "t2", "");
    assert TranscriptFile("room-1") == "room-1.txt";
    var r1 := store.SaveTranscription(Object(UserPost()), NoDate, "t1", false);
    assert store.files == map[]["room-1.txt" := "" + LogLine(e1)];
    assert "" + LogLine(e1) == LogLine(e1);
    assert store.Contents("room-1.txt") == LogLine(e1);
    var r2 := store.SaveTranscription(Object(SparsePost()), NoDate, "t2", false);
    assert store.files["room-1.txt"] == LogLine(e1) + LogLine(e2);
    UserPostLine();
    SparsePostLine();
    contents := store.files["room-1.txt"];
  }

  /** A body that is missing or not JSON is logged under the default room and speaker type. */
  method MissingBodyUsesDefaults() returns (names: set<string>, contents: string)
    ensures names == {"unknown-room.txt"}
    ensures contents == "[t0] (agent) : \n"
  {
    var store := new TranscriptStore();
    var e := Entry("unknown-room", "agent", "", "t0", "");
    assert ParseTranscription(map[], NoDate, "t0") == e;
    assert TranscriptFile("unknown-room") == "unknown-room.txt";
    var r := store.SaveTranscription(NoJson, NoDate, "t0", false);
    assert store.files == map[]["unknown-room.txt" := "" + LogLine(e)];
    assert "" + LogLine(e) == LogLine(e);
    names := store.files.Keys;
    contents := store.files["unknown-room.txt"];
  }

  /**
    A truthy JSON value that is not an object (say `[1]`) makes the handler raise before
    anything is written; a falsy one (say `[]`) is replaced by `{}` and logged with the defaults.
   */
  method NonObjectBodies() returns (truthy: SaveReply, falsy: SaveReply, names: set<string>)
    ensures truthy == SaveRaised && SaveStatus(truthy) == 500
    ensures falsy == Saved
    ensures names == {"unknown-room.txt"}
  {
    var store := new TranscriptStore();
    truthy := store.SaveTranscription(NotObject(true), NoDate, "t0", false);
    assert store.files == map[];
    assert TranscriptFile("unknown-room") == "unknown-room.txt";
    falsy := store.SaveTranscription(NotObject(false), NoDate, "t0", false);
    names := store.files.Keys;
  }

  // ---------------------------------------------------------------- uploads

  /**
    The outcome of the upload endpoint: a refusal with its status and message, the stored
    document, or an exception from the ingestion that escapes the handler, which Flask
    answers with status 500.
   */
  datatype UploadReply = UploadError(status: int, error: string) | Uploaded(docId: string, filename: string) | UploadRaised

  /**
    `upload_doc`. `file` is the client file name of the `file` form part, absent when there
    is no such part; `secureFilename` is werkzeug's `secure_filename`; `docId`, `text` and
    `embed` are what `add_pdf` draws, extracts and computes, with `text` or the embeddings
    absent when that step raises.
   */
  method UploadDoc(index: Rag.ChunkIndex, file: Option<string>, secureFilename: string -> string,
                   docId: string, storeDir: string, text: Option<string>,
                   embed: seq<string> -> Option<seq<Rag.Embedding>>) returns (reply: UploadReply)
    modifies index
    ensures file.None? ==> reply == UploadError(400, "No file part") && index.chunks == old(index.chunks)
    ensures file == Some("") ==> reply == UploadError(400, "No selected file") && index.chunks == old(index.chunks)
    ensures file.Some? && file.value != "" && (text.None? || embed(Rag.DocumentChunks(text.value)).None?) ==>
      reply == UploadRaised && index.chunks == old(index.chunks)
    ensures file.Some? && file.value != "" && text.Some? && embed(Rag.DocumentChunks(text.value)).Some? ==>
      var name := secureFilename(file.value);
      var pieces := Rag.DocumentChunks(text.value);
      && reply == Uploaded(docId, name)
      && index.chunks == old(index.chunks)
         + Rag.Records(docId, Rag.DisplayName(Some(name), Rag.StoredPath(storeDir, docId)), pieces, embed(pieces).value)
  {
    if file.None? {
      return UploadError(400, "No file part");
    }
    if file.value == "" {
      return UploadError(400, "No selected file");
    }
    var filename := secureFilename(file.value);
    var id := index.AddPdf(docId, Some(filename), storeDir, text, embed);
    if id.None? {
      return UploadRaised;
    }
    reply := Uploaded(id.value, filename);
  }

  /**
    The guards come in order: a missing part, then an empty name; a named file is indexed,
    and a named file whose content the PDF reader cannot read leaves the index as it was.
   */
  method UploadGuardsInOrder()
    returns (missing: UploadReply, unnamed: UploadReply, named: UploadReply, unreadable: UploadReply, records: nat)
    ensures missing == UploadError(400, "No file part")
    ensures unnamed == UploadError(400, "No selected file")
    ensures named == Uploaded("d1", "notes.pdf")
    ensures unreadable == UploadRaised
    ensures records == 1
  {
    var index := new Rag.ChunkIndex([]);
    var keep := (s: string) => s;
    var embed := (cs: seq<string>) => Some(seq(|cs|, i requires 0 <= i < |cs| => [1.0]));
    var text := "short text";
    assert Rag.Min(0 + Rag.DefaultChunkSize, |text|) == |text| && text[0..|text|] == text;
    assert Rag.DocumentChunks(text) == [text];
    missing := UploadDoc(index, None, keep, "d0", "store", Some("text"), embed);
    unnamed := UploadDoc(index, Some(""), keep, "d0", "store", Some("text"), embed);
    named := UploadDoc(index, Some("notes.pdf"), keep, "d1", "store", Some(text), embed);
    unreadable := UploadDoc(index, Some("photo.pdf"), keep, "d2", "store", None, embed);
    records := |index.chunks|;
  }

  // ---------------------------------------------------------------- room names

  /** `"room-" + str(uuid.uuid4())[:8]` for the drawn identifier text `u`. */
  function RoomName(u: string): (r: string)
    ensures |r| >= 5 && r[..5] == "room-"
  {
    "room-" + u[..Rag.Min(8, |u|)]
  }

  /**
    The name `generate_room_name` settles on when the identifiers drawn are `draws`: the
    first candidate not among `rooms`, or none when every draw is taken.
   */
  function FirstFree(rooms: seq<string>, draws: seq<string>): (r: Option<string>)
    ensures r.Some? ==> r.value !in rooms && |r.value| >= 5 && r.value[..5] == "room-"
    ensures r.None? <==> forall d :: d in draws ==> RoomName(d) in rooms
  {
    if draws == [] then None
    else if RoomName(draws[0]) !in rooms then Some(RoomName(draws[0]))
    else FirstFree(rooms, draws[1..])
  }

  /** No candidate tried before the chosen one was free. */
  lemma {:induction false} FirstFreeIsFirst(rooms: seq<string>, draws: seq<string>)
    requires FirstFree(rooms, draws).Some?
    ensures exists k :: (0 <= k < |draws| && FirstFree(rooms, draws).value == RoomName(draws[k])
      && forall j :: 0 <= j < k ==> RoomName(draws[j]) in rooms)
  {
    if RoomName(draws[0]) in rooms {
      FirstFreeIsFirst(rooms, draws[1..]);
      var k :| 0 <= k < |draws[1..]| && FirstFree(rooms, draws[1..]).value == RoomName(draws[1..][k])
        && forall j :: 0 <= j < k ==> RoomName(draws[1..][j]) in rooms;
      assert FirstFree(rooms, draws).value == RoomName(draws[k + 1]);
      forall j | 0 <= j < k + 1 ensures RoomName(draws[j]) in rooms {
        if j > 0 {
          assert draws[j] == draws[1..][j - 1];
        }
      }
    } else {
      assert FirstFree(rooms, draws).value == RoomName(draws[0]);
    }
  }

  /**
    The loop of `generate_room_name`: draw a candidate, and draw again while it is taken.
    The draws are finite here; running out of them yields no name.
   */
  method GenerateRoomName(rooms: seq<string>, draws: seq<string>) returns (name: Option<string>)
    ensures name == FirstFree(rooms, draws)
  {
    if draws == [] {
      return None;
    }
    var i := 0;
    var candidate := RoomName(draws[0]);
    while candidate in rooms
      invariant 0 <= i < |draws| && candidate == RoomName(draws[i])
      invariant FirstFree(rooms, draws) == FirstFree(rooms, draws[i..])
      decreases |draws| - i
    {
      assert draws[i..][1..] == draws[i + 1..];
      if i + 1 == |draws| {
        return None;
      }
      i := i + 1;
      candidate := RoomName(draws[i]);
    }
    name := Some(candidate);
  }

  // ---------------------------------------------------------------- tokens

  /** The identity, display name and room grant a token is signed for. */
  datatype Grant = Grant(identity: string, displayName: string, room: string, roomJoin: bool)

  /** `request.args.get("name", "my name")`: only an absent name is defaulted. */
  function TokenName(args: map<string, string>): (r: string)
    ensures "name" in args ==> r == args["name"]
    ensures "name" !in args ==> r == "my name"
  {
    if "name" in args then args["name"] else "my name"
  }

  /**
    `get_token` up to the signing: the grant for the requested name and room, with a fresh
    room name when no room or an empty one is given (none when the draws run out).
   */
  method GetToken(args: map<string, string>, rooms: seq<string>, draws: seq<string>) returns (grant: Option<Grant>)
    ensures "room" in args && args["room"] != "" ==>
      grant == Some(Grant(TokenName(args), TokenName(args), args["room"], true))
    ensures !("room" in args && args["room"] != "") ==>
      match FirstFree(rooms, draws)
      case None => grant.None?
      case Some(room) => grant == Some(Grant(TokenName(args), TokenName(args), room, true))
    ensures grant.Some? && !("room" in args && args["room"] != "") ==>
      grant.value.room !in rooms && grant.value.room[..5] == "room-"
  {
    var name := TokenName(args);
    var room := if "room" in args then args["room"] else "";
    if room == "" {
      var generated := GenerateRoomName(rooms, draws);
      if generated.None? {
        return None;
      }
      room := generated.value;
    }
    grant := Some(Grant(name, name, room, true));
  }
}
