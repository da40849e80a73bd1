# Voice-support assistant with a document library: a Dafny model

The system is a voice-support assistant. A website widget opens a LiveKit media room in
which a voice agent answers questions. The agent can look things up in uploaded PDF
documents through a retrieval tool. An admin page, behind a password, manages the
document library. The backend is a Flask service: it issues room tokens, keeps the
document index and appends every transcribed utterance to a per-room log file.

This project models the logic of that system and proves properties about it:

- `transcripts.dfy`: how the voice agent component merges its two transcription streams
  and posts each message key ("type:firstReceivedTime") to the log endpoint at most once
  per component instance, carrying the first text seen under that key.
- `voice_widget.dfy`: the widget's screen state machine: cancel screen, media room or nothing.
- `rag.dfy`: text chunking with overlap, appending a document's chunks to the index, and
  the top-k similarity search.
- `ask_docs.dfy`: the retrieval tool's reply: numbered, stripped snippets, each cut to 400
  characters plus an ellipsis when longer (at most 401), between a header and a footer.
- `server.dfy`: the backend endpoints for saving a transcription line, uploading a
  document, generating a room name and building a token grant.
- `document_panel.dfy`: the admin document panel's client-side validation, upload, delete
  and listing.
- `admin_login.dfy`: the admin page's password gate, kept in session storage.
- `sorting.dfy`, `text.dfy`, `wrappers.dfy`: shared support. These hold a stable
  insertion sort, which stands for JavaScript's `Array.prototype.sort` and Python's
  `list.sort` (both stable); decimal formatting and line joining; and `Option`/`Result`.

State that the source updates in place is a class with `modifies` clauses:

- the component's sent-key set and its message list;
- the widget's token and flags;
- the chunk index;
- the transcript directory;
- the panel's lists and flags;
- the session storage.

Awaited network and storage steps are parameters ("outcomes") of the methods that
consume them. The requests issued and the notifications shown are kept as logs in order.

A failed token fetch in the widget leaves `isConnecting` false and no token, so the widget
renders nothing; it shows no error screen and does not retry.

## Model

| member | source | states |
|---|---|---|
| Transcripts.Tag | website/src/components/ai_avatar/AvatarVoiceAgent.jsx:48-50 | each segment of a stream becomes one message tagged with that stream's type, same order and count |
| Transcripts.Merge | website/src/components/ai_avatar/AvatarVoiceAgent.jsx:47-53 | the merged list is a permutation of the agent messages followed by the user messages, sorted ascending by first receipt time |
| Transcripts.MergeStable | website/src/components/ai_avatar/AvatarVoiceAgent.jsx:48-51 | among messages with the same receipt time, the agent messages come first and each stream keeps its own order (the sort is stable) |
| Transcripts.MergeResortIsIdentity | website/src/components/ai_avatar/AvatarVoiceAgent.jsx:51 | sorting the merged list again leaves it unchanged |
| Transcripts.MergeOutOfOrderArrival | website/src/components/ai_avatar/AvatarVoiceAgent.jsx:47-53 | a user segment received at 100 is placed before an agent segment received at 200 |
| Transcripts.KeySetCons | website/src/components/ai_avatar/AvatarVoiceAgent.jsx:62 | the keys of a list with one more message are that message's key plus the rest |
| Transcripts.PayloadKeySetAppend | website/src/components/ai_avatar/AvatarVoiceAgent.jsx:61-77 | the keys of two concatenated payload lists are the union of their keys |
| Transcripts.PendingKeys | website/src/components/ai_avatar/AvatarVoiceAgent.jsx:61-77 | the payloads collected in one pass have pairwise distinct keys, and their keys are exactly the message keys not already sent |
| Transcripts.PendingSound | website/src/components/ai_avatar/AvatarVoiceAgent.jsx:61-77 | every collected payload comes from the first message with its key, and that key was not yet sent |
| Transcripts.PendingComplete | website/src/components/ai_avatar/AvatarVoiceAgent.jsx:61-77 | the first message with an unsent key is collected, with room, text and participant filled in by the fallbacks |
| Transcripts.PendingExactly | website/src/components/ai_avatar/AvatarVoiceAgent.jsx:61-77 | a payload is collected if and only if it is built from the first message with an unsent key |
| Transcripts.SentKeyIsNeverResent | website/src/components/ai_avatar/AvatarVoiceAgent.jsx:62-63 | no collected payload carries a key that is already in the sent set |
| Transcripts.ResendBuildsNothing | website/src/components/ai_avatar/AvatarVoiceAgent.jsx:62-63 | when every message key has been sent, nothing is collected |
| Transcripts.PendingStep | website/src/components/ai_avatar/AvatarVoiceAgent.jsx:61-77 | one loop iteration collects the message exactly when its key is neither sent nor seen earlier in the list |
| Transcripts.KeySetSnoc | website/src/components/ai_avatar/AvatarVoiceAgent.jsx:63 | the keys seen after one more iteration are the earlier keys plus the new message's key |
| Transcripts.AppendFreshKeys | website/src/components/ai_avatar/AvatarVoiceAgent.jsx:79-87 | appending payloads with fresh, distinct keys to a distinct-keyed log keeps the log distinct-keyed |
| Transcripts.TranscriptPipeline.constructor | website/src/components/ai_avatar/AvatarVoiceAgent.jsx:43-45 | a new component instance has no messages, an empty sent-key set and has posted nothing |
| Transcripts.TranscriptPipeline.OnTranscriptionsChanged | website/src/components/ai_avatar/AvatarVoiceAgent.jsx:47-53 | the message list becomes the merge of the two streams; nothing is sent |
| Transcripts.TranscriptPipeline.SendNewMessages | website/src/components/ai_avatar/AvatarVoiceAgent.jsx:56-88 | the posts made are exactly the pending payloads for the old sent set, and every key in the messages is now marked sent; the posted log keeps distinct keys |
| Transcripts.TranscriptPipeline.CollectUnsent | website/src/components/ai_avatar/AvatarVoiceAgent.jsx:57-77 | the loop collects exactly the pending payloads and adds every message key to the sent set |
| Transcripts.TranscriptPipeline.PostAll | website/src/components/ai_avatar/AvatarVoiceAgent.jsx:79-87 | one POST per collected payload, in order |
| Transcripts.FirstRevisionWins | website/src/components/ai_avatar/AvatarVoiceAgent.jsx:62-76 | a revised segment with the same key is not posted again: only the first text "hel" is posted, with room "unknown-room" and the local identity |
| Transcripts.NewSessionResends | website/src/components/ai_avatar/AvatarVoiceAgent.jsx:45 | a new component instance starts with an empty sent set, so it posts an already posted segment again, with participant "agent" |
| VoiceWidget.Render | website/src/components/ai_avatar/LiveKitWidget.jsx:35-67 | cancel screen exactly while connecting; room exactly when not connecting and the token is non-empty, with relay forced under both option names, audio on and video off; nothing otherwise |
| VoiceWidget.Widget.constructor | website/src/components/ai_avatar/LiveKitWidget.jsx:8-9 | no token, connecting, no token request yet |
| VoiceWidget.Widget.GetToken | website/src/components/ai_avatar/LiveKitWidget.jsx:11-25 | one request for identity "admin"; a response's body becomes the token whatever its status; a thrown error keeps the token; connecting ends on both paths |
| VoiceWidget.Widget.Cancel | website/src/components/ai_avatar/LiveKitWidget.jsx:38-43 | the cancel button only closes the support modal |
| VoiceWidget.Widget.OnDisconnected | website/src/components/ai_avatar/LiveKitWidget.jsx:59-62 | the disconnect handler sets the modal flag off and the widget's own state back to connecting; it does not clear the token field |
| VoiceWidget.FailedFetchRendersNothing | website/src/components/ai_avatar/LiveKitWidget.jsx:21-24 | after a thrown fetch the widget renders nothing, after exactly one request |
| VoiceWidget.ErrorStatusBodyBecomesToken | website/src/components/ai_avatar/LiveKitWidget.jsx:17-20 | a non-empty body of any status is used as the token and the room is rendered |
| VoiceWidget.EmptyBodyRendersNothing | website/src/components/ai_avatar/LiveKitWidget.jsx:46-67 | an empty body is a falsy token, so nothing is rendered |
| VoiceWidget.DisconnectKeepsToken | website/src/components/ai_avatar/LiveKitWidget.jsx:59-62 | after a disconnect the widget's own state is connecting (its render would be the cancel screen), its token field is not cleared and the modal flag is off |
| Rag.ChunkLengths | backend/rag.py:45-48 | every chunk is non-empty and at most the chunk size long, and every chunk but the last is exactly the chunk size long |
| Rag.ChunkOverlaps | backend/rag.py:51 | each chunk after the first begins with the last `overlap` characters of the chunk before it |
| Rag.LastChunkIsSuffix | backend/rag.py:49-50 | the last chunk ends at the end of the text |
| Rag.TailsCover | backend/rag.py:45-53 | after the overlap is dropped, the chunks from a start position concatenate to the rest of the text |
| Rag.ChunksReassemble | backend/rag.py:42-54 | the first chunk followed by every later chunk without its overlap rebuilds the text exactly |
| Rag.ChunkText | backend/rag.py:42-54 | the loop with its early break and clamp produces exactly the chunk sequence the properties above are proved about |
| Rag.FirstChunk | backend/rag.py:44-48 | there are no chunks exactly when the text is empty; the first chunk is the text's first `chunk_size` characters |
| Rag.Records | backend/rag.py:101-107 | one record per pair of chunk and embedding, truncated to the shorter list as `zip` does, each under the document id and name |
| Rag.ChunkIndex.constructor | backend/rag.py:100 | the index holds the given records |
| Rag.ChunkIndex.AppendDocument | backend/rag.py:101-107 | the new records are appended after the existing ones, which are unchanged |
| Rag.ChunkIndex.AddPdf | backend/rag.py:85-109 | when the text extraction or the embedding raises, the call fails and the index is unchanged; otherwise the document's default-size chunks, with their embeddings, are appended under the new id, named by the original name or else the stored path, and that id is returned |
| Rag.PyTake | backend/rag.py:122 | a slice `[:k]` is a prefix, of length min(k, n) for non-negative k |
| Rag.Scored | backend/rag.py:117-120 | one score pair per chunk, in index order |
| Rag.Seconds | backend/rag.py:122 | keeps the chunk of every pair, in order |
| Rag.SortByAgree | backend/rag.py:121 | sorting with two keys that agree on every element gives the same result |
| Rag.InsertAgree | backend/rag.py:121 | inserting with two keys that agree on the element and the list gives the same result |
| Rag.SecondsInsert | backend/rag.py:121 | inserting a pair by descending score and then dropping scores is the same as inserting its chunk by descending score |
| Rag.SecondsSort | backend/rag.py:117-121 | sorting the score pairs and then dropping scores is the same as sorting the chunks by descending score |
| Rag.Search | backend/rag.py:112-122 | an empty index gives no hits; otherwise the hits are the first `top_k` chunks of a stable sort by descending score, so tied chunks keep their index order |
| Rag.ScoredKeysAgree | backend/rag.py:121 | sorting pairs by negated first component is the same as sorting them by descending chunk score |
| Rag.SecondsTake | backend/rag.py:122 | taking k pairs and then dropping scores is the same as dropping scores and then taking k |
| Rag.RankingIsByScore | backend/rag.py:117-122 | the pair-based computation of the source equals the chunk-level definition used by `Search` |
| Rag.TopKOrdered | backend/rag.py:121-122 | the hits are in non-increasing score order |
| Rag.TopKDrawn | backend/rag.py:122 | there are min(top_k, n) hits, and they are drawn from the index without duplication |
| Rag.TopKBest | backend/rag.py:121-122 | no chunk left out scores above any hit |
| AskDocs.SpaceRunEnd | backend/tools.py:35 | the end of the whitespace run starting at k |
| AskDocs.SpaceRunStart | backend/tools.py:35 | the start of the whitespace run ending at k, not going below lo |
| AskDocs.LeadingSpaces | backend/tools.py:35 | the number of leading whitespace characters is at most the length |
| AskDocs.Strip | backend/tools.py:35 | `str.strip()`: a contiguous slice with only whitespace outside it, and when non-empty it neither starts nor ends with whitespace |
| AskDocs.NewlinesToSpaces | backend/tools.py:35 | every newline is replaced by a space and every other character is kept, so no newline remains |
| AskDocs.Snippet | backend/tools.py:35-37 | a cleaned text of at most 400 characters is kept as is; a longer one is cut to 400 characters and an ellipsis is added; a snippet never holds a newline |
| AskDocs.Numbered | backend/tools.py:31-38 | the list has the header line followed by n numbered lines |
| AskDocs.NumberedLines | backend/tools.py:34-38 | line i is the i-th numbered line |
| AskDocs.ReportLines | backend/tools.py:31-39 | the reply lines are the header, one line per hit, then the footer |
| AskDocs.ReportEntries | backend/tools.py:34-38 | line i+1 is "i+1. [name] snippet" for the i-th hit |
| AskDocs.AskDocs | backend/tools.py:27-42 | a failed search gives the failure prefix plus the error; no hits gives the no-documents text; otherwise the lines joined by newlines |
| AskDocs.ReplyFraming | backend/tools.py:31-40 | a reply for hits starts with the header line and ends with the footer |
| Text.DigitChar | backend/tools.py:38 | a digit's character is between '0' and '9' |
| Text.NatToString | backend/tools.py:38 | a decimal numeral: non-empty, only digits, with no leading zero |
| Text.NatToStringValue | backend/tools.py:38 | the digits of `str(n)` denote n |
| Text.NatToStringInjective | backend/tools.py:34-38 | different entry numbers are rendered differently |
| Text.IntToString | backend/server.py:181 | `str()` of an integer is non-empty |
| Text.IntToStringValue | backend/server.py:181 | `str(i)` is a minus sign followed by the digits of -i for negative i, and otherwise the unsigned digits of i |
| Text.IntToStringInjective | backend/server.py:181 | different integers are rendered differently |
| Text.CountNewlinesAppend | backend/server.py:185 | the newlines of a concatenation are the sum of the newlines of the parts |
| Text.JoinLinesStart | backend/tools.py:40 | a join of two or more lines begins with the first line and a newline |
| Text.JoinLinesEnd | backend/tools.py:40 | a join ends with its last line |
| Sorting.InsertBy | backend/rag.py:121 | insertion adds exactly one element |
| Sorting.InsertKeysAtLeast | backend/rag.py:121 | inserting an element whose key is at least a bound keeps every key at least that bound |
| Sorting.InsertSorted | backend/rag.py:121 | inserting into a sorted list keeps it sorted |
| Sorting.SortBy | website/src/components/ai_avatar/AvatarVoiceAgent.jsx:51 | the result is a permutation of the input, sorted by the key |
| Sorting.WithKeyAppend | website/src/components/ai_avatar/AvatarVoiceAgent.jsx:51 | the elements with a given key of a concatenation are those of each part, in order |
| Sorting.WithKeyCons | website/src/components/ai_avatar/AvatarVoiceAgent.jsx:51 | the elements with a given key of a list with one more element at the front |
| Sorting.WithKeyInsert | website/src/components/ai_avatar/AvatarVoiceAgent.jsx:51 | the elements with the inserted element's key come out as in `[x] + s`, so the inserted element goes before the elements with an equal key |
| Sorting.SortStable | backend/rag.py:121 | sorting keeps the relative order of elements with equal keys |
| Sorting.SortSortedIsIdentity | website/src/components/ai_avatar/AvatarVoiceAgent.jsx:51 | sorting an already sorted list leaves it unchanged |
| Server.Field | backend/server.py:164-168 | `data.get(key) or default`: a missing or falsy value gives the default, a non-empty string is kept, and a non-empty default can never produce "" |
| Server.TsText | backend/server.py:176-183 | no timestamp gives the current UTC time; a timestamp is formatted as a date when formatting succeeds, and otherwise as `str(ts)` |
| Server.ParseTranscription | backend/server.py:163-183 | the room and the speaker type of a parsed line are never empty, whatever fields the dictionary lacks |
| Server.LogLine | backend/server.py:185 | a log line starts with '[' and ends with a newline |
| Server.NoNewlineCount | backend/server.py:185 | a text without a newline contributes none |
| Server.LogLineIsOneLine | backend/server.py:185 | a log line whose fields carry no newline is exactly one line |
| Server.PostedPayloadIsLogged | backend/server.py:163-185 | what the voice agent posts is logged with its own room, type, text and participant, and a timestamp formatted from its time |
| Server.TranscriptStore.constructor | backend/server.py:171-172 | the transcript directory starts empty |
| Server.BodyFields | backend/server.py:163 | `get_json(silent=True) or {}`: no JSON or a falsy value gives `{}`, an object is kept, and a truthy value that is not an object leaves no dictionary |
| Server.TranscriptStore.SaveTranscription | backend/server.py:163-191 | a truthy body that is not an object makes the handler raise (status 500) and changes no file; a failed write gives the caught 500 reply and changes no file; otherwise the line is appended to the file named `<room>.txt` and the reply is ok |
| Server.UserPostParses | backend/server.py:163-168 | a full user post parses field by field |
| Server.SparsePostParses | backend/server.py:164-168 | a post with only a room falls back to "agent" and empty text and participant |
| Server.UserPostLine | backend/server.py:185 | the line format for a user post |
| Server.SparsePostLine | backend/server.py:185 | the line format for a post with empty fields |
| Server.TwoLinesInOrder | backend/server.py:185-188 | two posts to the same room are appended to one file in arrival order |
| Server.MissingBodyUsesDefaults | backend/server.py:163-185 | a request without a JSON body is logged to "unknown-room.txt" as an agent line |
| Server.NonObjectBodies | backend/server.py:163-164 | a truthy non-object body raises before anything is written; a falsy one is logged with the defaults |
| Server.UploadDoc | backend/server.py:105-124 | no file part gives 400 "No file part"; an empty file name gives 400 "No selected file"; an exception from extraction or embedding escapes as a 500; all three leave the index unchanged; otherwise the sanitised file is ingested and its id and name are returned |
| Server.UploadGuardsInOrder | backend/server.py:105-124 | the two refusals, one successful upload, which adds one record, and an unreadable file that adds none |
| Server.RoomName | backend/server.py:19 | every generated name begins with "room-" |
| Server.FirstFree | backend/server.py:18-23 | the chosen name is not an existing room and begins with "room-"; there is no name exactly when every draw collides |
| Server.FirstFreeIsFirst | backend/server.py:21-22 | the chosen name comes from a draw, and every earlier draw collided |
| Server.GenerateRoomName | backend/server.py:18-23 | the retry loop returns the first free candidate |
| Server.TokenName | backend/server.py:55 | an absent name defaults to "my name"; a given one, even empty, is kept |
| Server.GetToken | backend/server.py:55-67 | the grant is for the name as identity and display name, with room join; a given non-empty room is used, and otherwise a generated room that does not exist yet |
| DocumentPanel.Rejection | website/src/components/DocumentUpload.tsx:45-63 | a file passes exactly when it is a PDF of at most 10 MiB; a non-PDF is refused for its type whatever its size; an oversized PDF is refused for its size |
| DocumentPanel.Panel.constructor | website/src/components/DocumentUpload.tsx:15-17 | no documents, not uploading, loading |
| DocumentPanel.Panel.FetchDocuments | website/src/components/DocumentUpload.tsx:27-39 | one listing request; only a 2xx listing replaces the list; loading ends on every path |
| DocumentPanel.Panel.StartUpload | website/src/components/DocumentUpload.tsx:41-74 | it starts exactly for a valid file; a refused file shows its notification and sends nothing; no file does nothing; no upload request ever carries a refused file |
| DocumentPanel.Panel.FinishUpload | website/src/components/DocumentUpload.tsx:76-96 | success shows the stored name and refreshes the list; anything else shows the failure notification; uploading ends on every path |
| DocumentPanel.Panel.HandleDelete | website/src/components/DocumentUpload.tsx:99-125 | without confirmation nothing happens; a confirmed delete sends the request, and only a 2xx reply shows "deleted" and refreshes |
| DocumentPanel.UploadOnce | website/src/components/DocumentUpload.tsx:41-97 | the requests and notifications of one upload, for a refused file, a successful upload and a failed one |
| DocumentPanel.OversizedFilesAreRefused | website/src/components/DocumentUpload.tsx:45-63 | a 12 MiB PDF is refused for its size and a 12 MiB Word file for its type, and neither is sent |
| DocumentPanel.LimitSizedPdfIsUploaded | website/src/components/DocumentUpload.tsx:56 | a PDF of exactly 10 MiB is uploaded, and then the list is refreshed |
| DocumentPanel.DeleteNeedsConfirmation | website/src/components/DocumentUpload.tsx:99-125 | declining sends nothing; a failed delete keeps the list |
| AdminLogin.ExpectedPassword | website/src/pages/Admin.tsx:20 | the configured password when it is set and non-empty, "admin123" otherwise; never empty |
| AdminLogin.Session.constructor | website/src/pages/Admin.tsx:12 | the session storage holds the given entries |
| AdminLogin.AdminPage.constructor | website/src/pages/Admin.tsx:10-15 | the page is unlocked exactly when the session holds `admin_auth` = "true"; empty password and error |
| AdminLogin.AdminPage.SetPassword | website/src/pages/Admin.tsx:61 | typing changes only the password field |
| AdminLogin.AdminPage.HandleLogin | website/src/pages/Admin.tsx:22-33 | the right password unlocks the page, stores the flag and clears the error; a wrong one shows "Incorrect password", clears the field and changes nothing stored |
| AdminLogin.AdminPage.HandleLogout | website/src/pages/Admin.tsx:35-39 | locks the page, removes the flag from the session and clears the field |
| AdminLogin.LoginSurvivesReload | website/src/pages/Admin.tsx:10-39 | a login survives a reload in the same session, and a logout locks the reloaded page too |
| AdminLogin.WrongPasswordIsRefused | website/src/pages/Admin.tsx:29-31 | with the default password, a wrong guess is refused and the cleared field does not unlock |

## Left out

- VoiceWidget.Widget.OnDisconnected: the parent page renders the widget only while its `showSupport` flag is true, so setting that flag off unmounts the widget and its kept token is discarded with it; reopening the modal mounts a new widget (no token, connecting, a new "admin" token request). The parent's unmount and the remount are not modelled; the model stops at the widget's own state after the handler.
- Network I/O and the asynchronous scheduling of React effects and Flask handlers are left out. Each awaited request is one atomic step, and its outcome is a parameter.
- Floating point is left out: embeddings are sequences of reals that are never inspected. Cosine similarity is an arbitrary integer-valued score function of the chunk, so ties and order are modelled, but no numeric property of the score is.
- JSX layout, CSS, the LiveKit media hooks, audio rendering and the `navigate("/")` buttons are rendering, not logic, and are left out.
- Flask routing, CORS, Swagger, JWT signing and `list_rooms` are left out. The existing room names are a parameter, and the token is modelled as its grant.
- Server.GenerateRoomName: `uuid4` is a finite sequence of draws given as a parameter. When every draw collides the model returns None, where the source would keep drawing forever.
- Server.TsText: `datetime.fromtimestamp(...).isoformat()` and `datetime.utcnow()` are parameters, because clock and calendar formatting are outside the model.
- Server.Field: the values of a posted object's fields are limited to null, booleans, integers and strings. Field values that are floats, arrays or objects are not modelled.
- `mkdir` failing is not modelled in `save_transcription`. Only a failed open or write of the log file gives the 500 reply.
- PDF text extraction, the temporary file, `shutil.move`, and loading and saving the index file are left out. The extracted text and the embedding service are parameters of `add_pdf`, each absent when it raises. The file already moved into storage before such an exception is not modelled.
- `secure_filename` is a parameter of the upload endpoint, because its sanitising rules are library code.
- Rag.ChunkText requires `0 <= overlap < chunk_size`. Its only call site (backend/rag.py:97) uses the defaults 1500 and 200. The source loops forever when `overlap >= chunk_size` and the text is longer than `chunk_size`; when the text fits in the first window, the `break` ends the loop after one chunk. When `overlap < chunk_size <= 0`, `start` grows by `chunk_size - overlap` on each pass, so the loop ends, producing empty or partial chunks. With a negative overlap it terminates but skips the characters between `end` and `end - overlap`. None of these cases is modelled. Under this precondition the `start < 0` clamp never fires, but it is kept in the loop.
- Transcripts: the sent key `"type:time"` is the pair `Key(type, time)`. The string form only adds a `:` separator, which cannot make two different pairs collide.
- Transcripts: an undefined text, alternative text, participant identity or room name is "". The source's `||` fallbacks treat both the same way.
- VoiceWidget.Widget.GetToken: the response's status is ignored, as in the source. A non-2xx body becomes the token, and the model says so.
- DocumentPanel.Panel.StartUpload requires that no upload is running, because the file input is disabled while `uploading` (DocumentUpload.tsx:159). Clearing the input value after an upload is left out.
- Toast rendering and console logging are left out. Notifications are logged as (title, description, destructive) triples.
- `backend/agent.py`, the prompts and `open_url` are not part of this model. The panel's `GET /documents` and `DELETE /documents/<id>` have no handler in the backend files modelled here, so their replies are outcome parameters.
- Server.TranscriptStore.SaveTranscription: files are keyed by the plain string `room + ".txt"`, while the source joins it to the transcripts directory with pathlib. The model does not capture that a room such as `../x` writes outside that directory, that an absolute room such as `/tmp/x` replaces the directory, or that `a` and `./a` name the same file. The source does not sanitise the room name.
- Rag.StoredPath joins with `/`, while `os.path.join` uses the host's separator (the source also targets Windows).
- Transcripts: `firstReceivedTime` is an integer, while in JavaScript it is a `number`. Millisecond timestamps are integers, so the order and the keys are the same; fractional times are not modelled.
