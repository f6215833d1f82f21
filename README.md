# librecaptcha, modelled in Dafny

librecaptcha is a reCAPTCHA client. It fetches a challenge for a site key over the reCAPTCHA web protocol, hands the image grid to a user front end (a GTK window or a command line), posts the selected tiles back and returns the final token. This project models the deterministic core of that client and proves properties of the model:

- **Wire encoders** (`librecaptcha/recaptcha.py`):
  - Protocol Buffers base-128 varints and length-delimited records, with the `reload` frame built from them;
  - `rc_base64`, which is RFC 4648 base64 with the URL-safe alphabet of section 5, where each padding `=` of section 3.2 becomes `.`;
  - decoding of the server's `)]}'`-prefixed JSON envelope;
  - the `pmeta` and `rresp` lookups.
- **URL and request helpers**:
  - the site-URL normaliser, with the default ports of RFC 7230 sections 2.7.1 and 2.7.2;
  - the endpoint join;
  - filling of `None` placeholders in query parameters and form data;
  - the User-Agent header default.
- **Goal search**: the windowed search through the JavaScript string table that finds the "select all …" sentence for a challenge id, plus `ChallengeGoal.plain` and `GridDimensions.count`.
- **The protocol session**:
  - `ReCaptcha`, with its `solver_index` guard and token/`p` installation;
  - `DynamicSolver`, with its tile-id remapping table, synthetic id counter, selections, one-shot challenge flag and tile cooldowns;
  - `MultiCaptchaSolver`, with its meta queue, sorted selection groups and chained `p`/`id` values.

  These are Dafny classes whose methods update fields. The server is a `Transport` object that records each request and answers from a queue of replies.
- **The GTK front end's logic** (`librecaptcha/gui.py`):
  - the immutable `DynamicState` and `MultiCaptchaState` with `reduce_state`;
  - the presentation predicates (verify label, verify enabled, goal text with its note);
  - the dynamic finish gate;
  - the crop boxes of `tiles_from_image`;
  - `format_goal`, with Python's `html.escape` modelled and its inverse proved.
- **The test server's state machine** (`test-server/server.py`): the `State` class with `reset`, `reload`, `replaceimage`, `payload_path` and `userverify`.
- **The older single-file client** (`librecaptcha/librecaptcha.py`), where it behaves differently:
  - the site-URL check order;
  - validation of typed tile numbers;
  - a case-sensitive goal search that strips tags;
  - header and parameter handling;
  - the classification step inside the `solve_all` loop.
- **The user-agent update script** (`scripts/update_user_agents.py`):
  - the two-flag HTML data handler;
  - the bounded non-mobile filter;
  - the layout of the generated module, with a proof that every written `repr` line reads back as the agent.

JSON is a small datatype (null, bool, integer, string, list, object). JSON text parsing, `json.dumps` and HTML token extraction are function parameters.

## Model

| member | source | states |
|---|---|---|
| Varint.VarintEncode | librecaptcha/recaptcha.py:168-178 | a negative number is refused with the buffer unchanged; otherwise exactly the varint bytes of n are appended |
| Varint.VarintShape | librecaptcha/recaptcha.py:168-178 | every byte but the last has bit 7 set, the last has it clear |
| Varint.VarintRoundTrip | librecaptcha/recaptcha.py:168-178 | reading the 7-bit groups little-endian gives back n |
| Varint.VarintSingleByte | librecaptcha/recaptcha.py:168-178 | one byte exactly when n < 128, and then the byte is n |
| Varint.ParseVarint | librecaptcha/recaptcha.py:168-178 | a decoded varint consumes between one byte and the whole input |
| Varint.ParseVarintBytes | librecaptcha/recaptcha.py:168-178 | parsing the encoding of n followed by anything yields n and the encoding's length |
| Protobuf.ProtobufEncode | librecaptcha/recaptcha.py:181-188 | the result is the concatenation, in input order, of tag `(num<<3)\|2`, length and value for each field; a negative field number is an error |
| Protobuf.VarintTag | librecaptcha/recaptcha.py:181-188 | the tag is negative exactly for a negative field number, else 8·num + 2 |
| Protobuf.FieldsBytesAppend | librecaptcha/recaptcha.py:181-188 | encoding one more field appends that field's record |
| Protobuf.ParseOne | librecaptcha/recaptcha.py:181-188 | reading one record consumes a non-empty prefix of the input |
| Protobuf.ParseOneField | librecaptcha/recaptcha.py:181-188 | one encoded record reads back as its number and value, consuming exactly its bytes |
| Protobuf.ParseField | librecaptcha/recaptcha.py:181-188 | a record in front of parseable bytes reads back in front of their fields |
| Protobuf.ParseFieldsBytes | librecaptcha/recaptcha.py:181-188 | every encoded field list parses back to the same numbers and values, in order |
| Protobuf.EncodeExample | librecaptcha/recaptcha.py:181-188 | field 1 holding "v1" encodes as 0A 02 76 31 |
| Protobuf.FormatReloadProtobuf | librecaptcha/recaptcha.py:191-203 | the reload frame holds fields 1, 2, 6 and 14 in that order, as records with tag bytes 0x0A, 0x12, 0x32 and 0x72 over the UTF-8 of version, token, reason and key |
| Protobuf.ReloadFrameBytes | librecaptcha/recaptcha.py:191-203 | the reload field numbers produce the tag bytes 0x0A, 0x12, 0x32, 0x72 |
| Bytes.Utf8Ascii | librecaptcha/recaptcha.py:191-203 | the UTF-8 of ASCII text is its code points, one byte each |
| Base64.RcBase64Length | librecaptcha/recaptcha.py:87-91 | the output has 4·⌈n/3⌉ characters, a multiple of 4 |
| Base64.RcBase64Alphabet | librecaptcha/recaptcha.py:87-91 | every output character is one of `A–Z a–z 0–9 - _ .` |
| Base64.RcBase64Decodes | librecaptcha/recaptcha.py:87-91 | mapping `-`→`+`, `_`→`/`, `.`→`=` gives standard base64 that decodes to the input bytes |
| Base64.Example | librecaptcha/recaptcha.py:87-91 | FB EF FF encodes as `--__`, and a single byte is padded with `..` |
| Envelope.LoadRcJson | librecaptcha/recaptcha.py:94-95 | text without a newline is refused; a decoded value is the parse of text following a newline |
| Envelope.LoadRcJsonSkipsFirstLine | librecaptcha/recaptcha.py:94-95 | whatever the first line holds, the result is the parse of everything after it |
| Envelope.LoadRcJsonExample | librecaptcha/recaptcha.py:94-95 | the `)]}'` guard line is dropped and `[1,2,3]` is what gets parsed |
| Envelope.LoadRcJsonNoGuard | librecaptcha/recaptcha.py:94-95 | a single line of JSON is refused, because the first line is dropped unchecked |
| Envelope.FirstNonEmptyList | librecaptcha/recaptcha.py:98-113 | the index found is the first non-empty list child; none is found only when there is no such child |
| Envelope.Meta | librecaptcha/recaptcha.py:98-113 | `pmeta[probable_index]` (negative indices counting from the end) when it is a non-empty list, otherwise the first non-empty list child; the "not found" error occurs exactly when there is none, and a shape error for a non-list or an out-of-range negative index |
| Envelope.GetMeta | librecaptcha/recaptcha.py:98-113 | the loop returns what the meta lookup specifies |
| Envelope.MetaExample | librecaptcha/recaptcha.py:98-113 | an empty list at the probable index is skipped for the first non-empty one; no candidate is an error |
| Envelope.Rresp | librecaptcha/recaptcha.py:116-123 | the result is the first child that is a non-empty list headed by `"rresp"`; None exactly when no child qualifies; a shape error exactly for a non-list |
| Envelope.FirstRresp | librecaptcha/recaptcha.py:116-123 | the position found is the first qualifying child |
| Envelope.GetRresp | librecaptcha/recaptcha.py:116-123 | the loop returns what the rresp lookup specifies |
| SiteUrl.RcSiteUrl | librecaptcha/recaptcha.py:71-84 | refuses a missing hostname, then a missing scheme, then a scheme other than http/https, in that order; succeeds exactly otherwise (with a readable port), yielding `scheme://host:` followed by the port |
| SiteUrl.RcSiteUrlPort | librecaptcha/recaptcha.py:71-84 | the digits after the last colon are the given port, or 80 for http and 443 for https |
| SiteUrl.RcSiteUrlExample | librecaptcha/recaptcha.py:71-84 | `http://h` becomes `http://h:80`, ftp is refused, and no hostname is refused first |
| SiteUrl.FullUrl | librecaptcha/recaptcha.py:67-68 | the endpoint URL is the base URL followed by the path with its leading slashes removed |
| SiteUrl.BaseStripped | librecaptcha/recaptcha.py:39 | the base URL without its trailing slash is the API host prefix |
| SiteUrl.FullUrlIgnoresLeadingSlash | librecaptcha/recaptcha.py:67-68 | a leading slash on the path makes no difference |
| SiteUrl.FullUrlExample | librecaptcha/recaptcha.py:67-68 | `anchor` and `/reload` are joined onto the base URL |
| Params.FillSpec | librecaptcha/recaptcha.py:481-500 | filling a key replaces only a `None` value under that key; the key set and all other entries are unchanged |
| Params.GetQueryFilled | librecaptcha/recaptcha.py:481-500 | a GET fills `k`, `v` and `p` placeholders with the api key, version and current `p` |
| Params.FilledIdempotent | librecaptcha/recaptcha.py:481-500 | filling twice with non-null values is the same as filling once |
| Params.PostBodyFilled | librecaptcha/recaptcha.py:502-528 | a POST form fills `v` and `c` placeholders with the version and the current token |
| Params.AnchorQuery | librecaptcha/recaptcha.py:530-558 | the anchor request's placeholders `k` and `v` become key and version, and the other entries stay |
| Params.WithAgentSpec | librecaptcha/recaptcha.py:471-479 | the headers always hold a User-Agent (the caller's own if given, else the default), and every other header is the caller's |
| Params.WithAgentIdempotent | librecaptcha/recaptcha.py:471-479 | adding the User-Agent twice changes nothing more |
| Params.Answer | librecaptcha/recaptcha.py:481-500 | a request is answered by the next queued reply, or fails when none is left |
| Params.ImageOf | librecaptcha/recaptcha.py:161-165 | a reply decodes to its image, or fails as an image error |
| Params.ImageAnswer | librecaptcha/recaptcha.py:161-165 | a payload request succeeds exactly when the next reply is an image |
| Types.GridDimensions.Count | librecaptcha/recaptcha.py:211-212 | rows × columns is zero exactly when a side is zero, and not negative for non-negative sides |
| Types.ChallengeGoal.Plain | librecaptcha/recaptcha.py:388-391 | a plain text exists exactly when the raw goal does |
| Types.PlainStripsTags | librecaptcha/recaptcha.py:388-391 | removing `<strong>` and then `</strong>` from `prefix<strong>bold</strong>suffix` leaves `prefix bold suffix` |
| Types.OpenTagRemoved | librecaptcha/recaptcha.py:388-391 | the first replace removes the opening tag and leaves the closing one |
| Types.CloseTagRemoved | librecaptcha/recaptcha.py:388-391 | the second replace removes the closing tag |
| GoalSearch.FindFrom | librecaptcha/recaptcha.py:446-469 | `list.index(id, start)`: the first occurrence at or after start, or none |
| GoalSearch.WindowSize | librecaptcha/recaptcha.py:446-469 | the part of a 10-entry window that lies inside the table; short exactly when the window runs past the end |
| GoalSearch.CollectWindow | librecaptcha/recaptcha.py:450-457 | the loop collects the matching window entries and reports whether the window stayed in range |
| GoalSearch.TryFind | librecaptcha/recaptcha.py:450-457 | one step of the search: its matches followed by the rest of the scan from the new start make up the scan from the old start; an aborting step yields the whole scan |
| GoalSearch.ScanStops | librecaptcha/recaptcha.py:446-469 | an out-of-range window ends the scan, keeping the matches of that window |
| GoalSearch.ScanContinues | librecaptcha/recaptcha.py:446-469 | after a complete window the scan resumes from index + 11 |
| GoalSearch.WindowUpToSound | librecaptcha/recaptcha.py:450-457 | window matches are entries index+1..index+n that match, recorded with their offset and occurrence, in increasing offset |
| GoalSearch.WindowUpToComplete | librecaptcha/recaptcha.py:450-457 | every matching window entry is recorded |
| GoalSearch.ScanSound | librecaptcha/recaptcha.py:446-469 | every match holds an offset below 10, an occurrence of the id at or after start, and the matching entry at occurrence + offset + 1 |
| GoalSearch.ScanOrdered | librecaptcha/recaptcha.py:446-469 | matches come in increasing occurrence, and by increasing offset within one occurrence |
| GoalSearch.ScanKeysDistinct | librecaptcha/recaptcha.py:446-469 | no two matches share (offset, occurrence), so the string never decides the minimum |
| GoalSearch.MinFound | librecaptcha/recaptcha.py:446-469 | the minimum is a match, and its (offset, occurrence) key is at most every match's |
| GoalSearch.FindGoalText | librecaptcha/recaptcha.py:446-469 | the loop with its early exit returns the goal specified by the scan |
| GoalSearch.GoalTextMeaning | librecaptcha/recaptcha.py:446-469 | no goal exactly when the id is not a string or nothing matched; otherwise the goal is the text of a match with the least key |
| GoalSearch.FirstWindowSearched | librecaptcha/recaptcha.py:446-469 | a matching entry in the first window after the id is always found, so a goal exists |
| GoalSearch.FindChallengeGoalText | librecaptcha/recaptcha.py:446-469 | the case-insensitive whole-word `select all` search; a result always contains that word pair |
| GoalSearch.SearchExample | librecaptcha/recaptcha.py:446-469 | a "Select all cats" entry three after the id is found |
| Sorting.Sort | librecaptcha/recaptcha.py:334 | `sorted(...)` is ascending and a permutation of its input |
| Sorting.InsertSorted | librecaptcha/recaptcha.py:334 | inserting into a sorted list keeps it sorted |
| Sorting.InsertPermutes | librecaptcha/recaptcha.py:334 | inserting adds exactly the one element |
| Sorting.SortSorted | librecaptcha/recaptcha.py:334 | an already sorted list is returned unchanged |
| JsonText.IntListRoundTrip | librecaptcha/recaptcha.py:361 | the compact JSON text of a tile-id list parses back to the same list |
| JsonText.ParseDecimals | librecaptcha/recaptcha.py:361 | the decimal tokens of a list parse back to the list |
| JsonText.SplitJoin | librecaptcha/recaptcha.py:361 | splitting comma-joined comma-free parts gives the parts back |
| JsonText.OneGroupIsGroups | librecaptcha/recaptcha.py:361 | the replace request's `[selections]` is the group list holding only the latest group |
| JsonText.SingletonText | librecaptcha/recaptcha.py:295 | the one-tile request `[{}]` is the JSON list of that id |
| PyStr.IntRoundTrip | librecaptcha/librecaptcha.py:126-137 | `int(str(i)) == i` for every integer |
| PyStr.DecimalRoundTrip | librecaptcha/librecaptcha.py:126-137 | the digits printed for n read back as n |
| Recaptcha.NewReCaptcha | librecaptcha/recaptcha.py:399-416 | construction fails exactly when the site URL is refused, with that error; otherwise `co` is the rc_base64 of the normalised site URL, and token, `p` and `solver_index` start unset |
| Recaptcha.ReCaptcha.constructor | librecaptcha/recaptcha.py:399-416 | the session starts with no token, no `p` and `solver_index` -1 |
| Recaptcha.ReCaptcha.Get | librecaptcha/recaptcha.py:481-500 | exactly one GET is sent, with the current `p` to fill from, and the next reply is taken |
| Recaptcha.ReCaptcha.Post | librecaptcha/recaptcha.py:502-528 | exactly one POST is sent, with the current token to fill from, and the next reply is taken |
| Recaptcha.ReCaptcha.RequestFirstToken | librecaptcha/recaptcha.py:530-558 | sends the anchor request; the token is installed exactly when the page yields a non-empty one, otherwise the old token stays |
| Recaptcha.ReCaptcha.GetFirstRresp | librecaptcha/recaptcha.py:578-590 | sends the reload frame built from the first token and decodes the reply's envelope |
| Recaptcha.ReCaptcha.GetChallengeGoal | librecaptcha/recaptcha.py:442-444 | the goal is the goal search for `meta[0]`, and any text found contains "select all" |
| Recaptcha.SolverFields | librecaptcha/recaptcha.py:592-614 | `rresp[5]`, `rresp[4]`, `rresp[1]` and `rresp[9]`, present exactly when all four indexes are in range |
| Recaptcha.SolverKind | librecaptcha/recaptcha.py:592-614 | dynamic and multicaptcha pick their solvers; default and doscaptcha are blocked with that type; any other hashable type is unknown, and an unhashable one is a shape error |
| Recaptcha.ReCaptcha.GetSolver | librecaptcha/recaptcha.py:592-614 | `solver_index` goes up first; token and `p` are installed from `rresp[1]`/`rresp[9]` before dispatch; a missing entry is a shape error, a blocked or unknown type fails with its own error, a failing `get_meta` or grid fails with that error; otherwise the solver of the type is built from `get_meta(pmeta, 1)` and its dimensions, or from the list of `get_meta(pmeta, 5)[0]` |
| Recaptcha.DynamicSetup | librecaptcha/recaptcha.py:232-240 | the dynamic solver's meta is `get_meta(pmeta, 1)`, and its dimensions come from that meta |
| Recaptcha.MultiMetas | librecaptcha/recaptcha.py:317-324 | the meta queue is the list at `get_meta(pmeta, 5)[0]` |
| Recaptcha.Dimensions | librecaptcha/recaptcha.py:270-272 | rows are `meta[3]` and columns `meta[4]`, when both are integers in range |
| Recaptcha.ReCaptcha.FirstSolver | librecaptcha/recaptcha.py:418-423 | a second call is refused with nothing sent; a first call sends the anchor request (no token is an error), then the reload request with the first token; a reply that does not decode is that error, and otherwise the result is what `_get_solver` makes of the decoded reply, with its token and `p` installed |
| Recaptcha.ReCaptcha.SendSolution | librecaptcha/recaptcha.py:425-433 | refused before the first solver with nothing sent; otherwise one userverify POST; a new rresp takes precedence and the result is what `_get_solver` makes of it, with its token and `p` installed; without one a truthy uvtoken is returned as the token and a falsy one is an error |
| Recaptcha.ReCaptcha.Verify | librecaptcha/recaptcha.py:560-576 | one userverify POST with the solution form, answered by uvtoken and optional rresp |
| Recaptcha.JsonAnswer | librecaptcha/recaptcha.py:560-576 | a reply is decoded through the envelope, or fails when the server has none |
| Recaptcha.VerifyFields | librecaptcha/recaptcha.py:560-576 | the verify answer is `uvresp[1]` and the nested rresp, for a list with an index 1 |
| Recaptcha.VerifyAnswer | librecaptcha/recaptcha.py:560-576 | decoding failures propagate; otherwise the verify fields of the decoded reply |
| Recaptcha.CooldownBounds | librecaptcha/recaptcha.py:278-281 | the delay `max(4.5 − elapsed, 0)` lies in [0, 4.5], is 0 once 4.5 s have passed, and otherwise tops the elapsed time up to 4.5 |
| Recaptcha.MaxCooldown | librecaptcha/recaptcha.py:267-268 | the largest tile delay: at least every one of them and equal to one of them |
| Recaptcha.Range | librecaptcha/recaptcha.py:232-240 | the initial tile map is the identity on 0..n-1 |
| Recaptcha.DynamicSolver.constructor | librecaptcha/recaptcha.py:232-240 | every tile's last request time starts at 0, with the identity map and latest index n-1 |
| Recaptcha.DynamicSolver.GetChallenge | librecaptcha/recaptcha.py:242-252 | succeeds only once; the first call fetches the payload and builds the challenge from the meta's goal, the image and the dimensions, and leaves the tile state alone |
| Recaptcha.DynamicSolver.SelectTile | librecaptcha/recaptcha.py:254-259 | refused before the challenge; an index out of range is refused, with nothing changed in either case; otherwise the tile's id joins the selections and its replacement is posted; success replaces tile i as specified, installs the reply's token and `p`, fetches the reply's image id and returns that image with the cooldown; tile ids stay distinct |
| Recaptcha.DynamicSolver.ReplaceTile | librecaptcha/recaptcha.py:289-313 | appends the old `map[i]` to the selections and sends `[map[i]]`; on success `map[i]` is the next synthetic id, `last_request_map[i]` the send time, token and `p` come from the reply, and the payload is fetched by the new id |
| Recaptcha.DynamicSolver.SendTile | librecaptcha/recaptcha.py:289-313 | the replaceimage POST of the old tile id; only `map[i]`, `last_request_map[i]` and the counter change |
| Recaptcha.TileFields | librecaptcha/recaptcha.py:289-313 | the token, `p` and new id read from the dynamic replace reply |
| Recaptcha.ReplaceKeepsDistinct | librecaptcha/recaptcha.py:289-313 | remapping a tile to the next id keeps all ids seen (selections and the map) pairwise distinct and below the counter |
| Recaptcha.DynamicSolver.Finish | librecaptcha/recaptcha.py:261-264 | refused before the challenge; otherwise the solution is the selections, whose ids are distinct |
| Recaptcha.DynamicSolver.FinalTimeout | librecaptcha/recaptcha.py:267-268 | the largest tile cooldown; with no tiles `max` of nothing is an error |
| Recaptcha.MultiCaptchaSolver.constructor | librecaptcha/recaptcha.py:317-324 | the solver holds the meta queue, with no groups and no challenge yet |
| Recaptcha.MultiCaptchaSolver.ChallengeFor | librecaptcha/recaptcha.py:339-348 | a challenge is the goal of `meta[0]`, the image and the meta's dimensions |
| Recaptcha.MultiCaptchaSolver.NextGrid | librecaptcha/recaptcha.py:339-348 | `metas.pop(0)` and the challenge index goes up by one; an empty queue is an error |
| Recaptcha.MultiCaptchaSolver.FirstChallenge | librecaptcha/recaptcha.py:326-329 | works only once and is refused afterwards with nothing sent; the first payload holds the token and key |
| Recaptcha.MultiCaptchaSolver.ReplaceImage | librecaptcha/recaptcha.py:356-377 | sends only the latest group as `[group]`; the next payload is fetched with the `p` and `id` held before the reply, then token, `p` and `id` come from the reply |
| Recaptcha.NextId | librecaptcha/recaptcha.py:356-377 | the next id is the first of the reply's ids, or null when there are none |
| Recaptcha.ImagesFields | librecaptcha/recaptcha.py:356-377 | the token, `p` and next id read from the multicaptcha replace reply |
| Recaptcha.MultiCaptchaSolver.SelectIndices | librecaptcha/recaptcha.py:331-337 | refused before the first challenge; each call stores `sorted(indices)`; with metas left it posts that group, installs the reply's token, `p` and id, fetches the next image with the previous `p` and id, and returns the next meta's grid showing that image; with none left it returns all groups as the solution, holding as many sorted groups as there were metas |
| Gui.TilesFromImage | librecaptcha/gui.py:41-53 | a grid with zero rows or columns is a division by zero, and only that |
| Gui.TilesNegative | librecaptcha/gui.py:41-53 | a negative side yields no tiles |
| Gui.NoColumns | librecaptcha/gui.py:41-53 | no columns means no tiles in any row |
| Gui.RowTilesShape | librecaptcha/gui.py:41-53 | a row yields one crop per column, left to right |
| Gui.GridTilesShape | librecaptcha/gui.py:41-53 | rows × columns crops in row-major order, crop k at row k // columns and column k % columns |
| Gui.TilesLayout | librecaptcha/gui.py:41-53 | for a real grid box k is `(tw·c, th·r, tw·c+tw, th·r+th)` and lies within the image |
| Gui.TileBoxWithin | librecaptcha/gui.py:41-53 | every grid cell's box lies within the image |
| Gui.FloorDiv | librecaptcha/gui.py:41-53 | Python's floor division for a positive divisor |
| Gui.Present | librecaptcha/gui.py:575-582 | a fresh dynamic state shows every cropped tile |
| Gui.DynamicFromChallenge | librecaptcha/gui.py:575-582 | a fresh dynamic state has no waiting tiles and is consistent (the count equals the empty tiles) |
| Gui.DynamicState.ReplaceTile | librecaptcha/gui.py:584-596 | only `tile_images[index]` changes (Python indexing, out of range refused), and consistency is kept |
| Gui.MissingUpdate | librecaptcha/gui.py:584-596 | the waiting count goes up by one for image→None, down by one for None→image, and is otherwise unchanged |
| Gui.MissingZero | librecaptcha/gui.py:575-601 | no tile waits exactly when every tile has its image |
| Gui.DynamicState.Reduce | librecaptcha/gui.py:598-601 | a dynamic state reacts only to ReplaceTile |
| Gui.MultiFromChallenge | librecaptcha/gui.py:614-620 | a fresh multicaptcha state has nothing selected, with one flag per tile of the grid |
| Gui.NoneSelected | librecaptcha/gui.py:614-620 | a list of False flags of length `count` |
| Gui.MultiCaptchaState.ToggleTile | librecaptcha/gui.py:622-625 | flips only the given flag and keeps everything else |
| Gui.ToggleTwice | librecaptcha/gui.py:622-625 | toggling a tile twice is the identity |
| Gui.TrueIndicesMeaning | librecaptcha/gui.py:628-629 | `indices` is exactly the selected positions, ascending |
| Gui.AnySelectedIndices | librecaptcha/gui.py:628-633 | `any_selected` holds exactly when `indices` is non-empty |
| Gui.MultiCaptchaState.Reduce | librecaptcha/gui.py:641-646 | SelectTile toggles, SetNextChallenge starts a fresh selection, and every other message is ignored |
| Gui.ReduceState | librecaptcha/gui.py:475-480 | SetState always replaces the state; a token or empty state ignores every other message; a dynamic state keeps its kind and ignores everything but ReplaceTile; a multicaptcha state keeps its kind |
| Gui.ReduceConsistent | librecaptcha/gui.py:475-480 | one reduction keeps the waiting count equal to the number of empty tiles |
| Gui.RunConsistent | librecaptcha/gui.py:575-601 | starting consistent, every message sequence keeps the waiting count equal to the number of empty tiles |
| Gui.Pres.VerifyLabel | librecaptcha/gui.py:735-738 | "Sk_ip" exactly for a multicaptcha with nothing selected, otherwise "Ver_ify" |
| Gui.Pres.Goal | librecaptcha/gui.py:692-723 | the formatted goal, a newline, then the challenge's note |
| Gui.PresOf | librecaptcha/gui.py:460-464 | a presentation exists exactly for the dynamic and multicaptcha states |
| Gui.Token | librecaptcha/gui.py:443-446 | a token exists exactly in the token state |
| Gui.FinishGate | librecaptcha/gui.py:502-509 | FinishChallenge submits exactly when verify is enabled (`num_waiting <= 0`), which for a consistent state means every tile is present |
| Gui.SelectTileWaits | librecaptcha/gui.py:511-524 | after blanking a selected tile, at least one tile is waiting, and in every dynamic state a later run of messages reaches (each installing only consistent states) verify stays disabled while that tile has no image |
| GoalFormat.UnescapeEscape | librecaptcha/gui.py:345-358 | `html.escape` is undone by unescaping, so no text is lost |
| GoalFormat.EscapeHasNoMarkup | librecaptcha/gui.py:345-358 | escaped text contains no `<`, `>`, `"` or `'` |
| GoalFormat.LastAt | librecaptcha/gui.py:345-358 | the last occurrence of a tag at or before a limit, as the greedy `.*` picks it |
| GoalFormat.GoalMatchSound | librecaptcha/gui.py:345-358 | a match splits the goal into prefix, `<strong>`, bold, `</strong>` and suffix |
| GoalFormat.GoalMatchComplete | librecaptcha/gui.py:345-358 | every such split of a single-line goal is matched, with the greedy prefix at least as long |
| GoalFormat.GreedyTags | librecaptcha/gui.py:345-358 | any pair of tags in order makes the pattern match, with the match's prefix ending no earlier |
| GoalFormat.PrefixLine | librecaptcha/gui.py:345-358 | `groups[0] and groups[0] + "\n"`: a newline is added only after a non-empty prefix |
| GoalFormat.FormatGoal | librecaptcha/gui.py:345-358 | no raw text gives the fallback; raw text without a match is `html.escape` of it, which unescapes to the raw text |
| GoalFormat.FormatGoalBold | librecaptcha/gui.py:345-358 | a matched goal becomes the escaped prefix line, the bold part in an xx-large span, and the escaped suffix, with none of the three holding markup and all three unescaping to the original text |
| GoalFormat.FormatGoalWithNote | librecaptcha/gui.py:361-362 | the formatted goal, a newline, and the note |
| TestServer.ChallengeTypeOf | test-server/server.py:169-175 | "dynamic" exactly at index -1, "multicaptcha" exactly at 0, none otherwise |
| TestServer.InitialImage | test-server/server.py:212-217 | an initial image exists exactly for a challenge type |
| TestServer.TileNumber | test-server/server.py:182-196 | `1 + (n-1) % 16` is in 1..16 and congruent to n |
| TestServer.TileNumberCycle | test-server/server.py:182-196 | the tile names run through tile1..tile16 and then repeat |
| TestServer.ReplacementName | test-server/server.py:182-196 | dynamic replacements are named tile1..tile16, and multicaptcha replacement n is `multi{n+1}` |
| TestServer.State.constructor | test-server/server.py:161-162 | a new server is in the reset state |
| TestServer.State.Reset | test-server/server.py:164-167 | `uvresp_index` -1, `dresp_num` 0 and no next image |
| TestServer.State.Reload | test-server/server.py:177-180 | resets then queues the "dynamic" image for a dynamic challenge |
| TestServer.State.ReplaceImage | test-server/server.py:182-196 | counts the replacement; with no challenge type it raises after counting; otherwise it names the next image and answers with `dresp-token-n` and `dresp-p-n` |
| TestServer.State.PayloadPath | test-server/server.py:198-203 | hands out `images/jpeg/<name>.jpg` once and clears it, and nothing when no image is pending |
| TestServer.State.UserVerify | test-server/server.py:205-209 | moves to the next challenge, resets the count and queues that type's first image; past the canned replies the lookup fails with the new state in place |
| TestServer.Session | test-server/server.py:160-217 | the walked session serves dynamic.jpg once, then tile1, multi1 and multi2, and ends with no image, no reply and a refused replacement |
| Legacy.LegacyRcSiteUrl | librecaptcha/librecaptcha.py:72-83 | refuses a missing scheme, then a disallowed scheme, then a missing hostname |
| Legacy.LegacyRcSiteUrlAgrees | librecaptcha/librecaptcha.py:72-83 | on success the older normaliser gives the same URL as the current one, and succeeds on the same inputs |
| Legacy.CheckOrderDiffers | librecaptcha/librecaptcha.py:72-83 | for `ftp` without a host the two versions report different errors |
| Legacy.ParseIndicesMeaning | librecaptcha/librecaptcha.py:126-137 | parsing fails exactly when a token is not an integer; otherwise each entry is its typed number minus 1 |
| Legacy.FirstAccepted | librecaptcha/librecaptcha.py:126-137 | the first input line whose numbers are all in range, or none when every line is rejected |
| Legacy.ReadIndices | librecaptcha/librecaptcha.py:126-137 | the loop returns the indices of the first accepted line, each in [0, max_index), and fails when input runs out |
| Legacy.FindChallengeGoal | librecaptcha/librecaptcha.py:431-449 | the same window search, with a case-sensitive `startswith("Select all ")`, and both tags removed from the result |
| Legacy.StartsSelectAllIsWord | librecaptcha/librecaptcha.py:431-449 | every goal the older search accepts is accepted by the newer one |
| Legacy.WordIsNotPrefix | librecaptcha/librecaptcha.py:431-449 | "Please select all cats" is accepted only by the newer search |
| Legacy.GetHeaders | librecaptcha/librecaptcha.py:460-464 | a non-empty dict is mutated in place and returned; otherwise a new dict; either way User-Agent is added only when absent |
| Legacy.LegacyGetParams | librecaptcha/librecaptcha.py:466-481 | with `api` on, `k` and `v` are overwritten unconditionally and everything else is kept |
| Legacy.LegacyPostParams | librecaptcha/librecaptcha.py:483-503 | with `api` on, `k` is overwritten unconditionally and everything else is kept |
| Legacy.LegacyPostData | librecaptcha/librecaptcha.py:483-503 | with `api` on, `v` is overwritten unconditionally in the form data, and everything else is kept |
| Legacy.OverwriteDiffers | librecaptcha/librecaptcha.py:466-471 | a caller's own `k` survives in the current client but is overwritten in the older one |
| Legacy.Classify | librecaptcha/librecaptcha.py:562-589 | "default" and any type other than dynamic/multicaptcha are refused; a known type succeeds exactly when `rresp[4]` and `rresp[1]` exist, yielding `pmeta` and the new token |
| Legacy.LegacyReCaptcha.StartChallenge | librecaptcha/librecaptcha.py:562-589 | a refused challenge leaves `current_token` alone; otherwise it becomes `rresp[1]` |
| Legacy.LegacyReCaptcha.SolveAll | librecaptcha/librecaptcha.py:545-553 | the loop's result is the solve run's; the final token is the `rresp[1]` of the last challenge classified (the solvers' own token writes are left out) |
| Legacy.SolveRunUnbound | librecaptcha/librecaptcha.py:545-553 | no first challenge leaves `uv_token` unbound |
| Legacy.SolveRunToken | librecaptcha/librecaptcha.py:545-553 | the token returned is the last verify outcome's, the first without a further rresp, and every earlier one asked for another challenge |
| UserAgents.Step | scripts/update_user_agents.py:48-57 | nothing changes once a result is set or for no data; the flag records the `plain-text` word before the description; a result is set only after the description, to a chunk starting with `Mozilla/` |
| UserAgents.RunWriteOnce | scripts/update_user_agents.py:49-50 | the result is write-once: later data changes nothing |
| UserAgents.FirstWhere | scripts/update_user_agents.py:48-57 | the first chunk from a position on with a property, or none |
| UserAgents.ParserResult | scripts/update_user_agents.py:53-57 | the result is the first `Mozilla/` chunk after the chunk holding the word `plain-text`, which itself is never taken |
| UserAgents.Parser.constructor | scripts/update_user_agents.py:42-46 | the parser starts with no description seen and no result |
| UserAgents.Parser.HandleData | scripts/update_user_agents.py:48-57 | the fields change as the handler step specifies |
| UserAgents.Parser.Feed | scripts/update_user_agents.py:42-57 | feeding chunks runs the handler over them in order |
| UserAgents.FirstLines | scripts/update_user_agents.py:62 | at most 30 lines of the stripped input |
| UserAgents.Keep | scripts/update_user_agents.py:60-68 | the filter never lengthens the list |
| UserAgents.GetAgents | scripts/update_user_agents.py:60-68 | the loop returns the non-mobile lines among the first 30 lines, at most 30 of them |
| UserAgents.KeepSubsequence | scripts/update_user_agents.py:60-68 | the agents are a subsequence of the lines, in input order |
| UserAgents.KeepSound | scripts/update_user_agents.py:65-66 | no kept line begins with the word iPhone, iPad or Android |
| UserAgents.KeepComplete | scripts/update_user_agents.py:65-66 | every line not beginning with one of those words is kept |
| UserAgents.ReprReadsBack | scripts/update_user_agents.py:74 | `repr(agent)` opens with its quote and reads back as a Python literal to exactly the agent |
| UserAgents.AgentLineReadsBack | scripts/update_user_agents.py:74 | each written line is four spaces, a literal that reads back as the agent, a comma and a newline |
| UserAgents.WriteAgents | scripts/update_user_agents.py:71-75 | the output is HEADER, one line per agent in order, then FOOTER |

## Left out
- HTTP traffic (`requests`, status checks, `get_rc_version`): the server is a `Transport` object that records requests and answers from a queue of replies. An empty queue stands for a failed request.
- JSON text parsing and `json.loads` are a function parameter; JSON has no floats, and object key order is not modelled. `json.dumps` (including `ChallengeGoal.fallback`) is a parameter. Only the compact integer-list texts the solvers send are written out.
- `urlparse`: the site URL arrives as a pre-parsed scheme, optional hostname and port, and an unreadable port is a variant of that record.
- The HTML tokenisation in `_request_first_token` is a parameter that maps the page to its token, if any.
- PIL images are abstract values with a width and a height; cropping is recorded as a box, not pixels. `draw_lines`, `draw_indices` and font metrics are not part of this model.
- `time.monotonic` and `time.sleep`: the clock readings are real-valued parameters (`sent_at`, `now`); `Recaptcha.DynamicSolver.FinalTimeout` takes one reading for all tiles.
- Threads, locks, GLib timeouts, GTK widgets, the `Gui` class, `load_css`, `gtk_run`, `SolverMiddleware` except its finish gate, and the `same_*` comparison methods and tile iterators of the presentations.
- `librecaptcha/cli.py`, `extract_strings.py`, `user_agents.py`, `__main__.py`, `typing.py` and `__init__.py`: console and process I/O, a foreign JavaScript parser, a constant table with `random.choice`, and packaging.
- `get_js_strings` and its cache file I/O: the string table is a constructor parameter. `get_testing_url` and the environment switch of the base URL are left out; the base URL is the constant.
- Debug printing, and the user-facing messages printed by the older client and the test server.
- The test server's `RequestHandler`, `HTTPServer` and `main`: the reply texts are named, not spelled out. Its global `STATE` is the `State` object itself.
- The older client's `DynamicSolver`/`MultiCaptchaSolver` `run` and drawing functions. `Legacy.LegacyReCaptcha.SolveAll` takes what each challenge's verify returns as a sequence of outcomes, and running out of outcomes is a transport error.
- Legacy.LegacyReCaptcha.SolveAll: the older solvers' `run` writes `current_token` again on each tile or image replacement; those writes are not modelled, so the final token it states is the last classified `rresp[1]`, not the one the last run leaves behind.
- The older client's `get`/`post` parameter handling is modelled as pure maps; only `get_headers`' mutation is an object (`HeaderDict`).
- Regular expressions are written out by hand: `\b` uses ASCII word characters, `re.I` uses ASCII case folding plus LATIN SMALL LETTER LONG S (U+017F) for `s`, and `\s` and `strip` use the whitespace of `str.isspace`.
- `html.escape` is modelled character by character for `& < > " '`.
- `UserAgents.ReprBody` escapes quotes, backslashes and ASCII control characters as Python does, but leaves other non-printable Unicode characters unescaped.
- `int()` in the older `read_indices` is applied to whitespace-split tokens and accepts an optional sign followed by ASCII digits; underscores and non-ASCII digits are not modelled.
- Recaptcha.DynamicSolver.SelectTile: when the tile request fails, the new state is stated to stay valid and to have sent the request, but the individual fields on that path are not all spelled out.
- Recaptcha.DynamicSolver.ReplaceTile: on a failed reply the token, `p` and payload request are not spelled out.
- Recaptcha.MultiCaptchaSolver.ReplaceImage: on a failed reply the token, `p` and `id` are not spelled out.
- Recaptcha.ReCaptcha.GetSolver: when only some of the four entries are present, which of the token and `p` were installed before the failure is not stated.
- Recaptcha.MultiCaptchaSolver.SelectIndices: when the image replacement or the next grid fails, the token, `p`, `id` and the requests after the first are not spelled out.
- UserAgents.Parser.Feed: the HTML parser splits the page's text into `handle_data` calls arbitrarily; the model takes that division as a given sequence of chunks.
- Recaptcha.Dimensions: rows and columns are accepted as JSON integers or booleans (Python's `bool` is an `int`). Any other value is refused when the grid is read, for the dynamic solver and for each multicaptcha grid (`MultiCaptchaSolver.ChallengeFor`, `NextGrid`). The program fails there only later, in the tile count or in the `//` of the tiling, or not at all.
