# textwell-mcp: a Dafny model of the tool-call dispatcher

textwell-mcp is an MCP (Model Context Protocol) server. It lets a client write
text into the Textwell app through Textwell's `textwell:///` URL scheme. This
project models three parts of it:

- **`TextwellServer`** (`server.dfy`, module `Server`). This is the server class
  in src/server.ts. It models:
  - the one-way `isConnected` flag and `ensureConnection`;
  - `run`, where the flag turns on once the transport connects;
  - the CallTool handler, with its `write-text` and `setup-textwell` cases and
    the `MethodNotFound` error for any other tool name;
  - the catch block, which logs a failure and rethrows the same error;
  - the in-class `executeUrlScheme`, which only logs;
  - the fixed replies.

  The class keeps every log message it sends, in order, in a `seq` field. Each
  method states how it changes that sequence.

  The pure function `Switch` specifies the handler's switch, and `Handled`
  specifies the handler after its connection check. `CallTool` is proved
  against `Handled`, and the lemmas about the handler are stated about these two
  functions.
- **URL building.** It is built on four encoders:
  - `Utf8`: UTF-8 encoding and decoding of Unicode scalar values.
  - `Percent`: percent-encoding per section 2.1 of RFC 3986, with the uppercase
    hex digits the producers write.
  - `UriEncoding`: `encodeURIComponent`, the Encode abstract operation of
    ECMA-262 (section 19.2.6.5).
  - `FormUrlencoded`: the application/x-www-form-urlencoded serializer of
    section 5.2 of the WHATWG URL Standard, which `URLSearchParams` stringifies
    with. It also holds a strict reference parser (`Parse`). That parser agrees
    with the parser of section 5.1 on every input it accepts, and rejects the
    inputs that section 5.1 would repair.

  The model proves that this strict reference parser (`Target`, `Query`,
  `Parse`) reads each URL the server builds back as exactly the fields put in.
- **`loadConfig` and `defaultConfig`** (`url_schemes.dfy`, module `UrlSchemes`).
  These come from src/config/url-schemes.ts. The object spread is modelled as a
  map union, and the optional `TEXTWELL_CONFIG` override as a parameter.
- **`TextBuffer`** (`text_buffer.dfy`, module `TextBuffer`). This is the class in
  src/textBuffer.ts. The clock that `new Date()` reads is a parameter of `Set`.

`wrappers.dfy` holds the `Option` and `Result` datatypes.

Where the code and its description differ, the model follows the code:

- A call on a server that is not connected fails with `InternalError`
  (-32603), "Server not connected". It logs nothing.
- `text` and `mode` are never validated. A mode that is not one of the three
  has no template: it gives "undefined" in the URL, or the text of an inherited
  `Object.prototype` member.
- Errors are rethrown unchanged.
- The write-text reply appends "d" to the mode literally, so mode `add` reads
  "addd".
- Calling a known tool without `arguments` throws the `TypeError` of
  destructuring. That error is logged and rethrown like any other.

## Model

| member | source | states |
|---|---|---|
| Server.TextwellServer.constructor | src/server.ts:10-12 | a new server is not connected and has logged nothing |
| Server.TextwellServer.EnsureConnection | src/server.ts:214-221 | fails with InternalError "Server not connected" exactly when the flag is off, and passes otherwise |
| Server.TextwellServer.Run | src/server.ts:223-238 | after a successful connect the flag is on and "Server started and ready" is logged; a connect failure is rethrown with the flag and the log unchanged; no method sets the flag back to false (every other method may modify only the log) |
| Server.TextwellServer.SendLog | src/server.ts:117-120 | one sendLoggingMessage appends exactly one message to the ordered log |
| Server.TextwellServer.ExecuteUrlScheme | src/server.ts:65-72 | re-checks the connection and then only logs "Would execute URL scheme: " + url; when not connected it throws and logs nothing |
| Server.TextwellServer.LogError | src/server.ts:206-212 | re-checks the connection and then logs "Error: " + message at error level |
| Server.TextwellServer.WriteText | src/server.ts:159-186 | no arguments gives the destructuring TypeError; otherwise it logs the mode (default "replace") and the URL of WriteTextUrl, and replies "Text has been " + mode + "d successfully" |
| Server.TextwellServer.SetupTextwell | src/server.ts:124-157 | no arguments gives the destructuring TypeError; otherwise it logs the bridge URL and the importAction URL, and replies "Textwell setup completed successfully" |
| Server.Switch | src/server.ts:123-193 | the switch succeeds exactly for the two tool names with arguments present; a failing case logs nothing; every message it logs is at info level; UnknownToolRejected, AbsentArgumentsRethrown, SuccessLogsTool, WriteTextAlwaysSucceeds and SetupAlwaysSucceeds state its cases in full |
| Server.Handled | src/server.ts:116-202 | the handler returns the switch's own result, so errors are rethrown unchanged; its first message is "Executing tool: " + name; it adds one message to the switch's, plus one more on a failure; FailureLoggedLast states which message that is |
| Server.TextwellServer.Dispatch | src/server.ts:123-193 | on a connected server, the result and the messages logged are those of the switch: the two tools, or MethodNotFound "Unknown tool: " + name |
| Server.TextwellServer.CallTool | src/server.ts:113-203 | not connected: fails with InternalError and logs nothing, whatever the tool; connected: logs "Executing tool: " + name, runs the switch, and on a failure logs "Tool execution failed: " + the error's message and rethrows that same error |
| Server.UnknownToolRejected | src/server.ts:188-201 | an unknown name is rejected with MethodNotFound "Unknown tool: " + name, whose message is "MCP error -32601: Unknown tool: " + name; the log is the Executing message, then that error |
| Server.AbsentArgumentsRethrown | src/server.ts:125 | a known tool called without arguments throws the destructuring TypeError; the handler logs it and rethrows it |
| Server.FailureLoggedLast | src/server.ts:116-120 | every handled call logs "Executing tool" first; the last message has error level exactly when the call fails, and then carries the rethrown error's message |
| Server.SuccessLogsTool | src/server.ts:149 | a successful call is one of the two tools with arguments; it logs exactly three messages, the last being "Would execute URL scheme: " + the write-text URL of the mode and text, or the setup URL of the bridge URL |
| Server.WriteTextAlwaysSucceeds | src/server.ts:159-186 | conversely, write-text with arguments always succeeds on a connected server, replying "Text has been " + mode + "d successfully" and logging "Executing tool: write-text", "Writing text with mode: " + mode and "Would execute URL scheme: " + the URL, in that order |
| Server.SetupAlwaysSucceeds | src/server.ts:124-157 | setup-textwell with arguments always succeeds on a connected server, replying "Textwell setup completed successfully" and logging the call, the bridge URL and the setup URL, in that order |
| Server.HelloInsert | src/server.ts:171-177 | text "hello" in mode insert gives the URL "textwell:///insert?text=hello" |
| Server.OmittedModeReplaces | src/server.ts:160-177 | with no mode argument the URL is "textwell:///replace?text=" + encodeURIComponent(text) |
| Server.AddModeMessage | src/server.ts:183 | the reply for mode "add" is "Text has been addd successfully" |
| Server.SchemeFor | src/server.ts:171-177 | replace, insert and add map to "textwell:///" + the mode; a mode that is neither one of these nor an inherited Object.prototype member gives "undefined"; SchemeHasNoQuery states that no result holds a '?' |
| Server.WriteTextUrl | src/server.ts:177 | the URL starts with the mode's template, '?' and "text=", and is at least that long plus the text; WriteTextUrlParses, HelloInsert and OmittedModeReplaces state the rest |
| Server.ActionSource | src/server.ts:133-140 | the script starts with the fixed head and holds the bridge URL verbatim right after it, and the rest is exactly the fixed tail (the `/?text=${text}` URL template and the closing of the script) |
| Server.SetupUrl | src/server.ts:142-147 | the URL starts with "textwell:///importAction?"; SetupUrlSerializesFields and SetupUrlParses state the rest |
| Server.SchemeHasNoQuery | src/server.ts:171-177 | the text `schemes[mode]` gives for any mode (template, inherited member, or undefined) holds no '?' |
| Server.WriteTextUrlParses | src/server.ts:177 | the write-text URL's target is the mode's template and its query is exactly "text=" + encodeURIComponent(text); the strict reference parser reads it back as the single field text = the text given, whatever '&', '=', '#', '?', '/' or spaces it holds |
| Server.TextQueryParses | src/server.ts:177 | the query "text=" + encodeURIComponent(text) holds no '#' and parses back to the one field (text, text) |
| Server.TitleEncoding | src/server.ts:143 | the title "Send to MCP" serializes as "Send+to+MCP" |
| Server.DescriptionEncoding | src/server.ts:146 | the description "Send text to MCP server" serializes as "Send+text+to+MCP+server" |
| Server.SetupUrlSerializesFields | src/server.ts:142-147 | the setup URL is "textwell:///importAction?" followed by the URLSearchParams serialization of title, source, iconTitle and desc, in that order |
| Server.SetupUrlParses | src/server.ts:133-147 | the setup URL targets importAction, and the strict reference parser reads its query back as the four fields in order, with the script holding the bridge URL verbatim as source |
| UriEncoding.EncodeURIComponent | src/server.ts:177 | the result is a run of unreserved characters and %HH triples with uppercase hex digits, at least as long as the text and at most twelve times as long |
| UriEncoding.EncodedAlphabet | src/server.ts:177 | every character of an encoded component is an ASCII letter, a digit, one of -_.!~*'() or '%'; so none is '&', '=', '#', '+', '?', '/' or a space |
| UriEncoding.EncodeURIComponentBytewise | src/server.ts:177 | encodeURIComponent is the UTF-8 encoding percent-encoded byte by byte, keeping exactly the unreserved marks of ECMA-262 |
| UriEncoding.DecodeEncodeComponent | src/server.ts:177 | percent-decoding and then UTF-8-decoding the result gives back the original text |
| UriEncoding.EncodeURIComponentInjective | src/server.ts:177 | two different texts never encode to the same component |
| FormUrlencoded.FormEncode | src/server.ts:142-147 | the form encoding of a value holds no '&', '=' or '#', so it cannot end or split its field |
| FormUrlencoded.FormEncodePlain | src/server.ts:142-147 | text made only of characters the form encoder keeps, plus spaces, is written unchanged except that each space becomes '+' |
| FormUrlencoded.ParseSerialize | src/server.ts:142-147 | parsing a serialized list of name/value pairs gives the same pairs in the same order |
| FormUrlencoded.SerializeHasNoHash | src/server.ts:142-147 | a serialized list of pairs holds no '#', so it ends up in the URL's query whole |
| Percent.DecodeEncodeBytes | src/server.ts:177 | percent-decoding a percent-encoded byte string gives back the bytes, for both the encodeURIComponent set and the form-urlencoded set ('+' read as a space in the latter) |
| Utf8.DecodeEncode | src/server.ts:177 | UTF-8-decoding the encoding of a text gives back the text |
| Utf8.EncodeDecode | src/server.ts:177 | a byte string that decodes to a text is exactly that text's encoding, so the decoder accepts no other bytes |
| UrlSchemes.ToObject | src/config/url-schemes.ts:4-12 | a configuration object has exactly the two keys paths and timeout |
| UrlSchemes.AsConfigToObject | src/config/url-schemes.ts:4-12 | reading a configuration object back as a UrlSchemeConfig gives the configuration it came from |
| UrlSchemes.Merge | src/config/url-schemes.ts:31-34 | the spread has the keys of both objects; the override's value wins on every key it has, and the default's value is kept on every other key |
| UrlSchemes.LoadConfig | src/config/url-schemes.ts:25-39 | the result always has every key of defaultConfig; a parsed override's keys and values are all in it; the result is defaultConfig itself, and a warning is printed, exactly when the override cannot be parsed; NoOverrideGivesDefaults, OverrideMerge, PartialPathsOverride and MalformedFallsBack state the cases in full |
| UrlSchemes.NoOverrideGivesDefaults | src/config/url-schemes.ts:14-34 | with no override, loadConfig returns a fresh copy equal to defaultConfig, with the replace, insert, add and importAction templates and timeout 5000, and prints nothing |
| UrlSchemes.OverrideMerge | src/config/url-schemes.ts:31-34 | with a parsed override, every key of the override replaces the default, the defaults of keys it lacks are kept, extra keys are copied in, and nothing is printed |
| UrlSchemes.PartialPathsOverride | src/config/url-schemes.ts:31-34 | the merge is shallow: a paths override without replace replaces the whole paths record, so the result keeps the default timeout but is no longer a valid UrlSchemeConfig |
| UrlSchemes.MalformedFallsBack | src/config/url-schemes.ts:35-38 | an override JSON.parse rejects yields defaultConfig itself and one warning, and no exception |
| TextBuffer.TextBuffer.constructor | src/textBuffer.ts:2-3 | a new buffer holds "" and no time stamp |
| TextBuffer.TextBuffer.Set | src/textBuffer.ts:5-8 | the buffer holds the text given, stamped with the current time |
| TextBuffer.TextBuffer.Get | src/textBuffer.ts:10-15 | returns the current text and time stamp and changes nothing |
| TextBuffer.TextBuffer.Clear | src/textBuffer.ts:17-20 | the buffer holds "" and no time stamp, whatever it held before |
| TextBuffer.TextBuffer.IsEmpty | src/textBuffer.ts:22-24 | true exactly when the current text is "", and changes nothing |
| TextBuffer.TextBuffer.GetLastUpdatedFormatted | src/textBuffer.ts:26-31 | absent exactly when there is no time stamp, otherwise that time stamp; changes nothing |
| TextBuffer.FreshBufferIsEmpty | src/textBuffer.ts:1-3 | a fresh buffer reads back as ("", null) and is empty |
| TextBuffer.SetThenGet | src/textBuffer.ts:5-31 | after set(t), get() is (t, now) and the stamp is present; the buffer is empty exactly when t is "", so set("") leaves it empty yet stamped |
| TextBuffer.ClearTwice | src/textBuffer.ts:17-24 | clearing twice leaves the same state as clearing once: ("", null), and empty |

## Left out

- src/utils/url-scheme-executor.ts is not part of this model. It runs `open` as a child process and races it against a timer, which is operating-system I/O and concurrency. The server never calls it.
- src/config/constants.ts is not part of this model. It holds constants only, and the server does not use them.
- The MCP library's plumbing is left out: the `Server` object, the stdio transport, handler registration, the capabilities block and the ListTools schema (src/server.ts:15-47, 75-111). The handler is modelled as a method that takes a tool name and an optional argument map.
- Process behaviour is left out: `server.onerror`, the SIGINT handler, `process.exit`, and the console and stderr output of `run` and of the top-level call (src/server.ts:52-62, 232-246).
- Promises and `await` are not modelled. Each call runs to completion, in order. A failure of `sendLoggingMessage` itself is not modelled either.
- McpError's message format, "MCP error " + code + ": " + detail, is taken from the protocol library, which is not part of this model. So are V8's wording of the destructuring TypeError and the text it makes of native functions.
- Server.Switch: describes a connected server only. CallTool reaches the switch only after the connection check, and the flag never goes back to false, so the re-check in `executeUrlScheme` always passes there.
- Server.TextwellServer.WriteText: takes argument values as the strings JavaScript makes of them. How a non-string JSON value is converted is not modelled. A missing `text` is taken as the string "undefined".
- Server.TextwellServer.SetupTextwell: takes `bridgeUrl` as the string JavaScript makes of it, in the same way. A missing `bridgeUrl` is taken as the string "undefined", and how a non-string JSON value is converted is not modelled.
- FormUrlencoded.Parse: the reference parser is stricter than the parser of section 5.1 of the WHATWG URL Standard. It rejects a '%' without two hex digits after it, any non-ASCII character and invalid UTF-8. Section 5.1 would keep the '%', UTF-8-encode the input first and write U+FFFD. Server.Target and Server.Query split at '?' and '#' only. They do not check that the URL is valid: for a mode with no template the "URL" is `undefined?text=…`, which has no scheme.
- Lone UTF-16 surrogates are not modelled. Texts are sequences of Unicode scalar values, so the `URIError` that `encodeURIComponent` throws for them, and the U+FFFD that `URLSearchParams` writes, do not arise.
- UrlSchemes.LoadConfig: reading `process.env.TEXTWELL_CONFIG` and running `JSON.parse` (src/config/url-schemes.ts:27-29) are left out. The override is a parameter: absent, rejected by the parser, or the parsed value's own enumerable properties.
- UrlSchemes.Merge: objects are maps, so property order is not modelled. Neither is the fact that the spread shares the nested `paths` object with `defaultConfig`.
- TextBuffer.TextBuffer.GetLastUpdatedFormatted: returns the time stamp itself, not its ISO-8601 text. `Date` and `toISOString` are left out, and the clock is a parameter of `Set`.
