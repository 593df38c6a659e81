/**
 * The tool-call dispatcher of src/server.ts (class TextwellServer): the
 * one-way connection flag, the CallTool handler's switch over the tool name, the
 * URLs it builds for the Textwell app, the replies it returns and the log
 * messages it sends, in order.
 */
module Server {
  import opened Wrappers
  import opened UriEncoding
  import opened FormUrlencoded
  import Percent

  /** The logging levels the server declares it supports; the handler itself sends only Info and Error. */
  datatype Level = Info | Warning | Error

  /** One sendLoggingMessage call. */
  datatype LogMessage = LogMessage(level: Level, data: string)

  datatype ErrorCode = MethodNotFound | InternalError

  /** The JSON-RPC number of an error code, as text. */
  function CodeText(code: ErrorCode): string {
    match code
    case MethodNotFound => "-32601"
    case InternalError => "-32603"
  }

  /**
   * What the handler throws: an McpError of the protocol library, or the
   * TypeError a destructuring assignment throws when `arguments` is absent.
   */
  datatype Thrown = McpError(code: ErrorCode, detail: string) | TypeError(message: string)

  /** Error.message; the McpError constructor prefixes its code. */
  function Message(e: Thrown): string {
    match e
    case McpError(code, detail) => "MCP error " + CodeText(code) + ": " + detail
    case TypeError(m) => m
  }

  const NotConnected: Thrown := McpError(InternalError, "Server not connected")

  datatype Content = TextContent(text: string)

  datatype ToolResponse = ToolResponse(content: seq<Content>)

  /**
   * A tool call's arguments, each as the string JavaScript makes of it (every
   * use of `text`, `mode` and `bridgeUrl` converts it to a string); a missing
   * key is `undefined`.
   */
  type Arguments = map<string, string>

  /** The message V8 gives the TypeError of destructuring `property` out of an absent `arguments`. */
  function DestructureError(property: string): Thrown {
    TypeError("Cannot destructure property '" + property + "' of 'request.params.arguments' as it is undefined.")
  }

  /** `text` after destructuring; `encodeURIComponent(undefined)` encodes "undefined". */
  function TextArgument(args: Arguments): string {
    if "text" in args then args["text"] else "undefined"
  }

  /** `mode` after destructuring with its default. */
  function ModeArgument(args: Arguments): string {
    if "mode" in args then args["mode"] else "replace"
  }

  function BridgeUrlArgument(args: Arguments): string {
    if "bridgeUrl" in args then args["bridgeUrl"] else "undefined"
  }

  /** The members every object inherits from Object.prototype that are functions. */
  const ObjectPrototypeMethods: set<string> := {
    "constructor", "hasOwnProperty", "isPrototypeOf", "propertyIsEnumerable", "toString",
    "valueOf", "toLocaleString", "__defineGetter__", "__defineSetter__", "__lookupGetter__",
    "__lookupSetter__"
  }

  /**
   * `${schemes[mode]}`: the template of a known mode, the text V8 makes of an
   * inherited Object.prototype member, and "undefined" for any other mode.
   */
  function SchemeFor(mode: string): (r: string)
    ensures mode in {"replace", "insert", "add"} ==> r == "textwell:///" + mode
    ensures mode !in {"replace", "insert", "add", "__proto__"} && mode !in ObjectPrototypeMethods ==> r == "undefined"
  {
    if mode == "replace" then "textwell:///replace"
    else if mode == "insert" then "textwell:///insert"
    else if mode == "add" then "textwell:///add"
    else if mode == "__proto__" then "[object Object]"
    else if mode == "constructor" then "function Object() { [native code] }"
    else if mode in ObjectPrototypeMethods then "function " + mode + "() { [native code] }"
    else "undefined"
  }

  /** The URL write-text opens. */
  function WriteTextUrl(mode: string, text: string): (r: string)
    ensures SchemeFor(mode) + "?" + TextParameter + "=" <= r
    ensures |r| >= |SchemeFor(mode)| + 6 + |text|
  {
    SchemeFor(mode) + "?" + TextParameter + "=" + EncodeURIComponent(text)
  }

  const TextParameter: string := "text"

  /** The reply of a successful write-text: the mode with "d" appended, as written. */
  function WrittenMessage(mode: string): string {
    "Text has been " + mode + "d successfully"
  }

  const SetupMessage: string := "Textwell setup completed successfully"

  /** The script of the Textwell action setup-textwell installs; `bridgeUrl` is spliced in verbatim. */
  function ActionSource(bridgeUrl: string): (r: string)
    ensures ActionHead <= r && |r| == |ActionHead| + |bridgeUrl| + |ActionTail|
    ensures r[|ActionHead|..|ActionHead| + |bridgeUrl|] == bridgeUrl
    ensures r[|ActionHead| + |bridgeUrl|..] == ActionTail
  {
    ActionHead + bridgeUrl + ActionTail
  }

  /** The script's text before and after the bridge URL, line breaks and indentation included. */
  const ActionHead: string :=
    "\n              (function() {\n                const text = encodeURIComponent(T.text);\n"
    + "                T('urlScheme', {\n                  url: `"
  const ActionTail: string := "/?text=${text}`\n                });\n              })();\n            "

  /** The fields of the URLSearchParams object, in insertion order. */
  function SetupFields(bridgeUrl: string): seq<(string, string)> {
    [(TitleName, Title), (SourceName, ActionSource(bridgeUrl)), (IconName, Icon), (DescName, Desc)]
  }

  const TitleName: string := "title"
  const Title: string := "Send to MCP"
  const SourceName: string := "source"
  const IconName: string := "iconTitle"
  const Icon: string := "upload"
  const DescName: string := "desc"
  const Desc: string := "Send text to MCP server"

  /** The title and the description as the form serializer writes them. */
  const EncodedTitle: string := "Send+to+MCP"
  const EncodedDesc: string := "Send+text+to+MCP+server"

  const ImportActionScheme: string := "textwell:///importAction"

  /**
   * The URL setup-textwell opens: the importAction template, '?', and the
   * four fields serialized; only the script needs percent-encoding.
   * SetupUrlSerializesFields shows this is the URLSearchParams serialization.
   */
  function SetupUrl(bridgeUrl: string): (r: string)
    ensures ImportActionScheme + "?" <= r
  {
    SetupUrlHead + FormEncode(ActionSource(bridgeUrl)) + SetupUrlTail
  }

  const SetupUrlHead: string := ImportActionScheme + "?" + TitleName + "=" + EncodedTitle + "&" + SourceName + "="
  const SetupUrlTail: string := "&" + IconName + "=" + Icon + "&" + DescName + "=" + EncodedDesc

  /** The part of a URL before its first '?'. */
  function Target(url: string): string {
    url[..IndexOf(url, '?')]
  }

  /** The query of a URL: after the first '?', up to the first '#' after it. */
  function Query(url: string): string {
    var i := IndexOf(url, '?');
    var after := if i < |url| then url[i + 1..] else [];
    after[..IndexOf(after, '#')]
  }

  /** The title and the description with their spaces written as '+'. */
  lemma TitleEncoding()
    ensures FormEncode(Title) == EncodedTitle
  {
    TitleAsPlus();
    TitlePlus();
  }

  lemma TitleAsPlus()
    ensures FormEncode(Title) == SpacesAsPlus(Title)
  {
    FormEncodePlain(Title);
  }

  lemma TitlePlus()
    ensures SpacesAsPlus(Title) == EncodedTitle
  {
  }

  lemma DescriptionEncoding()
    ensures FormEncode(Desc) == EncodedDesc
  {
    DescriptionAsPlus();
    DescriptionPlus();
  }

  lemma DescriptionAsPlus()
    ensures FormEncode(Desc) == SpacesAsPlus(Desc)
  {
    FormEncodePlain(Desc);
  }

  lemma DescriptionPlus()
    ensures SpacesAsPlus(Desc) == EncodedDesc
  {
  }

  /** The field names and the icon title hold only form-safe characters, so they are written unchanged. */
  lemma TitleNameSafe()
    ensures FormEncode(TitleName) == TitleName
  {
    FormEncodeSafe(TitleName);
  }

  lemma SourceNameSafe()
    ensures FormEncode(SourceName) == SourceName
  {
    FormEncodeSafe(SourceName);
  }

  lemma IconNameSafe()
    ensures FormEncode(IconName) == IconName
  {
    FormEncodeSafe(IconName);
  }

  lemma IconSafe()
    ensures FormEncode(Icon) == Icon
  {
    FormEncodeSafe(Icon);
  }

  lemma DescNameSafe()
    ensures FormEncode(DescName) == DescName
  {
    FormEncodeSafe(DescName);
  }

  lemma TitlePair()
    ensures SerializePair(TitleName, Title) == TitleName + "=" + EncodedTitle
  {
    TitleNameSafe();
    TitleEncoding();
  }

  lemma SourcePair(bridgeUrl: string)
    ensures SerializePair(SourceName, ActionSource(bridgeUrl)) == SourceName + "=" + FormEncode(ActionSource(bridgeUrl))
  {
    SourceNameSafe();
  }

  lemma IconPair()
    ensures SerializePair(IconName, Icon) == IconName + "=" + Icon
  {
    IconNameSafe();
    IconSafe();
  }

  lemma DescPair()
    ensures SerializePair(DescName, Desc) == DescName + "=" + EncodedDesc
  {
    DescNameSafe();
    DescriptionEncoding();
  }

  /**
   * Regrouping the pieces of the setup URL. This lemma, JoinQuery, Join4,
   * Regroup and Percent.ConcatAssoc each state one instance of the
   * associativity of concatenation. They are stated over variables so that
   * the proofs that use them never unfold the string literals involved, which
   * keeps those proofs cheap for the solver.
   */
  lemma JoinFields(q: string, n1: string, e1: string, n2: string, x: string, n3: string, e3: string, n4: string, e4: string)
    ensures q + n1 + "=" + e1 + "&" + n2 + "=" + x + ("&" + n3 + "=" + e3 + "&" + n4 + "=" + e4)
         == q + ((n1 + "=" + e1) + "&" + ((n2 + "=" + x) + "&" + ((n3 + "=" + e3) + "&" + (n4 + "=" + e4))))
  {
  }

  /** The setup URL is the importAction template, '?', and the URLSearchParams serialization of the four fields. */
  lemma SetupUrlSerializesFields(bridgeUrl: string)
    ensures SetupUrl(bridgeUrl) == ImportActionScheme + "?" + Serialize(SetupFields(bridgeUrl))
  {
    var source := ActionSource(bridgeUrl);
    TitlePair();
    SourcePair(bridgeUrl);
    IconPair();
    DescPair();
    SerializeFour((TitleName, Title), (SourceName, source), (IconName, Icon), (DescName, Desc));
    JoinFields(ImportActionScheme + "?", TitleName, EncodedTitle, SourceName, FormEncode(source),
               IconName, Icon, DescName, EncodedDesc);
  }

  /** A URL split at its first '?' when the part before it holds none and the query holds no '#'. */
  lemma UrlSplits(scheme: string, query: string)
    requires '?' !in scheme && '#' !in query
    ensures Target(scheme + "?" + query) == scheme && Query(scheme + "?" + query) == query
  {
    var url := scheme + "?" + query;
    assert url == scheme + ['?'] + query;
    IndexOfFirst(scheme, '?', query);
    assert url[|scheme| + 1..] == query;
    IndexOfAbsent(query, '#');
    assert query[..|query|] == query;
  }

  lemma JoinQuery(a: string, b: string, c: string, d: string, e: string)
    ensures a + b + c + d + e == a + b + (c + d + e)
  {
  }

  /** No template, and no text JavaScript makes of an inherited member, holds a '?'. */
  lemma SchemeHasNoQuery(mode: string)
    ensures '?' !in SchemeFor(mode)
  {
    if mode in {"replace", "insert", "add", "__proto__", "constructor"} {
      TemplatesHaveNoQuery();
    } else if mode in ObjectPrototypeMethods {
      PrototypeNamesHaveNoQuery(mode);
      NativeCodeHasNoQuery(mode);
    }
  }

  /** The fixed texts of SchemeFor, gathered from two smaller lemmas so that each literal is checked in a small context. */
  lemma TemplatesHaveNoQuery()
    ensures '?' !in "textwell:///replace" && '?' !in "textwell:///insert" && '?' !in "textwell:///add"
    ensures '?' !in "[object Object]" && '?' !in "function Object() { [native code] }"
  {
    KnownTemplatesHaveNoQuery();
    InheritedHaveNoQuery();
  }

  lemma KnownTemplatesHaveNoQuery()
    ensures '?' !in "textwell:///replace" && '?' !in "textwell:///insert" && '?' !in "textwell:///add"
  {
  }

  lemma InheritedHaveNoQuery()
    ensures '?' !in "[object Object]" && '?' !in "function Object() { [native code] }"
  {
  }

  lemma PrototypeNamesHaveNoQuery(name: string)
    requires name in ObjectPrototypeMethods
    ensures '?' !in name
  {
  }

  lemma NativeCodeHasNoQuery(name: string)
    requires '?' !in name
    ensures '?' !in "function " + name + "() { [native code] }"
  {
    var s := "function " + name + "() { [native code] }";
    forall i | 0 <= i < |s|
      ensures s[i] != '?'
    {
      if 9 <= i < 9 + |name| {
        assert s[i] == name[i - 9];
      }
    }
  }

  /** The query of write-text, read back by a URL parser: one field, "text", holding the text given. */
  lemma TextQueryParses(text: string)
    ensures '#' !in TextParameter + "=" + EncodeURIComponent(text)
    ensures Parse(TextParameter + "=" + EncodeURIComponent(text)) == Some([(TextParameter, text)])
  {
    var encoded := EncodeURIComponent(text);
    var query := TextParameter + "=" + encoded;
    EncodedAlphabet(encoded);
    assert '#' !in query && '&' !in query by {
      forall i | 0 <= i < |query|
        ensures query[i] != '#' && query[i] != '&'
      {
        if i >= 5 {
          assert query[i] == encoded[i - 5];
        }
      }
    }
    IndexOfAbsent(query, '&');
    assert query[..|query|] == query;
    assert Parse([]) == Some([]);
    TextFieldParses(encoded, text);
    assert [(TextParameter, text)] + [] == [(TextParameter, text)];
  }

  lemma TextFieldParses(encoded: string, text: string)
    requires encoded == EncodeURIComponent(text)
    ensures ParsePiece(TextParameter + "=" + encoded) == Some((TextParameter, text))
  {
    var piece := TextParameter + "=" + encoded;
    EncodedAlphabet(encoded);
    assert '=' !in TextParameter;
    assert piece == TextParameter + ['='] + encoded;
    IndexOfFirst(TextParameter, '=', encoded);
    assert piece[..|TextParameter|] == TextParameter && piece[|TextParameter| + 1..] == encoded;
    TextParameterDecodes();
    assert '+' !in encoded;
    Percent.DecodeBytesWithoutPlus(encoded);
    DecodeEncodeComponent(text);
  }

  lemma TextParameterDecodes()
    ensures DecodeField(TextParameter) == Some(TextParameter)
  {
    TextParameterEncodes();
    DecodeFormEncode(TextParameter);
  }

  lemma TextParameterEncodes()
    ensures FormEncode(TextParameter) == TextParameter
  {
    FormEncodeSafe(TextParameter);
  }

  /**
   * write-text opens its mode's template with a query of exactly one field,
   * "text", which a URL parser reads back as the text given.
   */
  lemma WriteTextUrlParses(mode: string, text: string)
    ensures Target(WriteTextUrl(mode, text)) == SchemeFor(mode)
    ensures Query(WriteTextUrl(mode, text)) == TextParameter + "=" + EncodeURIComponent(text)
    ensures Parse(Query(WriteTextUrl(mode, text))) == Some([(TextParameter, text)])
  {
    var query := TextParameter + "=" + EncodeURIComponent(text);
    SchemeHasNoQuery(mode);
    TextQueryParses(text);
    JoinQuery(SchemeFor(mode), "?", TextParameter, "=", EncodeURIComponent(text));
    UrlSplits(SchemeFor(mode), query);
  }

  /**
   * setup-textwell opens the importAction template with a query that a URL
   * parser reads back as the four fields, in order.
   */
  lemma SetupUrlParses(bridgeUrl: string)
    ensures Target(SetupUrl(bridgeUrl)) == ImportActionScheme
    ensures Parse(Query(SetupUrl(bridgeUrl))) == Some(SetupFields(bridgeUrl))
  {
    SetupUrlSerializesFields(bridgeUrl);
    ImportActionHasNoQuery();
    SerializeHasNoHash(SetupFields(bridgeUrl));
    UrlSplits(ImportActionScheme, Serialize(SetupFields(bridgeUrl)));
    ParseSerialize(SetupFields(bridgeUrl));
  }

  /** The worked example: "hello" in insert mode. */
  lemma HelloInsert()
    ensures WriteTextUrl("insert", "hello") == "textwell:///insert?text=hello"
  {
    assert EncodeURIComponent("hello") == "hello";
  }

  /** Without a mode argument, write-text targets the replace template. */
  lemma OmittedModeReplaces(args: Arguments)
    requires "mode" !in args
    ensures WriteTextUrl(ModeArgument(args), TextArgument(args))
         == "textwell:///replace?text=" + EncodeURIComponent(TextArgument(args))
  {
  }

  lemma ImportActionHasNoQuery()
    ensures '?' !in ImportActionScheme
  {
  }

  /** The result of a handler step and the messages it logged, in order. */
  datatype Outcome = Outcome(result: Result<ToolResponse, Thrown>, logs: seq<LogMessage>)

  /**
   * The switch on the tool name, on a connected server (the connection never
   * drops, so the re-check in executeUrlScheme passes).
   */
  function Switch(name: string, arguments: Option<Arguments>): (o: Outcome)
    ensures o.result.Success? <==> (name == "write-text" || name == "setup-textwell") && arguments.Some?
    ensures o.result.Failure? ==> o.logs == []
    ensures forall m :: m in o.logs ==> m.level == Info
  {
    if name == "write-text" then
      if arguments.None? then Outcome(Failure(DestructureError("text")), [])
      else
        var mode := ModeArgument(arguments.value);
        Outcome(Success(ToolResponse([TextContent(WrittenMessage(mode))])),
                [LogMessage(Info, "Writing text with mode: " + mode),
                 LogMessage(Info, "Would execute URL scheme: " + WriteTextUrl(mode, TextArgument(arguments.value)))])
    else if name == "setup-textwell" then
      if arguments.None? then Outcome(Failure(DestructureError("bridgeUrl")), [])
      else
        var bridgeUrl := BridgeUrlArgument(arguments.value);
        Outcome(Success(ToolResponse([TextContent(SetupMessage)])),
                [LogMessage(Info, "Setting up Textwell with bridge URL: " + bridgeUrl),
                 LogMessage(Info, "Would execute URL scheme: " + SetupUrl(bridgeUrl))])
    else
      Outcome(Failure(McpError(MethodNotFound, "Unknown tool: " + name)), [])
  }

  /**
   * The handler after the connection check: it logs the call, runs the switch,
   * and on a failure logs it and rethrows the same error.
   */
  function Handled(name: string, arguments: Option<Arguments>): (o: Outcome)
    ensures o.result == Switch(name, arguments).result
    ensures o.logs != [] && o.logs[0] == LogMessage(Info, "Executing tool: " + name)
    ensures |o.logs| == |Switch(name, arguments).logs| + if o.result.Failure? then 2 else 1
  {
    var inner := Switch(name, arguments);
    var failed := if inner.result.Failure? then [LogMessage(Error, "Tool execution failed: " + Message(inner.result.error))] else [];
    Outcome(inner.result, [LogMessage(Info, "Executing tool: " + name)] + inner.logs + failed)
  }

  /** A tool name other than the two is rejected with MethodNotFound, and the failure is logged. */
  lemma UnknownToolRejected(name: string, arguments: Option<Arguments>)
    requires name != "write-text" && name != "setup-textwell"
    ensures Handled(name, arguments).result == Failure(McpError(MethodNotFound, "Unknown tool: " + name))
    ensures Handled(name, arguments).logs
         == [LogMessage(Info, "Executing tool: " + name),
             LogMessage(Error, "Tool execution failed: " + Message(McpError(MethodNotFound, "Unknown tool: " + name)))]
    ensures Message(McpError(MethodNotFound, "Unknown tool: " + name)) == "MCP error -32601: Unknown tool: " + name
  {
    UnknownToolPrefix();
    Join4("MCP error ", CodeText(MethodNotFound), ": ", "Unknown tool: ", name);
  }

  lemma UnknownToolPrefix()
    ensures "MCP error " + CodeText(MethodNotFound) + ": " + "Unknown tool: " == "MCP error -32601: Unknown tool: "
  {
  }

  lemma Join4(a: string, b: string, c: string, d: string, e: string)
    ensures a + b + c + (d + e) == (a + b + c + d) + e
  {
  }

  /** A known tool called without arguments fails on destructuring, and the failure is logged. */
  lemma AbsentArgumentsRethrown(name: string)
    requires name == "write-text" || name == "setup-textwell"
    ensures var property := if name == "write-text" then "text" else "bridgeUrl";
      var message := "Cannot destructure property '" + property + "' of 'request.params.arguments' as it is undefined.";
      && Handled(name, None).result == Failure(TypeError(message))
      && Handled(name, None).logs
         == [LogMessage(Info, "Executing tool: " + name), LogMessage(Error, "Tool execution failed: " + message)]
  {
  }

  /**
   * Every handled call is logged first; the last message is an error exactly
   * when the call fails, and it carries the message of the error rethrown.
   */
  lemma FailureLoggedLast(name: string, arguments: Option<Arguments>)
    ensures var h := Handled(name, arguments);
      && h.logs[0] == LogMessage(Info, "Executing tool: " + name)
      && (h.logs[|h.logs| - 1].level == Error <==> h.result.Failure?)
      && (h.result.Failure? ==> h.logs[|h.logs| - 1].data == "Tool execution failed: " + Message(h.result.error))
  {
    var inner := Switch(name, arguments);
    var h := Handled(name, arguments);
    var failed := if inner.result.Failure? then [LogMessage(Error, "Tool execution failed: " + Message(inner.result.error))] else [];
    var executing := LogMessage(Info, "Executing tool: " + name);
    assert h.logs == [executing] + inner.logs + failed;
    assert inner.logs == [] || inner.logs[|inner.logs| - 1].level == Info;
    if inner.result.Failure? {
      assert h.logs[|h.logs| - 1] == failed[0];
    } else {
      assert h.logs[|h.logs| - 1] == if inner.logs == [] then executing else inner.logs[|inner.logs| - 1];
    }
  }

  /** A successful call adds no error: it logs the call, then what the tool logged. */
  lemma SuccessLogsTool(name: string, arguments: Option<Arguments>)
    requires Handled(name, arguments).result.Success?
    ensures (name == "write-text" || name == "setup-textwell") && arguments.Some?
    ensures |Handled(name, arguments).logs| == 3
    ensures Handled(name, arguments).logs[2].data
         == "Would execute URL scheme: "
            + (if name == "write-text" then WriteTextUrl(ModeArgument(arguments.value), TextArgument(arguments.value))
               else SetupUrl(BridgeUrlArgument(arguments.value)))
  {
  }

  /**
   * Conversely, write-text with arguments always succeeds on a connected server:
   * it replies with the mode and logs the call, the mode and the URL, in order.
   */
  lemma WriteTextAlwaysSucceeds(args: Arguments)
    ensures var mode := ModeArgument(args);
      Handled("write-text", Some(args))
      == Outcome(Success(ToolResponse([TextContent(WrittenMessage(mode))])),
                 [LogMessage(Info, "Executing tool: " + "write-text"),
                  LogMessage(Info, "Writing text with mode: " + mode),
                  LogMessage(Info, "Would execute URL scheme: " + WriteTextUrl(mode, TextArgument(args)))])
  {
    var mode := ModeArgument(args);
    var inner := Switch("write-text", Some(args));
    assert inner.result.Success?;
    assert [LogMessage(Info, "Executing tool: " + "write-text")] + inner.logs + []
        == [LogMessage(Info, "Executing tool: " + "write-text"),
            LogMessage(Info, "Writing text with mode: " + mode),
            LogMessage(Info, "Would execute URL scheme: " + WriteTextUrl(mode, TextArgument(args)))];
  }

  /** Likewise setup-textwell with arguments always succeeds, logging the call, the bridge URL and the setup URL. */
  lemma SetupAlwaysSucceeds(args: Arguments)
    ensures var bridgeUrl := BridgeUrlArgument(args);
      Handled("setup-textwell", Some(args))
      == Outcome(Success(ToolResponse([TextContent(SetupMessage)])),
                 [LogMessage(Info, "Executing tool: " + "setup-textwell"),
                  LogMessage(Info, "Setting up Textwell with bridge URL: " + bridgeUrl),
                  LogMessage(Info, "Would execute URL scheme: " + SetupUrl(bridgeUrl))])
  {
    var bridgeUrl := BridgeUrlArgument(args);
    var inner := Switch("setup-textwell", Some(args));
    assert inner.result.Success?;
    assert [LogMessage(Info, "Executing tool: " + "setup-textwell")] + inner.logs + []
        == [LogMessage(Info, "Executing tool: " + "setup-textwell"),
            LogMessage(Info, "Setting up Textwell with bridge URL: " + bridgeUrl),
            LogMessage(Info, "Would execute URL scheme: " + SetupUrl(bridgeUrl))];
  }

  /** The write-text reply appends "d" to the mode, so the "add" mode reads "addd". */
  lemma AddModeMessage()
    ensures WrittenMessage("add") == "Text has been addd successfully"
  {
  }

  lemma Regroup(a: seq<LogMessage>, b: seq<LogMessage>, c: seq<LogMessage>, d: seq<LogMessage>)
    ensures a + b + c + d == a + (b + c + d)
  {
  }

  class TextwellServer {
    var isConnected: bool
    /** Every message sent with sendLoggingMessage, oldest first. */
    var log: seq<LogMessage>

    constructor ()
      ensures !isConnected && log == []
    {
      isConnected := false;
      log := [];
    }

    method SendLog(level: Level, data: string)
      modifies this`log
      ensures log == old(log) + [LogMessage(level, data)]
    {
      log := log + [LogMessage(level, data)];
    }

    /** ensureConnection: the error it throws before the transport is connected. */
    method EnsureConnection() returns (failure: Option<Thrown>)
      ensures failure == if isConnected then None else Some(NotConnected)
    {
      if !isConnected {
        return Some(NotConnected);
      }
      failure := None;
    }

    /**
     * run: once the transport connects the flag is set, for good, and the server
     * says so; a failed connection is rethrown and changes nothing.
     */
    method Run(connectFailure: Option<string>) returns (failure: Option<string>)
      modifies this
      ensures failure == connectFailure
      ensures connectFailure.Some? ==> isConnected == old(isConnected) && log == old(log)
      ensures connectFailure.None? ==> isConnected && log == old(log) + [LogMessage(Info, "Server started and ready")]
    {
      if connectFailure.Some? {
        return connectFailure;
      }
      isConnected := true;
      SendLog(Info, "Server started and ready");
      failure := None;
    }

    /** The in-class executeUrlScheme: it re-checks the connection and only logs the URL. */
    method ExecuteUrlScheme(url: string) returns (failure: Option<Thrown>)
      modifies this`log
      ensures failure == if isConnected then None else Some(NotConnected)
      ensures log == old(log) + if isConnected then [LogMessage(Info, "Would execute URL scheme: " + url)] else []
    {
      failure := EnsureConnection();
      if failure.Some? {
        return;
      }
      SendLog(Info, "Would execute URL scheme: " + url);
    }

    /** logError: never called by the handler. */
    method LogError(message: string) returns (failure: Option<Thrown>)
      modifies this`log
      ensures failure == if isConnected then None else Some(NotConnected)
      ensures log == old(log) + if isConnected then [LogMessage(Error, "Error: " + message)] else []
    {
      failure := EnsureConnection();
      if failure.Some? {
        return;
      }
      SendLog(Error, "Error: " + message);
    }

    /** The write-text case of the switch, up to the catch. */
    method WriteText(arguments: Option<Arguments>) returns (r: Result<ToolResponse, Thrown>)
      modifies this`log
      ensures arguments.None? ==> r == Failure(DestructureError("text")) && log == old(log)
      ensures arguments.Some? && isConnected ==>
        var mode := ModeArgument(arguments.value);
        && r == Success(ToolResponse([TextContent(WrittenMessage(mode))]))
        && log == old(log) + [LogMessage(Info, "Writing text with mode: " + mode),
                              LogMessage(Info, "Would execute URL scheme: " + WriteTextUrl(mode, TextArgument(arguments.value)))]
      ensures arguments.Some? && !isConnected ==>
        r == Failure(NotConnected)
        && log == old(log) + [LogMessage(Info, "Writing text with mode: " + ModeArgument(arguments.value))]
    {
      if arguments.None? {
        return Failure(DestructureError("text"));
      }
      var text := TextArgument(arguments.value);
      var mode := ModeArgument(arguments.value);
      SendLog(Info, "Writing text with mode: " + mode);
      var url := WriteTextUrl(mode, text);
      var failure := ExecuteUrlScheme(url);
      if failure.Some? {
        return Failure(failure.value);
      }
      r := Success(ToolResponse([TextContent(WrittenMessage(mode))]));
    }

    /** The setup-textwell case of the switch, up to the catch. */
    method SetupTextwell(arguments: Option<Arguments>) returns (r: Result<ToolResponse, Thrown>)
      modifies this`log
      ensures arguments.None? ==> r == Failure(DestructureError("bridgeUrl")) && log == old(log)
      ensures arguments.Some? && isConnected ==>
        var bridgeUrl := BridgeUrlArgument(arguments.value);
        && r == Success(ToolResponse([TextContent(SetupMessage)]))
        && log == old(log) + [LogMessage(Info, "Setting up Textwell with bridge URL: " + bridgeUrl),
                              LogMessage(Info, "Would execute URL scheme: " + SetupUrl(bridgeUrl))]
      ensures arguments.Some? && !isConnected ==>
        r == Failure(NotConnected)
        && log == old(log) + [LogMessage(Info, "Setting up Textwell with bridge URL: " + BridgeUrlArgument(arguments.value))]
    {
      if arguments.None? {
        return Failure(DestructureError("bridgeUrl"));
      }
      var bridgeUrl := BridgeUrlArgument(arguments.value);
      SendLog(Info, "Setting up Textwell with bridge URL: " + bridgeUrl);
      var url := SetupUrl(bridgeUrl);
      var failure := ExecuteUrlScheme(url);
      if failure.Some? {
        return Failure(failure.value);
      }
      r := Success(ToolResponse([TextContent(SetupMessage)]));
    }

    /** The switch statement of the handler, reached only once the connection check passed. */
    method Dispatch(name: string, arguments: Option<Arguments>) returns (r: Result<ToolResponse, Thrown>)
      requires isConnected
      modifies this`log
      ensures r == Switch(name, arguments).result && log == old(log) + Switch(name, arguments).logs
    {
      if name == "setup-textwell" {
        r := SetupTextwell(arguments);
      } else if name == "write-text" {
        r := WriteText(arguments);
      } else {
        r := Failure(McpError(MethodNotFound, "Unknown tool: " + name));
      }
    }

    /**
     * The CallToolRequestSchema handler: the connection check, then what
     * Handled describes.
     */
    method CallTool(name: string, arguments: Option<Arguments>) returns (r: Result<ToolResponse, Thrown>)
      modifies this`log
      ensures !isConnected ==> r == Failure(NotConnected) && log == old(log)
      ensures isConnected ==> r == Handled(name, arguments).result && log == old(log) + Handled(name, arguments).logs
    {
      var failure := EnsureConnection();
      if failure.Some? {
        return Failure(failure.value);
      }
      var executing := LogMessage(Info, "Executing tool: " + name);
      SendLog(executing.level, executing.data);
      r := Dispatch(name, arguments);
      var failed := if r.Failure? then [LogMessage(Error, "Tool execution failed: " + Message(r.error))] else [];
      if r.Failure? {
        SendLog(Error, "Tool execution failed: " + Message(r.error));
      }
      Regroup(old(log), [executing], Switch(name, arguments).logs, failed);
    }
  }
}
