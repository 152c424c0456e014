/**
 * The service code emitter of the `rest` plugin (rest/rest.go).
 *
 * For a file that declares services the plugin writes an import block, a
 * "reference imports" preamble and one block per service, delimited by the
 * `//Start Services` and `//End Services` marker lines that the output
 * rewriter later searches for.  Every generator `P` call appends one line to
 * the shared output buffer, which `Plugin.out` models.  Symbol resolution of
 * the surrounding generator (type names, CamelCase, the import prefix) is
 * passed in through `Env`.
 */
module Rest {
  import opened Seqs
  import opened Text

  /** The plugin's name, inserted into output file names. */
  const Name := "rest"
  /** Paths of the packages the generated code imports. */
  const RuntimePkgPath := "github.com/grpc-ecosystem/grpc-gateway/runtime"
  const GrpcPkgPath := "google.golang.org/grpc"
  const ContextPkgPath := "golang.org/x/net/context"

  /** Marker lines of the protocol shared with the output rewriter. */
  const RefMarker := "// Reference imports"
  const StartMarker := "//Start Services"
  const EndMarker := "//End Services"

  datatype MethodDesc = MethodDesc(
    name: string,
    inputType: string,
    outputType: string,
    clientStreaming: bool,
    serverStreaming: bool)

  datatype ServiceDesc = ServiceDesc(name: string, methods: seq<MethodDesc>)

  datatype FileDesc = FileDesc(services: seq<ServiceDesc>)

  /**
   * What the emitter takes from the generator around it: the package names
   * registered for the context and client packages, the import prefix joined
   * in front of a path, the printed name of a .proto type and CamelCase.
   */
  datatype Env = Env(
    contextPkg: string,
    clientPkg: string,
    importPath: string -> string,
    typeName: string -> string,
    camelCase: string -> string)

  /** The three handler shapes the two streaming flags select. */
  datatype Shape = Unary | ServerStreaming | ClientStreaming

  function ShapeOf(m: MethodDesc): Shape {
    if !m.clientStreaming && !m.serverStreaming then Unary
    else if !m.clientStreaming then ServerStreaming
    else ClientStreaming
  }

  /** strconv.Quote for text without quotes, backslashes or control characters. */
  function Quote(s: string): string {
    "\"" + s + "\""
  }

  /** The first character lower-cased, the rest untouched. */
  function Unexport(s: string): (r: string)
    requires |s| > 0
    ensures |r| == |s| && r[1..] == s[1..]
    ensures r[0] == ToLower(s[0]) && !IsUpper(r[0])
    ensures !IsUpper(s[0]) ==> r == s
  {
    [ToLower(s[..1][0])] + s[1..]
  }

  lemma UnexportIdempotent(s: string)
    requires |s| > 0
    ensures Unexport(Unexport(s)) == Unexport(s)
  {
  }

  /** Lines written by GenerateImports for a file with services. */
  function ImportLines(env: Env): seq<string> {
    [ "import (",
      "runtime" + " " + Quote(env.importPath(RuntimePkgPath)),
      "grpc" + " " + Quote(env.importPath(GrpcPkgPath)),
      env.contextPkg + " " + Quote(env.importPath(ContextPkgPath)),
      ")",
      "",
      "" ]
  }

  /** The preamble Generate writes before the first service. */
  function ReferenceLines(env: Env): seq<string> {
    [ RefMarker,
      "var _ " + env.contextPkg + ".Context",
      "var _ " + env.clientPkg + ".Option",
      "" ]
  }

  /** The Sprintf("_%s_%s_Handler", servName + "Server", methName) identifier. */
  function HandlerName(servName: string, methName: string): string {
    "_" + servName + "Server" + "_" + methName + "_Handler"
  }

  /** Lines generateServerMethod writes for one method. */
  function MethodLines(env: Env, servName: string, m: MethodDesc): seq<string>
    requires |servName| > 0
  {
    var methName := env.camelCase(m.name);
    var inType := env.typeName(m.inputType);
    var outType := env.typeName(m.outputType);
    var receiver := "func (h *" + Unexport(servName) + "ServerClient" + ") " + methName;
    if !m.serverStreaming && !m.clientStreaming then
      [ receiver + "(ctx " + env.contextPkg + ".Context, in *" + inType + ", _ ...grpc.CallOption"
          + ") (*" + outType + ", error) {",
        "return h." + "srv" + "." + methName + "(ctx, in)",
        "}",
        "" ]
    else
      var outClientType := servName + "_" + methName + "Client";
      (if m.serverStreaming && !m.clientStreaming then
         [ receiver + "(ctx " + env.contextPkg + ".Context, in *" + inType + ", _ ...grpc.CallOption"
             + ") (cli " + outClientType + ", err error) {",
           "return",
           "}",
           "" ]
       else [])
      + (if m.clientStreaming then
           [ receiver + "(ctx " + env.contextPkg + ".Context" + ", _ ...grpc.CallOption"
               + ") (cli " + outClientType + ", err error) {",
             "return",
             "}",
             "" ]
         else [])
  }

  /**
   * Exactly one handler per method, its shape chosen by the streaming flags:
   * only a unary method forwards to the held server; the streaming shapes
   * return zero values, and a client-streaming handler takes no request.
   */
  lemma HandlerShape(env: Env, servName: string, m: MethodDesc)
    requires |servName| > 0
    ensures var r := MethodLines(env, servName, m);
      && |r| == 4 && r[2] == "}" && r[3] == ""
      && (r[1] == "return h." + "srv" + "." + env.camelCase(m.name) + "(ctx, in)" <==> ShapeOf(m) == Unary)
      && (ShapeOf(m) != Unary ==> r[1] == "return")
      && (ShapeOf(m) == Unary ==>
            r[0] == "func (h *" + Unexport(servName) + "ServerClient" + ") " + env.camelCase(m.name)
                    + "(ctx " + env.contextPkg + ".Context, in *" + env.typeName(m.inputType)
                    + ", _ ...grpc.CallOption" + ") (*" + env.typeName(m.outputType) + ", error) {")
      && (ShapeOf(m) == ServerStreaming ==>
            r[0] == "func (h *" + Unexport(servName) + "ServerClient" + ") " + env.camelCase(m.name)
                    + "(ctx " + env.contextPkg + ".Context, in *" + env.typeName(m.inputType)
                    + ", _ ...grpc.CallOption" + ") (cli " + (servName + "_" + env.camelCase(m.name) + "Client")
                    + ", err error) {")
      && (ShapeOf(m) == ClientStreaming ==>
            r[0] == "func (h *" + Unexport(servName) + "ServerClient" + ") " + env.camelCase(m.name)
                    + "(ctx " + env.contextPkg + ".Context" + ", _ ...grpc.CallOption"
                    + ") (cli " + (servName + "_" + env.camelCase(m.name) + "Client") + ", err error) {")
  {
  }

  /** The handlers of `ms`, one after the other in declaration order. */
  function MethodsLines(env: Env, servName: string, ms: seq<MethodDesc>): seq<string>
    requires |servName| > 0
  {
    if ms == [] then []
    else MethodsLines(env, servName, ms[..|ms| - 1]) + MethodLines(env, servName, ms[|ms| - 1])
  }

  lemma MethodsLinesSnoc(env: Env, servName: string, ms: seq<MethodDesc>, i: nat)
    requires |servName| > 0 && i < |ms|
    ensures MethodsLines(env, servName, ms[..i + 1])
         == MethodsLines(env, servName, ms[..i]) + MethodLines(env, servName, ms[i])
  {
    assert ms[..i + 1][..i] == ms[..i];
  }

  /** Lines generateService writes for one service. */
  function ServiceLines(env: Env, s: ServiceDesc): seq<string>
    requires |env.camelCase(s.name)| > 0
  {
    var servName := env.camelCase(s.name);
    ServiceHead(servName) + MethodsLines(env, servName, s.methods) + ServiceTail(servName)
  }

  /** The start marker, the wrapper type and the registration function. */
  function ServiceHead(servName: string): seq<string>
    requires |servName| > 0
  {
    [StartMarker] + WrapperLines(servName)
  }

  /** The wrapper type holding the server, and its registration function. */
  function WrapperLines(servName: string): seq<string>
    requires |servName| > 0
  {
    var serverType := Unexport(servName) + "ServerClient";
    [ "// Server API for " + servName + " service",
      "type " + serverType + " struct {",
      "srv " + servName + "Server",
      "}",
      "",
      "func Register" + servName + "ServerHandlerClient(ctx context.Context, mux *runtime.ServeMux, srv "
        + servName + "Server) error {",
      "return Register" + servName + "HandlerClient(ctx, mux," + "New" + servName + "ServerClient(srv))",
      "}",
      "" ]
  }

  /** The constructor and the end marker. */
  function ServiceTail(servName: string): seq<string>
    requires |servName| > 0
  {
    ConstructorLines(servName) + [EndMarker]
  }

  /** The constructor of the wrapper. */
  function ConstructorLines(servName: string): seq<string>
    requires |servName| > 0
  {
    [ "func New" + servName + "ServerClient(srv " + servName + "Server)" + servName + "Client{",
      "return &" + Unexport(servName) + "ServerClient{",
      "srv:srv,",
      "}",
      "}",
      "" ]
  }

  /** The lines of a service block between its two markers. */
  function ServiceBody(env: Env, s: ServiceDesc): seq<string>
    requires |env.camelCase(s.name)| > 0
  {
    var servName := env.camelCase(s.name);
    WrapperLines(servName) + MethodsLines(env, servName, s.methods) + ConstructorLines(servName)
  }

  /** A service block is its body framed by the start and end markers. */
  lemma ServiceFramed(env: Env, s: ServiceDesc)
    requires |env.camelCase(s.name)| > 0
    ensures ServiceLines(env, s) == [StartMarker] + ServiceBody(env, s) + [EndMarker]
  {
    var servName := env.camelCase(s.name);
    var w, m, c := WrapperLines(servName), MethodsLines(env, servName, s.methods), ConstructorLines(servName);
    AppendAssoc([StartMarker], w, m);
    AppendAssoc([StartMarker], w + m, c + [EndMarker]);
    AppendAssoc(w + m, c, [EndMarker]);
    AppendAssoc([StartMarker], w + m + c, [EndMarker]);
  }

  /**
   * A service block declares the wrapper type, named after the unexported
   * service name, its registration function and its constructor.
   */
  lemma ServiceDeclares(env: Env, s: ServiceDesc)
    requires |env.camelCase(s.name)| > 0
    ensures var n := env.camelCase(s.name);
            var lines := ServiceLines(env, s);
      && "type " + (Unexport(n) + "ServerClient") + " struct {" in lines
      && "func Register" + n + "ServerHandlerClient(ctx context.Context, mux *runtime.ServeMux, srv "
           + n + "Server) error {" in lines
      && "func New" + n + "ServerClient(srv " + n + "Server)" + n + "Client{" in lines
  {
    var n := env.camelCase(s.name);
    var w, c := WrapperLines(n), ConstructorLines(n);
    ServiceFramed(env, s);
    assert w[1] in ServiceBody(env, s) && w[5] in ServiceBody(env, s) && c[0] in ServiceBody(env, s);
  }

  /** Every service name has a non-empty CamelCase form (unexport slices off its first byte). */
  predicate Named(env: Env, ss: seq<ServiceDesc>) {
    forall i :: 0 <= i < |ss| ==> |env.camelCase(ss[i].name)| > 0
  }

  /** The service blocks of `ss`, in declaration order. */
  function ServicesLines(env: Env, ss: seq<ServiceDesc>): seq<string>
    requires Named(env, ss)
  {
    if ss == [] then []
    else ServicesLines(env, ss[..|ss| - 1]) + ServiceLines(env, ss[|ss| - 1])
  }

  lemma ServicesLinesSnoc(env: Env, ss: seq<ServiceDesc>, i: nat)
    requires Named(env, ss) && i < |ss|
    ensures Named(env, ss[..i + 1]) && Named(env, ss[..i])
    ensures ServicesLines(env, ss[..i + 1]) == ServicesLines(env, ss[..i]) + ServiceLines(env, ss[i])
  {
    assert ss[..i + 1][..i] == ss[..i];
  }

  /** The service blocks are the first one's followed by the others'. */
  lemma {:induction false} ServicesLinesFirst(env: Env, ss: seq<ServiceDesc>)
    requires Named(env, ss) && |ss| > 0
    ensures Named(env, ss[1..])
    ensures ServicesLines(env, ss) == ServiceLines(env, ss[0]) + ServicesLines(env, ss[1..])
    decreases |ss|
  {
    hide ServiceLines;
    if |ss| == 1 {
      assert ss[..0] == [] && ss[1..] == [];
    } else {
      var init := ss[..|ss| - 1];
      ServicesLinesFirst(env, init);
      assert init[0] == ss[0];
      assert init[1..] == ss[1..][..|ss| - 2];
      assert ss[1..][|ss| - 2] == ss[|ss| - 1];
      AppendAssoc(ServiceLines(env, ss[0]), ServicesLines(env, init[1..]), ServiceLines(env, ss[|ss| - 1]));
    }
  }

  /** Lines Generate writes for a file: nothing at all when it has no services. */
  function GenerateLines(env: Env, f: FileDesc): seq<string>
    requires Named(env, f.services)
  {
    if |f.services| == 0 then [] else ReferenceLines(env) + ServicesLines(env, f.services)
  }

  /** Lines GenerateImports writes for a file: nothing at all when it has no services. */
  function GenerateImportsLines(env: Env, f: FileDesc): seq<string> {
    if |f.services| == 0 then [] else ImportLines(env)
  }

  /**
   * GenerateImports writes nothing without services; otherwise an import
   * block of the runtime, grpc and context packages followed by two empty
   * lines, holding no service marker.
   */
  lemma ImportsShape(env: Env, f: FileDesc)
    ensures var r := GenerateImportsLines(env, f);
      && (r == [] <==> |f.services| == 0)
      && (|f.services| > 0 ==>
            && |r| == 7 && r[0] == "import (" && r[4] == ")" && r[5] == "" && r[6] == ""
            && r[1] == "runtime " + Quote(env.importPath(RuntimePkgPath))
            && r[2] == "grpc " + Quote(env.importPath(GrpcPkgPath))
            && r[3] == env.contextPkg + " " + Quote(env.importPath(ContextPkgPath))
            && MarkerTrace(r) == [])
  {
    if |f.services| > 0 {
      ImportsHaveNoMarkers(env);
    }
  }

  lemma ImportsHaveNoMarkers(env: Env)
    ensures MarkerTrace(ImportLines(env)) == []
  {
    var r := ImportLines(env);
    forall l | l in r ensures !IsMarker(l) {
      if l == r[3] {
        assert l[|l| - 1] == '"';
      } else {
        NotMarker(l);
      }
    }
    hide ImportLines;
    NoMarkers(r);
  }

  /** The two lines the output rewriter searches for around each service block. */
  predicate IsMarker(line: string) {
    line == StartMarker || line == EndMarker
  }

  /** The marker lines of `ls`, in order. */
  function MarkerTrace(ls: seq<string>): seq<string> {
    if ls == [] then []
    else (if IsMarker(ls[0]) then [ls[0]] else []) + MarkerTrace(ls[1..])
  }

  /** `n` start/end pairs: the trace of a well-nested output with `n` service blocks. */
  function Pairs(n: nat): seq<string> {
    if n == 0 then [] else Pairs(n - 1) + [StartMarker, EndMarker]
  }

  lemma {:induction false} MarkerTraceAppend(a: seq<string>, b: seq<string>)
    ensures MarkerTrace(a + b) == MarkerTrace(a) + MarkerTrace(b)
    decreases |a|
  {
    if a == [] {
      assert a + b == b;
    } else {
      assert (a + b)[0] == a[0];
      assert (a + b)[1..] == a[1..] + b;
      MarkerTraceAppend(a[1..], b);
    }
  }

  /** A line whose first character is not '/', or whose third is neither 'S' nor 'E', is no marker. */
  lemma NotMarker(line: string)
    requires line == [] || line[0] != '/' || (|line| > 2 && line[2] != 'S' && line[2] != 'E')
    ensures !IsMarker(line)
  {
  }

  /** A handler contains no marker line. */
  lemma MethodMarkers(env: Env, servName: string, m: MethodDesc)
    requires |servName| > 0
    ensures MarkerTrace(MethodLines(env, servName, m)) == []
  {
    var r := MethodLines(env, servName, m);
    forall l | l in r ensures !IsMarker(l) {
      NotMarker(l);
    }
    NoMarkers(r);
  }

  lemma {:induction false} MethodsMarkers(env: Env, servName: string, ms: seq<MethodDesc>)
    requires |servName| > 0
    ensures MarkerTrace(MethodsLines(env, servName, ms)) == []
    decreases |ms|
  {
    if ms != [] {
      var init := ms[..|ms| - 1];
      MethodsMarkers(env, servName, init);
      MethodMarkers(env, servName, ms[|ms| - 1]);
      MarkerTraceAppend(MethodsLines(env, servName, init), MethodLines(env, servName, ms[|ms| - 1]));
    }
  }

  /** A service block opens with the start marker, closes with the end marker, and has no other. */
  lemma ServiceMarkers(env: Env, s: ServiceDesc)
    requires |env.camelCase(s.name)| > 0
    ensures MarkerTrace(ServiceLines(env, s)) == [StartMarker, EndMarker]
    ensures ServiceLines(env, s)[0] == StartMarker
    ensures ServiceLines(env, s)[|ServiceLines(env, s)| - 1] == EndMarker
  {
    var servName := env.camelCase(s.name);
    var wrapper := WrapperLines(servName);
    var ctor := ConstructorLines(servName);
    var body := MethodsLines(env, servName, s.methods);
    WrapperMarkers(servName);
    ConstructorMarkers(servName);
    MethodsMarkers(env, servName, s.methods);
    hide WrapperLines;
    hide ConstructorLines;
    MarkerTraceAppend([StartMarker], wrapper);
    MarkerTraceAppend(ctor, [EndMarker]);
    MarkerTraceAppend(ServiceHead(servName), body);
    MarkerTraceAppend(ServiceHead(servName) + body, ServiceTail(servName));
  }

  lemma WrapperMarkers(servName: string)
    requires |servName| > 0
    ensures MarkerTrace(WrapperLines(servName)) == []
  {
    forall l | l in WrapperLines(servName) ensures !IsMarker(l) {
      NotMarker(l);
    }
    NoMarkers(WrapperLines(servName));
  }

  lemma ConstructorMarkers(servName: string)
    requires |servName| > 0
    ensures MarkerTrace(ConstructorLines(servName)) == []
  {
    forall l | l in ConstructorLines(servName) ensures !IsMarker(l) {
      NotMarker(l);
    }
    NoMarkers(ConstructorLines(servName));
  }

  /** Lines none of which is a marker leave no trace. */
  lemma {:induction false} NoMarkers(ls: seq<string>)
    requires forall l :: l in ls ==> !IsMarker(l)
    ensures MarkerTrace(ls) == []
    decreases |ls|
  {
    if ls != [] {
      assert ls[0] in ls;
      NoMarkers(ls[1..]);
    }
  }

  lemma {:induction false} ServicesMarkers(env: Env, ss: seq<ServiceDesc>)
    requires Named(env, ss)
    ensures MarkerTrace(ServicesLines(env, ss)) == Pairs(|ss|)
    decreases |ss|
  {
    if ss != [] {
      var init := ss[..|ss| - 1];
      ServicesMarkers(env, init);
      ServiceMarkers(env, ss[|ss| - 1]);
      MarkerTraceAppend(ServicesLines(env, init), ServiceLines(env, ss[|ss| - 1]));
    }
  }

  /**
   * The output of Generate is what the rewriter expects: the reference
   * marker first, then one start marker and one end marker per service,
   * alternating, and no other marker line; nothing at all without services.
   */
  lemma GenerateMarkers(env: Env, f: FileDesc)
    requires Named(env, f.services)
    ensures MarkerTrace(GenerateLines(env, f)) == Pairs(|f.services|)
    ensures |GenerateLines(env, f)| == 0 <==> |f.services| == 0
    ensures |f.services| > 0 ==> GenerateLines(env, f)[0] == RefMarker
  {
    if |f.services| > 0 {
      var refs := ReferenceLines(env);
      forall l | l in refs ensures !IsMarker(l) {
        NotMarker(l);
      }
      NoMarkers(refs);
      ServicesMarkers(env, f.services);
      MarkerTraceAppend(refs, ServicesLines(env, f.services));
    }
  }

  /** The pieces of generateServerSignature's argument list, in order. */
  function ServerArgs(env: Env, servName: string, m: MethodDesc): (args: seq<string>)
    ensures |args| == (if m.clientStreaming then 2 else 3)
    ensures args[0] == env.contextPkg + ".Context"
    ensures ShapeOf(m) != ClientStreaming ==> args[1] == "*" + env.typeName(m.inputType)
    ensures ShapeOf(m) == Unary ==> args[2] == "*" + env.typeName(m.outputType)
    ensures ShapeOf(m) != Unary ==>
      args[|args| - 1] == servName + "_" + env.camelCase(m.name) + "Stream"
  {
    var a0 := [env.contextPkg + ".Context"];
    var a1 := if !m.clientStreaming then a0 + ["*" + env.typeName(m.inputType)] else a0;
    var a2 := if m.serverStreaming || m.clientStreaming
              then a1 + [servName + "_" + env.camelCase(m.name) + "Stream"] else a1;
    if !m.clientStreaming && !m.serverStreaming then a2 + ["*" + env.typeName(m.outputType)] else a2
  }

  /** generateServerSignature: the method's server-side Go signature. */
  function ServerSignature(env: Env, servName: string, m: MethodDesc): string {
    env.camelCase(m.name) + "(" + Join(ServerArgs(env, servName, m), ", ") + ") " + "error"
  }

  /** The server signature of each kind of method, written out. */
  lemma ServerSignatureShape(env: Env, servName: string, m: MethodDesc)
    ensures var r := ServerSignature(env, servName, m);
            var ctx := env.contextPkg + ".Context";
            var stream := servName + "_" + env.camelCase(m.name) + "Stream";
      && (ShapeOf(m) == Unary ==>
            r == env.camelCase(m.name) + "(" + (ctx + ", " + (("*" + env.typeName(m.inputType)) + ", "
                 + ("*" + env.typeName(m.outputType)))) + ") " + "error")
      && (ShapeOf(m) == ServerStreaming ==>
            r == env.camelCase(m.name) + "(" + (ctx + ", " + (("*" + env.typeName(m.inputType)) + ", "
                 + stream)) + ") " + "error")
      && (ShapeOf(m) == ClientStreaming ==>
            r == env.camelCase(m.name) + "(" + (ctx + ", " + stream) + ") " + "error")
  {
    var args := ServerArgs(env, servName, m);
    assert args[1..][1..] == args[2..];
    if |args| == 3 {
      assert Join(args[2..], ", ") == args[2];
      assert Join(args[1..], ", ") == args[1] + ", " + args[2];
    } else {
      assert Join(args[1..], ", ") == args[1];
    }
  }

  /** generateClientSignature: the method's client-side Go signature. */
  function ClientSignature(env: Env, servName: string, m: MethodDesc): string {
    var methName := env.camelCase(m.name);
    var reqArg := if m.clientStreaming then "" else ", in *" + env.typeName(m.inputType);
    var respName := if m.serverStreaming || m.clientStreaming
                    then servName + "_" + env.camelCase(m.name) + "serverClient"
                    else "*" + env.typeName(m.outputType);
    methName + "(ctx " + env.contextPkg + ".Context" + reqArg + ", opts ..." + "grpc" + ".CallOption) ("
      + respName + ", error)"
  }

  /** The client signature of each kind of method, written out. */
  lemma ClientSignatureShape(env: Env, servName: string, m: MethodDesc)
    ensures var r := ClientSignature(env, servName, m);
            var pre := env.camelCase(m.name) + "(ctx " + env.contextPkg + ".Context";
            var stream := servName + "_" + env.camelCase(m.name) + "serverClient";
      && (ShapeOf(m) == Unary ==>
            r == pre + (", in *" + env.typeName(m.inputType)) + ", opts ..." + "grpc" + ".CallOption) ("
                 + ("*" + env.typeName(m.outputType)) + ", error)")
      && (ShapeOf(m) == ServerStreaming ==>
            r == pre + (", in *" + env.typeName(m.inputType)) + ", opts ..." + "grpc" + ".CallOption) ("
                 + stream + ", error)")
      && (ShapeOf(m) == ClientStreaming ==>
            r == pre + "" + ", opts ..." + "grpc" + ".CallOption) (" + stream + ", error)")
  {
  }

  /**
   * The `rest` plugin object.  `out` is the generator's output buffer, one
   * entry per line written by `P`.
   */
  class Plugin {
    const env: Env
    var out: seq<string>

    constructor (env: Env)
      ensures this.env == env && out == []
    {
      this.env := env;
      out := [];
    }

    /** Writes one line: the concatenation of P's arguments. */
    method P(line: string)
      modifies this
      ensures out == old(out) + [line]
    {
      out := out + [line];
    }

    method GenerateImports(f: FileDesc)
      modifies this
      ensures out == old(out) + GenerateImportsLines(env, f)
    {
      if |f.services| == 0 {
        return;
      }
      P("import (");
      P("runtime" + " " + Quote(env.importPath(RuntimePkgPath)));
      P("grpc" + " " + Quote(env.importPath(GrpcPkgPath)));
      P(env.contextPkg + " " + Quote(env.importPath(ContextPkgPath)));
      P(")");
      P("");
      P("");
    }

    method Generate(f: FileDesc)
      requires Named(env, f.services)
      modifies this
      ensures out == old(out) + GenerateLines(env, f)
    {
      if |f.services| == 0 {
        return;
      }
      GenerateReference();
      ghost var refs := out;
      hide ServiceLines;
      hide ReferenceLines;
      for i := 0 to |f.services|
        invariant out == refs + ServicesLines(env, f.services[..i])
      {
        ServicesLinesSnoc(env, f.services, i);
        AppendAssoc(refs, ServicesLines(env, f.services[..i]), ServiceLines(env, f.services[i]));
        var _ := GenerateService(f.services[i]);
      }
      assert f.services[..|f.services|] == f.services;
      AppendAssoc(old(out), ReferenceLines(env), ServicesLines(env, f.services));
    }

    /** The reference imports that keep the imported packages in use. */
    method GenerateReference()
      modifies this
      ensures out == old(out) + ReferenceLines(env)
    {
      P(RefMarker);
      P("var _ " + env.contextPkg + ".Context");
      P("var _ " + env.clientPkg + ".Option");
      P("");
    }

    /**
     * Writes one service block.  The source collects the handler names in a
     * local slice and drops it; here they are returned.
     */
    method GenerateService(service: ServiceDesc) returns (handlerNames: seq<string>)
      requires |env.camelCase(service.name)| > 0
      modifies this
      ensures out == old(out) + ServiceLines(env, service)
      ensures |handlerNames| == |service.methods|
      ensures forall k :: 0 <= k < |handlerNames| ==>
        handlerNames[k] == HandlerName(env.camelCase(service.name), env.camelCase(service.methods[k].name))
    {
      var servName := env.camelCase(service.name);
      GenerateServiceHead(servName);
      handlerNames := GenerateHandlers(servName, service.methods);
      GenerateServiceTail(servName);
      AppendAssoc(old(out), ServiceHead(servName), MethodsLines(env, servName, service.methods));
      AppendAssoc(old(out), ServiceHead(servName) + MethodsLines(env, servName, service.methods), ServiceTail(servName));
    }

    /** The start marker, the wrapper type holding the server, and its registration function. */
    method GenerateServiceHead(servName: string)
      requires |servName| > 0
      modifies this
      ensures out == old(out) + ServiceHead(servName)
    {
      P(StartMarker);
      ghost var marked := out;
      P("// Server API for " + servName + " service");
      var serverType := Unexport(servName) + "ServerClient";
      P("type " + serverType + " struct {");
      P("srv " + servName + "Server");
      P("}");
      P("");
      P("func Register" + servName + "ServerHandlerClient(ctx context.Context, mux *runtime.ServeMux, srv "
        + servName + "Server) error {");
      P("return Register" + servName + "HandlerClient(ctx, mux," + "New" + servName + "ServerClient(srv))");
      P("}");
      P("");
      assert out == marked + WrapperLines(servName);
    }

    /** The constructor of the wrapper and the end marker. */
    method GenerateServiceTail(servName: string)
      requires |servName| > 0
      modifies this
      ensures out == old(out) + ServiceTail(servName)
    {
      P("func New" + servName + "ServerClient(srv " + servName + "Server)" + servName + "Client{");
      P("return &" + Unexport(servName) + "ServerClient{");
      P("srv:srv,");
      P("}");
      P("}");
      P("");
      P(EndMarker);
    }

    /** The loop over the service's methods: one handler each, names collected in order. */
    method GenerateHandlers(servName: string, methods: seq<MethodDesc>) returns (handlerNames: seq<string>)
      requires |servName| > 0
      modifies this
      ensures out == old(out) + MethodsLines(env, servName, methods)
      ensures |handlerNames| == |methods|
      ensures forall k :: 0 <= k < |methods| ==>
        handlerNames[k] == HandlerName(servName, env.camelCase(methods[k].name))
    {
      hide MethodLines;
      handlerNames := [];
      for i := 0 to |methods|
        invariant out == old(out) + MethodsLines(env, servName, methods[..i])
        invariant |handlerNames| == i
        invariant forall k :: 0 <= k < i ==>
          handlerNames[k] == HandlerName(servName, env.camelCase(methods[k].name))
      {
        MethodsLinesSnoc(env, servName, methods, i);
        AppendAssoc(old(out), MethodsLines(env, servName, methods[..i]), MethodLines(env, servName, methods[i]));
        var hname := GenerateServerMethod(servName, methods[i]);
        handlerNames := handlerNames + [hname];
      }
      assert methods[..|methods|] == methods;
    }

    method GenerateServerMethod(servName: string, m: MethodDesc) returns (hname: string)
      requires |servName| > 0
      modifies this
      ensures out == old(out) + MethodLines(env, servName, m)
      ensures hname == HandlerName(servName, env.camelCase(m.name))
    {
      var methName := env.camelCase(m.name);
      hname := HandlerName(servName, methName);
      var inType := env.typeName(m.inputType);
      var outType := env.typeName(m.outputType);
      if !m.serverStreaming && !m.clientStreaming {
        P("func (h *" + Unexport(servName) + "ServerClient" + ") " + methName + "(ctx " + env.contextPkg
          + ".Context, in *" + inType + ", _ ...grpc.CallOption" + ") (*" + outType + ", error) {");
        P("return h." + "srv" + "." + methName + "(ctx, in)");
        P("}");
        P("");
        return;
      }
      var outClientType := servName + "_" + methName + "Client";
      if m.serverStreaming && !m.clientStreaming {
        P("func (h *" + Unexport(servName) + "ServerClient" + ") " + methName + "(ctx " + env.contextPkg
          + ".Context, in *" + inType + ", _ ...grpc.CallOption" + ") (cli " + outClientType + ", err error) {");
        P("return");
        P("}");
        P("");
      }
      if m.clientStreaming {
        P("func (h *" + Unexport(servName) + "ServerClient" + ") " + methName + "(ctx " + env.contextPkg
          + ".Context" + ", _ ...grpc.CallOption" + ") (cli " + outClientType + ", err error) {");
        P("return");
        P("}");
        P("");
      }
    }
  }
}
