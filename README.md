# protoc-gen-rest in Dafny

protoc-gen-rest is a `protoc` plugin built on the Go protobuf generator. Its
`rest` generator plugin writes, for each `.proto` file that declares services,
an import block, a "reference imports" preamble and one block per service. Each
block is framed by the marker lines `//Start Services` and `//End Services` and
holds:

- a wrapper type around the service's server;
- a registration function;
- one client-style handler per method;
- a constructor.

After the generator has produced its response files, the program's `main`
rewrites every file in place:

- it inserts `.rest` before the last `.` of the file name;
- it cuts the content down to the header, the filtered single-line imports,
  the plugin's import block and the body of the first service region;
- it replaces every `protoc-gen-go` with `protoc-gen-rest`.

The model has three modules, and a fourth, `Seqs` (`seqs.dfy`), holds lemmas that regroup concatenations for the proofs:

- `Text` (`text.dfy`) holds the Go string primitives the code relies on:
  - `strings.Index` and `strings.LastIndex`, specified by occurrence;
  - `strings.Replace` with `n = -1`;
  - `strings.Join`;
  - `bufio.Scanner`'s default line splitting, which also drops a final `\r`;
  - ASCII `ToLower`.
- `Rest` (`rest.dfy`) is the emitter. The generator's output buffer is the
  field `out` of class `Plugin`, and `P` appends one line to it. Every emitting
  method is proved to append exactly the lines of a specification function:
  `ImportLines`, `ReferenceLines`, `ServiceLines`, `MethodLines` and so on.
  The properties of the generated text are lemmas about those functions:
  - one handler per method, its shape chosen by the streaming flags;
  - each block framed by the two markers;
  - the marker trace of a whole file;
  - the declared names;
  - the two signature builders.
- `Splice` (`splice.dfy`) is the rewriting loop of `main`:
  - the file name;
  - the import scanner, a `while` loop proved against `GenImports`;
  - the slicing;
  - the final replacement;
  - the loop over the response files, which mutate in place as objects of
    class `ResponseFile`.

  Every slice bound that would make Go panic is a precondition (`Spliceable`,
  and a `.` in the name). An end-to-end lemma connects the two halves: for a
  file laid out as the generator writes it, the rewriter keeps the header, the
  filtered imports, the import block and the body of the first service block,
  and drops everything else.

Where the code and the intended behaviour described for the plugin differ, the
model follows the code:

- `foo.pb.go` becomes `foo.pb.rest.go`.
- A name without a dot makes the rewriter slice at index -1, which panics.
  The guard `len(fileName) > index` is always true, so such a name is never
  left unchanged.
- The import filter is two substring tests only. It has no usage-based
  pruning and no blank-import rule.
- Only the region between the first start marker and the first end marker
  survives. With several services, only the first service's code is kept.
- A file without services has no markers. Its rewrite is covered only when the
  slice bounds happen to be in order (`Spliceable`); otherwise Go panics.
- When `//Start Services` is missing, its offset is -1 and the region starts
  at offset 15. This is accepted exactly as the code computes it.

## Model

| member | source | states |
|---|---|---|
| Text.IndexOf | main.go:53 | strings.Index: either -1 with the pattern absent, or an offset where it occurs with no occurrence before it |
| Text.LastIndexOf | main.go:46 | strings.LastIndex: either -1 or an offset where the pattern occurs with no occurrence after it |
| Text.ReplaceAllRemovesEveryMatch | main.go:73 | about Text.ReplaceAll, the model of strings.Replace with n = -1 (left to right, non-overlapping): after a global replacement whose replacement cannot re-create the pattern, the pattern occurs nowhere |
| Text.ReplaceAllWithoutMatch | main.go:73 | text in which the pattern does not occur is returned unchanged by the global replacement |
| Text.Lines | main.go:56-57 | the model of bufio.Scanner with ScanLines: no line it yields contains a newline |
| Text.UnlinesOfLines | main.go:56-57 | about Text.Lines: the scanner's lines, each followed by a newline, give back the scanned text (plus a final newline if it had none) |
| Text.ToLower | rest/rest.go:101 | an upper-case ASCII letter is mapped to its lower-case letter, every other character to itself |
| Splice.Rename | main.go:45-51 | the new name is the old one with ".rest" inserted at the last dot: prefix and suffix kept, 5 characters longer, its last dot 5 further on |
| Splice.RenameInverse | main.go:46-49 | deleting the 5 inserted characters at the last dot gives back the original name |
| Splice.KeywordBeforeBlock | main.go:53 | when "import (" occurs, "import" occurs too and no later, so the import slice is well formed |
| Splice.KeepMeaning | main.go:59-64 | a scanned line is kept iff the first occurrence of " proto " is at offset 0 or there is none (later ones do not matter), and its first "." is present and not at offset 0 |
| Splice.FilterMembers | main.go:57-64 | a line is in the filtered imports iff it is a scanned line that passes the two tests |
| Splice.FilterAppend | main.go:57-64 | filtering is line by line: it distributes over concatenation, keeping order |
| Splice.ScanImports | main.go:54-66 | the scanner loop builds exactly the kept lines in order, each preceded by "\n", followed by "\n\n" |
| Splice.RewriteContent | main.go:52-73 | the loop body computes content[0:p0] + genImports + content[p1:ref] + content[start+16:end] with every protoc-gen-go replaced |
| Splice.GenPluginReplacementSafe | main.go:73 | replacing protoc-gen-go by protoc-gen-rest can neither leave nor create an occurrence of protoc-gen-go |
| Splice.SplicedHasNoGenPlugin | main.go:73 | no protoc-gen-go remains in a rewritten file |
| Splice.SplicedWithoutGenPlugin | main.go:73 | when the assembled text (the cut before the replacement) does not name protoc-gen-go, the replacement leaves it unchanged; the cut itself can join two pieces into the name |
| Splice.RegionHasNoEndMarker | main.go:70-72 | the kept service region contains no "//End Services" |
| Splice.DelimitedSlices | main.go:53-72 | with five delimiters in order, each absent before its place, the first-occurrence offsets are their positions and the slices are the pieces between them |
| Splice.AssembledLayout | main.go:53-72 | a file laid out header, import, imports, import block, reference imports, start marker, region, end marker, rest is rewritable and becomes header + filtered imports + import block + region |
| Splice.GeneratedFileLayout | main.go:53-72 | for a file whose service section is what Generate wrote, the rewrite keeps only the first service block's body between its markers and drops the reference imports and every later service |
| Splice.RewriteFiles | main.go:44-75 | every response file, in order, gets its renamed name and rewritten content, each computed from its own old values |
| Splice.RewriteFile | main.go:45-74 | one file's name becomes Rename of the old name and its content Spliced of the old content |
| Splice.ResponseFile.constructor | main.go:45-52 | a response file holds the name and content it is created with |
| Rest.Unexport | rest/rest.go:101 | same length, the first character mapped by ToLower (so never upper-case), the rest unchanged; identity when the first character is not upper-case |
| Rest.UnexportIdempotent | rest/rest.go:101 | unexporting twice is unexporting once |
| Rest.Plugin.P | rest/rest.go:69 | one line is appended to the output buffer |
| Rest.Plugin.GenerateImports | rest/rest.go:87-98 | appends exactly the import lines, or nothing when the file has no services |
| Rest.ImportsShape | rest/rest.go:87-98 | nothing without services; otherwise "import (", the runtime, grpc and context lines, ")", two empty lines, and no marker line |
| Rest.ImportsHaveNoMarkers | rest/rest.go:91-97 | no line of the import block equals a service marker line |
| Rest.Plugin.Generate | rest/rest.go:72-84 | appends nothing without services; otherwise the reference preamble and then every service's block in declaration order |
| Rest.Plugin.GenerateReference | rest/rest.go:76-79 | appends the reference marker, the two `var _` lines and an empty line |
| Rest.GenerateMarkers | rest/rest.go:72-84 | Generate's output is empty iff there are no services; otherwise it starts with "// Reference imports" and its marker lines are start, end, start, end, … once per service |
| Rest.ServicesLinesFirst | rest/rest.go:81-83 | the service blocks are the first service's block followed by the others' |
| Rest.Plugin.GenerateService | rest/rest.go:105-136 | appends the service's block; one handler name per method, in method order, each "_" + servName + "Server_" + methName + "_Handler" |
| Rest.Plugin.GenerateServiceHead | rest/rest.go:106-120 | appends the start marker, the wrapper type and the registration function |
| Rest.Plugin.GenerateHandlers | rest/rest.go:123-127 | appends the methods' handlers in order and returns their names in order |
| Rest.Plugin.GenerateServiceTail | rest/rest.go:129-135 | appends the constructor and the end marker |
| Rest.ServiceMarkers | rest/rest.go:105-136 | a service block starts with "//Start Services", ends with "//End Services" and has no other marker line |
| Rest.ServiceFramed | rest/rest.go:105-136 | a service block is its body framed by the two marker lines |
| Rest.ServiceDeclares | rest/rest.go:111-130 | a service block declares type unexport(servName)+"ServerClient", Register<Serv>ServerHandlerClient and New<Serv>ServerClient |
| Rest.Plugin.GenerateServerMethod | rest/rest.go:138-164 | appends exactly the handler lines for the method's shape and returns its handler name |
| Rest.HandlerShape | rest/rest.go:143-162 | exactly one four-line handler per method; it forwards to h.srv iff unary, otherwise it returns bare; only the client-streaming signature lacks `in` |
| Rest.ServerArgs | rest/rest.go:186-198 | the context argument first; `*in` unless client-streaming; `*out` iff unary; a Stream argument otherwise |
| Rest.ServerSignatureShape | rest/rest.go:183-200 | about Rest.ServerSignature, the model of generateServerSignature: the server signature returns error, with arguments (ctx, *in, *out), (ctx, *in, Stream) or (ctx, Stream) by shape |
| Rest.ClientSignatureShape | rest/rest.go:167-180 | about Rest.ClientSignature, the model of generateClientSignature: the client signature omits `in` iff client-streaming and returns `*out` iff unary, a serverClient type otherwise |

## Left out

- Reading the request from stdin and writing the response to stdout, `proto.Unmarshal` and `proto.Marshal`, and `g.Error` and `g.Fail`, which abort the process (main.go:20-31, 78-85). These are I/O and calls into library code.
- The generator pipeline: `generator.New`, `CommandLineParameters`, `WrapTypes`, `SetPackageNames`, `BuildTypeNameMap`, `GenerateAllFiles`, the plugin registration and `RegisterUniquePackageName`. These are library internals. The package names they produce are the `contextPkg` and `clientPkg` fields of `Env`.
- `typeName`, `objectNamed`/`RecordTypeUse`, `generator.CamelCase` and `path.Join` with the import prefix are uninterpreted function fields of `Env`.
- Rest.Plugin.P: only the concatenation of the arguments is modelled, not the generator's indentation or gofmt formatting.
- Rest.Quote: it models `strconv.Quote` only for text without quotes, backslashes or control characters. The import paths it is applied to are of that kind.
- Text.ToLower: it models ASCII letters only. Unicode case mapping is not modelled.
- Text.UnlinesOfLines: the round trip is stated only for text without carriage returns, because the scanner drops a `\r` before each newline. The model of the scan itself (`Lines`) does drop them, as the scanner does.
- `bufio.Scanner`'s token-size limit is not modelled. A longer import line would stop the scan early in Go.
- Rest.Plugin.GenerateService: it returns `handlerNames`, which the Go function collects and then drops. Its contents can therefore be stated.
- Go strings are byte strings, while the model works on `char` sequences. All text involved is ASCII.
