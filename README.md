# RhealAI analysis core, modelled in Dafny

RhealAI analyses an uploaded code repository. It classifies the repository's files and groups them by folder. It takes coding standards from the repository's Markdown documentation, or derives them from the code. It sends the code files in batches of ten to a language model, or to an offline demo mode, to find standard violations and bugs. Finally it assembles an analysis report with per-file counts and histograms, caches it, and reports progress percentages along the way. An Angular front end shows the report, the standards and the upload progress.

This project models that core:

- **Backend services:** the report pipeline (`ReportService`), the model-reply handling, batching, progress formulas, demo generators and heuristic classifiers of `AIAnalysisService`, the standards extraction of `DocumentationService`, the rule-based `StandardsGeneratorService`, the file classifier `FileAnalyzer`, the folder grouping of `FolderStructureAnalyzer` and the keyed store `InMemoryCache`.
- **Front-end helpers:** the pure helpers of the analysis-result page, the severity badge, the two detail dialogs, the standards page and the upload page's activity icon, and the source-selection state machine of the file-upload widget.

Each source file has its own module. The shared modules are:

- `Wrappers`: Option and Result types.
- `Text`: case folding, both white-space sets, containment and decimal rendering.
- `Paths`: file name, directory and extension, with '/' as the directory separator and splits on both '/' and '\\' where the code splits on both.
- `Collections`: `GroupBy`, counting and `Distinct` in first-appearance order, the order in which .NET dictionaries and `GroupBy` enumerate.
- `Progress`: the integer progress formulas.
- `Batches`: `Chunk(10)` and the batch loops.
- `Chat`: the provider setting.
- `Domain` and `WebModels`: the entities.

The modelled parts are written as follows:

- **Reply parsing:**
  - The language model is a function from prompt to reply, where `None` is a call that threw.
  - JSON deserialisation is a function from text to decoded lists.
  - Progress is the list of percentages sent, which is empty when there is no hub or no connection id.
- **Stateful code:**
  - Loops become methods with invariants, proved against specification functions.
  - The cache and the upload widget are classes.
  - The pipeline's cache writes are stated as the new state of the cache.

Two behaviours of the code are worth knowing:

- **Progress is not monotone.** The project-summary stage sends 7 after 20 (RhealAI.Infrastructure/Services/AIAnalysisService.cs:418), and the final report is announced at 96 after 97 (RhealAI.Infrastructure/Services/ReportService.cs:107, 120). `Reports.ReportProgress` proves that these are the only two places where the values fall. `Reports.CompletedReportOpening` and `Reports.CompletedReportClosing` prove that both falls occur in every completed run with a hub.
- **The end line is not defaulted.** `ParseViolationsFromResponse` never sets `EndLineNumber`, so a parsed violation keeps the value 0 (`ReplyParsing.ParsedViolationsDefaults`).

## Model

| member | source | states |
|---|---|---|
| AIAnalysis.FirstStandardName | RhealAI.Infrastructure/Services/AIAnalysisService.cs:294-295 | the name of the first standard when there is one, the literal fallback when the list is empty |
| AIAnalysis.MockViolation | RhealAI.Infrastructure/Services/AIAnalysisService.cs:290-300 | one demo violation; `MockViolations` states its fields for each of the first five files |
| AIAnalysis.MockViolations | RhealAI.Infrastructure/Services/AIAnalysisService.cs:283-304 | one violation for each of the first five files (fewer when there are fewer), in file order, on that file's path, Medium and NamingConvention, at line `Next(1, max(2, LineCount))` of a fresh `Random(42)`, so in [1, max(2, LineCount)) |
| AIAnalysis.GenerateMockViolations | RhealAI.Infrastructure/Services/AIAnalysisService.cs:283-304 | the `foreach` over `files.Take(5)` builds exactly the demo violations described above |
| AIAnalysis.MockBug | RhealAI.Infrastructure/Services/AIAnalysisService.cs:313-331 | a demo bug keeps the file's path and the drawn line, is High and lists three reproduction steps |
| AIAnalysis.MockBugs | RhealAI.Infrastructure/Services/AIAnalysisService.cs:306-334 | one High bug with three reproduction steps for each of the first three files, in order, each line in [1, max(2, LineCount)) |
| AIAnalysis.GenerateMockBugs | RhealAI.Infrastructure/Services/AIAnalysisService.cs:306-334 | the `foreach` over `files.Take(3)` builds exactly the demo bugs described above |
| AIAnalysis.MockLinesAgree | RhealAI.Infrastructure/Services/AIAnalysisService.cs:286-314 | both generators seed a new `Random(42)`, so the demo bug and the demo violation of each of the first three files sit on the same line |
| AIAnalysis.DemoEvents | RhealAI.Infrastructure/Services/AIAnalysisService.cs:35-43 | the demo loops' progress: `base` first, then `base + i*span/n` for each file, nothing without a listener; `DemoEventsShape` and `ReportFiles` state its properties |
| AIAnalysis.DemoEventsShape | RhealAI.Infrastructure/Services/AIAnalysisService.cs:35-43 | the demo progress (the opening value, then `base + i*span/n` per file) never decreases and stays in [base, base+span-1]: [42, 66] for violations, [72, 86] for bugs (the bug loop at lines 105-113 is the same) |
| AIAnalysis.ReportFiles | RhealAI.Infrastructure/Services/AIAnalysisService.cs:35-43 | the demo progress loop emits exactly the demo progress sequence, and nothing when there is no listener (the bug loop at lines 105-113 is the same) |
| AIAnalysis.ViolationAnswers | RhealAI.Infrastructure/Services/AIAnalysisService.cs:55-92 | one answer per batch of `files.Chunk(10)` |
| AIAnalysis.AnalyzeCodeViolations | RhealAI.Infrastructure/Services/AIAnalysisService.cs:28-96 | demo provider (missing or "Demo" in any case): the demo progress from 42 and the demo violations; otherwise the batch loop over `Chunk(10)` with the per-file and per-batch progress formulas and the parsed replies concatenated |
| AIAnalysis.BugAnswers | RhealAI.Infrastructure/Services/AIAnalysisService.cs:121-157 | one answer per batch of `files.Chunk(10)` |
| AIAnalysis.DetectBugs | RhealAI.Infrastructure/Services/AIAnalysisService.cs:98-162 | demo provider: the demo progress from 72 and the demo bugs; otherwise the batch loop with the bug-detection progress formulas |
| AIAnalysis.ViolationProgress | RhealAI.Infrastructure/Services/AIAnalysisService.cs:69-86 | the model-path progress `42+(b-1)*25/T+i*25/(T*len)` and `42+b*25/T` never decreases and lies in [42, 67] for every file list, the empty one included; with files, a listener and every batch answered there is one value per file plus one per batch, and the last is 67 |
| AIAnalysis.BugProgress | RhealAI.Infrastructure/Services/AIAnalysisService.cs:136-153 | the same for bugs: non-decreasing and in [72, 87] for every file list; ending at 87 when there are files and every batch is answered |
| AIAnalysis.ViolationFindings | RhealAI.Infrastructure/Services/AIAnalysisService.cs:59-92 | the run succeeds exactly when no chat request throws, and then returns the per-batch parses concatenated in batch order |
| AIAnalysis.BugFindings | RhealAI.Infrastructure/Services/AIAnalysisService.cs:125-158 | the same for the bug batches |
| AIAnalysis.DirectoryRole | RhealAI.Infrastructure/Services/AIAnalysisService.cs:349-380 | the directory rules of `GetFileType` in source order, each a case-insensitive `Contains`; `DirectoryRoleOfLower` and `DirectoryRoleWins` state its properties |
| AIAnalysis.DirectoryRoleOfLower | RhealAI.Infrastructure/Services/AIAnalysisService.cs:349-380 | the directory rules compare ignoring case, so lower-casing the directory name changes no role |
| AIAnalysis.FileKindLabel | RhealAI.Infrastructure/Services/AIAnalysisService.cs:344-409 | the service's `GetFileType` label; `DirectoryRoleWins`, `ExtensionDecides` and `FileKindLabelIgnoresCase` state the rule order, the extension table and the case-insensitivity |
| AIAnalysis.KindLabel | RhealAI.Infrastructure/Services/AIAnalysisService.cs:382-409 | a directory role when there is one, else the extension switch with "Code File" as default; `DirectoryRoleWins` and `ExtensionDecides` state its properties |
| AIAnalysis.FileKindLabelIgnoresCase | RhealAI.Infrastructure/Services/AIAnalysisService.cs:344-409 | `GetFileType` gives the same label for a path and its lower-cased form |
| AIAnalysis.DirectoryRoleWins | RhealAI.Infrastructure/Services/AIAnalysisService.cs:346-380 | when the file's directory name contains a role word, that role is the label whatever the extension |
| AIAnalysis.ExtensionDecides | RhealAI.Infrastructure/Services/AIAnalysisService.cs:382-409 | outside role directories the label is the extension table's entry for the lower-cased extension, and "Code File" for any other extension |
| AIAnalysis.IsKeyFile | RhealAI.Infrastructure/Services/AIAnalysisService.cs:471-483 | `IsKeyFile`; `IsKeyFileIgnoresCase` and `ProjectFilesAreKey` state the case-insensitivity and the project-file patterns |
| AIAnalysis.IsKeyFileIgnoresCase | RhealAI.Infrastructure/Services/AIAnalysisService.cs:471-483 | whether a file is a key file does not depend on letter case |
| AIAnalysis.ProjectFilesAreKey | RhealAI.Infrastructure/Services/AIAnalysisService.cs:475-482 | a file whose name ends in a project-file pattern (".csproj", ".vbproj", ".fsproj", ".sln") is a key file in any folder and any case |
| ReplyParsing.ExtractJson | RhealAI.Infrastructure/Services/AIAnalysisService.cs:216-228 | the cleaned reply is never longer than the reply and has no white space at either end |
| ReplyParsing.ExtractJsonUnfenced | RhealAI.Infrastructure/Services/AIAnalysisService.cs:216-228 | a reply with no opening or closing fence comes back only trimmed |
| ReplyParsing.ExtractJsonFenced | RhealAI.Infrastructure/Services/AIAnalysisService.cs:219-225 | a body wrapped in a "```json" fence comes back as the trimmed body |
| ReplyParsing.ExtractJsonPlainFenced | RhealAI.Infrastructure/Services/AIAnalysisService.cs:221-225 | a body wrapped in a bare "```" fence comes back as the trimmed body, unless the body itself starts with "json" |
| ReplyParsing.ParseSeverity | RhealAI.Infrastructure/Services/AIAnalysisService.cs:246-255 | `ParseSeverity`: case-insensitive "critical", "high", "medium", else Low; `ParseSeverityName`, `ParseSeverityFallback` and `ParseIgnoresCase` state the round trip, the fallback iff and the case-insensitivity |
| ReplyParsing.ParseSeverityName | RhealAI.Infrastructure/Services/AIAnalysisService.cs:246-255 | each severity's own name parses back to that severity |
| ReplyParsing.ParseSeverityFallback | RhealAI.Infrastructure/Services/AIAnalysisService.cs:248-254 | the result is Low exactly when the value is null or, lower-cased, none of "critical", "high", "medium" |
| ReplyParsing.ParseViolationType | RhealAI.Infrastructure/Services/AIAnalysisService.cs:230-244 | `ParseViolationType`: the eight names ignoring case, else BestPractice; `ParseViolationTypeName` and `ParseViolationTypeFallback` state the round trip and the fallback iff |
| ReplyParsing.ParseViolationTypeName | RhealAI.Infrastructure/Services/AIAnalysisService.cs:230-244 | each violation type's own name parses back to that type |
| ReplyParsing.ParseFirstTypeNames | RhealAI.Infrastructure/Services/AIAnalysisService.cs:234-236 | the names NamingConvention, Architecture and Security parse back |
| ReplyParsing.ParseMiddleTypeNames | RhealAI.Infrastructure/Services/AIAnalysisService.cs:237-239 | the names Performance, CodeSmell and Documentation parse back |
| ReplyParsing.ParseLastTypeNames | RhealAI.Infrastructure/Services/AIAnalysisService.cs:240-242 | the names Testing, ErrorHandling and BestPractice parse back |
| ReplyParsing.ParseViolationTypeFallback | RhealAI.Infrastructure/Services/AIAnalysisService.cs:232-243 | the result is BestPractice exactly when the value is null or, lower-cased, none of the eight names |
| ReplyParsing.ParseIgnoresCase | RhealAI.Infrastructure/Services/AIAnalysisService.cs:232-248 | both parsers give the same result for a value and its lower-cased form |
| ReplyParsing.ParseList | RhealAI.Infrastructure/Services/AIAnalysisService.cs:164-187 | a list without null elements becomes one converted finding per element, in order; malformed JSON, the JSON literal null and a list holding a null element all give the empty list, never an exception |
| ReplyParsing.OrElse | RhealAI.Infrastructure/Services/AIAnalysisService.cs:173 | `value ?? fallback` |
| ReplyParsing.ToViolation | RhealAI.Infrastructure/Services/AIAnalysisService.cs:171-181 | the DTO-to-violation conversion with its `??` defaults and the two enum parsers; `EmptyViolationDto`, `ParsedViolationsDefaults` and `ViolationsRoundTrip` state its properties |
| ReplyParsing.ParseViolations | RhealAI.Infrastructure/Services/AIAnalysisService.cs:164-187 | `ParseViolationsFromResponse`: the fenced JSON list converted element by element, or [] on failure; `ParseList`, `ParsedViolationsDefaults` and `ViolationsRoundTrip` state its behaviour |
| ReplyParsing.EmptyViolationDto | RhealAI.Infrastructure/Services/AIAnalysisService.cs:171-181 | an object with no fields becomes a Low BestPractice violation named "Unknown Rule" with empty texts |
| ReplyParsing.ParsedViolationsDefaults | RhealAI.Infrastructure/Services/AIAnalysisService.cs:171-181 | no parsed violation has a file id or an end line: `EndLineNumber` stays 0 |
| ReplyParsing.ViolationsRoundTrip | RhealAI.Infrastructure/Services/AIAnalysisService.cs:164-187 | a reply that encodes a list of violations (fields present, enumerations by name) parses back to exactly that list |
| ReplyParsing.ToBug | RhealAI.Infrastructure/Services/AIAnalysisService.cs:196-208 | the DTO-to-bug conversion with its `??` defaults; `EmptyBugDto` and `BugsRoundTrip` state its properties |
| ReplyParsing.ParseBugs | RhealAI.Infrastructure/Services/AIAnalysisService.cs:189-214 | `ParseBugsFromResponse`: the same for bugs; `BugsRoundTrip` states that an encoded bug list parses back exactly |
| ReplyParsing.EmptyBugDto | RhealAI.Infrastructure/Services/AIAnalysisService.cs:196-208 | an object with no fields becomes a Low bug titled "Untitled Bug" with no reproduction steps |
| ReplyParsing.BugsRoundTrip | RhealAI.Infrastructure/Services/AIAnalysisService.cs:189-214 | a reply that encodes a list of bugs parses back to exactly that list |
| ReplyParsing.ToStandard | RhealAI.Infrastructure/Services/DocumentationService.cs:133-141 | the DTO-to-standard conversion with the given source file and origin; `EmptyStandardDto` and `ParsedStandardsOrigin` state its properties |
| ReplyParsing.ParseStandards | RhealAI.Infrastructure/Services/DocumentationService.cs:125-147 | `ParseStandardsFromResponse`: the same for standards with the given source file and origin; `ParsedStandardsOrigin` and `EmptyStandardDto` state the attribution and the defaults |
| ReplyParsing.ParsedStandardsOrigin | RhealAI.Infrastructure/Services/DocumentationService.cs:133-141 | every parsed standard carries the given source file and origin flag, with no tech stack and no tags |
| ReplyParsing.EmptyStandardDto | RhealAI.Infrastructure/Services/DocumentationService.cs:133-141 | an object with no fields becomes "Unnamed Standard" in category "General" with no examples |
| Chat.ProviderName | RhealAI.Infrastructure/Services/AIAnalysisService.cs:30 | `_configuration["AI:Provider"] ?? "Demo"`: a configured value is used as it is |
| Chat.DemoByDefault | RhealAI.Infrastructure/Services/AIAnalysisService.cs:30-32 | a missing provider setting is the demo provider, and a configured one is the demo provider exactly when it equals "Demo" ignoring case |
| Documentation.DemoStandardsShape | RhealAI.Infrastructure/Services/DocumentationService.cs:171-239 | demo mode returns exactly five standards in the fixed category order Naming, Error Handling, Documentation, Performance, Architecture, none from existing documents, all with source "Demo-Generated"; their example counts are 3, 1, 1, 2, 1 |
| Documentation.MarkdownStep | RhealAI.Infrastructure/Services/DocumentationService.cs:50-72 | one pass of the markdown loop: a file not typed Markdown is skipped; a Markdown file reports `26 + i*12/n`, and either ends the operation (the call throws) or adds its parsed standards |
| Documentation.MarkdownAdvance | RhealAI.Infrastructure/Services/DocumentationService.cs:50-72 | the same step, stated on the loop's accumulated standards and progress |
| Documentation.ExtractStandardsFromMarkdown | RhealAI.Infrastructure/Services/DocumentationService.cs:29-76 | demo provider: the demo progress from 26 and the five demo standards; otherwise 26, then the markdown loop and the closing 38 |
| Documentation.MarkdownFrom | RhealAI.Infrastructure/Services/DocumentationService.cs:50-76 | the markdown loop from file `i` on: each pass as `MarkdownStep` describes it, then the closing 38; `MarkdownOk`, `MarkdownOrigin`, `MarkdownEvents` and `MarkdownEndsAt38` state its properties |
| Documentation.MarkdownOk | RhealAI.Infrastructure/Services/DocumentationService.cs:50-72 | the markdown loop succeeds exactly when no request for a Markdown file throws |
| Documentation.MarkdownAnsweredStep | RhealAI.Infrastructure/Services/DocumentationService.cs:53 | only Markdown-typed files reach the model |
| Documentation.MarkdownOrigin | RhealAI.Infrastructure/Services/DocumentationService.cs:66-70 | every collected standard is marked as coming from the documents and names a Markdown file of the input as its source |
| Documentation.MarkdownEvents | RhealAI.Infrastructure/Services/DocumentationService.cs:56-75 | the loop's progress never decreases and stays between the current file's value and 38 |
| Documentation.MarkdownEventsStep | RhealAI.Infrastructure/Services/DocumentationService.cs:56-75 | the progress bound carries over from file `i+1` to file `i` |
| Documentation.MarkdownEventsOf | RhealAI.Infrastructure/Services/DocumentationService.cs:53-57 | the progress of one pass: nothing for a skipped file, `26 + i*12/n` for a Markdown file |
| Documentation.MarkdownEndsAt38 | RhealAI.Infrastructure/Services/DocumentationService.cs:75 | with a listener and every call answered, the last progress value is 38 |
| Documentation.MarkdownProgress | RhealAI.Infrastructure/Services/DocumentationService.cs:35-75 | demo progress stays in [26, 37] and never decreases; the model path's progress stays in [26, 38] and never decreases |
| Documentation.CodeSample | RhealAI.Infrastructure/Services/DocumentationService.cs:99-102 | `Where(IsCodeFile).Take(20)`; `CodeSampleShape` states what the sample holds |
| Documentation.CodeSampleShape | RhealAI.Infrastructure/Services/DocumentationService.cs:99-102 | the sample holds at most 20 files, each a code file of the input; when it holds fewer than 20 it holds every code file of the input |
| Documentation.GenerateStandardsFromCodebase | RhealAI.Infrastructure/Services/DocumentationService.cs:78-123 | demo provider: progress 26, 30, 35 and the demo standards; otherwise the same progress, the sampled files sent in one request, and on an answer the parsed reply attributed to "AI-Generated" with a closing 40; a call that throws fails the operation |
| Documentation.AskForStandards | RhealAI.Infrastructure/Services/DocumentationService.cs:117-122 | the request's reply parsed as generated standards plus the closing 40, or the failure when the call throws |
| Documentation.GeneratedStandardsOrigin | RhealAI.Infrastructure/Services/DocumentationService.cs:119 | generated standards are never marked as coming from documents and all name "AI-Generated" as their source |
| Batches.Sizes | RhealAI.Infrastructure/Services/AIAnalysisService.cs:55-68 | the length of each batch, in order |
| Batches.BatchRun | RhealAI.Infrastructure/Services/AIAnalysisService.cs:55-95 | the batch loop as a function of the batch sizes and the answers: each batch's progress, then its findings or the failure that ends the run; `BatchRunResult`, `BatchRunEvents` and `BatchRunCompletes` state its properties, `RunBatches` proves the loop equal to it |
| Batches.BatchRunStep | RhealAI.Infrastructure/Services/AIAnalysisService.cs:59-92 | one pass of the batch loop: the per-file and batch-end progress of batch `k+1`, then failure when its request throws or its findings followed by the rest |
| Batches.ReportBatch | RhealAI.Infrastructure/Services/AIAnalysisService.cs:64-86 | the progress loop of one batch emits exactly that batch's progress values, and nothing without a listener |
| Batches.RunBatches | RhealAI.Infrastructure/Services/AIAnalysisService.cs:55-95 | the `foreach` over the batches produces exactly the batch run: same findings, same failure, same progress |
| Batches.Replies | RhealAI.Infrastructure/Services/AIAnalysisService.cs:90-91 | the findings of each answered batch, in order |
| Batches.BatchRunResult | RhealAI.Infrastructure/Services/AIAnalysisService.cs:55-95 | the run succeeds exactly when every batch is answered, and then returns all batches' findings concatenated in batch order |
| Batches.BatchRunEvents | RhealAI.Infrastructure/Services/AIAnalysisService.cs:69-86 | the batch progress never decreases and stays in [base, base+span] |
| Batches.BatchRunCompletes | RhealAI.Infrastructure/Services/AIAnalysisService.cs:64-86 | with a listener and every batch answered there is one progress value per file and one per batch, and the last is base+span |
| Batches.ChunkSizes | RhealAI.Infrastructure/Services/AIAnalysisService.cs:55 | the batch sizes of `Chunk(10)` add up to the number of files and none is zero |
| Batches.SumSizesFlatten | RhealAI.Infrastructure/Services/AIAnalysisService.cs:55 | the batch sizes add up to the length of the batches concatenated |
| Progress.Emit | RhealAI.Infrastructure/Services/AIAnalysisService.cs:336-342 | `SendProgress` records the value exactly when there is a hub and a non-empty connection id |
| Progress.Step | RhealAI.Infrastructure/Services/AIAnalysisService.cs:41 | the per-file formula `base + i*span/n` of the demo loops and the markdown loop; `StepAtEnd`, `StepBounds` and `StepMono` state its properties |
| Progress.StepAtEnd | RhealAI.Infrastructure/Services/DocumentationService.cs:40 | `base + i*span/n` reaches `base + span` at `i = n` |
| Progress.StepBounds | RhealAI.Infrastructure/Services/AIAnalysisService.cs:40 | for `i < n` the per-file value `base + i*span/n` lies in [base, base+span-1] (the bug loop, line 110, uses the same formula) |
| Progress.StepMono | RhealAI.Infrastructure/Services/AIAnalysisService.cs:40 | the per-file value never decreases as `i` grows (the bug loop, line 110, uses the same formula) |
| Progress.Steps | RhealAI.Infrastructure/Services/AIAnalysisService.cs:36-43 | the per-file values of the first `k` items, in order |
| Progress.StepsShape | RhealAI.Infrastructure/Services/AIAnalysisService.cs:36-43 | the per-file values of all `n` items never decrease and lie in [base, base+span-1] |
| Progress.FileOffsetBound | RhealAI.Infrastructure/Services/AIAnalysisService.cs:69 | the within-batch term `i*span/(T*len)` never exceeds one batch's share `span/T` |
| Progress.BatchEndStep | RhealAI.Infrastructure/Services/AIAnalysisService.cs:69-86 | the end value of batch `b-1` plus one share is at most the end value of batch `b` |
| Progress.FileStep | RhealAI.Infrastructure/Services/AIAnalysisService.cs:70 | the per-file formula `base + (b-1)*span/T + i*span/(T*len)` of the batch loops; `FileStepBounds` and `FileStepMono` state its properties |
| Progress.FileStepBounds | RhealAI.Infrastructure/Services/AIAnalysisService.cs:69-86 | each per-file value of batch `b` lies between the end values of batches `b-1` and `b` |
| Progress.FileStepMono | RhealAI.Infrastructure/Services/AIAnalysisService.cs:69 | within a batch the per-file value never decreases |
| Progress.BatchEnd | RhealAI.Infrastructure/Services/AIAnalysisService.cs:86 | the batch-end formula `base + b*span/T`; `BatchEndStep`, `BatchEndMono` and `BatchEndRange` state its properties |
| Progress.BatchEndMono | RhealAI.Infrastructure/Services/AIAnalysisService.cs:86 | the batch-end values never decrease |
| Progress.BatchEndRange | RhealAI.Infrastructure/Services/AIAnalysisService.cs:86 | the batch-end values lie in [base, base+span], starting (batch 0) at base and ending (batch T) at base+span |
| Progress.FileSteps | RhealAI.Infrastructure/Services/AIAnalysisService.cs:64-71 | the per-file values of the first `k` files of a batch, in order |
| Progress.BatchEvents | RhealAI.Infrastructure/Services/AIAnalysisService.cs:64-86 | a batch reports one value per file and then its batch-end value |
| Progress.BatchEventsShape | RhealAI.Infrastructure/Services/AIAnalysisService.cs:64-86 | a batch's values never decrease and lie between the previous and the current batch-end value |
| Collections.Take | RhealAI.Infrastructure/Services/AIAnalysisService.cs:288-311 | `Take(n)` is the prefix of length min(n, length) |
| Collections.Chunk | RhealAI.Infrastructure/Services/AIAnalysisService.cs:55 | LINQ `Chunk(n)`; `ChunkCorrect` states that it partitions the list into consecutive batches |
| Collections.ChunkCorrect | RhealAI.Infrastructure/Services/AIAnalysisService.cs:55 | `Chunk(n)` partitions the list into consecutive batches: concatenated they give the list back, each batch has 1..n elements and every batch but the last has exactly n (the bug loop chunks at line 122) |
| Collections.GroupBy | RhealAI.Infrastructure/FileProcessing/FolderStructureAnalyzer.cs:18 | LINQ `GroupBy`; `GroupByCorrect` states its keys and groups |
| Collections.GroupByCorrect | RhealAI.Infrastructure/FileProcessing/FolderStructureAnalyzer.cs:18 | LINQ `GroupBy`: distinct keys in first-appearance order, each present exactly when some element has it, each group the elements with that key in input order and never empty, the group sizes summing to the input length |
| Collections.CountBy | RhealAI.Infrastructure/Services/ReportService.cs:141-152 | a label histogram; `CountByCorrect` states its keys and counts |
| Collections.CountByCorrect | RhealAI.Infrastructure/Services/ReportService.cs:141-152 | a histogram keyed by label: distinct keys, one per label that occurs, each count the number of elements with that label and above zero, the counts summing to the input length |
| Collections.DistinctValues | RhealAI.Infrastructure/Services/ReportService.cs:110-112 | LINQ `Distinct()`; `DistinctValuesCorrect` states that each value appears once and exactly the input's values appear |
| Collections.DistinctValuesCorrect | RhealAI.Infrastructure/Services/ReportService.cs:110-112 | `Distinct()` keeps each value once, is no longer than the input and holds exactly the input's values |
| Collections.DistinctCount | RhealAI.Infrastructure/Services/ReportService.cs:110-112 | the number of distinct values is the size of the set of values |
| Collections.InsertDescending | RhealAI.Infrastructure/Persistence/InMemoryCache.cs:45 | inserting into a list sorted by non-increasing key keeps it sorted and adds exactly that element |
| Collections.Filter | RhealAI.Infrastructure/Services/DocumentationService.cs:100 | `Where(p)`: no longer than the input; holds exactly the elements satisfying `p` |
| Collections.FilterComplement | RhealAI.Infrastructure/Services/ReportService.cs:50-51 | the elements satisfying `p` and those satisfying its negation together are the input, as a multiset |
| Collections.CountWhere | RhealAI.Web/src/app/features/standards/standards-page/standards-page.component.ts:44-50 | a count of matching elements is at most the input length |
| Collections.CountWhereExtremes | RhealAI.Web/src/app/features/standards/standards-page/standards-page.component.ts:44-50 | the count is 0 exactly when no element matches and the input length exactly when all do |
| Persistence.ReportsOfSnoc | RhealAI.Infrastructure/Persistence/InMemoryCache.cs:43-44 | enumerating one more report id adds that report exactly when it belongs to the repository |
| Persistence.ReportsOfMembers | RhealAI.Infrastructure/Persistence/InMemoryCache.cs:43-44 | the filtered reports are exactly the stored reports of the enumerated ids whose `RepositoryId` matches |
| Persistence.InMemoryCache.constructor | RhealAI.Infrastructure/Persistence/InMemoryCache.cs:11-12 | both dictionaries start empty |
| Persistence.InMemoryCache.AddRepository | RhealAI.Infrastructure/Persistence/InMemoryCache.cs:14-17 | upsert under the repository's id: that key now maps to it, every other key and all reports are unchanged |
| Persistence.InMemoryCache.GetRepository | RhealAI.Infrastructure/Persistence/InMemoryCache.cs:19-23 | a stored id gives its repository, an id never added gives null |
| Persistence.InMemoryCache.AddReport | RhealAI.Infrastructure/Persistence/InMemoryCache.cs:25-28 | upsert under the report's id: that key now maps to it, every other key and all repositories are unchanged |
| Persistence.InMemoryCache.GetReport | RhealAI.Infrastructure/Persistence/InMemoryCache.cs:30-34 | a stored id gives its report, an id never added gives null |
| Persistence.InMemoryCache.GetAllRepositories | RhealAI.Infrastructure/Persistence/InMemoryCache.cs:36-39 | one entry per stored id, in some enumeration order of the keys |
| Persistence.InMemoryCache.GetReportsByRepositoryId | RhealAI.Infrastructure/Persistence/InMemoryCache.cs:41-47 | exactly the stored reports with that `RepositoryId` (as a multiset over an enumeration of the keys), sorted by non-increasing `GeneratedAt` |
| Persistence.DistinctKeysCount | RhealAI.Infrastructure/Persistence/InMemoryCache.cs:38 | a duplicate-free enumeration of the keys has one entry per stored id |
| FileAnalyzer.GetFileType | RhealAI.Infrastructure/FileProcessing/FileAnalyzer.cs:260-295 | `GetFileType`: a special file name is classified by its name branch, anything else by the ignore-case extension table or as Unknown; its properties are stated by `SpecialNamesResolve`, `RequirementsTxtIsConfiguration`, `ExtensionTypeIgnoresCase` and `UnmappedIsUnknown` |
| FileAnalyzer.SpecialType | RhealAI.Infrastructure/FileProcessing/FileAnalyzer.cs:264-289 | the special-name branches in source order, compared ignoring case, or none; `SpecialNamesResolve` and `SpecialNamesHaveType` state its properties |
| FileAnalyzer.SpecialNamesResolve | RhealAI.Infrastructure/FileProcessing/FileAnalyzer.cs:260-289 | a file whose name is in `SpecialFileNames` (any case) is classified by a name branch and never reaches the extension table |
| FileAnalyzer.SpecialNamesHaveType | RhealAI.Infrastructure/FileProcessing/FileAnalyzer.cs:230-249 | every entry of `SpecialFileNames` is matched by one of the name branches (also lines 264-288) |
| FileAnalyzer.SpecialInFolder | RhealAI.Infrastructure/FileProcessing/FileAnalyzer.cs:263-289 | the folder a special file sits in does not change its name-based type |
| FileAnalyzer.RequirementsTxtSpecial | RhealAI.Infrastructure/FileProcessing/FileAnalyzer.cs:230-249 | "requirements.txt" is a special name and its name branch gives Configuration (also lines 272-276) |
| FileAnalyzer.CMakeListsSpecial | RhealAI.Infrastructure/FileProcessing/FileAnalyzer.cs:230-249 | "CMakeLists.txt" is a special name and its name branch gives Configuration (also lines 272-276) |
| FileAnalyzer.RequirementsTxtIsConfiguration | RhealAI.Infrastructure/FileProcessing/FileAnalyzer.cs:264-289 | a file named "requirements.txt" is Configuration, although ".txt" is in the extension table |
| FileAnalyzer.CMakeListsIsConfiguration | RhealAI.Infrastructure/FileProcessing/FileAnalyzer.cs:264-289 | a file named "CMakeLists.txt" is Configuration |
| FileAnalyzer.TxtIsMarkdown | RhealAI.Infrastructure/FileProcessing/FileAnalyzer.cs:81-228 | the extension table maps ".txt" to Markdown |
| FileAnalyzer.RequirementsInFolder | RhealAI.Infrastructure/FileProcessing/FileAnalyzer.cs:263-289 | "requirements.txt" in any folder is Configuration |
| FileAnalyzer.CMakeListsInFolder | RhealAI.Infrastructure/FileProcessing/FileAnalyzer.cs:263-289 | "CMakeLists.txt" in any folder is Configuration |
| FileAnalyzer.ExtensionType | RhealAI.Infrastructure/FileProcessing/FileAnalyzer.cs:292-295 | the extension table looked up ignoring case, `Unknown` for a missing key; `ExtensionTypeIgnoresCase` and `UnmappedIsUnknown` state its properties |
| FileAnalyzer.ExtensionTypeIgnoresCase | RhealAI.Infrastructure/FileProcessing/FileAnalyzer.cs:292-295 | the extension lookup ignores letter case (".CS" is C#) (the map is built with an ignore-case comparer, line 81) |
| FileAnalyzer.UnmappedIsUnknown | RhealAI.Infrastructure/FileProcessing/FileAnalyzer.cs:292-295 | outside the special names, an extension missing from the table gives Unknown and a listed one gives its entry; a path with no extension is covered, since the empty extension is not a key of the table |
| FileAnalyzer.IsIgnoredFolder | RhealAI.Infrastructure/FileProcessing/FileAnalyzer.cs:10-79 | membership in the ignored-folder set, ignoring case; `ShouldIgnoreJoined` states how it decides `ShouldIgnoreFile` |
| FileAnalyzer.ShouldIgnoreFile | RhealAI.Infrastructure/FileProcessing/FileAnalyzer.cs:251-255 | `ShouldIgnoreFile`: some whole, non-empty path segment is an ignored folder name ignoring case; `ShouldIgnoreJoined` states this for joined paths |
| FileAnalyzer.ShouldIgnoreJoined | RhealAI.Infrastructure/FileProcessing/FileAnalyzer.cs:251-255 | on a path made of non-empty segments, the file is ignored exactly when one whole segment equals an ignored folder name ignoring case, so a segment that only contains one (like "node_modules_old") does not count |
| FileAnalyzer.IsCodeFile | RhealAI.Infrastructure/FileProcessing/FileAnalyzer.cs:301-306 | `IsCodeFile`: every type except Unknown, Markdown and Configuration; `MarkdownIsNotCode` states the iff |
| FileAnalyzer.IsMarkdownFile | RhealAI.Infrastructure/FileProcessing/FileAnalyzer.cs:311-314 | `IsMarkdownFile`: exactly the Markdown type, never a code type (`MarkdownIsNotCode`) |
| FileAnalyzer.MarkdownIsNotCode | RhealAI.Infrastructure/FileProcessing/FileAnalyzer.cs:301-314 | a type is not a code type exactly when it is Unknown, Markdown or Configuration; so a Markdown type is never a code type |
| Paths.LastIndexOf | RhealAI.Web/src/app/features/dashboard/analysis-result-page/analysis-result-page.component.ts:385 | the index of the last occurrence, or -1 when there is none |
| Paths.FileName | RhealAI.Infrastructure/FileProcessing/FileAnalyzer.cs:263 | `Path.GetFileName`: the separator-free suffix of the path |
| Paths.DirectoryName | RhealAI.Infrastructure/FileProcessing/FolderStructureAnalyzer.cs:18 | `Path.GetDirectoryName`: the path before its last separator, so directory, separator and file name give the path back; "" when there is no separator |
| Paths.FileNameOfJoin | RhealAI.Infrastructure/FileProcessing/FolderStructureAnalyzer.cs:18 | splitting `dir + "/" + name` gives back `dir` and `name` |
| Paths.Extension | RhealAI.Infrastructure/FileProcessing/FileAnalyzer.cs:292 | `Path.GetExtension`: empty, or a dot and at least one character, without another dot or separator, at the end of the file name |
| Paths.SegmentsShape | RhealAI.Infrastructure/FileProcessing/FileAnalyzer.cs:253 | `Split(['/', '\\'], RemoveEmptyEntries)`: non-empty, separator-free segments that concatenate to the path without its separators |
| Paths.SegmentsOfJoin | RhealAI.Infrastructure/FileProcessing/FileAnalyzer.cs:253 | splitting a path joined from non-empty, separator-free segments gives the segments back |
| FolderStructureAnalyzer.BucketFiles | RhealAI.Infrastructure/FileProcessing/FolderStructureAnalyzer.cs:14-28 | the `foreach` builds exactly the grouping of the files by directory name |
| FolderStructureAnalyzer.Bucket | RhealAI.Infrastructure/FileProcessing/FolderStructureAnalyzer.cs:14-28 | the insert-or-append loop over a dictionary of lists builds exactly the grouping by key, with keys in first-insertion order |
| FolderStructureAnalyzer.BuildStructure | RhealAI.Infrastructure/FileProcessing/FolderStructureAnalyzer.cs:10-37 | every file lands in exactly the bucket of its directory, in input order, keys distinct and no bucket empty, bucket sizes summing to the number of files; then the component groups and the suggestions of those buckets |
| FolderStructureAnalyzer.IdentifyComponentGroups | RhealAI.Infrastructure/FileProcessing/FolderStructureAnalyzer.cs:39-64 | the loop over the folders builds exactly the component groups, folder by folder in key order |
| FolderStructureAnalyzer.ComponentGroupsOfShape | RhealAI.Infrastructure/FileProcessing/FolderStructureAnalyzer.cs:43-61 | each group names one of the folders and holds exactly that folder's component files, and is never empty |
| FolderStructureAnalyzer.GroupHasFileWhere | RhealAI.Infrastructure/FileProcessing/FolderStructureAnalyzer.cs:45-51 | a group exists for a folder only if some file of that folder matches |
| FolderStructureAnalyzer.FileWhereHasGroup | RhealAI.Infrastructure/FileProcessing/FolderStructureAnalyzer.cs:45-59 | a folder with a matching file gets a group |
| FolderStructureAnalyzer.ComponentGroupFor | RhealAI.Infrastructure/FileProcessing/FolderStructureAnalyzer.cs:43-61 | a component group exists for a folder iff one of its files has a name containing ".component.", "Controller" or "Service" |
| FolderStructureAnalyzer.ComponentGroupsExactly | RhealAI.Infrastructure/FileProcessing/FolderStructureAnalyzer.cs:43-61 | the same, for every folder at once |
| FolderStructureAnalyzer.ComponentGroupsMembers | RhealAI.Infrastructure/FileProcessing/FolderStructureAnalyzer.cs:45-56 | a group's components are exactly the matching files of its folder, in input order |
| FolderStructureAnalyzer.LargeFolders | RhealAI.Infrastructure/FileProcessing/FolderStructureAnalyzer.cs:71-73 | at most one entry per folder |
| FolderStructureAnalyzer.FolderNames | RhealAI.Infrastructure/FileProcessing/FolderStructureAnalyzer.cs:77 | the `Path.GetFileName` of each large folder, in order |
| FolderStructureAnalyzer.LargeFoldersCorrect | RhealAI.Infrastructure/FileProcessing/FolderStructureAnalyzer.cs:71-73 | a folder is large exactly when it holds more than 20 files |
| FolderStructureAnalyzer.SuggestionsFromShape | RhealAI.Infrastructure/FileProcessing/FolderStructureAnalyzer.cs:75-87 | at most two suggestions; the "break down" one iff there is a large folder, the "organize by features" one iff its condition holds |
| FolderStructureAnalyzer.FolderNamesIn | RhealAI.Infrastructure/FileProcessing/FolderStructureAnalyzer.cs:77 | each large folder's name appears in the suggestion |
| FolderStructureAnalyzer.Suggestions | RhealAI.Infrastructure/FileProcessing/FolderStructureAnalyzer.cs:66-90 | `GenerateStructureSuggestions`; `SuggestionsCorrect` states each suggestion's condition |
| FolderStructureAnalyzer.SuggestionsCorrect | RhealAI.Infrastructure/FileProcessing/FolderStructureAnalyzer.cs:66-90 | at most two suggestions; "break down" iff some folder has more than 20 files, naming each such folder; "organize by features" iff no folder key contains "features" ignoring case and there are more than 10 folders |
| ProjectSummaries.Leader | RhealAI.Infrastructure/Services/AIAnalysisService.cs:491-494 | no leader exactly when no key is a language; otherwise the first key with the largest count among the languages (what a stable `OrderByDescending` puts first) |
| ProjectSummaries.PrimaryLanguage | RhealAI.Infrastructure/Services/AIAnalysisService.cs:491-494 | "Mixed" when every file type is Configuration, Documentation or Markdown; otherwise the leading language's name |
| ProjectSummaries.TechnologyStack | RhealAI.Infrastructure/Services/AIAnalysisService.cs:531-567 | the joined distinct technology labels; `DetectedTechnologies` states which technologies appear |
| ProjectSummaries.DetectedTechnologies | RhealAI.Infrastructure/Services/AIAnalysisService.cs:531-567 | a technology appears exactly when its rule fires (a file type is present, or some file's content contains its marker), each at most once |
| ProjectSummaries.TechnologiesListed | RhealAI.Infrastructure/Services/AIAnalysisService.cs:536-565 | the rule list covers every technology |
| ProjectSummaries.AnyFolderSameFolders | RhealAI.Infrastructure/Services/AIAnalysisService.cs:572-586 | the folder tests see only which folder names occur, not their order or repetition |
| ProjectSummaries.ArchitectureOf | RhealAI.Infrastructure/Services/AIAnalysisService.cs:570-590 | `DetectArchitecturePattern`; `ArchitectureIgnoresOrder`, `CleanArchitectureWins` and `NoFoldersIsCustom` state order-independence, the first rule winning and the fallback |
| ProjectSummaries.ArchitectureIgnoresOrder | RhealAI.Infrastructure/Services/AIAnalysisService.cs:570-590 | the detected architecture does not depend on the order of the folder keys |
| ProjectSummaries.CleanArchitectureWins | RhealAI.Infrastructure/Services/AIAnalysisService.cs:574-575 | folders ending in "domain", "application" and "infrastructure" (any case) give "Clean Architecture (DDD)", whatever else is present: the first rule wins |
| ProjectSummaries.EndsWithContains | RhealAI.Infrastructure/Services/AIAnalysisService.cs:574 | a suffix is a substring |
| ProjectSummaries.NoFoldersIsCustom | RhealAI.Infrastructure/Services/AIAnalysisService.cs:589 | with no folders the fallback "Custom Architecture" is chosen |
| ProjectSummaries.MentionedAreasIn | RhealAI.Infrastructure/Services/AIAnalysisService.cs:615-622 | the loop over the keyword table keeps exactly the areas whose keyword occurs in a lower-cased folder key or file path |
| ProjectSummaries.ExtractBusinessLogic | RhealAI.Infrastructure/Services/AIAnalysisService.cs:592-627 | the detected areas in table order, joined with ", " after `Distinct()`, or "General Purpose Application" when none is detected |
| ProjectSummaries.BusinessAreasDetected | RhealAI.Infrastructure/Services/AIAnalysisService.cs:615-622 | an area is detected exactly when its keyword is mentioned |
| ProjectSummaries.BusinessAreaListed | RhealAI.Infrastructure/Services/AIAnalysisService.cs:594-611 | the keyword table covers every business area |
| ProjectSummaries.OfferedCapabilities | RhealAI.Infrastructure/Services/AIAnalysisService.cs:639-657 | a capability is offered exactly when one of its markers occurs in some file |
| ProjectSummaries.CapabilitiesListed | RhealAI.Infrastructure/Services/AIAnalysisService.cs:639-657 | the rule list covers every capability |
| ProjectSummaries.CoreFunctionality | RhealAI.Infrastructure/Services/AIAnalysisService.cs:635-662 | the offered capabilities joined with ", ", or "Core application logic and data processing" when there are none |
| ProjectSummaries.ShownFeatures | RhealAI.Infrastructure/Services/AIAnalysisService.cs:668-690 | a feature is shown exactly when its rule fires |
| ProjectSummaries.FeaturesListed | RhealAI.Infrastructure/Services/AIAnalysisService.cs:668-690 | the rule list covers every feature |
| ProjectSummaries.KeyFeatures | RhealAI.Infrastructure/Services/AIAnalysisService.cs:664-695 | the shown features' labels in rule order, or the three fallback features when none is shown; always 1 to 6 entries |
| ProjectSummaries.ComponentFolders | RhealAI.Infrastructure/Services/AIAnalysisService.cs:701-708 | exactly the folders whose name is longer than 3 characters and whose count is above 5, in key order |
| ProjectSummaries.ComponentEntries | RhealAI.Infrastructure/Services/AIAnalysisService.cs:706 | one "name (n files)" entry per component folder |
| ProjectSummaries.MainComponents | RhealAI.Infrastructure/Services/AIAnalysisService.cs:697-711 | at most 10 entries, each the entry of a folder with a name longer than 3 characters and more than 5 files |
| ProjectSummaries.ComponentsStep | RhealAI.Infrastructure/Services/AIAnalysisService.cs:701-708 | one pass of the folder loop adds the folder's entry exactly when it qualifies |
| ProjectSummaries.IdentifyMainComponents | RhealAI.Infrastructure/Services/AIAnalysisService.cs:697-711 | the loop followed by `Take(10)` yields exactly the main components described above |
| ProjectSummaries.FirstEndingWith | RhealAI.Infrastructure/Services/AIAnalysisService.cs:718-730 | `FirstOrDefault` by path suffix: null exactly when no path ends with the suffix, otherwise the first such file |
| ProjectSummaries.ExtractDependencies | RhealAI.Infrastructure/Services/AIAnalysisService.cs:713-742 | at most 6 entries; a dependency is listed exactly when the first package.json or the first .csproj names it; none without either file |
| ProjectSummaries.DependenciesListed | RhealAI.Infrastructure/Services/AIAnalysisService.cs:721-738 | the checks cover every dependency |
| ProjectSummaries.LabelsInjective | RhealAI.Infrastructure/Services/AIAnalysisService.cs:722-738 | a dependency's label is listed exactly when the dependency was found |
| ProjectSummaries.DependencyLabelInjective | RhealAI.Infrastructure/Services/AIAnalysisService.cs:722-738 | different dependencies have different labels |
| ProjectSummaries.GenerateProjectSummary | RhealAI.Infrastructure/Services/AIAnalysisService.cs:485-529 | the offline summary (`OfflineSummary`): the current directory's name, the given distributions, each of the nine other fields from its own classifier, and the description built from the stack, the architecture and the business areas |
| ProjectSummaries.Excerpts | RhealAI.Infrastructure/Services/AIAnalysisService.cs:434 | one excerpt per sampled file |
| ProjectSummaries.KeyFileSample | RhealAI.Infrastructure/Services/AIAnalysisService.cs:431-433 | at most 10 key files of the input; all of them when there are at most 10 |
| ProjectSummaries.ParseSummaryReply | RhealAI.Infrastructure/Services/AIAnalysisService.cs:744-757 | project name "Analyzed Project" and as description the first 500 characters of the reply (the whole reply when it is shorter) |
| ProjectSummaries.AnalyzeProjectStructure | RhealAI.Infrastructure/Services/AIAnalysisService.cs:412-469 | reports 7; the wrapped reply when a non-demo call answers; otherwise (demo mode or a call that throws) exactly the offline summary, every field as `GenerateProjectSummary` builds it (`OfflineSummary`) |
| StandardsGenerator.StackList | RhealAI.Infrastructure/Services/StandardsGeneratorService.cs:43-73 | the set holds API, UI and Database exactly when their conditions hold, and always General, each once and in insertion order, so General is last and API, when present, is first |
| StandardsGenerator.DetectTechStacks | RhealAI.Infrastructure/Services/StandardsGeneratorService.cs:41-74 | always General (last); API iff some file is C# and some lower-cased file name contains controller, service or repository; UI iff some file is TypeScript or HTML; Database iff some lower-cased path contains repository, data or persistence |
| StandardsGenerator.AnalyzeProjectStructure | RhealAI.Infrastructure/Services/StandardsGeneratorService.cs:76-112 | the folder flags `HasModelsFolder` and `HasInfrastructureFolder` are never set, and each file count is at most the number of files |
| StandardsGenerator.CleanArchitectureDetection | RhealAI.Infrastructure/Services/StandardsGeneratorService.cs:99-101 | `UsesCleanArchitecture` holds iff some directory contains "Domain", some "Application" and some "Infrastructure", ignoring case |
| StandardsGenerator.ProjectAnalysisOverlaps | RhealAI.Infrastructure/Services/StandardsGeneratorService.cs:87-104 | Clean Architecture implies a model folder (via "Domain"); feature-based organization implies a features folder; the services-folder and service-folder flags coincide |
| StandardsGenerator.FeaturesFolderIsFeatureFolder | RhealAI.Infrastructure/Services/StandardsGeneratorService.cs:93-103 | a directory containing "features" contains "feature" |
| StandardsGenerator.CloseParenFromSound | RhealAI.Infrastructure/Services/StandardsGeneratorService.cs:129 | the scan for a closing parenthesis finds the first one |
| StandardsGenerator.CloseParenFromComplete | RhealAI.Infrastructure/Services/StandardsGeneratorService.cs:129 | any later closing parenthesis is found |
| StandardsGenerator.ParamsSound | RhealAI.Infrastructure/Services/StandardsGeneratorService.cs:129 | a found parameter list matches `[^)]*I\w+[^)]*\)` at that position |
| StandardsGenerator.ParamsComplete | RhealAI.Infrastructure/Services/StandardsGeneratorService.cs:129 | every match of `[^)]*I\w+[^)]*\)` at that position is found |
| StandardsGenerator.NameSound | RhealAI.Infrastructure/Services/StandardsGeneratorService.cs:129 | a found name and parameter list match `\w*\(` and the parameter pattern |
| StandardsGenerator.NameComplete | RhealAI.Infrastructure/Services/StandardsGeneratorService.cs:129 | every such match is found |
| StandardsGenerator.SpacesSound | RhealAI.Infrastructure/Services/StandardsGeneratorService.cs:129 | a found continuation matches `\s*\w+\(...\)` there |
| StandardsGenerator.SpacesComplete | RhealAI.Infrastructure/Services/StandardsGeneratorService.cs:129 | every such match is found |
| StandardsGenerator.InjectionFromSound | RhealAI.Infrastructure/Services/StandardsGeneratorService.cs:129 | a successful scan from a position means `public\s+\w+\([^)]*I\w+[^)]*\)` matches at or after it |
| StandardsGenerator.InjectionFromComplete | RhealAI.Infrastructure/Services/StandardsGeneratorService.cs:129 | every match at or after the position is found by the scan |
| StandardsGenerator.InjectsInterface | RhealAI.Infrastructure/Services/StandardsGeneratorService.cs:128-129 | the left-to-right constructor-injection scan; `InjectsInterfaceMatches` states that it is `Regex.IsMatch` of the pattern |
| StandardsGenerator.InjectsInterfaceMatches | RhealAI.Infrastructure/Services/StandardsGeneratorService.cs:128-129 | the constructor-injection test is `Regex.IsMatch` of `public\s+\w+\([^)]*I\w+[^)]*\)`: true iff the pattern matches somewhere in the content |
| StandardsGenerator.InterfaceNameSound | RhealAI.Infrastructure/Services/StandardsGeneratorService.cs:141 | a found interface name matches `\s*I\w` there |
| StandardsGenerator.InterfaceNameComplete | RhealAI.Infrastructure/Services/StandardsGeneratorService.cs:141 | every such match is found |
| StandardsGenerator.InterfaceFromSound | RhealAI.Infrastructure/Services/StandardsGeneratorService.cs:141 | a successful scan means `interface\s+I\w+` matches at or after the position |
| StandardsGenerator.InterfaceFromComplete | RhealAI.Infrastructure/Services/StandardsGeneratorService.cs:141 | every match at or after the position is found |
| StandardsGenerator.DeclaresInterface | RhealAI.Infrastructure/Services/StandardsGeneratorService.cs:140-141 | the interface-declaration scan; `DeclaresInterfaceMatches` states that it is `Regex.IsMatch` of the pattern |
| StandardsGenerator.DeclaresInterfaceMatches | RhealAI.Infrastructure/Services/StandardsGeneratorService.cs:140-141 | the interface test is `Regex.IsMatch` of `interface\s+I\w+`: true iff the pattern matches somewhere in the content |
| StandardsGenerator.FlagScanCSharp | RhealAI.Infrastructure/Services/StandardsGeneratorService.cs:123-151 | after a C# file each flag is its old value or'ed with that file's trigger |
| StandardsGenerator.FlagScanTypeScript | RhealAI.Infrastructure/Services/StandardsGeneratorService.cs:154-182 | the same for a TypeScript file |
| StandardsGenerator.FlagScanHtml | RhealAI.Infrastructure/Services/StandardsGeneratorService.cs:185-192 | the same for an HTML file |
| StandardsGenerator.Scan | RhealAI.Infrastructure/Services/StandardsGeneratorService.cs:120-193 | one file's pass of `AnalyzeCodePatterns`: the C#, TypeScript or HTML updates by file type, nothing for others; `FlagScanCSharp`, `FlagScanTypeScript`, `FlagScanHtml` and `PatternsOfStep` state its properties |
| StandardsGenerator.FlagScan | RhealAI.Infrastructure/Services/StandardsGeneratorService.cs:118-193 | one pass of the file loop: every flag is its old value or'ed with whether the file shows that pattern |
| StandardsGenerator.PatternsOf | RhealAI.Infrastructure/Services/StandardsGeneratorService.cs:114-196 | the flags after the files in order; `PatternsOfStep`, `PatternsOfShows` and `PatternsOfGrow` state the step, the iff per flag and monotonicity |
| StandardsGenerator.PatternsOfStep | RhealAI.Infrastructure/Services/StandardsGeneratorService.cs:118-193 | the flags after `n+1` files are the flags after `n` files updated by file `n` |
| StandardsGenerator.PatternsOfCSharpStep | RhealAI.Infrastructure/Services/StandardsGeneratorService.cs:123-151 | a C# file updates the flags by the C# rules |
| StandardsGenerator.PatternsOfTypeScriptStep | RhealAI.Infrastructure/Services/StandardsGeneratorService.cs:154-182 | a TypeScript file updates the flags by the TypeScript rules |
| StandardsGenerator.PatternsOfHtmlStep | RhealAI.Infrastructure/Services/StandardsGeneratorService.cs:185-192 | an HTML file updates the flags by the HTML rules |
| StandardsGenerator.PatternsOfOtherStep | RhealAI.Infrastructure/Services/StandardsGeneratorService.cs:118-193 | a file of any other type changes no flag |
| StandardsGenerator.PatternsOfShows | RhealAI.Infrastructure/Services/StandardsGeneratorService.cs:114-196 | a flag is true iff some file of the relevant type shows its trigger (`UsesTryCatch`: "try" and "catch" in the same C# file) |
| StandardsGenerator.ExistsSnoc | RhealAI.Infrastructure/Services/StandardsGeneratorService.cs:118 | some element of `xs + [x]` satisfies `P` iff some element of `xs` does or `x` does |
| StandardsGenerator.AnalyzeCodePatterns | RhealAI.Infrastructure/Services/StandardsGeneratorService.cs:114-196 | the loop computes the flags of all files, and each flag is true iff some file shows its pattern |
| StandardsGenerator.PatternsOfGrow | RhealAI.Infrastructure/Services/StandardsGeneratorService.cs:125-191 | the flags are OR-accumulated: once true, more files never make one false |
| StandardsGenerator.Materialize | RhealAI.Infrastructure/Services/StandardsGeneratorService.cs:225-700 | one `Standard` per guideline, in order |
| StandardsGenerator.MaterializeConcat | RhealAI.Infrastructure/Services/StandardsGeneratorService.cs:35 | `AddRange` of two lists materializes to the two materialized lists concatenated |
| StandardsGenerator.MaterializeIn | RhealAI.Infrastructure/Services/StandardsGeneratorService.cs:35 | a guideline of the list appears as a standard |
| StandardsGenerator.If | RhealAI.Infrastructure/Services/StandardsGeneratorService.cs:249 | a conditional `Add`: the guideline when the condition holds, nothing otherwise |
| StandardsGenerator.InIf | RhealAI.Infrastructure/Services/StandardsGeneratorService.cs:249 | an element of a conditional `Add` is that guideline, and the condition held |
| StandardsGenerator.ApiStandards | RhealAI.Infrastructure/Services/StandardsGeneratorService.cs:214-349 | 1 to 6 API standards, the first the "Project Structure - ..." one for the detected layout, exactly one when no optional condition holds, all tagged API |
| StandardsGenerator.UiStandards | RhealAI.Infrastructure/Services/StandardsGeneratorService.cs:351-361 | `GenerateUIStandards` with its own component and service file counts; `UiStandardsQuote` and `UiStandardsHold` state what it holds |
| StandardsGenerator.UiStandardsFor | RhealAI.Infrastructure/Services/StandardsGeneratorService.cs:351-532 | at most 8 UI standards, all tagged UI |
| StandardsGenerator.UiLeadingStandards | RhealAI.Infrastructure/Services/StandardsGeneratorService.cs:364-446 | at most 4 standards from the first four conditions, tagged UI |
| StandardsGenerator.UiTrailingStandards | RhealAI.Infrastructure/Services/StandardsGeneratorService.cs:448-530 | at most 4 standards from the last four conditions, tagged UI |
| StandardsGenerator.UiStandardsEmpty | RhealAI.Infrastructure/Services/StandardsGeneratorService.cs:351-532 | no UI standard exactly when none of the eight conditions holds |
| StandardsGenerator.UiStandardsQuote | RhealAI.Infrastructure/Services/StandardsGeneratorService.cs:385-467 | the component and service standards quote exactly the number of component and service files, and appear only when that number is positive |
| StandardsGenerator.UiStandardsHold | RhealAI.Infrastructure/Services/StandardsGeneratorService.cs:351-532 | a guideline is among the UI standards iff it is the one of a condition that holds |
| StandardsGenerator.UiLeadingHold | RhealAI.Infrastructure/Services/StandardsGeneratorService.cs:364-446 | the same for the first four conditions |
| StandardsGenerator.UiTrailingHold | RhealAI.Infrastructure/Services/StandardsGeneratorService.cs:448-530 | the same for the last four conditions |
| StandardsGenerator.DatabaseStandards | RhealAI.Infrastructure/Services/StandardsGeneratorService.cs:534-599 | 1 to 3 Database standards ending with "Parameterized Queries"; one exactly when neither Entity Framework nor a repository folder is seen; three exactly with Entity Framework |
| StandardsGenerator.GeneralStandards | RhealAI.Infrastructure/Services/StandardsGeneratorService.cs:601-701 | 2 to 5 General standards, always including "Naming Conventions - Detected Pattern" and "Code Documentation"; exactly those two when no optional condition holds |
| StandardsGenerator.ForStack | RhealAI.Infrastructure/Services/StandardsGeneratorService.cs:198-212 | the dispatch gives standards tagged with the stack: at most 6 for API, 8 for UI, 3 for Database, 5 for General |
| StandardsGenerator.GenerateStandardsByTechStack | RhealAI.Infrastructure/Services/StandardsGeneratorService.cs:23-39 | the loop over the detected stacks concatenates each stack's standards in stack order |
| StandardsGenerator.ForStacksStep | RhealAI.Infrastructure/Services/StandardsGeneratorService.cs:33-36 | one pass of the stack loop appends that stack's standards |
| StandardsGenerator.ForStacksTagged | RhealAI.Infrastructure/Services/StandardsGeneratorService.cs:33-36 | every generated guideline belongs to one of the stacks looped over |
| StandardsGenerator.ForStacksBound | RhealAI.Infrastructure/Services/StandardsGeneratorService.cs:33-36 | the total is at most the sum of the per-stack maxima of the stacks present, and at least 2 with General |
| StandardsGenerator.ForStacksContains | RhealAI.Infrastructure/Services/StandardsGeneratorService.cs:35 | each stack's guidelines are in the total |
| StandardsGenerator.GuidelinesFor | RhealAI.Infrastructure/Services/StandardsGeneratorService.cs:23-39 | the guidelines of each detected stack in order, before they become standards; `GuidelinesShape` states their number and the two General ones |
| StandardsGenerator.GuidelinesShape | RhealAI.Infrastructure/Services/StandardsGeneratorService.cs:23-39 | with General last, 2 to 22 guidelines, always including the two unconditional General ones |
| StandardsGenerator.MaterializeOrigin | RhealAI.Infrastructure/Services/StandardsGeneratorService.cs:35 | every standard comes from one of the guidelines |
| StandardsGenerator.ToStandardGenerated | RhealAI.Infrastructure/Services/StandardsGeneratorService.cs:225-700 | a generated standard is never marked as coming from documents and carries its generator's tech-stack tag |
| StandardsGenerator.StandardsFor | RhealAI.Infrastructure/Services/StandardsGeneratorService.cs:23-39 | the standards `GenerateStandardsByTechStack` returns; `StandardsForGeneral` states their bounds and the two unconditional standards |
| StandardsGenerator.StandardsForGeneral | RhealAI.Infrastructure/Services/StandardsGeneratorService.cs:626-678 | at least 2 and at most 22 standards, always "Naming Conventions - Detected Pattern" and "Code Documentation", each tagged with a detected stack and not from documents (the General stack is always detected, lines 23-39) |
| StandardsGenerator.ApiComesFirst | RhealAI.Infrastructure/Services/StandardsGeneratorService.cs:225-247 | when API is detected the first standard is the "Project Structure - ..." one (API is generated first, lines 33-35) |
| StandardsGenerator.ProjectLayoutStandard | RhealAI.Infrastructure/Services/StandardsGeneratorService.cs:225-247 | that standard is Critical, in category Architecture, tagged API, named "Project Structure - Clean Architecture" or "- Layered Architecture" by `UsesCleanArchitecture` alone |
| StandardsGenerator.DatabaseGuidelines | RhealAI.Infrastructure/Services/StandardsGeneratorService.cs:581-596 | with Database among the stacks, "Parameterized Queries" is generated (line 35 dispatches to it) |
| StandardsGenerator.DatabaseHasParameterizedQueries | RhealAI.Infrastructure/Services/StandardsGeneratorService.cs:581-596 | when Database is detected the output includes "Parameterized Queries" (Database detection, lines 64-68) |
| StandardsGenerator.ParameterizedQueriesStandard | RhealAI.Infrastructure/Services/StandardsGeneratorService.cs:581-596 | that standard is Critical, in category Security, tagged Database |
| Reports.AnalyzeFolderStructure | RhealAI.Infrastructure/Services/ReportService.cs:182-200 | the nested loop returns the histogram of all folder occurrences of the files |
| Reports.CountFolders | RhealAI.Infrastructure/Services/ReportService.cs:191-196 | the inner loop extends a histogram of earlier folders by one file's folders |
| Reports.FolderOccurrencesSnoc | RhealAI.Infrastructure/Services/ReportService.cs:186-196 | one more file adds its own folders, outermost first, after the earlier ones |
| Reports.FolderOccurrencesShape | RhealAI.Infrastructure/Services/ReportService.cs:188-189 | every counted folder is non-empty and holds no '/' or '\\' |
| Reports.FolderCounts | RhealAI.Infrastructure/Services/ReportService.cs:182-200 | the folder histogram as a count of segment occurrences; `FolderCountsCorrect` states that it counts exactly the folders that occur |
| Reports.FolderCountsCorrect | RhealAI.Infrastructure/Services/ReportService.cs:182-200 | the histogram has exactly the folders that occur, each with its number of occurrences, and no key is empty or holds a separator |
| Reports.MarkdownFiles | RhealAI.Infrastructure/Services/ReportService.cs:50 | the Markdown files of the repository; `PartitionFiles` states that with the code files they partition the files |
| Reports.CodeFiles | RhealAI.Infrastructure/Services/ReportService.cs:51 | the non-Markdown files; `PartitionFiles` states the partition |
| Reports.PartitionFiles | RhealAI.Infrastructure/Services/ReportService.cs:50-51 | the Markdown and the code files partition the files: as multisets they add up to all files, and a file is in the first list iff it is Markdown and in the second iff it is not |
| Reports.FileTypeDistribution | RhealAI.Infrastructure/Services/ReportService.cs:53-55 | the file-type histogram; `FileTypeDistributionCorrect` states its keys, counts and total |
| Reports.FileTypeDistributionCorrect | RhealAI.Infrastructure/Services/ReportService.cs:53-55 | the distribution has exactly the type names that occur, each with its number of files, adding up to the file count |
| Collections.Map | RhealAI.Infrastructure/Services/ReportService.cs:110-112 | LINQ `Select(f)`: one result per element, each the function applied to the element at the same position |
| Reports.DistinctPaths | RhealAI.Infrastructure/Services/ReportService.cs:110-112 | `Select(path).Distinct().Count()`; `DistinctPathsCount` states that it is the size of the set of paths |
| Reports.DistinctPathsCount | RhealAI.Infrastructure/Services/ReportService.cs:110-112 | `Distinct().Count()` is the size of the set of paths, at most the number of elements |
| Reports.DuplicationPathsIn | RhealAI.Infrastructure/Services/ReportService.cs:113 | a path is among the flattened locations iff some location of some duplication has it |
| Reports.DuplicatedLines | RhealAI.Infrastructure/Services/ReportService.cs:114 | the sum of `LineCount * (Locations.Count - 1)`; `DuplicatedLinesAppend` and `DuplicatedLinesBounds` state additivity and the bounds |
| Reports.DuplicatedLinesAppend | RhealAI.Infrastructure/Services/ReportService.cs:114 | the duplicated-line sum `LineCount * (Locations.Count - 1)` is additive over concatenation |
| Reports.DuplicatedLinesBounds | RhealAI.Infrastructure/Services/ReportService.cs:114 | duplications with a single location add no lines; with non-negative counts and at least one location each, the sum is non-negative |
| Reports.DuplicatedFilesCount | RhealAI.Infrastructure/Services/ReportService.cs:113 | the distinct flattened paths are as many as the set of all location paths |
| Reports.FormatExecutionTime | RhealAI.Infrastructure/Services/ReportService.cs:172-180 | the elapsed-time text; `FormatExecutionTimeUnits`, `FormatExecutionTimeInjective` and `FormatExecutionTimeDropsDays` state its units, injectivity below an hour and the dropped days |
| Reports.FormatExecutionTimeUnits | RhealAI.Infrastructure/Services/ReportService.cs:172-180 | the text names minutes iff at least 60 s elapsed, hours iff at least an hour, and ends in "s" below an hour and in "m" from an hour on |
| Reports.UnitsDiffer | RhealAI.Infrastructure/Services/ReportService.cs:174-177 | a time below a minute and one between a minute and an hour never format alike |
| Reports.FormatExecutionTimeInjective | RhealAI.Infrastructure/Services/ReportService.cs:172-177 | below an hour, different whole-second times give different texts |
| Reports.MinutesText | RhealAI.Infrastructure/Services/ReportService.cs:177 | from a minute to an hour the text is `{Minutes}m {Seconds}s` |
| Reports.MinutesInjective | RhealAI.Infrastructure/Services/ReportService.cs:177 | that text determines the time |
| Reports.FormatExecutionTimeDropsDays | RhealAI.Infrastructure/Services/ReportService.cs:179 | from an hour on, adding a whole day leaves the text unchanged, since `Hours` is the hour component below 24 |
| Reports.PeelNumber | RhealAI.Infrastructure/Services/ReportService.cs:232-238 | a number followed by a separator that starts with a non-digit can be read back uniquely |
| Reports.SummarySeparators | RhealAI.Infrastructure/Services/ReportService.cs:232-238 | every fixed text in the summary after a number starts with a non-digit |
| Reports.SourcePhraseDecides | RhealAI.Infrastructure/Services/ReportService.cs:228-230 | the standards-source phrase determines `hasExistingStandards` |
| Reports.GenerateSummary | RhealAI.Infrastructure/Services/ReportService.cs:226-239 | the closing summary text; `GenerateSummaryInjective` states that it determines the five counts and the source |
| Reports.GenerateSummaryInjective | RhealAI.Infrastructure/Services/ReportService.cs:226-239 | the summary text determines all five counts and the standards source |
| Reports.MakeReport | RhealAI.Infrastructure/Services/ReportService.cs:121-155 | the report built from the stage results; `ReportFileCounts` and `ReportHistograms` state its counts and histograms |
| Reports.ReportFileCounts | RhealAI.Infrastructure/Services/ReportService.cs:110-134 | each files-with count is the number of different paths among its findings and not more than the findings; the totals are the list lengths and the file count |
| Reports.ReportHistograms | RhealAI.Infrastructure/Services/ReportService.cs:141-152 | each of the four histograms has exactly the labels that occur among its findings, each with its number of findings |
| Reports.StandardsRun | RhealAI.Infrastructure/Services/ReportService.cs:68-81 | the standards stage: Markdown extraction when the repository has documentation and Markdown files, generation from code otherwise, with its result and progress; `StandardsProgress` states its range, `ChooseStandards` runs it |
| Reports.StandardsProgress | RhealAI.Infrastructure/Services/ReportService.cs:70-81 | the standards stage reports non-decreasing values within 26..40 |
| Reports.CodebaseProgress | RhealAI.Infrastructure/Services/ReportService.cs:79-80 | the generation-from-code stage's values 26, 30, 35 (and 40) are non-decreasing within 26..40 |
| Reports.ViolationRun | RhealAI.Infrastructure/Services/ReportService.cs:87 | the violation stage on the code files: the demo violations, or the batch run; `ViolationStageProgress` states its range, `RunViolations` runs it |
| Reports.ViolationStageProgress | RhealAI.Infrastructure/Services/ReportService.cs:87 | the violation stage reports non-decreasing values within 42..67 |
| Reports.BugRun | RhealAI.Infrastructure/Services/ReportService.cs:93 | the bug stage on the code files: the demo bugs, or the batch run; `BugStageProgress` states its range, `RunBugs` runs it |
| Reports.BugStageProgress | RhealAI.Infrastructure/Services/ReportService.cs:93 | the bug stage reports non-decreasing values within 72..87 |
| Reports.RisesConcat | RhealAI.Infrastructure/Services/ReportService.cs:39-159 | two progress runs that each rise except at the two known drops join into one such run when they meet by a rise |
| Reports.NonDecreasingRises | RhealAI.Infrastructure/Services/ReportService.cs:39-159 | a non-decreasing run rises except at drops |
| Reports.FindingsEventsShape | RhealAI.Infrastructure/Services/ReportService.cs:86-159 | from 42 on the values stay within 42..100 and rise except at the 97 to 96 step |
| Reports.FindingsShape | RhealAI.Infrastructure/Services/ReportService.cs:86-159 | the same for the findings run, and a completed run with a hub ends with 97, 96, 100 |
| Reports.FindingsOutcome | RhealAI.Infrastructure/Services/ReportService.cs:85-161 | the run from the violation stage on: the first failing stage decides the error, otherwise the report `MakeReport` builds; `FindingsParts` and `FindingsShape` state its properties |
| Reports.FindingsParts | RhealAI.Infrastructure/Services/ReportService.cs:86-161 | the findings run succeeds iff both detector stages do, with their progress in order |
| Reports.ClosingRises | RhealAI.Infrastructure/Services/ReportService.cs:107-120 | appending 96 and 100 after a run ending in 97 keeps the shape and ends with 97, 96, 100 (100 is sent at line 159) |
| Reports.Opening | RhealAI.Infrastructure/Services/ReportService.cs:39-78 | the values sent before the standards stage: 5, 10, 12, 15, 18, 20, then 7, then 22 and 25; `OpeningShape` states its shape |
| Reports.OpeningShape | RhealAI.Infrastructure/Services/ReportService.cs:39-81 | up to the standards stage the values stay within 5..40, and with a hub start 5, 10, 12, 15, 18, 20, 7 (the 7 comes from the project-summary stage) |
| Reports.JoinShape | RhealAI.Infrastructure/Services/ReportService.cs:39-159 | the opening and the findings run join into one run within 0..100 that keeps the opening's first seven values |
| Reports.ReportProgress | RhealAI.Infrastructure/Services/ReportService.cs:39-159 | every reported value is within 0..100, and consecutive values rise except at 20 to 7 and 97 to 96 |
| Reports.CompletedReportOpening | RhealAI.Infrastructure/Services/ReportService.cs:39-66 | a completed run with a hub starts 5, 10, 12, 15, 18, 20, 7, so its progress is not monotone |
| Reports.CompletedReportClosing | RhealAI.Infrastructure/Services/ReportService.cs:107-159 | a completed run with a hub ends with 97, 96, 100 |
| Reports.ReportOutcome | RhealAI.Infrastructure/Services/ReportService.cs:39-161 | `GenerateReportAsync` on a loaded repository: a failed standards stage ends the run after the opening, otherwise `FindingsOutcome` follows; `ReportParts` and `ReportProgress` state its properties |
| Reports.ReportParts | RhealAI.Infrastructure/Services/ReportService.cs:68-161 | a failed standards stage ends the run with its error; otherwise the result is the findings run's and the progress is the opening, the standards values and the findings values |
| Reports.WithinJoin | RhealAI.Infrastructure/Services/ReportService.cs:39-159 | two runs within a range join within it |
| Reports.SentJoin | RhealAI.Infrastructure/Services/ReportService.cs:164-170 | sending two lists in turn sends their concatenation: everything with a hub and connection id, nothing otherwise |
| Reports.GetRepositoryById | RhealAI.Infrastructure/Services/RepositoryService.cs:108-117 | the cached repository, or the "Repository with ID ... not found" error |
| Reports.AnalyzeStructure | RhealAI.Infrastructure/Services/ReportService.cs:42-66 | sends 10, 12, 15, 18, 20, 7, 22, and returns the summary of `ProjectSummaries.AnalyzeProjectStructure` on the code files and the two histograms: the wrapped model reply, or in demo mode or on a failed call the offline summary (`StructureSummary`) |
| Reports.OpeningStages | RhealAI.Infrastructure/Services/ReportService.cs:39-81 | the 5, the structure stages and the standards stage in order: the standards stage's result, the opening progress, and the project summary step 2.5 computes |
| Reports.ChooseStandards | RhealAI.Infrastructure/Services/ReportService.cs:68-81 | sends 25 and returns the standards stage's result: extraction from the Markdown files when the repository has standards and Markdown, generation from the code otherwise |
| Reports.RunViolations | RhealAI.Infrastructure/Services/ReportService.cs:87 | the violation stage over the code files, result and progress |
| Reports.RunBugs | RhealAI.Infrastructure/Services/ReportService.cs:93 | the bug stage over the code files, result and progress |
| Reports.AnalyzeFindings | RhealAI.Infrastructure/Services/ReportService.cs:85-161 | the findings run; a completed report carries the given id and is stored just before the final 100 |
| Reports.RunStages | RhealAI.Infrastructure/Services/ReportService.cs:39-161 | the whole run on a loaded repository: result and progress as specified, a completed report only after a successful standards stage, and the report's project summary is the one step 2.5 computes (`StructureSummary`) |
| Reports.ReportForRepository | RhealAI.Infrastructure/Services/ReportService.cs:40-161 | the run, plus the cache writes: the chosen standards written onto the repository, and a completed report cached under its id; the project summary is the one step 2.5 computes |
| Reports.StoreRun | RhealAI.Infrastructure/Services/ReportService.cs:83 | updates the repository entry, and adds the report when there is one; nothing else changes (the cache write is at line 157) |
| Reports.GenerateReport | RhealAI.Infrastructure/Services/ReportService.cs:35-162 | a missing repository fails after the 5 with the not-found error and leaves the cache unchanged; otherwise the run on the cached repository with its cache writes, its project summary the one step 2.5 computes |
| Reports.ExportReportToJson | RhealAI.Infrastructure/Services/ReportService.cs:209-224 | the serialised cached report, or the "Report with ID ... not found" error |
| Text.Lower | RhealAI.Infrastructure/Services/StandardsGeneratorService.cs:46-47 | `ToLower`: same length, every character lower-cased |
| Text.LowerIdempotent | RhealAI.Infrastructure/Services/StandardsGeneratorService.cs:46-47 | lower-casing twice is lower-casing once |
| Text.LowerConcat | RhealAI.Infrastructure/Services/StandardsGeneratorService.cs:46-47 | lower-casing distributes over concatenation |
| Text.LowerSlice | RhealAI.Infrastructure/Services/StandardsGeneratorService.cs:46-47 | lower-casing commutes with taking a slice |
| Text.LeadingSpaces | RhealAI.Infrastructure/Services/AIAnalysisService.cs:218 | the leading white-space run: all white space, and followed by a non-space character when shorter than the string |
| Text.TrailingSpaces | RhealAI.Infrastructure/Services/AIAnalysisService.cs:218 | the trailing white-space run, likewise |
| Text.TrimWith | RhealAI.Infrastructure/Services/AIAnalysisService.cs:218 | the result is the string with a white-space prefix and suffix removed, begins and ends with a non-space character, and a string already without such ends is unchanged |
| Text.Trim | RhealAI.Infrastructure/Services/AIAnalysisService.cs:218-227 | `string.Trim`: the middle that is left after removing the .NET white space at both ends |
| Text.JsTrim | RhealAI.Web/src/app/shared/components/file-upload/file-upload.component.ts:108-110 | `String.prototype.trim`: the same with ECMAScript white space |
| Text.TrimIdempotent | RhealAI.Web/src/app/shared/components/file-upload/file-upload.component.ts:108-110 | trimming twice is trimming once |
| Text.StartsAtMatch | RhealAI.Infrastructure/Services/StandardsGeneratorService.cs:52 | the prefix test at a position holds iff every character of the pattern matches there |
| Text.ContainsFromMatch | RhealAI.Infrastructure/Services/StandardsGeneratorService.cs:52 | the scan from a position finds the pattern iff it occurs at or after that position |
| Text.ContainsMatch | RhealAI.Infrastructure/Services/StandardsGeneratorService.cs:52 | `Contains` holds iff the pattern occurs at some position |
| Text.ContainsWitness | RhealAI.Infrastructure/Services/StandardsGeneratorService.cs:52 | an occurrence makes `Contains` hold |
| Text.ContainsPrefix | RhealAI.Infrastructure/Services/StandardsGeneratorService.cs:93-103 | containing a string means containing each of its prefixes |
| Text.ContainsMiddle | RhealAI.Infrastructure/Services/StandardsGeneratorService.cs:52 | a string contains any pattern placed inside it |
| Text.NatToString | RhealAI.Infrastructure/Services/ReportService.cs:175-179 | decimal digits only, at least one, and a single digit below 10 |
| Text.NatToStringInjective | RhealAI.Infrastructure/Services/ReportService.cs:175-179 | different numbers have different decimal texts |
| Text.DigitRun | RhealAI.Infrastructure/Services/ReportService.cs:232-238 | a digit run followed by a text opening with a non-digit splits uniquely |
| Text.ReplaceChar | RhealAI.Web/src/app/features/dashboard/analysis-result-page/analysis-result-page.component.ts:376-380 | `replace(/\\/g, '/')`: same length, each backslash replaced and nothing else changed |
| Text.IntToString | RhealAI.Web/src/app/features/dashboard/code-detail-dialog/code-detail-dialog.component.ts:78-86 | decimal text of an integer, with a minus sign exactly for negative ones |
| Text.IntToStringSign | RhealAI.Web/src/app/features/dashboard/code-detail-dialog/code-detail-dialog.component.ts:78-86 | the text starts with '-' iff the number is negative |
| Text.IntToStringInjective | RhealAI.Web/src/app/features/dashboard/code-detail-dialog/code-detail-dialog.component.ts:78-86 | different integers have different texts |
| WebModels.SeverityOfNumber | RhealAI.Web/src/app/features/dashboard/analysis-result-page/analysis-result-page.component.ts:367-373 | the number of a level decodes to that level, and any other number to Medium |
| WebModels.SeverityOfNumberValue | RhealAI.Web/src/app/features/dashboard/analysis-result-page/analysis-result-page.component.ts:367-373 | decoding a level's number gives the level back |
| WebModels.LevelNamed | RhealAI.Web/src/app/features/dashboard/analysis-result-page/analysis-result-page.component.ts:340-341 | `SeverityLevel[key]`: the level whose name is the key, and none when no level has that name |
| AnalysisResultPage.MapSeverity | RhealAI.Web/src/app/features/dashboard/analysis-result-page/analysis-result-page.component.ts:361-374 | a string is kept as it is, a number is decoded, and a missing value is Medium |
| AnalysisResultPage.MapSeverityOfLevel | RhealAI.Web/src/app/features/dashboard/analysis-result-page/analysis-result-page.component.ts:361-374 | a level's number and its name both map to its name |
| AnalysisResultPage.MapSeverityDefault | RhealAI.Web/src/app/features/dashboard/analysis-result-page/analysis-result-page.component.ts:372 | a number outside 1..4 maps to Medium |
| AnalysisResultPage.FormatFilePath | RhealAI.Web/src/app/features/dashboard/analysis-result-page/analysis-result-page.component.ts:376-380 | "Unknown" for an empty path, otherwise the path with every backslash made a slash; the result holds no backslash |
| AnalysisResultPage.FormatFilePathIdempotent | RhealAI.Web/src/app/features/dashboard/analysis-result-page/analysis-result-page.component.ts:376-380 | formatting a formatted path changes nothing |
| AnalysisResultPage.ExtractFileName | RhealAI.Web/src/app/features/dashboard/analysis-result-page/analysis-result-page.component.ts:382-387 | "Unknown" for an empty path; the whole path when it ends in a separator; otherwise the non-empty separator-free last segment |
| AnalysisResultPage.ExtractFileNameOfJoin | RhealAI.Web/src/app/features/dashboard/analysis-result-page/analysis-result-page.component.ts:382-387 | the name of `dir + sep + name` is `name`, and a bare name is its own |
| AnalysisResultPage.SpaceBeforeCapitals | RhealAI.Web/src/app/features/dashboard/analysis-result-page/analysis-result-page.component.ts:509 | inserting a space before each capital letter never shortens the text |
| AnalysisResultPage.FormatDuplicationType | RhealAI.Web/src/app/features/dashboard/analysis-result-page/analysis-result-page.component.ts:499-510 | "Unknown" for a missing or empty type; the result never begins or ends with white space |
| AnalysisResultPage.VisibleAppend | RhealAI.Web/src/app/features/dashboard/analysis-result-page/analysis-result-page.component.ts:509 | the non-space characters of a concatenation are those of its parts |
| AnalysisResultPage.VisibleOfBlank | RhealAI.Web/src/app/features/dashboard/analysis-result-page/analysis-result-page.component.ts:509 | a blank text has no non-space characters |
| AnalysisResultPage.VisibleSpaced | RhealAI.Web/src/app/features/dashboard/analysis-result-page/analysis-result-page.component.ts:509 | inserting spaces keeps the non-space characters |
| AnalysisResultPage.VisibleTrimmed | RhealAI.Web/src/app/features/dashboard/analysis-result-page/analysis-result-page.component.ts:509 | trimming keeps the non-space characters |
| AnalysisResultPage.FormatDuplicationTypeVisible | RhealAI.Web/src/app/features/dashboard/analysis-result-page/analysis-result-page.component.ts:499-510 | the label has exactly the type's non-space characters, in order |
| AnalysisResultPage.TrimOpeningSpace | RhealAI.Web/src/app/features/dashboard/analysis-result-page/analysis-result-page.component.ts:509 | trimming a label that opens with one inserted space removes just that space |
| AnalysisResultPage.TwoWordLabel | RhealAI.Web/src/app/features/dashboard/analysis-result-page/analysis-result-page.component.ts:499-510 | a type made of two capitalised words, such as "ExactMatch", is shown as the two words separated by one space ("Exact Match") |
| AnalysisResultPage.CountBySeverity | RhealAI.Web/src/app/features/dashboard/analysis-result-page/analysis-result-page.component.ts:348-354 | the loop counts the items by severity: exactly the severities that occur, each with its number of items |
| AnalysisResultPage.SeverityCount | RhealAI.Web/src/app/features/dashboard/analysis-result-page/analysis-result-page.component.ts:356-359 | the count stored for the level's name in the chosen histogram, 0 when absent or without a report |
| AnalysisResultPage.SeverityCountOfItems | RhealAI.Web/src/app/features/dashboard/analysis-result-page/analysis-result-page.component.ts:348-359 | on a histogram counted from items, the count of a level is the number of items with that level's name |
| AnalysisResultPage.ParseSeverityMap | RhealAI.Web/src/app/features/dashboard/analysis-result-page/analysis-result-page.component.ts:335-346 | no report map gives an empty map; otherwise exactly the keys that name a level, each with its value |
| AnalysisResultPage.TagAll | RhealAI.Web/src/app/features/dashboard/analysis-result-page/analysis-result-page.component.ts:189-190 | one tagged item per finding, in order, each carrying the file's name |
| AnalysisResultPage.Untagged | RhealAI.Web/src/app/features/dashboard/analysis-result-page/analysis-result-page.component.ts:189-190 | dropping the tags keeps the findings in order |
| AnalysisResultPage.FallbackReport | RhealAI.Web/src/app/features/dashboard/analysis-result-page/analysis-result-page.component.ts:185-215 | the report built from the files; `FallbackReportCounts` and `FallbackReportTallies` state its counts and tallies |
| AnalysisResultPage.AggregateFromFiles | RhealAI.Web/src/app/features/dashboard/analysis-result-page/analysis-result-page.component.ts:185-215 | the loop builds the fallback report from every file's violations and bugs |
| AnalysisResultPage.AllViolationsFiles | RhealAI.Web/src/app/features/dashboard/analysis-result-page/analysis-result-page.component.ts:189-201 | the file names of the collected violations are exactly the names of files with violations, and their number is the sum of their lists |
| AnalysisResultPage.AllBugsFiles | RhealAI.Web/src/app/features/dashboard/analysis-result-page/analysis-result-page.component.ts:190-202 | the same for bugs |
| AnalysisResultPage.FallbackReportCounts | RhealAI.Web/src/app/features/dashboard/analysis-result-page/analysis-result-page.component.ts:196-215 | the fallback report counts all files, the distinct names of files with violations and with bugs, and the totals of all lists |
| AnalysisResultPage.FallbackReportTallies | RhealAI.Web/src/app/features/dashboard/analysis-result-page/analysis-result-page.component.ts:212-213 | the per-severity counts of the fallback report add up to its totals |
| AnalysisResultPage.ViewItem | RhealAI.Web/src/app/features/dashboard/analysis-result-page/analysis-result-page.component.ts:148-166 | a shown path holds no backslash; a missing or empty path shows "Unknown" as path and name; otherwise the shown path keeps the length |
| AnalysisResultPage.ViewItemOfMissingPath | RhealAI.Web/src/app/features/dashboard/analysis-result-page/analysis-result-page.component.ts:150-151 | `filePath \|\| ''` treats a missing path like an empty one, and a missing severity shows as Medium |
| SeverityBadge.JsString | RhealAI.Web/src/app/shared/components/severity-badge/severity-badge.component.ts:20-33 | `String(x)` of a string value is the string |
| SeverityBadge.SeverityString | RhealAI.Web/src/app/shared/components/severity-badge/severity-badge.component.ts:20-33 | a number is decoded as on the result page, a string is kept |
| SeverityBadge.SeverityClass | RhealAI.Web/src/app/shared/components/severity-badge/severity-badge.component.ts:15-18 | "severity-" followed by the lower-cased severity text |
| SeverityBadge.BadgeAgreesWithPage | RhealAI.Web/src/app/shared/components/severity-badge/severity-badge.component.ts:20-33 | for numbers and strings the badge shows what the result page maps; a missing severity shows "undefined" on the badge but Medium on the page |
| SeverityBadge.SeverityClassOfLevel | RhealAI.Web/src/app/shared/components/severity-badge/severity-badge.component.ts:15-33 | a level's number and its name give the same class, and the number shows the name |
| SeverityBadge.SeverityClassDefault | RhealAI.Web/src/app/shared/components/severity-badge/severity-badge.component.ts:28-29 | a number outside 1..4 gives the Medium class |
| SeverityBadge.SeverityClassIgnoresCase | RhealAI.Web/src/app/shared/components/severity-badge/severity-badge.component.ts:17 | names differing only in case give the same class |
| CodeDetailDialog.TypeIcon | RhealAI.Web/src/app/features/dashboard/code-detail-dialog/code-detail-dialog.component.ts:52-63 | each detail kind has its own icon, and "info" exactly for the others |
| CodeDetailDialog.TypeColor | RhealAI.Web/src/app/features/dashboard/code-detail-dialog/code-detail-dialog.component.ts:65-76 | each detail kind has its own colour, and "primary" exactly for the others |
| CodeDetailDialog.LineRangeDisplay | RhealAI.Web/src/app/features/dashboard/code-detail-dialog/code-detail-dialog.component.ts:78-86 | empty exactly without a (truthy) line; "Lines a-b" when a different, truthy end is shown; "Line a" otherwise |
| CodeDetailDialog.DashSplit | RhealAI.Web/src/app/features/dashboard/code-detail-dialog/code-detail-dialog.component.ts:82 | digit runs joined by '-' split uniquely |
| CodeDetailDialog.RangeTextInjective | RhealAI.Web/src/app/features/dashboard/code-detail-dialog/code-detail-dialog.component.ts:82 | the range text determines both line numbers |
| CodeDetailDialog.SingleTextInjective | RhealAI.Web/src/app/features/dashboard/code-detail-dialog/code-detail-dialog.component.ts:84 | the single-line text determines the line number |
| CodeDetailDialog.RangeIsNotSingle | RhealAI.Web/src/app/features/dashboard/code-detail-dialog/code-detail-dialog.component.ts:82-84 | a range text never equals a single-line text |
| CodeDetailDialog.LineRangeDisplayInjective | RhealAI.Web/src/app/features/dashboard/code-detail-dialog/code-detail-dialog.component.ts:78-86 | for positive lines, the displayed text determines the line and the shown end |
| RefactoringDetailDialog.ParsePriority | RhealAI.Web/src/app/features/dashboard/refactoring-detail-dialog/refactoring-detail-dialog.component.ts:36-49 | Critical, High and Medium exactly for those names in any case; Low for a missing or any other priority |
| RefactoringDetailDialog.ParsePriorityOfName | RhealAI.Web/src/app/features/dashboard/refactoring-detail-dialog/refactoring-detail-dialog.component.ts:36-49 | a level's own name parses to that level |
| RefactoringDetailDialog.ParsePriorityIgnoresCase | RhealAI.Web/src/app/features/dashboard/refactoring-detail-dialog/refactoring-detail-dialog.component.ts:37 | the parse ignores letter case |
| RefactoringDetailDialog.Dialog.constructor | RhealAI.Web/src/app/features/dashboard/refactoring-detail-dialog/refactoring-detail-dialog.component.ts:28-34 | the dialog keeps its data and parses the priority |
| RefactoringDetailDialog.Dialog.LineRangeDisplay | RhealAI.Web/src/app/features/dashboard/refactoring-detail-dialog/refactoring-detail-dialog.component.ts:55-63 | empty exactly when the line number is 0 |
| RefactoringDetailDialog.Dialog.LineRangeAgrees | RhealAI.Web/src/app/features/dashboard/refactoring-detail-dialog/refactoring-detail-dialog.component.ts:55-63 | the refactoring dialog shows the same range text as the code-detail dialog |
| StandardsPage.CategorizedStandards | RhealAI.Web/src/app/features/standards/standards-page/standards-page.component.ts:30-39 | the loop groups the standards by category: the categories in first-appearance order, each with its standards in order |
| StandardsPage.Categories | RhealAI.Web/src/app/features/standards/standards-page/standards-page.component.ts:41-43 | the distinct categories, exactly those that occur, in first-appearance order |
| StandardsPage.ExistingStandardsCount | RhealAI.Web/src/app/features/standards/standards-page/standards-page.component.ts:44-46 | at most the number of standards, and 0 exactly when none comes from documents |
| StandardsPage.GeneratedStandardsCount | RhealAI.Web/src/app/features/standards/standards-page/standards-page.component.ts:48-50 | at most the number of standards, and 0 exactly when all come from documents |
| StandardsPage.StandardsCountsAddUp | RhealAI.Web/src/app/features/standards/standards-page/standards-page.component.ts:44-50 | the two counts add up to the number of standards |
| UploadPage.ActivityIcon | RhealAI.Web/src/app/features/upload/upload-page/upload-page.component.ts:180-198 | the icon is one of the fourteen the page knows |
| UploadPage.FirstMatch | RhealAI.Web/src/app/features/upload/upload-page/upload-page.component.ts:183-197 | the first rule whose keyword occurs decides the icon, otherwise the fallback |
| UploadPage.ActivityIconIsFirstMatch | RhealAI.Web/src/app/features/upload/upload-page/upload-page.component.ts:180-198 | the chain of tests is the first-match table over the lower-cased status with fallback "autorenew" |
| UploadPage.EarlyRulesFire | RhealAI.Web/src/app/features/upload/upload-page/upload-page.component.ts:183-189 | the first seven rules of the table fire on exactly their keywords and carry their icons |
| UploadPage.LateRulesFire | RhealAI.Web/src/app/features/upload/upload-page/upload-page.component.ts:190-195 | the last six rules of the table fire on exactly their keywords and carry their icons |
| UploadPage.FiresPair | RhealAI.Web/src/app/features/upload/upload-page/upload-page.component.ts:183-195 | a two-keyword rule fires iff either keyword occurs |
| UploadPage.FiresOne | RhealAI.Web/src/app/features/upload/upload-page/upload-page.component.ts:183-195 | a one-keyword rule fires iff its keyword occurs |
| UploadPage.FirstMatchStep | RhealAI.Web/src/app/features/upload/upload-page/upload-page.component.ts:183-197 | the first match is the first rule's icon when it fires, else the first match among the rest |
| UploadPage.FirstMatchUnfold | RhealAI.Web/src/app/features/upload/upload-page/upload-page.component.ts:183-197 | the same unfolded over the thirteen rules |
| UploadPage.ActivityIconIgnoresCase | RhealAI.Web/src/app/features/upload/upload-page/upload-page.component.ts:181 | the icon ignores letter case |
| UploadPage.PsychologyOnlyForAi | RhealAI.Web/src/app/features/upload/upload-page/upload-page.component.ts:180-198 | "psychology" exactly when "ai" occurs and no earlier keyword does |
| UploadPage.AutorenewWhenNoKeyword | RhealAI.Web/src/app/features/upload/upload-page/upload-page.component.ts:197 | "autorenew" exactly when no keyword occurs |
| UploadPage.DetectionBeforeBug | RhealAI.Web/src/app/features/upload/upload-page/upload-page.component.ts:183-195 | a status naming both detection and bug gets the detection icon when no earlier keyword occurs |
| FileUpload.ZipFileSource | RhealAI.Web/src/app/shared/components/file-upload/file-upload.component.ts:92-105 | a dropped or picked ZIP is a ZIP source carrying the file and nothing else |
| FileUpload.LocalSource | RhealAI.Web/src/app/shared/components/file-upload/file-upload.component.ts:107-133 | a trimmed folder path is a ZIP source iff it ends in ".zip" ignoring case, a folder source otherwise |
| FileUpload.GitHubSource | RhealAI.Web/src/app/shared/components/file-upload/file-upload.component.ts:135-147 | trimmed URL, and a branch only when the trimmed branch is not empty |
| FileUpload.LocalSourceIgnoresCase | RhealAI.Web/src/app/shared/components/file-upload/file-upload.component.ts:111 | the ZIP test ignores case |
| FileUpload.LocalSourceTrims | RhealAI.Web/src/app/shared/components/file-upload/file-upload.component.ts:108-110 | a path and its trimmed form give the same source |
| FileUpload.Uploader.constructor | RhealAI.Web/src/app/shared/components/file-upload/file-upload.component.ts:39-54 | every field at its initial value |
| FileUpload.Uploader.SetFolderPath | RhealAI.Web/src/app/shared/components/file-upload/file-upload.component.ts:46 | only the folder path changes |
| FileUpload.Uploader.SetGithubUrl | RhealAI.Web/src/app/shared/components/file-upload/file-upload.component.ts:51 | only the URL changes |
| FileUpload.Uploader.SetGithubBranch | RhealAI.Web/src/app/shared/components/file-upload/file-upload.component.ts:52 | only the branch changes |
| FileUpload.Uploader.DragOver | RhealAI.Web/src/app/shared/components/file-upload/file-upload.component.ts:56-60 | only `isDragging` becomes true; the widget invariant is kept |
| FileUpload.Uploader.DragLeave | RhealAI.Web/src/app/shared/components/file-upload/file-upload.component.ts:62-66 | only `isDragging` becomes false; the widget invariant is kept |
| FileUpload.Uploader.HandleFile | RhealAI.Web/src/app/shared/components/file-upload/file-upload.component.ts:92-105 | a ZIP is selected as the local source and announced; any other file raises the alert and changes nothing |
| FileUpload.Uploader.Drop | RhealAI.Web/src/app/shared/components/file-upload/file-upload.component.ts:68-77 | dragging ends and nothing else changes for an empty drop; a first dropped file named "*.zip" becomes the selected ZIP source (GitHub choice and typed path cleared) with its two emissions; any other file only raises the alert; the whole new state is given in each case |
| FileUpload.Uploader.PickFiles | RhealAI.Web/src/app/shared/components/file-upload/file-upload.component.ts:79-88 | picking files starts loading and leaves the first file pending; no file changes nothing |
| FileUpload.Uploader.FilePickTimerElapsed | RhealAI.Web/src/app/shared/components/file-upload/file-upload.component.ts:84-87 | loading ends; a pending "*.zip" file becomes the selected ZIP source with its two emissions, any other file only raises the alert; the whole new state is given in each case |
| FileUpload.Uploader.SelectLocalSource | RhealAI.Web/src/app/shared/components/file-upload/file-upload.component.ts:107-133 | a blank path changes nothing; otherwise the trimmed path becomes the local source, GitHub is deselected and the source is announced |
| FileUpload.Uploader.SelectGitHub | RhealAI.Web/src/app/shared/components/file-upload/file-upload.component.ts:135-147 | a blank URL changes nothing; otherwise GitHub becomes the source, the local one is cleared and the source is announced |
| FileUpload.Uploader.ClearSelection | RhealAI.Web/src/app/shared/components/file-upload/file-upload.component.ts:149-161 | every field returns to its initial value except `isDragging` |

## Left out

- **The language model and its SDK.** `CompleteChatAsync`, the agent factory and the prompt templates are not part of this model (client creation is the next item). The model call is a function from a prompt (the files and standards it is built from) to an optional reply. The prompt wording is not modelled.
- **Client creation.** `AgentFactory.CreateChatClient` throws for a non-demo provider other than OpenAI and GitHub, and when the OpenAI key or the GitHub token is missing (RhealAI.Infrastructure/AI/AgentFactory.cs:24-71). The model assumes that creating the client succeeds for every non-demo provider. It folds every failure into a model call that returns no reply. For the Markdown extraction loop this is exact: the client is created just before each call, outside any handler (RhealAI.Infrastructure/Services/DocumentationService.cs:59), so a failure ends the run where a failed call would. Elsewhere the model differs from the source when creation throws:
  - ProjectSummaries.AnalyzeProjectStructure: the source creates the client outside its `try` (RhealAI.Infrastructure/Services/AIAnalysisService.cs:428), so the whole report ends after progress 20 and 7. The model falls back to the offline summary and goes on to the standards, violations and bugs.
  - AIAnalysis.AnalyzeCodeViolations and AIAnalysis.DetectBugs: the source throws before any batch progress, even for an empty file list (RhealAI.Infrastructure/Services/AIAnalysisService.cs:48 and 118). The model reports the first batch's progress before the failed call, and returns no findings for an empty file list.
  - Documentation.GenerateStandardsFromCodebase: the source throws right after progress 26 (RhealAI.Infrastructure/Services/DocumentationService.cs:96). The model reports 26, 30 and 35 before the failed call.
- **JSON.** `System.Text.Json` deserialisation is a function parameter that returns a malformed result, JSON `null` or a list of possibly null elements. Serialisation in `ExportReportToJsonAsync` is a function from report to text.
- **Progress transport.** SignalR is not part of this model, and neither are the progress messages. Only the percentages are modelled, in the order they are sent.
- **Timing and concurrency.** `Task.Delay`, `async` scheduling and concurrent access to the cache have no logical effect here: every run is sequential.
- **Clocks, identifiers and the environment.** The stopwatch, `DateTime.UtcNow`, `Guid.NewGuid` and `Environment.CurrentDirectory` are parameters: the report id, the time and the elapsed whole seconds.
- **Random numbers.** The values of `new Random(42)` depend on a generator that is not shown. The model fixes only what `Next(1, max)` guarantees, a value at least 1 and below `max` (`AIAnalysis.ValidRandom`).
- **Floating point.**
  - `FormatExecutionTime` works on whole seconds, so the F0 rounding of `TotalSeconds` is not modelled.
  - The days component of a `TimeSpan` is dropped, as the code drops it (`Reports.FormatExecutionTimeDropsDays`).
  - ECMAScript numbers are `real`; NaN, the infinities and non-integral line numbers are not modelled.
  - `getFileSize` is left out because it is floating-point formatting.
- **Integer width.** C# `int` arithmetic is unbounded here. No count or progress computation in the core comes near 2^31 for inputs of realistic size.
- **Text semantics.**
  - Case folding, `\w` and `\s` are ASCII only.
  - The .NET and ECMAScript white-space sets are modelled as two separate predicates.
  - The raw summary text is written with "\n" line endings.
- **Paths.** '/' is the directory separator of `Path.GetFileName`, `GetDirectoryName` and `GetExtension`. The code splits on both '/' and '\\' only where it does so explicitly.
- **Enumeration order.**
  - Dictionaries and `GroupBy` enumerate in first-insertion order.
  - The `ConcurrentDictionary` of the cache has no specified order. Its queries are proved for any enumeration of the keys, so the order they return is not fixed.
- **StandardsGenerator.StackList:** the `HashSet` of detected stacks is enumerated in insertion order, API, UI, Database, General. .NET does not promise that order.
- **The refactoring and duplication detectors.** `DetectRefactoringOpportunitiesAsync` and `DetectCodeDuplicationsAsync` are not part of this model, since neither is declared or defined in the source. They are opaque functions of the code files, and only what the report computes from their results is modelled.
- **Export and I/O.** PDF export only throws "not implemented" and is left out. ZIP extraction, git cloning, the file system and `RepositoryService` apart from its lookup are not part of this model. HTTP hosting and the Angular services are not part of this model either.
- **Browser behaviour.**
  - `ngOnInit` loading apart from the fallback aggregation and the item mapping, lazy tab loading, paginators, dialogs and the upload page's `uploadAndAnalyze` flow are not modelled.
  - `alert` is modelled as an emitted `Alert` value.
  - The `setTimeout` in `onFileSelected` is split into two steps: `PickFiles` starts loading, and `FilePickTimerElapsed` runs with the delayed file.
  - `Object.keys` order is not modelled: `parseSeverityMap` is stated as a map.
- **SeverityBadge.SeverityString:** `displaySeverity` is the same function, so it has no member of its own.
- **AnalysisResultPage.TwoWordLabel:** the exact label text is proved only for types made of two capitalised words. For every type, `FormatDuplicationTypeVisible` proves that the label keeps exactly the type's non-space characters.
