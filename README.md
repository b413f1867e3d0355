# pdfBot, modelled in Dafny

pdfBot is a WhatsApp bot that processes PDF files. It has two halves.

**The Laravel application** talks to users.
- A user sends a PDF through Twilio or the Meta Cloud API.
- They pick an operation from a numbered menu or type a command such as `COMPRESS whatsapp` or `SUMMARIZE court`: compress, convert, OCR, summarize, translate or secure.
- A queued job then runs the request:
  - it downloads the file and stores it on the default storage disk;
  - it has the file processed by the Python service, falling back to a placeholder file when the service is disabled or fails;
  - it sends the result back and records the TaskJob as completed or failed.
- A console command deletes expired documents.

**The Python services** do the processing.
- The FastAPI `pdf_service` performs the six operations with pikepdf, pdf2image, tesseract and reportlab. It answers every failure inside an operation with a placeholder file.
- The smaller `pdf_microservice` does simulated versions with PyPDF2.

## How the model is organised

Each source component is one module.

**Pure decision logic** is modelled as datatypes and functions, with lemmas about them:
- the command parser;
- the job hooks;
- the storage keys;
- the client's options and response classification;
- the menu tables;
- the Python text algorithms: sentence chunking, summaries, OCR page assembly, validation matrices, quality lookups and names.

**Code that changes state** is modelled as classes whose methods are proved against those functions:
- the job engine, whose fields mirror the `TaskJob` and `Document` rows;
- the streaming download and the temporary-file sweep;
- the blob store;
- the cleanup command's deletion loop;
- the webhook controllers with their cache, queue and outbox;
- the Python temporary copies, the metadata edits and the image-stacking canvas.

**Outside results** become parameters or the state of small stand-in classes:
- HTTP responses;
- what a PDF library returns;
- the clock;
- random shuffles;
- the HMAC.

Each contract holds for every value those results can take.

The source code sometimes disagrees with the written design. Where it does, the model follows the code. The places where the code defeats its own evident intent are listed under Findings. Each of those is modelled twice: once as written, with a lemma that shows the input where it goes wrong, and once corrected, which is the version the rest of the model uses.

## Model

| member | source | states |
|---|---|---|
| CommandParser.ParamKey | pdf-bot/app/Support/CommandParser.php:82-125 | the sub-parameter of each operation is stored under a key of its own, never under `original_command` or `password` |
| CommandParser.GeneratePassword | pdf-bot/app/Support/CommandParser.php:142-146 | a generated password is 8 distinct characters drawn from the 62 letters and digits |
| CommandParser.ValidateParameter | pdf-bot/app/Support/CommandParser.php:133-137 | a parameter is accepted exactly when its lower-cased form is in the allowed list, and the accepted value is that lower-cased form |
| CommandParser.ParseParameters | pdf-bot/app/Support/CommandParser.php:78-128 | the map always holds `original_command` (action, space, parameter) and the operation's key; an allowed parameter is stored in its canonical (English) form, any other gets the operation's default; `password` is present exactly for a secure command that needs one |
| CommandParser.ActionAndParameter | pdf-bot/app/Support/CommandParser.php:52-60 | there is no action exactly when the trimmed command is PHP-empty (`""` or `"0"`) |
| CommandParser.ParseParts | pdf-bot/app/Support/CommandParser.php:62-74 | a command is recognised exactly when its first part is a table keyword; the result carries that operation, its job class and the parsed parameters |
| CommandParser.Parse | pdf-bot/app/Support/CommandParser.php:50-74 | null for an empty command; otherwise recognised exactly when the first blank-separated word of the upper-cased command is a keyword, with that keyword's operation and job class |
| CommandParser.SupportedCommands | pdf-bot/app/Support/CommandParser.php:151-154 | the list has six entries, one per table row (what they are is stated by the next row) |
| CommandParser.SupportedCommandsComplete | pdf-bot/app/Support/CommandParser.php:151-154 | the six supported commands, in table order, are one keyword per operation and each is recognised by the table |
| CommandParserProperties.TrimBetweenWords | pdf-bot/app/Support/CommandParser.php:52 | trimming a command that starts with two words keeps both words and the single space between them |
| CommandParserProperties.PartsOfCommand | pdf-bot/app/Support/CommandParser.php:58-60 | for a command whose trimmed form is `a b…`, the action is `A` and the parameter `B` (upper-cased) |
| CommandParserProperties.ParseIgnoresExtraWords | pdf-bot/app/Support/CommandParser.php:58-60 | a third and later word never change the parse |
| CommandParserProperties.ParseIgnoresCase | pdf-bot/app/Support/CommandParser.php:52-58 | lower-casing a command does not change its parse |
| CommandParserProperties.PartsIgnoreCase | pdf-bot/app/Support/CommandParser.php:52-60 | lower-casing a command does not change the action and parameter read from it |
| CommandParserProperties.BareKeywordUsesDefault | pdf-bot/app/Support/CommandParser.php:60-74 | a keyword alone selects its operation with the default sub-parameter and `original_command` equal to the keyword and a space |
| CommandParserProperties.NoEmptyAllowed | pdf-bot/app/Support/CommandParser.php:15-43 | no allowed list contains the empty parameter, so a missing parameter always falls back to the default |
| CommandParserProperties.IsSupportedAgreesOnSpaces | pdf-bot/app/Support/CommandParser.php:159-163 | for two space-separated words, `isSupported` holds exactly when `parse` recognises the command |
| CommandParserProperties.TabCommandNotSupported | pdf-bot/app/Support/CommandParser.php:159-163 | `isSupported` rejects two words separated by a tab, because it splits only on spaces |
| CommandParserProperties.TabSeparatedDisagrees | pdf-bot/app/Support/CommandParser.php:50-163 | with a tab between keyword and parameter, `parse` accepts the command and `isSupported` rejects it |
| CommandParserProperties.TabExample | pdf-bot/app/Support/CommandParser.php:159-163 | `compress<TAB>whatsapp` is parsed but not supported |
| PdfOps.Keyword | pdf-bot/app/Support/CommandParser.php:13-45 | each operation's keyword is its stored type name upper-cased |
| PdfOps.OfKeyword | pdf-bot/app/Support/CommandParser.php:62 | a keyword is found exactly when it is some operation's keyword, matched exactly and case-sensitively |
| PdfOps.MenuJobClassAgrees | pdf-bot/app/Services/WhatsApp/WhatsAppService.php:234 | the class name built from a stored type with `ucfirst` is the job class the parser registers for that operation |
| PdfOps.KeywordRoundTrip | pdf-bot/app/Support/CommandParser.php:13-45 | looking up an operation's keyword gives back that operation |
| Records.TemporaryUrl | pdf-bot/app/Models/Document.php:45-53 | no link exactly when there is no stored copy; otherwise the storage service's link for that copy |
| Records.OutputTemporaryUrl | pdf-bot/app/Models/Document.php:58-66 | no link exactly when there is no processed copy; otherwise the storage service's link for it |
| Records.NewDocument | pdf-bot/database/migrations/2025_09_03_224450_create_documents_table.php:16-25 | a created row holds its name and the default status `uploaded`; every nullable column is null |
| Records.InsertDocumentCheck | pdf-bot/database/migrations/2025_09_03_224450_create_documents_table.php:16 | an insert is refused exactly when `original_name`, the one required column, is not among the mass-assignable keys given |
| Records.Assigned | pdf-bot/app/Models/Document.php:12-23 | an update writes exactly the given keys that are fillable |
| Records.Document.SetExpiration | pdf-bot/app/Models/Document.php:79-83 | only the expiry changes, to `hours` hours from now; the row is not expired exactly when `hours >= 0`, and active exactly when `hours > 0` |
| Records.StatusName | pdf-bot/database/migrations/2025_09_03_224500_create_task_jobs_table.php:18 | a job status is one of `pending`, `running`, `completed`, `failed` |
| Records.NewTaskJob | pdf-bot/database/migrations/2025_09_03_224500_create_task_jobs_table.php:17-24 | a created job is pending, with its operation and parameters and nothing else recorded |
| Records.FindDocument | pdf-bot/database/migrations/2025_09_03_224450_create_documents_table.php:15 | a key finds a row exactly when it is between 1 and the row count, and finds the row stored under it |
| Records.Database.CreateDocument | pdf-bot/app/Models/Document.php:10-23 | the new row is appended under the next key; the jobs table is untouched |
| Records.Database.CreateTaskJob | pdf-bot/app/Models/TaskJob.php:10-20 | the new job is appended under the next key; the documents table is untouched |
| Records.FindAfterCreate | pdf-bot/database/migrations/2025_09_03_224450_create_documents_table.php:15 | a created document is found under its new key and every older key finds the same row as before |
| Records.IsExpiredIsExpiredScope | pdf-bot/app/Models/Document.php:71-91 | `isExpired` holds exactly when the row is in the expired scope |
| Records.ScopesPartition | pdf-bot/app/Models/Document.php:88-102 | no row is both expired and active, and the rows in neither scope are those expiring at exactly now |
| Records.NoExpiryIsActive | pdf-bot/app/Models/Document.php:71-102 | a document without an expiry is never expired and always active |
| Records.ProcessingMetadataDiscarded | pdf-bot/app/Models/Document.php:12-23 | `processing_metadata` is not fillable, so an update carrying it writes only the output path and size |
| Storage.SplitExtensionReassembles | pdf-bot/app/Services/StorageService.php:100-102 | the extension `pathinfo` reports holds no dot, and filename, dot and extension give the basename back; without an extension the filename is the basename |
| Storage.DirectorySplitReassembles | pdf-bot/app/Services/StorageService.php:100-102 | the basename holds no slash; directory and basename give the key back, with `.` for a key without a slash and `/` for a key at the root |
| Storage.PathInfoReassembles | pdf-bot/app/Services/StorageService.php:100-102 | all four parts of `pathinfo` together reassemble the key |
| Storage.UniqueFilename | pdf-bot/app/Services/StorageService.php:86-93 | the stored name starts with the timestamp and `_` and ends with a dot and the client extension |
| Storage.TemporaryUrl | pdf-bot/app/Services/StorageService.php:46-57 | the signed link when signing succeeds, the plain link when it throws |
| Storage.BlobStore.Put | pdf-bot/app/Services/StorageService.php:104 | a stored write puts the content privately under the key, changes no other key and answers `true`; a refused write answers `false` and a throwing one its message, and neither changes the disk |
| Storage.BlobStore.Delete | pdf-bot/app/Services/StorageService.php:62-65 | a deletion the disk accepts removes the key and no other; a refused one changes nothing |
| Storage.StorageService.UploadFile | pdf-bot/app/Services/StorageService.php:21-41 | the upload is stored privately under `{directory}/{unique name}` and the result reports that path, the size, client name, MIME type and link |
| Storage.StorageService.StoreProcessedFile | pdf-bot/app/Services/StorageService.php:98-107 | the derived key is returned whether or not the disk stored the content (`put`'s answer is ignored); a disk exception propagates and leaves the disk unchanged |
| Storage.StorageService.StoreFileContentAsWritten | pdf-bot/app/Services/StorageService.php:112-136 | as written: the content is stored, then the unimported `Log` class raises an error the `catch (\Exception)` does not catch |
| Storage.StorageService.StoreFileContent | pdf-bot/app/Services/StorageService.php:112-136 | corrected: `true` exactly when the content is stored with its MIME type, `false` when the disk refuses it, and a disk exception is rethrown with the disk unchanged |
| Storage.ProcessedKeyOfSimpleKey | pdf-bot/app/Services/StorageService.php:98-103 | `dir/name.ext` becomes `dir/name{suffix}.ext` |
| Storage.ProcessedKeyWithoutDirectory | pdf-bot/app/Services/StorageService.php:100-103 | a key without a directory yields a key under `./` |
| FileDownload.TempDir.MakeDir | pdf-bot/app/Services/FileDownloadService.php:36-38 | the directory exists afterwards and its entries are untouched |
| FileDownload.TempDir.Write | pdf-bot/app/Services/FileDownloadService.php:53-72 | the named file holds exactly the content written; no other entry changes |
| FileDownload.TempDir.Unlink | pdf-bot/app/Services/FileDownloadService.php:162-166 | succeeds exactly on an existing regular file the system does not refuse, and then removes that entry alone |
| FileDownload.TempDir.List | pdf-bot/app/Services/FileDownloadService.php:158 | every entry not starting with a dot is listed once |
| FileDownload.Trailer | pdf-bot/app/Services/FileDownloadService.php:136-139 | the bytes searched for the end marker are at most 1024 |
| FileDownload.FileDownloadService.constructor | pdf-bot/app/Services/FileDownloadService.php:15-20 | the limit is 50 MB and its text `50 MB` |
| FileDownload.FileDownloadService.DownloadFile | pdf-bot/app/Services/FileDownloadService.php:25-85 | fails exactly when the response, the size limit or the validation fails, with that error's message; a success names `download_{uniq}.pdf`; a started file that fails validation is deleted again |
| FileDownload.FileDownloadService.CleanupTempFiles | pdf-bot/app/Services/FileDownloadService.php:150-171 | without the directory nothing happens and 0 is returned; otherwise exactly the files the sweep selects are removed and their count returned |
| FileDownload.FileDownloadService.DownloadFromStorage | pdf-bot/app/Services/FileDownloadService.php:207-241 | fails with `File not found in storage: {key}` exactly when the stored content is missing or PHP-false; otherwise a fresh temporary file holds the stored bytes |
| FileDownload.AcceptedFileIsPdf | pdf-bot/app/Services/FileDownloadService.php:90-145 | an accepted file has MIME type `application/pdf`, starts with `%PDF`, contains `%%EOF` and is at least nine bytes long |
| FileDownload.DownloadedFileWithinLimit | pdf-bot/app/Services/FileDownloadService.php:44-84 | a successful download came from a 2xx response, is within the size limit and is a PDF |
| FileDownload.ShortFileMarkerAfterHeader | pdf-bot/app/Services/FileDownloadService.php:127-143 | in a short file the end marker is searched after the header: `%PDF%%EOF` passes, `%PDF%EOF` fails with the missing-marker message |
| FileDownload.SweepRemovesOnlyExpired | pdf-bot/app/Services/FileDownloadService.php:157-168 | every file removed was listed and older than the cutoff |
| FileDownload.SweepRemovesAllExpired | pdf-bot/app/Services/FileDownloadService.php:157-168 | when no removal is refused, every listed file older than the cutoff is removed |
| ExpiredCleanup.DocumentTable.Delete | pdf-bot/app/Console/Commands/CleanupExpiredDocuments.php:76 | the row is gone and every other row stays |
| ExpiredCleanup.ExitCode | pdf-bot/app/Console/Commands/CleanupExpiredDocuments.php:104 | the command fails exactly when a sweep met errors, and succeeds otherwise, including when nothing expired, in a dry run and when cancelled |
| ExpiredCleanup.CleanupOne | pdf-bot/app/Console/Commands/CleanupExpiredDocuments.php:58-87 | a document either loses its row or counts as an error, never both; only its own input and output objects can disappear, and every other object is kept unchanged |
| ExpiredCleanup.CleanupCommand.DeleteFiles | pdf-bot/app/Console/Commands/CleanupExpiredDocuments.php:61-72 | the storage afterwards, the decision to delete the row and the bytes freed are those of one loop iteration |
| ExpiredCleanup.CleanupCommand.Handle | pdf-bot/app/Console/Commands/CleanupExpiredDocuments.php:26-105 | nothing expired, a dry run and a declined confirmation change nothing; otherwise the rows and the storage are those of the sweep over the expired documents |
| ExpiredCleanup.TableName | pdf-bot/app/Console/Commands/CleanupExpiredDocuments.php:112 | a name of at most 30 bytes is shown whole; a longer one is its first 30 bytes and `...`, 33 bytes in all |
| ExpiredCleanupProperties.EveryDocumentCounted | pdf-bot/app/Console/Commands/CleanupExpiredDocuments.php:57-88 | the deleted count and the error count add up to the number of expired documents |
| ExpiredCleanupProperties.RemovedRows | pdf-bot/app/Console/Commands/CleanupExpiredDocuments.php:57-88 | only selected rows are removed, one per counted deletion, and with no error every selected row is removed |
| ExpiredCleanupProperties.OnlySelectedFilesDeleted | pdf-bot/app/Console/Commands/CleanupExpiredDocuments.php:61-72 | the sweep deletes only objects a selected row names, and every other object is kept unchanged |
| ExpiredCleanupProperties.ActiveRowsSurvive | pdf-bot/app/Console/Commands/CleanupExpiredDocuments.php:31-33 | an active document's row is never removed |
| ExpiredCleanupProperties.RefusedInputKeepsRow | pdf-bot/app/Console/Commands/CleanupExpiredDocuments.php:62-82 | a document whose input the disk refuses to delete keeps its row and its input and counts as an error, yet its recorded size is counted as freed |
| MicroserviceClient.WithDefaults | pdf-bot/app/Services/PdfMicroserviceClient.php:76 | the merged options have the keys of both maps; a caller's value wins over the default |
| MicroserviceClient.SecureOptions | pdf-bot/app/Services/PdfMicroserviceClient.php:146-161 | the security type is always sent; the password and the watermark text are sent exactly when PHP reads them as true |
| MicroserviceClient.RequestFor | pdf-bot/app/Services/PdfMicroserviceClient.php:69-161 | each call posts to the endpoint named after its operation; a convert call with a format outside docx, xlsx, img, png, jpg is refused, and nothing else is |
| MicroserviceClient.ExtractFilename | pdf-bot/app/Services/PdfMicroserviceClient.php:343-352 | without a match the name is `processed_file`; otherwise it is a non-empty, quote-free name that appears as `filename="{name}"` in the header |
| MicroserviceClient.HealthOf | pdf-bot/app/Services/PdfMicroserviceClient.php:34-64 | healthy exactly on a 2xx answer; unreachable exactly when the connection fails |
| MicroserviceClient.ServiceInfoOf | pdf-bot/app/Services/PdfMicroserviceClient.php:398-427 | information is returned exactly on a 2xx answer; any other answer gives the error `HTTP {status}` |
| MicroserviceClient.PdfMicroserviceClient.ProcessS3FileAsWritten | pdf-bot/app/Services/PdfMicroserviceClient.php:166-226 | as written: a missing stored file gives `File not found in storage: {key}`; otherwise one request is sent and its result returned without any upload, because `makeRequest` never returns `file_path` |
| MicroserviceClient.PdfMicroserviceClient.ProcessS3File | pdf-bot/app/Services/PdfMicroserviceClient.php:166-226 | corrected: the same errors, and a file result is written under `processed/{endpoint}/…` with its key reported, or the disk's exception rethrown; the temporary copy is removed in every case |
| MicroserviceClient.PdfMicroserviceClient.UploadResult | pdf-bot/app/Services/PdfMicroserviceClient.php:184-204 | a file result is written and its key recorded, or, when the disk throws, the step fails with `Failed to upload file to S3: ` and the disk's message; any other result leaves the storage as it was |
| MicroserviceClient.OutputKey | pdf-bot/app/Services/PdfMicroserviceClient.php:188-191 | a processed file is stored under `processed/{endpoint}/` |
| MicroserviceClient.MakeRequestSucceedsIff | pdf-bot/app/Services/PdfMicroserviceClient.php:265-339 | a request succeeds exactly when its local file exists and the answer is 2xx; a file result's size is the length of its content |
| MicroserviceClient.MakeRequestHasNoOutputPath | pdf-bot/app/Services/PdfMicroserviceClient.php:291-318 | no file result of `makeRequest` carries an output key |
| MicroserviceClient.ExtractFilenameRoundTrip | pdf-bot/app/Services/PdfMicroserviceClient.php:347-348 | the name in a header written as `filename="{name}"` is read back |
| MicroserviceClient.ExtractFilenameWithoutQuote | pdf-bot/app/Services/PdfMicroserviceClient.php:347-351 | a header without a quote gives `processed_file` |
| MicroserviceClient.ParsedFormatsSupported | pdf-bot/app/Services/PdfMicroserviceClient.php:84-90 | every format a parsed convert command can carry is one `convertPdf` accepts |
| MicroserviceClient.ParsedLanguagesAdvertised | pdf-bot/app/Services/PdfMicroserviceClient.php:377-392 | every target language a parsed translate command can carry is one the client advertises |
| MicroserviceClient.SecureRequestCarriesPassword | pdf-bot/app/Services/PdfMicroserviceClient.php:152-154 | the secure request carries a password exactly when the job's password is PHP-true |
| JobHooks.RemoteCallAsWritten | pdf-bot/app/Jobs/SummarizePdfJob.php:13-21 | as written: each job calls the service for its own operation on the stored key, and the summarize job reads `length`, a key the parser never writes |
| JobHooks.RemoteCallFor | pdf-bot/app/Jobs/SummarizePdfJob.php:13-21 | corrected: each job calls the service for its own operation on the stored key, and the summarize job sends the parsed `size` |
| JobHooks.LanguageName | pdf-bot/app/Jobs/TranslatePdfJob.php:29-38 | a code is shown as itself exactly when the table has no name for it |
| JobHooks.SettingLineStarts | pdf-bot/app/Jobs/CompressPdfJob.php:26-41 | the placeholder's setting line starts with the operation's label and the setting as shown |
| JobHooks.SummaryKindOf | pdf-bot/app/Jobs/SummarizePdfJob.php:31-36 | the generic text is used exactly for a size other than short, medium and long; the short text exactly for `short` |
| JobHooks.SecurityHeadOneLine | pdf-bot/app/Jobs/SecurePdfJob.php:38-43 | the first sentence of each security description is one line |
| JobHooks.SecurityInfoLines | pdf-bot/app/Jobs/SecurePdfJob.php:38-43 | the password and both types add a `Mot de passe:` line with the password; the other types give a single line |
| JobHooks.PlaceholderContentShows | pdf-bot/app/Jobs/SummarizePdfJob.php:26-49 | every placeholder names the original file and shows the operation's setting; a summary placeholder holds the text for its size, a secure one its security description |
| JobHooks.PlaceholderExtension | pdf-bot/app/Jobs/OcrPdfJob.php:46-53 | `.docx` exactly for OCR with `docx` output; the dotless `pdf` exactly for translate and secure; `.txt` otherwise |
| JobHooks.CaptionShows | pdf-bot/app/Jobs/SecurePdfJob.php:67-83 | the caption shows the setting, shows the password when a secure job sets one, and ends with the processing time |
| JobHookProperties.NoKeyInTiming | pdf-bot/app/Jobs/SecurePdfJob.php:80 | the processing-time line never holds the key emoji |
| JobHookProperties.SecureCaptionShowsPassword | pdf-bot/app/Jobs/SecurePdfJob.php:76-78 | the secure caption has a key line exactly when the password is PHP-true and the type is `password` or `both` |
| JobHookProperties.SecurityInfoShowsPassword | pdf-bot/app/Jobs/SecurePdfJob.php:38-43 | the placeholder lists the password exactly for the `password` and `both` types |
| JobHookProperties.ParametersReachService | pdf-bot/app/Support/CommandParser.php:78-128 | every parameter map the parser builds makes the job send the parsed setting, for each operation |
| JobHookProperties.ParsedSettingReachesService | pdf-bot/app/Support/CommandParser.php:50-74 | for every parsed command the service call carries the parsed setting: mode, format, output format, size, target language, or security type with password |
| JobHookProperties.SummarizeSizeIgnoredAsWritten | pdf-bot/app/Jobs/SummarizePdfJob.php:16 | as written, every parsed summarize command asks the service for a `medium` summary |
| JobHookProperties.SummarizeLongExample | pdf-bot/app/Jobs/SummarizePdfJob.php:16 | `SUMMARIZE long` stores size `long`, reaches the service as `medium` as written and as `long` once corrected |
| PdfJobs.StorageFilename | pdf-bot/app/Jobs/BasePdfJob.php:331-338 | the stored name starts with `{timestamp}_{type}_` and ends with `.pdf` |
| PdfJobs.StorageKey | pdf-bot/app/Jobs/BasePdfJob.php:129-140 | the input is stored under `documents/{timestamp}_{type}_…` with the `.pdf` extension |
| PdfJobs.Elapsed | pdf-bot/app/Jobs/BasePdfJob.php:251-262 | the recorded duration is 0 without a start, and the seconds since the start otherwise |
| PdfJobs.ResultFileExtension | pdf-bot/app/Jobs/BasePdfJob.php:368-388 | one of five extensions; `.pdf` for a PDF content type; `.png` only for an image type and `.txt` only for plain text |
| PdfJobs.PdfJob.DownloadPdf | pdf-bot/app/Jobs/BasePdfJob.php:93-127 | fails exactly when the document has no media URL or the download or validation fails, with that message; a failed download leaves no new file behind, and a good one adds exactly the downloaded file |
| PdfJobs.PdfJob.UploadToStorage | pdf-bot/app/Jobs/BasePdfJob.php:129-154 | the document, the disk and the result are those of `UploadStep`: the downloaded bytes are written under the job's key and the document records that key and size; a disk exception ends the step before the document is touched; the local copy is removed only when no exception escapes |
| PdfJobs.PdfJob.CreatePlaceholderResult | pdf-bot/app/Jobs/BasePdfJob.php:343-363 | the document, the disk and the result are those of `PlaceholderStep`: the placeholder is written beside the input and recorded with its size, or the write's or the record's exception is returned |
| PdfJobs.PdfJob.ProcessPdf | pdf-bot/app/Jobs/BasePdfJob.php:159-208 | corrected: the document, the disk and the result are those of `ProcessStep`: the service's file when it is delivered and recorded, the placeholder otherwise (retried once when the service is disabled); only the placeholder's exception escapes |
| PdfJobs.PdfJob.ProcessPdfAsWritten | pdf-bot/app/Jobs/BasePdfJob.php:159-208 | as written: whatever the service answers, the outcome is that of `PlaceholderStep`, because the client's result has no `s3_output_path` |
| PdfJobs.PdfJob.SendResult | pdf-bot/app/Jobs/BasePdfJob.php:213-249 | the user is sent the result link with the caption, then one apology when the provider refuses the media |
| PdfJobs.PdfJob.MarkCompleted | pdf-bot/app/Jobs/BasePdfJob.php:251-274 | the job's attributes are completed with its finishing time, duration and output path; the document is `completed` unless the job's update throws; the exception of either update is returned |
| PdfJobs.PdfJob.MarkFailed | pdf-bot/app/Jobs/BasePdfJob.php:279-306 | the job is failed with its finishing time, duration and the error message, and its result metadata is left as it was; the document is `failed` and the user gets one failure notice |
| PdfJobs.PdfJob.Steps | pdf-bot/app/Jobs/BasePdfJob.php:63-73 | after a good download the document, disk, messages, job and temporary directory are those `AfterDownload` gives, and the first exception is returned |
| PdfJobs.PdfJob.Run | pdf-bot/app/Jobs/BasePdfJob.php:59-76 | the job, document, disk and messages are those of `RunOutcome` followed by `markFailed` on its exception; when the download's name was not already taken, the temporary directory is as before the run, plus the download when the upload step failed |
| PdfJobs.PdfJob.Handle | pdf-bot/app/Jobs/BasePdfJob.php:39-88 | the job is marked running and always ends completed or failed with start, end and duration; its state is that of `RunOutcome`; a failed download fails the run and touches nothing else; with every write succeeding, a good download completes it; old temporary files are swept whatever happened: the directory ends as the steps left it less exactly the files `Sweep` selects from its listing (expired, up to the first refused removal) |
| PdfJobs.StartFailureFailsRun | pdf-bot/app/Jobs/BasePdfJob.php:59-77 | a failed download is recorded as the failure, the document is failed, the user gets one notice, and the disk and result metadata are untouched |
| PdfJobs.ReliableRunCompletes | pdf-bot/app/Jobs/BasePdfJob.php:59-73 | with every write stored and no update throwing, an accepted download completes the run: input and result stored and recorded, result sent, completion recorded |
| PdfJobProperties.ServiceOutputIff | pdf-bot/app/Jobs/BasePdfJob.php:168-196 | the service's file is kept exactly when the service is enabled, the request is valid, the input is readable, the answer is a 2xx file, and writing that file does not throw |
| PdfJobProperties.PlaceholderWhenNotAdopted | pdf-bot/app/Jobs/BasePdfJob.php:170-207 | a disabled service, an unreadable input, a connection failure or a throwing output write gives the placeholder |
| PdfJobProperties.StemSimple | pdf-bot/app/Jobs/BasePdfJob.php:331-338 | the stored name without its extension holds no dot and no slash |
| PdfJobProperties.StorageKeySplit | pdf-bot/app/Jobs/BasePdfJob.php:129-140 | the input key is `documents/{stem}.pdf` |
| PdfJobProperties.PlaceholderKeyShape | pdf-bot/app/Jobs/BasePdfJob.php:343-352 | the placeholder is stored as `documents/{stamp}_{type}_{8 hex}_{type}{extension}.pdf`, with the placeholder extension before `.pdf` |
| PdfJobProperties.PlaceholderPath | pdf-bot/app/Jobs/BasePdfJob.php:343-352 | the placeholder key is the storage service's processed key with suffix `_{type}{extension}` |
| PdfJobProperties.AcceptedDownloadIsValidPdf | pdf-bot/app/Jobs/BasePdfJob.php:311-329 | a download the first step accepts is a valid PDF and, once stored, is found by the processing step |
| PdfJobProperties.DeliveryShape | pdf-bot/app/Jobs/BasePdfJob.php:213-249 | the link and caption come first, and exactly one apology follows exactly when the media message is refused |
| PdfJobProperties.ElapsedOfForwardClock | pdf-bot/app/Jobs/BasePdfJob.php:253 | the duration is the time between start and finish, and it is never negative |
| PdfJobProperties.ProcessStepOkIff | pdf-bot/app/Jobs/BasePdfJob.php:159-208 | processing yields a result exactly when the output's record does not throw and either the service's file is kept or the placeholder write does not throw; that result is the service's file when kept, else the placeholder |
| PdfJobProperties.AfterDownloadCompletesIff | pdf-bot/app/Jobs/BasePdfJob.php:63-76 | after an accepted download the run completes exactly when the input write does not throw, no update throws, and the result is the service's file or a placeholder written without an exception; a completed run has sent its result |
| PdfJobProperties.RunCompletesIff | pdf-bot/app/Jobs/BasePdfJob.php:59-76 | a run whose download fails never completes; otherwise it completes exactly when its later steps do |
| PdfJobProperties.FinalStatus | pdf-bot/app/Jobs/BasePdfJob.php:251-289 | the job ends `completed` exactly when no exception escaped the steps, and `failed` otherwise |
| PdfJobProperties.DownloadKeptIff | pdf-bot/app/Jobs/BasePdfJob.php:141-151 | the downloaded file is left in the temporary directory exactly when the download was accepted and then the input write or its record threw |
| PdfJobProperties.CompletedOverwrittenByFailure | pdf-bot/app/Jobs/BasePdfJob.php:255-266 | when either update in `markCompleted` throws, the job ends failed with that message yet keeps the success metadata, the document ends failed, and the user gets the result and then the failure notice |
| PdfJobProperties.RefusedInputRecordedAnyway | pdf-bot/app/Jobs/BasePdfJob.php:142-148 | when the disk refuses the input without throwing, the run still completes: the document records a key the disk does not hold and the user gets the placeholder |
| Messaging.Outbox.SendText | pdf-bot/app/Services/Messaging/TwilioService.php:23-48 | the message is appended to what was sent, and the result is the provider's answer |
| Messaging.Outbox.SendMedia | pdf-bot/app/Services/Messaging/TwilioService.php:50-83 | the link and caption are appended to what was sent, and the result is the provider's answer |
| Sessions.Cache.Put | pdf-bot/app/Http/Controllers/Api/WhatsAppWebhookController.php:96-99 | the key now holds the value until its lifetime ends; no other key changes |
| Sessions.Cache.Forget | pdf-bot/app/Http/Controllers/Api/WhatsAppWebhookController.php:390 | the key is gone and every other key stays |
| Sessions.PutThenLookup | pdf-bot/app/Http/Controllers/Api/WhatsAppWebhookController.php:96-99 | a stored session is found before its lifetime ends and not after |
| Sessions.OtherKeysUntouched | pdf-bot/app/Http/Controllers/Api/WhatsAppWebhookController.php:253 | storing or forgetting one user's session leaves every other user's lookup unchanged |
| Sessions.ForgetThenLookup | pdf-bot/app/Http/Controllers/Api/WhatsAppWebhookController.php:390 | a forgotten session is not found |
| Sessions.JobQueue.Push | pdf-bot/app/Http/Controllers/Api/WhatsAppWebhookController.php:383 | the job is queued behind the earlier ones |
| PikePdf.Document.EditMetadata | pdf-bot/services/pdf_service/services/compress_service.py:98-104 | the metadata is replaced by its edited form, or kept unchanged when opening it raises, and the error is reported |
| TwilioWebhook.OwnedJobs | pdf-bot/app/Http/Controllers/Api/WhatsAppWebhookController.php:170-176 | exactly the jobs whose document belongs to the user, and no more than there are jobs |
| TwilioWebhook.StatusLines | pdf-bot/app/Http/Controllers/Api/WhatsAppWebhookController.php:184-195 | one line per listed job |
| TwilioWebhook.Controller.Send | pdf-bot/app/Http/Controllers/Api/WhatsAppWebhookController.php:103 | one text is appended to what was sent |
| TwilioWebhook.Controller.Handle | pdf-bot/app/Http/Controllers/Api/WhatsAppWebhookController.php:26-78 | corrected: the new rows, cache, queue and sent messages are those of one step of the webhook on the message |
| TwilioWebhook.Controller.HandlePdfMessage | pdf-bot/app/Http/Controllers/Api/WhatsAppWebhookController.php:92-122 | the session is stored for five minutes (300 s) and the PDF menu sent |
| TwilioWebhook.Controller.HandleTextCommand | pdf-bot/app/Http/Controllers/Api/WhatsAppWebhookController.php:124-141 | exactly one reply: help, the status of the user's recent jobs, or the prompt to send a PDF |
| TwilioWebhook.Controller.HandleMenuSelection | pdf-bot/app/Http/Controllers/Api/WhatsAppWebhookController.php:250-298 | corrected: the state afterwards is that of the selection step: no session, a submenu, an invalid choice, or the command run on the stored PDF |
| TwilioWebhook.Controller.ProcessPdfWithCommand | pdf-bot/app/Http/Controllers/Api/WhatsAppWebhookController.php:350-416 | an unparsed command only gets the invalid-command reply; a parsed one creates the rows, queues the job, confirms and forgets the session |
| TwilioWebhook.Controller.DispatchCommand | pdf-bot/app/Http/Controllers/Api/WhatsAppWebhookController.php:359-398 | one document and one job row are created, one job queued, one confirmation sent and the session forgotten |
| TwilioWebhook.BuildStatusMessage | pdf-bot/app/Http/Controllers/Api/WhatsAppWebhookController.php:168-198 | the message built line by line is the status message of the recent jobs |
| TwilioWebhook.MenuLookupAsWritten | pdf-bot/app/Http/Controllers/Api/WhatsAppWebhookController.php:284 | as written the raw body indexes the map, so only a body of one or two digits, exactly a key, finds an entry |
| TwilioWebhook.MenuLookup | pdf-bot/app/Http/Controllers/Api/WhatsAppWebhookController.php:250-298 | corrected: the trimmed body is looked up; on a trimmed body it agrees with the as-written lookup, and it finds every entry the as-written lookup finds |
| TwilioWebhook.SelectionStepAsWritten | pdf-bot/app/Http/Controllers/Api/WhatsAppWebhookController.php:250-298 | as written, once the session is found, the three submenus are sent before anything else, whatever was chosen |
| TwilioWebhook.SelectionStep | pdf-bot/app/Http/Controllers/Api/WhatsAppWebhookController.php:250-298 | corrected: a selection sends exactly one message, to the sender, after the earlier ones |
| TwilioWebhook.Step | pdf-bot/app/Http/Controllers/Api/WhatsAppWebhookController.php:26-78 | corrected: every inbound message sends exactly one message, to its sender, after the earlier ones |
| TwilioWebhookProperties.MenuCodeIsTableKey | pdf-bot/app/Http/Controllers/Api/WhatsAppWebhookController.php:56 | the routing pattern accepts exactly the keys of the selection map |
| TwilioWebhookProperties.TrimmedMenuPattern | pdf-bot/app/Http/Controllers/Api/WhatsAppWebhookController.php:56 | a trimmed body passes the pattern exactly when it is a key of the map |
| TwilioWebhookProperties.RouteSelectionIff | pdf-bot/app/Http/Controllers/Api/WhatsAppWebhookController.php:46-63 | for a known user and a message that is not a PDF, the message is routed to the menu exactly when its trimmed body is a key of the map |
| TwilioWebhookProperties.RoutedSelectionFindsEntry | pdf-bot/app/Http/Controllers/Api/WhatsAppWebhookController.php:56-57 | corrected: every body the routing sends to the menu finds its entry |
| TwilioWebhookProperties.SpacedCodeRejectedAsWritten | pdf-bot/app/Http/Controllers/Api/WhatsAppWebhookController.php:56-288 | as written, `" 1"` is routed to the menu but its untrimmed lookup misses and the choice is called invalid; the corrected lookup selects compression |
| TwilioWebhookProperties.TwoWordCommand | pdf-bot/app/Support/CommandParser.php:50-128 | a keyword and one accepted lower-case setting parse to that operation with that setting |
| TwilioWebhookProperties.CanonicalAccepted | pdf-bot/app/Support/CommandParser.php:82-125 | a canonical value is accepted and kept as it is |
| TwilioWebhookProperties.MenuSettingsCanonical | pdf-bot/app/Http/Controllers/Api/WhatsAppWebhookController.php:261-282 | every setting in the map is a canonical value of its operation |
| TwilioWebhookProperties.MenuSettingsAscii | pdf-bot/app/Http/Controllers/Api/WhatsAppWebhookController.php:261-282 | every setting in the map is a lower-case ASCII word |
| TwilioWebhookProperties.MenuSettingsAccepted | pdf-bot/app/Http/Controllers/Api/WhatsAppWebhookController.php:261-282 | every setting in the map is one lower-case word its operation accepts unchanged |
| TwilioWebhookProperties.MenuCommandsParse | pdf-bot/app/Http/Controllers/Api/WhatsAppWebhookController.php:261-282 | every command in the map parses to its own operation and setting |
| TwilioWebhookProperties.NoSessionCreatesNothing | pdf-bot/app/Http/Controllers/Api/WhatsAppWebhookController.php:253-258 | without a live session the only effect is the session-expired reply |
| TwilioWebhookProperties.SubmenuCreatesNothing | pdf-bot/app/Http/Controllers/Api/WhatsAppWebhookController.php:286-294 | a submenu code only sends that submenu |
| TwilioWebhookProperties.SubmenuCodes | pdf-bot/app/Http/Controllers/Api/WhatsAppWebhookController.php:261-282 | the submenu codes are exactly `2`, `4` and `5` |
| TwilioWebhookProperties.DispatchedEffect | pdf-bot/app/Http/Controllers/Api/WhatsAppWebhookController.php:359-390 | a parsed command creates one document and one pending job on it, queues one job, confirms and forgets the session |
| TwilioWebhookProperties.CommandSelectionDispatches | pdf-bot/app/Http/Controllers/Api/WhatsAppWebhookController.php:250-298 | with a live session, a command code creates a pending document holding the session's media URL and one job of the code's operation, and queues it |
| TwilioWebhookProperties.SelectionOfCommand | pdf-bot/app/Http/Controllers/Api/WhatsAppWebhookController.php:297 | with a live session, a command code runs that command on the session's media URL |
| TwilioWebhookProperties.EagerSubmenusAsWritten | pdf-bot/app/Http/Controllers/Api/WhatsAppWebhookController.php:261-282 | as written, building the map sends all three submenus: choosing `1` sends them, then the confirmation |
| TwilioWebhookProperties.ReplyAppendsNothing | pdf-bot/app/Http/Controllers/Api/WhatsAppWebhookController.php:124-141 | a reply sends one text and creates no row |
| TwilioWebhookProperties.SelectionSendsOneReply | pdf-bot/app/Http/Controllers/Api/WhatsAppWebhookController.php:250-298 | corrected: a selection gets exactly one message back, and only the sender's documents are added |
| TwilioWebhookProperties.StepRepliesOnce | pdf-bot/app/Http/Controllers/Api/WhatsAppWebhookController.php:26-78 | corrected: every message gets exactly one text back, to its sender, and every new document belongs to the sender |
| TwilioWebhookProperties.NewUserWelcomed | pdf-bot/app/Http/Controllers/Api/WhatsAppWebhookController.php:46-47 | a user without a document gets only the welcome text, whatever they send |
| TwilioWebhookProperties.NewUserNeverServed | pdf-bot/app/Http/Controllers/Api/WhatsAppWebhookController.php:46-47 | a user without a document still has none after any sequence of requests, and every message sent to them is the welcome text |
| TwilioWebhookProperties.NewUserStep | pdf-bot/app/Http/Controllers/Api/WhatsAppWebhookController.php:46-47 | after one request, a user without a document still has none, and the one new message, if it is theirs, is the welcome text |
| TwilioWebhookProperties.DispatchedKeepsConsistent | pdf-bot/app/Http/Controllers/Api/WhatsAppWebhookController.php:359-383 | a dispatched command keeps the rows consistent: the new job names the new document, and the queued job names both |
| TwilioWebhookProperties.ProcessKeepsConsistent | pdf-bot/app/Http/Controllers/Api/WhatsAppWebhookController.php:350-416 | running a command keeps the rows consistent |
| TwilioWebhookProperties.StepKeepsConsistent | pdf-bot/app/Http/Controllers/Api/WhatsAppWebhookController.php:26-78 | every request keeps the rows consistent |
| TwilioWebhookProperties.SelectionKeepsConsistent | pdf-bot/app/Http/Controllers/Api/WhatsAppWebhookController.php:250-298 | every selection keeps the rows consistent |
| TwilioWebhookProperties.RecentJobsNewestFirst | pdf-bot/app/Http/Controllers/Api/WhatsAppWebhookController.php:170-176 | at most five of the user's jobs, newest first; fewer only when the user has no others |
| TwilioWebhookProperties.OwnedJobsSorted | pdf-bot/app/Http/Controllers/Api/WhatsAppWebhookController.php:170-176 | keeping only the user's jobs preserves the increasing order of keys |
| TwilioWebhookProperties.StatusMessageListsEach | pdf-bot/app/Http/Controllers/Api/WhatsAppWebhookController.php:182-197 | the status reply starts with its header and holds the line of every listed job |
| TwilioWebhookProperties.KnownStatusLabelled | pdf-bot/app/Http/Controllers/Api/WhatsAppWebhookController.php:185-191 | every job status has its own label, never the unknown one |
| TwilioWebhookProperties.OperationNamed | pdf-bot/app/Http/Controllers/Api/WhatsAppWebhookController.php:418-429 | every operation has its own name in the confirmation, never the generic one |
| TwilioWebhookProperties.TextCommandIgnoresCase | pdf-bot/app/Http/Controllers/Api/WhatsAppWebhookController.php:124-141 | the reply to a text command does not depend on letter case |
| TwilioWebhookProperties.UserIdOfPrefixed | pdf-bot/app/Http/Controllers/Api/WhatsAppWebhookController.php:42 | the user id of a `whatsapp:` sender is the address after the prefix |
| WhatsAppService.Service.GetProviderName | pdf-bot/app/Services/WhatsApp/WhatsAppService.php:60-63 | the name returned is one that `createProvider` maps back to the service's provider |
| WhatsAppService.Service.SendText | pdf-bot/app/Services/WhatsApp/WhatsAppService.php:36-39 | one text is appended to what was sent |
| WhatsAppService.Service.HandleTextMessage | pdf-bot/app/Services/WhatsApp/WhatsAppService.php:68-84 | the new state is that of the text step: a single digit 1 to 6 is a selection, and any other text gets the main menu |
| WhatsAppService.Service.HandleMediaMessage | pdf-bot/app/Services/WhatsApp/WhatsAppService.php:89-105 | the new state is that of the media step: a PDF is uploaded, and anything else is refused |
| WhatsAppService.Service.HandlePdfUpload | pdf-bot/app/Services/WhatsApp/WhatsAppService.php:110-128 | corrected: the new state is the upload step's: one document stored, remembered for an hour, and the menu sent |
| WhatsAppService.Service.SendPdfMenu | pdf-bot/app/Services/WhatsApp/WhatsAppService.php:152-167 | the document key is remembered for an hour and then the menu is sent; nothing else changes |
| WhatsAppService.Service.HandleMenuSelection | pdf-bot/app/Services/WhatsApp/WhatsAppService.php:172-203 | the new state is that of the selection step: session expired, document not found, invalid choice, or the selection processed |
| WhatsAppService.Service.ProcessSelectionOn | pdf-bot/app/Services/WhatsApp/WhatsAppService.php:208-250 | corrected: one pending job on the document, one confirmation and one dispatch of the operation's job class |
| WhatsAppServiceProperties.ProviderNameChooses | pdf-bot/app/Services/WhatsApp/WhatsAppService.php:22-31 | each provider is chosen by its own name, and an unset name chooses Twilio |
| WhatsAppServiceProperties.UnknownProviderRefused | pdf-bot/app/Services/WhatsApp/WhatsAppService.php:29 | any other name is refused with `Unsupported messaging provider: {name}` |
| WhatsAppServiceProperties.TrimmedDigitPattern | pdf-bot/app/Services/WhatsApp/WhatsAppService.php:77 | a trimmed text passes the pattern exactly when it is one digit from 1 to 6 |
| WhatsAppServiceProperties.ActionMapBijective | pdf-bot/app/Services/WhatsApp/WhatsAppService.php:187-194 | the map covers exactly 1 to 6, and numbers and operations correspond one to one |
| WhatsAppServiceProperties.RoutedTextSelects | pdf-bot/app/Services/WhatsApp/WhatsAppService.php:77-199 | every text routed as a selection names an operation, so the invalid-choice reply never follows a text |
| WhatsAppServiceProperties.DigitTextSelects | pdf-bot/app/Services/WhatsApp/WhatsAppService.php:77-79 | a one-digit text from 1 to 6 selects the operation of that number |
| WhatsAppServiceProperties.SelectionText | pdf-bot/app/Services/WhatsApp/WhatsAppService.php:77-79 | a text routed as a selection is handled as the selection of its number |
| WhatsAppServiceProperties.OtherTextGetsMainMenu | pdf-bot/app/Services/WhatsApp/WhatsAppService.php:81-83 | any other text only gets the main menu |
| WhatsAppServiceProperties.NonPdfRefused | pdf-bot/app/Services/WhatsApp/WhatsAppService.php:100-104 | a file that is not exactly `application/pdf` only gets the unsupported-format reply |
| WhatsAppServiceProperties.PdfUploadStores | pdf-bot/app/Services/WhatsApp/WhatsAppService.php:110-128 | a PDF stores one `received` document for the sender under the next key, remembers it for an hour and sends the menu |
| WhatsAppServiceProperties.UploadThenSelect | pdf-bot/app/Services/WhatsApp/WhatsAppService.php:110-250 | a PDF followed within the hour by an operation's number creates one pending job of that operation on the uploaded document and dispatches it |
| WhatsAppServiceProperties.SelectionAfterTheHour | pdf-bot/app/Services/WhatsApp/WhatsAppService.php:172-178 | after the hour a selection is told the session expired |
| WhatsAppServiceProperties.SelectionsRepeat | pdf-bot/app/Services/WhatsApp/WhatsAppService.php:172-250 | the remembered document is not forgotten, so each further selection within the hour adds another job on the same document |
| WhatsAppServiceProperties.UploadRefusedAsWritten | pdf-bot/app/Services/WhatsApp/WhatsAppService.php:113-120 | as written, every PDF upload is refused by the database and the state is unchanged; the corrected upload stores the document |
| WhatsAppServiceProperties.SelectionRaisesAsWritten | pdf-bot/app/Services/WhatsApp/WhatsAppService.php:208-240 | as written, a valid selection creates the job and confirms, then raises while building the job, so nothing is queued |
| WhatsAppServiceProperties.AsWrittenAgreesElsewhere | pdf-bot/app/Services/WhatsApp/WhatsAppService.php:172-200 | where a selection does not reach the job, as written and corrected agree and nothing is raised |
| WhatsAppServiceProperties.RememberedDocumentFound | pdf-bot/app/Services/WhatsApp/WhatsAppService.php:180-185 | in a consistent state the remembered document is always found |
| WhatsAppServiceProperties.UploadKeepsConsistent | pdf-bot/app/Services/WhatsApp/WhatsAppService.php:110-128 | an upload keeps the state consistent |
| WhatsAppServiceProperties.SelectionKeepsConsistent | pdf-bot/app/Services/WhatsApp/WhatsAppService.php:172-250 | a selection keeps the state consistent |
| WhatsAppServiceProperties.MessagesKeepConsistent | pdf-bot/app/Services/WhatsApp/WhatsAppService.php:68-105 | every text and media message keeps the state consistent |
| WhatsAppService.UploadAsWritten | pdf-bot/app/Services/WhatsApp/WhatsAppService.php:113-120 | as written the upload raises and leaves the state as it was |
| WhatsAppService.Upload | pdf-bot/app/Services/WhatsApp/WhatsAppService.php:110-167 | corrected: one document appended under the next id for the sender, status received, named by the file name or document.pdf, media URL kept; its id remembered until an hour later; the PDF menu sent; jobs and queue unchanged |
| WhatsAppService.ProcessSelectionAsWritten | pdf-bot/app/Services/WhatsApp/WhatsAppService.php:208-240 | as written a pending task job is created and confirmed, then constructing the job raises and nothing is dispatched |
| WhatsAppService.ProcessSelection | pdf-bot/app/Services/WhatsApp/WhatsAppService.php:208-240 | corrected: one pending task job of that type on the document, the confirmation, and one dispatch of the type's job class carrying the new job, the document and the sender |
| WhatsAppServiceProperties.ProcessSelectionKeepsConsistent | pdf-bot/app/Services/WhatsApp/WhatsAppService.php:208-240 | corrected: creating and dispatching a job on an existing document keeps ids, document references and queued job references consistent |
| MetaWebhook.RunAppend | pdf-bot/app/Http/Controllers/Api/MetaWebhookController.php:62-70 | running two lists of calls is running the first, then the second unless the first raised |
| MetaWebhook.Controller.Handle | pdf-bot/app/Http/Controllers/Api/MetaWebhookController.php:48-84 | corrected: the answer and the new state are those of the handling function: 401 for a bad signature, 500 once a call raises (earlier work kept), 200 otherwise |
| MetaWebhook.Controller.ProcessEntry | pdf-bot/app/Http/Controllers/Api/MetaWebhookController.php:63-69 | corrected: the state afterwards is that of running the calls of every change of the entry, stopping at the first raise |
| MetaWebhook.Controller.ProcessChange | pdf-bot/app/Http/Controllers/Api/MetaWebhookController.php:65-67 | corrected: the state afterwards is that of running the change's calls: none for another field, a raise for a missing field or value |
| MetaWebhook.Controller.ProcessMessage | pdf-bot/app/Http/Controllers/Api/MetaWebhookController.php:89-117 | corrected: the state afterwards is that of running the calls of every message in turn, stopping at the first raise |
| MetaWebhook.Controller.ProcessOne | pdf-bot/app/Http/Controllers/Api/MetaWebhookController.php:96-115 | corrected: the state afterwards is that of the message's calls: skipped without sender or id, otherwise text before document before image |
| MetaWebhook.Controller.HandleMedia | pdf-bot/app/Http/Controllers/Api/MetaWebhookController.php:136-196 | corrected: the state afterwards is that of the media call: nothing without a media id or a URL, otherwise the media handed to the service |
| MetaWebhook.RaiseStops | pdf-bot/app/Http/Controllers/Api/MetaWebhookController.php:48-84 | once a call raised, the calls of the remaining elements change nothing |
| MetaWebhookProperties.VerifyIff | pdf-bot/app/Http/Controllers/Api/MetaWebhookController.php:23-43 | the challenge is echoed with 200 exactly when the mode is `subscribe` and the tokens are identical; anything else gets 403 |
| MetaWebhookProperties.UnconfiguredTokenPasses | pdf-bot/app/Http/Controllers/Api/MetaWebhookController.php:26-31 | with no token configured, a subscribe request with no token passes |
| MetaWebhookProperties.SignatureValidIff | pdf-bot/app/Http/Controllers/Api/MetaWebhookController.php:198-212 | a signature is accepted exactly when the header equals `sha256=` and the HMAC of the body |
| MetaWebhookProperties.BadSignatureChangesNothing | pdf-bot/app/Http/Controllers/Api/MetaWebhookController.php:52-55 | a bad signature gets 401 and changes nothing |
| MetaWebhookProperties.OtherFieldsIgnored | pdf-bot/app/Http/Controllers/Api/MetaWebhookController.php:65 | a change of any field other than `messages` makes no call |
| MetaWebhookProperties.InvalidMessageSkipped | pdf-bot/app/Http/Controllers/Api/MetaWebhookController.php:100-103 | a message without a PHP-true sender or id makes no call |
| MetaWebhookProperties.TextFirst | pdf-bot/app/Http/Controllers/Api/MetaWebhookController.php:109-110 | a text wins over a document or an image and goes out under `whatsapp:+{from}` |
| MetaWebhookProperties.DocumentDefaults | pdf-bot/app/Http/Controllers/Api/MetaWebhookController.php:136-165 | a document with an id, in a message without text, is handed over with `document` as the default name and `''` as the default MIME type |
| MetaWebhookProperties.ImageNamedImage | pdf-bot/app/Http/Controllers/Api/MetaWebhookController.php:168-196 | an image, in a message with neither text nor document, is always named `image` |
| MetaWebhookProperties.MediaWithoutIdIgnored | pdf-bot/app/Http/Controllers/Api/MetaWebhookController.php:142-145 | a media message without a PHP-true id makes no call |
| MetaWebhookProperties.PayloadFromWhatsApp | pdf-bot/app/Http/Controllers/Api/MetaWebhookController.php:105-114 | whatever the payload, every sender handed to the service has the `whatsapp:+` form |
| MetaWebhookProperties.RaiseKeepsEarlierWork | pdf-bot/app/Http/Controllers/Api/MetaWebhookController.php:75-83 | work done before an exception stays done, and nothing after it happens |
| MetaWebhookProperties.MissingFieldFails | pdf-bot/app/Http/Controllers/Api/MetaWebhookController.php:65 | a signed payload whose first change has no `field` gets 500 and changes nothing |
| MetaWebhookProperties.RunKeepsConsistent | pdf-bot/app/Http/Controllers/Api/MetaWebhookController.php:61-70 | any run of service calls keeps the stores consistent |
| MetaWebhookProperties.PerformKeepsConsistent | pdf-bot/app/Http/Controllers/Api/MetaWebhookController.php:109-115 | each service call keeps the stores consistent |
| MetaWebhookProperties.HandleKeepsConsistent | pdf-bot/app/Http/Controllers/Api/MetaWebhookController.php:48-84 | whatever the answer, the stores stay consistent |
| MetaWebhookProperties.OneCallAccepted | pdf-bot/app/Http/Controllers/Api/MetaWebhookController.php:48-74 | a signed payload of one message that makes one call gets 200 once that call is made |
| MetaWebhookProperties.PdfDocumentStored | pdf-bot/app/Http/Controllers/Api/MetaWebhookController.php:136-165 | corrected: a signed PDF document with a media URL is stored for the sender in `whatsapp:+` form, and the answer is 200 |
| MetaWebhookProperties.TextHandedOver | pdf-bot/app/Http/Controllers/Api/MetaWebhookController.php:122-134 | a signed text is handed to the service as a text from `whatsapp:+{from}`, and the answer is 200 |
| MetaWebhook.Verify | pdf-bot/app/Http/Controllers/Api/MetaWebhookController.php:23-43 | the answer is the challenge with 200 or Forbidden; a 200 implies the token is identical to the configured one |
| MetaWebhook.HandleResult | pdf-bot/app/Http/Controllers/Api/MetaWebhookController.php:48-84 | 401 exactly for a bad signature, and then nothing changes; every answer is 401, 500 or 200 |
| FileUtils.Upload.Seek | pdf-bot/services/pdf_service/utils/file_utils.py:26-28 | a closed file raises and keeps its position; an open one moves to the position asked |
| FileUtils.Upload.Read | pdf-bot/services/pdf_service/utils/file_utils.py:27 | a closed file raises and returns nothing; an open one returns at most `n` bytes from its position and moves past them |
| FileUtils.Window | pdf-bot/services/pdf_service/utils/file_utils.py:27 | a read returns at most the number of bytes asked |
| FileUtils.ValidatePdf | pdf-bot/services/pdf_service/utils/file_utils.py:12-34 | a file is accepted exactly when its name ends in `.pdf` (any case), its content type is missing or starts with `application/pdf`, and its first four bytes are `%PDF`; a raised error counts as a refusal, and a file that reached the signature test is rewound |
| FileUtils.PdfNameIgnoresCase | pdf-bot/services/pdf_service/utils/file_utils.py:18 | any name whose last four characters are `.pdf` in any case passes the name test |
| FileUtils.SignatureDecides | pdf-bot/services/pdf_service/utils/file_utils.py:26-30 | once name and type pass, a body shorter than four bytes fails and a longer one passes exactly when it starts with `%PDF` |
| FileUtils.WithTempCopy | pdf-bot/services/pdf_service/utils/file_utils.py:36-61 | the work runs on a copy of the upload from its position on; the upload is rewound, and the directory holds no new file afterwards |
| FileUtils.EnsuredSuffix | pdf-bot/services/pdf_service/utils/file_utils.py:85-93 | for an extension without a dot, the result has that suffix, the same stem and the same directory |
| FileUtils.EnsureIdempotent | pdf-bot/services/pdf_service/utils/file_utils.py:85-93 | for an extension without a dot, ensuring it twice gives the same path as once |
| FileUtils.DottedExtensionGrows | pdf-bot/services/pdf_service/utils/file_utils.py:90-92 | a dotted extension never matches the last suffix, so `a.tar.gz` with `tar.gz` becomes `a.tar.tar.gz` and then `a.tar.tar.tar.gz` |
| FileUtils.EmptyExtensionRefused | pdf-bot/services/pdf_service/utils/file_utils.py:91 | an empty extension raises, because `with_suffix('.')` is refused |
| PdfText.CollapsedAvoids | pdf-bot/services/pdf_service/services/summarize_service.py:63 | after `" ".join(text.split())` no whitespace character other than the single space remains |
| PdfText.FormFeedReplacementIsIdle | pdf-bot/services/pdf_service/services/summarize_service.py:63-66 | replacing form feeds after collapsing whitespace never changes the text |
| PdfText.NormalizePlain | pdf-bot/services/pdf_service/services/summarize_service.py:63-67 | a text without bullets normalises to its collapsed form, and normalising twice is normalising once |
| PdfText.NormalizeSingleLine | pdf-bot/services/pdf_service/services/summarize_service.py:63-67 | normalised text holds no line break |
| PdfText.StrippedNonEmpty | pdf-bot/services/pdf_service/services/summarize_service.py:94 | keeping the non-blank stripped pieces never gives more pieces than there were |
| PdfText.StrippedNonEmptyShape | pdf-bot/services/pdf_service/services/summarize_service.py:94 | every kept piece is non-empty, stripped, and lacks any character no piece had |
| SummarizeService.SentenceCount | pdf-bot/services/pdf_service/services/summarize_service.py:15-20 | a summary keeps 3, 5 or 10 sentences |
| SummarizeService.SentenceCountOrder | pdf-bot/services/pdf_service/services/summarize_service.py:16-20 | short keeps fewer sentences than medium, and medium fewer than long; any other length behaves as medium |
| SummarizeService.CleanTextBounded | pdf-bot/services/pdf_service/services/summarize_service.py:59-77 | cleaned text is at most 10003 characters, and text cut to the limit ends with `...` |
| SummarizeService.CleanPlainText | pdf-bot/services/pdf_service/services/summarize_service.py:59-77 | a text without bullets that fits the limit cleans to its collapsed form, and cleaning is then idempotent |
| SummarizeService.SentencesAreSentences | pdf-bot/services/pdf_service/services/summarize_service.py:94 | every sentence is non-empty, stripped and holds no dot |
| SummarizeService.KeptSentences | pdf-bot/services/pdf_service/services/summarize_service.py:94-97 | the kept sentences are the first `n` of the text's, or all of them when there are fewer |
| SummarizeService.SummaryRoundTrip | pdf-bot/services/pdf_service/services/summarize_service.py:98-101 | the summary ends with a dot, and removing it and splitting on `". "` gives back the kept sentences; with none the summary is a lone dot |
| SummarizeService.Summarize | pdf-bot/services/pdf_service/services/summarize_service.py:22-57 | the placeholder is written exactly when extraction fails, the text is blank or the header cannot be built |
| SummarizeService.SummaryTitled | pdf-bot/services/pdf_service/services/summarize_service.py:125-136 | a real result starts with its title |
| SummarizeService.SummarizeCarriesSummary | pdf-bot/services/pdf_service/services/summarize_service.py:38-53 | for a text that is not blank, the result is a real summary and holds the summary of the cleaned text |
| SummarizeService.SummaryFileCarriesSummary | pdf-bot/services/pdf_service/services/summarize_service.py:104-134 | the result file holds the summary of the cleaned text |
| TranslateService.LanguageNamesSingleLine | pdf-bot/services/pdf_service/services/translate_service.py:19-33 | no supported language's name spans two lines |
| TranslateService.GroupText | pdf-bot/services/pdf_service/services/translate_service.py:94-104 | a group's text is at least two characters per sentence long |
| TranslateService.GroupInvariant | pdf-bot/services/pdf_service/services/translate_service.py:94-104 | the loop's invariant: the closed groups followed by the open one are the sentences so far, every closed group is well sized, and an open group of two or more sentences stays under the limit |
| TranslateService.GroupsPartition | pdf-bot/services/pdf_service/services/translate_service.py:94-106 | the groups, put together, are the sentences in order; none is empty, and none with two or more sentences reaches 4002 characters |
| TranslateService.GroupSnoc | pdf-bot/services/pdf_service/services/translate_service.py:97-102 | one more sentence either joins the open group, when the group's text plus the sentence stays under 4000 characters, or closes the open group and opens a new one |
| TranslateService.OversizedAlone | pdf-bot/services/pdf_service/services/translate_service.py:97-102 | a sentence of 4000 characters or more always forms a group of its own |
| TranslateService.ChunkSentences | pdf-bot/services/pdf_service/services/translate_service.py:94-106 | the loop emits the stripped text of each group of the partition |
| TranslateService.CleanText | pdf-bot/services/pdf_service/services/translate_service.py:80-110 | the chunks returned are those of the normalised text's sentences |
| TranslateService.ChunksNonEmpty | pdf-bot/services/pdf_service/services/translate_service.py:101-106 | no chunk is empty |
| TranslateService.ChunksSingleLine | pdf-bot/services/pdf_service/services/translate_service.py:80-110 | no chunk spans two lines |
| TranslateService.WrapChunks | pdf-bot/services/pdf_service/services/translate_service.py:129-145 | the translated text is the chunks, each wrapped with the language name and its number from 1, joined by blank lines |
| TranslateService.PiecesAt | pdf-bot/services/pdf_service/services/translate_service.py:129-145 | piece `3i` is the opening marker, `3i + 1` is chunk `i`, and `3i + 2` is the closing marker numbered `k + i` |
| TranslateService.MarkersSingleLine | pdf-bot/services/pdf_service/services/translate_service.py:134-141 | a marker line holds no line break when the language name holds none |
| TranslateService.WrapChunksRoundTrip | pdf-bot/services/pdf_service/services/translate_service.py:129-145 | for single-line chunks and language name, splitting the translated text on blank lines gives back, for each chunk in order, its opening marker, the chunk itself and its closing marker with number `i + 1` |
| TranslateService.TranslateResult | pdf-bot/services/pdf_service/services/translate_service.py:35-78 | the placeholder is written exactly when the language is unsupported, the text is missing or blank, or a text output cannot get its header; it is a PDF exactly when PDF output was asked; a translated PDF is written exactly when PDF output was asked and the layout succeeds; a failed layout falls back to text |
| TranslateService.Translate | pdf-bot/services/pdf_service/services/translate_service.py:35-78 | the method's result is the translation outcome defined above |
| TranslateService.TranslationKeepsChunks | pdf-bot/services/pdf_service/services/translate_service.py:106-145 | for a supported language, the translated text splits back into the text's chunks, each followed by its numbered closing marker |
| SecureService.ValidationMatrix | pdf-bot/services/pdf_service/services/secure_service.py:45-54 | a request passes validation exactly when its action is password, watermark or both and it carries a non-empty password when the action encrypts and a non-empty watermark text when it watermarks; any other action is refused |
| SecureService.PositionFallback | pdf-bot/services/pdf_service/services/secure_service.py:111 | an unknown watermark position is placed like the centre; a known one keeps its own placement, whose percentages stay within 100 |
| SecureService.WatermarkedKeys | pdf-bot/services/pdf_service/services/secure_service.py:115-117 | recording a watermark sets the description to "Watermarked: " and the text, and the creator tool to the service's name; every other metadata entry is kept and no other key appears |
| SecureService.ApplyWatermark | pdf-bot/services/pdf_service/services/secure_service.py:99-124 | the placement is the looked-up position's; the metadata gains the watermark record unless it cannot be edited, in which case the document is returned untouched |
| SecureService.SecureResult | pdf-bot/services/pdf_service/services/secure_service.py:27-97 | a secured file is produced exactly when validation passes, the file opens and saves; otherwise the input bytes are copied; it is encrypted exactly when the action asks for a password, with that password as both owner and user password, revision 4 and the restricted permissions; its metadata carries the watermark exactly when one was asked and the metadata is editable |
| SecureService.Secure | pdf-bot/services/pdf_service/services/secure_service.py:27-97 | the method's outcome is the one defined above for the opened document's metadata, and a copy of the input when the document cannot be opened |
| SecureService.BothIsPasswordAndWatermark | pdf-bot/services/pdf_service/services/secure_service.py:60-89 | the action both encrypts exactly as password does and records the watermark exactly as watermark does; password alone leaves the metadata as it was and watermark alone does not encrypt |
| CompressService.UnknownModeIsBalanced | pdf-bot/services/pdf_service/services/compress_service.py:53 | any mode other than whatsapp, print and balanced gets the balanced settings |
| CompressService.Clamp | pdf-bot/services/pdf_service/services/compress_service.py:58 | the JPEG quality lies between 10 and 100, is unchanged inside that range and is pulled to the nearer bound outside it |
| CompressService.JpegQualityTable | pdf-bot/services/pdf_service/services/compress_service.py:53-58 | the JPEG quality for each known mode and quality level (42, 60, 78; 59, 85, 100; 52, 75, 97), print at high being cut to 100; an unknown quality level keeps the mode's own quality |
| CompressService.CompressResult | pdf-bot/services/pdf_service/services/compress_service.py:37-96 | the input bytes are copied exactly when the file cannot be opened or saved; otherwise the streams are decoded exactly when the mode's settings compress images, and the metadata is cleared exactly when the mode removes metadata and the metadata is editable |
| CompressService.RemoveMetadata | pdf-bot/services/pdf_service/services/compress_service.py:98-104 | the metadata is cleared, or left as it was when it cannot be edited |
| CompressService.Compress | pdf-bot/services/pdf_service/services/compress_service.py:37-96 | the method's outcome is the one defined above for the opened document's metadata, and a copy of the input when the document cannot be opened |
| CompressService.QualityDoesNotMatter | pdf-bot/services/pdf_service/services/compress_service.py:56-69 | the quality level never changes the file produced, since the image step it feeds changes nothing |
| CompressService.PrintKeepsMetadata | pdf-bot/services/pdf_service/services/compress_service.py:23-34 | print keeps the metadata and saves without decoding streams; every other mode clears editable metadata |
| OcrService.EffectiveLanguage | pdf-bot/services/pdf_service/services/ocr_service.py:47-50 | the engine runs in a supported language: the requested one when it is supported, English otherwise |
| OcrService.PageEntries | pdf-bot/services/pdf_service/services/ocr_service.py:66-85 | one entry per page read, in page order |
| OcrService.PageTexts | pdf-bot/services/pdf_service/services/ocr_service.py:66-76 | one engine result per rendered page, in page order |
| OcrService.AssemblePages | pdf-bot/services/pdf_service/services/ocr_service.py:63-85 | the page loop reads every rendered page in order in the effective language and contributes exactly one entry per page, whether the read gave text, blank text or failed |
| OcrService.PageBodyNonEmpty | pdf-bot/services/pdf_service/services/ocr_service.py:78-85 | a page's body is never empty: a blank read gets the no-text marker and a failed read the failure marker |
| OcrService.PageHeaderReadBack | pdf-bot/services/pdf_service/services/ocr_service.py:79 | the page number written in a page header reads back as that number |
| OcrService.PageHeadersDistinct | pdf-bot/services/pdf_service/services/ocr_service.py:79-85 | different pages never share a header |
| OcrService.PageEntryShape | pdf-bot/services/pdf_service/services/ocr_service.py:78-85 | entry i is the header numbered i + 1 followed by that page's body |
| OcrService.OcrResult | pdf-bot/services/pdf_service/services/ocr_service.py:32-98 | the placeholder is written exactly when rendering fails, a docx output cannot be built or a text output cannot get its header; the placeholder is a docx exactly when docx was asked; a docx result only for docx requests and a text result only for other formats |
| OcrService.ExtractText | pdf-bot/services/pdf_service/services/ocr_service.py:32-98 | the method's outcome is the one defined above |
| OcrService.OcrTextCarriesPages | pdf-bot/services/pdf_service/services/ocr_service.py:88-111 | a text result starts with the title and carries the header of every page |
| ConvertService.ParseOptions | pdf-bot/services/pdf_service/services/convert_service.py:37-43 | no options apply when the text is missing, empty or not valid JSON; the decoded options apply when it decodes to an object; a value that is not an object gives no options at all (the converters' `.get` will raise) |
| ConvertService.MaxWidth | pdf-bot/services/pdf_service/services/convert_service.py:153 | the combined width is at least every page's width and equals some page's width |
| ConvertService.Stacked | pdf-bot/services/pdf_service/services/convert_service.py:157-161 | one paste position per page |
| ConvertService.Canvas.PasteAt | pdf-bot/services/pdf_service/services/convert_service.py:160 | pasting records the page at its height and keeps the earlier pastes |
| ConvertService.CombinePages | pdf-bot/services/pdf_service/services/convert_service.py:151-161 | the combining loop builds a canvas as wide as the widest page and as tall as all pages together, pastes each page in order below the previous one, and ends with the offset at the total height |
| ConvertService.TotalHeightMonotone | pdf-bot/services/pdf_service/services/convert_service.py:154-161 | the heights of the first pages never exceed the total height |
| ConvertService.StackedTiles | pdf-bot/services/pdf_service/services/convert_service.py:151-161 | the pasted pages tile the canvas: each lies inside it, the first at the top, and each starts exactly where the one before it ends |
| ConvertService.ImageEncoding | pdf-bot/services/pdf_service/services/convert_service.py:139-142 | an image is encoded as JPEG exactly when the format is jpg or jpeg, and as PNG otherwise |
| ConvertService.ConvertToImage | pdf-bot/services/pdf_service/services/convert_service.py:125-174 | the conversion fails exactly when no page is rendered; otherwise the file has the requested suffix and encoding and the requested quality (95 by default), and holds the only or first page, or all pages stacked when several pages are combined |
| ConvertService.FirstPageOnly | pdf-bot/services/pdf_service/services/convert_service.py:166-170 | several pages without combining keep only the first page |
| ConvertService.ConvertImage | pdf-bot/services/pdf_service/services/convert_service.py:125-174 | the method's outcome is the image conversion defined above, with the stacking done on a canvas |
| ConvertService.PlaceholderFor | pdf-bot/services/pdf_service/services/convert_service.py:176-213 | the placeholder is a docx exactly for docx, a workbook exactly for xlsx, a blank image exactly for the four image formats, encoded as PNG exactly for img and png and carrying the requested suffix, and a text otherwise |
| ConvertService.ConvertResult | pdf-bot/services/pdf_service/services/convert_service.py:22-58 | every failure and every unsupported format gives the placeholder for that format; options that are not an object give the placeholder except for XLSX; an image is produced exactly for an image format with usable options whose rendering gives at least one page |
| ConvertService.NonObjectOptions | pdf-bot/services/pdf_service/services/convert_service.py:37-58 | options decoding to a non-object give the placeholder for DOCX and image formats, and for XLSX the same result as no options |
| ConvertService.Convert | pdf-bot/services/pdf_service/services/convert_service.py:22-58 | the method's outcome is the one defined above |
| PdfServiceApi.ParseRequest | pdf-bot/services/pdf_service/main.py:71-326 | an unknown route is not found; a required form field (format, target_language, action) that is missing or sent empty is refused naming that field and no other; an optional field missing or sent empty takes its default |
| PdfServiceApi.FormDefaults | pdf-bot/services/pdf_service/main.py:71-285 | with only the required fields submitted, every other field takes its declared default: whatsapp and medium, no options, eng and txt, medium and en, auto and txt, no password or text and center |
| PdfServiceApi.SubmittedFieldWins | pdf-bot/services/pdf_service/main.py:72-75 | a field sent with a non-empty value is used as sent, whatever its default |
| PdfServiceApi.EmptyFieldIsMissing | pdf-bot/services/pdf_service/main.py:71-285 | a form value sent empty counts as missing: an empty `output_format` or `mode` takes its default (txt, whatsapp), an empty `format`, `target_language` or `action` is refused as missing |
| PdfServiceApi.ConvertFormatGate | pdf-bot/services/pdf_service/main.py:127-131 | convert reaches its service exactly for a valid upload in one of the six formats |
| PdfServiceApi.SecureChecksAgree | pdf-bot/services/pdf_service/main.py:300-307 | for the three actions, the endpoint lets a valid upload through exactly when the secure service would accept it, and refuses with the service's own message otherwise |
| PdfServiceApi.TranslateExtension | pdf-bot/services/pdf_service/main.py:267 | a translation is named .txt or .pdf: the requested format when it is one of them, txt otherwise |
| PdfServiceApi.ConvertMediaTable | pdf-bot/services/pdf_service/main.py:141-153 | each of the six formats has its own media type, PNG exactly for img and png, JPEG exactly for jpg and jpeg, and none falls back to the generic binary type |
| PdfServiceApi.OcrMediaType | pdf-bot/services/pdf_service/main.py:187 | OCR output is served as plain text exactly for txt and as a DOCX document for every other format |
| PdfServiceApi.TranslateMediaType | pdf-bot/services/pdf_service/main.py:266-271 | a translation is served as plain text exactly for txt, and any format other than txt and pdf is named as a .txt file |
| PdfServiceApi.ConvertedName | pdf-bot/services/pdf_service/main.py:152 | a converted file's name has no directory part, carries the requested format as its suffix and the upload's stem after the converted_ prefix |
| PdfServiceApi.Respond | pdf-bot/services/pdf_service/main.py:85-108 | a request a check refuses gets 400 with the check's detail; a failure of the service or of the response gets 500 naming the operation; otherwise, and only then, the result file is served under its derived name and media type |
| PdfServiceApi.RefusalBecomes500 | pdf-bot/services/pdf_service/main.py:85-108 | as written, a refused upload comes back as a 500 whose detail wraps the 400, where the corrected handler answers 400 |
| PdfServiceApi.AsWrittenOnly500 | pdf-bot/services/pdf_service/main.py:85-108 | as written every error is a 500, and the handler as written and the corrected one differ only on requests a check refuses |
| PdfServiceApi.Serve | pdf-bot/services/pdf_service/main.py:85-104 | a handler validates the upload, runs the checks and the service on a temporary copy that is removed afterwards, leaves the directory and the upload's bytes as they were, and answers as defined above |
| PdfServiceApi.OcrLabelMatches | pdf-bot/services/pdf_service/main.py:181-192 | for txt and docx the served media type describes the file the OCR service wrote |
| PdfServiceApi.OcrOtherFormatIsText | pdf-bot/services/pdf_service/main.py:181-192 | for any other format the OCR service writes plain text but the endpoint serves it as a DOCX document |
| PdfServiceApi.TranslatePdfFallbackServedAsPdf | pdf-bot/services/pdf_service/main.py:259-272 | a pdf translation whose layout fails falls back to text output |
| PdfServiceApi.TranslatePdfServedAsPdf | pdf-bot/services/pdf_service/main.py:266-271 | a pdf translation, including that text fallback, is served as application/pdf under a .pdf name |
| PdfServiceApi.RespondAsWritten | pdf-bot/services/pdf_service/main.py:85-108 | as written every error is a 500; a file is served exactly when the checks pass and the service succeeds; a refused request's 500 detail ends with the 400's text |
| PdfMicroservice.Prefix | pdf-bot/services/pdf_microservice/main.py:301 | the first n items, or all of them when there are fewer |
| PdfMicroservice.TempStemOfPdf | pdf-bot/services/pdf_microservice/main.py:237-252 | for a plain name ending in .pdf, the derived output names start from the temporary copy's stem: input_ followed by the name without .pdf |
| PdfMicroservice.ConvertedName | pdf-bot/services/pdf_microservice/main.py:176 | a converted name is the upload's name with its .pdf extension replaced by the target's: the part before the extension is kept and the name ends in the target's extension |
| PdfMicroservice.ReplaceHitsEveryPdf | pdf-bot/services/pdf_microservice/main.py:176 | as written, replacing every .pdf turns a.pdf.pdf into a.docx.docx, where replacing only the extension gives a.pdf.docx |
| PdfMicroservice.ConvertedNamesAgree | pdf-bot/services/pdf_microservice/main.py:176 | the name as written and the corrected name agree whenever the name's only .pdf is its extension |
| PdfMicroservice.OcrEntries | pdf-bot/services/pdf_microservice/main.py:247-249 | one entry per page |
| PdfMicroservice.ExtractOcrText | pdf-bot/services/pdf_microservice/main.py:243-249 | the OCR loop appends each page's entry, numbered from 1, in page order |
| PdfMicroservice.OcrTextHasEveryPage | pdf-bot/services/pdf_microservice/main.py:247-249 | every page's entry, with its number and text, appears in the OCR output, and so does the page's text |
| PdfMicroservice.JoinPages | pdf-bot/services/pdf_microservice/main.py:287-292 | the summarize and translate loops append the page texts in order without a separator |
| PdfMicroservice.ConcatLength | pdf-bot/services/pdf_microservice/main.py:289-292 | the joined text is at least as long as any page |
| PdfMicroservice.SummaryOf | pdf-bot/services/pdf_microservice/main.py:295-321 | the summary quotes the first words of the joined text up to the length's limit, counts every word, page and character of it, and carries its marker exactly when the length is short or words were left out |
| PdfMicroservice.SummaryQuotesFirstWords | pdf-bot/services/pdf_microservice/main.py:297-321 | the quote is exactly the limit's worth of words when the text has that many and all the words otherwise, and the quoted text split again gives those words back |
| PdfMicroservice.LongIsMedium | pdf-bot/services/pdf_microservice/main.py:297-321 | any length other than short and detailed, long included, is summarized as medium; the limits are 20, 500 and 200 words |
| PdfMicroservice.TargetName | pdf-bot/services/pdf_microservice/main.py:367-375 | a known language code is shown by its name and any other code as itself |
| PdfMicroservice.TranslationOf | pdf-bot/services/pdf_microservice/main.py:375-385 | the translation counts the text's characters, quotes its first 1000 and notes the rest exactly when the text is longer than 1000 |
| PdfMicroservice.TranslationAccounts | pdf-bot/services/pdf_microservice/main.py:377-385 | the quote is the start of the text, the quote's length plus the characters noted as left is the text's length, and a text within the limit is quoted whole |
| PdfMicroservice.Paragraphs | pdf-bot/services/pdf_microservice/main.py:170-173 | every paragraph added is non-empty and there are no more paragraphs than parts |
| PdfMicroservice.ParagraphsKeepParts | pdf-bot/services/pdf_microservice/main.py:170-173 | every part that is not blank once stripped becomes a paragraph |
| PdfMicroservice.CompressEndpoint | pdf-bot/services/pdf_microservice/main.py:67-119 | a name not ending in .pdf gets 400; a failure while copying, compressing or writing gets 500 with its text; the file is served exactly when neither happens |
| PdfMicroservice.ConvertEndpoint | pdf-bot/services/pdf_microservice/main.py:121-152 | corrected: the served name replaces only the trailing .pdf; a 400 comes back exactly when the name does not end in .pdf or the format is not docx, pptx or jpg; every other error is a 500 wrapped as a conversion error; a file is served exactly when the checks pass, the copy succeeds and the chosen converter succeeds, and for docx and pptx it is the document built from the pages |
| PdfMicroservice.ConvertServedName | pdf-bot/services/pdf_microservice/main.py:142-228 | corrected: a served conversion came from a .pdf name and a supported format, and carries the upload's name with the trailing .pdf replaced by .jpg for jpg and .docx otherwise, with the matching media type |
| PdfMicroservice.PptxIsDocx | pdf-bot/services/pdf_microservice/main.py:146-148 | pptx is answered exactly as docx is |
| PdfMicroservice.UpperCasePdfRefused | pdf-bot/services/pdf_microservice/main.py:72-73 | the name check is case-sensitive: REPORT.PDF is refused |
| PdfMicroservice.OcrEndpoint | pdf-bot/services/pdf_microservice/main.py:231-269 | an error comes back exactly when reading the pages fails, as 500 with its text; otherwise the text file of page entries is served under a name ending in _extracted.txt |
| PdfMicroservice.SummarizeEndpoint | pdf-bot/services/pdf_microservice/main.py:272-341 | an error comes back exactly when reading the pages fails, as 500 with its text; otherwise the summary of the joined pages is served under the name for that length |
| PdfMicroservice.TranslateEndpoint | pdf-bot/services/pdf_microservice/main.py:344-405 | an error comes back exactly when reading the pages fails, as 500 with its text; otherwise the simulated translation of the joined pages is served under the name for that target |
| PdfMicroservice.SecureEndpoint | pdf-bot/services/pdf_microservice/main.py:408-456 | an error comes back exactly when a step fails, as 500 with its text; otherwise the pages encrypted with the password are served under a name ending in _secured.pdf |
| PdfMicroservice.OnlyTwoCheckTheName | pdf-bot/services/pdf_microservice/main.py:67-456 | only compress and convert check the name: the other four accept a .txt upload |
| PdfMicroservice.ConvertedNameAsWritten | pdf-bot/services/pdf_microservice/main.py:176 | as written a name without `.pdf` is kept unchanged (every `.pdf` is replaced, see the finding) |

## Left out

- Logging everywhere (`Log::…`, `logger.…`): it has no effect on the state the model tracks.
- HTTP transport, the S3/MinIO SDK, the file system beyond the temporary directories, and the database engine: each is a small class or a parameter that gives the result the code reads (status, body, contents, success).
- The clock and its formatting (`now()->format('Y-m-d_H-i-s')`, Carbon's `diffForHumans`): timestamps and "time ago" texts are parameters. Durations are whole seconds.
- `md5`, `uniqid`, `str_shuffle` and `random_bytes`: a hash, an id or a shuffle is a parameter, constrained only by what the code relies on (8 hex digits, a permutation of the 62 alphanumerics).
- Laravel's queue, cache and Eloquent internals: dispatch appends to a queue, the cache is a map with expiry times, and a model's rows are a sequence of records.
- `MetaWebhook.ChangeActions`: a change whose `field` is present but JSON `null` is treated like one without `field`, which raises and ends in a 500. PHP compares `null === 'messages'` without a warning and skips that change. The payload model has a single `None` for both.
- The Twilio signature check: it accepts every request, so it has no effect to model.
- `TwilioProvider` is not part of this model: `WhatsAppService::createProvider` names it (WhatsAppService.php:28), but its class is not among the files read, so the model assumes it constructs and only records that the provider is named.
- Sending by the messaging providers (Meta and Twilio HTTP calls, `sendDocument`, `sendImage`): each send appends to an outbox and is given its delivered flag.
- `getMediaUrl` in the Meta webhook, and the HMAC-SHA256 of the signature check: both are oracle parameters. The check itself is modelled, as a comparison with the oracle's value.
- `formatBytes` is modelled only for the default 50 MiB limit (`"50 MB"`), the only value the error text shows.
- PHP's `preg_split('/\s+/')` is modelled only as far as `parse` reads it: the first token and the second.
- `PathInfoOf`: does not model PHP's handling of repeated or trailing slashes in `pathinfo`. No key the code builds contains them.
- `strtoupper`, `strtolower`, `ucfirst` and Python's `upper()` are ASCII case mappings here: multibyte letters are left unchanged, as PHP 8's byte-based functions leave them.
- The Python services' output files:
  - the DOCX layout (OCR `_create_docx_output`, `_convert_to_docx`);
  - the XLSX content (`_convert_to_xlsx`);
  - the reportlab PDF layout of translations;
  - the watermark overlay (`_create_watermark_overlay`, which nothing calls).
  
  A result records which kind of file is written and what the code decides about it, not the bytes.
- `_optimize_images`: its loop body is `pass`, so it changes nothing and has no step in the model.
- `CompressService.JpegQuality`: computed with exact tenths instead of IEEE doubles. For the nine known combinations the truncated values agree with Python's, and the value is never used.
- `PdfJobs.PdfJob.Wired`: assumes the default disk (`filesystems.default`) is `s3`, as the repository's operation-flow tests configure it. The job and the storage service write the default disk (BasePdfJob.php:142, StorageService.php:15), but `downloadFromStorage` reads the `s3` disk by name (FileDownloadService.php:213). Under any other default, the client never finds the job's input, and every enabled run falls back to the placeholder. The model has one disk and does not capture that case. `MicroserviceClient.PdfMicroserviceClient.ProcessS3File` itself keeps the two disks apart.
- `PdfJobs.Elapsed`: assumes Carbon 2, whose `diffInSeconds` returns the absolute whole number of seconds. Carbon 3 returns a signed value, negative here because `now()` is later than `started_at`, and the model does not represent that sign. The repository's dependency lock is not part of this model.
- `ConvertService.ConvertOptions`: the options are typed (`Option<int>` for `dpi`, `first_page`, `last_page` and `quality`, a `bool` for `combine_pages`). A JSON `null`, a string or a float in one of those keys is not representable, so the model does not capture what PyMuPDF or Pillow do with such a value.
- `Storage.StorageService.UploadFile`: the write is assumed to be stored. A refused `putFileAs` returns `false` as the path, and a throwing one propagates; neither is modelled, because nothing in the application calls `uploadFile`. Refused and throwing writes are modelled on the job's writes.
- Faults in the job run: the disk's answer to each of the job's three writes (input, service output, placeholder) and at most one throwing Eloquent update after the download are parameters of the run. A fault is persistent, so the `catch` that retries the placeholder meets the same answer. The `running` update before the `try`, and `markFailed`'s own updates and notice, are assumed not to throw. Each would escape `handle` and leave the row as the model's last state shows it.
- Document and task job rows stand for the models' attributes: Eloquent's `update` fills them before it saves, so an update that throws still leaves them filled, and `markFailed`'s save writes them. The model does not separate the attributes from the database row.
- Placeholder writers that raise: a failure while the placeholder itself is written propagates to the endpoint. The model treats the placeholder as always written.
- `repr`-based lengths and `os.path.getctime` in the Python headers: parameters (`reprLength`, `ctime`). A missing ctime stands for the raise that sends a service to its placeholder.
- `isinstance(text, str)` branches in the Python services: every text the model passes is a string.
- The compression ratio in the microservice's `compress`: it divides by the input size, so an empty upload raises there. The model's `failure` parameter covers that raise, but the headers carrying the sizes and the ratio are not modelled.
- The health and root endpoints of both Python services, and the `PdfMicroserviceClient` health and info calls beyond their success test: they report static data.
- FastAPI's own request handling: a missing file part, and the 422 body listing the missing fields. `ParseRequest` reports only which required field is missing.
- `PdfJobs.PdfJob.ProcessPdf`: the corrected path assumes `array_except` (BasePdfJob.php:184) resolves. That global helper left Laravel's core in version 6.0, and the repository shows no `laravel/helpers` package. Without it the call raises an `\Error` that neither `catch (\Exception)` catches, and the job fails instead of keeping the service's file.
- `str(HTTPException)`: modelled as `"status: detail"`, the current Starlette rendering.
- `file_utils.create_temp_dir`, `cleanup_temp_dir` and `get_file_size`, and `response_utils`: nothing in the modelled endpoints depends on more than "a file response for a path", which the model states directly.

## Findings

| source | as written | input that shows it | evidently intended | confidence | as-written member | corrected member |
|---|---|---|---|---|---|---|
| pdf-bot/app/Jobs/BasePdfJob.php:177-193 | after a successful service call, `processPdf` reads `$result['s3_output_path']`, a key the client's `makeRequest` result never has; the undefined-index error is caught and the placeholder is stored instead | any enabled run whose service call succeeds with a file, e.g. a compress job answered `200 application/pdf` | keep the stored output of the service (assuming the `array_except` helper on the same path resolves, see Left out) | not executed | PdfJobs.PdfJob.ProcessPdfAsWritten | PdfJobs.PdfJob.ProcessPdf |
| pdf-bot/app/Services/PdfMicroserviceClient.php:185-196 | `processS3File` uploads the service's output only when the result has a `file_path`, which `makeRequest` never sets, so `s3_output_path` is never added | any successful file response | store the returned content under `processed/{endpoint}/…` and report its key | not executed | MicroserviceClient.PdfMicroserviceClient.ProcessS3FileAsWritten | MicroserviceClient.PdfMicroserviceClient.ProcessS3File |
| pdf-bot/app/Services/StorageService.php:112-136 | `Log::info` is called in namespace `App\Services` without importing the facade, so it names a class that does not exist; the resulting `Error` is not an `\Exception` and escapes the `catch` after the content is stored | any call to `storeFileContent` | store the content and return `true` | not executed | Storage.StorageService.StoreFileContentAsWritten | Storage.StorageService.StoreFileContent |
| pdf-bot/app/Jobs/SummarizePdfJob.php:13-21 | the job sends `parameters.length`, but the command parser writes the summary size under `size`, so the service is always asked for `medium` | the command `SUMMARIZE long` (JobHooks.SummarizeLongExample) | send the parsed size | not executed | JobHooks.RemoteCallAsWritten | JobHooks.RemoteCallFor |
| pdf-bot/app/Http/Controllers/Api/WhatsAppWebhookController.php:56-288 | routing matches the menu pattern on the trimmed body, but the lookup indexes the map with the untrimmed body, so a spaced code is routed to the menu and then called an invalid choice | the body `" 1"` (TwilioWebhookProperties.SpacedCodeRejectedAsWritten) | look the trimmed code up | not executed | TwilioWebhook.MenuLookupAsWritten | TwilioWebhook.MenuLookup |
| pdf-bot/app/Http/Controllers/Api/WhatsAppWebhookController.php:261-282 | the map literal calls the three submenu senders while it is built, so every selection sends all three submenus before its own answer | the body `"1"` with a live session (TwilioWebhookProperties.EagerSubmenusAsWritten) | send a submenu only when its code is chosen | not executed | TwilioWebhook.SelectionStepAsWritten | TwilioWebhook.SelectionStep |
| pdf-bot/app/Services/WhatsApp/WhatsAppService.php:113-120 | the upload passes `create` attributes the model does not accept besides `mime_type` and `status`, so the insert lacks the required `original_name` and fails | any PDF received through the Meta webhook (WhatsAppServiceProperties.UploadRefusedAsWritten) | create the document, remember it for an hour and send the PDF menu | not executed | WhatsAppService.UploadAsWritten | WhatsAppService.Upload |
| pdf-bot/app/Services/WhatsApp/WhatsAppService.php:208-240 | the job is built as `new $jobClass($taskJob)`, where its constructor takes the document, the task job and the reply address, so the selection raises after confirming and nothing is dispatched | the text `"1"` after a stored upload (WhatsAppServiceProperties.SelectionRaisesAsWritten) | dispatch the operation's job for the document, the task job and the sender | not executed | WhatsAppService.ProcessSelectionAsWritten | WhatsAppService.ProcessSelection |
| pdf-bot/services/pdf_service/main.py:85-108 | the 400 `HTTPException` for a refused upload is raised inside the `try`, so the `except Exception` turns every refusal into a 500 whose detail embeds the 400 | a non-PDF upload to `/compress` (PdfServiceApi.RefusalBecomes500) | answer 400 with the check's detail | not executed | PdfServiceApi.RespondAsWritten | PdfServiceApi.Respond |
| pdf-bot/services/pdf_microservice/main.py:176 | `original_filename.replace('.pdf', '.docx')` replaces every `.pdf`, not just the extension | the upload name `a.pdf.pdf` (PdfMicroservice.ReplaceHitsEveryPdf) | replace only the trailing extension, giving `a.pdf.docx` | not executed | PdfMicroservice.ConvertedNameAsWritten | PdfMicroservice.ConvertedName |
