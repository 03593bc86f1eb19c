# Snowflake plugin: sink batching and error classification

This project models two parts of the CDAP Snowflake plugin and proves properties of them.

**The sink's batching.**
- `CSVBuffer` is a resettable byte buffer. A CSV printer writes rows into it, optionally after a header row.
- `SnowflakeRecordWriter` measures each record with a second, header-less buffer. When the batch would outgrow the configured maximum file size, it uploads the current batch. It then appends the record to the main buffer, and uploads what is left on close.
- Both are classes with mutable fields (`csv_buffer.dfy`, `record_writer.dfy`). `csv_format.dfy` holds the functions that describe the bytes a buffer contains.
- A ghost log of the batches uploaded so far lets the proofs show three things:
  - every record is uploaded exactly once, in order;
  - every batch of two or more records respects the bound;
  - every batch but the last was full.

**Error classification.**
- `SnowflakeErrorType` holds two static tables keyed by the JDBC driver's message code: one gives the error type, the other the error category.
- `fetchProgramFailureException` uses the first driver error code whose SQL state equals the exception's SQL state, and builds the failure from it.
- `SnowflakeErrorDetailsProvider` walks an exception's causal chain. It wraps the first exception of a recognised kind, unless a program failure comes first.
- These are pure functions (`failures.dfy`, `error_type.dfy`, `error_details.dfy`). The provider's scan is a method with a loop.

**Modelling choices.**
- The two static tables are lookup functions, one `match` arm per `put` of the static initializer, in source order. `None` stands for a missing key.
- A separate pair of code sets (`UserCodes`, `SystemCodes`) records the two blocks of `put`s. This lets the proofs check that the tables agree with each other.
- An exception is the set of listed classes it is an instance of, together with its (nullable) message and SQL state. So `instanceof` becomes set membership.
- The driver's `ErrorCode.values()` and Guava's `Throwables.getCausalChain` are input sequences.

**The size check leaves out the pending header.** The writer compares the main buffer's current size plus the new record's row with the maximum file size (`SnowflakeRecordWriter.java:73`). A header that is still pending is not part of either size. So the first record of a batch is never measured together with its header. The model follows the code: only batches of two or more records are proved to stay within the bound. A single-record batch, header included, may exceed it (`SinkWriter.RecordWriter.Write`, `SinkWriter.WriteAll`).

## Model

| member | source | states |
|---|---|---|
| CsvFormat.RowsAppend | src/main/java/io/cdap/plugin/snowflake/sink/batch/CSVBuffer.java:54 | Printing one more record appends exactly that record's row to the rows already printed. |
| CsvFormat.RenderAppend | src/main/java/io/cdap/plugin/snowflake/sink/batch/CSVBuffer.java:49-58 | Writing a record only appends. The header comes first, and only before the first record of a buffer that prints one; then the record's row. Existing bytes are unchanged. |
| CsvFormat.RenderStartsWithHeader | src/main/java/io/cdap/plugin/snowflake/sink/batch/CSVBuffer.java:50-54 | A buffer that prints a header starts with the header of its first record, immediately followed by that record's row. |
| CsvFormat.HeaderlessSingle | src/main/java/io/cdap/plugin/snowflake/sink/batch/SnowflakeRecordWriter.java:62-64 | A header-less buffer holding one record contains exactly that record's row. |
| CsvBuffers.CsvBuffer.constructor | src/main/java/io/cdap/plugin/snowflake/sink/batch/CSVBuffer.java:43-47 | A new buffer is empty, has count 0, and has a header pending exactly when it prints one. |
| CsvBuffers.CsvBuffer.Write | src/main/java/io/cdap/plugin/snowflake/sink/batch/CSVBuffer.java:49-58 | The new stream is the old stream, then the header if it was pending, then the record's row. The size strictly grows, the count goes up by one, and the header is no longer pending. |
| CsvBuffers.CsvBuffer.Reset | src/main/java/io/cdap/plugin/snowflake/sink/batch/CSVBuffer.java:60-74 | Stream and count are emptied. The header is pending again exactly when the buffer prints one. |
| CsvBuffers.CsvBuffer.Size | src/main/java/io/cdap/plugin/snowflake/sink/batch/CSVBuffer.java:76-78 | Returns the byte length of the buffer's contents (header and rows of the records since the last reset). |
| CsvBuffers.CsvBuffer.GetRecordsCount | src/main/java/io/cdap/plugin/snowflake/sink/batch/CSVBuffer.java:80-82 | Returns the number of records written since the last reset. |
| CsvBuffers.CsvBuffer.GetByteArray | src/main/java/io/cdap/plugin/snowflake/sink/batch/CSVBuffer.java:84-86 | Returns exactly the current contents, with length equal to `Size`, and changes nothing. |
| SinkWriter.RecordWriter.constructor | src/main/java/io/cdap/plugin/snowflake/sink/batch/SnowflakeRecordWriter.java:47-58 | Creates a main buffer with a header and a distinct size-check buffer without one. Nothing is uploaded yet. |
| SinkWriter.RecordWriter.Write | src/main/java/io/cdap/plugin/snowflake/sink/batch/SnowflakeRecordWriter.java:61-86 | Uploads the current batch first exactly when the bound is positive, the batch is non-empty, and its size plus the record's row exceeds the bound. Afterwards the record is the last one in the main buffer. The record log grows by exactly that record. With no positive bound, nothing is uploaded. |
| SinkWriter.RecordWriter.MeasureRow | src/main/java/io/cdap/plugin/snowflake/sink/batch/SnowflakeRecordWriter.java:62-71 | After reset and write, the size-check buffer holds only the record. Its size is the length of that record's row. |
| SinkWriter.RecordWriter.Append | src/main/java/io/cdap/plugin/snowflake/sink/batch/SnowflakeRecordWriter.java:77-85 | Appends the record to the main buffer and uploads nothing. The size bound for batches of two or more records is preserved. |
| SinkWriter.RecordWriter.SubmitCurrentBatch | src/main/java/io/cdap/plugin/snowflake/sink/batch/SnowflakeRecordWriter.java:88-102 | An empty main buffer is never uploaded and is left unchanged. Otherwise its exact bytes are uploaded and it is reset: size 0, count 0, header pending. |
| SinkWriter.RecordWriter.Close | src/main/java/io/cdap/plugin/snowflake/sink/batch/SnowflakeRecordWriter.java:104-107 | Uploads the remaining batch if it holds a record, and nothing otherwise. Afterwards the uploaded batches, concatenated, are exactly the written records. |
| SinkWriter.SettledAfterWrite | src/main/java/io/cdap/plugin/snowflake/sink/batch/SnowflakeRecordWriter.java:73-78 | A write keeps the upload log settled. A batch it uploads was full: its bytes plus the next record's row exceed the bound. Nothing is uploaded while the buffer is still empty, or when there is no positive bound. |
| SinkWriter.SettledAfterClose | src/main/java/io/cdap/plugin/snowflake/sink/batch/SnowflakeRecordWriter.java:104-107 | After close, the batches concatenate to the written records. Every batch but the last was full. With no positive bound there is one batch holding every record. Something is uploaded iff a record was written. |
| SinkWriter.WriteStep | src/main/java/io/cdap/plugin/snowflake/sink/batch/SnowflakeRecordWriter.java:61-86 | One `write` keeps the writer valid and settled and logs the record. |
| SinkWriter.WriteRecords | src/main/java/io/cdap/plugin/snowflake/sink/batch/SnowflakeRecordWriter.java:61-86 | Writing a sequence of records, one `write` each, keeps the writer valid and settled and logs them in order. |
| SinkWriter.WriteAll | src/main/java/io/cdap/plugin/snowflake/sink/batch/SnowflakeRecordWriter.java:47-107 | Covers one writer's lifetime: construct, write every record, close. The uploads are the header-first renderings of batches that concatenate to the input, none empty. Batches of two or more records respect a positive bound, and every batch but the last was full. With no positive bound there is exactly one upload holding all records. Nothing is uploaded iff there were no records. |
| Failures.FirstIndex | src/main/java/io/cdap/plugin/snowflake/common/SnowflakeErrorType.java:174-176 | The result is the index of an element that satisfies the test, with none satisfying it before. `None` exactly when no element does. |
| Failures.FirstIndexAt | src/main/java/io/cdap/plugin/snowflake/common/SnowflakeErrorType.java:174-176 | A hit with no hit before it is the first index. |
| Failures.FirstIndexIgnoresRest | src/main/java/io/cdap/plugin/snowflake/common/SnowflakeErrorDetailsProvider.java:41-64 | Elements after the first hit do not change the first index. |
| ErrorTypes.UserGroup | src/main/java/io/cdap/plugin/snowflake/common/SnowflakeErrorType.java:45-76 | The type table holds USER exactly for the 32 user codes. |
| ErrorTypes.SystemGroup | src/main/java/io/cdap/plugin/snowflake/common/SnowflakeErrorType.java:78-89 | The type table holds SYSTEM exactly for the 12 system codes. |
| ErrorTypes.TypeTableGroups | src/main/java/io/cdap/plugin/snowflake/common/SnowflakeErrorType.java:45-89 | USER for the user codes, SYSTEM for the system codes, no entry for every other code. |
| ErrorTypes.CodeGroupsDisjoint | src/main/java/io/cdap/plugin/snowflake/common/SnowflakeErrorType.java:45-89 | No code is put both as USER and as SYSTEM. |
| ErrorTypes.TablesShareKeys | src/main/java/io/cdap/plugin/snowflake/common/SnowflakeErrorType.java:44-142 | A code has a type entry iff it has a category entry. |
| ErrorTypes.CategoryTableShape | src/main/java/io/cdap/plugin/snowflake/common/SnowflakeErrorType.java:92-142 | Every category entry names a sub-category under PLUGIN. The sub-category is a system-side one (internal error, connection failure, cancelled query, system error, I/O error) iff the code is a SYSTEM code. |
| Failures.NameInjective | src/main/java/io/cdap/plugin/snowflake/common/SnowflakeErrorType.java:92-142 | The twelve sub-category names the category table attaches are pairwise distinct, so each name identifies one sub-category. |
| ErrorTypes.ErrorTypeFromCode | src/main/java/io/cdap/plugin/snowflake/common/SnowflakeErrorType.java:151-156 | USER iff the code is a user code, SYSTEM iff a system code, UNKNOWN iff neither. |
| ErrorTypes.CategoryFromCode | src/main/java/io/cdap/plugin/snowflake/common/SnowflakeErrorType.java:165-170 | Always under PLUGIN. A sub-category is present iff the code's type is not UNKNOWN. System codes get a system-side sub-category; user codes never do. |
| ErrorTypes.FetchProgramFailureException | src/main/java/io/cdap/plugin/snowflake/common/SnowflakeErrorType.java:172-184 | The first driver code, in enumeration order, whose SQL state equals the exception's decides the type and category. If none matches, the result is UNKNOWN with a bare PLUGIN category. It always carries code type SQLSTATE, the exception's SQL state, `dependent = true`, the driver documentation URL, the given reason and message, and the exception as cause. The type is known iff a sub-category is present. |
| ErrorTypes.NullStateIsUnknown | src/main/java/io/cdap/plugin/snowflake/common/SnowflakeErrorType.java:174-181 | An exception with a null SQL state matches no driver code and yields UNKNOWN with a bare PLUGIN category. |
| ErrorDetails.DetailMessage | src/main/java/io/cdap/plugin/snowflake/common/SnowflakeErrorDetailsProvider.java:77-80 | The detail message is the lead text, the phase, the closing quote and "Error message: " text, then the message. Each part can be read back at its own offset. |
| ErrorDetails.KindFailure | src/main/java/io/cdap/plugin/snowflake/common/SnowflakeErrorDetailsProvider.java:75-157 | Covers the six `getProgramFailureException` overloads. Each builds a failure with a bare PLUGIN category, the exception's own message as reason, the formatted detail message, `dependent = false`, no error code, and the exception as cause. The type is USER iff the kind is IllegalArgumentException, and SYSTEM otherwise. |
| ErrorDetails.RecognisedKindInOrder | src/main/java/io/cdap/plugin/snowflake/common/SnowflakeErrorDetailsProvider.java:46-63 | The recognised kinds are tested in the listed order, and the first one the exception is an instance of is the one used. |
| ErrorDetails.KindsAgree | src/main/java/io/cdap/plugin/snowflake/common/SnowflakeErrorDetailsProvider.java:46-63 | The six kinds tested in order and the set of kinds that stop the scan are the same kinds, six of each. |
| ErrorDetails.Decision | src/main/java/io/cdap/plugin/snowflake/common/SnowflakeErrorDetailsProvider.java:42-63 | At a deciding element the result is null iff the element is a program failure. The program-failure test comes first, so this holds even if the element is also of a recognised kind. Otherwise the result wraps that element with reason, message and category as above, blamed on the user iff it is an IllegalArgumentException. |
| ErrorDetails.Examine | src/main/java/io/cdap/plugin/snowflake/common/SnowflakeErrorDetailsProvider.java:42-63 | One iteration of the scan stops exactly at a deciding element and then returns that element's decision. |
| ErrorDetails.GetExceptionDetails | src/main/java/io/cdap/plugin/snowflake/common/SnowflakeErrorDetailsProvider.java:39-66 | Scans the causal chain in order. The result is the decision of the first deciding element, or null when there is none. |
| ErrorDetails.ProgramFailureSuppresses | src/main/java/io/cdap/plugin/snowflake/common/SnowflakeErrorDetailsProvider.java:42-45 | A program failure reached before any recognised exception is the first deciding element, and the result is null (no double wrapping). |
| ErrorDetails.LaterCausesIgnored | src/main/java/io/cdap/plugin/snowflake/common/SnowflakeErrorDetailsProvider.java:41-64 | Causes after the first deciding element do not change which element decides. |

## Left out

- Nothing here models the actual CSV bytes. Apache Commons CSV's `CSVFormat.DEFAULT` quoting and the UTF-8 `OutputStreamWriter` are foreign libraries. A row printer is an abstract function from fields to bytes, whose only known property is that a printed row is never empty (it ends with the record separator).
- `CSVBuffer.close` (CSVBuffer.java:88-90) is left out. It only closes the printer and has no effect on the state the model tracks.
- The `IOException` paths of `write`, `reset` and `submitCurrentBatch` are left out. They rethrow as program failures, so the model assumes writes and uploads succeed.
- `SnowflakeSinkAccessor.uploadStream` and the destination stage path are left out: an upload appends the uploaded bytes to the writer's `uploads` log.
- The writer's Gson configuration parsing is left out. The maximum file size is a constructor parameter.
- SinkWriter.RecordWriter.Write: sizes and counters are unbounded integers. Java's `int` sum `csvBuffer.size() + csvBufferSizeCheck.size()` and `recordsCount` could wrap past 2^31 - 1, and that is not modelled.
- SinkWriter.WriteAll: models one writer used by a single task attempt with every record written and then closed. Concurrent or abandoned attempts are not modelled.
- ErrorDetails.GetExceptionDetails: the error context is reduced to its phase, taken as a string. The exception hierarchy is reduced to the set of listed classes an exception is an instance of. Combinations that Java's single inheritance rules out are allowed, which only makes the proofs more general.
- The framework's `ErrorUtils.getProgramFailureException` is assumed to store its arguments in the failure. The arguments it is not given (code type, code, documentation URL) are absent.
- The framework's category enumeration is reduced to PLUGIN, the only value the plugin uses. Sub-category names are an enumeration of the twelve names the table uses, with their exact strings.
- The driver's `ErrorCode.values()` enumeration and Guava's `Throwables.getCausalChain` are taken as input sequences.
- ErrorTypes.DriverErrorCode: every entry of the driver's `ErrorCode` enumeration is assumed to carry a non-null SQL state. With a null one, `getSqlState().equals(...)` would throw a `NullPointerException`, and that path is not modelled.
- `DocumentUrlUtil` is folded into the constant `ErrorTypes.SupportedDocumentUrl`.
- `SnowflakeAccessor` (JDBC connections, OAuth token fetch, private-key files), `SnowflakeSourceAccessor` (stage commands and downloads), `UnloadAction` and `SnowflakeInputFormatProvider` are not part of this model. They are I/O and plugin-lifecycle glue.
