# S3ToRedshiftTransfer, modelled in Dafny

The Airflow operator `S3ToRedshiftTransfer` loads data into an Amazon
Redshift table. It does so with one `COPY` statement that reads from S3 or
from DynamoDB. The operator has three steps:

- **Construction.** `__init__` stores the configuration. It replaces a
  missing `copy_options` with the empty list. It then fetches credentials
  exactly once. They come from the S3 provider when `data_source` is exactly
  the string `'s3'`, and from the DynamoDB provider for every other value,
  `None` included.
- **Statement.** `_copy_data` fills a fixed, multi-line template with
  `str.format`. Every value is inserted verbatim, with no quoting. It hands
  the text to the warehouse hook's `run` together with the `autocommit`
  flag.
- **Gate.** `execute` calls `_copy_data` only when `operation` is exactly
  `"COPY"`. For any other operation it raises
  `AirflowException("Invalid operation; options [COPY, UPSERT]")`. That
  includes the default `"UPSERT"`.

The model is functional, with five modules:

- `Wrappers`: `Option` and `Result`.
- `Text`: string search, split and join. Splitting at the first
  occurrence, prefix and suffix stripping, and `Split`/`Join` each have a
  round-trip lemma; search has a contract only.
- `PyRepr`: how `str.format` renders an optional string (`None` becomes the
  text `None`) and a list of strings (`['a', 'b']`). It also has a parser
  that inverts that rendering.
- `CopyStatement`: the COPY template, character for character, including
  the 20-space indentation, the leading newline and the 16-space closing
  line. It also has a parser that reads the fields back out of a rendered
  statement.
- `S3ToRedshift`: the operator itself.

The credential providers and the warehouse are not modelled. They are
functions inside an `Env` value. The `Env` also logs every credential
request and every warehouse submission, so contracts can count those calls
and say what each one carried.

The partner of the statement builder is the parser. Under the stated
delimiting conditions, a statement reads back to exactly the fields it was
built from. This says:

- where every value lands;
- that the data source string becomes the URI scheme;
- that the copy options keep their order and their repeats.

`SchemaTableBoundaryLost` shows why those conditions are needed: without
them, two different configurations can produce the same statement.

Points of the code's behaviour worth knowing:

- An unrecognised `data_source` is not rejected
  (s3_to_redshift.py:88-91). It silently selects the DynamoDB provider,
  and the unrecognised string still becomes the URI scheme.
- The error raised by `execute` carries a fixed message
  (s3_to_redshift.py:117). It does not name the operation that was
  refused.
- The copy options are interpolated as Python's `str` of the list
  (s3_to_redshift.py:107). For example, `['CSV']` produces the line
  `['CSV'];`, not `CSV;`. The model renders them that way.

## Model

| member | source | states |
|---|---|---|
| S3ToRedshift.Construct | airflow/providers/amazon/aws/operators/s3_to_redshift.py:64-91 | exactly one credential request, naming the AWS connection, to S3 if and only if the data source is exactly `"s3"`; no warehouse call; success exactly when that provider answers; the stored attributes are the arguments, with missing copy options becoming the empty list |
| S3ToRedshift.DefaultsNeverSubmit | airflow/providers/amazon/aws/operators/s3_to_redshift.py:68-75 | with only schema and table given, the request goes to the S3 provider on `aws_default`, and `execute` then raises the invalid-operation error with no warehouse submission, because the default operation is `UPSERT` |
| S3ToRedshift.CopyData | airflow/providers/amazon/aws/operators/s3_to_redshift.py:93-110 | exactly one warehouse submission, appended to the log with earlier ones untouched, on the operator's connection and commit flag, carrying the rendered COPY statement; no credential request; warehouse errors propagate |
| S3ToRedshift.Execute | airflow/providers/amazon/aws/operators/s3_to_redshift.py:113-117 | for `"COPY"`, one submission built from the stored schema, table and credentials, succeeding exactly when the warehouse does and otherwise failing with the warehouse's own error message; for any other operation, the fixed invalid-operation error and no submission; never a credential request |
| S3ToRedshift.ExecutedStatementReadsBack | airflow/providers/amazon/aws/operators/s3_to_redshift.py:94-107 | the submitted statement reads back to schema, table, data source as scheme, bucket or table, key, the stored credentials, and the copy options in their order with repeats |
| S3ToRedshift.UnsetLocationRendersAsNone | airflow/providers/amazon/aws/operators/s3_to_redshift.py:103-104 | an unset bucket or table, or key, gives the same statement as the string `"None"` |
| S3ToRedshift.ExecuteIgnoresProviders | airflow/providers/amazon/aws/operators/s3_to_redshift.py:113-115 | what the credential providers would answer at execution time changes neither the submissions nor the result |
| S3ToRedshift.ConstructThenCopy | airflow/providers/amazon/aws/operators/s3_to_redshift.py:88-115 | constructing and running a COPY operator makes one credential request, to S3 if and only if the data source is `"s3"`, and one submission whose statement carries the credentials that request returned |
| S3ToRedshift.ExecuteRepeatedly | airflow/providers/amazon/aws/operators/s3_to_redshift.py:113-117 | repeated executions never request credentials; for COPY, each one appends the same submission; otherwise, each one raises the same error and submits nothing |
| CopyStatement.StatementLines | airflow/providers/amazon/aws/operators/s3_to_redshift.py:94-99 | a statement whose values contain no newline splits into exactly the template's seven lines, with the values in the template's order |
| CopyStatement.Parse | airflow/providers/amazon/aws/operators/s3_to_redshift.py:94-99 | reading is exact: any text accepted as a statement is the rendering of the fields read from it |
| CopyStatement.ParseRender | airflow/providers/amazon/aws/operators/s3_to_redshift.py:94-107 | a statement built from delimited fields reads back to exactly those fields |
| CopyStatement.SchemaTableBoundaryLost | airflow/providers/amazon/aws/operators/s3_to_redshift.py:95 | moving a dotted segment from the end of the schema to the front of the table leaves the statement unchanged |
| PyRepr.ParseList | airflow/providers/amazon/aws/operators/s3_to_redshift.py:107 | reading is exact: any text accepted as a rendered list is the rendering of the items read from it |
| PyRepr.ParseFormatList | airflow/providers/amazon/aws/operators/s3_to_redshift.py:107 | a rendered list of strings without single quotes reads back to the same items in the same order |

## Left out

- The hooks (`S3Hook`, `AwsDynamoDBHook`, `PostgresHook`) and the network are left out. Providers and the warehouse are functions held in `Env`.
- The `verify` argument is left out. It is passed only to the hooks and does not affect the statement or the control flow.
- Logging is left out (`self.log.info` before and after the run).
- The `BaseOperator` plumbing is left out: `apply_defaults`, `*args`/`**kwargs`, templated fields, `ui_color`, and the `context` argument of `execute`.
- The meaning of `autocommit` to the driver is left out. The flag is only passed through to the warehouse call.
- The `_copy_data` defaults `schema=None, table=None` are left out. `execute` always passes the stored strings.
- PyRepr.FormatList: renders items as `'item'`, the way Python's `repr` does for strings without quotes, backslashes or unprintable characters. It does not model how `repr` escapes other strings, nor lists of non-string items.
- CopyStatement.ParseRender: reads back only fields free of the newline and of the delimiter that ends each one. `SchemaTableBoundaryLost` shows that this limit comes from the template, not from the model.
- A `data_source` value that is not a string is left out. The model's data source is `Option<string>`.
