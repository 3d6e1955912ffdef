/** The operator `S3ToRedshiftTransfer`: the constructor fixes the
    configuration and fetches credentials once, from the S3 provider when
    the data source is exactly `"s3"` and from the DynamoDB provider
    otherwise; `execute` either submits one COPY statement to the warehouse
    or raises before touching it.

    The hooks are not modelled: credential providers and the warehouse are
    functions held in an `Env`, which also logs every credential request
    and every warehouse submission so that contracts can count them. */
module S3ToRedshift {
  import opened Wrappers
  import PyRepr
  import CopyStatement

  /** The credential provider the constructor asks: `S3Hook` or
      `AwsDynamoDBHook`. */
  datatype Provider = S3 | DynamoDB

  /** What a provider's `get_credentials()` returns. */
  datatype Credentials = Credentials(accessKey: string, secretKey: string)

  /** The constructor's arguments. `None` stands for Python's `None`. */
  datatype Args = Args(
    schema: string,
    table: string,
    dataSource: Option<string>,
    s3BucketOrDynamoDBTable: Option<string>,
    s3Key: Option<string>,
    redshiftConnId: string,
    awsConnId: string,
    copyOptions: Option<seq<string>>,
    operation: string,
    autocommit: bool)

  /** The arguments a caller gets by passing only schema and table. */
  function DefaultArgs(schema: string, table: string): Args
  {
    Args(schema, table, Some("s3"), None, None, "redshift_default", "aws_default",
         None, "UPSERT", false)
  }

  /** One call of a provider's `get_credentials()`. */
  datatype CredentialRequest = CredentialRequest(provider: Provider, awsConnId: string)

  /** One call of the warehouse hook's `run(sql, autocommit)`. */
  datatype Submission = Submission(redshiftConnId: string, sql: string, autocommit: bool)

  datatype Error =
    /** A credential provider raised. */
    | CredentialsUnavailable(provider: Provider, awsConnId: string)
    /** `AirflowException` from `execute`. */
    | InvalidOperation(message: string)
    /** The warehouse driver raised while running the statement. */
    | WarehouseFailed(message: string)

  /** The world the operator talks to. `credentialsOf` answers a provider
      and connection id with credentials or `None` when the provider
      raises; `warehouse` answers a connection id, statement and commit
      flag with `None` on success or the driver's error message. */
  datatype Env = Env(
    credentialsOf: (Provider, string) -> Option<Credentials>,
    warehouse: (string, string, bool) -> Option<string>,
    requests: seq<CredentialRequest>,
    submissions: seq<Submission>)

  /** A result together with the world after the call. */
  datatype Outcome<T> = Outcome(result: Result<T, Error>, env: Env)

  /** A constructed operator: the attributes `__init__` stores. */
  datatype Transfer = Transfer(
    schema: string,
    table: string,
    dataSource: Option<string>,
    s3BucketOrDynamoDBTable: Option<string>,
    s3Key: Option<string>,
    copyOptions: seq<string>,
    autocommit: bool,
    operation: string,
    redshiftConnId: string,
    credentials: Credentials)

  const InvalidOperationMessage: string := "Invalid operation; options [COPY, UPSERT]"

  function Last<T>(s: seq<T>): T
    requires |s| > 0
  {
    s[|s| - 1]
  }

  /** Python's `data_source == 's3'`: only that exact string picks S3. */
  function ProviderFor(dataSource: Option<string>): Provider
  {
    if dataSource == Some("s3") then S3 else DynamoDB
  }

  /** `S3ToRedshiftTransfer.__init__`. */
  function Construct(args: Args, env: Env): (r: Outcome<Transfer>)
    // exactly one credential request, to the provider the data source picks
    ensures |r.env.requests| == |env.requests| + 1
    ensures r.env.requests[..|env.requests|] == env.requests
    ensures Last(r.env.requests).awsConnId == args.awsConnId
    ensures Last(r.env.requests).provider == S3 <==> args.dataSource == Some("s3")
    // construction never reaches the warehouse
    ensures r.env.submissions == env.submissions
    // it fails exactly when the chosen provider raises
    ensures r.result.Success? <==> env.credentialsOf(Last(r.env.requests).provider, args.awsConnId).Some?
    ensures r.result.Failure? ==>
      r.result.error == CredentialsUnavailable(Last(r.env.requests).provider, args.awsConnId)
    // the stored attributes
    ensures r.result.Success? ==>
      var t := r.result.value;
      && t.credentials == env.credentialsOf(Last(r.env.requests).provider, args.awsConnId).value
      && t.schema == args.schema && t.table == args.table
      && t.dataSource == args.dataSource
      && t.s3BucketOrDynamoDBTable == args.s3BucketOrDynamoDBTable
      && t.s3Key == args.s3Key
      && t.redshiftConnId == args.redshiftConnId
      && t.operation == args.operation && t.autocommit == args.autocommit
      && (args.copyOptions.None? ==> t.copyOptions == [])
      && (args.copyOptions.Some? ==> t.copyOptions == args.copyOptions.value)
  {
    var provider := ProviderFor(args.dataSource);
    var env' := env.(requests := env.requests + [CredentialRequest(provider, args.awsConnId)]);
    match env.credentialsOf(provider, args.awsConnId)
    case None => Outcome(Failure(CredentialsUnavailable(provider, args.awsConnId)), env')
    case Some(credentials) =>
      var t := Transfer(args.schema, args.table, args.dataSource,
                        args.s3BucketOrDynamoDBTable, args.s3Key,
                        args.copyOptions.GetOr([]), args.autocommit, args.operation,
                        args.redshiftConnId, credentials);
      Outcome(Success(t), env')
  }

  /** The text `str.format` puts into each placeholder of the COPY
      template. */
  function StatementFields(t: Transfer, credentials: Credentials, schema: string, table: string)
    : CopyStatement.Fields
  {
    CopyStatement.Fields(
      schema, table,
      PyRepr.FormatOptional(t.dataSource),
      PyRepr.FormatOptional(t.s3BucketOrDynamoDBTable),
      PyRepr.FormatOptional(t.s3Key),
      credentials.accessKey, credentials.secretKey,
      PyRepr.FormatList(t.copyOptions))
  }

  /** The COPY statement `_copy_data` builds. */
  function Statement(t: Transfer, credentials: Credentials, schema: string, table: string): string
  {
    CopyStatement.Render(StatementFields(t, credentials, schema, table))
  }

  /** `_copy_data`: build the statement and submit it once. */
  function CopyData(t: Transfer, credentials: Credentials, schema: string, table: string, env: Env)
    : (r: Outcome<()>)
    ensures r.env.requests == env.requests
    ensures |r.env.submissions| == |env.submissions| + 1
    ensures r.env.submissions[..|env.submissions|] == env.submissions
    ensures Last(r.env.submissions).redshiftConnId == t.redshiftConnId
    ensures Last(r.env.submissions).autocommit == t.autocommit
    ensures Last(r.env.submissions).sql == Statement(t, credentials, schema, table)
    ensures r.result.Success? <==> env.warehouse(t.redshiftConnId, Last(r.env.submissions).sql, t.autocommit).None?
    ensures r.result.Failure? ==>
      r.result.error == WarehouseFailed(env.warehouse(t.redshiftConnId, Last(r.env.submissions).sql, t.autocommit).value)
  {
    var sql := Statement(t, credentials, schema, table);
    var env' := env.(submissions := env.submissions + [Submission(t.redshiftConnId, sql, t.autocommit)]);
    match env.warehouse(t.redshiftConnId, sql, t.autocommit)
    case None => Outcome(Success(()), env')
    case Some(message) => Outcome(Failure(WarehouseFailed(message)), env')
  }

  /** `execute`: the operation gate. Only the exact string `"COPY"` reaches
      the warehouse, with one submission built from the stored schema,
      table and credentials; every other operation, the default `"UPSERT"`
      included, raises the same message and submits nothing. Credentials
      are never requested again. */
  function Execute(t: Transfer, env: Env): (r: Outcome<()>)
    ensures r.env.requests == env.requests
    ensures t.operation == "COPY" ==>
      && |r.env.submissions| == |env.submissions| + 1
      && r.env.submissions[..|env.submissions|] == env.submissions
      && Last(r.env.submissions)
         == Submission(t.redshiftConnId, Statement(t, t.credentials, t.schema, t.table), t.autocommit)
      && (r.result.Success? <==> env.warehouse(t.redshiftConnId, Last(r.env.submissions).sql, t.autocommit).None?)
      && (r.result.Failure? ==>
            r.result.error
            == WarehouseFailed(env.warehouse(t.redshiftConnId, Last(r.env.submissions).sql, t.autocommit).value))
    ensures t.operation != "COPY" ==>
      && r.result == Failure(InvalidOperation("Invalid operation; options [COPY, UPSERT]"))
      && r.env.submissions == env.submissions
  {
    if t.operation == "COPY" then CopyData(t, t.credentials, t.schema, t.table, env)
    else Outcome(Failure(InvalidOperation(InvalidOperationMessage)), env)
  }

  /** An operator whose statement can be read back: every rendered field
      single-line and free of the character that ends it in the template,
      and no copy option containing a single quote. */
  predicate Readable(t: Transfer)
  {
    && CopyStatement.Delimited(StatementFields(t, t.credentials, t.schema, t.table))
    && PyRepr.PlainItems(t.copyOptions)
  }

  /** What the submitted text carries, and where: reading the statement of
      a COPY execution back gives schema and table verbatim, the configured
      data source string as the URI scheme, bucket or table and key as
      their text (`None` when unset), the credentials stored at
      construction, and the copy options in their given order with
      repeats. */
  lemma ExecutedStatementReadsBack(t: Transfer, env: Env)
    requires t.operation == "COPY"
    requires Readable(t)
    ensures var sql := Last(Execute(t, env).env.submissions).sql;
      && CopyStatement.Parse(sql).Some?
      && var f := CopyStatement.Parse(sql).value;
      && f.schema == t.schema
      && f.table == t.table
      && f.dataSource == PyRepr.FormatOptional(t.dataSource)
      && f.location == PyRepr.FormatOptional(t.s3BucketOrDynamoDBTable)
      && f.key == PyRepr.FormatOptional(t.s3Key)
      && f.accessKey == t.credentials.accessKey
      && f.secretKey == t.credentials.secretKey
      && PyRepr.ParseList(f.options) == Some(t.copyOptions)
  {
    var fields := StatementFields(t, t.credentials, t.schema, t.table);
    CopyStatement.ParseRender(fields);
    PyRepr.ParseFormatList(t.copyOptions);
  }

  /** A bucket, table or key left as `None` is indistinguishable in the
      statement from one given as the string `"None"`. */
  lemma UnsetLocationRendersAsNone(t: Transfer, credentials: Credentials, schema: string, table: string)
    ensures Statement(t.(s3BucketOrDynamoDBTable := None), credentials, schema, table)
         == Statement(t.(s3BucketOrDynamoDBTable := Some("None")), credentials, schema, table)
    ensures Statement(t.(s3Key := None), credentials, schema, table)
         == Statement(t.(s3Key := Some("None")), credentials, schema, table)
  {
  }

  /** Credentials are read once, at construction: what the providers would
      answer now has no effect on what `execute` submits. */
  lemma ExecuteIgnoresProviders(t: Transfer, env: Env, credentialsOf: (Provider, string) -> Option<Credentials>)
    ensures Execute(t, env.(credentialsOf := credentialsOf)).env.submissions
         == Execute(t, env).env.submissions
    ensures Execute(t, env.(credentialsOf := credentialsOf)).result
         == Execute(t, env).result
  {
  }

  /** Construction followed by a COPY execution: one credential request, to
      the provider the data source picks, and one submission, carrying the
      credentials that request returned. */
  lemma ConstructThenCopy(args: Args, env: Env)
    requires args.operation == "COPY"
    requires env.credentialsOf(ProviderFor(args.dataSource), args.awsConnId).Some?
    ensures var c := Construct(args, env);
      && c.result.Success?
      && var e := Execute(c.result.value, c.env);
      && |e.env.requests| == |env.requests| + 1
      && (Last(e.env.requests).provider == S3 <==> args.dataSource == Some("s3"))
      && |e.env.submissions| == |env.submissions| + 1
      && Last(e.env.submissions).sql
         == Statement(c.result.value,
                      env.credentialsOf(ProviderFor(args.dataSource), args.awsConnId).value,
                      args.schema, args.table)
  {
    var c := Construct(args, env);
    assert Last(c.env.requests).provider == ProviderFor(args.dataSource);
  }

  /** An operator built with the defaults asks the S3 provider and then, on
      `execute`, raises without a single warehouse submission, because the
      default operation is `"UPSERT"`. */
  lemma DefaultsNeverSubmit(schema: string, table: string, env: Env)
    ensures var c := Construct(DefaultArgs(schema, table), env);
      && Last(c.env.requests) == CredentialRequest(S3, "aws_default")
      && (c.result.Success? ==>
            var e := Execute(c.result.value, c.env);
            && e.result == Failure(InvalidOperation(InvalidOperationMessage))
            && e.env.submissions == env.submissions)
  {
  }

  /** `execute` called `n` times on one operator: credentials are never
      requested again, and every COPY execution submits the very same
      statement, while any other operation submits nothing and raises every
      time. */
  method ExecuteRepeatedly(t: Transfer, env: Env, n: nat) returns (results: seq<Result<(), Error>>, final: Env)
    ensures |results| == n
    ensures final.requests == env.requests
    ensures t.operation == "COPY" ==>
      && |final.submissions| == |env.submissions| + n
      && final.submissions[..|env.submissions|] == env.submissions
      && forall i :: |env.submissions| <= i < |final.submissions| ==>
           final.submissions[i]
           == Submission(t.redshiftConnId, Statement(t, t.credentials, t.schema, t.table), t.autocommit)
    ensures t.operation != "COPY" ==>
      && final.submissions == env.submissions
      && forall i :: 0 <= i < n ==> results[i] == Failure(InvalidOperation(InvalidOperationMessage))
  {
    var submission := Submission(t.redshiftConnId, Statement(t, t.credentials, t.schema, t.table), t.autocommit);
    results := [];
    final := env;
    var k := 0;
    while k < n
      invariant k <= n
      invariant |results| == k
      invariant final.requests == env.requests
      invariant t.operation == "COPY" ==>
        && |final.submissions| == |env.submissions| + k
        && final.submissions[..|env.submissions|] == env.submissions
        && forall i :: |env.submissions| <= i < |final.submissions| ==> final.submissions[i] == submission
      invariant t.operation != "COPY" ==>
        && final.submissions == env.submissions
        && forall i :: 0 <= i < k ==> results[i] == Failure(InvalidOperation(InvalidOperationMessage))
    {
      var o := Execute(t, final);
      results := results + [o.result];
      final := o.env;
      k := k + 1;
    }
  }
}
