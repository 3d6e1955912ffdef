/** The COPY statement that `S3ToRedshiftTransfer._copy_data` builds with
    `str.format`: a fixed template whose placeholders are filled with the
    rendered values verbatim, with no quoting or escaping of any kind. The
    template is modelled character for character, indentation included. */
module CopyStatement {
  import opened Wrappers
  import opened Text

  /** Leading whitespace of every template line (20 spaces). */
  const Indent: string := "                    "
  /** Whitespace after the last newline of the template (16 spaces). */
  const ClosingIndent: string := "                "

  const TargetLead: string := Indent + "COPY "
  const SourceLead: string := Indent + "FROM '"
  const AccessLead: string := Indent + "'aws_access_key_id="
  const SecretLabel: string := ";aws_secret_access_key="
  const KeywordLine: string := Indent + "with credentials"

  /** The text that goes into each placeholder, already rendered by
      `str.format` (so a `None` value is the text `None` here). */
  datatype Fields = Fields(
    schema: string,
    table: string,
    dataSource: string,
    location: string,
    key: string,
    accessKey: string,
    secretKey: string,
    options: string)

  /** `COPY <schema>.<table>` */
  function TargetLine(schema: string, table: string): string
  {
    TargetLead + (schema + ("." + table))
  }

  /** `FROM '<data_source>://<bucket or table>/<key>'` */
  function SourceLine(dataSource: string, location: string, key: string): string
  {
    SourceLead + (dataSource + ("://" + (location + ("/" + (key + "'")))))
  }

  /** `'aws_access_key_id=<access>;aws_secret_access_key=<secret>'` */
  function CredentialsLine(accessKey: string, secretKey: string): string
  {
    AccessLead + (accessKey + (SecretLabel + (secretKey + "'")))
  }

  /** `<copy_options>;` */
  function OptionsLine(options: string): string
  {
    Indent + (options + ";")
  }

  /** The template's lines, in order; the first is empty because the
      triple-quoted text starts with a newline. */
  function Lines(f: Fields): seq<string>
  {
    [ "",
      TargetLine(f.schema, f.table),
      SourceLine(f.dataSource, f.location, f.key),
      KeywordLine,
      CredentialsLine(f.accessKey, f.secretKey),
      OptionsLine(f.options),
      ClosingIndent ]
  }

  /** The statement text: the template's lines joined by newlines. */
  function Render(f: Fields): string
  {
    Join(Lines(f), '\n')
  }

  /** No rendered field contains a newline, so every field stays on its own
      template line. */
  predicate SingleLine(f: Fields)
  {
    && '\n' !in f.schema && '\n' !in f.table && '\n' !in f.dataSource
    && '\n' !in f.location && '\n' !in f.key && '\n' !in f.accessKey
    && '\n' !in f.secretKey && '\n' !in f.options
  }

  lemma LinesAreSingle(f: Fields)
    requires SingleLine(f)
    ensures forall i :: 0 <= i < |Lines(f)| ==> '\n' !in Lines(f)[i]
  {
    var ls := Lines(f);
    assert '\n' !in ls[1] by {
      assert '\n' !in TargetLead;
    }
    assert '\n' !in ls[2] by {
      assert '\n' !in SourceLead;
    }
    assert '\n' !in ls[3];
    assert '\n' !in ls[4] by {
      assert '\n' !in AccessLead;
      assert '\n' !in SecretLabel;
    }
    assert '\n' !in ls[5] by {
      assert '\n' !in Indent;
    }
  }

  /** Where each field appears: a statement whose fields are single-line
      falls apart, at its newlines, into exactly the template's seven
      lines, with the fields in the template's order. */
  lemma StatementLines(f: Fields)
    requires SingleLine(f)
    ensures Split(Render(f), '\n') == Lines(f)
  {
    LinesAreSingle(f);
    SplitJoin(Lines(f), '\n');
  }

  /** Fields the statement can be read back from: single-line, and each
      field free of the character that ends it in the template (the first
      `.`, `:`, `/` and `;` of their lines). */
  predicate Delimited(f: Fields)
  {
    && SingleLine(f)
    && '.' !in f.schema
    && ':' !in f.dataSource
    && '/' !in f.location
    && ';' !in f.accessKey
  }

  /** Reads schema and table back from the target line. */
  function ParseTarget(line: string): (r: Option<(string, string)>)
    ensures r.Some? ==> line == TargetLine(r.value.0, r.value.1) && '.' !in r.value.0
  {
    match StripPrefix(line, TargetLead)
    case None => None
    case Some(rest) =>
      match SplitFirst(rest, '.')
      case None => None
      case Some((schema, table)) => Some((schema, table))
  }

  lemma ParseTargetOf(schema: string, table: string)
    requires '.' !in schema
    ensures ParseTarget(TargetLine(schema, table)) == Some((schema, table))
  {
    StripPrefixOf(TargetLead, schema + ("." + table));
    SplitFirstOf(schema, '.', table);
  }

  /** Reads data source, location and key back from the source line. */
  function ParseSource(line: string): (r: Option<(string, string, string)>)
    ensures r.Some? ==>
      && line == SourceLine(r.value.0, r.value.1, r.value.2)
      && ':' !in r.value.0 && '/' !in r.value.1
  {
    match StripPrefix(line, SourceLead)
    case None => None
    case Some(uri) =>
      match SplitFirst(uri, ':')
      case None => None
      case Some((dataSource, afterColon)) =>
        match StripPrefix(afterColon, "//")
        case None => None
        case Some(path) =>
          match SplitFirst(path, '/')
          case None => None
          case Some((location, quotedKey)) =>
            match StripSuffix(quotedKey, "'")
            case None => None
            case Some(key) =>
              LeadingChar("://", path);
              Some((dataSource, location, key))
  }

  lemma ParseSourceOf(dataSource: string, location: string, key: string)
    requires ':' !in dataSource && '/' !in location
    ensures ParseSource(SourceLine(dataSource, location, key)) == Some((dataSource, location, key))
  {
    var path := location + ("/" + (key + "'"));
    LeadingChar("://", path);
    StripPrefixOf(SourceLead, dataSource + ("://" + path));
    SplitFirstOf(dataSource, ':', "//" + path);
    StripPrefixOf("//", path);
    SplitFirstOf(location, '/', key + "'");
    StripSuffixOf(key, "'");
  }

  /** Reads the access and secret key back from the credentials line. */
  function ParseCredentials(line: string): (r: Option<(string, string)>)
    ensures r.Some? ==> line == CredentialsLine(r.value.0, r.value.1) && ';' !in r.value.0
  {
    match StripPrefix(line, AccessLead)
    case None => None
    case Some(rest) =>
      match SplitFirst(rest, ';')
      case None => None
      case Some((accessKey, afterSemicolon)) =>
        match StripPrefix(afterSemicolon, SecretLabel[1..])
        case None => None
        case Some(quotedSecret) =>
          match StripSuffix(quotedSecret, "'")
          case None => None
          case Some(secretKey) =>
            LeadingChar(SecretLabel, quotedSecret);
            Some((accessKey, secretKey))
  }

  lemma ParseCredentialsOf(accessKey: string, secretKey: string)
    requires ';' !in accessKey
    ensures ParseCredentials(CredentialsLine(accessKey, secretKey)) == Some((accessKey, secretKey))
  {
    var quotedSecret := secretKey + "'";
    LeadingChar(SecretLabel, quotedSecret);
    StripPrefixOf(AccessLead, accessKey + (SecretLabel + quotedSecret));
    SplitFirstOf(accessKey, ';', SecretLabel[1..] + quotedSecret);
    StripPrefixOf(SecretLabel[1..], quotedSecret);
    StripSuffixOf(secretKey, "'");
  }

  /** Reads the rendered options back from the options line. */
  function ParseOptions(line: string): (r: Option<string>)
    ensures r.Some? ==> line == OptionsLine(r.value)
  {
    match StripPrefix(line, Indent)
    case None => None
    case Some(rest) => StripSuffix(rest, ";")
  }

  lemma ParseOptionsOf(options: string)
    ensures ParseOptions(OptionsLine(options)) == Some(options)
  {
    StripPrefixOf(Indent, options + ";");
    StripSuffixOf(options, ";");
  }

  /** The seven lines `ls` are the template's lines for `f`. */
  predicate LinesOf(ls: seq<string>, f: Fields)
  {
    && |ls| == 7
    && ls[0] == ""
    && ls[1] == TargetLine(f.schema, f.table)
    && ls[2] == SourceLine(f.dataSource, f.location, f.key)
    && ls[3] == KeywordLine
    && ls[4] == CredentialsLine(f.accessKey, f.secretKey)
    && ls[5] == OptionsLine(f.options)
    && ls[6] == ClosingIndent
  }

  lemma LinesOfIsLines(ls: seq<string>, f: Fields)
    requires LinesOf(ls, f)
    ensures ls == Lines(f)
  {
  }

  /** Reads the fields back from the seven template lines. */
  function ParseLines(ls: seq<string>): (r: Option<Fields>)
    ensures r.Some? ==> LinesOf(ls, r.value) && Delimited(r.value)
  {
    if |ls| != 7 || ls[0] != "" || ls[3] != KeywordLine || ls[6] != ClosingIndent then None
    else
      var target := ParseTarget(ls[1]);
      var source := ParseSource(ls[2]);
      var credentials := ParseCredentials(ls[4]);
      var options := ParseOptions(ls[5]);
      if target.None? || source.None? || credentials.None? || options.None? then None
      else
        var f := Fields(target.value.0, target.value.1,
                        source.value.0, source.value.1, source.value.2,
                        credentials.value.0, credentials.value.1, options.value);
        if SingleLine(f) then Some(f) else None
  }

  /** Reads a whole statement back into its fields. Reading is exact:
      whatever it accepts is the rendering of the fields it returns. */
  function Parse(q: string): (r: Option<Fields>)
    ensures r.Some? ==> Render(r.value) == q && Delimited(r.value)
  {
    var ls := Split(q, '\n');
    var r := ParseLines(ls);
    if r.Some? then
      LinesOfIsLines(ls, r.value);
      r
    else r
  }

  /** Statements built from delimited fields read back to those fields:
      the fields sit in the text in the template's order, each exactly
      where the template puts it. */
  lemma ParseRender(f: Fields)
    requires Delimited(f)
    ensures Parse(Render(f)) == Some(f)
  {
    StatementLines(f);
    ParseTargetOf(f.schema, f.table);
    ParseSourceOf(f.dataSource, f.location, f.key);
    ParseCredentialsOf(f.accessKey, f.secretKey);
    ParseOptionsOf(f.options);
  }

  /** Schema and table are interpolated without quoting, so the boundary
      between them is not recoverable from the text: moving a dotted
      segment from the end of the schema to the front of the table gives
      the very same statement. */
  lemma SchemaTableBoundaryLost(f: Fields, schema: string, middle: string, table: string)
    ensures Render(f.(schema := schema + "." + middle, table := table))
         == Render(f.(schema := schema, table := middle + "." + table))
  {
    var f1 := f.(schema := schema + "." + middle, table := table);
    var f2 := f.(schema := schema, table := middle + "." + table);
    TargetLineBoundary(schema, middle, table);
    assert LinesOf(Lines(f2), f1);
    LinesOfIsLines(Lines(f2), f1);
  }

  lemma TargetLineBoundary(schema: string, middle: string, table: string)
    ensures TargetLine(schema + "." + middle, table) == TargetLine(schema, middle + "." + table)
  {
    assert (schema + "." + middle) + ("." + table) == schema + ("." + (middle + "." + table));
  }
}
