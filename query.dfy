/** The S3 Select request built for one object, and the key tests that decide how an
    object is read. */
module Query {
  import opened Types

  /** The three compression types S3 Select is told about. */
  const Gzip: string := "GZIP"
  const Bzip2: string := "BZIP2"
  const NoCompression: string := "NONE"

  /** A key cannot end both in ".gz" and in ".bz2": the order of the tests in
      `GetCompression` does not matter. */
  lemma CompressionSuffixesExclusive(key: string)
    ensures !(HasSuffix(key, ".gz") && HasSuffix(key, ".bz2"))
  {
    if HasSuffix(key, ".gz") {
      assert key[|key| - 1] == key[|key| - 3..][2] == 'z';
      assert |key| < 4 || key[|key| - 4..][3] != '2';
    }
  }

  /** `getCompression`: the compression type of an object follows from its key's suffix
      alone. */
  function GetCompression(key: string): (r: string)
    ensures r == Gzip <==> HasSuffix(key, ".gz")
    ensures r == Bzip2 <==> HasSuffix(key, ".bz2")
    ensures r == NoCompression <==> !HasSuffix(key, ".gz") && !HasSuffix(key, ".bz2")
  {
    CompressionSuffixesExclusive(key);
    if HasSuffix(key, ".gz") then Gzip
    else if HasSuffix(key, ".bz2") then Bzip2
    else NoCompression
  }

  /** Whatever precedes the extension, ".gz" and ".bz2" select their compression and
      any other ending selects none. */
  lemma CompressionOfExtension(name: string)
    ensures GetCompression(name + ".gz") == Gzip
    ensures GetCompression(name + ".bz2") == Bzip2
    ensures GetCompression(name + ".txt") == NoCompression
  {
    var gz, bz2, txt := name + ".gz", name + ".bz2", name + ".txt";
    assert gz[|gz| - 3..] == ".gz";
    assert bz2[|bz2| - 4..] == ".bz2";
    assert txt[|txt| - 3..] == "txt" && txt[|txt| - 4..] == ".txt";
  }

  /** How each input line is read: one record per line, its one field delimited by a NUL
      byte that text does not contain, no header line. */
  datatype CsvInput = CsvInput(fieldDelimiter: string, recordDelimiter: string, fileHeaderInfo: string)

  /** How each matching record is written back: no quoting, no field delimiter. */
  datatype CsvOutput = CsvOutput(quoteCharacter: string, quoteEscapeCharacter: string, fieldDelimiter: string)

  /** `s3.SelectObjectContentInput`, with the fields `scanObjectParams` sets. */
  datatype SelectRequest = SelectRequest(
    bucket: string,
    key: string,
    expressionType: string,
    expression: string,
    input: CsvInput,
    compressionType: string,
    output: CsvOutput)

  const LineRecords: CsvInput := CsvInput("\0", "\n", "NONE")
  const RawOutput: CsvOutput := CsvOutput("", "", "")
  const Sql: string := "SQL"

  /** The SQL around the search term; the term is pasted in between without escaping. */
  const ExpressionHead: string := "select * from s3object s where s._1 like '%"
  const ExpressionTail: string := "%'"

  /** `scanObjectParams`: the request that selects every line of `key` containing `exp`. */
  function ScanObjectParams(bucket: string, key: string, exp: string): (r: SelectRequest)
    ensures r.bucket == bucket && r.key == key
    ensures r.compressionType == GetCompression(key)
    ensures r.expressionType == Sql && r.input == LineRecords && r.output == RawOutput
    ensures r.expression == ExpressionHead + exp + ExpressionTail
  {
    SelectRequest(bucket, key, Sql, ExpressionHead + exp + ExpressionTail,
                  LineRecords, GetCompression(key), RawOutput)
  }

  /** Recovers the search term from a request's expression: the inverse of the way
      `ScanObjectParams` embeds it. */
  function SearchTerm(expression: string): (r: Option<string>)
    ensures r.Some? ==> expression == ExpressionHead + r.value + ExpressionTail
  {
    if |ExpressionHead| + |ExpressionTail| <= |expression|
       && HasPrefix(expression, ExpressionHead)
       && HasSuffix(expression, ExpressionTail)
    then
      var t := expression[|ExpressionHead|..|expression| - |ExpressionTail|];
      assert expression == expression[..|ExpressionHead|] + t + expression[|expression| - |ExpressionTail|..];
      Some(t)
    else None
  }

  /** The term reaches the request verbatim: it can be read back out of the expression. */
  lemma SearchTermRoundTrip(bucket: string, key: string, exp: string)
    ensures SearchTerm(ScanObjectParams(bucket, key, exp).expression) == Some(exp)
  {
  }

  /** Two requests are the same exactly when they were built from the same bucket, key
      and term. */
  lemma ScanObjectParamsInjective(b1: string, k1: string, e1: string, b2: string, k2: string, e2: string)
    ensures ScanObjectParams(b1, k1, e1) == ScanObjectParams(b2, k2, e2) <==> b1 == b2 && k1 == k2 && e1 == e2
  {
    if ScanObjectParams(b1, k1, e1) == ScanObjectParams(b2, k2, e2) {
      SearchTermRoundTrip(b1, k1, e1);
      SearchTermRoundTrip(b2, k2, e2);
    }
  }

  /** Only the expression depends on the term: framing and compression are fixed by the
      key alone. */
  lemma OnlyExpressionDependsOnTerm(bucket: string, key: string, e1: string, e2: string)
    ensures ScanObjectParams(bucket, key, e1).(expression := "") == ScanObjectParams(bucket, key, e2).(expression := "")
  {
  }

  /** `isFolderKey`: the key ends in '/'. */
  function IsFolderKey(key: string): (r: bool)
    ensures r <==> |key| > 0 && key[|key| - 1] == '/'
  {
    HasSuffix(key, "/")
  }
}
