/** The CSV reader for logistic regression: the first line holds the `;`-separated argument
    names (the last being the class column), every later line one sample whose last field
    is its class. */
module LogisticRegressionCsv {
  import opened JavaLang
  import opened JavaStrings
  import opened LogisticRegressionData

  /** `Double.valueOf`, which lies outside the model: `None` stands for the
      `NumberFormatException` it throws on a field that is not a number. */
  type DoubleParser = string -> Option<real>

  /** What a generated dataset holds. */
  datatype Contents = Contents(argNames: seq<string>, samples: seq<seq<real>>, labels: seq<real>)

  /** The argument names of a header line: its fields, each without carriage returns. */
  function HeaderNames(line: string): (names: seq<string>)
    ensures |names| == |Split(line, ';')|
    ensures forall k :: 0 <= k < |names| ==> '\r' !in names[k] && ';' !in names[k]
  {
    HeaderFieldsClean(Split(line, ';'), line);
    seq(|Split(line, ';')|, k requires 0 <= k < |Split(line, ';')| => RemoveAll(Split(line, ';')[k], '\r'))
  }

  lemma HeaderFieldsClean(fields: seq<string>, line: string)
    requires fields == Split(line, ';')
    ensures forall k :: 0 <= k < |fields| ==> ';' !in RemoveAll(fields[k], '\r')
  {
    SplitIsPrefixOfSplitAll(line, ';');
    forall k | 0 <= k < |fields|
      ensures ';' !in RemoveAll(fields[k], '\r')
    {
      assert multiset(fields[k])[';'] == 0;
    }
  }

  /** The class of a sample: 1 exactly when its last field, less carriage returns, is "1". */
  function Label(field: string): (y: real)
    ensures y == 0.0 || y == 1.0
    ensures y == 1.0 <==> RemoveAll(field, '\r') == "1"
  {
    if RemoveAll(field, '\r') == "1" then 1.0 else 0.0
  }

  /** The fields parsed in order; `None` as soon as one of them is not a number. */
  function ParseValues(fields: seq<string>, parse: DoubleParser): (r: Option<seq<real>>)
    ensures r.Some? <==> forall k :: 0 <= k < |fields| ==> parse(fields[k]).Some?
    ensures r.Some? ==> |r.value| == |fields|
    ensures r.Some? ==> forall k :: 0 <= k < |fields| ==> parse(fields[k]) == Some(r.value[k])
  {
    if |fields| == 0 then Some([])
    else
      match ParseValues(fields[..|fields| - 1], parse)
      case None => None
      case Some(vs) =>
        match parse(fields[|fields| - 1])
        case None => None
        case Some(v) => Some(vs + [v])
  }

  /** One data line: every field but the last is a value, the last is the class. A line of
      separators only has no fields at all, and reading its last field throws. */
  function ParseRecord(line: string, parse: DoubleParser): (r: Result<(seq<real>, real)>)
    ensures r.Ok? ==> |r.value.0| + 1 == |Split(line, ';')|
    ensures r.Ok? ==> r.value.1 == 0.0 || r.value.1 == 1.0
    ensures r.Ok? ==> var fields := Split(line, ';');
                      ParseValues(fields[..|fields| - 1], parse) == Some(r.value.0) &&
                      r.value.1 == Label(fields[|fields| - 1])
    ensures r == Throws(IndexOutOfBounds) <==> Split(line, ';') == []
    ensures r == Throws(NumberFormat) <==>
              var fields := Split(line, ';');
              |fields| > 0 && exists k :: 0 <= k < |fields| - 1 && parse(fields[k]).None?
    ensures r.Throws? ==> r.error in {IndexOutOfBounds, NumberFormat}
  {
    var fields := Split(line, ';');
    if |fields| == 0 then Throws(IndexOutOfBounds)
    else
      match ParseValues(fields[..|fields| - 1], parse)
      case None => Throws(NumberFormat)
      case Some(vs) => Ok((vs, Label(fields[|fields| - 1])))
  }

  /** The data lines in order; the first line that fails decides the exception. */
  function ParseRecords(lines: seq<string>, parse: DoubleParser): (r: Result<(seq<seq<real>>, seq<real>)>)
    ensures r.Ok? ==> |r.value.0| == |r.value.1| == |lines|
    ensures r.Throws? ==> r.error in {IndexOutOfBounds, NumberFormat}
  {
    if |lines| == 0 then Ok(([], []))
    else
      match ParseRecords(lines[..|lines| - 1], parse)
      case Throws(e) => Throws(e)
      case Ok(done) =>
        match ParseRecord(lines[|lines| - 1], parse)
        case Throws(e) => Throws(e)
        case Ok(rec) => Ok((done.0 + [rec.0], done.1 + [rec.1]))
  }

  /** Each data line yields exactly one sample and one label, kept in line order, and the
      parse fails exactly when some line fails. */
  lemma {:induction false} ParseRecordsLineByLine(lines: seq<string>, parse: DoubleParser)
    ensures ParseRecords(lines, parse).Ok? <==> forall k :: 0 <= k < |lines| ==> ParseRecord(lines[k], parse).Ok?
    ensures ParseRecords(lines, parse).Ok? ==>
              |ParseRecords(lines, parse).value.0| == |ParseRecords(lines, parse).value.1| == |lines|
    ensures ParseRecords(lines, parse).Ok? ==>
              forall k :: 0 <= k < |lines| ==>
                ParseRecord(lines[k], parse) == Ok((ParseRecords(lines, parse).value.0[k], ParseRecords(lines, parse).value.1[k]))
  {
    if |lines| > 0 {
      var init := lines[..|lines| - 1];
      ParseRecordsLineByLine(init, parse);
      var prev := ParseRecords(init, parse);
      var last := ParseRecord(lines[|lines| - 1], parse);
      if prev.Throws? {
        var k :| 0 <= k < |init| && !ParseRecord(init[k], parse).Ok?;
        assert lines[k] == init[k];
        assert ParseRecords(lines, parse).Throws?;
      } else if last.Throws? {
        assert ParseRecords(lines, parse).Throws?;
      } else {
        var whole := ParseRecords(lines, parse);
        assert whole == Ok((prev.value.0 + [last.value.0], prev.value.1 + [last.value.1]));
        forall k | 0 <= k < |lines|
          ensures ParseRecord(lines[k], parse) == Ok((whole.value.0[k], whole.value.1[k]))
        {
          if k < |init| {
            assert lines[k] == init[k];
          }
        }
      }
    }
  }

  /** Once a line fails after lines that parse, what follows it does not matter. */
  lemma {:induction false} FirstFailureDecides(lines: seq<string>, n: nat, parse: DoubleParser)
    requires n < |lines| && ParseRecords(lines[..n], parse).Ok? && ParseRecord(lines[n], parse).Throws?
    ensures ParseRecords(lines, parse) == Throws(ParseRecord(lines[n], parse).error)
    decreases |lines|
  {
    var init := lines[..|lines| - 1];
    if |lines| == n + 1 {
      assert init == lines[..n] && lines[|lines| - 1] == lines[n];
    } else {
      assert init[..n] == lines[..n] && init[n] == lines[n];
      FirstFailureDecides(init, n, parse);
      assert ParseRecords(init, parse).Throws?;
    }
  }

  /** The dataset `datasetGenerate` returns for the given lines, or what it throws: with no
      line at all `lines[0]` throws, and with the header alone `setSamples` does. */
  function Generate(lines: seq<string>, parse: DoubleParser): (r: Result<Contents>)
    ensures |lines| == 0 ==> r == Throws(IndexOutOfBounds)
    ensures r.Throws? ==> r.error in {IndexOutOfBounds, NumberFormat}
    ensures r.Ok? ==> |lines| > 0 && r.value.argNames == HeaderNames(lines[0])
    ensures r.Ok? ==> |r.value.samples| == |r.value.labels| && (r.value.samples == [] || |r.value.samples| == |lines| - 1)
  {
    if |lines| == 0 then Throws(IndexOutOfBounds)
    else
      var names := HeaderNames(lines[0]);
      match ParseRecords(lines[1..], parse)
      case Throws(e) => Throws(e)
      case Ok((xs, ys)) =>
        match Accepts(names, xs, ys)
        case Throws(e) => Throws(e)
        case Ok(stored) => Ok(if stored then Contents(names, xs, ys) else Contents(names, [], []))
  }

  /** A file of a header line alone cannot be read: `setSamples` is given no samples. */
  lemma HeaderOnlyThrows(header: string, parse: DoubleParser)
    ensures Generate([header], parse) == Throws(IndexOutOfBounds)
  {
  }

  /** What a successful read holds: the header's names; and either no samples, when the first
      data line's value count is not the name count less one, or one sample and one label per
      data line in line order, every label 0 or 1. */
  lemma GenerateContents(lines: seq<string>, parse: DoubleParser)
    requires Generate(lines, parse).Ok?
    ensures |lines| >= 2 && ParseRecord(lines[1], parse).Ok?
    ensures Generate(lines, parse).value.argNames == HeaderNames(lines[0])
    ensures var c := Generate(lines, parse).value;
            var first := ParseRecord(lines[1], parse).value.0;
            if |first| + 1 != |HeaderNames(lines[0])| then c.samples == [] && c.labels == []
            else
              && |c.samples| == |c.labels| == |lines| - 1
              && forall k :: 1 <= k < |lines| ==> ParseRecord(lines[k], parse) == Ok((c.samples[k - 1], c.labels[k - 1]))
    ensures forall k :: 0 <= k < |Generate(lines, parse).value.labels| ==>
              Generate(lines, parse).value.labels[k] in {0.0, 1.0}
  {
    ParseRecordsLineByLine(lines[1..], parse);
    var (xs, ys) := ParseRecords(lines[1..], parse).value;
    assert |xs| > 0;
    assert lines[1..][0] == lines[1];
    forall k | 1 <= k < |lines|
      ensures ParseRecord(lines[k], parse) == Ok((xs[k - 1], ys[k - 1]))
    {
      assert lines[1..][k - 1] == lines[k];
    }
  }

  /** The loop over the header's fields. */
  method ReadHeader(line: string) returns (argNames: seq<string>)
    ensures argNames == HeaderNames(line)
    ensures |argNames| == |Split(line, ';')|
    ensures forall k :: 0 <= k < |argNames| ==> argNames[k] == RemoveAll(Split(line, ';')[k], '\r')
  {
    var argLine := Split(line, ';');
    argNames := [];
    var i := 0;
    while i < |argLine|
      invariant 0 <= i <= |argLine|
      invariant |argNames| == i
      invariant forall k :: 0 <= k < i ==> argNames[k] == RemoveAll(argLine[k], '\r')
    {
      var str := argLine[i];
      if '\r' in str {
        str := RemoveAll(str, '\r');
      } else {
        RemoveAllAbsent(str, '\r');
      }
      argNames := argNames + [str];
      i := i + 1;
    }
  }

  /** The body of the loop over the data lines: the values, then the class. */
  method ReadRecord(text: string, parse: DoubleParser) returns (r: Result<(seq<real>, real)>)
    ensures r == ParseRecord(text, parse)
  {
    var line := Split(text, ';');
    var argValues: seq<real> := [];
    var j := 0;
    while j < |line| - 1
      invariant 0 <= j && (j <= |line| - 1 || j == 0)
      invariant ParseValues(line[..j], parse) == Some(argValues)
    {
      assert line[..j + 1][..j] == line[..j];
      match parse(line[j])
      case None =>
        assert line[..|line| - 1][..j] == line[..j] && line[..|line| - 1][j] == line[j];
        NumberFormatAtField(line[..|line| - 1], j, parse);
        return Throws(NumberFormat);
      case Some(v) =>
        argValues := argValues + [v];
      j := j + 1;
    }
    if |line| == 0 {
      return Throws(IndexOutOfBounds);
    }
    assert line[..j] == line[..|line| - 1];
    var classification := 0.0;
    var str := RemoveAll(line[|line| - 1], '\r');
    if str == "1" {
      classification := 1.0;
    }
    r := Ok((argValues, classification));
  }

  /** A field that fails to parse, after fields that parse, makes the whole line fail. */
  lemma {:induction false} NumberFormatAtField(fields: seq<string>, j: nat, parse: DoubleParser)
    requires j < |fields| && ParseValues(fields[..j], parse).Some? && parse(fields[j]).None?
    ensures ParseValues(fields, parse).None?
  {
    assert fields[j] == fields[..|fields|][j];
  }

  /** The loop over the data lines (every line after the header). */
  method ReadSamples(lines: seq<string>, parse: DoubleParser)
    returns (r: Result<(seq<seq<real>>, seq<real>)>)
    requires |lines| >= 1
    ensures r == ParseRecords(lines[1..], parse)
  {
    var samples: seq<seq<real>> := [];
    var samplesClassification: seq<real> := [];
    var i := 1;
    while i < |lines|
      invariant 1 <= i <= |lines|
      invariant ParseRecords(lines[1..i], parse) == Ok((samples, samplesClassification))
    {
      var record := ReadRecord(lines[i], parse);
      ParseRecordsStep(lines, i, parse);
      if record.Throws? {
        return Throws(record.error);
      }
      samples := samples + [record.value.0];
      samplesClassification := samplesClassification + [record.value.1];
      i := i + 1;
    }
    assert lines[1..i] == lines[1..];
    r := Ok((samples, samplesClassification));
  }

  /** One more data line: either it fails and decides the whole parse, or its sample and
      label are appended. */
  lemma ParseRecordsStep(lines: seq<string>, i: nat, parse: DoubleParser)
    requires 1 <= i < |lines| && ParseRecords(lines[1..i], parse).Ok?
    ensures ParseRecord(lines[i], parse).Throws? ==>
              ParseRecords(lines[1..], parse) == Throws(ParseRecord(lines[i], parse).error)
    ensures ParseRecord(lines[i], parse).Ok? ==>
              var done, rec := ParseRecords(lines[1..i], parse).value, ParseRecord(lines[i], parse).value;
              ParseRecords(lines[1..i + 1], parse) == Ok((done.0 + [rec.0], done.1 + [rec.1]))
  {
    var rest := lines[1..];
    assert rest[..i - 1] == lines[1..i] && rest[i - 1] == lines[i];
    if ParseRecord(lines[i], parse).Throws? {
      FirstFailureDecides(rest, i - 1, parse);
    } else {
      var next := lines[1..i + 1];
      assert next[..|next| - 1] == lines[1..i] && next[|next| - 1] == lines[i];
    }
  }

  /** `datasetGenerate`: the names from line 0, then the samples, handed to a fresh dataset. */
  method DatasetGenerate(lines: seq<string>, parse: DoubleParser)
    returns (r: Result<LogisticRegressionDataset>)
    ensures r.Throws? <==> Generate(lines, parse).Throws?
    ensures r.Throws? ==> r.error == Generate(lines, parse).error
    ensures r.Ok? ==> fresh(r.value) && r.value.Valid() && r.value.argSettingFinished
    ensures r.Ok? ==> Contents(r.value.argNames, r.value.samples, r.value.samplesClassification)
                      == Generate(lines, parse).value
  {
    if |lines| == 0 {
      return Throws(IndexOutOfBounds);
    }
    var dataset := new LogisticRegressionDataset();
    var argNames := ReadHeader(lines[0]);
    dataset.SetArgNames(argNames);
    var parsed := ReadSamples(lines, parse);
    if parsed.Throws? {
      return Throws(parsed.error);
    }
    var (samples, samplesClassification) := parsed.value;
    var stored := dataset.SetSamples(samples, samplesClassification);
    if stored.Throws? {
      return Throws(stored.error);
    }
    r := Ok(dataset);
  }

  /** `readData` on the file's content (reading the file lies outside the model): the content
      is split into lines on '\n', then generated. */
  method ReadData(content: string, parse: DoubleParser)
    returns (r: Result<LogisticRegressionDataset>)
    ensures r.Throws? <==> Generate(Split(content, '\n'), parse).Throws?
    ensures r.Throws? ==> r.error == Generate(Split(content, '\n'), parse).error
    ensures r.Ok? ==> fresh(r.value) && r.value.Valid() && r.value.argSettingFinished
    ensures r.Ok? ==> Contents(r.value.argNames, r.value.samples, r.value.samplesClassification)
                      == Generate(Split(content, '\n'), parse).value
  {
    var lines := Split(content, '\n');
    r := DatasetGenerate(lines, parse);
  }
}
