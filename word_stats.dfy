/**
 * samples/tapis_word_stats/pipeline_job/word_stats.py: the sample pipeline job.
 * It reads the manifest, counts the words of every file the manifest lists, and
 * writes one report block per file to `/TapisOutput/{JOB_ID}.out`.
 *
 * The environment and the container's files are inputs; the report is returned
 * with the path it is written to.
 */
module WordStats {
  import opened Wrappers
  import opened Errors
  import opened Text
  import opened Json
  import opened Configuration
  import opened Seqs

  type Env = map<string, string>

  const InputDataContainerDir: string := "/TapisInput"
  const OutputDataContainerDir: string := "/TapisOutput"
  const DefaultManifestPath: string := "/TapisInput/manifest.json"

  // ---------------------------------------------------------------------------
  // Paths
  // ---------------------------------------------------------------------------

  /**
   * The manifest path: TAPIS_MANIFEST_FILE_PATH, unless it is unset, empty or the
   * text "null", in which case the default path in the input directory.
   */
  function ManifestPath(env: Env): (p: string)
    ensures "TAPIS_MANIFEST_FILE_PATH" in env && env["TAPIS_MANIFEST_FILE_PATH"] !in {"", "null"} ==>
      p == env["TAPIS_MANIFEST_FILE_PATH"]
    ensures "TAPIS_MANIFEST_FILE_PATH" !in env || env["TAPIS_MANIFEST_FILE_PATH"] in {"", "null"} ==>
      p == DefaultManifestPath
  {
    var configured := if "TAPIS_MANIFEST_FILE_PATH" in env then env["TAPIS_MANIFEST_FILE_PATH"] else DefaultManifestPath;
    var path := if configured == "" then DefaultManifestPath else configured;
    if path == "null" then DefaultManifestPath else path
  }

  /** `os.path.join(a, b)` on POSIX: an absolute `b` replaces `a`; otherwise a '/' separates them when needed. */
  function PathJoin(a: string, b: string): (p: string)
    ensures StartsWith(b, "/") ==> p == b
    ensures !StartsWith(b, "/") ==> p == (if a == [] || a[|a| - 1] == '/' then a + b else a + "/" + b)
  {
    if |b| > 0 && b[0] == '/' then b
    else if a == [] || a[|a| - 1] == '/' then a + b
    else a + "/" + b
  }

  /** `str(JOB_ID)`: the `_tapisJobUUID` variable, or "None" when it is unset. */
  function JobIdText(env: Env): string
  {
    if "_tapisJobUUID" in env then env["_tapisJobUUID"] else "None"
  }

  /** Where the report is written: `{JOB_ID}.out` joined to the output directory. */
  function OutputPath(env: Env): string
  {
    PathJoin(OutputDataContainerDir, JobIdText(env) + ".out")
  }

  /** The report lands in /TapisOutput, named after the job, unless the job id is an absolute path. */
  lemma OutputPathInOutputDir(env: Env)
    requires !StartsWith(JobIdText(env), "/")
    ensures OutputPath(env) == "/TapisOutput/" + JobIdText(env) + ".out"
    ensures "_tapisJobUUID" !in env ==> OutputPath(env) == "/TapisOutput/None.out"
  {
    var id := JobIdText(env);
    if id != [] {
      assert id[..1] == [id[0]];
    }
    assert (id + ".out")[0] != '/';
  }

  // ---------------------------------------------------------------------------
  // Words
  // ---------------------------------------------------------------------------

  /** The characters Python's `str.split()` separates words at (those for which `str.isspace()` holds). */
  predicate IsSpace(c: char)
  {
    || ('\t' <= c <= '\r')
    || ('\U{1C}' <= c <= ' ')
    || c == '\U{85}' || c == '\U{A0}' || c == '\U{1680}'
    || ('\U{2000}' <= c <= '\U{200A}')
    || c == '\U{2028}' || c == '\U{2029}' || c == '\U{202F}' || c == '\U{205F}' || c == '\U{3000}'
  }

  predicate NoSpace(w: string)
  {
    forall i :: 0 <= i < |w| ==> !IsSpace(w[i])
  }

  /** How many whitespace characters the text starts with. */
  function LeadingSpaces(s: string): (n: nat)
    ensures n <= |s|
    ensures forall j :: 0 <= j < n ==> IsSpace(s[j])
    ensures n == |s| || !IsSpace(s[n])
  {
    if s == [] || !IsSpace(s[0]) then 0 else 1 + LeadingSpaces(s[1..])
  }

  /** How many non-whitespace characters the text starts with. */
  function WordLength(s: string): (n: nat)
    ensures n <= |s|
    ensures forall j :: 0 <= j < n ==> !IsSpace(s[j])
    ensures n == |s| || IsSpace(s[n])
  {
    if s == [] || IsSpace(s[0]) then 0 else 1 + WordLength(s[1..])
  }

  /** `text.split()`: the maximal runs of non-whitespace characters, in order. */
  function Words(text: string): seq<string>
    decreases |text|
  {
    var i := LeadingSpaces(text);
    if i == |text| then []
    else
      var t := text[i..];
      var n := WordLength(t);
      [t[..n]] + Words(t[n..])
  }

  /** Every word is a non-empty run of non-whitespace characters. */
  lemma {:induction false} WordsAreRuns(text: string)
    ensures forall k :: 0 <= k < |Words(text)| ==> Words(text)[k] != [] && NoSpace(Words(text)[k])
    decreases |text|
  {
    var i := LeadingSpaces(text);
    if i < |text| {
      var t := text[i..];
      var n := WordLength(t);
      assert t[0] == text[i];
      WordsAreRuns(t[n..]);
      var ws := Words(text);
      assert ws == [t[..n]] + Words(t[n..]);
      forall k | 0 <= k < |ws|
        ensures ws[k] != [] && NoSpace(ws[k])
      {
        if k > 0 {
          assert ws[k] == Words(t[n..])[k - 1];
        }
      }
    }
  }

  /** `len(text.split())`. */
  function WordCount(text: string): nat
  {
    |Words(text)|
  }

  /** The number of word starts: non-whitespace characters at the start or after whitespace. */
  function CountStarts(s: string, afterSpace: bool): nat
  {
    if s == [] then 0
    else (if afterSpace && !IsSpace(s[0]) then 1 else 0) + CountStarts(s[1..], IsSpace(s[0]))
  }

  /** Inside a word nothing starts until the word ends. */
  lemma {:induction false} CountStartsInsideWord(t: string)
    ensures CountStarts(t, false) == CountStarts(t[WordLength(t)..], true)
    decreases |t|
  {
    if t != [] && !IsSpace(t[0]) {
      CountStartsInsideWord(t[1..]);
      assert t[WordLength(t)..] == t[1..][WordLength(t[1..])..];
    }
  }

  /** Leading whitespace starts nothing. */
  lemma {:induction false} CountStartsLeadingSpaces(s: string)
    ensures CountStarts(s, true) == CountStarts(s[LeadingSpaces(s)..], true)
    decreases |s|
  {
    if s != [] && IsSpace(s[0]) {
      CountStartsLeadingSpaces(s[1..]);
      assert s[LeadingSpaces(s)..] == s[1..][LeadingSpaces(s[1..])..];
    }
  }

  /** The word count is the number of maximal runs of non-whitespace characters. */
  lemma {:induction false} WordCountIsRunCount(text: string)
    ensures WordCount(text) == CountStarts(text, true)
    decreases |text|
  {
    CountStartsLeadingSpaces(text);
    var i := LeadingSpaces(text);
    if i < |text| {
      var t := text[i..];
      var n := WordLength(t);
      CountStartsInsideWord(t[1..]);
      assert t[n..] == t[1..][WordLength(t[1..])..];
      WordCountIsRunCount(t[n..]);
    }
  }

  /** The characters that are not whitespace, in order. */
  function NonSpace(s: string): string
  {
    if s == [] then [] else (if IsSpace(s[0]) then [] else [s[0]]) + NonSpace(s[1..])
  }

  function Concat(ws: seq<string>): string
  {
    if ws == [] then [] else ws[0] + Concat(ws[1..])
  }

  lemma {:induction false} NonSpaceAppend(a: string, b: string)
    ensures NonSpace(a + b) == NonSpace(a) + NonSpace(b)
    decreases |a|
  {
    if a != [] {
      assert (a + b)[1..] == a[1..] + b;
      NonSpaceAppend(a[1..], b);
    } else {
      assert a + b == b;
    }
  }

  lemma {:induction false} NonSpaceOfWord(w: string)
    requires NoSpace(w)
    ensures NonSpace(w) == w
    decreases |w|
  {
    if w != [] {
      NonSpaceOfWord(w[1..]);
    }
  }

  lemma {:induction false} NonSpaceOfBlank(s: string)
    requires Blank(s)
    ensures NonSpace(s) == []
    decreases |s|
  {
    if s != [] {
      NonSpaceOfBlank(s[1..]);
    }
  }

  /** Splitting loses no character but whitespace: the words put together are the non-whitespace characters. */
  lemma ConcatCons(w: string, ws: seq<string>)
    ensures Concat([w] + ws) == w + Concat(ws)
  {
    assert ([w] + ws)[1..] == ws;
  }

  /** Leading whitespace contributes no character. */
  lemma NonSpaceSkipsLeading(text: string)
    ensures NonSpace(text) == NonSpace(text[LeadingSpaces(text)..])
  {
    var i := LeadingSpaces(text);
    SplitAt(text, i);
    NonSpaceAppend(text[..i], text[i..]);
    assert Blank(text[..i]);
    NonSpaceOfBlank(text[..i]);
  }

  /** A leading word contributes all of its characters. */
  lemma NonSpaceKeepsWord(t: string)
    ensures NonSpace(t) == t[..WordLength(t)] + NonSpace(t[WordLength(t)..])
  {
    var n := WordLength(t);
    SplitAt(t, n);
    NonSpaceAppend(t[..n], t[n..]);
    NonSpaceOfWord(t[..n]);
  }

  lemma {:induction false} WordsKeepCharacters(text: string)
    ensures Concat(Words(text)) == NonSpace(text)
    decreases |text|
  {
    var i := LeadingSpaces(text);
    var t := text[i..];
    NonSpaceSkipsLeading(text);
    if i < |text| {
      var n := WordLength(t);
      NonSpaceKeepsWord(t);
      WordsKeepCharacters(t[n..]);
      WordsUnfold(text);
      ConcatCons(t[..n], Words(t[n..]));
    } else {
      assert t == [];
    }
  }

  /** A text has no words exactly when it is all whitespace (the empty text included). */
  lemma NoWordsIffBlank(text: string)
    ensures WordCount(text) == 0 <==> Blank(text)
  {
  }

  /** Leading whitespace of `a + u`: past all of `a` when `a` is blank, else that of `a`. */
  lemma {:induction false} LeadingSpacesAppend(a: string, u: string)
    ensures Blank(a) ==> LeadingSpaces(a + u) == |a| + LeadingSpaces(u)
    ensures LeadingSpaces(a) < |a| ==> LeadingSpaces(a + u) == LeadingSpaces(a)
    decreases |a|
  {
    if a == [] {
      assert a + u == u;
    } else {
      assert (a + u)[0] == a[0] && (a + u)[1..] == a[1..] + u;
      LeadingSpacesAppend(a[1..], u);
      if Blank(a) {
        assert Blank(a[1..]);
      }
    }
  }

  /** A word of `t` ends where it did when whitespace follows `t`. */
  lemma {:induction false} WordLengthAppend(t: string, u: string)
    requires u != [] && IsSpace(u[0])
    ensures WordLength(t + u) == WordLength(t)
    decreases |t|
  {
    if t == [] {
      assert t + u == u;
    } else {
      assert (t + u)[0] == t[0] && (t + u)[1..] == t[1..] + u;
      WordLengthAppend(t[1..], u);
    }
  }

  predicate Blank(s: string)
  {
    forall i :: 0 <= i < |s| ==> IsSpace(s[i])
  }

  /** One step of the split: the first word, then the words of the rest. */
  lemma WordsUnfold(s: string)
    requires LeadingSpaces(s) < |s|
    ensures var t := s[LeadingSpaces(s)..];
      Words(s) == [t[..WordLength(t)]] + Words(t[WordLength(t)..])
  {
  }

  /** Whitespace in front of a text adds no word. */
  lemma WordsAfterBlank(a: string, u: string)
    requires Blank(a)
    ensures Words(a + u) == Words(u)
  {
    LeadingSpacesAppend(a, u);
    var k := LeadingSpaces(u);
    var t := u[k..];
    DropPastPrefix(a, u, k);
    assert (a + u)[LeadingSpaces(a + u)..] == t;
    if k < |u| {
      calc {
        Words(a + u);
      == { WordsUnfold(a + u); }
        [t[..WordLength(t)]] + Words(t[WordLength(t)..]);
      == { WordsUnfold(u); }
        Words(u);
      }
    }
  }

  /** The first word of `a` is the first word of `a + u` when `u` starts with whitespace. */
  lemma WordsFirstWordBeforeSpace(a: string, u: string)
    requires LeadingSpaces(a) < |a| && u != [] && IsSpace(u[0])
    ensures var ta := a[LeadingSpaces(a)..];
      && Words(a) == [ta[..WordLength(ta)]] + Words(ta[WordLength(ta)..])
      && Words(a + u) == [ta[..WordLength(ta)]] + Words(ta[WordLength(ta)..] + u)
  {
    LeadingSpacesAppend(a, u);
    var i := LeadingSpaces(a);
    var ta := a[i..];
    DropAppend(a, u, i);
    WordLengthAppend(ta, u);
    var n := WordLength(ta);
    TakeAppend(ta, u, n);
    DropAppend(ta, u, n);
    WordsUnfold(a + u);
    WordsUnfold(a);
  }

  /** Whitespace in the middle splits the words: `(a + c + b).split() == a.split() + b.split()`. */
  lemma {:induction false} WordsSplitAtSpace(a: string, c: char, b: string)
    requires IsSpace(c)
    ensures Words(a + [c] + b) == Words(a) + Words(b)
    decreases |a|
  {
    var u := [c] + b;
    AppendAssociates(a, [c], b);
    WordsAfterBlank([c], b);
    var i := LeadingSpaces(a);
    if i == |a| {
      assert Blank(a);
      WordsAfterBlank(a, u);
      WordsAfterBlank(a, []);
      assert a + [] == a;
      assert Words(a) + Words(b) == Words(b);
    } else {
      var ta := a[i..];
      var w := ta[..WordLength(ta)];
      var rest := ta[WordLength(ta)..];
      WordsFirstWordBeforeSpace(a, u);
      WordsSplitAtSpace(rest, c, b);
      AppendAssociates(rest, [c], b);
      AppendAssociates([w], Words(rest), Words(b));
    }
  }

  // ---------------------------------------------------------------------------
  // Stats
  // ---------------------------------------------------------------------------

  /** The `stats` dict: file path to word count, in insertion order. */
  type Stats = seq<(string, nat)>

  function Keys(st: Stats): seq<string>
  {
    seq(|st|, i requires 0 <= i < |st| => st[i].0)
  }

  predicate DistinctKeys(st: Stats)
  {
    forall i, j :: 0 <= i < j < |st| ==> st[i].0 != st[j].0
  }

  /** Where key `k` sits in the stats. */
  function KeyIndex(st: Stats, k: string): (r: Option<nat>)
    ensures r.Some? ==> r.value < |st| && st[r.value].0 == k
    ensures r.None? ==> forall i :: 0 <= i < |st| ==> st[i].0 != k
  {
    if st == [] then None
    else if st[|st| - 1].0 == k then Some(|st| - 1)
    else KeyIndex(st[..|st| - 1], k)
  }

  /** `stats.get(k)`. */
  function Get(st: Stats, k: string): (r: Option<nat>)
    ensures r.None? <==> k !in Keys(st)
    ensures DistinctKeys(st) ==> forall i :: 0 <= i < |st| && st[i].0 == k ==> r == Some(st[i].1)
  {
    match KeyIndex(st, k)
    case Some(i) => assert Keys(st)[i] == k; Some(st[i].1)
    case None => assert k !in Keys(st); None
  }

  /**
   * `stats[k] = v`: a new key goes last; an existing key keeps its place and gets
   * the new value; every other key keeps its value.
   */
  function Put(st: Stats, k: string, v: nat): (r: Stats)
    requires DistinctKeys(st)
    ensures Keys(r) == if k in Keys(st) then Keys(st) else Keys(st) + [k]
    ensures DistinctKeys(r)
    ensures Get(r, k) == Some(v)
    ensures forall k' :: k' != k ==> Get(r, k') == Get(st, k')
  {
    match KeyIndex(st, k)
    case Some(i) =>
      assert Keys(st)[i] == k;
      assert Keys(st[i := (k, v)]) == Keys(st);
      st[i := (k, v)]
    case None =>
      assert k !in Keys(st);
      assert Keys(st + [(k, v)]) == Keys(st) + [k];
      st + [(k, v)]
  }

  /** The text `os.path.join` is given for a record's `file_path`, or what raises instead. */
  function RecordPath(record: Json): (r: Result<string, Raised>)
    ensures r.Success? <==> Subscript(record, "file_path").Success? && Subscript(record, "file_path").value.JStr?
  {
    var path :- Subscript(record, "file_path");
    if path.JStr? then Success(path.s)
    else Failure(TypeError("expected str, bytes or os.PathLike object, not " + TypeName(path)))
  }

  function TypeName(j: Json): string
  {
    match j
    case JNull => "NoneType"
    case JBool(_) => "bool"
    case JNum(_) => "int"
    case JStr(_) => "str"
    case JArr(_) => "list"
    case JObj(_) => "dict"
  }

  /** `get_stats_for_file`: the word count of the file at the path; opening a missing or unreadable file raises. */
  function StatsForFile(path: string, fs: FileSystem): (r: Result<nat, Raised>)
    ensures r.Success? <==> path in fs && fs[path].Some?
    ensures r.Success? ==> r.value == WordCount(fs[path].value)
  {
    if path in fs && fs[path].Some? then Success(WordCount(fs[path].value))
    else Failure(ForeignError("could not read " + path))
  }

  /** One turn of the stats loop: the record's path and the word count of its file under /TapisInput. */
  function FileEntryStats(record: Json, fs: FileSystem): Result<(string, nat), Raised>
  {
    var path :- RecordPath(record);
    var count :- StatsForFile(PathJoin(InputDataContainerDir, path), fs);
    Success((path, count))
  }

  /** The `stats` dict after the loop over the records, or the first error raised. */
  function StatsFor(records: seq<Json>, fs: FileSystem): (r: Result<Stats, Raised>)
    ensures r.Success? ==> DistinctKeys(r.value) && |r.value| <= |records|
    decreases |records|
  {
    if records == [] then Success([])
    else
      var prev :- StatsFor(records[..|records| - 1], fs);
      var entry :- FileEntryStats(records[|records| - 1], fs);
      Success(Put(prev, entry.0, entry.1))
  }

  /** The keys after one more record: the keys before, and that record's path. */
  lemma StatsStep(records: seq<Json>, fs: FileSystem)
    requires records != [] && StatsFor(records, fs).Success?
    ensures var init := records[..|records| - 1];
      && StatsFor(init, fs).Success?
      && RecordPath(records[|records| - 1]).Success?
      && forall k :: k in Keys(StatsFor(records, fs).value) <==>
           k in Keys(StatsFor(init, fs).value) || k == RecordPath(records[|records| - 1]).value
  {
  }

  /** Every record's `file_path` is a key of the stats. */
  lemma {:induction false} EveryPathIsKey(records: seq<Json>, fs: FileSystem)
    requires StatsFor(records, fs).Success?
    ensures forall i :: 0 <= i < |records| ==>
      RecordPath(records[i]).Success? && RecordPath(records[i]).value in Keys(StatsFor(records, fs).value)
    decreases |records|
  {
    if records != [] {
      var init := records[..|records| - 1];
      StatsStep(records, fs);
      EveryPathIsKey(init, fs);
      forall i | 0 <= i < |records| - 1
        ensures records[i] == init[i]
      {
      }
    }
  }

  /** Every key of the stats is some record's `file_path`. */
  lemma {:induction false} EveryKeyIsPath(records: seq<Json>, fs: FileSystem)
    requires StatsFor(records, fs).Success?
    ensures forall k :: k in Keys(StatsFor(records, fs).value) ==>
      exists i :: 0 <= i < |records| && RecordPath(records[i]) == Success(k)
    decreases |records|
  {
    if records != [] {
      var init := records[..|records| - 1];
      StatsStep(records, fs);
      EveryKeyIsPath(init, fs);
      forall k | k in Keys(StatsFor(records, fs).value)
        ensures exists i :: 0 <= i < |records| && RecordPath(records[i]) == Success(k)
      {
        if k in Keys(StatsFor(init, fs).value) {
          var i :| 0 <= i < |init| && RecordPath(init[i]) == Success(k);
          assert records[i] == init[i];
        } else {
          assert RecordPath(records[|records| - 1]) == Success(k);
        }
      }
    }
  }

  /**
   * A later record with a path already seen overwrites that path's count in place:
   * the keys and their order stay, the count is the later file's.
   */
  lemma LaterDuplicateOverwrites(records: seq<Json>, record: Json, fs: FileSystem)
    requires StatsFor(records + [record], fs).Success?
    ensures var before := StatsFor(records, fs).value;
      var after := StatsFor(records + [record], fs).value;
      var entry := FileEntryStats(record, fs).value;
      && (entry.0 in Keys(before) ==> Keys(after) == Keys(before))
      && Get(after, entry.0) == Some(entry.1)
  {
    assert (records + [record])[..|records|] == records;
  }

  /** Once a record raises, the stats loop stops there: no later record changes the outcome. */
  lemma {:induction false} StatsFailurePersists(records: seq<Json>, j: nat, fs: FileSystem)
    requires j <= |records| && StatsFor(records[..j], fs).Failure?
    ensures StatsFor(records, fs) == StatsFor(records[..j], fs)
    decreases |records| - j
  {
    if j == |records| {
      assert records[..j] == records;
    } else {
      var init := records[..|records| - 1];
      assert init[..j] == records[..j];
      StatsFailurePersists(init, j, fs);
    }
  }

  /** One more record: the stats so far updated with its path and count, or what it raises. */
  lemma StatsForStep(records: seq<Json>, i: nat, fs: FileSystem)
    requires i < |records| && StatsFor(records[..i], fs).Success?
    ensures StatsFor(records[..i + 1], fs)
      == match FileEntryStats(records[i], fs)
         case Failure(e) => Failure(e)
         case Success(entry) => Success(Put(StatsFor(records[..i], fs).value, entry.0, entry.1))
  {
    assert records[..i + 1][..i] == records[..i];
  }

  /** The first loop of the job: fill `stats`, one record after the other. */
  method BuildStats(records: seq<Json>, fs: FileSystem) returns (r: Result<Stats, Raised>)
    ensures r == StatsFor(records, fs)
  {
    var stats: Stats := [];
    var i := 0;
    while i < |records|
      invariant 0 <= i <= |records|
      invariant StatsFor(records[..i], fs) == Success(stats)
    {
      StatsForStep(records, i, fs);
      var entry := FileEntryStats(records[i], fs);
      if entry.Failure? {
        StatsFailurePersists(records, i + 1, fs);
        return Failure(entry.error);
      }
      stats := Put(stats, entry.value.0, entry.value.1);
      i := i + 1;
    }
    assert records[..|records|] == records;
    return Success(stats);
  }

  // ---------------------------------------------------------------------------
  // Report
  // ---------------------------------------------------------------------------

  const Rule: string := "\n******\n "
  const WordsLabel: string := "words: "

  /** The block written for one file: its path, a rule, and its word count. */
  function Block(path: string, count: nat): string
  {
    path + Rule + WordsLabel + NatToString(count) + "\n\n"
  }

  /** The report: the blocks of the stats in insertion order. */
  function Report(st: Stats): string
    decreases |st|
  {
    if st == [] then "" else Report(st[..|st| - 1]) + Block(st[|st| - 1].0, st[|st| - 1].1)
  }

  /** The report of two runs of stats is the two reports one after the other. */
  lemma {:induction false} ReportAppend(a: Stats, b: Stats)
    ensures Report(a + b) == Report(a) + Report(b)
    decreases |b|
  {
    if b == [] {
      assert a + b == a;
    } else {
      var b' := b[..|b| - 1];
      DropLastAppend(a, b);
      ReportAppend(a, b');
      AppendAssociates(Report(a), Report(b'), Block(b[|b| - 1].0, b[|b| - 1].1));
    }
  }

  /** A block starts with the path and ends with the count, which reads back from the digits it holds. */
  lemma BlockReadsBack(path: string, count: nat)
    ensures var b := Block(path, count);
      && |b| == |path| + |Rule| + |WordsLabel| + |NatToString(count)| + 2
      && b[..|path|] == path
      && b[|path|..|path| + |Rule| + |WordsLabel|] == Rule + WordsLabel
      && b[|path| + |Rule| + |WordsLabel|..|b| - 2] == NatToString(count)
      && ParseDigits(b[|path| + |Rule| + |WordsLabel|..|b| - 2]) == count
  {
    var b := Block(path, count);
    assert b == path + (Rule + WordsLabel) + NatToString(count) + "\n\n";
    ParseNatToString(count);
  }

  /** The second loop of the job: write the two parts of each block, in insertion order. */
  method WriteReport(st: Stats) returns (out: string)
    ensures out == Report(st)
  {
    out := "";
    var i := 0;
    while i < |st|
      invariant 0 <= i <= |st|
      invariant out == Report(st[..i])
    {
      assert st[..i + 1][..i] == st[..i];
      var (k, v) := st[i];
      var words := NatToString(v);
      out := out + (k + Rule);
      out := out + (WordsLabel + words + "\n\n");
      i := i + 1;
    }
    assert st[..|st|] == st;
  }

  // ---------------------------------------------------------------------------
  // The job
  // ---------------------------------------------------------------------------

  /** What the job writes, and where, or the error that stops it. */
  function JobOutput(env: Env, fs: FileSystem, codec: JsonCodec, manifestSchema: Validator): Result<(string, string), Raised>
  {
    var manifest :- ParseManifestFile(ManifestPath(env), fs, codec, manifestSchema);
    var files :- Attribute(manifest, "files");
    var records :- FileRecords(files);
    var stats :- StatsFor(records, fs);
    Success((OutputPath(env), Report(stats)))
  }

  /** A manifest without a `files` attribute stops the job with AttributeError before any file is read. */
  lemma MissingFilesAttribute(env: Env, fs: FileSystem, codec: JsonCodec, manifestSchema: Validator)
    requires ParseManifestFile(ManifestPath(env), fs, codec, manifestSchema).Success?
    requires "files" !in ParseManifestFile(ManifestPath(env), fs, codec, manifestSchema).value
    ensures JobOutput(env, fs, codec, manifestSchema) == Failure(AttributeError("files"))
  {
  }

  /** The job: parse the manifest, fill the stats, and produce the report for the output path. */
  method RunWordStats(env: Env, fs: FileSystem, codec: JsonCodec, manifestSchema: Validator) returns (r: Result<(string, string), Raised>)
    ensures r == JobOutput(env, fs, codec, manifestSchema)
  {
    var manifest := ParseManifestFile(ManifestPath(env), fs, codec, manifestSchema);
    if manifest.Failure? {
      return Failure(manifest.error);
    }
    var config := new Config(manifest.value);
    var files := config.GetAttr("files");
    if files.Failure? {
      return Failure(files.error);
    }
    var records := FileRecords(files.value);
    if records.Failure? {
      return Failure(records.error);
    }
    var stats := BuildStats(records.value, fs);
    if stats.Failure? {
      return Failure(stats.error);
    }
    var report := WriteReport(stats.value);
    return Success((OutputPath(env), report));
  }
}
