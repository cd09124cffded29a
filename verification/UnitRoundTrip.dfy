/** Printing a unit and reading it back, and reinstalling from what was read. */
module UnitRoundTrip {
  import opened Wrappers
  import opened Text
  import opened HostPort
  import opened Quote
  import opened UnitFile

  // ------------------------------------------------------------------- lines

  lemma {:induction false} UnlinesJoin(lines: seq<string>)
    ensures Unlines(lines) == Join(lines + [""], '\n')
  {
    if lines == [] {
    } else {
      UnlinesJoin(lines[1..]);
      assert (lines + [""])[1..] == lines[1..] + [""];
    }
  }

  predicate OneLine(s: string) { '\n' !in s }

  lemma SplitUnlines(lines: seq<string>)
    requires forall i :: 0 <= i < |lines| ==> OneLine(lines[i])
    ensures Split(Unlines(lines), '\n') == lines + [""]
  {
    UnlinesJoin(lines);
    SplitJoin(lines + [""], '\n');
  }

  // ----------------------------------------------------------------- markers

  lemma PrefixAt(line: string, p: string, k: nat)
    requires HasPrefix(line, p) && k < |p|
    ensures k < |line| && line[k] == p[k]
  {
    assert line[..|p|][k] == line[k];
  }

  /** Two texts that differ at some position cannot both begin one line. */
  lemma PrefixesClash(line: string, a: string, b: string, k: nat)
    requires k < |a| && k < |b| && a[k] != b[k]
    requires HasPrefix(line, a)
    ensures !HasPrefix(line, b)
  {
    PrefixAt(line, a, k);
    if HasPrefix(line, b) {
      PrefixAt(line, b, k);
    }
  }

  /** Where the texts of two markers first differ. */
  function Differ(a: Marker, b: Marker): nat {
    if {a, b} == {Listen, ListenMode} then 24 else 18
  }

  lemma MarkersDiffer(a: Marker, b: Marker)
    requires a != b
    ensures var k := Differ(a, b); k < |a.Text()| && k < |b.Text()| && a.Text()[k] != b.Text()[k]
  {
  }

  /** The parser's order of tests does not matter: a line that starts with a marker's text is
      read as that marker. */
  lemma {:induction false} FieldUnique(line: string, m: Marker)
    requires HasPrefix(line, m.Text())
    ensures FieldOf(line) == Some((m, Value(line, m)))
  {
    hide HasPrefix, Marker.Text, Value;
    forall k: Marker | k != m ensures !HasPrefix(line, k.Text()) {
      MarkersDiffer(m, k);
      PrefixesClash(line, m.Text(), k.Text(), Differ(m, k));
    }
  }

  lemma FieldOfPrinted(m: Marker, value: string)
    ensures FieldOf(m.Text() + value) == Some((m, TrimSpace(value)))
  {
    var line := m.Text() + value;
    assert line[..|m.Text()|] == m.Text() && line[|m.Text()|..] == value;
    FieldUnique(line, m);
  }

  /** A line that is not a comment. */
  predicate Directive(line: string) { line == "" || line[0] != '#' }

  lemma {:induction false} DirectiveIsInert(line: string)
    requires Directive(line)
    ensures FieldOf(line) == None && !HasPrefix(line, MANAGED_PREFIX)
  {
    hide HasPrefix, Value;
    forall m: Marker ensures !HasPrefix(line, m.Text()) {
      DirectiveLacks(line, m.Text());
    }
    DirectiveLacks(line, MANAGED_PREFIX);
  }

  lemma DirectiveLacks(line: string, comment: string)
    requires Directive(line) && comment != "" && comment[0] == '#'
    ensures !HasPrefix(line, comment)
  {
    PrefixHead(line, comment);
  }

  lemma PrefixHead(line: string, p: string)
    ensures p != "" && HasPrefix(line, p) ==> line != "" && line[0] == p[0]
  {
    if p != "" && HasPrefix(line, p) {
      PrefixAt(line, p, 0);
    }
  }

  // ------------------------------------------------------------------ values

  /** Fields that carry nothing change no value. */
  lemma {:induction false} ValuesInert(a: seq<Field>, b: seq<Field>, m: Marker)
    requires forall i :: 0 <= i < |b| ==> b[i] == None
    ensures Values(a + b, m) == Values(a, m)
  {
    if b == [] {
      assert a + b == a;
    } else {
      var n := |b| - 1;
      ValuesInert(a, b[..n], m);
      assert (a + b)[..|a + b| - 1] == a + b[..n];
    }
  }

  lemma FieldsConcat(a: seq<string>, b: seq<string>)
    ensures Fields(a + b) == Fields(a) + Fields(b)
  {
    hide FieldOf;
  }

  lemma {:induction false} CountConcat(a: seq<string>, b: seq<string>)
    ensures HeaderCount(a + b) == HeaderCount(a) + HeaderCount(b)
  {
    if b == [] {
      assert a + b == a;
    } else {
      var n := |b| - 1;
      CountConcat(a, b[..n]);
      assert (a + b)[..|a + b| - 1] == a + b[..n];
    }
  }

  lemma DirectivesAreInert(lines: seq<string>)
    requires forall i :: 0 <= i < |lines| ==> Directive(lines[i])
    ensures forall i :: 0 <= i < |lines| ==> Fields(lines)[i] == None
  {
    forall i | 0 <= i < |lines| ensures Fields(lines)[i] == None {
      DirectiveIsInert(lines[i]);
    }
  }

  lemma {:induction false} DirectivesHaveNoHeader(lines: seq<string>)
    requires forall i :: 0 <= i < |lines| ==> Directive(lines[i])
    ensures HeaderCount(lines) == 0
  {
    if lines == [] {
    } else {
      var n := |lines| - 1;
      DirectivesHaveNoHeader(lines[..n]);
      DirectiveIsInert(lines[n]);
    }
  }

  lemma BodyIsDirectives(p: Paths, o: Options)
    ensures forall i :: 0 <= i < |BodyLines(p, o)| ==> Directive(BodyLines(p, o)[i])
  {
    assert forall i :: 0 <= i < |HEAD| ==> Directive(HEAD[i]);
    assert forall i :: 0 <= i < |HARDENING| ==> Directive(HARDENING[i]);
    assert forall i :: 0 <= i < |FOOT| ==> Directive(FOOT[i]);
    assert Directive(ExecLine(p, o));
    assert Directive("ReadWritePaths=" + Quoted(p.dataDir)) && Directive("Environment=HOME=%h");
    assert Directive("EnvironmentFile=" + Quoted(o.envFile));
  }

  // ---------------------------------------------------------------- metadata

  /** The values printed for one marker. */
  function Picked(fields: seq<(Marker, string)>, m: Marker): seq<string> {
    if fields == [] then []
    else
      var (k, value) := fields[|fields| - 1];
      Picked(fields[..|fields| - 1], m) + if k == m then [value] else []
  }

  function TrimAll(values: seq<string>): (r: seq<string>)
    ensures |r| == |values|
  {
    seq(|values|, i requires 0 <= i < |values| => TrimSpace(values[i]))
  }

  lemma ValuesSnoc(fields: seq<Field>, field: Field, m: Marker)
    ensures Values(fields + [field], m) == Values(fields, m) + Added(field, m)
  {
    assert (fields + [field])[..|fields|] == fields;
  }

  lemma FieldsSnoc(lines: seq<string>, line: string)
    ensures Fields(lines + [line]) == Fields(lines) + [FieldOf(line)]
  {
  }

  /** Reading metadata lines gives the printed values, trimmed. */
  lemma {:induction false} ValuesOfMetaLines(fields: seq<(Marker, string)>, m: Marker)
    ensures Values(Fields(MetaLines(fields)), m) == TrimAll(Picked(fields, m))
  {
    if fields == [] {
    } else {
      var n := |fields| - 1;
      var (k, value) := fields[n];
      ValuesOfMetaLines(fields[..n], m);
      var lines, line := MetaLines(fields[..n]), k.Text() + value;
      hide Values, Fields, FieldOf, TrimAll, TrimSpace, Marker.Text;
      FieldOfPrinted(k, value);
      FieldsSnoc(lines, line);
      ValuesSnoc(Fields(lines), FieldOf(line), m);
      TrimAllSnoc(Picked(fields[..n], m), value);
    }
  }

  lemma TrimAllSnoc(values: seq<string>, value: string)
    ensures TrimAll(values + [value]) == TrimAll(values) + [TrimSpace(value)]
    ensures values + [] == values
  {
    hide TrimSpace;
  }

  /** Directives below the metadata change no value. */
  lemma TailIsInert(lines: seq<string>, tail: seq<string>, m: Marker)
    requires forall i :: 0 <= i < |tail| ==> Directive(tail[i])
    ensures Values(Fields(lines + tail), m) == Values(Fields(lines), m)
  {
    DirectivesAreInert(tail);
    FieldsConcat(lines, tail);
    ValuesInert(Fields(lines), Fields(tail), m);
  }

  /** No metadata line can be taken for the integrity header, whatever value it carries. */
  lemma MetaLineIsNoHeader(k: Marker, value: string)
    ensures !HasPrefix(k.Text() + value, MANAGED_PREFIX)
  {
    var text, line := k.Text(), k.Text() + value;
    assert line[..|text|] == text;
    assert |text| > 18 && text[18] != MANAGED_PREFIX[18];
    PrefixesClash(line, text, MANAGED_PREFIX, 18);
  }

  lemma CountSnoc(lines: seq<string>, line: string)
    ensures HeaderCount(lines + [line]) == HeaderCount(lines) + if HasPrefix(line, MANAGED_PREFIX) then 1 else 0
  {
    assert (lines + [line])[..|lines|] == lines;
  }

  lemma {:induction false} MetaHasNoHeader(fields: seq<(Marker, string)>)
    ensures HeaderCount(MetaLines(fields)) == 0
  {
    if fields == [] {
    } else {
      var n := |fields| - 1;
      var (k, value) := fields[n];
      MetaHasNoHeader(fields[..n]);
      MetaLineIsNoHeader(k, value);
      CountSnoc(MetaLines(fields[..n]), k.Text() + value);
    }
  }

  // -------------------------------------------------------------- assembling

  lemma OneLineConcat(a: string, b: string)
    requires OneLine(a) && OneLine(b)
    ensures OneLine(a + b)
  {
  }

  lemma MarkerIsOneLine()
    ensures OneLine(UNIT_MARKER)
  {
    var a, b := "# Managed by watchpost-agent.", " Do not edit manually.";
    assert OneLine(a) && OneLine(b);
    OneLineConcat(a, b);
    assert UNIT_MARKER == a + b;
  }

  lemma HeaderIsOneLine(sum: Digest)
    ensures OneLine(HeaderLine(sum))
  {
    assert OneLine(MANAGED_PREFIX) && OneLine("v1 sha256=");
    OneLineConcat(MANAGED_PREFIX, "v1 sha256=");
    assert OneLine(sum) by {
      assert forall c :: c in sum ==> HexDigit(c);
    }
    OneLineConcat(MANAGED_PREFIX + "v1 sha256=", sum);
  }

  /** A unit splits into its marker, its header, and the lines the header covers. */
  lemma SplitAssembled(sha: string -> Digest, lines: seq<string>)
    requires forall i :: 0 <= i < |lines| ==> OneLine(lines[i])
    ensures Split(Assemble(sha, lines), '\n') == AllLines(sha, lines) + [""]
  {
    var all := AllLines(sha, lines);
    forall i | 0 <= i < |all| ensures OneLine(all[i]) {
      if i == 0 {
        MarkerIsOneLine();
      } else if i == 1 {
        HeaderIsOneLine(sha(Unlines(lines)));
      } else {
        assert all[i] == lines[i - 2];
      }
    }
    SplitUnlines(all);
  }

  lemma HeaderSumPrinted(sum: Digest)
    ensures HeaderSum(HeaderLine(sum)) == Some(sum)
    ensures HasPrefix(HeaderLine(sum), MANAGED_PREFIX)
  {
    var line, p := HeaderLine(sum), HeaderLine("");
    assert line == p + sum && line[..|p|] == p && line[|p|..] == sum;
    assert line[..|MANAGED_PREFIX|] == MANAGED_PREFIX;
  }

  lemma HeaderCountOfAll(sha: string -> Digest, lines: seq<string>)
    requires HeaderCount(lines) == 0
    ensures HeaderCount(AllLines(sha, lines) + [""]) == 1
  {
    var h := HeaderLine(sha(Unlines(lines)));
    HeaderSumPrinted(sha(Unlines(lines)));
    var none: seq<string> := [];
    CountSnoc(none, UNIT_MARKER);
    CountSnoc(none + [UNIT_MARKER], h);
    assert UNIT_MARKER[2] == 'M' != MANAGED_PREFIX[2];
    assert HasPrefix(UNIT_MARKER, UNIT_MARKER);
    PrefixesClash(UNIT_MARKER, UNIT_MARKER, MANAGED_PREFIX, 2);
    CountConcat(none + [UNIT_MARKER] + [h], lines);
    assert none + [UNIT_MARKER] + [h] + lines == AllLines(sha, lines);
    CountSnoc(AllLines(sha, lines), "");
  }

  lemma ParseThree(sha: string -> Digest, all: seq<string>, sum: Digest, rest: seq<string>)
    requires |all| >= 3 && all[0] == UNIT_MARKER && all[2..] == rest
    requires HeaderCount(all) == 1 && HeaderSum(all[1]) == Some(sum)
    requires sha(Join(rest, '\n')) == sum
    ensures ParseLines(sha, all) == ParseMeta(rest)
  {
  }

  lemma AllShape(a: string, b: string, lines: seq<string>)
    ensures var all := [a, b] + lines + [""];
      |all| >= 3 && all[0] == a && all[1] == b && all[2..] == lines + [""]
  {
  }

  /** Reading back an assembled unit amounts to reading the lines its checksum covers. */
  lemma {:induction false} ParseAssembled(sha: string -> Digest, lines: seq<string>)
    requires forall i :: 0 <= i < |lines| ==> OneLine(lines[i])
    requires HeaderCount(lines) == 0
    ensures ParseUnit(sha, Assemble(sha, lines)) == ParseMeta(lines + [""])
  {
    var all := AllLines(sha, lines) + [""];
    assert Split(Assemble(sha, lines), '\n') == all by { SplitAssembled(sha, lines); }
    assert ParseLines(sha, all) == ParseMeta(lines + [""]) by {
      var sum := sha(Unlines(lines));
      assert HeaderCount(all) == 1 by { HeaderCountOfAll(sha, lines); }
      assert HeaderSum(HeaderLine(sum)) == Some(sum) by { HeaderSumPrinted(sum); }
      assert Join(lines + [""], '\n') == Unlines(lines) by { UnlinesJoin(lines); }
      AllShape(UNIT_MARKER, HeaderLine(sum), lines);
      ParseThree(sha, all, sum, lines + [""]);
    }
  }

  // -------------------------------------------------------------- round trip

  /** Every printed value fits on one line. */
  predicate OneLiners(p: Paths, o: Options) {
    OneLine(p.binary) && OneLine(p.dataDir) && OneLine(o.Listener()) && OneLine(o.envFile)
  }

  lemma PickedSnoc(fields: seq<(Marker, string)>, k: Marker, value: string, m: Marker)
    ensures Picked(fields + [(k, value)], m) == Picked(fields, m) + if k == m then [value] else []
  {
    assert (fields + [(k, value)])[..|fields|] == fields;
  }

  lemma PickedOfMeta(p: Paths, o: Options, m: Marker)
    ensures Picked(MetaFields(p, o), m) ==
      match m
      case Listen => [o.Listener()]
      case ListenMode => [o.Mode()]
      case Data => [p.dataDir]
      case EnvFile => if o.envFile != "" then [o.envFile] else []
      case Health => [HEALTH_PATH]
  {
    PickedOfFive(o.Listener(), o.Mode(), p.dataDir, o.envFile, HEALTH_PATH, m);
  }

  lemma PickedOfFive(l: string, mode: string, d: string, e: string, h: string, m: Marker)
    ensures Picked([(Listen, l), (ListenMode, mode), (Data, d)] +
                   (if e != "" then [(EnvFile, e)] else []) + [(Health, h)], m) ==
      match m
      case Listen => [l]
      case ListenMode => [mode]
      case Data => [d]
      case EnvFile => if e != "" then [e] else []
      case Health => [h]
  {
    var l0: seq<(Marker, string)> := [];
    var l1 := l0 + [(Listen, l)];
    var l2 := l1 + [(ListenMode, mode)];
    var l3 := l2 + [(Data, d)];
    var l4 := if e != "" then l3 + [(EnvFile, e)] else l3;
    PickedSnoc(l0, Listen, l, m);
    PickedSnoc(l1, ListenMode, mode, m);
    PickedSnoc(l2, Data, d, m);
    PickedSnoc(l3, EnvFile, e, m);
    PickedSnoc(l4, Health, h, m);
    assert [(Listen, l), (ListenMode, mode), (Data, d)] + (if e != "" then [(EnvFile, e)] else []) == l4;
  }

  lemma ContentValues(p: Paths, o: Options, m: Marker)
    ensures Values(Fields(ContentLines(p, o) + [""]), m) == TrimAll(Picked(MetaFields(p, o), m))
  {
    var lines, tail := MetaLines(MetaFields(p, o)), BodyLines(p, o) + [""];
    assert ContentLines(p, o) + [""] == lines + tail;
    assert Values(Fields(lines), m) == TrimAll(Picked(MetaFields(p, o), m)) by {
      ValuesOfMetaLines(MetaFields(p, o), m);
    }
    assert Values(Fields(lines + tail), m) == Values(Fields(lines), m) by {
      BodyIsDirectives(p, o);
      TailIsInert(lines, tail, m);
    }
  }

  lemma ContentHasNoHeader(p: Paths, o: Options)
    ensures HeaderCount(ContentLines(p, o)) == 0
  {
    var lines, body := MetaLines(MetaFields(p, o)), BodyLines(p, o);
    assert HeaderCount(body) == 0 by {
      BodyIsDirectives(p, o);
      DirectivesHaveNoHeader(body);
    }
    MetaHasNoHeader(MetaFields(p, o));
    CountConcat(lines, body);
  }

  lemma TextIsOneLine(m: Marker)
    ensures OneLine(m.Text())
  {
  }

  lemma {:induction false} MetaIsOneLiners(fields: seq<(Marker, string)>)
    requires forall i :: 0 <= i < |fields| ==> OneLine(fields[i].1)
    ensures forall i :: 0 <= i < |MetaLines(fields)| ==> OneLine(MetaLines(fields)[i])
  {
    if fields == [] {
    } else {
      hide OneLine, Marker.Text;
      var n := |fields| - 1;
      MetaIsOneLiners(fields[..n]);
      TextIsOneLine(fields[n].0);
      OneLineConcat(fields[n].0.Text(), fields[n].1);
    }
  }

  lemma JoinHasParts(host: string, port: string)
    requires OneLine(JoinHostPort(host, port))
    ensures OneLine(host) && OneLine(port)
  {
    var s := JoinHostPort(host, port);
    var k := if ':' in host then 1 else 0;
    assert forall i :: 0 <= i < |host| ==> s[k + i] == host[i];
    assert forall i :: 0 <= i < |port| ==> s[|s| - |port| + i] == port[i];
  }

  lemma HeadIsOneLiners()
    ensures forall i :: 0 <= i < |HEAD| ==> OneLine(HEAD[i])
  {
  }

  lemma HardeningIsOneLiners()
    ensures forall i :: 0 <= i < |HARDENING| ==> OneLine(HARDENING[i])
  {
  }

  lemma FootIsOneLiners()
    ensures forall i :: 0 <= i < |FOOT| ==> OneLine(FOOT[i])
  {
  }

  lemma QuotedIsOneLine(prefix: string, s: string)
    requires OneLine(prefix) && OneLine(s)
    ensures OneLine(prefix + Quoted(s))
  {
    EscapeOneLine(s);
  }

  lemma BodyIsOneLiners(p: Paths, o: Options)
    requires OneLiners(p, o)
    ensures forall i :: 0 <= i < |BodyLines(p, o)| ==> OneLine(BodyLines(p, o)[i])
  {
    var exec, rw, env := ExecLine(p, o), "ReadWritePaths=" + Quoted(p.dataDir), EnvLines(o);
    assert OneLine(exec) by { ExecLineIsOneLine(p, o); }
    assert OneLine(rw) by {
      assert OneLine("ReadWritePaths=");
      QuotedIsOneLine("ReadWritePaths=", p.dataDir);
    }
    assert forall i :: 0 <= i < |env| ==> OneLine(env[i]) by {
      assert OneLine("EnvironmentFile=");
      QuotedIsOneLine("EnvironmentFile=", o.envFile);
    }
    assert OneLine("Environment=HOME=%h");
    HeadIsOneLiners();
    HardeningIsOneLiners();
    FootIsOneLiners();
    SixParts(HEAD, [exec], HARDENING, [rw, "Environment=HOME=%h"], env, FOOT);
  }

  lemma SixParts(a: seq<string>, b: seq<string>, c: seq<string>, d: seq<string>, e: seq<string>, f: seq<string>)
    requires forall i :: 0 <= i < |a| ==> OneLine(a[i])
    requires forall i :: 0 <= i < |b| ==> OneLine(b[i])
    requires forall i :: 0 <= i < |c| ==> OneLine(c[i])
    requires forall i :: 0 <= i < |d| ==> OneLine(d[i])
    requires forall i :: 0 <= i < |e| ==> OneLine(e[i])
    requires forall i :: 0 <= i < |f| ==> OneLine(f[i])
    ensures var all := a + b + c + d + e + f; forall i :: 0 <= i < |all| ==> OneLine(all[i])
  {
  }

  lemma ArgsAreOneLiners(p: Paths, o: Options)
    requires OneLiners(p, o)
    ensures forall i :: 0 <= i < |ExecArgs(p, o)| ==> OneLine(ExecArgs(p, o)[i])
  {
    hide TrimSpace, JoinHostPort, OneLine;
    FlagsAreOneLiners();
    if o.listen == "" {
      JoinHasParts(TrimSpace(o.host), TrimSpace(o.port));
    }
  }

  lemma FlagsAreOneLiners()
    ensures OneLine("--listen") && OneLine("--host") && OneLine("--port") && OneLine("--data-dir")
  {
  }

  lemma ExecLineIsOneLine(p: Paths, o: Options)
    requires OneLiners(p, o)
    ensures OneLine(ExecLine(p, o))
  {
    var args := ExecArgs(p, o);
    assert OneLine(QuoteLine(args)) by {
      ArgsAreOneLiners(p, o);
      QuoteLineOneLine(args);
    }
    assert OneLine("ExecStart=");
    OneLineConcat("ExecStart=", QuoteLine(args));
  }

  lemma ContentIsOneLiners(p: Paths, o: Options)
    requires OneLiners(p, o)
    ensures forall i :: 0 <= i < |ContentLines(p, o)| ==> OneLine(ContentLines(p, o)[i])
  {
    hide OneLine, MetaFields, MetaLines, BodyLines;
    FieldsAreOneLiners(p, o);
    MetaIsOneLiners(MetaFields(p, o));
    BodyIsOneLiners(p, o);
  }

  lemma FieldsAreOneLiners(p: Paths, o: Options)
    requires OneLiners(p, o)
    ensures forall i :: 0 <= i < |MetaFields(p, o)| ==> OneLine(MetaFields(p, o)[i].1)
  {
    hide TrimSpace, JoinHostPort, OneLine;
    ConstantsAreOneLiners();
  }

  lemma ConstantsAreOneLiners()
    ensures OneLine(EXPLICIT) && OneLine(BOOTSTRAP) && OneLine(HEALTH_PATH)
  {
  }

  /** What reading back should give. */
  function Recorded(p: Paths, o: Options): UnitMeta {
    UnitMeta(TrimSpace(o.Listener()), o.Mode(), TrimSpace(o.envFile), HEALTH_PATH, TrimSpace(p.dataDir))
  }

  /** The parser accepts the values: a listener and a data directory with something visible in
      them, no control characters, and no systemd specifier in the environment file. */
  predicate Legible(p: Paths, o: Options) {
    var l, d, e := TrimSpace(o.Listener()), TrimSpace(p.dataDir), TrimSpace(o.envFile);
    && l != "" && NoControl(l)
    && d != "" && NoControl(d)
    && NoControl(e) && '%' !in e
  }

  /** What is read back for each marker. */
  function Printed(l: string, mode: string, d: string, e: string, m: Marker): seq<string> {
    match m
    case Listen => [TrimSpace(l)]
    case ListenMode => [mode]
    case Data => [TrimSpace(d)]
    case EnvFile => if e != "" then [TrimSpace(e)] else []
    case Health => [HEALTH_PATH]
  }

  lemma ContentPrinted(p: Paths, o: Options, m: Marker)
    ensures Values(Fields(ContentLines(p, o) + [""]), m) == Printed(o.Listener(), o.Mode(), p.dataDir, o.envFile, m)
  {
    hide Values, Fields, ContentLines, MetaFields, TrimAll, TrimSpace, Options.Listener;
    ContentValues(p, o, m);
    PickedOfMeta(p, o, m);
    TrimNone();
    if Picked(MetaFields(p, o), m) != [] {
      TrimOne(Picked(MetaFields(p, o), m)[0]);
    }
    ConstantsAreTrimmed();
  }

  lemma TrimNone()
    ensures TrimAll([]) == []
  {
  }

  lemma TrimOne(value: string)
    ensures TrimAll([value]) == [TrimSpace(value)]
  {
  }

  lemma ConstantsAreTrimmed()
    ensures TrimSpace(EXPLICIT) == EXPLICIT && TrimSpace(BOOTSTRAP) == BOOTSTRAP
    ensures TrimSpace(HEALTH_PATH) == HEALTH_PATH
  {
    hide TrimSpace;
    assert Trimmed(EXPLICIT) && Trimmed(BOOTSTRAP) && Trimmed(HEALTH_PATH);
  }

  lemma ContentMeta(p: Paths, o: Options)
    ensures ParseMeta(ContentLines(p, o) + [""]) == if Legible(p, o) then Ok(Recorded(p, o)) else Err(Malformed)
  {
    hide ContentLines, Fields, Values, Printed;
    var fields := Fields(ContentLines(p, o) + [""]);
    var l, mode, d, e := o.Listener(), o.Mode(), p.dataDir, o.envFile;
    forall m: Marker ensures ValuesIn(fields)(m) == Printed(l, mode, d, e, m) {
      ContentPrinted(p, o, m);
    }
    ParseFive(ValuesIn(fields), l, mode, d, e);
  }

  lemma ParseFive(values: Marker -> seq<string>, l: string, mode: string, d: string, e: string)
    requires forall m: Marker :: values(m) == Printed(l, mode, d, e, m)
    requires mode == EXPLICIT || mode == BOOTSTRAP
    ensures var meta := UnitMeta(TrimSpace(l), mode, TrimSpace(e), HEALTH_PATH, TrimSpace(d));
      ParseValues(values) == if Acceptable(meta, true) then Ok(meta) else Err(Malformed)
  {
    assert TrimSpace("") == "";
  }

  /** Reading a printed unit succeeds exactly when its values are legible, and then gives them
      back trimmed. */
  lemma {:induction false} RoundTrip(sha: string -> Digest, p: Paths, o: Options)
    requires OneLiners(p, o)
    ensures ParseUnit(sha, BuildUnit(sha, p, o)) == if Legible(p, o) then Ok(Recorded(p, o)) else Err(Malformed)
  {
    ContentIsOneLiners(p, o);
    ContentHasNoHeader(p, o);
    ParseAssembled(sha, ContentLines(p, o));
    ContentMeta(p, o);
  }
}
