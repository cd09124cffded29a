/** What the unit parser lets through, for every text and without reference to the parser's own steps:
    a text is accepted exactly if it is sealed by its own checksum and its lines declare the values
    read, and it is called modified exactly if only the checksum is wrong. */
module Integrity {
  import opened Wrappers
  import opened Text
  import opened UnitFile
  import opened UnitRoundTrip

  // --------------------------------------------------------- the shape of a unit

  /** A marker line, a line `header`, and the text below. */
  function Framed(header: string, rest: string): string { UNIT_MARKER + "\n" + header + "\n" + rest }

  /** No line of a text starts like an integrity header. */
  ghost predicate NoHeader(text: string) {
    forall i :: 0 <= i < |Split(text, '\n')| ==> !HasPrefix(Split(text, '\n')[i], MANAGED_PREFIX)
  }

  /** A unit whose one header names the checksum `sum`. */
  ghost predicate Headed(content: string, sum: string, rest: string) {
    content == Framed("# watchpost-agent-managed: v1 sha256=" + sum, rest) && IsDigest(sum) && NoHeader(rest)
  }

  lemma {:induction false} SplitAtBreak(line: string, rest: string)
    requires OneLine(line)
    ensures Split(line + "\n" + rest, '\n') == [line] + Split(rest, '\n')
  {
    var s := line + "\n" + rest;
    if line == "" {
      assert s[1..] == rest;
    } else {
      SplitAtBreak(line[1..], rest);
      assert s[1..] == line[1..] + "\n" + rest;
      assert [s[0]] + line[1..] == line;
    }
  }

  lemma MarkerIsOneLine()
    ensures OneLine(UNIT_MARKER)
  {
  }

  lemma SplitFramed(header: string, rest: string)
    requires OneLine(header)
    ensures Split(Framed(header, rest), '\n') == [UNIT_MARKER, header] + Split(rest, '\n')
  {
    MarkerIsOneLine();
    SplitAtBreak(header, rest);
    SplitAtBreak(UNIT_MARKER, header + "\n" + rest);
    assert UNIT_MARKER + "\n" + (header + "\n" + rest) == Framed(header, rest);
  }

  /** A text of at least three lines that starts with the marker has that shape. */
  lemma FramedFrom(content: string)
    requires var lines := Split(content, '\n'); |lines| >= 3 && lines[0] == UNIT_MARKER
    ensures var lines := Split(content, '\n');
      content == Framed(lines[1], Join(lines[2..], '\n')) && Split(Join(lines[2..], '\n'), '\n') == lines[2..]
  {
    var lines := Split(content, '\n');
    JoinSplit(content, '\n');
    assert lines[1..][1..] == lines[2..];
    assert Join(lines, '\n') == lines[0] + "\n" + (lines[1] + "\n" + Join(lines[2..], '\n'));
    SplitJoin(lines[2..], '\n');
  }

  // -------------------------------------------------------------------- headers

  lemma {:induction false} CountZero(lines: seq<string>)
    ensures HeaderCount(lines) == 0 <==> forall i :: 0 <= i < |lines| ==> !HasPrefix(lines[i], MANAGED_PREFIX)
  {
    hide HasPrefix;
    if lines == [] {
    } else {
      CountZero(lines[..|lines| - 1]);
    }
  }

  lemma MarkerIsNoHeader()
    ensures !HasPrefix(UNIT_MARKER, MANAGED_PREFIX)
  {
    assert UNIT_MARKER[2] == 'M' != MANAGED_PREFIX[2];
    PrefixesClash(UNIT_MARKER, UNIT_MARKER, MANAGED_PREFIX, 2);
  }

  /** With a header in the second line, it is the only one exactly if there is none below. */
  lemma OnlyHeader(header: string, rest: seq<string>)
    requires HasPrefix(header, MANAGED_PREFIX)
    ensures HeaderCount([UNIT_MARKER, header] + rest) == 1 <==>
      forall i :: 0 <= i < |rest| ==> !HasPrefix(rest[i], MANAGED_PREFIX)
  {
    hide HasPrefix;
    MarkerIsNoHeader();
    CountSnoc([], UNIT_MARKER);
    CountSnoc([UNIT_MARKER], header);
    assert [] + [UNIT_MARKER] == [UNIT_MARKER] && [UNIT_MARKER] + [header] == [UNIT_MARKER, header];
    CountConcat([UNIT_MARKER, header], rest);
    CountZero(rest);
  }

  lemma SumOf(header: string)
    ensures HeaderSum(header).Some? <==> exists sum :: IsDigest(sum) && header == HeaderLine(sum)
    ensures HeaderSum(header).Some? ==>
      IsDigest(HeaderSum(header).value) && header == HeaderLine(HeaderSum(header).value)
  {
    hide IsDigest;
    if HeaderSum(header).Some? {
      assert header == HeaderLine("") + HeaderSum(header).value;
      assert header == HeaderLine(HeaderSum(header).value);
    }
    forall sum | IsDigest(sum) && header == HeaderLine(sum) ensures HeaderSum(header) == Some(sum) {
      HeaderSumPrinted(sum);
    }
  }

  // ---------------------------------------------------------- what a text declares

  /** A line that declares a value: the marker's text, and the value once it is trimmed. */
  predicate Says(line: string, m: Marker, value: string) {
    HasPrefix(line, m.Text()) && value == TrimSpace(line[|m.Text()|..])
  }

  ghost predicate Never(lines: seq<string>, m: Marker) {
    forall i :: 0 <= i < |lines| ==> !HasPrefix(lines[i], m.Text())
  }

  /** Exactly one line starts with the marker's text, and it declares the value. */
  ghost predicate Once(lines: seq<string>, m: Marker, value: string) {
    exists i :: 0 <= i < |lines| && Says(lines[i], m, value) && Only(lines, i, m)
  }

  /** No line but the i-th starts with the marker's text. */
  ghost predicate Only(lines: seq<string>, i: nat, m: Marker) {
    forall j :: 0 <= j < |lines| && j != i ==> !HasPrefix(lines[j], m.Text())
  }

  ghost predicate AtMostOnce(lines: seq<string>, m: Marker, value: string, default: string) {
    Once(lines, m, value) || (Never(lines, m) && value == default)
  }

  predicate Printable(s: string) { forall c :: c in s ==> c >= ' ' && c != '\U{7f}' }

  /** The lines below the header declare just these values, and the values are acceptable. */
  ghost predicate Declares(lines: seq<string>, meta: UnitMeta) {
    && Once(lines, Listen, meta.listen) && meta.listen != "" && Printable(meta.listen)
    && Once(lines, Health, "/healthz") && meta.health == "/healthz"
    && AtMostOnce(lines, ListenMode, meta.listenMode, "bootstrap")
    && (meta.listenMode == "bootstrap" || meta.listenMode == "explicit")
    && AtMostOnce(lines, Data, meta.data, "")
    && (Never(lines, Data) || (meta.data != "" && Printable(meta.data)))
    && AtMostOnce(lines, EnvFile, meta.envFile, "")
    && Printable(meta.envFile) && '%' !in meta.envFile
  }

  lemma AddedIs(line: string, m: Marker)
    ensures Added(FieldOf(line), m) ==
      if HasPrefix(line, m.Text()) then [TrimSpace(line[|m.Text()|..])] else []
  {
    hide HasPrefix, TrimSpace, Marker.Text;
    if HasPrefix(line, m.Text()) {
      FieldUnique(line, m);
    }
  }

  lemma ValuesSnocLine(lines: seq<string>, m: Marker)
    requires lines != []
    ensures var n := |lines| - 1;
      Values(Fields(lines), m) == Values(Fields(lines[..n]), m) + Added(FieldOf(lines[n]), m)
  {
    var n := |lines| - 1;
    assert Fields(lines)[..n] == Fields(lines[..n]);
  }

  lemma {:induction false} NoValues(lines: seq<string>, m: Marker)
    ensures Values(Fields(lines), m) == [] <==> Never(lines, m)
  {
    hide HasPrefix, TrimSpace, Marker.Text, FieldOf, Values, Fields;
    if lines == [] {
      assert Values(Fields([]), m) == [] by { NoLines(m); }
    } else {
      var n := |lines| - 1;
      NoValues(lines[..n], m);
      ValuesSnocLine(lines, m);
      AddedIs(lines[n], m);
    }
  }

  lemma NoLines(m: Marker)
    ensures Values(Fields([]), m) == []
  {
  }

  /** With the marker in the last line, that is the one line exactly if no earlier one has it. */
  lemma OnceLast(lines: seq<string>, m: Marker, value: string)
    requires lines != [] && HasPrefix(lines[|lines| - 1], m.Text())
    ensures var n := |lines| - 1; Once(lines, m, value) <==> Never(lines[..n], m) && Says(lines[n], m, value)
  {
    hide HasPrefix, TrimSpace, Marker.Text;
    var n := |lines| - 1;
    if Once(lines, m, value) {
      var i :| 0 <= i < |lines| && Says(lines[i], m, value) && Only(lines, i, m);
      assert i == n;
      assert forall j :: 0 <= j < n ==> lines[..n][j] == lines[j];
    }
    if Never(lines[..n], m) && Says(lines[n], m, value) {
      assert forall j :: 0 <= j < n ==> lines[..n][j] == lines[j];
      assert Only(lines, n, m);
    }
  }

  /** Without it, the last line makes no difference. */
  lemma OnceShrinks(lines: seq<string>, m: Marker, value: string)
    requires lines != [] && !HasPrefix(lines[|lines| - 1], m.Text())
    requires Once(lines, m, value)
    ensures Once(lines[..|lines| - 1], m, value)
  {
    hide HasPrefix, TrimSpace, Marker.Text;
    var n := |lines| - 1;
    var i :| 0 <= i < |lines| && Says(lines[i], m, value) && Only(lines, i, m);
    assert i < n;
    assert Says(lines[..n][i], m, value) && Only(lines[..n], i, m);
  }

  lemma OnceExtends(lines: seq<string>, m: Marker, value: string)
    requires lines != [] && !HasPrefix(lines[|lines| - 1], m.Text())
    requires Once(lines[..|lines| - 1], m, value)
    ensures Once(lines, m, value)
  {
    hide HasPrefix, TrimSpace, Marker.Text;
    var n := |lines| - 1;
    var i :| 0 <= i < n && Says(lines[..n][i], m, value) && Only(lines[..n], i, m);
    assert forall j :: 0 <= j < n ==> lines[..n][j] == lines[j];
    assert Says(lines[i], m, value) && Only(lines, i, m);
  }

  lemma OnceSnoc(lines: seq<string>, m: Marker, value: string)
    requires lines != []
    ensures var n := |lines| - 1;
      Once(lines, m, value) <==>
        if HasPrefix(lines[n], m.Text()) then Never(lines[..n], m) && Says(lines[n], m, value)
        else Once(lines[..n], m, value)
  {
    hide HasPrefix, Marker.Text, Once, Never, Says;
    if HasPrefix(lines[|lines| - 1], m.Text()) {
      OnceLast(lines, m, value);
    } else {
      if Once(lines, m, value) {
        OnceShrinks(lines, m, value);
      }
      if Once(lines[..|lines| - 1], m, value) {
        OnceExtends(lines, m, value);
      }
    }
  }

  lemma {:induction false} OneValue(lines: seq<string>, m: Marker, value: string)
    ensures Values(Fields(lines), m) == [value] <==> Once(lines, m, value)
  {
    hide HasPrefix, TrimSpace, Marker.Text, FieldOf, Values, Fields, Never, Once;
    if lines == [] {
      NoLines(m);
      assert !Once(lines, m, value) by { NoneOnce(m, value); }
    } else {
      var n := |lines| - 1;
      OneValue(lines[..n], m, value);
      NoValues(lines[..n], m);
      OnceSnoc(lines, m, value);
      ValuesSnocLine(lines, m);
      AddedIs(lines[n], m);
      var before := Values(Fields(lines[..n]), m);
      assert before + [] == before;
      if HasPrefix(lines[n], m.Text()) {
        AppendedValue(before, lines[n], m, value);
      }
    }
  }

  lemma Appended(before: seq<string>, last: string, value: string)
    ensures before + [last] == [value] <==> before == [] && last == value
  {
    assert (before + [last])[|before|] == last;
  }

  lemma AppendedValue(before: seq<string>, line: string, m: Marker, value: string)
    requires HasPrefix(line, m.Text())
    ensures before + [TrimSpace(line[|m.Text()|..])] == [value] <==> before == [] && Says(line, m, value)
  {
    hide TrimSpace, Marker.Text;
    Appended(before, TrimSpace(line[|m.Text()|..]), value);
  }

  lemma NoneOnce(m: Marker, value: string)
    ensures !Once([], m, value)
  {
  }

  lemma NotBoth(lines: seq<string>, m: Marker, value: string)
    requires Once(lines, m, value)
    ensures !Never(lines, m)
  {
    NoValues(lines, m);
    OneValue(lines, m, value);
  }

  /** What one marker's values say of a value. */
  lemma MarkerSays(lines: seq<string>, m: Marker, value: string, default: string)
    ensures var values := Values(Fields(lines), m);
      && (Never(lines, m) <==> |values| == 0)
      && (Once(lines, m, value) <==> |values| == 1 && value == First(values, default))
      && (AtMostOnce(lines, m, value, default) <==> |values| <= 1 && value == First(values, default))
  {
    hide Values, Fields, Never, Once;
    NoValues(lines, m);
    OneValue(lines, m, value);
  }

  /** The parser's verdict on the lines below the header. */
  lemma MetaDeclares(lines: seq<string>, meta: UnitMeta)
    ensures ParseMeta(lines) == Ok(meta) <==> Declares(lines, meta)
    ensures ParseMeta(lines).Err? ==> ParseMeta(lines) == Err(Malformed)
  {
    hide Values, Fields, Never, Once, AtMostOnce;
    MarkerSays(lines, Listen, meta.listen, "");
    MarkerSays(lines, ListenMode, meta.listenMode, BOOTSTRAP);
    MarkerSays(lines, Data, meta.data, "");
    MarkerSays(lines, EnvFile, meta.envFile, "");
    MarkerSays(lines, Health, HEALTH_PATH, "");
  }

  // ------------------------------------------------------------------- verdicts

  lemma HeadedShape(content: string, sum: string, rest: string)
    requires Headed(content, sum, rest)
    ensures var lines := Split(content, '\n');
      && |lines| >= 3 && lines[0] == UNIT_MARKER && lines[2..] == Split(rest, '\n')
      && HeaderCount(lines) == 1 && HeaderSum(lines[1]) == Some(sum) && Join(lines[2..], '\n') == rest
  {
    hide Split, Join, IsDigest, HeaderSum, HeaderCount;
    var header := HeaderLine(sum);
    assert "# watchpost-agent-managed: v1 sha256=" + sum == header by { HeaderText(sum); }
    assert OneLine(header) by { HeaderIsOneLine(sum); }
    SplitFramed(header, rest);
    HeaderSumPrinted(sum);
    OnlyHeader(header, Split(rest, '\n'));
    JoinSplit(rest, '\n');
    AfterTwo(UNIT_MARKER, header, Split(rest, '\n'));
  }

  lemma AfterTwo(a: string, b: string, rest: seq<string>)
    ensures ([a, b] + rest)[2..] == rest
  {
  }

  lemma HeaderText(sum: string)
    ensures "# watchpost-agent-managed: v1 sha256=" + sum == HeaderLine(sum)
  {
    assert "# watchpost-agent-managed: " + "v1 sha256=" == "# watchpost-agent-managed: v1 sha256=";
  }

  lemma HeaderIsOneLine(sum: string)
    requires IsDigest(sum)
    ensures OneLine(HeaderLine(sum))
  {
    assert '\n' !in sum;
  }

  lemma HeadedFrom(content: string)
    requires var lines := Split(content, '\n');
      |lines| >= 3 && lines[0] == UNIT_MARKER && HeaderCount(lines) == 1 && HeaderSum(lines[1]).Some?
    ensures var lines := Split(content, '\n');
      Headed(content, HeaderSum(lines[1]).value, Join(lines[2..], '\n'))
  {
    hide Split, Join, IsDigest, HeaderSum, HeaderCount, HasPrefix;
    var lines := Split(content, '\n');
    var sum := HeaderSum(lines[1]).value;
    FramedFrom(content);
    SumOf(lines[1]);
    HeaderText(sum);
    HeaderSumPrinted(sum);
    AfterTwo(lines[0], lines[1], lines[2..]);
    assert lines == [lines[0], lines[1]] + lines[2..];
    OnlyHeader(lines[1], lines[2..]);
  }

  /** A unit is the agent's own exactly if it has the marker line and something below a second line. */
  lemma NotManagedIs(sha: string -> Digest, content: string)
    ensures ParseUnit(sha, content) == Err(NotManaged) <==>
      !exists header, rest :: OneLine(header) && content == Framed(header, rest)
  {
    hide Join, HeaderSum, HeaderCount, ParseMeta;
    var lines := Split(content, '\n');
    if |lines| >= 3 && lines[0] == UNIT_MARKER {
      FramedFrom(content);
      assert OneLine(lines[1]) && content == Framed(lines[1], Join(lines[2..], '\n'));
      MetaDeclaresError(lines[2..]);
    } else {
      forall header, rest | OneLine(header) && content == Framed(header, rest) ensures false {
        SplitFramed(header, rest);
      }
    }
  }

  lemma MetaDeclaresError(lines: seq<string>)
    ensures ParseMeta(lines).Err? ==> ParseMeta(lines) == Err(Malformed)
  {
  }

  /** It is called modified exactly if it has the one header of the printed form, with another
      checksum than that of the text below. */
  lemma ModifiedIs(sha: string -> Digest, content: string)
    ensures ParseUnit(sha, content) == Err(Modified) <==>
      exists sum, rest :: Headed(content, sum, rest) && sha(rest) != sum
  {
    hide Headed, Join, HeaderSum, HeaderCount, ParseMeta, Split;
    var lines := Split(content, '\n');
    forall sum, rest | Headed(content, sum, rest) && sha(rest) != sum
      ensures ParseUnit(sha, content) == Err(Modified)
    {
      HeadedShape(content, sum, rest);
    }
    if ParseUnit(sha, content) == Err(Modified) {
      MetaDeclaresError(lines[2..]);
      HeadedFrom(content);
    }
  }

  /** It is read exactly if its one header names the checksum of the text below, and that text
      declares exactly what is read. */
  lemma ReadIs(sha: string -> Digest, content: string, meta: UnitMeta)
    ensures ParseUnit(sha, content) == Ok(meta) <==>
      exists rest :: Headed(content, sha(rest), rest) && Declares(Split(rest, '\n'), meta)
  {
    hide Headed, Join, HeaderSum, HeaderCount, ParseMeta, Split, Declares;
    var lines := Split(content, '\n');
    forall rest | Headed(content, sha(rest), rest) && Declares(Split(rest, '\n'), meta)
      ensures ParseUnit(sha, content) == Ok(meta)
    {
      HeadedShape(content, sha(rest), rest);
      MetaDeclares(lines[2..], meta);
    }
    if ParseUnit(sha, content) == Ok(meta) {
      HeadedFrom(content);
      HeadedShape(content, HeaderSum(lines[1]).value, Join(lines[2..], '\n'));
      MetaDeclares(lines[2..], meta);
    }
  }

  /** Replacing what is below the header of a printed unit by a text with another checksum is
      noticed: the unit is refused, as modified unless a header has been slipped in as well. */
  lemma Tampered(sha: string -> Digest, p: Paths, o: Options, rest: string)
    requires sha(rest) != sha(Unlines(ContentLines(p, o)))
    ensures BuildUnit(sha, p, o) ==
      Framed(HeaderLine(sha(Unlines(ContentLines(p, o)))), Unlines(ContentLines(p, o)))
    ensures ParseUnit(sha, Framed(HeaderLine(sha(Unlines(ContentLines(p, o)))), rest)) ==
      Err(if NoHeader(rest) then Modified else Malformed)
  {
    hide ContentLines, NoHeader, Join, HeaderCount, HeaderSum, ParseMeta, IsDigest;
    var body := Unlines(ContentLines(p, o));
    var sum := sha(body);
    PrintedIsFramed(sha, ContentLines(p, o));
    HeaderIsOneLine(sum);
    SplitFramed(HeaderLine(sum), rest);
    AfterTwo(UNIT_MARKER, HeaderLine(sum), Split(rest, '\n'));
    HeaderSumPrinted(sum);
    OnlyHeader(HeaderLine(sum), Split(rest, '\n'));
    NoHeaderIs(rest);
    JoinSplit(rest, '\n');
  }

  lemma NoHeaderIs(text: string)
    ensures NoHeader(text) <==>
      forall i :: 0 <= i < |Split(text, '\n')| ==> !HasPrefix(Split(text, '\n')[i], MANAGED_PREFIX)
  {
  }

  lemma UnlinesTwo(a: string, b: string, lines: seq<string>)
    ensures Unlines([a, b] + lines) == a + "\n" + b + "\n" + Unlines(lines)
  {
    var all := [a, b] + lines;
    assert all[1..] == [b] + lines && ([b] + lines)[1..] == lines;
    assert a + "\n" + (b + "\n" + Unlines(lines)) == a + "\n" + b + "\n" + Unlines(lines);
  }

  lemma PrintedIsFramed(sha: string -> Digest, lines: seq<string>)
    ensures Assemble(sha, lines) == Framed(HeaderLine(sha(Unlines(lines))), Unlines(lines))
  {
    hide Unlines;
    UnlinesTwo(UNIT_MARKER, HeaderLine(sha(Unlines(lines))), lines);
  }
}
