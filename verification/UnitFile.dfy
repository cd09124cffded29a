/** The managed systemd unit: how it is printed, how it is read back, and that the two agree. */
module UnitFile {
  import opened Wrappers
  import opened Text
  import opened HostPort
  import opened Quote

  predicate HexDigit(c: char) { '0' <= c <= '9' || 'a' <= c <= 'f' }

  predicate IsDigest(s: string) { |s| == 64 && forall c :: c in s ==> HexDigit(c) }

  /** A SHA-256 in hexadecimal.  The hash itself is a parameter of everything below. */
  type Digest = s: string | IsDigest(s) witness seq(64, _ => '0')

  const UNIT_MARKER := "# Managed by watchpost-agent." + " Do not edit manually."
  const MANAGED_PREFIX := "# watchpost-agent-managed: "
  const HEALTH_PATH := "/healthz"
  const EXPLICIT := "explicit"
  const BOOTSTRAP := "bootstrap"

  datatype Paths = Paths(binary: string, dataDir: string)

  datatype Options = Options(host: string, port: string, listen: string, envFile: string)
  {
    function Listener(): string {
      if listen != "" then listen else JoinHostPort(TrimSpace(host), TrimSpace(port))
    }

    function Mode(): string {
      if listen != "" then BOOTSTRAP else EXPLICIT
    }
  }

  datatype UnitMeta = UnitMeta(listen: string, listenMode: string, envFile: string, health: string, data: string)

  datatype Error = NotManaged | Malformed | Modified

  datatype Marker = Listen | ListenMode | Data | EnvFile | Health
  {
    function Text(): string {
      match this
      case Listen => "# watchpost-agent-listen: "
      case ListenMode => "# watchpost-agent-listen-mode: "
      case Data => "# watchpost-agent-data: "
      case EnvFile => "# watchpost-agent-envfile: "
      case Health => "# watchpost-agent-health: "
    }
  }

  // ---------------------------------------------------------------- printing

  /** Every line followed by a line break. */
  function Unlines(lines: seq<string>): string {
    if lines == [] then "" else lines[0] + "\n" + Unlines(lines[1..])
  }

  /** The metadata in printing order; the environment file is printed only when there is one. */
  function MetaFields(p: Paths, o: Options): seq<(Marker, string)> {
    [(Listen, o.Listener()), (ListenMode, o.Mode()), (Data, p.dataDir)] +
    (if o.envFile != "" then [(EnvFile, o.envFile)] else []) +
    [(Health, HEALTH_PATH)]
  }

  function MetaLines(fields: seq<(Marker, string)>): seq<string> {
    if fields == [] then []
    else
      var (m, value) := fields[|fields| - 1];
      MetaLines(fields[..|fields| - 1]) + [m.Text() + value]
  }

  function ExecArgs(p: Paths, o: Options): seq<string> {
    [p.binary] +
    (if o.listen != "" then ["--listen", o.listen]
     else ["--host", TrimSpace(o.host), "--port", TrimSpace(o.port)]) +
    ["--data-dir", p.dataDir]
  }

  const HEAD: seq<string> := [
    "[Unit]",
    "Description=Watchpost Agent",
    "After=network-online.target",
    "Wants=network-online.target",
    "StartLimitIntervalSec=60",
    "StartLimitBurst=5",
    "",
    "[Service]",
    "Type=simple",
    "User=watchpost-agent",
    "Group=watchpost-agent"]

  const HARDENING: seq<string> := [
    "Restart=on-failure",
    "RestartSec=5s",
    "UMask=0077",
    "NoNewPrivileges=true",
    "PrivateTmp=true",
    "ProtectSystem=strict",
    "ProtectHome=true"]

  const FOOT: seq<string> := ["", "[Install]", "WantedBy=multi-user.target"]

  function ExecLine(p: Paths, o: Options): string { "ExecStart=" + QuoteLine(ExecArgs(p, o)) }

  function EnvLines(o: Options): seq<string> {
    if o.envFile != "" then ["EnvironmentFile=" + Quoted(o.envFile)] else []
  }

  function BodyLines(p: Paths, o: Options): seq<string> {
    HEAD + [ExecLine(p, o)] + HARDENING +
    ["ReadWritePaths=" + Quoted(p.dataDir), "Environment=HOME=%h"] + EnvLines(o) + FOOT
  }

  function ContentLines(p: Paths, o: Options): seq<string> {
    MetaLines(MetaFields(p, o)) + BodyLines(p, o)
  }

  function HeaderLine(sum: string): string { MANAGED_PREFIX + "v1 sha256=" + sum }

  /** A marker line, an integrity header, and the lines the header's checksum covers. */
  function AllLines(sha: string -> Digest, lines: seq<string>): seq<string> {
    [UNIT_MARKER, HeaderLine(sha(Unlines(lines)))] + lines
  }

  function Assemble(sha: string -> Digest, lines: seq<string>): string {
    Unlines(AllLines(sha, lines))
  }

  function BuildUnit(sha: string -> Digest, p: Paths, o: Options): string {
    Assemble(sha, ContentLines(p, o))
  }

  // ----------------------------------------------------------------- reading

  predicate NoControl(s: string) { forall c :: c in s ==> c >= ' ' && c != '\U{7f}' }

  /** The metadata a line carries: the first marker it starts with, in the parser's order. */
  function FieldOf(line: string): Option<(Marker, string)> {
    if HasPrefix(line, Listen.Text()) then Some((Listen, Value(line, Listen)))
    else if HasPrefix(line, ListenMode.Text()) then Some((ListenMode, Value(line, ListenMode)))
    else if HasPrefix(line, Data.Text()) then Some((Data, Value(line, Data)))
    else if HasPrefix(line, EnvFile.Text()) then Some((EnvFile, Value(line, EnvFile)))
    else if HasPrefix(line, Health.Text()) then Some((Health, Value(line, Health)))
    else None
  }

  function Value(line: string, m: Marker): string
    requires HasPrefix(line, m.Text())
  {
    TrimSpace(line[|m.Text()|..])
  }

  type Field = Option<(Marker, string)>

  function Fields(lines: seq<string>): (fields: seq<Field>)
    ensures |fields| == |lines|
  {
    seq(|lines|, i requires 0 <= i < |lines| => FieldOf(lines[i]))
  }

  /** What one line adds to the values of a marker. */
  function Added(field: Field, m: Marker): seq<string> {
    if field.Some? && field.value.0 == m then [field.value.1] else []
  }

  /** The values recorded for one marker, in order. */
  function Values(fields: seq<Field>, m: Marker): seq<string> {
    if fields == [] then []
    else Values(fields[..|fields| - 1], m) + Added(fields[|fields| - 1], m)
  }

  function HeaderCount(lines: seq<string>): nat {
    if lines == [] then 0
    else HeaderCount(lines[..|lines| - 1]) + if HasPrefix(lines[|lines| - 1], MANAGED_PREFIX) then 1 else 0
  }

  /** The checksum in a header line of exactly the printed form. */
  function HeaderSum(line: string): Option<string> {
    var p := HeaderLine("");
    if HasPrefix(line, p) && IsDigest(line[|p|..]) then Some(line[|p|..]) else None
  }

  function First(values: seq<string>, default: string): string {
    if values == [] then default else values[0]
  }

  predicate Acceptable(m: UnitMeta, hasData: bool) {
    && m.listen != "" && NoControl(m.listen)
    && m.health == HEALTH_PATH
    && (m.listenMode == EXPLICIT || m.listenMode == BOOTSTRAP)
    && (hasData ==> m.data != "" && NoControl(m.data))
    && (m.envFile != "" ==> NoControl(m.envFile) && '%' !in m.envFile)
  }

  /** What the metadata says, stated without counters: one listener, one health path, at most
      one of everything else, each acceptable. */
  function ParseValues(values: Marker -> seq<string>): Result<UnitMeta, Error> {
    var meta := UnitMeta(First(values(Listen), ""), First(values(ListenMode), BOOTSTRAP),
                         First(values(EnvFile), ""), First(values(Health), ""), First(values(Data), ""));
    if (|values(Listen)| == 1 && |values(Health)| == 1 && |values(ListenMode)| <= 1
        && |values(EnvFile)| <= 1 && |values(Data)| <= 1 && Acceptable(meta, values(Data) != []))
    then Ok(meta)
    else Err(Malformed)
  }

  function ValuesIn(fields: seq<Field>): Marker -> seq<string> { m => Values(fields, m) }

  function ParseMeta(lines: seq<string>): Result<UnitMeta, Error> {
    ParseValues(ValuesIn(Fields(lines)))
  }

  function ParseLines(sha: string -> Digest, lines: seq<string>): Result<UnitMeta, Error> {
    if |lines| < 3 || lines[0] != UNIT_MARKER then Err(NotManaged)
    else if HeaderCount(lines) != 1 || HeaderSum(lines[1]).None? then Err(Malformed)
    else if sha(Join(lines[2..], '\n')) != HeaderSum(lines[1]).value then Err(Modified)
    else ParseMeta(lines[2..])
  }

  function ParseUnit(sha: string -> Digest, content: string): Result<UnitMeta, Error> {
    ParseLines(sha, Split(content, '\n'))
  }

  lemma {:induction false} ValuesGrow(fields: seq<Field>, i: nat, m: Marker)
    requires i <= |fields|
    ensures |Values(fields[..i], m)| <= |Values(fields, m)|
    decreases |fields| - i
  {
    if i < |fields| {
      assert fields[..i + 1][..i] == fields[..i];
      ValuesGrow(fields, i + 1, m);
    } else {
      assert fields[..i] == fields;
    }
  }

  /** The variables of the parser's loop. */
  datatype Scan = Scan(meta: UnitMeta, listenSeen: nat, modeSeen: nat, dataSeen: nat, envSeen: nat, healthSeen: nat)
  {
    function Seen(m: Marker): nat {
      match m
      case Listen => listenSeen
      case ListenMode => modeSeen
      case Data => dataSeen
      case EnvFile => envSeen
      case Health => healthSeen
    }

    function Held(m: Marker): string {
      match m
      case Listen => meta.listen
      case ListenMode => meta.listenMode
      case Data => meta.data
      case EnvFile => meta.envFile
      case Health => meta.health
    }

    /** The body of the loop; None is the early return for a repeated marker. */
    function Note(m: Marker, value: string): Option<Scan> {
      if Seen(m) >= 1 then None
      else
        match m
        case Listen => Some(this.(listenSeen := 1, meta := meta.(listen := value)))
        case ListenMode => Some(this.(modeSeen := 1, meta := meta.(listenMode := value)))
        case Data => Some(this.(dataSeen := 1, meta := meta.(data := value)))
        case EnvFile => Some(this.(envSeen := 1, meta := meta.(envFile := value)))
        case Health => Some(this.(healthSeen := 1, meta := meta.(health := value)))
    }

    /** The loop's variables agree with the values seen so far. */
    ghost predicate Tracks(values: Marker -> seq<string>) {
      forall m: Marker :: Seen(m) == |values(m)| <= 1
        && Held(m) == First(values(m), if m == ListenMode then BOOTSTRAP else "")
    }
  }

  const START := Scan(UnitMeta("", BOOTSTRAP, "", "", ""), 0, 0, 0, 0, 0)

  lemma NoteTracks(scan: Scan, m: Marker, value: string, before: Marker -> seq<string>, after: Marker -> seq<string>)
    requires scan.Tracks(before)
    requires forall k: Marker :: after(k) == before(k) + Added(Some((m, value)), k)
    ensures match scan.Note(m, value)
            case Some(next) => next.Tracks(after)
            case None => |after(m)| > 1
  {
  }

  /** One turn of the loop. */
  lemma StepTracks(scan: Scan, fields: seq<Field>, i: nat)
    requires i < |fields| && scan.Tracks(ValuesIn(fields[..i]))
    ensures fields[i].None? ==> scan.Tracks(ValuesIn(fields[..i + 1]))
    ensures fields[i].Some? ==>
      match scan.Note(fields[i].value.0, fields[i].value.1)
      case Some(next) => next.Tracks(ValuesIn(fields[..i + 1]))
      case None => |Values(fields, fields[i].value.0)| > 1
  {
    hide Scan.Note;
    assert fields[..i + 1][..i] == fields[..i];
    var before, after := ValuesIn(fields[..i]), ValuesIn(fields[..i + 1]);
    assert forall k: Marker :: after(k) == before(k) + Added(fields[i], k);
    if fields[i].Some? {
      NoteTracks(scan, fields[i].value.0, fields[i].value.1, before, after);
      ValuesGrow(fields, i + 1, fields[i].value.0);
    }
  }

  method CountHeaders(lines: seq<string>) returns (count: nat)
    ensures count == HeaderCount(lines)
  {
    count := 0;
    for i := 0 to |lines|
      invariant count == HeaderCount(lines[..i])
    {
      assert lines[..i + 1][..i] == lines[..i];
      if HasPrefix(lines[i], MANAGED_PREFIX) {
        count := count + 1;
      }
    }
    assert lines[..|lines|] == lines;
  }

  lemma StartTracks()
    ensures START.Tracks(ValuesIn([]))
  {
  }

  lemma Repeated(fields: seq<Field>, m: Marker)
    requires |Values(fields, m)| > 1
    ensures ParseValues(ValuesIn(fields)) == Err(Malformed)
  {
    assert ValuesIn(fields)(m) == Values(fields, m);
  }

  /** The parser's pass over the lines below the header. */
  method ReadMeta(lines: seq<string>) returns (r: Result<UnitMeta, Error>)
    ensures r == ParseMeta(lines)
  {
    hide FieldOf, Scan.Note, Scan.Tracks, ValuesIn, ParseValues;
    var scan := START;
    ghost var fields := Fields(lines);
    StartTracks();
    for i := 0 to |lines|
      invariant scan.Tracks(ValuesIn(fields[..i]))
    {
      var field := FieldOf(lines[i]);
      StepTracks(scan, fields, i);
      if field.Some? {
        var next := scan.Note(field.value.0, field.value.1);
        if next.None? {
          Repeated(fields, field.value.0);
          return Err(Malformed);
        }
        scan := next.value;
      }
    }
    assert fields[..|lines|] == fields;
    r := Finish(scan, ValuesIn(fields));
  }

  /** The checks after the loop. */
  method Finish(scan: Scan, ghost values: Marker -> seq<string>) returns (r: Result<UnitMeta, Error>)
    requires scan.Tracks(values)
    ensures r == ParseValues(values)
  {
    if scan.listenSeen != 1 || scan.healthSeen != 1 || !Acceptable(scan.meta, scan.dataSeen == 1) {
      return Err(Malformed);
    }
    return Ok(scan.meta);
  }

  method ReadManagedUnit(sha: string -> Digest, content: string) returns (r: Result<UnitMeta, Error>)
    ensures r == ParseUnit(sha, content)
  {
    var lines := Split(content, '\n');
    if |lines| < 3 || lines[0] != UNIT_MARKER { return Err(NotManaged); }
    var count := CountHeaders(lines);
    var sum := HeaderSum(lines[1]);
    if count != 1 || sum.None? { return Err(Malformed); }
    if sha(Join(lines[2..], '\n')) != sum.value { return Err(Modified); }
    r := ReadMeta(lines[2..]);
  }
}
