/** A reinstall without flags: the options recovered from the installed unit's metadata print
    the very same unit. */
module Reinstall {
  import opened Wrappers
  import opened Text
  import opened HostPort
  import opened Quote
  import opened UnitFile
  import opened UnitRoundTrip

  /** The options recovered from metadata; an explicit listener that cannot be split falls back
      to the single-address form. */
  function OptionsFromMeta(meta: UnitMeta, envFile: string): Options {
    if meta.listenMode == EXPLICIT && SplitHostPort(meta.listen).Some? then
      var Pair(host, port) := SplitHostPort(meta.listen).value;
      Options(host, port, "", envFile)
    else Options("", "", meta.listen, envFile)
  }

  // -------------------------------------------------------- printing is injective

  lemma {:induction false} MetaLinesAt(fields: seq<(Marker, string)>, i: nat)
    ensures |MetaLines(fields)| == |fields|
    ensures i < |fields| ==> MetaLines(fields)[i] == fields[i].0.Text() + fields[i].1
  {
    hide Marker.Text;
    if fields == [] {
    } else {
      MetaLinesAt(fields[..|fields| - 1], i);
    }
  }

  /** How many environment-file lines a unit has in each of its two parts. */
  function EnvCount(o: Options): nat { if o.envFile != "" then 1 else 0 }

  lemma BodyShape(p: Paths, o: Options)
    ensures |BodyLines(p, o)| == |HEAD| + |HARDENING| + |FOOT| + 3 + EnvCount(o)
    ensures BodyLines(p, o)[|HEAD|] == ExecLine(p, o)
  {
  }

  lemma MetaShape(p: Paths, o: Options)
    ensures var lines := MetaLines(MetaFields(p, o));
      && |lines| == 4 + EnvCount(o)
      && lines[0] == Listen.Text() + o.Listener()
      && lines[1] == ListenMode.Text() + o.Mode()
      && lines[2] == Data.Text() + p.dataDir
      && (o.envFile != "" ==> lines[3] == EnvFile.Text() + o.envFile)
  {
    var fields := MetaFields(p, o);
    MetaLinesAt(fields, 0);
    MetaLinesAt(fields, 1);
    MetaLinesAt(fields, 2);
    MetaLinesAt(fields, 3);
  }

  lemma ContentShape(p: Paths, o: Options)
    ensures var lines, e := ContentLines(p, o), EnvCount(o);
      && |lines| == |HEAD| + |HARDENING| + |FOOT| + 7 + 2 * e
      && lines[0] == Listen.Text() + o.Listener()
      && lines[1] == ListenMode.Text() + o.Mode()
      && lines[2] == Data.Text() + p.dataDir
      && (o.envFile != "" ==> lines[3] == EnvFile.Text() + o.envFile)
      && lines[4 + e + |HEAD|] == ExecLine(p, o)
  {
    MetaShape(p, o);
    BodyShape(p, o);
    var meta, body := MetaLines(MetaFields(p, o)), BodyLines(p, o);
    assert (meta + body)[|meta| + |HEAD|] == body[|HEAD|];
  }

  lemma SameTail(prefix: string, a: string, b: string)
    requires prefix + a == prefix + b
    ensures a == b
  {
    assert (prefix + a)[|prefix|..] == a;
    assert (prefix + b)[|prefix|..] == b;
  }

  /** Two units with the same bytes were printed from the same values: the listener, its mode,
      the data directory, the environment file and the whole command line. */
  lemma {:induction false} PrintingIsInjective(sha: string -> Digest, p: Paths, o: Options, p': Paths, o': Options)
    requires OneLiners(p, o) && OneLiners(p', o')
    requires BuildUnit(sha, p, o) == BuildUnit(sha, p', o')
    ensures o.Listener() == o'.Listener() && o.Mode() == o'.Mode() && p.dataDir == p'.dataDir
    ensures o.envFile == o'.envFile && ExecArgs(p, o) == ExecArgs(p', o')
  {
    var lines, lines' := ContentLines(p, o), ContentLines(p', o');
    assert lines == lines' by {
      ContentIsOneLiners(p, o);
      ContentIsOneLiners(p', o');
      SplitAssembled(sha, lines);
      SplitAssembled(sha, lines');
      SameLines(sha, lines, lines');
    }
    ContentShape(p, o);
    ContentShape(p', o');
    assert EnvCount(o) == EnvCount(o');
    SameTail(Listen.Text(), o.Listener(), o'.Listener());
    SameTail(ListenMode.Text(), o.Mode(), o'.Mode());
    SameTail(Data.Text(), p.dataDir, p'.dataDir);
    if o.envFile != "" {
      SameTail(EnvFile.Text(), o.envFile, o'.envFile);
    }
    SameTail("ExecStart=", QuoteLine(ExecArgs(p, o)), QuoteLine(ExecArgs(p', o')));
    QuoteLineInjective(ExecArgs(p, o), ExecArgs(p', o'));
  }

  lemma SameLines(sha: string -> Digest, lines: seq<string>, lines': seq<string>)
    requires AllLines(sha, lines) + [""] == AllLines(sha, lines') + [""]
    ensures lines == lines'
  {
    var a, a' := AllLines(sha, lines) + [""], AllLines(sha, lines') + [""];
    assert a[2..|a| - 1] == lines;
    assert a'[2..|a'| - 1] == lines';
  }

  // ------------------------------------------------------------ the fixed point

  lemma TrimIsInside(s: string)
    ensures forall c :: c in TrimSpace(s) ==> c in s
  {
    TrimKeeps(s, c => c in s);
  }

  lemma TrimKeepsPlain(host: string, port: string)
    requires Plain(host, port)
    ensures Plain(TrimSpace(host), TrimSpace(port))
  {
    TrimIsInside(host);
    TrimIsInside(port);
  }

  /** A listener joined from trimmed parts has no white space at its ends. */
  lemma JoinedIsTrimmed(host: string, port: string)
    requires Trimmed(host) && Trimmed(port)
    ensures Trimmed(JoinHostPort(host, port))
  {
    var s := JoinHostPort(host, port);
    assert s[0] == if ':' in host then '[' else if host == "" then ':' else host[0];
    assert s[|s| - 1] == if port == "" then ':' else port[|port| - 1];
  }

  /** What the recovered options need: an environment file and a single address without outer
      white space, or a host and a port that joining and splitting preserve. */
  predicate Recoverable(o: Options) {
    && Trimmed(o.envFile)
    && (if o.listen != "" then Trimmed(o.listen) else Plain(TrimSpace(o.host), TrimSpace(o.port)))
  }

  function Recovered(p: Paths, o: Options): Options {
    OptionsFromMeta(Recorded(p, o), Recorded(p, o).envFile)
  }

  /** What is printed depends on the arguments, the listener, the mode and the environment file. */
  lemma SameContent(p: Paths, o: Options, o': Options)
    requires ExecArgs(p, o) == ExecArgs(p, o')
    requires o.Listener() == o'.Listener() && o.Mode() == o'.Mode() && o.envFile == o'.envFile
    ensures ContentLines(p, o) == ContentLines(p, o')
  {
    hide ExecArgs, Options.Listener, Options.Mode;
    assert ExecLine(p, o) == ExecLine(p, o');
  }

  lemma RecoverableIsFixed(sha: string -> Digest, p: Paths, o: Options)
    requires Legible(p, o) && Recoverable(o)
    ensures BuildUnit(sha, p, Recovered(p, o)) == BuildUnit(sha, p, o)
  {
    hide ContentLines, JoinHostPort, SplitHostPort, TrimSpace, NoControl, QuoteLine;
    if o.listen == "" {
      var host, port := TrimSpace(o.host), TrimSpace(o.port);
      JoinedIsTrimmed(host, port);
      SplitInvertsJoin(host, port);
      assert Recovered(p, o) == Options(host, port, "", o.envFile);
      assert ExecArgs(p, Recovered(p, o)) == ExecArgs(p, o);
    } else {
      assert Recovered(p, o) == Options("", "", o.listen, o.envFile);
    }
    SameContent(p, o, Recovered(p, o));
  }

  lemma SplitIsInside(s: string)
    requires SplitHostPort(s).Some?
    ensures forall c :: c in SplitHostPort(s).value.host || c in SplitHostPort(s).value.port ==> c in s
  {
  }

  lemma JoinIsOneLine(host: string, port: string)
    requires OneLine(host) && OneLine(port)
    ensures OneLine(JoinHostPort(host, port))
  {
  }

  lemma RecoveredIsOneLiners(p: Paths, o: Options)
    requires OneLiners(p, o) && Legible(p, o)
    ensures OneLiners(p, Recovered(p, o))
  {
    var o', l := Recovered(p, o), TrimSpace(o.Listener());
    assert OneLine(l) by { TrimIsInside(o.Listener()); }
    assert OneLine(o'.envFile) by { TrimIsInside(o.envFile); }
    assert OneLine(o'.Listener()) by {
      if o'.listen == "" {
        SplitIsInside(l);
        TrimIsInside(o'.host);
        TrimIsInside(o'.port);
        JoinIsOneLine(TrimSpace(o'.host), TrimSpace(o'.port));
      }
    }
  }

  lemma SevenArgs(binary: string, host: string, port: string, dataDir: string)
    ensures var args := [binary] + ["--host", host, "--port", port] + ["--data-dir", dataDir];
      |args| == 7 && args[2] == host && args[4] == port
  {
  }

  /** The host and port on an explicit command line. */
  lemma ArgsShowHostPort(p: Paths, o: Options)
    requires o.listen == ""
    ensures |ExecArgs(p, o)| == 7
    ensures ExecArgs(p, o)[2] == TrimSpace(o.host) && ExecArgs(p, o)[4] == TrimSpace(o.port)
  {
    SevenArgs(p.binary, TrimSpace(o.host), TrimSpace(o.port), p.dataDir);
  }

  lemma FixedIsRecoverable(sha: string -> Digest, p: Paths, o: Options)
    requires OneLiners(p, o) && Legible(p, o)
    requires BuildUnit(sha, p, Recovered(p, o)) == BuildUnit(sha, p, o)
    ensures Recoverable(o)
  {
    var o' := Recovered(p, o);
    assert o.Listener() == o'.Listener() && o.Mode() == o'.Mode() && o.envFile == o'.envFile
        && ExecArgs(p, o) == ExecArgs(p, o') by {
      RecoveredIsOneLiners(p, o);
      PrintingIsInjective(sha, p, o, p, o');
    }
    SameIsRecoverable(p, o, o');
  }

  lemma SameIsRecoverable(p: Paths, o: Options, o': Options)
    requires Legible(p, o) && o' == Recovered(p, o)
    requires o.Listener() == o'.Listener() && o.Mode() == o'.Mode() && o.envFile == o'.envFile
    requires ExecArgs(p, o) == ExecArgs(p, o')
    ensures Recoverable(o)
  {
    if o.listen == "" {
      ArgsShowHostPort(p, o);
      ArgsShowHostPort(p, o');
      SplitIsPlain(TrimSpace(o.Listener()));
      TrimKeepsPlain(o'.host, o'.port);
    }
  }

  /** Reinstalling from an installed unit's own metadata reproduces it byte for byte exactly when
      the options it was printed from are recoverable. */
  lemma {:induction false} BareReinstall(sha: string -> Digest, p: Paths, o: Options)
    requires OneLiners(p, o) && Legible(p, o)
    ensures ParseUnit(sha, BuildUnit(sha, p, o)) == Ok(Recorded(p, o))
    ensures BuildUnit(sha, p, Recovered(p, o)) == BuildUnit(sha, p, o) <==> Recoverable(o)
  {
    RoundTrip(sha, p, o);
    if Recoverable(o) {
      RecoverableIsFixed(sha, p, o);
    } else if BuildUnit(sha, p, Recovered(p, o)) == BuildUnit(sha, p, o) {
      FixedIsRecoverable(sha, p, o);
    }
  }

  // ------------------------------------------------------------ the command line

  /** The arguments start the binary with the recorded listener and the data directory. */
  ghost predicate Starts(args: seq<string>, p: Paths, listener: string) {
    && |args| >= 5 && args[0] == p.binary
    && args[|args| - 2..] == ["--data-dir", p.dataDir]
    && (if args[1] == "--listen" then |args| == 5 && args[2] == listener
        else |args| == 7 && args[1] == "--host" && args[3] == "--port" && JoinHostPort(args[2], args[4]) == listener)
  }

  lemma ArgsStart(p: Paths, o: Options)
    ensures Starts(ExecArgs(p, o), p, o.Listener())
  {
    hide JoinHostPort, TrimSpace;
    if o.listen == "" {
      SevenArgs(p.binary, TrimSpace(o.host), TrimSpace(o.port), p.dataDir);
    }
  }

  /** One line of a printed unit decodes to a command line that starts the binary, keeps its data where
      the unit says and listens where its metadata says. */
  lemma CommandLine(sha: string -> Digest, p: Paths, o: Options)
    requires OneLiners(p, o)
    ensures var lines := Split(BuildUnit(sha, p, o), '\n');
      exists i, args :: 0 <= i < |lines| && lines[i] == "ExecStart=" + QuoteLine(args)
                        && DecodeLine(QuoteLine(args)) == Some(args) && Starts(args, p, o.Listener())
  {
    hide ContentLines, ExecArgs, Starts, Options.Listener, BodyLines, MetaLines;
    ContentIsOneLiners(p, o);
    SplitAssembled(sha, ContentLines(p, o));
    ContentShape(p, o);
    ArgsStart(p, o);
    DecodeQuoteLine(ExecArgs(p, o));
    var k := 4 + EnvCount(o) + |HEAD|;
    InAssembled(sha, ContentLines(p, o), k);
    assert Split(BuildUnit(sha, p, o), '\n')[k + 2] == "ExecStart=" + QuoteLine(ExecArgs(p, o));
  }

  lemma InAssembled(sha: string -> Digest, lines: seq<string>, k: nat)
    requires k < |lines|
    ensures (AllLines(sha, lines) + [""])[k + 2] == lines[k]
  {
  }
}
