/** An install as its callers ask for it: the options are checked, the unit is printed from them, and
    an existing unit is the installer's own if it reads back.  This is where installing twice comes
    to depend on what was printed. */
module Requests {
  import opened Wrappers
  import HostPort
  import opened Text
  import opened UnitFile
  import opened UnitRoundTrip
  import opened Machine
  import I = Install
  import R = Reinstall

  const DEFAULT_LISTEN := "127.0.0.1:7335"

  function Defaulted(o: Options): Options {
    if o.listen == "" && o.host == "" && o.port == "" then o.(listen := DEFAULT_LISTEN) else o
  }

  predicate Absolute(path: string) { path != "" && path[0] == '/' }

  /** The checks on the values of a request, as the installer makes them. */
  predicate Admitted(p: Paths, o: Options) {
    && NoControl(o.Listener())
    && Absolute(p.dataDir) && NoControl(p.dataDir)
    && '%' !in p.dataDir && '"' !in p.dataDir && '\\' !in p.dataDir
    && (o.envFile != "" ==> Absolute(o.envFile) && NoControl(o.envFile) && '%' !in o.envFile)
  }

  /** A request for options; `others` is the verdict of the checks that look at the machine. */
  function RequestOf(sha: string -> Digest, p: Paths, o: Options, source: File, others: bool): I.Request {
    I.Request(BuildUnit(sha, p, Defaulted(o)), source, others && Admitted(p, Defaulted(o)))
  }

  /** The installer's own units are those that read back. */
  function Managed(sha: string -> Digest): Bytes -> bool {
    content => ParseUnit(sha, content).Ok?
  }

  /** Something is left of the listener once it has been trimmed. */
  predicate Visible(o: Options) { o.listen == "" || TrimSpace(o.listen) != "" }

  lemma NoControlIsOneLine(s: string)
    requires NoControl(s)
    ensures OneLine(s)
  {
  }

  lemma VisibleListener(o: Options)
    ensures TrimSpace(o.Listener()) != "" <==> Visible(o)
  {
    if o.listen == "" {
      var l := o.Listener();
      assert ':' in l by { JoinHasColon(TrimSpace(o.host), TrimSpace(o.port)); }
      ColonStays(l);
    }
  }

  lemma JoinHasColon(host: string, port: string)
    ensures ':' in HostPort.JoinHostPort(host, port)
  {
    var s := HostPort.JoinHostPort(host, port);
    if ':' in host {
      assert s[|host| + 2] == ':';
    } else {
      assert s[|host|] == ':';
    }
  }

  /** A colon is no white space, so trimming leaves it. */
  lemma ColonStays(s: string)
    requires ':' in s
    ensures TrimSpace(s) != ""
  {
    LeftKeepsColon(s);
    RightKeepsColon(TrimLeft(s));
  }

  lemma {:induction false} LeftKeepsColon(s: string)
    requires ':' in s
    ensures ':' in TrimLeft(s)
  {
    if IsSpace(s[0]) {
      assert s == [s[0]] + s[1..];
      LeftKeepsColon(s[1..]);
    }
  }

  lemma {:induction false} RightKeepsColon(s: string)
    requires ':' in s
    ensures ':' in TrimRight(s)
  {
    if IsSpace(s[|s| - 1]) {
      assert s == s[..|s| - 1] + [s[|s| - 1]];
      RightKeepsColon(s[..|s| - 1]);
    }
  }

  lemma SlashStays(s: string)
    requires Absolute(s)
    ensures TrimSpace(s) != ""
  {
    assert TrimLeft(s) == s;
    SlashFirst(s);
  }

  lemma {:induction false} SlashFirst(s: string)
    requires Absolute(s)
    ensures TrimRight(s) != ""
  {
    if IsSpace(s[|s| - 1]) {
      SlashFirst(s[..|s| - 1]);
    }
  }

  lemma TrimmedLacks(s: string, c: char)
    requires c !in s
    ensures c !in TrimSpace(s)
  {
    TrimKeeps(s, x => x != c);
  }

  lemma TrimmedControl(s: string)
    requires NoControl(s)
    ensures NoControl(TrimSpace(s))
  {
    TrimKeeps(s, x => x >= ' ' && x != '\U{7f}');
  }

  lemma AdmittedIsLegible(p: Paths, o: Options)
    requires Admitted(p, o) && OneLine(p.binary)
    ensures OneLiners(p, o) && (Legible(p, o) <==> Visible(o))
  {
    hide TrimSpace, Options.Listener;
    assert OneLiners(p, o) by {
      NoControlIsOneLine(p.dataDir);
      NoControlIsOneLine(o.Listener());
      NoControlIsOneLine(o.envFile);
    }
    VisibleListener(o);
    SlashStays(p.dataDir);
    TrimmedControl(o.Listener());
    TrimmedControl(p.dataDir);
    TrimmedControl(o.envFile);
    TrimmedLacks(o.envFile, '%');
  }

  /** An admitted request prints a unit that reads back if and only if its listener is visible. */
  lemma PrintsManaged(sha: string -> Digest, p: Paths, o: Options)
    requires Admitted(p, o) && OneLine(p.binary)
    ensures ParseUnit(sha, BuildUnit(sha, p, o)) == if Visible(o) then Ok(Recorded(p, o)) else Err(Malformed)
  {
    hide TrimSpace, ParseUnit, BuildUnit, Options.Listener, OneLiners, Legible, Visible;
    AdmittedIsLegible(p, o);
    RoundTrip(sha, p, o);
  }

  /** Installing, and then installing the same again.  The second time is a no-op if and only if the
      listener is visible and the executable is still where it was; with a listener of white space
      only, the first install succeeds and the second refuses the unit that the first has written. */
  method InstallTwice(h: Host, sha: string -> Digest, digest: Bytes -> string,
                      p: Paths, o: Options, source: File, others: bool)
    returns (first: I.Report, second: I.Report, ghost between: seq<Outcome>)
    requires OneLine(p.binary)
    requires h.w.facts.unitUnreadable ==> Unit in h.w.files
    modifies h`w, h`tape, h`done, h`failed, h`kept
    ensures first.Installed? ==>
      (second.NoOp? <==>
        && Visible(Defaulted(o)) && I.SourceStays(old(h.w), RequestOf(sha, p, o, source, others))
        && I.Answers(between, 3))
    ensures first.Installed? && !Visible(Defaulted(o)) ==> second.Refused?
  {
    hide I.Reports, I.Acceptable, I.UpToDate, I.FirstInstall, I.UnitInTheWay, I.Failures, I.EndsWith, I.RestoreOps;
    hide I.AfterFirstStart, BuildUnit, ParseUnit, Admitted, I.Commits, I.CommitOps, I.Provides, I.InPlace, I.Answers;
    hide I.AfterForeign, I.SourceStays, Visible, Defaulted, OneLine;
    var req := RequestOf(sha, p, o, source, others);
    ghost var stopped, cut;
    first, stopped, cut := I.InstallOptions(h, Managed(sha), digest, req);
    between := h.tape;
    if first.Installed? {
      PrintsManaged(sha, p, Defaulted(o));
      Installed(old(h.w), h.w, Managed(sha), digest, req, stopped);
    }
    second, stopped, cut := I.InstallOptions(h, Managed(sha), digest, req);
  }

  lemma Installed(w: World, w': World, managed: Bytes -> bool, digest: Bytes -> string, req: I.Request,
                  stopped: Activity)
    requires I.Reports(I.Installed, w, w', digest, req, stopped)
    requires I.Acceptable(w, managed) && w.Readable(req.source)
    requires w.facts.unitUnreadable ==> Unit in w.files
    ensures I.UpToDate(w', digest, req) && I.Acceptable(w', managed) <==> managed(req.unit) && I.SourceStays(w, req)
    ensures w'.Readable(Unit) && w'.files[Unit] == req.unit
    ensures !managed(req.unit) ==> !I.Acceptable(w', managed)
    ensures I.UpToDate(w', digest, req) ==> w'.Readable(req.source)
  {
    hide I.Published, I.Incoming;
    I.RepeatIsNoOp(w, w', managed, digest, req);
  }

  const PATHS := Paths("/bin", "/srv/w")

  const BLANK := Options("", "", " ", "")

  lemma BlankIsAdmitted()
    ensures Admitted(PATHS, BLANK) && Defaulted(BLANK) == BLANK && OneLine(PATHS.binary)
  {
    hide TrimSpace, HostPort.JoinHostPort, NoControl;
    assert BLANK.Listener() == " ";
    assert NoControl(" ") && NoControl(PATHS.dataDir) by { PrintableIsNoControl(); }
  }

  lemma PrintableIsNoControl()
    ensures NoControl(" ") && NoControl(PATHS.dataDir)
  {
  }

  lemma BlankIsInvisible()
    ensures !Visible(BLANK)
  {
    assert IsSpace(' ') && " "[1..] == "";
    assert TrimLeft(" ") == TrimLeft("");
  }

  /** A blank listener passes the checks, and the unit printed from it cannot be read back. */
  lemma BlankListener(sha: string -> Digest)
    ensures Admitted(PATHS, Defaulted(BLANK))
    ensures ParseUnit(sha, BuildUnit(sha, PATHS, Defaulted(BLANK))) == Err(Malformed)
  {
    hide ParseUnit, BuildUnit, Visible, Admitted, Defaulted, OneLine;
    BlankIsAdmitted();
    BlankIsInvisible();
    PrintsManaged(sha, PATHS, BLANK);
  }

  /** A host written with its brackets, as in a URL. */
  const BRACKETED := Options("[::1]", "7335", "", "")

  /** A port with a colon in it. */
  const COLON := Options("::", "1:2", "", "")

  lemma ExplicitAreAdmitted(o: Options)
    requires o == BRACKETED || o == COLON
    ensures Admitted(PATHS, o) && Defaulted(o) == o && Visible(o) && OneLine(PATHS.binary)
    ensures TrimSpace(o.host) == o.host && TrimSpace(o.port) == o.port
  {
    hide TrimSpace, NoControl, HostPort.JoinHostPort;
    ExplicitArePrintable(o);
    JoinedNoControl(o.host, o.port);
    PrintableIsNoControl();
  }

  lemma ExplicitArePrintable(o: Options)
    requires o == BRACKETED || o == COLON
    ensures Trimmed(o.host) && Trimmed(o.port) && NoControl(o.host) && NoControl(o.port)
  {
  }

  lemma JoinedNoControl(host: string, port: string)
    requires NoControl(host) && NoControl(port)
    ensures NoControl(HostPort.JoinHostPort(host, port))
  {
  }

  /** Such a host and such a port pass the checks and print a unit that reads back, and a reinstall
      from its own metadata prints a different one. */
  lemma ListenerNotKept(sha: string -> Digest, o: Options)
    requires o == BRACKETED || o == COLON
    ensures Admitted(PATHS, Defaulted(o)) && ParseUnit(sha, BuildUnit(sha, PATHS, Defaulted(o))).Ok?
    ensures BuildUnit(sha, PATHS, R.Recovered(PATHS, o)) != BuildUnit(sha, PATHS, o)
  {
    hide ParseUnit, BuildUnit, Visible, Admitted, Defaulted, OneLine, TrimSpace, Options.Listener;
    ExplicitAreAdmitted(o);
    PrintsManaged(sha, PATHS, o);
    AdmittedIsLegible(PATHS, o);
    R.BareReinstall(sha, PATHS, o);
  }
}
