/** Quoting of command-line arguments in the unit, and a decoder for exactly the escapes that
    the quoting writes. */
module Quote {
  import opened Wrappers

  function Escape(c: char): string {
    if c == '%' then "%%"
    else if c == '"' || c == '\\' || c == '$' || c == '`' then ['\\', c]
    else [c]
  }

  function EscapeAll(s: string): string {
    if s == "" then "" else Escape(s[0]) + EscapeAll(s[1..])
  }

  function Quoted(s: string): string { "\"" + EscapeAll(s) + "\"" }

  lemma {:induction false} EscapeAllSnoc(s: string, c: char)
    ensures EscapeAll(s + [c]) == EscapeAll(s) + Escape(c)
  {
    if s == "" {
      assert s + [c] == [c];
      assert EscapeAll([c]) == Escape(c) + EscapeAll("");
    } else {
      EscapeAllSnoc(s[1..], c);
      assert (s + [c])[1..] == s[1..] + [c];
    }
  }

  /** The printer's loop over the bytes of an argument. */
  method SystemdQuote(s: string) returns (b: string)
    ensures b == Quoted(s)
  {
    b := "\"";
    assert EscapeAll(s[..0]) == "";
    hide EscapeAll;
    var i := 0;
    while i < |s|
      invariant 0 <= i <= |s|
      invariant b == "\"" + EscapeAll(s[..i])
    {
      var c := s[i];
      EscapeAllSnoc(s[..i], c);
      assert s[..i + 1] == s[..i] + [c];
      if c == '%' {
        b := b + "%%";
      } else if c == '"' || c == '\\' || c == '$' || c == '`' {
        b := b + ['\\', c];
      } else {
        b := b + [c];
      }
      i := i + 1;
    }
    assert s[..i] == s;
    b := b + "\"";
  }

  /** Reads up to the closing quote: the decoded text and what follows the quote. */
  function Unescape(s: string): Option<(string, string)>
    decreases |s|
  {
    if s == "" then None
    else if s[0] == '"' then Some(("", s[1..]))
    else if s[0] == '%' || s[0] == '\\' then
      if |s| < 2 || (s[0] == '%' && s[1] != '%') then None
      else Prepend(s[1], Unescape(s[2..]))
    else if s[0] == '$' || s[0] == '`' then None
    else Prepend(s[0], Unescape(s[1..]))
  }

  function Prepend(c: char, r: Option<(string, string)>): Option<(string, string)> {
    match r
    case None => None
    case Some((text, rest)) => Some(([c] + text, rest))
  }

  datatype Token = Bad | Last(text: string) | Then(text: string, more: string)

  /** One quoted argument and, after a single space, the rest of the line. */
  function NextToken(s: string): (t: Token)
    ensures t.Then? ==> |t.more| < |s|
  {
    if s == "" || s[0] != '"' then Bad
    else
      match Unescape(s[1..])
      case None => Bad
      case Some((text, rest)) =>
        if rest == "" then Last(text)
        else if rest[0] == ' ' && 1 < |rest| <= |s| then Then(text, rest[1..])
        else Bad
  }

  /** Reads a line of quoted arguments separated by single spaces. */
  function DecodeLine(s: string): Option<seq<string>>
    decreases |s|
  {
    if s == "" then Some([])
    else
      match NextToken(s)
      case Bad => None
      case Last(text) => Some([text])
      case Then(text, more) =>
        var args := DecodeLine(more);
        if args.None? then None else Some([text] + args.value)
  }

  /** The arguments as they appear after `ExecStart=`. */
  function QuoteLine(args: seq<string>): string {
    if |args| == 0 then ""
    else if |args| == 1 then Quoted(args[0])
    else Quoted(args[0]) + " " + QuoteLine(args[1..])
  }

  /** Reading back one quoted argument, whatever follows it. */
  lemma {:induction false} UnescapeEscape(s: string, rest: string)
    ensures Unescape(EscapeAll(s) + "\"" + rest) == Some((s, rest))
  {
    if s == "" {
      assert EscapeAll(s) + "\"" + rest == "\"" + rest;
      assert ("\"" + rest)[1..] == rest;
    } else {
      UnescapeEscape(s[1..], rest);
      var tail := EscapeAll(s[1..]) + "\"" + rest;
      var e := Escape(s[0]);
      assert EscapeAll(s) + "\"" + rest == e + tail;
      assert (e + tail)[|e|..] == tail;
      assert [s[0]] + s[1..] == s;
    }
  }

  lemma NextQuoted(arg: string, more: string)
    ensures NextToken(Quoted(arg)) == Last(arg)
    ensures more != "" ==> NextToken(Quoted(arg) + " " + more) == Then(arg, more)
  {
    UnescapeEscape(arg, "");
    assert Quoted(arg)[1..] == EscapeAll(arg) + "\"" + "";
    var rest := " " + more;
    UnescapeEscape(arg, rest);
    assert (Quoted(arg) + " " + more)[1..] == EscapeAll(arg) + "\"" + rest;
    assert rest[1..] == more;
  }

  /** Decoding undoes quoting, for every list of arguments. */
  lemma {:induction false} DecodeQuoteLine(args: seq<string>)
    ensures DecodeLine(QuoteLine(args)) == Some(args)
  {
    if |args| == 1 {
      NextQuoted(args[0], "");
      assert [args[0]] == args;
    } else if |args| > 1 {
      DecodeQuoteLine(args[1..]);
      NextQuoted(args[0], QuoteLine(args[1..]));
      assert [args[0]] + args[1..] == args;
    }
  }

  /** So different argument lists print different lines. */
  lemma QuoteLineInjective(a: seq<string>, b: seq<string>)
    requires QuoteLine(a) == QuoteLine(b)
    ensures a == b
  {
    DecodeQuoteLine(a);
    DecodeQuoteLine(b);
  }

  /** Quoting adds no line break of its own. */
  lemma {:induction false} QuoteLineOneLine(args: seq<string>)
    requires forall i :: 0 <= i < |args| ==> '\n' !in args[i]
    ensures '\n' !in QuoteLine(args)
  {
    if |args| > 0 {
      EscapeOneLine(args[0]);
      if |args| > 1 {
        assert forall i :: 0 <= i < |args[1..]| ==> args[1..][i] == args[i + 1];
        QuoteLineOneLine(args[1..]);
      }
    }
  }

  lemma {:induction false} EscapeOneLine(s: string)
    requires '\n' !in s
    ensures '\n' !in EscapeAll(s)
  {
    if s == "" {
    } else {
      assert s[0] in s;
      assert forall c :: c in s[1..] ==> c in s;
      EscapeOneLine(s[1..]);
    }
  }
}
