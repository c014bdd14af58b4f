/** The text of one log record: how `out` composes a line from the timestamp,
    the four-character tag and the caller's template, how it makes sure the line
    ends in a newline, and which console colour each tag is printed in. */
module LineFormat {

  datatype Option<+T> = None | Some(value: T)

  /** A value passed through Go's `...interface{}` arguments. */
  datatype Value = Str(s: string) | Int(i: int) | Other(id: nat)

  /** `fmt.Sprintf` applied to a template and its arguments. Its placeholder
      substitution lies outside the model, so callers pass it in. */
  type Formatter = (string, seq<Value>) -> string

  /** Go reference layout of the timestamp, `DD-MM-YYYY HH:MM:SS`. */
  const DateLayout: string := "02-01-2006 15:04:05"

  /** The tags the five non-terminating level methods and `Critical` pass to `out`. */
  const DebugTag: string := "DEBG"
  const NoticeTag: string := "NOTI"
  const InfoTag: string := "INFO"
  const WarningTag: string := "WARN"
  const ErrorTag: string := "ERR "
  const CriticalTag: string := "CRIT"

  /** The part `"%s [%s]: "` renders from its two string operands. */
  function Header(date: string, tag: string): string {
    date + " [" + tag + "]: "
  }

  /** The line `out` builds. Without arguments the template is the operand of a
      `%v` verb and so appears as it is; with arguments it is appended to the
      header template and handed to `fmt.Sprintf` together with the date, the
      tag and the arguments. */
  function Compose(date: string, tag: string, format: string, args: seq<Value>, sprintf: Formatter): string {
    if |args| == 0 then Header(date, tag) + format
    else sprintf("%s [%s]: " + format, [Str(date), Str(tag)] + args)
  }

  /** Without arguments the line is the header followed by the template, and no
      formatter is consulted: a `%` in the template is never interpreted. */
  lemma ComposeVerbatim(date: string, tag: string, format: string, f: Formatter, g: Formatter)
    ensures Compose(date, tag, format, [], f) == Compose(date, tag, format, [], g)
    ensures Header(date, tag) <= Compose(date, tag, format, [], f)
    ensures Compose(date, tag, format, [], f)[|Header(date, tag)|..] == format
  {
    var line := Compose(date, tag, format, [], f);
    assert line == Header(date, tag) + format;
  }

  /** `strings.HasSuffix`. */
  predicate HasSuffix(s: string, suffix: string) {
    |suffix| <= |s| && s[|s| - |suffix|..] == suffix
  }

  /** The newline rule applied before the sink write: append `"\n"` only when it
      is missing. */
  function Terminated(s: string): (r: string)
    ensures HasSuffix(r, "\n")
    ensures s <= r && |r| <= |s| + 1
    ensures HasSuffix(s, "\n") <==> r == s
  {
    if HasSuffix(s, "\n") then s
    else
      var r := s + "\n";
      assert r[|r| - 1..] == "\n";
      r
  }

  /** Applying the rule twice is applying it once. */
  lemma TerminatedIdempotent(s: string)
    ensures Terminated(Terminated(s)) == Terminated(s)
  {
  }

  /** The rule adds as little as possible: no newline-terminated string that
      starts with `s` is shorter than `Terminated(s)`. */
  lemma TerminatedShortest(s: string, t: string)
    requires s <= t && HasSuffix(t, "\n")
    ensures |Terminated(s)| <= |t|
  {
    if !HasSuffix(s, "\n") {
      assert t != s;
    }
  }

  /** Console colours of the `fatih/color` printers `out` uses. */
  datatype Color = HiCyan | HiGreen | HiWhite | HiYellow | HiRed | HiMagenta

  /** The `switch level` of `out`: the colour a tag is printed in, or none for
      a tag outside the six. */
  function ConsoleColor(tag: string): Option<Color> {
    if tag == DebugTag then Some(HiCyan)
    else if tag == NoticeTag then Some(HiGreen)
    else if tag == InfoTag then Some(HiWhite)
    else if tag == WarningTag then Some(HiYellow)
    else if tag == ErrorTag then Some(HiRed)
    else if tag == CriticalTag then Some(HiMagenta)
    else None
  }

  /** The tag printed in a colour: the inverse of the table. */
  function ColorTag(c: Color): string {
    match c
    case HiCyan => DebugTag
    case HiGreen => NoticeTag
    case HiWhite => InfoTag
    case HiYellow => WarningTag
    case HiRed => ErrorTag
    case HiMagenta => CriticalTag
  }

  /** The table is a bijection between the six tags and the six colours; every
      other tag has no colour. */
  lemma ConsoleColorTable(tag: string, c: Color)
    ensures ConsoleColor(tag) == Some(c) <==> tag == ColorTag(c)
    ensures ConsoleColor(tag).Some? <==>
              tag in {DebugTag, NoticeTag, InfoTag, WarningTag, ErrorTag, CriticalTag}
  {
  }

  /** What `fmt.Sprintf` promises for the templates `out` builds when there are
      arguments: the two leading `%s` verbs render the date and the tag
      operands, so the result starts with the header whatever the caller's
      template and arguments are. */
  ghost predicate KeepsHeader(f: Formatter) {
    forall date: string, tag: string, format: string, args: seq<Value> ::
      Header(date, tag) <= f("%s [%s]: " + format, [Str(date), Str(tag)] + args)
  }

  /** Every composed line starts with its header: always without arguments,
      and with arguments for a formatter that renders the leading verbs. */
  lemma ComposeHeader(date: string, tag: string, format: string, args: seq<Value>, f: Formatter)
    requires |args| == 0 || KeepsHeader(f)
    ensures Header(date, tag) <= Compose(date, tag, format, args, f)
  {
    if |args| > 0 {
      assert Header(date, tag) <= f("%s [%s]: " + format, [Str(date), Str(tag)] + args);
    }
  }

  /** Reads a record back into its timestamp, tag and payload, given a
      timestamp as wide as `DateLayout` and a four-character tag. */
  function SplitLine(line: string): (r: Option<(string, string, string)>)
    ensures r.Some? ==> |r.value.0| == |DateLayout| && |r.value.1| == 4
    ensures r.Some? ==> line == Header(r.value.0, r.value.1) + r.value.2
  {
    var n := |DateLayout|;
    if |line| >= n + 9 && line[n..n + 2] == " [" && line[n + 6..n + 9] == "]: " then
      var date, tag, payload := line[..n], line[n + 2..n + 6], line[n + 9..];
      assert line == date + line[n..n + 2] + tag + line[n + 6..n + 9] + payload;
      Some((date, tag, payload))
    else None
  }

  /** A line composed without arguments splits back into exactly its parts: the
      record layout `DD-MM-YYYY HH:MM:SS [TAGG]: <message>` is unambiguous. */
  lemma {:induction false} SplitComposed(date: string, tag: string, format: string, f: Formatter)
    requires |date| == |DateLayout| && |tag| == 4
    ensures SplitLine(Compose(date, tag, format, [], f)) == Some((date, tag, format))
  {
    var line := Compose(date, tag, format, [], f);
    var n := |DateLayout|;
    assert line == date + " [" + tag + "]: " + format;
    assert line[..n] == date;
    assert line[n..n + 2] == " [";
    assert line[n + 2..n + 6] == tag;
    assert line[n + 6..n + 9] == "]: ";
    assert line[n + 9..] == format;
  }

  /** Any line that starts with a header of the record layout splits back into
      that timestamp, that tag and the rest of the line. */
  lemma {:induction false} SplitHeader(date: string, tag: string, line: string)
    requires |date| == |DateLayout| && |tag| == 4 && Header(date, tag) <= line
    ensures SplitLine(line) == Some((date, tag, line[|Header(date, tag)|..]))
  {
    var n := |DateLayout|;
    var h := Header(date, tag);
    assert h == date + " [" + tag + "]: ";
    assert line[..|h|] == h;
    assert line[..n] == h[..n] == date;
    assert line[n..n + 2] == h[n..n + 2] == " [";
    assert line[n + 2..n + 6] == h[n + 2..n + 6] == tag;
    assert line[n + 6..n + 9] == h[n + 6..n + 9] == "]: ";
  }

  /** Every record, with or without arguments, carries its timestamp and tag
      where a reader looks for them, given a formatter that renders the two
      leading verbs of the template `out` builds. */
  lemma SplitComposedHeader(date: string, tag: string, format: string, args: seq<Value>, f: Formatter)
    requires |date| == |DateLayout| && |tag| == 4
    requires |args| == 0 || KeepsHeader(f)
    ensures SplitLine(Compose(date, tag, format, args, f)).Some?
    ensures SplitLine(Compose(date, tag, format, args, f)).value.0 == date
    ensures SplitLine(Compose(date, tag, format, args, f)).value.1 == tag
  {
    ComposeHeader(date, tag, format, args, f);
    SplitHeader(date, tag, Compose(date, tag, format, args, f));
  }
}
